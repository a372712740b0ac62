/**
 * The service worker's cache policy.  Installing stores the four static
 * assets in the current cache, activating deletes every other cache, and
 * fetching same-origin requests goes to the network first: a 200 answer
 * is stored, and when the network fails the cached answer or an offline
 * page is served.
 */
module ServiceWorker {
  import opened Js

  const CACHE_NAME: JsString := Bmp("keiba-nyumon-v1")

  const STATIC_ASSETS: seq<JsString> := [Bmp("/"), Bmp("/manifest.json"), Bmp("/favicon.svg"), Bmp("/og/default.png")]

  const SLASH: Unit := 0x2F

  /** The `://` after a URL's scheme. */
  const SCHEME_END: JsString := [0x3A, 0x2F, 0x2F]

  datatype Response = Response(status: int, statusText: JsString, contentType: Option<JsString>, body: JsString)

  /** The answer when neither the network nor a cache has one. */
  const OFFLINE: Response := Response(
    503, Bmp("Service Unavailable"), Some(Bmp("text/plain; charset=utf-8")),
    Bmp("オフラインです。インターネット接続を確認してください。"))

  /** A request: its URL and whether its method is GET. */
  datatype Request = Request(url: JsString, isGet: bool)

  /** One cache: responses by request URL. */
  type Cache = map<JsString, Response>

  /** The origin's caches, their names in creation order. */
  datatype Storage = Storage(names: seq<JsString>, caches: map<JsString, Cache>)

  /** What the fetch handler does: leave the request to the browser, or answer it. */
  datatype Handling = NotIntercepted | Respond(response: Response)

  // ---------------------------------------------------------------------
  // Origins
  // ---------------------------------------------------------------------

  /** The first `/` at or after `k`, or `|s|`. */
  function SlashFrom(s: JsString, k: nat): (r: nat)
    requires k <= |s|
    ensures k <= r <= |s|
    ensures r < |s| ==> s[r] == SLASH
    ensures forall i | k <= i < r :: s[i] != SLASH
    decreases |s| - k
  {
    if k == |s| || s[k] == SLASH then k else SlashFrom(s, k + 1)
  }

  /** A URL's origin: the scheme, `://` and the authority up to the first `/`. */
  function OriginOf(url: JsString): JsString {
    var k := IndexOf(url, SCHEME_END);
    if k < 0 then url else url[..SlashFrom(url, k + |SCHEME_END|)]
  }

  /** `self.location.origin`: a scheme, `://` and an authority without `/`. */
  predicate IsOrigin(o: JsString) {
    var k := IndexOf(o, SCHEME_END);
    k >= 0 && forall i | k + |SCHEME_END| <= i < |o| :: o[i] != SLASH
  }

  /** The scheme separator of an origin is found at the same place in any URL it begins. */
  lemma SchemeKept(origin: JsString, rest: JsString)
    requires IsOrigin(origin)
    ensures IndexOf(origin + rest, SCHEME_END) == IndexOf(origin, SCHEME_END)
  {
    var k := IndexOf(origin, SCHEME_END);
    var url := origin + rest;
    assert url[k..k + |SCHEME_END|] == origin[k..k + |SCHEME_END|];
    assert OccursAt(url, SCHEME_END, k);
    forall j | 0 <= j < k ensures !OccursAt(url, SCHEME_END, j) {
      assert !OccursAt(origin, SCHEME_END, j);
      assert url[j..j + |SCHEME_END|] == origin[j..j + |SCHEME_END|];
    }
  }

  /** The test as written: `request.url.startsWith(self.location.origin)`. */
  predicate InterceptsAsWritten(url: JsString, origin: JsString) {
    StartsWith(url, origin)
  }

  /**
   * The test as written also accepts another host whose name merely
   * begins with the origin's host: its requests are answered and cached.
   */
  lemma LookalikeHostIntercepted(origin: JsString, more: JsString, path: JsString)
    requires IsOrigin(origin)
    requires more != [] && forall i | 0 <= i < |more| :: more[i] != SLASH
    ensures InterceptsAsWritten(origin + more + [SLASH] + path, origin)
    ensures OriginOf(origin + more + [SLASH] + path) != origin
  {
    var url := origin + more + [SLASH] + path;
    assert url == origin + (more + [SLASH] + path);
    SchemeKept(origin, more + [SLASH] + path);
    var k := IndexOf(origin, SCHEME_END);
    var j := SlashFrom(url, k + |SCHEME_END|);
    assert url[|origin| + |more|] == SLASH;
    forall i | k + |SCHEME_END| <= i < |origin| + |more| ensures url[i] != SLASH {
      if i < |origin| {
        assert url[i] == origin[i];
      } else {
        assert url[i] == more[i - |origin|];
      }
    }
    assert j == |origin| + |more|;
    assert |OriginOf(url)| == |origin| + |more|;
    assert url[..|origin|] == origin;
  }

  /** The test the comment asks for: the URL is the origin itself or a path below it. */
  predicate Intercepts(url: JsString, origin: JsString) {
    url == origin || StartsWith(url, origin + [SLASH])
  }

  /** The corrected test intercepts exactly the requests whose origin is the worker's. */
  lemma InterceptsIffSameOrigin(url: JsString, origin: JsString)
    requires IsOrigin(origin)
    ensures Intercepts(url, origin) <==> OriginOf(url) == origin
  {
    if url == origin {
      OriginOfItself(origin);
    } else if StartsWith(url, origin + [SLASH]) {
      OriginOfPath(url, origin);
    }
    if OriginOf(url) == origin {
      SameOriginIntercepted(url, origin);
    }
  }

  /** An origin is its own origin. */
  lemma OriginOfItself(origin: JsString)
    requires IsOrigin(origin)
    ensures OriginOf(origin) == origin
  {
    var k := IndexOf(origin, SCHEME_END);
    assert SlashFrom(origin, k + |SCHEME_END|) == |origin|;
    assert origin[..|origin|] == origin;
  }

  /** A path below an origin has that origin. */
  lemma OriginOfPath(url: JsString, origin: JsString)
    requires IsOrigin(origin) && StartsWith(url, origin + [SLASH])
    ensures OriginOf(url) == origin
  {
    var k := IndexOf(origin, SCHEME_END);
    assert url == origin + url[|origin|..];
    SchemeKept(origin, url[|origin|..]);
    assert url[|origin|] == SLASH;
    forall i | k + |SCHEME_END| <= i < |origin| ensures url[i] != SLASH {
      assert url[i] == origin[i];
    }
    assert SlashFrom(url, k + |SCHEME_END|) == |origin|;
    assert url[..|origin|] == origin;
  }

  /** A URL is its origin, or its origin followed by a path. */
  lemma SameOriginIntercepted(url: JsString, origin: JsString)
    requires OriginOf(url) == origin
    ensures Intercepts(url, origin)
  {
    var m := IndexOf(url, SCHEME_END);
    if m >= 0 {
      var j := SlashFrom(url, m + |SCHEME_END|);
      if j < |url| {
        assert url[..j + 1] == url[..j] + [SLASH];
      } else {
        assert url[..j] == url;
      }
    }
  }

  // ---------------------------------------------------------------------
  // The cache storage
  // ---------------------------------------------------------------------

  predicate Distinct(names: seq<JsString>) {
    forall i, j | 0 <= i < j < |names| :: names[i] != names[j]
  }

  /** Each cache is listed once, and the list names exactly the caches. */
  predicate Valid(s: Storage) {
    && Distinct(s.names)
    && (forall n | n in s.caches :: n in s.names)
    && (forall n | n in s.names :: n in s.caches)
  }

  /** `caches.open(name)`: the cache is created, last in order, when it does not exist. */
  function Opened(s: Storage, name: JsString): (r: Storage)
    ensures name in r.caches
  {
    if name in s.caches then s else Storage(s.names + [name], s.caches[name := map[]])
  }

  /** Opening keeps every cache and its contents, and keeps the storage valid. */
  lemma OpenedKeeps(s: Storage, name: JsString)
    requires Valid(s)
    ensures Valid(Opened(s, name))
    ensures Opened(s, name).caches == if name in s.caches then s.caches else s.caches[name := map[]]
  {
  }

  /** `cache.put(url, response)` on the named cache. */
  function PutEntry(s: Storage, name: JsString, url: JsString, resp: Response): Storage
    requires name in s.caches
  {
    Storage(s.names, s.caches[name := s.caches[name][url := resp]])
  }

  /** `names` without `x`, in order. */
  function Without(names: seq<JsString>, x: JsString): (r: seq<JsString>)
    ensures forall n :: n in r <==> n in names && n != x
  {
    if names == [] then [] else (if names[0] == x then [] else [names[0]]) + Without(names[1..], x)
  }

  lemma {:induction false} WithoutDistinct(names: seq<JsString>, x: JsString)
    requires Distinct(names)
    ensures Distinct(Without(names, x))
  {
    if names != [] {
      WithoutDistinct(names[1..], x);
      assert names[0] !in names[1..];
    }
  }

  /** `caches.delete(name)` */
  function Deleted(s: Storage, name: JsString): Storage {
    Storage(Without(s.names, name), s.caches - {name})
  }

  /** The list `caches.keys()` returned, with every name but the current one deleted, in order. */
  function DeleteOthers(s: Storage, names: seq<JsString>): Storage
    decreases |names|
  {
    if names == [] then s
    else DeleteOthers(if names[0] == CACHE_NAME then s else Deleted(s, names[0]), names[1..])
  }

  /** The first cache, in creation order, holding an answer for the URL. */
  function MatchIn(names: seq<JsString>, caches: map<JsString, Cache>, url: JsString): (r: Option<Response>)
    ensures r.Some? ==> exists n | n in names && n in caches :: url in caches[n] && caches[n][url] == r.value
    ensures r.None? ==> forall n | n in names && n in caches :: url !in caches[n]
  {
    if names == [] then None
    else if names[0] in caches && url in caches[names[0]] then Some(caches[names[0]][url])
    else MatchIn(names[1..], caches, url)
  }

  /** `caches.match(request)`: only GET requests are matched. */
  function Match(s: Storage, req: Request): Option<Response> {
    if req.isGet then MatchIn(s.names, s.caches, req.url) else None
  }

  /** The objects behind `caches`. */
  class CacheStorage {
    var names: seq<JsString>
    var caches: map<JsString, Cache>

    function State(): Storage
      reads this
    {
      Storage(names, caches)
    }

    constructor()
      ensures State() == Storage([], map[])
    {
      names, caches := [], map[];
    }

    method Open(name: JsString)
      modifies this
      ensures State() == Opened(old(State()), name)
    {
      if name !in caches {
        names, caches := names + [name], caches[name := map[]];
      }
    }

    method Put(name: JsString, url: JsString, resp: Response)
      requires name in caches
      modifies this
      ensures State() == PutEntry(old(State()), name, url, resp)
    {
      caches := caches[name := caches[name][url := resp]];
    }

    method Delete(name: JsString) returns (found: bool)
      modifies this
      ensures found == (name in old(caches))
      ensures State() == Deleted(old(State()), name)
    {
      found := name in caches;
      names, caches := Without(names, name), caches - {name};
    }

    /**
     * `cache.addAll(urls)` on the named cache with the fetched answers: it
     * stores every answer only when each was fetched with an ok status
     * other than 206, and nothing otherwise.
     */
    method AddAll(name: JsString, urls: seq<JsString>, fetched: seq<Option<Response>>) returns (ok: bool)
      requires name in caches && |urls| == |fetched|
      modifies this
      ensures ok == AllStorable(fetched)
      ensures ok ==> State() == Storage(old(names), old(caches)[name := PutAll(old(caches)[name], urls, fetched, |urls|)])
      ensures !ok ==> State() == old(State())
    {
      ok := forall i | 0 <= i < |fetched| :: fetched[i].Some? && Storable(fetched[i].value);
      if !ok {
        return;
      }
      ghost var c0 := caches[name];
      for i := 0 to |urls|
        invariant names == old(names)
        invariant caches == old(caches)[name := PutAll(c0, urls, fetched, i)]
      {
        caches := caches[name := caches[name][urls[i] := fetched[i].value]];
      }
    }
  }

  /** An answer `addAll` accepts. */
  predicate Storable(r: Response) {
    200 <= r.status <= 299 && r.status != 206
  }

  predicate AllStorable(fetched: seq<Option<Response>>) {
    forall i | 0 <= i < |fetched| :: fetched[i].Some? && Storable(fetched[i].value)
  }

  /** The cache after storing the first `k` answers, in order. */
  function PutAll(c: Cache, urls: seq<JsString>, fetched: seq<Option<Response>>, k: nat): Cache
    requires k <= |urls| == |fetched| && forall i | 0 <= i < k :: fetched[i].Some?
  {
    if k == 0 then c else PutAll(c, urls, fetched, k - 1)[urls[k - 1] := fetched[k - 1].value]
  }

  /** Distinct URLs each get their own answer; every other entry is kept. */
  lemma {:induction false} PutAllStores(c: Cache, urls: seq<JsString>, fetched: seq<Option<Response>>, k: nat)
    requires k <= |urls| == |fetched| && forall i | 0 <= i < k :: fetched[i].Some?
    requires Distinct(urls)
    ensures forall i | 0 <= i < k :: urls[i] in PutAll(c, urls, fetched, k) && PutAll(c, urls, fetched, k)[urls[i]] == fetched[i].value
    ensures forall u | u in c && u !in urls[..k] :: u in PutAll(c, urls, fetched, k) && PutAll(c, urls, fetched, k)[u] == c[u]
  {
    if k > 0 {
      PutAllStores(c, urls, fetched, k - 1);
      assert forall u | u !in urls[..k] :: u !in urls[..k - 1] && u != urls[k - 1] by {
        forall u | u !in urls[..k] ensures u !in urls[..k - 1] && u != urls[k - 1] {
          assert urls[..k] == urls[..k - 1] + [urls[k - 1]];
        }
      }
    }
  }

  // ---------------------------------------------------------------------
  // The handlers
  // ---------------------------------------------------------------------

  /** The static assets' URLs, resolved against the worker's origin. */
  function AssetUrls(origin: JsString): (r: seq<JsString>)
    ensures |r| == |STATIC_ASSETS|
  {
    seq(|STATIC_ASSETS|, i requires 0 <= i < |STATIC_ASSETS| => origin + STATIC_ASSETS[i])
  }

  /** The four assets have different lengths, so their URLs are distinct. */
  lemma AssetUrlsDistinct(origin: JsString)
    ensures Distinct(AssetUrls(origin))
  {
    var u := AssetUrls(origin);
    assert |u[0]| == |origin| + 1 && |u[1]| == |origin| + 14 && |u[2]| == |origin| + 12 && |u[3]| == |origin| + 15;
  }

  /** The `install` handler: whether it succeeded and the storage after it. */
  function Installed(s: Storage, origin: JsString, fetched: seq<Option<Response>>): (Storage, bool)
    requires |fetched| == |STATIC_ASSETS|
  {
    var o := Opened(s, CACHE_NAME);
    if AllStorable(fetched) then
      (Storage(o.names, o.caches[CACHE_NAME := PutAll(o.caches[CACHE_NAME], AssetUrls(origin), fetched, |fetched|)]), true)
    else (o, false)
  }

  /**
   * Installing succeeds exactly when every asset was fetched with a
   * storable answer; then the current cache holds each asset's answer
   * under its URL.  Either way the current cache exists afterwards, no
   * other cache changes, and the storage stays valid.
   */
  lemma InstalledShape(s: Storage, origin: JsString, fetched: seq<Option<Response>>)
    requires Valid(s) && |fetched| == |STATIC_ASSETS|
    ensures var (t, ok) := Installed(s, origin, fetched);
      && Valid(t)
      && CACHE_NAME in t.caches
      && (ok <==> AllStorable(fetched))
      && (forall n | n in s.caches && n != CACHE_NAME :: n in t.caches && t.caches[n] == s.caches[n])
      && (forall n | n in t.caches && n != CACHE_NAME :: n in s.caches)
      && (ok ==> forall i | 0 <= i < |STATIC_ASSETS| ::
            fetched[i].Some? && AssetUrls(origin)[i] in t.caches[CACHE_NAME] && t.caches[CACHE_NAME][AssetUrls(origin)[i]] == fetched[i].value)
      && (!ok ==> t.caches[CACHE_NAME] == Opened(s, CACHE_NAME).caches[CACHE_NAME])
  {
    OpenedKeeps(s, CACHE_NAME);
    if AllStorable(fetched) {
      AssetUrlsDistinct(origin);
      PutAllStores(Opened(s, CACHE_NAME).caches[CACHE_NAME], AssetUrls(origin), fetched, |fetched|);
    }
  }

  /** Activating: every cache `caches.keys()` lists is deleted except the current one. */
  function Activated(s: Storage): Storage {
    DeleteOthers(s, s.names)
  }

  /** Deleting the other names of a list keeps exactly the caches not listed, and the current one. */
  lemma {:induction false} DeleteOthersShape(s: Storage, names: seq<JsString>)
    requires Valid(s)
    ensures Valid(DeleteOthers(s, names))
    ensures forall n :: n in DeleteOthers(s, names).caches <==> n in s.caches && (n == CACHE_NAME || n !in names)
    ensures forall n | n in DeleteOthers(s, names).caches :: DeleteOthers(s, names).caches[n] == s.caches[n]
    decreases |names|
  {
    if names != [] {
      var t := if names[0] == CACHE_NAME then s else Deleted(s, names[0]);
      if names[0] != CACHE_NAME {
        WithoutDistinct(s.names, names[0]);
      }
      assert Valid(t);
      DeleteOthersShape(t, names[1..]);
      assert forall n :: n in names <==> n == names[0] || n in names[1..];
    }
  }

  /**
   * After activation only the current cache is left, unchanged, and it is
   * the only name listed, once.
   */
  lemma ActivatedShape(s: Storage)
    requires Valid(s)
    ensures Valid(Activated(s))
    ensures Activated(s).caches == if CACHE_NAME in s.caches then map[CACHE_NAME := s.caches[CACHE_NAME]] else map[]
    ensures forall n :: n in Activated(s).names <==> n == CACHE_NAME && CACHE_NAME in s.caches
  {
    DeleteOthersShape(s, s.names);
  }

  /**
   * The `fetch` handler, with its test as written: the storage after it
   * and what it does with the request.
   */
  function Handle(s: Storage, origin: JsString, req: Request, network: Option<Response>): (Storage, Handling) {
    if !InterceptsAsWritten(req.url, origin) then (s, NotIntercepted)
    else if network.Some? then
      var resp := network.value;
      if resp.status == 200 && req.isGet then (PutEntry(Opened(s, CACHE_NAME), CACHE_NAME, req.url, resp), Respond(resp))
      else (s, Respond(resp))
    else
      var cached := Match(s, req);
      (s, Respond(if cached.Some? then cached.value else OFFLINE))
  }

  /**
   * A request whose URL does not start with the origin is left alone.  A network answer is
   * passed on as it is, and stored under the request's URL in the current
   * cache exactly when it is a 200 answer to a GET; no other entry of any
   * cache changes.  Without the network the storage is unchanged and the
   * first cached answer, or the offline page, is served.
   */
  lemma HandleShape(s: Storage, origin: JsString, req: Request, network: Option<Response>)
    requires Valid(s)
    ensures var (t, h) := Handle(s, origin, req, network);
      && Valid(t)
      && (h == NotIntercepted <==> !InterceptsAsWritten(req.url, origin))
      && (h == NotIntercepted ==> t == s)
      && (InterceptsAsWritten(req.url, origin) && network.Some? ==> h == Respond(network.value))
      && (network.None? || network.value.status != 200 || !req.isGet ==> t == s)
      && (InterceptsAsWritten(req.url, origin) && network.Some? && network.value.status == 200 && req.isGet ==>
            && CACHE_NAME in t.caches && req.url in t.caches[CACHE_NAME]
            && t.caches[CACHE_NAME][req.url] == network.value
            && (forall u | CACHE_NAME in s.caches && u in s.caches[CACHE_NAME] && u != req.url ::
                  u in t.caches[CACHE_NAME] && t.caches[CACHE_NAME][u] == s.caches[CACHE_NAME][u])
            && (forall n | n in s.caches && n != CACHE_NAME :: n in t.caches && t.caches[n] == s.caches[n]))
      && (InterceptsAsWritten(req.url, origin) && network.None? ==>
            h == Respond(if Match(s, req).Some? then Match(s, req).value else OFFLINE))
  {
    OpenedKeeps(s, CACHE_NAME);
  }

  /** A URL that passes the corrected test also passes the test as written. */
  lemma CorrectedImpliesAsWritten(url: JsString, origin: JsString)
    requires Intercepts(url, origin)
    ensures InterceptsAsWritten(url, origin)
  {
    if url != origin {
      assert url[..|origin|] == (origin + [SLASH])[..|origin|];
    }
  }

  /** The handler with the corrected test: requests of other origins are left alone. */
  function HandleSameOrigin(s: Storage, origin: JsString, req: Request, network: Option<Response>): (Storage, Handling) {
    if Intercepts(req.url, origin) then Handle(s, origin, req, network) else (s, NotIntercepted)
  }

  /**
   * The corrected handler leaves alone exactly the requests of other
   * origins and handles the others as the handler as written does.
   */
  lemma SameOriginHandling(s: Storage, origin: JsString, req: Request, network: Option<Response>)
    requires IsOrigin(origin)
    ensures HandleSameOrigin(s, origin, req, network)
      == if OriginOf(req.url) == origin then Handle(s, origin, req, network) else (s, NotIntercepted)
    ensures OriginOf(req.url) == origin ==> Handle(s, origin, req, network).1 != NotIntercepted
  {
    InterceptsIffSameOrigin(req.url, origin);
    if Intercepts(req.url, origin) {
      CorrectedImpliesAsWritten(req.url, origin);
    }
  }

  /**
   * The handler as written answers, and may cache, a request to another
   * host or port whose authority merely begins with the origin's (a
   * longer host name, or `:8443` after it), which the corrected handler
   * leaves alone.
   */
  lemma LookalikeHostHandled(s: Storage, origin: JsString, more: JsString, path: JsString, isGet: bool, network: Option<Response>)
    requires IsOrigin(origin)
    requires more != [] && forall i | 0 <= i < |more| :: more[i] != SLASH
    ensures var req := Request(origin + more + [SLASH] + path, isGet);
      && Handle(s, origin, req, network).1 != NotIntercepted
      && HandleSameOrigin(s, origin, req, network) == (s, NotIntercepted)
  {
    var req := Request(origin + more + [SLASH] + path, isGet);
    LookalikeHostIntercepted(origin, more, path);
    InterceptsIffSameOrigin(req.url, origin);
  }

  /**
   * After installation and activation every static asset is served from
   * the cache when the network is down.
   */
  lemma AssetsServedOffline(s: Storage, origin: JsString, fetched: seq<Option<Response>>, i: nat)
    requires Valid(s) && |fetched| == |STATIC_ASSETS| && i < |STATIC_ASSETS|
    requires Installed(s, origin, fetched).1
    ensures var t := Activated(Installed(s, origin, fetched).0);
      && Intercepts(AssetUrls(origin)[i], origin)
      && Handle(t, origin, Request(AssetUrls(origin)[i], true), None).1 == Respond(fetched[i].value)
  {
    InstalledShape(s, origin, fetched);
    var u := Installed(s, origin, fetched).0;
    ActivatedShape(u);
    var t := Activated(u);
    var url := AssetUrls(origin)[i];
    AssetsBelowOrigin(origin, i);
    CorrectedImpliesAsWritten(url, origin);
    assert url in t.caches[CACHE_NAME] && t.caches[CACHE_NAME][url] == fetched[i].value;
    MatchOnlyCurrent(t, url);
  }

  /** When the current cache is the only one listed, matching looks there alone. */
  lemma MatchOnlyCurrent(t: Storage, url: JsString)
    requires forall n :: n in t.names <==> n == CACHE_NAME
    requires CACHE_NAME in t.caches && url in t.caches[CACHE_NAME]
    ensures MatchIn(t.names, t.caches, url) == Some(t.caches[CACHE_NAME][url])
  {
  }

  /** Every asset URL is a path below the origin. */
  lemma AssetsBelowOrigin(origin: JsString, i: nat)
    requires i < |STATIC_ASSETS|
    ensures Intercepts(AssetUrls(origin)[i], origin)
  {
    var url := AssetUrls(origin)[i];
    assert STATIC_ASSETS[i][0] == SLASH;
    assert url[..|origin| + 1] == origin + [SLASH];
  }

  /**
   * Once only the current cache is left, a page fetched with a 200 answer
   * is served from the cache on a later visit without network.
   */
  lemma StoredThenServedOffline(s: Storage, origin: JsString, url: JsString, resp: Response)
    requires Valid(s) && forall n | n in s.caches :: n == CACHE_NAME
    requires InterceptsAsWritten(url, origin) && resp.status == 200
    ensures var t := Handle(s, origin, Request(url, true), Some(resp)).0;
      Handle(t, origin, Request(url, true), None).1 == Respond(resp)
  {
    HandleShape(s, origin, Request(url, true), Some(resp));
  }

  /** `install`: open the current cache and add the static assets. */
  method Install(storage: CacheStorage, origin: JsString, fetched: seq<Option<Response>>) returns (ok: bool)
    requires |fetched| == |STATIC_ASSETS|
    modifies storage
    ensures (storage.State(), ok) == Installed(old(storage.State()), origin, fetched)
  {
    storage.Open(CACHE_NAME);
    ok := storage.AddAll(CACHE_NAME, AssetUrls(origin), fetched);
  }

  /** `activate`: delete every cache but the current one. */
  method Activate(storage: CacheStorage)
    modifies storage
    ensures storage.State() == Activated(old(storage.State()))
  {
    var cacheNames := storage.names;
    ghost var s0 := storage.State();
    for i := 0 to |cacheNames|
      invariant DeleteOthers(storage.State(), cacheNames[i..]) == DeleteOthers(s0, cacheNames)
    {
      assert cacheNames[i..][1..] == cacheNames[i + 1..];
      if cacheNames[i] != CACHE_NAME {
        var _ := storage.Delete(cacheNames[i]);
      }
    }
  }

  /** `fetch`: network first, storing 200 answers, falling back to the caches. */
  method Fetch(storage: CacheStorage, origin: JsString, req: Request, network: Option<Response>) returns (h: Handling)
    modifies storage
    ensures (storage.State(), h) == Handle(old(storage.State()), origin, req, network)
  {
    if !StartsWith(req.url, origin) {
      return NotIntercepted;
    }
    if network.Some? {
      var response := network.value;
      if response.status == 200 && req.isGet {
        storage.Open(CACHE_NAME);
        storage.Put(CACHE_NAME, req.url, response);
      }
      return Respond(response);
    }
    var cachedResponse := if req.isGet then MatchIn(storage.names, storage.caches, req.url) else None;
    if cachedResponse.Some? {
      return Respond(cachedResponse.value);
    }
    return Respond(OFFLINE);
  }
}
