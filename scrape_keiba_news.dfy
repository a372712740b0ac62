/**
 * The archived scraper's `main`: launch the browser, collect the
 * netkeiba.com items and then the Yahoo! items, and run the dedupe/save
 * loop with the archived record layout.  Without an API key the script
 * exits with code 1 at load time, before the browser is launched.  Each
 * site's scraper already answers `[]` on its own failure; otherwise only a
 * failed browser launch ends the process, with exit code 1.
 */
module ScrapeKeibaNews {
  import opened Js
  import opened Store
  import Scraping
  import Config

  /** The browser session: `None` when `puppeteer.launch` throws. */
  datatype Session = Session(netkeiba: seq<Scraping.Scraped>, yahoo: seq<Scraping.Scraped>)

  datatype Outcome = Exit(code: int) | Done(total: nat, savedCount: nat, duplicateCount: nat)

  /** Every scraped item, netkeiba.com's first. */
  function AllArticles(s: Session): (r: seq<Scraping.Scraped>)
    ensures |r| == |s.netkeiba| + |s.yahoo|
    ensures r[..|s.netkeiba|] == s.netkeiba && r[|s.netkeiba|..] == s.yahoo
  {
    s.netkeiba + s.yahoo
  }

  /**
   * `env` holds the two API-key variables; the base id has a built-in
   * fallback, so only the key is checked.
   */
  method Run(table: Table, env: Config.Env, session: Option<Session>, draws: seq<Scraping.Draw>)
    returns (outcome: Outcome)
    requires session.Some? ==> |draws| == |AllArticles(session.value)|
    modifies table
    ensures Config.Airtable(env).apiKey == [] || session.None? ==> outcome == Exit(1) && table.rows == old(table.rows)
    ensures Config.Airtable(env).apiKey != [] && session.Some? ==>
      var items := AllArticles(session.value);
      var t := Scraping.Scrape(Scraping.RecordOf(Scraping.Archived), old(table.rows), items, draws, |items|);
      outcome == Done(|items|, t.saved, t.duplicates) && table.rows == t.rows
  {
    if Config.Airtable(env).apiKey == [] {
      return Exit(1);
    }
    if session.None? {
      return Exit(1);
    }
    var items := AllArticles(session.value);
    var saved, duplicates := Scraping.SaveEach(table, Scraping.RecordOf(Scraping.Archived), items, draws);
    outcome := Done(|items|, saved, duplicates);
  }

  /**
   * The reported counts never exceed the items collected, the saved count
   * is the number of records added, stored records are untouched, and when
   * every lookup reached the store no two records share a source URL
   * among the new ones.
   */
  lemma RunCounts(rows: map<JsString, Fields>, s: Session, draws: seq<Scraping.Draw>)
    requires |draws| == |AllArticles(s)|
    ensures var items := AllArticles(s);
      var t := Scraping.Scrape(Scraping.RecordOf(Scraping.Archived), rows, items, draws, |items|);
      && t.saved + t.duplicates <= |s.netkeiba| + |s.yahoo|
      && |t.rows.Keys| == |rows.Keys| + t.saved
      && (forall id | id in rows :: id in t.rows && t.rows[id] == rows[id])
      && ((forall i | 0 <= i < |draws| :: draws[i].lookupReached) ==> Scraping.NewSourcesUnique(rows, t.rows))
  {
    var items := AllArticles(s);
    var rec := Scraping.RecordOf(Scraping.Archived);
    Scraping.ScrapeCounts(rec, rows, items, draws, |items|);
    if forall i | 0 <= i < |draws| :: draws[i].lookupReached {
      Scraping.LayoutsKeepSource(Scraping.Archived);
      Scraping.NoDuplicateSaved(rec, rows, items, draws, |items|);
    }
  }
}
