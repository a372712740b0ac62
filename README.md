# keiba-nyumon in Dafny

A model of the deterministic core of keiba-nyumon, a Japanese beginners' guide to horse racing. The site is built with Astro and reads its articles from an Airtable `News` table. A set of Node.js scripts fills, repairs and publicises that table. The model covers:

- the site's news library (`src/lib/news.ts`), its settings (`src/config.ts`) and the `/sitemap.xml` endpoint;
- the thumbnail selection library (`scripts/lib/image-generator.cjs`) and the scripts built on it;
- the article generators and scrapers, as far as they turn inputs into records;
- the maintenance scripts: batched updates and deletions, date and thumbnail repair, reports;
- the X and Bluesky posting scripts;
- the colour helper of the OGP image script;
- the service worker's cache policy (`public/sw.js`).

What the model takes as given:

- **Strings.** JavaScript strings are sequences of UTF-16 code units (`Js.JsString`), so `.length`, `substring` and `includes` count code units as JavaScript does. An emoji is two units.
- **Time.** Times are integer milliseconds.
- **Airtable.** The table is a `Store.Table` object whose `rows` map record ids to field maps. Every call to Airtable takes a `reachable` flag saying whether the request gets through. A query's answer is a parameter (`Option<seq<Record>>`, `None` for a rejected query), or a `News.Backend` function from the query sent to the answer.
- **Other outside inputs.** `Math.random`, the clock, the language model's answers, the image services and the posting services are parameters too. Per item, they are bundled as a `Draw` or `Outcome` value. The model therefore says what each script does for every possible behaviour of the outside world.
- **Environment variables.** These are a `Config.Env` value. The site and most scripts read `KEIBA_GUIDE_AIRTABLE_*`, with `AIRTABLE_*` as fallback. Some scripts read `KEIBA_NYUMON_AIRTABLE_*` instead. `Config.Env`'s project-specific fields stand for whichever prefix the script at hand reads.
- **Progress lines and exit codes.** Where they carry information, they are part of each script's `Outcome`.

Each maintenance loop is a `method` with a loop. It is proved against a function that specifies the loop (`Batches.Merged`, `Scraping.Scrape`, `Social.Log`/`Social.Recorded`, `Regenerate.Loop`, …). The properties the scripts promise are lemmas about those functions.

The sitemap's site URL in `src/pages/sitemap.xml.ts` is `https://keiba-guide.jp`. The posting scripts default to `https://keiba-nyumon.jp`. Each module uses the constant its own source file has.

`ImageGenerator.ImagePrompt` returns the empty text as the source does and has no contract of its own.

## Model

| member | source | states |
|---|---|---|
| AiArticles.TitleFillsPlaceholder | scripts/generate-ai-news.cjs:229 | when the text before `{topic}` has no `{`, the title is that text, the topic and the rest of the template |
| AiArticles.FirstPlaceholderAt | scripts/generate-ai-news.cjs:229 | `replace` with a string pattern finds the first `{topic}`, right after a prefix without `{` |
| AiArticles.NoBraceNoPlaceholder | scripts/generate-ai-news.cjs:229 | a text without `{` holds no placeholder |
| AiArticles.DefaultArticleCount | scripts/generate-ai-news.cjs:303 | a missing or empty `ARTICLE_COUNT` gives 3 articles, and a printed integer is read back as itself |
| AiArticles.DefaultNotUsed | scripts/generate-ai-news.cjs:303 | a non-empty `ARTICLE_COUNT` is parsed by `parseInt` and the default is not used |
| AiArticles.Iterations | scripts/generate-ai-news.cjs:307 | a NaN or non-positive count runs the generation loop zero times, any other count that many times |
| AiArticles.Pick | scripts/generate-ai-news.cjs:309-310 | `xs[Math.floor(Math.random() * xs.length)]` is always an element of the list |
| Batches.NumBatchesIsCeiling | scripts/fix-thumbnails.cjs:61 | the loop stepping by 10 makes ⌈n/10⌉ requests, and none when the list is empty |
| Batches.BatchSize | scripts/fix-thumbnails.cjs:62 | every `slice(i, i + 10)` the loop sends holds between 1 and 10 entries |
| Batches.AllCovered | scripts/fix-thumbnails.cjs:61-62 | the requests together cover the whole list |
| Batches.EachEntryOnce | scripts/fix-published-dates.cjs:64-65 | entry `j` is sent by request `j / 10` and by no other |
| Batches.MarksProgress | scripts/fix-thumbnails.cjs:64 | the printed bounds `Math.min(i + 10, n)` grow strictly, never pass `n`, and the last is `n` |
| Batches.FirstFalseAt | scripts/fix-thumbnails.cjs:61-63 | the first failing request is the one after a run of successes |
| Batches.MarksStep | scripts/delete-all-news.cjs:38 | each further successful request adds its bound `Math.min(i + 10, n)` to the printed ones |
| Batches.FirstFalse | scripts/fix-thumbnails.cjs:61-63 | the awaited request that throws ends the loop: every earlier request succeeded and this one failed, or none failed |
| Batches.UpdateOks | scripts/fix-thumbnails.cjs:63 | one outcome per `update(batch)` request the loop can make |
| Batches.UpdatesAllSucceed | scripts/fix-published-dates.cjs:64-71 | when every request is reached and every id is a stored record, no request fails |
| Batches.UpdateInBatches | scripts/fix-thumbnails.cjs:61-68 | the batches before the first failing request are merged into the table, the failing one changes nothing, and one bound is printed per successful request |
| Batches.SendUpdateBatch | scripts/fix-published-dates.cjs:65-66 | one `update(batch)`: on success the whole batch is merged into the table, on failure the table is unchanged |
| Batches.BatchStored | scripts/fix-thumbnails.cjs:63 | the ids of the next batch are stored exactly when the longer prefix is |
| Batches.MergedPrefix | scripts/fix-published-dates.cjs:64-66 | merging a prefix and then the next batch equals merging the longer prefix |
| Batches.MergedConcat | scripts/fix-thumbnails.cjs:61-63 | merging `a` and then `b` equals merging `a + b` |
| Batches.MergedDistinct | scripts/fix-thumbnails.cjs:45-51 | with distinct ids each named record gets exactly its own patch and every other record is unchanged |
| Batches.DestroyOks | scripts/delete-all-news.cjs:37 | one outcome per `destroy(ids)` request the loop can make |
| Batches.DestroysAllSucceed | scripts/delete-uncategorized.cjs:53-63 | with distinct stored ids and every request reached, no deletion request fails |
| Batches.IdSetConcat | scripts/delete-all-news.cjs:33-37 | deleting the ids of two consecutive batches deletes the ids of both |
| Batches.DestroyInBatches | scripts/delete-all-news.cjs:33-42 | the records of the batches before the first failing request are deleted and no other, and one bound is printed per deleted batch |
| CheckDuplicates.ImageKey | scripts/check-duplicates.cjs:23 | the key of an article is its first thumbnail URL when truthy, else `なし`, and never empty |
| CheckDuplicates.ImageKeys | scripts/check-duplicates.cjs:21-23 | one key per article, in the query's order |
| CheckDuplicates.Position | scripts/check-duplicates.cjs:33 | the first article carrying a key |
| CheckDuplicates.Duplicates | scripts/check-duplicates.cjs:30-34 | one report per article, in order |
| CheckDuplicates.PositionAt | scripts/check-duplicates.cjs:30-34 | an article's key first occurs at or before it, before it exactly when the key was already seen, and the article adds its key to those seen |
| CheckDuplicates.DuplicateIffSeenEarlier | scripts/check-duplicates.cjs:30-31 | an article is reported exactly when an earlier one has the same image, and then with the 1-based position of the first such article |
| CheckDuplicates.DistinctPlusDuplicates | scripts/check-duplicates.cjs:21-38 | distinct images plus reported duplicates equal the number of articles, so there are never more distinct images than articles |
| CheckDuplicates.NoDuplicateCount | scripts/check-duplicates.cjs:30-31 | the duplicate count is zero exactly when no article is reported |
| CheckDuplicates.ReportStep | scripts/check-duplicates.cjs:30-34 | the report of the next article extends the reports made so far |
| CheckDuplicates.RememberStep | scripts/check-duplicates.cjs:30-34 | a seen key is reported as a duplicate of its remembered position and leaves the map as it is; an unseen key is remembered with its own position and is not reported |
| CheckDuplicates.Inspect | scripts/check-duplicates.cjs:19-38 | the `forEach` loop: the map holds exactly the images seen, each with the position of its first article, every article gets its report, and the unique count is the number of distinct images |
| CheckDuplicates.SummaryAsWrittenMiscounts | scripts/check-duplicates.cjs:40-44 | with a single published article, nobody's duplicate, the summary as written claims nine duplicates |
| CheckDuplicates.SummaryCounts | scripts/check-duplicates.cjs:40-44 | measured against the articles fetched, the summary says all distinct exactly when no article is reported, and otherwise counts the articles reported |
| CheckDuplicates.SummaryAsWrittenOnFullPage | scripts/check-duplicates.cjs:40-44 | when ten articles are fetched, the summary against the literal ten says all distinct exactly when no article is reported, and otherwise counts the articles reported |
| CheckDuplicates.Run | scripts/check-duplicates.cjs:3-47 | missing credentials exit with 1, a failing query is only logged, and otherwise the reports, the unique count and the summary against the literal ten (`10 - uniqueImages` duplicates) are shown |
| Config.Airtable | src/config.ts:43-46 | the project variable wins over the shared one; the base id falls back to the built-in id and is never empty; the API key is empty exactly when neither key variable is set |
| Config.MissingIffNoApiKey | src/config.ts:50-52 | the settings count as incomplete, and the warning is printed, exactly when no API-key variable is set |
| DailyNewsGeneration.DefaultModeRunsBoth | scripts/daily-news-generation.cjs:48 | without `MODE` both parts run; `scrape` runs only the scraping and `ai` only the generation |
| DailyNewsGeneration.TemplateTitles | scripts/daily-news-generation.cjs:307-338 | every title template has `{topic}` after a brace-free prefix, so `replace` puts the topic in its place |
| DailyNewsGeneration.FallbackThumbnail | scripts/daily-news-generation.cjs:356-368 | the fallback is always an Unsplash photo URL, and a category outside the table gets the news photo |
| DailyNewsGeneration.ContextLines | scripts/daily-news-generation.cjs:376-378 | one `- title` line for each of the first five scraped items, in order |
| DailyNewsGeneration.NewsContext | scripts/daily-news-generation.cjs:376-378 | the news part of the prompt is empty exactly when nothing was scraped |
| DailyNewsGeneration.ContextListsFirstFive | scripts/daily-news-generation.cjs:376-378 | the prompt quotes each of the first five scraped titles and lists at most five |
| DailyNewsGeneration.ThumbnailUrl | scripts/daily-news-generation.cjs:421-427 | a truthy generated URL is kept, otherwise the category's fallback is used, so the URL is never empty |
| DailyNewsGeneration.FallbackNeverUsed | scripts/daily-news-generation.cjs:421-427 | when the image generator answers as modelled, a titled article always gets a photo of its keyword's pool and the fallback is never reached |
| DailyNewsGeneration.ArticleBaseFields | scripts/daily-news-generation.cjs:429-440 | the article carries the template's category and tags, author `AI編集部`, status `published`, the given excerpt and body, and no thumbnail yet |
| DailyNewsGeneration.AiArticleFields | scripts/daily-news-generation.cjs:409-447 | a generated article keeps the template's category and tags, has a one-line excerpt of at most 200 code units, and always a single thumbnail attachment |
| DailyNewsGeneration.AiArticleThumbnail | scripts/daily-news-generation.cjs:421-445 | with the image generator's answer for the title, the attachment is a photo of the pool for the title's keyword |
| DailyNewsGeneration.AiGenerator | scripts/daily-news-generation.cjs:307-351 | the job draws from non-empty template and topic lists |
| DailyNewsGeneration.AiRunCounts | scripts/daily-news-generation.cjs:468-479 | every iteration asks the model once with a listed topic and the same news context, the count never exceeds the iterations, and no stored row is changed |
| DailyNewsGeneration.AiStepCounts | scripts/daily-news-generation.cjs:469-478 | one iteration adds one request, counts at most one article, and keeps every stored row |
| DailyNewsGeneration.RunAiGeneration | scripts/daily-news-generation.cjs:458-484 | without an Anthropic key nothing is asked or stored; otherwise the table, count and requests are those of `ARTICLE_COUNT` iterations |
| DailyNewsGeneration.AiIteration | scripts/daily-news-generation.cjs:469-478 | one pass of the loop: ask, and save and count when the model answered |
| DailyNewsGeneration.RunScraping | scripts/daily-news-generation.cjs:229-298 | a browser failure gives zero counts, no items and an unchanged table; otherwise every scraped item is checked and saved or skipped in order, and all are passed on |
| DailyNewsGeneration.Run | scripts/daily-news-generation.cjs:50-552 | missing credentials exit with 1 before anything is written; otherwise the mode decides which parts run, a part that does not run counts zero, and every AI prompt quotes what this run scraped; with credentials, the final table is the AI part's rows applied to the scrape part's rows of the starting table; a part that does not run, or the AI part without its key, leaves the rows as they are; the reported counts are the two parts' counts |
| DailyNewsGeneration.JobKeepsStoredRows | scripts/daily-news-generation.cjs:526-552 | the job changes or removes no record stored before it, saves at most one record per scraped item, and generates at most `ARTICLE_COUNT` articles |
| DeleteAllNews.Run | scripts/delete-all-news.cjs:9-50 | without an API key, or when the query fails, it exits with 1 and deletes nothing; an empty table is left as it is; otherwise the records of the batches before the first failing request are deleted, and a failure exits with 1 |
| DeleteAllNews.EmptiesTable | scripts/delete-all-news.cjs:23-42 | when the query returns each stored record once and every request is reached, ⌈n/10⌉ requests are made, the last progress line shows `n`, and the table ends empty |
| DeleteUncategorized.SelectedIffUnknown | scripts/delete-uncategorized.cjs:30-34 | a record is selected exactly when it does not carry one of the five known categories, so a missing category or `uncategorized` is always selected |
| DeleteUncategorized.Selection | scripts/delete-uncategorized.cjs:30-34 | the selection holds exactly the fetched records the filter selects |
| DeleteUncategorized.SelectionDistinct | scripts/delete-uncategorized.cjs:30-34 | distinct record ids stay distinct in the selection |
| DeleteUncategorized.Run | scripts/delete-uncategorized.cjs:8-71 | missing credentials or a failing query exit with 1 and delete nothing; an empty selection changes nothing; otherwise the selected records of the batches before the first failing request are deleted |
| DeleteUncategorized.DeleteResult | scripts/delete-uncategorized.cjs:30-63 | with distinct stored records and every request reached, the batches delete every id sent, and the ids sent are exactly those of the selected records, so the selected records and no others leave the table |
| FixPublishedDates.TimesSpacing | scripts/fix-published-dates.cjs:35-45 | the newest record gets one hour before the run, the oldest `n` hours before it, and consecutive records are exactly one hour apart |
| FixPublishedDates.TimesIncrease | scripts/fix-published-dates.cjs:35-45 | later records get strictly later instants, all before the run, `j - i` hours apart |
| FixPublishedDates.OrderKept | scripts/fix-published-dates.cjs:24-53 | records in the query's oldest-first order keep their relative order, and no two records share an instant afterwards |
| FixPublishedDates.CollectDates | scripts/fix-published-dates.cjs:35-59 | the first loop builds one update per record, in order, record `i` getting `baseDate + i` hours |
| FixPublishedDates.Run | scripts/fix-published-dates.cjs:9-79 | missing credentials or a failing query exit with 1 and change nothing; otherwise the updates of the batches before the first failing request are merged into the table, and a failure exits with 1 |
| FixPublishedDates.DatesSucceed | scripts/fix-published-dates.cjs:64-71 | when every request is reached and every record is stored, every update is sent |
| FixPublishedDates.DatedRows | scripts/fix-published-dates.cjs:40-71 | sending every update of distinct stored records rewrites only their `PublishedAt`, record `i` getting its new instant, and leaves every other row unchanged |
| FixThumbnails.Collected | scripts/fix-thumbnails.cjs:33-56 | the first loop queues at most one update per record |
| FixThumbnails.CollectedAll | scripts/fix-thumbnails.cjs:45-51 | when every thumbnail was obtained, every record is queued with its URL, in order |
| FixThumbnails.ThumbnailsObtained | scripts/fix-thumbnails.cjs:36-45 | a titled record always gets a truthy thumbnail from the pool for its keyword |
| FixThumbnails.ThumbnailsAreSeeded | scripts/fix-thumbnails.cjs:42-43 | with the record ids as seeds the thumbnails do not depend on the random draws |
| FixThumbnails.CollectUpdates | scripts/fix-thumbnails.cjs:31-56 | the loop aborts exactly when some record has no title (`substring` of undefined throws); otherwise it queues the update of each obtained thumbnail, in order |
| FixThumbnails.TitledStep | scripts/fix-thumbnails.cjs:33-39 | a further titled record extends the titled prefix |
| FixThumbnails.QueueThumbnail | scripts/fix-thumbnails.cjs:43-55 | a record queues its thumbnail update when one is obtained and nothing otherwise |
| FixThumbnails.Run | scripts/fix-thumbnails.cjs:9-76 | missing credentials, a failing query or an untitled record exit with 1 before anything is written; otherwise one update per record is queued, and those of the batches before the first failing request are merged into the table |
| FixThumbnails.FixSucceeds | scripts/fix-thumbnails.cjs:61-70 | with every request reached and every thumbnail obtained for a stored record, every update is sent and one is counted per record |
| FixThumbnails.FixedRows | scripts/fix-thumbnails.cjs:45-68 | sending every update of distinct stored records sets each one's `ThumbnailUrl` to its thumbnail and changes nothing else |
| Excerpt.LineEnd | scripts/generate-ai-news.cjs:233 | `.*` runs to the first line terminator of the line, or to the end |
| Excerpt.StripHeadings | scripts/generate-ai-news.cjs:233 | dropping heading lines never lengthens the text |
| Excerpt.SpacesForNewlines | scripts/generate-ai-news.cjs:234 | every `\n` becomes a space and every other unit is kept, at the same place |
| Excerpt.FlattenIsOneLine | scripts/generate-ai-news.cjs:233-234 | after both replacements the text holds no newline |
| Excerpt.Cut | scripts/generate-ai-news.cjs:235 | `substring(0, 200)` is a prefix of at most 200 units, and the whole of a shorter text |
| Excerpt.Derive | scripts/generate-ai-news.cjs:233-236 | the stored excerpt is at most 200 code units long |
| Excerpt.DeriveShape | scripts/daily-news-generation.cjs:412-416 | the excerpt is on one line and has no blank at either end |
| Excerpt.TrimKeepsSingleLine | scripts/generate-ai-news.cjs:236 | trimming a one-line text leaves it on one line |
| Excerpt.NoHashNoHeadings | scripts/generate-ai-news.cjs:233 | text without `#` has no heading to drop |
| Excerpt.PlainShortTextIsItsOwnExcerpt | scripts/generate-ai-news.cjs:233-236 | a short text without `#` or newlines and without blanks at its ends is its own excerpt |
| Excerpt.LeadingHeadingDropped | scripts/generate-ai-news.cjs:233 | a `#` line at the start is dropped together with its newline, and scanning continues after it |
| GenerateAiNews.Templates | scripts/generate-ai-news.cjs:48-188 | five templates, each carrying its own prompt text, and none with a `{` before its `{topic}` |
| GenerateAiNews.PromptFillsEveryPlaceholder | scripts/generate-ai-news.cjs:214 | why the prompt's replacement is global: each shipped prompt holds the placeholder once (its `トピック:` line), but a prompt with two would get the topic at both, whereas the title's single `replace` leaves the second one in place |
| GenerateAiNews.SinglePlaceholderPrompt | scripts/generate-ai-news.cjs:214 | a prompt with a single placeholder gets the topic there |
| GenerateAiNews.ReplaceAllAt | scripts/generate-ai-news.cjs:214 | the global replacement fills the first placeholder and goes on after it |
| GenerateAiNews.NoPlaceholderKept | scripts/generate-ai-news.cjs:214 | a text without `{` is left as it is |
| GenerateAiNews.ArticleFields | scripts/generate-ai-news.cjs:228-254 | a generated article is titled from its template, carries the template's category, status `published` and author `AI編集部`, is dated nine hours after it was made, has a one-line excerpt of at most 200 units, and has no tags or thumbnail |
| GenerateAiNews.WithThumbnail | scripts/generate-ai-news.cjs:268-271 | the fields sent are the article's, plus `ThumbnailUrl` exactly when the URL is truthy |
| GenerateAiNews.SaveNewsArticle | scripts/generate-ai-news.cjs:265-280 | a reached create request stores the record with its thumbnail under a fresh id and answers that id; a failing one changes nothing and answers `null` |
| GenerateAiNews.Job | scripts/generate-ai-news.cjs:48-208 | the script draws from non-empty template and topic lists |
| GenerateAiNews.ThumbnailFor | scripts/generate-ai-news.cjs:318-322 | the thumbnail requested for an answered article is always present and is a photo of the pool for the template's category and the article's title |
| GenerateAiNews.StepStoresThumbnail | scripts/generate-ai-news.cjs:318-325 | a saved record's `ThumbnailUrl` is that photo |
| GenerateAiNews.StepCounts | scripts/generate-ai-news.cjs:312-329 | an iteration adds an article and a two-second wait exactly when the model answered, never replaces a stored row, and adds at most one |
| GenerateAiNews.GenerateCounts | scripts/generate-ai-news.cjs:305-330 | after `k` iterations there is one article per answered call, so at most `k`, one wait per article, the earlier rows untouched and at most one new row per article |
| GenerateAiNews.Run | scripts/generate-ai-news.cjs:285-330 | without either key it exits with 1 before any request; otherwise the table and the articles are those of `ARTICLE_COUNT` iterations |
| GenerateAiNews.Iteration | scripts/generate-ai-news.cjs:309-329 | one pass of the loop: pick, ask, and when the model answered keep, save with the image generator's photo and wait |
| GenerateAiNews.AtMostArticleCount | scripts/generate-ai-news.cjs:303-307 | no more articles than iterations come out, and at most three without `ARTICLE_COUNT` |
| GenerateNewsArticles.RelativeTimeBands | scripts/generate-news-articles.cjs:55-69 | the label shows minutes below an hour, hours below a day and whole days from then on, each count in its band's range |
| GenerateNewsArticles.FloorOfFloor | scripts/generate-news-articles.cjs:58-66 | counting days from the floored hours gives the same as counting them from the milliseconds |
| GenerateNewsArticles.RelativeTimeReadsBack | scripts/generate-news-articles.cjs:55-69 | `parseInt` of the label gives back the count it shows |
| GenerateNewsArticles.RelativeTimeExamples | scripts/generate-news-articles.cjs:55-69 | 59 minutes read `59分前`, 23 h 59 min `23時間前`, 3 days 23 h `3日前` |
| GenerateNewsArticles.RandomCount | scripts/generate-news-articles.cjs:122 | `Math.floor(Math.random() * span) + base` lies in `[base, base + span)` |
| GenerateNewsArticles.Article | scripts/generate-news-articles.cjs:114-125 | a generated article has exactly the ten fields the script writes, with the values given, published and dated now |
| GenerateNewsArticles.NewSiteArticleFields | scripts/generate-news-articles.cjs:74-126 | a breaking-news article is about its one site, under 速報 with the new-site tag, dated now with 100 to 599 views, featured when the draw is above 0.7, and its title names the site |
| GenerateNewsArticles.NewSiteTitleNames | scripts/generate-news-articles.cjs:76-112 | both title templates name the site |
| GenerateNewsArticles.ThreadText | scripts/generate-news-articles.cjs:171-174 | the `forEach` builds the blocks of all posts, in order |
| GenerateNewsArticles.ThreadAt | scripts/generate-news-articles.cjs:171-174 | post `i`'s block stands between the blocks of the posts before and after it |
| GenerateNewsArticles.Posts | scripts/generate-news-articles.cjs:132-169 | the thread quotes six posts |
| GenerateNewsArticles.SummaryArticleFields | scripts/generate-news-articles.cjs:131-200 | the summary is a never-featured まとめ article about its site, with no tags and 500 to 1499 views, and its body quotes the block of every post |
| GenerateNewsArticles.SummaryIncludesThread | scripts/generate-news-articles.cjs:176-188 | the summary body contains the whole thread |
| GenerateNewsArticles.RankingText | scripts/generate-news-articles.cjs:217-231 | the `+=` loop builds the heading, one numbered entry per site in query order, and the note |
| GenerateNewsArticles.EntryAt | scripts/generate-news-articles.cjs:220-229 | site `i` of the query stands at rank `i + 1`, after the sites before it |
| GenerateNewsArticles.BlocksAppend | scripts/generate-news-articles.cjs:220-229 | numbering goes on across two lists |
| GenerateNewsArticles.BlocksSnoc | scripts/generate-news-articles.cjs:220-229 | one more site appends its entry with the next number |
| GenerateNewsArticles.BlocksAt | scripts/generate-news-articles.cjs:220-229 | element `i`'s block stands between those of the elements before and after it, with number `first + i` |
| GenerateNewsArticles.BlocksRenumbered | scripts/generate-news-articles.cjs:172-174 | blocks that ignore their number do not depend on where numbering starts |
| GenerateNewsArticles.TopIds | scripts/generate-news-articles.cjs:238 | the related sites are the ids of the first three sites, or of all when fewer |
| GenerateNewsArticles.RankingArticleFields | scripts/generate-news-articles.cjs:205-245 | the ranking is a featured ランキング article related to at most the first three sites, with 1000 to 2999 views and a `weekly-ranking-` slug |
| GenerateNewsArticles.EarlyShape | scripts/generate-news-articles.cjs:321-340 | site `i`'s breaking news is saved `i`-th, and when there is a site one summary follows, about one of them |
| GenerateNewsArticles.SaveAll | scripts/generate-news-articles.cjs:292-301 | no more saves succeed than were attempted, and all of them unless one threw |
| GenerateNewsArticles.AbortedStays | scripts/generate-news-articles.cjs:297-299 | once a save has thrown, nothing further happens |
| GenerateNewsArticles.SaveAllCounts | scripts/generate-news-articles.cjs:321-348 | each successful save adds one record and stored records are never replaced |
| GenerateNewsArticles.SaveStepCounts | scripts/generate-news-articles.cjs:292-301 | a successful save adds exactly its record under its id, and any save keeps the stored ones |
| GenerateNewsArticles.FirstFailure | scripts/generate-news-articles.cjs:297-299 | after a failure the run stopped right at the failing save, and every earlier save went through |
| GenerateNewsArticles.SaveAllStores | scripts/generate-news-articles.cjs:292-301 | the saved articles are exactly the first ones, each under the id its create call was given |
| GenerateNewsArticles.SaveInOrder | scripts/generate-news-articles.cjs:321-340 | the articles are saved in order until the first failure, and the table is what those saves leave |
| GenerateNewsArticles.Run | scripts/generate-news-articles.cjs:306-355 | a failing Sites query exits with 1 before any save; the breaking news and the summary are saved in turn and a failure exits with 1; on Mondays alone the ranking is fetched and saved |
| ImageGenerator.CategoryKeyword | scripts/lib/image-generator.cjs:44-52 | only the seven listed categories have a keyword, each one of the seven category keywords |
| ImageGenerator.CategoryTable | scripts/lib/image-generator.cjs:44-52 | each of the seven categories maps to its own keyword |
| ImageGenerator.UnsplashKeyword | scripts/lib/image-generator.cjs:42-66 | a title rule, when one applies, picks one of the four title keywords; otherwise a listed category gives its keyword; the abstract keyword comes exactly when neither applies |
| ImageGenerator.TitleRulesOverrideCategory | scripts/lib/image-generator.cjs:55-63 | when a title rule applies the category does not matter, and the rules are tried in the order "AI", "データ分析", "初心者", "悪質"/"詐欺" |
| ImageGenerator.Hex | scripts/lib/image-generator.cjs:82-201 | the suffix of a photo id is written with exactly `width` lower-case hex digits |
| ImageGenerator.Photo | scripts/lib/image-generator.cjs:82-201 | every pool entry is a URL on `https://images.unsplash.com/photo-` |
| ImageGenerator.ListedPool | scripts/lib/image-generator.cjs:81-202 | exactly the ten keywords other than the G1 and abstract ones have a pool, and each pool holds ten photos |
| ImageGenerator.TechnologyNewsIds | scripts/lib/image-generator.cjs:82-93 | the technology-news pool lists ten photos |
| ImageGenerator.AnalyticsDashboardIds | scripts/lib/image-generator.cjs:94-105 | the dashboard pool lists ten photos |
| ImageGenerator.DigitalLearningIds | scripts/lib/image-generator.cjs:106-117 | the digital-learning pool lists ten photos |
| ImageGenerator.DataVisualizationIds | scripts/lib/image-generator.cjs:118-129 | the data-visualisation pool lists ten photos |
| ImageGenerator.BreakingNewsIds | scripts/lib/image-generator.cjs:130-141 | the breaking-news pool lists ten photos |
| ImageGenerator.WarningAlertIds | scripts/lib/image-generator.cjs:142-153 | the warning pool lists ten photos |
| ImageGenerator.ArtificialIntelligenceIds | scripts/lib/image-generator.cjs:154-165 | the AI pool lists ten photos |
| ImageGenerator.SecurityWarningIds | scripts/lib/image-generator.cjs:166-177 | the security pool lists ten photos |
| ImageGenerator.LearningBeginnerIds | scripts/lib/image-generator.cjs:178-189 | the beginner pool lists ten photos |
| ImageGenerator.DataAnalyticsIds | scripts/lib/image-generator.cjs:190-201 | the data-analytics pool lists ten photos |
| ImageGenerator.Pool | scripts/lib/image-generator.cjs:204 | every keyword draws from ten Unsplash photo URLs |
| ImageGenerator.FallbackPool | scripts/lib/image-generator.cjs:204 | keywords without a pool of their own share the technology-news pool |
| ImageGenerator.Hash | scripts/lib/image-generator.cjs:209-214 | the hash of a record id is always a signed 32-bit integer |
| ImageGenerator.ShiftSubtractIsStep | scripts/lib/image-generator.cjs:212-213 | `((hash << 5) - hash) + char` followed by `hash & hash` is `31 hash + char` wrapped to 32 bits |
| ImageGenerator.HashCode | scripts/lib/image-generator.cjs:209-214 | the loop over the id's code units computes the hash |
| ImageGenerator.HashSnoc | scripts/lib/image-generator.cjs:210-214 | one more code unit is one more hash step |
| ImageGenerator.HashOfAbc | scripts/lib/image-generator.cjs:209-214 | the hash of `abc` is 96354 |
| ImageGenerator.HashOfRecXyz | scripts/lib/image-generator.cjs:209-214 | the hash of `recXYZ` wraps around 32 bits to -934931735 |
| ImageGenerator.HashSuffixXyz | scripts/lib/image-generator.cjs:209-214 | from a hash of 112784, the units `X`, `Y`, `Z` lead to -934931735 |
| ImageGenerator.HashStepWithin | scripts/lib/image-generator.cjs:212-213 | a step whose sum stays within 32 bits needs no wrap-around |
| ImageGenerator.HashPrefixRe | scripts/lib/image-generator.cjs:209-214 | the hash of `re` is 3635 |
| ImageGenerator.SeededIndex | scripts/lib/image-generator.cjs:216-217 | `Math.abs(hash) % pool.length` is a valid index of the pool |
| ImageGenerator.RandomIndex | scripts/lib/image-generator.cjs:222 | `Math.floor(Math.random() * size)` is a valid index |
| ImageGenerator.PoolImage | scripts/lib/image-generator.cjs:204-224 | the URL is always from the keyword's pool, and with a record id it is the one at `Math.abs(hash) % 10` |
| ImageGenerator.SeededPickIsDeterministic | scripts/lib/image-generator.cjs:74-77 | the placeholder access key makes the fixed pools the only branch taken, and with a record id the pick does not depend on the random draw |
| ImageGenerator.FetchUnsplashImage | scripts/lib/image-generator.cjs:73-224 | the image for a keyword comes from the fixed pools, as `PoolImage` selects it |
| ImageGenerator.Thumbnail | scripts/lib/image-generator.cjs:472-491 | a thumbnail comes back exactly when the title is present, and it is an Unsplash photo from the pool of the article's keyword |
| ImageGenerator.GenerateAndUploadThumbnail | scripts/lib/image-generator.cjs:472-491 | the method returns the thumbnail the function describes |
| ImageGenerator.Checked | scripts/lib/image-generator.cjs:365-370 | a candidate passes exactly when it is a string that starts with `http`, and is then returned as it is |
| ImageGenerator.ImageUrlOf | scripts/lib/image-generator.cjs:339-370 | an extracted URL always starts with `http`; a string output is taken exactly when it starts with `http`; null, a number or an empty array yields nothing; a string first element is checked as it is |
| ImageGenerator.ExtractImageUrl | scripts/lib/image-generator.cjs:337-370 | the step-by-step extraction yields the URL the function describes |
| ImageGenerator.GenerateThumbnailImage | scripts/lib/image-generator.cjs:306-398 | a prompt, which is always empty, is sent exactly when the token is set and the title present; a path comes back exactly when, moreover, the run produced a valid URL and the download succeeded, and it is `temp/thumbnail-<timestamp>.webp` |
| InvestigateMissingPages.Pow10 | scripts/investigate-missing-pages.cjs:46 | powers of ten bound the 13-digit timestamps |
| InvestigateMissingPages.PrintedWidth | scripts/investigate-missing-pages.cjs:46 | a number between `10^(k-1)` and `10^k` is printed with exactly `k` digits |
| InvestigateMissingPages.TimestampOf | scripts/investigate-missing-pages.cjs:99-101 | `/^(\d{13})-/` matches exactly when the slug starts with 13 digits and a dash, and the number read is below `10^13` |
| InvestigateMissingPages.DigitsBound | scripts/investigate-missing-pages.cjs:101 | `k` decimal digits read as a number below `10^k` |
| InvestigateMissingPages.TimestampSlugHasTimestamp | scripts/investigate-missing-pages.cjs:46 | every slug that passes `/^\d{13}-\w+$/` has a timestamp |
| InvestigateMissingPages.StampedSlug | scripts/investigate-missing-pages.cjs:46 | 13 digits, a dash and a non-empty word suffix pass the test, and the timestamp read is the digits' value |
| InvestigateMissingPages.GeneratedSlugRoundTrip | scripts/generate-news-articles.cjs:46-50 | a slug that `generateSlug` makes from a 13-digit clock passes the timestamp test of the investigation and reads back that clock |
| InvestigateMissingPages.TimestampSlugs | scripts/investigate-missing-pages.cjs:45-46 | the timestamp slugs are exactly the published slugs that pass the test; a missing slug never does |
| InvestigateMissingPages.Partition | scripts/investigate-missing-pages.cjs:80-81 | each side holds exactly the reported slugs that are, or are not, among the published ones |
| InvestigateMissingPages.PartitionSizes | scripts/investigate-missing-pages.cjs:80-84 | the two sides are disjoint and together as many as the reported slugs |
| InvestigateMissingPages.TitleOf | scripts/investigate-missing-pages.cjs:89-90 | the title of the first record with the slug, and `タイトル不明` when there is none or it is untitled |
| InvestigateMissingPages.ListingOf | scripts/investigate-missing-pages.cjs:86-95 | the first five present slugs are listed with their titles, and the rest are counted exactly when there are more than five |
| InvestigateMissingPages.Timestamps | scripts/investigate-missing-pages.cjs:99-102 | exactly the timestamps of the reported slugs that match, and none other |
| InvestigateMissingPages.AllTimestamps | scripts/investigate-missing-pages.cjs:99-102 | when every reported slug is a timestamp slug, none is dropped |
| InvestigateMissingPages.Least | scripts/investigate-missing-pages.cjs:104 | `Math.min` of the timestamps is one of them and below all others |
| InvestigateMissingPages.Greatest | scripts/investigate-missing-pages.cjs:105 | `Math.max` of the timestamps is one of them and above all others |
| InvestigateMissingPages.DateRange | scripts/investigate-missing-pages.cjs:104-108 | there is a range exactly when there is a timestamp, since `toISOString` of `Infinity` throws, and its start is not after its end |
| InvestigateMissingPages.ConclusionShape | scripts/investigate-missing-pages.cjs:119-126 | advice is always given: "all deleted" exactly when no reported slug is published, "rebuild" exactly when some is |
| InvestigateMissingPages.SlugsOf | scripts/investigate-missing-pages.cjs:45 | one slug per record, in order, `undefined` where it is missing |
| InvestigateMissingPages.ReportOf | scripts/investigate-missing-pages.cjs:41-126 | the counts add up, the present slugs are listed exactly when there are some, and a conclusion is always reached |
| InvestigateMissingPages.Investigate | scripts/investigate-missing-pages.cjs:7-132 | missing credentials or a failing query exit with 1; otherwise the run fails with 1 exactly when no reported slug has a timestamp |
| InvestigateMissingPages.InvestigationShape | scripts/investigate-missing-pages.cjs:99-108 | when every reported slug is a timestamp slug the report is made, and its date range contains every timestamp |
| News.RecordToArticle | src/lib/news.ts:54-76 | an article keeps its row's id |
| News.RecordToArticleShape | src/lib/news.ts:54-76 | every text the pages print has a value, the category is never blank and defaults to `ニュース`, a non-empty title or slug is the row's own, and a missing thumbnail URL falls back to the first attachment |
| News.ArticlesOf | src/lib/news.ts:96-101 | a failed request is caught as the empty list; otherwise one article per row, in order |
| News.List | src/lib/news.ts:80-101 | without a client nothing is asked and the list is empty; otherwise the query is sent and its rows are converted |
| News.ListHonorsQuery | src/lib/news.ts:88-95 | under a backend that honours the query, a list has at most `limit` articles, the category page shows only that category and the featured block only featured articles |
| News.BySlug | src/lib/news.ts:187-212 | the first row of the slug query, and `null` exactly when there is no client, the request fails or no row comes back |
| News.BySlugFindsThatSlug | src/lib/news.ts:195-206 | an article found by a non-empty slug carries that slug |
| News.TimeLabelBands | src/lib/news.ts:247-258 | minutes below an hour, whole hours from 1 to 23, the clock time from a day on |
| News.TimeLabelExamples | src/lib/news.ts:247-258 | 5 min 59.999 s reads `5分前`, 3 h `3時間前`, and a publication 1 ms in the future `-1分前` |
| News.Timeline | src/lib/news.ts:224-271 | without a client nothing is asked; a failure gives the empty list; otherwise one item per row, agreeing with the article that row gives |
| News.BumpedArticle | src/lib/news.ts:286-290 | after the increment the article read from the row differs only in its view count, which is one higher |
| News.BumpedKeepsOtherFields | src/lib/news.ts:288-290 | the increment writes the view count and no other field |
| News.AgreeingRecordsAgree | src/lib/news.ts:54-76 | rows that agree outside the view count read as the same article but for its count |
| News.SameText | src/lib/news.ts:54-76 | rows with the same value under a field read the same text there |
| News.Repository.constructor | src/lib/news.ts:10 | a new module has its settings and no client yet |
| News.Repository.GetBase | src/lib/news.ts:12-20 | an existing client is reused; in the browser there is none; on the server missing credentials throw and otherwise a client is built from the settings and kept |
| News.Repository.Connect | src/lib/news.ts:82-88 | the credential guard and `getBase()` yield a client exactly in the cases the getters query Airtable |
| News.Repository.GetLatestNews | src/lib/news.ts:80-102 | newest published first, at most `limit`, `[]` when anything fails |
| News.Repository.GetNewsByCategory | src/lib/news.ts:107-129 | newest published articles of the category, at most `limit`, `[]` when anything fails |
| News.Repository.GetFeaturedNews | src/lib/news.ts:134-156 | newest published featured articles, at most `limit`, `[]` when anything fails |
| News.Repository.GetAllNews | src/lib/news.ts:161-182 | every published article, newest first, `[]` when anything fails |
| News.Repository.GetNewsBySlug | src/lib/news.ts:187-212 | the published article with the slug, or `null` |
| News.Repository.GetArticleBySlug | src/lib/news.ts:217-219 | the alias answers as `getNewsBySlug` does |
| News.Repository.GetTimelineItems | src/lib/news.ts:224-271 | the timeline of the newest `limit` published articles, `[]` when anything fails |
| News.Repository.IncrementViewCount | src/lib/news.ts:276-293 | a found row gets its count plus one and nothing else; missing credentials, an unreachable service or a missing row leave the table as it was |
| Ogp.HexFrom | scripts/generate-ogp-categories.cjs:71 | the hex run `parseInt` reads starts at the given place, holds only hex digits and stops before the first non-digit |
| Ogp.ToString16 | scripts/generate-ogp-categories.cjs:75 | `toString(16)` prints at least one lowercase hex digit |
| Ogp.PadStart | scripts/generate-ogp-categories.cjs:75 | `padStart` keeps the text as the tail and fills the front with the filler up to the length |
| Ogp.Channel | scripts/generate-ogp-categories.cjs:72-74 | a shifted and masked channel is always in [0, 255] |
| Ogp.AdjustClamps | scripts/generate-ogp-categories.cjs:72-74 | an adjusted channel is in [0, 255]: the sum when that is in range, else 0 below and 255 above |
| Ogp.AdjustMonotone | scripts/generate-ogp-categories.cjs:72-74 | a larger percent never gives a darker channel |
| Ogp.ChannelsOfColor | scripts/generate-ogp-categories.cjs:71-75 | splitting a 24-bit colour into channels and packing them again gives the colour back |
| Ogp.ColorChannels | scripts/generate-ogp-categories.cjs:72-75 | packing channels in [0, 255] and splitting again gives the same channels |
| Ogp.ToString16RoundTrip | scripts/generate-ogp-categories.cjs:71-75 | the printed hex digits read back as the number |
| Ogp.ToString16Length | scripts/generate-ogp-categories.cjs:75 | a number below 16^k prints with at most k digits, so a colour never needs more than six |
| Ogp.HexValueInjective | scripts/generate-ogp-categories.cjs:75 | two lowercase hex strings of one length with one value are equal |
| Ogp.SixDigits | scripts/generate-ogp-categories.cjs:75 | a colour prints as exactly six zero-padded lowercase digits that read back as the colour |
| Ogp.ParseAllHex | scripts/generate-ogp-categories.cjs:71 | `parseInt(h, 16)` of a string of hex digits reads all of it |
| Ogp.ResultShape | scripts/generate-ogp-categories.cjs:70-76 | for every input and percent, the modelled result is `#` and six lowercase hex digits that read as the packed clamped channels, even when the input is not a colour. `parseInt` is read exactly, which matches the source up to 13 hex digits (see Left out) |
| Ogp.ShortRunIsExact | scripts/generate-ogp-categories.cjs:71 | a run of at most 13 hex digits reads below 2^52, so the exact reading is the number JavaScript computes |
| Ogp.ResultChannels | scripts/generate-ogp-categories.cjs:70-76 | reading the result as a colour again gives exactly the three clamped channels |
| Ogp.ZeroPercentRoundTrip | scripts/generate-ogp-categories.cjs:70-76 | a lowercase `#rrggbb` colour comes back unchanged with percent 0 |
| Ogp.FirstCategoryShade | scripts/generate-ogp-categories.cjs:13 | the gradient's end colour of the first category, `#0ea5e9` lowered by 20, is `#0091d5` |
| Ogp.FirstCategoryChannels | scripts/generate-ogp-categories.cjs:30 | lowering `#0ea5e9` by 20 clamps red at 0 and gives green 0x91 and blue 0xd5 |
| Social.SiteUrl | scripts/post-to-x.cjs:54 | a set `SITE_URL` is used as is, else the default site; never empty |
| Social.EncodedSlug | scripts/post-to-x.cjs:65 | a slug holding `%` is kept, any other slug is percent-encoded |
| Social.Emoji | scripts/post-to-x.cjs:68-76 | the emoji is always a surrogate pair, two code units |
| Social.UnknownCategoryHorse | scripts/post-to-x.cjs:76 | an absent or unlisted category gets the horse |
| Social.Hashtags | scripts/post-to-x.cjs:79-84 | the two fixed hashtags come first, and a third, `#` and the first tag, exactly when the article has a tag |
| Social.HashtagsLength | scripts/post-to-x.cjs:99 | the joined hashtags are 12 code units, or 14 plus the tag's length |
| Social.DetailsLength | scripts/post-to-x.cjs:95 | the link line `👉 詳細はこちら` is the nine code units the budget allows for it |
| Social.PostTextLength | scripts/post-to-x.cjs:109 | the template adds 15 code units around emoji, title, URL and hashtags |
| Social.Upto | scripts/post-to-x.cjs:234 | the indices of the articles in order |
| Social.EachArticleOnce | scripts/post-to-x.cjs:234-256 | every article is attempted exactly once and in order, whatever failed before it |
| Social.NoTrailingPause | scripts/post-to-x.cjs:244-248 | the loop never ends on a pause |
| Social.PauseOnlyBetweenPosts | scripts/post-to-x.cjs:244-256 | every pause lasts the script's interval and directly follows a successful post of an article other than the last; a failure skips the pause |
| Social.RecordOneOnlyPostFields | scripts/post-to-x.cjs:170-181 | one record update keeps the set of records and changes only the post-id and posted-at fields of that one record |
| Social.RecordedOnlyPostFields | scripts/post-to-x.cjs:234-256 | posting never adds or removes a record and changes nothing but the two post fields |
| Social.RecordedPostId | scripts/post-to-x.cjs:238-241 | with distinct records, a successful post whose update reached the store leaves the post's id on its record |
| Social.PostEach | scripts/post-to-x.cjs:234-256 | the loop's steps are the log of the attempts and the table ends as those record updates leave it |
| Social.PostOne | scripts/post-to-x.cjs:236-255 | one article appends its steps and applies its record update |
| Social.LogStep | scripts/post-to-x.cjs:234 | one more article appends its own steps to the log |
| Social.RecordedStep | scripts/post-to-x.cjs:241 | one more article applies its own record update |
| PostToX.TitleBudget | scripts/post-to-x.cjs:90-101 | the title budget is 228 code units, less two and the first tag's length when there is a tag |
| PostToX.DisplayTitle | scripts/post-to-x.cjs:103-107 | a title within budget is unchanged; a longer one is cut to the budget less three and marked `...`, so its length is the budget (at least 3) |
| PostToX.TweetText | scripts/post-to-x.cjs:59-110 | a tweet text exists exactly when the article has a title and a slug |
| PostToX.TweetWithinLimit | scripts/post-to-x.cjs:86-109 | the tweet, with its URL weighed as 23, fits in 280 exactly when the title fits its budget or the budget leaves room for `...`, and a cut title fills the limit exactly |
| PostToX.ShortTagLeavesRoom | scripts/post-to-x.cjs:80-84 | any first tag of at most 223 code units leaves room for the `...` mark |
| PostToX.MediaUrl | scripts/post-to-x.cjs:140 | the attached image is the article's thumbnail, else the site's default OGP image |
| PostToX.Attempts | scripts/post-to-x.cjs:234-241 | one attempt per article, in order, with its id, its tweet text and what the service did |
| PostToX.Run | scripts/post-to-x.cjs:220-260 | each unposted article is tweeted once in order, a 15 s pause between a success and the next article, and its record gets `TweetID` and `TweetedAt` and nothing else |
| PostToBluesky.BlueskyText | scripts/post-to-bluesky.cjs:48-75 | a post text exists exactly when the article has a slug; a missing title is printed as `undefined` |
| PostToBluesky.TitleVerbatim | scripts/post-to-bluesky.cjs:73-74 | the title goes in verbatim with no length budget, so the post grows one for one with it |
| PostToBluesky.Attempts | scripts/post-to-bluesky.cjs:174-181 | one attempt per article, in order, with its id, its post text and what the service did |
| PostToBluesky.Run | scripts/post-to-bluesky.cjs:160-200 | each unposted article is posted once in order, a 5 s pause between a success and the next article, and its record gets `BlueskyPostUri` and `BlueskyPostedAt` and nothing else |
| Regenerate.FirstMatchNone | scripts/regenerate-remaining-thumbnails.cjs:21-28 | a title matching no rule gets the default category |
| Regenerate.FirstMatchAt | scripts/regenerate-remaining-thumbnails.cjs:21-28 | the first rule the title mentions decides, whatever later rules say |
| Regenerate.DetectCategoryIsFirstMatch | scripts/regenerate-remaining-thumbnails.cjs:21-28 | the five `includes` tests are the rule table applied first-match with ニュース as default |
| Regenerate.DetectCategoryOrder | scripts/regenerate-all-unsplash.cjs:20-27 | the category is that of the first rule the title mentions, and ニュース when it mentions none |
| Regenerate.Targets | scripts/regenerate-remaining-thumbnails.cjs:50 | the targets are records without a Cloudinary thumbnail, no more than there were |
| Regenerate.TargetsSelect | scripts/regenerate-remaining-thumbnails.cjs:31-37 | every record without a Cloudinary thumbnail is a target and no other is |
| Regenerate.TargetsKeepAll | scripts/regenerate-remaining-thumbnails.cjs:31-37 | when no record has a Cloudinary thumbnail, the targets are all the records, in order |
| Regenerate.CategoryOf | scripts/regenerate-all-thumbnails.cjs:53 | a stored category wins, else the one detected from the title; the line throws exactly when both are missing |
| Regenerate.SeededAttempt | scripts/regenerate-all-unsplash.cjs:57 | seeded by its record id, the Unsplash script's picture does not depend on the random draw |
| Regenerate.UnseededAttempt | scripts/regenerate-all-thumbnails.cjs:57 | the other scripts pick from the keyword's pool by the random draw |
| Regenerate.PauseSchedule | scripts/regenerate-remaining-thumbnails.cjs:83-88 | the one-minute pause falls after every sixth article and never after the last; otherwise two seconds |
| Regenerate.StepTally | scripts/regenerate-remaining-thumbnails.cjs:74-121 | one article is counted once, as a success or a failure, unless it throws before its `try` |
| Regenerate.StepRows | scripts/regenerate-remaining-thumbnails.cjs:93-97 | one article changes at most its own record, and there only `Thumbnail`, to the new image |
| Regenerate.LoopTally | scripts/regenerate-remaining-thumbnails.cjs:62-121 | every article before an abort is counted exactly once, as a success or a failure |
| Regenerate.LoopRows | scripts/regenerate-all-thumbnails.cjs:44-82 | the loop adds and removes no record and changes nothing but `Thumbnail` |
| Regenerate.RemainingPauses | scripts/regenerate-remaining-thumbnails.cjs:78-119 | in the remaining-thumbnails script the pauses so far are the schedule for the articles counted, success or not, and until an abort every article is counted |
| Regenerate.ScheduleAt | scripts/regenerate-remaining-thumbnails.cjs:83-88 | the schedule holds one pause per article, the pause after article `i` being the one its position calls for |
| Regenerate.RemainingStep | scripts/regenerate-remaining-thumbnails.cjs:78-119 | one article of that script appends the pause scheduled for its position |
| Regenerate.SuccessPauses | scripts/regenerate-all-unsplash.cjs:72-76 | in the other two scripts there is one fixed pause per success (500 ms or 2 s) and none per failure |
| Regenerate.AbortedStays | scripts/regenerate-all-thumbnails.cjs:89-92 | once an article has thrown outside its `try`, later articles change nothing |
| Regenerate.UnsplashRunIsSeeded | scripts/regenerate-all-unsplash.cjs:44-82 | the whole Unsplash run ends the same whatever the random draws, given the same update outcomes |
| Regenerate.RegenerateEach | scripts/regenerate-all-unsplash.cjs:44-82 | the loop ends with the rows, counters and pauses the specification of the loop gives |
| Regenerate.RegenerateOne | scripts/regenerate-all-unsplash.cjs:45-81 | one article's category line, thumbnail and update are one step of that specification |
| Regenerate.LoopNext | scripts/regenerate-all-unsplash.cjs:44 | one more article is one more step |
| Regenerate.AttemptParts | scripts/regenerate-all-unsplash.cjs:57-63 | without a throw, the attempt is the generator's thumbnail, or no image when that is empty |
| Regenerate.RunRemaining | scripts/regenerate-remaining-thumbnails.cjs:39-133 | missing credentials or a failed query exit 1 and change nothing; no target changes nothing; otherwise the loop over the targets decides rows and counters |
| Regenerate.RunAllUnsplash | scripts/regenerate-all-unsplash.cjs:29-93 | missing credentials or a failed query exit 1 and change nothing; otherwise the seeded loop over every published article decides rows and counters |
| Regenerate.RunAllThumbnails | scripts/regenerate-all-thumbnails.cjs:29-93 | missing credentials or a failed query exit 1 and change nothing; otherwise the unseeded loop over every published article decides rows and counters |
| SampleNews.KeywordTable | scripts/generate-sample-news-with-images.cjs:38-50 | each of the seven listed categories has its own keyword, and every other category gets `horse,racing` |
| SampleNews.PlaceholderUrl | scripts/generate-sample-news-with-images.cjs:52 | the URL is the fixed Unsplash prefix followed by exactly the category's keyword |
| SampleNews.PlaceholderUrlInjective | scripts/generate-sample-news-with-images.cjs:38-52 | different keywords give different URLs, so the URL names its keyword |
| SampleNews.CreatedFields | scripts/generate-sample-news-with-images.cjs:131-141 | the create call carries exactly the sample's listed fields, its new slug and `published` |
| SampleNews.SaveArticle | scripts/generate-sample-news-with-images.cjs:129-166 | a record is returned exactly when the create call succeeds, and then it is the only record added; a failed create changes nothing, a failed image update does not undo the record |
| SampleNews.StoredFields | scripts/generate-sample-news-with-images.cjs:131-158 | a stored sample keeps all created fields and has a thumbnail exactly when the update went through, and nothing else |
| SampleNews.Records | scripts/generate-sample-news-with-images.cjs:177-178 | one stored record per sample, in order |
| SampleNews.StepCounts | scripts/generate-sample-news-with-images.cjs:178-181 | one article adds at most its own record, counts at most once and changes no stored record |
| SampleNews.SaveAllCounts | scripts/generate-sample-news-with-images.cjs:177-184 | the success count never exceeds the articles tried, equals the number of records added, and existing records stay unchanged |
| SampleNews.AllCreatedAllCount | scripts/generate-sample-news-with-images.cjs:177-184 | when every create call succeeds with a fresh id, every article counts, image or not |
| SampleNews.FreshIdStaysFree | scripts/generate-sample-news-with-images.cjs:177-184 | the only ids the loop adds are those its create calls return |
| SampleNews.Run | scripts/generate-sample-news-with-images.cjs:12-19 | missing credentials exit 1 without touching the table; otherwise the reported count and the table are those of creating each sample in turn |
| Scraping.ScrapedRecord | scripts/daily-news-generation.cjs:262-275 | the record an item becomes carries the item's URL as its source |
| Scraping.ScrapedRecordFields | scripts/archived/scrape-keiba-news.cjs:154-181 | a scraped record is a published, unfeatured `ニュース` item with the item's title, source URL and source name, the day's date and the random slug; only the daily script names an author |
| Scraping.CommonFieldsSet | scripts/archived/scrape-keiba-news.cjs:168-180 | the fields both layouts write hold the item's title, slug, category, status, source and date |
| Scraping.ScrapedExcerpt | scripts/daily-news-generation.cjs:267 | the stored excerpt is the first 200 code units of the item's excerpt, all of it when shorter |
| Scraping.ArchivedContentLinks | scripts/archived/scrape-keiba-news.cjs:155-172 | the link to the original survives the archived scraper's trimming |
| Scraping.LayoutsAgreeOnContent | scripts/daily-news-generation.cjs:268 | when the excerpt does not start and the source name does not end with a blank, both scripts store the same content |
| Scraping.LayoutsKeepSource | scripts/daily-news-generation.cjs:269 | both layouts store the item's URL as the record's source |
| Scraping.StepCounts | scripts/daily-news-generation.cjs:254-283 | one item bumps at most one counter; a saved item adds exactly one record and a stored record is never changed |
| Scraping.ScrapeCounts | scripts/daily-news-generation.cjs:251-283 | the counters never exceed the items, the saved counter is the number of new records, and the records already stored are kept |
| Scraping.NewRowsAreScrapedRecords | scripts/daily-news-generation.cjs:262-277 | every record the loop adds is the record of one of the items |
| Scraping.NoDuplicateSaved | scripts/daily-news-generation.cjs:493-507 | while every duplicate lookup reaches the store, no added record shares its source URL with any other record, old or new |
| Scraping.StepKeepsSourcesUnique | scripts/daily-news-generation.cjs:255-259 | an item whose lookup reaches the store is saved only when no record has its URL |
| Scraping.AddUniqueSource | scripts/daily-news-generation.cjs:277 | adding a record whose URL no stored record has keeps the new URLs unique |
| Scraping.NewRowHasSource | scripts/daily-news-generation.cjs:269 | every added record carries a source URL |
| Scraping.SaveEach | scripts/daily-news-generation.cjs:251-283 | the loop leaves the rows and the two counters its specification gives |
| Scraping.SaveOne | scripts/archived/scrape-keiba-news.cjs:249-262 | one item is looked up and then counted as a duplicate or created |
| ScrapeKeibaNews.AllArticles | scripts/archived/scrape-keiba-news.cjs:232-238 | the items are netkeiba.com's followed by Yahoo!'s, each in its scraper's order |
| ScrapeKeibaNews.Run | scripts/archived/scrape-keiba-news.cjs:18-280 | without an API key, or when the browser launch fails, the script exits 1 and changes nothing; otherwise the counts and table are those of the save loop with the archived layout |
| ScrapeKeibaNews.RunCounts | scripts/archived/scrape-keiba-news.cjs:245-270 | the counts never exceed the items collected, the saved count is the number of records added, stored records are untouched, and with every lookup reached no new record repeats a source URL |
| ServiceWorker.SlashFrom | public/sw.js:56 | the first `/` at or after a place, or the end, with no `/` before it |
| ServiceWorker.SchemeKept | public/sw.js:56 | an origin's `://` is found at the same place in any URL it begins |
| ServiceWorker.LookalikeHostIntercepted | public/sw.js:55-58 | the prefix test also accepts a host whose name merely begins with the worker's host, although its origin differs |
| ServiceWorker.InterceptsIffSameOrigin | public/sw.js:55-58 | the corrected test intercepts exactly the requests whose origin is the worker's own |
| ServiceWorker.CorrectedImpliesAsWritten | public/sw.js:55-58 | every URL the corrected test accepts also starts with the origin, so the test as written accepts it too |
| ServiceWorker.Opened | public/sw.js:20 | after `caches.open` the named cache exists |
| ServiceWorker.OpenedKeeps | public/sw.js:20 | opening keeps every cache and its contents, adds an empty cache only when it is missing, and keeps the storage valid |
| ServiceWorker.Without | public/sw.js:37-38 | the filtered names are exactly the listed names other than the excluded one |
| ServiceWorker.WithoutDistinct | public/sw.js:37-38 | filtering a list without repeats leaves a list without repeats |
| ServiceWorker.MatchIn | public/sw.js:74 | a match is an answer some listed cache holds for the URL, and no match means none holds one |
| ServiceWorker.CacheStorage.constructor | public/sw.js:20 | a fresh origin has no caches |
| ServiceWorker.CacheStorage.Open | public/sw.js:20 | opening changes the storage as its specification says |
| ServiceWorker.CacheStorage.Put | public/sw.js:66-68 | a put stores the answer in the named cache and changes nothing else |
| ServiceWorker.CacheStorage.Delete | public/sw.js:41 | deleting reports whether the cache existed and removes it and its name |
| ServiceWorker.CacheStorage.AddAll | public/sw.js:22 | `addAll` stores every answer exactly when each was fetched with an ok status other than 206, and otherwise leaves the storage as it was |
| ServiceWorker.PutAllStores | public/sw.js:22 | distinct URLs each get their own answer and every other entry is kept |
| ServiceWorker.AssetUrls | public/sw.js:8-13 | one URL per static asset |
| ServiceWorker.AssetUrlsDistinct | public/sw.js:8-13 | the four asset URLs are distinct |
| ServiceWorker.InstalledShape | public/sw.js:16-28 | installing succeeds exactly when every asset was fetched with a storable answer, and then the current cache holds each asset's answer under its URL; the current cache exists afterwards, no other cache changes and the storage stays valid |
| ServiceWorker.DeleteOthersShape | public/sw.js:35-43 | deleting the other names of a list keeps exactly the caches not listed and the current one, unchanged |
| ServiceWorker.ActivatedShape | public/sw.js:31-49 | after activation only the current cache is left, unchanged, and it is the only name listed |
| ServiceWorker.HandleShape | public/sw.js:52-91 | with the test as written, a request whose URL does not start with the worker's origin is left alone and every other one is handled; a network answer is passed on and stored under the request's URL exactly when it is a 200 answer to a GET; without the network the first cached answer is served, else the 503 offline page, and the storage is unchanged |
| ServiceWorker.AssetsServedOffline | public/sw.js:16-91 | after installation and activation every static asset is served from the cache when the network is down |
| ServiceWorker.MatchOnlyCurrent | public/sw.js:74 | when only the current cache is listed, matching looks there alone |
| ServiceWorker.AssetsBelowOrigin | public/sw.js:8-13 | every asset URL is a path below the origin, so it is intercepted |
| ServiceWorker.StoredThenServedOffline | public/sw.js:55-79 | a page whose URL starts with the origin and that is fetched with a 200 answer is served from the cache on a later visit without network |
| ServiceWorker.Install | public/sw.js:16-28 | the handler's effect and success are those of its specification |
| ServiceWorker.Activate | public/sw.js:31-49 | the handler's effect is that of its specification |
| ServiceWorker.Fetch | public/sw.js:52-91 | the handler, with its `startsWith(self.location.origin)` test as written, changes the caches and answers as its specification does |
| ServiceWorker.SameOriginHandling | public/sw.js:55-58 | the handler with the corrected test leaves alone exactly the requests of other origins and handles every same-origin request as the handler as written does |
| ServiceWorker.LookalikeHostHandled | public/sw.js:52-79 | the handler as written answers a request to another host or port whose authority begins with the origin's, which the corrected handler leaves alone |
| Sitemap.ArticleEntries | src/pages/sitemap.xml.ts:32-45 | one entry per article, in order |
| Sitemap.EntriesXml | src/pages/sitemap.xml.ts:23-45 | one `<url>` element per entry, in order |
| Sitemap.EntryListsLoc | src/pages/sitemap.xml.ts:25-29 | each entry's XML holds its `<loc>` element |
| Sitemap.PageLocListed | src/pages/sitemap.xml.ts:21-31 | every fixed page's `<loc>` is in the document |
| Sitemap.ArticleLocListed | src/pages/sitemap.xml.ts:32-45 | every article's `<loc>` is in the document |
| Sitemap.AllLocsListed | src/pages/sitemap.xml.ts:21-46 | every entry's `<loc>` is in the document |
| Sitemap.EveryLocListed | src/pages/sitemap.xml.ts:12-46 | the document has the five fixed pages first with their table values, then one entry per article at `https://keiba-guide.jp/news/<slug>/`, weekly, priority 0.8, dated by the article, each `<loc>` present |
| Sitemap.NoArticlesOnlyStatic | src/pages/sitemap.xml.ts:12-46 | without articles the document lists exactly the five fixed pages |
| Sitemap.NoArticlesRender | src/pages/sitemap.xml.ts:21-46 | without articles only the fixed pages are rendered, followed by the blank line of the empty article list |
| Sitemap.Get | src/pages/sitemap.xml.ts:7-54 | the endpoint asks for the latest 100 articles and serves their document with the XML content type and a one-hour cache header |
| Sitemap.AtMostLimitEntries | src/pages/sitemap.xml.ts:9 | when Airtable honours the limit the sitemap has at most 105 entries |
| FindLowCtrArticles.FirstUnit | scripts/find-low-ctr-articles.cjs:51 | the first occurrence of the separator, or the end |
| FindLowCtrArticles.Split | scripts/find-low-ctr-articles.cjs:51 | `split` gives at least one piece and no piece holds the separator |
| FindLowCtrArticles.SplitJoin | scripts/find-low-ctr-articles.cjs:51 | joining the pieces with the separator gives the query back |
| FindLowCtrArticles.AnyIncluded | scripts/find-low-ctr-articles.cjs:53 | true exactly when some word occurs in the text |
| FindLowCtrArticles.EmptyWordMatchesAll | scripts/find-low-ctr-articles.cjs:51-53 | a query with an empty word (a doubled, leading or trailing space) matches every article |
| FindLowCtrArticles.UpperCaseWordNeverMatches | scripts/find-low-ctr-articles.cjs:50-53 | only the text is lower-cased, so a query word with an upper-case ASCII letter never matches |
| FindLowCtrArticles.MissingFieldsAreEmpty | scripts/find-low-ctr-articles.cjs:45-50 | an article without title, content and excerpt is searched as two spaces |
| FindLowCtrArticles.Matching | scripts/find-low-ctr-articles.cjs:44-54 | the filter keeps exactly the matching articles |
| FindLowCtrArticles.FindingShape | scripts/find-low-ctr-articles.cjs:56-71 | no match is reported exactly when no article matches; otherwise the count is the number of matches and the first three, in order, are shown |
| FindLowCtrArticles.FindArticles | scripts/find-low-ctr-articles.cjs:19-72 | one finding per target query, in order |
| Store.TextOr | scripts/find-low-ctr-articles.cjs:45-47 | a text field with a default gives the default or a non-empty stored text, and the stored text whenever that is non-empty |
| Store.Table.constructor | scripts/fix-thumbnails.cjs:63 | a table holds the given rows |
| Store.Table.Update | src/lib/news.ts:288-290 | a single update succeeds exactly when the service is reached and the record exists, and then merges the patch into that record only; a failed update changes nothing |
| Store.Table.UpdateBatch | scripts/fix-thumbnails.cjs:63 | a batch update succeeds exactly when the service is reached, the batch has at most ten records and all exist; it then merges each patch, and otherwise changes nothing |
| Store.Table.Create | scripts/daily-news-generation.cjs:513 | a create succeeds exactly when the service is reached with a fresh id, and then adds that record only |
| Store.Table.Destroy | scripts/delete-all-news.cjs:37 | a batch delete succeeds exactly when the service is reached, there are at most ten ids and all exist; it then removes exactly those records, and otherwise changes nothing |
| Store.Merged | scripts/fix-thumbnails.cjs:63 | merging a batch of updates keeps the set of records |

## Left out

- Airtable: formula evaluation, server-side sorting and `maxRecords`. A query's answer is an input, and properties that depend on Airtable honouring the query take that as a hypothesis (`News.HonorsQuery`).
- News.ListHonorsQuery: holds only for a backend that honours the query's limit and filter. The library itself does not check the answer.
- The lost-update race between concurrent `incrementViewCount` calls: the read-modify-write is modelled sequentially.
- Scraping: the puppeteer scrapers (`scrapeNetkeibaNews`, `scrapeYahooNews`) are browser I/O against third-party HTML. Their results are inputs (`Scraping.Scraped`, `ScrapeKeibaNews.Session`).
- The Anthropic model calls and the wording of the prompts: the answer text is an input. Only the title, excerpt, date and field mapping around it are modelled.
- Replicate, Cloudinary and Unsplash network calls, `downloadImage`, `uploadToCloudinary` and temporary files: they are I/O. The access key is the placeholder literal, so only the fallback-pool branch of `fetchUnsplashImage` is reachable, and that branch is modelled.
- X and Bluesky logins, media upload and posting: each attempt's result is an input.
- PostToX.Run and PostToBluesky.Run: the start-up check of required environment variables and the query for unposted articles are not modelled. The run starts from the query's answer.
- Canvas drawing in the OGP and icon scripts: a foreign rendering library. Only `adjustBrightness` is modelled.
- Math.random: the slugs, the template and topic picks, the featured flag, the view count and the unseeded pool pick take their random numbers as inputs. `scripts/fix-dates-and-views.cjs` (a `Math.sin`-based generator) is not part of this model.
- Date formatting: `toISOString`, `toLocaleTimeString`, `getDay` and the sitemap's `Date` interpolation are uninterpreted. Timestamps are milliseconds, and the text they print is an input function (`dateText`) or a `Timestamp`/`Day` value.
- `encodeURIComponent`: an uninterpreted function (`Encoder`).
- Lowercasing: `toLowerCase` is modelled for ASCII letters only. Other letters are left unchanged.
- Pauses (`setTimeout`): recorded as the length of each pause in the scripts' logs. No time passes.
- Console output is left out, except the counts and progress bounds the scripts report.
- The display-only report scripts, `update-ctr-articles.cjs`, `test-generate-news-mock.cjs`, the dry-run tests and `astro.config.mjs` are not part of this model.
- `scripts/generate-news-articles.cjs` does not parse: line 250 declares a function whose name contains a space. The module models its functions as they would behave if the file loaded.
- The service worker's `sync` and `push` handlers are stubs. They are not modelled, and neither are `skipWaiting` and `clients.claim`.
- The fire-and-forget `cache.put` is applied before the fetch handler answers, so the policy is sequential.
- Cache matching ignores URL fragments and `Vary` headers.
- check-duplicates.cjs: keys inherited from `Object.prototype` (an image URL such as `constructor`) are not modelled. The per-line 80-character display cut is output only.
- ResultShape: it reads `parseInt(hex, 16)` as an exact integer, and so do ResultChannels and `Ogp.ParseHex`. Past 13 hex digits the source's number is a rounded double, or Infinity, which converts to 0 in 32 bits, so its channels can differ from the model's. `Ogp.ShortRunIsExact` shows that up to 13 digits the reading is below 2^52 and so exact. Doubles are not modelled, and every colour the script uses has six digits.
- ResultChannels: it reads `parseInt` exactly, as ResultShape does. It does not model the double rounding of inputs longer than 13 hex digits.
- `parseInt` of a 13-digit timestamp is exact in a double, because such a number is below 2^53. The model reads it as an integer.

## Findings

| source | as written | input that shows it | evidently intended | confidence | as-written member | corrected member |
|---|---|---|---|---|---|---|
| scripts/check-duplicates.cjs:40-44 | the summary compares the number of distinct images with the literal 10 and reports `10 - uniqueImages` duplicates | one published article: nothing is reported as a duplicate, yet the summary says nine duplicates | compare with the number of articles fetched | not executed | CheckDuplicates.SummaryAsWrittenMiscounts | CheckDuplicates.SummaryCounts |
| public/sw.js:56 | same-origin requests are recognised by `request.url.startsWith(self.location.origin)`, without the `/` that ends the origin | origin `https://keiba-nyumon.jp`, request `https://keiba-nyumon.jp.evil.example/x` or `https://keiba-nyumon.jp:8443/x`: intercepted and cached although it is another origin | intercept exactly the URLs whose origin is the worker's (the origin itself or a path below it) | not executed | ServiceWorker.LookalikeHostHandled | ServiceWorker.SameOriginHandling |
