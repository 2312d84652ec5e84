# n8n workflow popularity — a Dafny model of the collection, scoring and storage core

This project models the core of the n8n workflow popularity service. That core is:
- three collectors that turn the replies of YouTube, the n8n community forum (Discourse) and Google Trends into observation records;
- the popularity scores they attach;
- the keyed store of `Workflow` rows that the `fetch_workflows` command and `upsert_workflows` fill;
- the `list_workflows` read query.

Every HTTP reply is an input to the model. A `Fetch` value (`Failed` or `Fetched(body)`) stands for the decoded reply of one call, and a function of the request stands for an endpoint called several times. The clock is a parameter `now`. A refusal by the database is an oracle `rejects`. `math.sqrt` is a parameter `sqrt`, about which only that it is a square root (`Scores.IsSqrt`) or monotone (`Scores.Monotone`) is assumed, where a lemma needs it.

Modules follow the source files:
- `Scores`: `youtube_score`, `forum_score` and `trends_score` over exact reals.
- `Collectors`: the three collectors and `upsert_workflows` (workflows/collectors.py). Each collector is a loop method, proved equal to a recursive specification function. The lemmas are stated about that function.
- `Store`: the `Workflow` table as a class holding `map<Key, Workflow>`, plus `update_or_create`. `Upserted` is the table after a batch of saves.
- `FetchWorkflows`: `Command.handle`, split into its collection loop (`CollectAll`) and its storage loop (`StoreAll`).
- `Views`: `list_workflows` as a function over a snapshot of the rows.
- `Models`: the row shape, the `unique_together` key, the field defaults and `__str__`.
- `Common`: Option, Result, the fault kinds and `Chain`.

The model follows the code as written:
- The YouTube collector runs whether or not an API key is set, and recovers from nothing. Any failed request or unreadable counter makes the whole collector raise.
- The forum collector reads one listing page. The country only labels its records.
- A collector that raises ends `Command.handle` before any write, since the command catches no collector failure.
- The platform names are `"YouTube"`, `"Forum"` and `"GoogleTrends"`. The YouTube score grows with the square root of the views.
- The trends reference sample is the one at index `len - min(len, 30)`.

## Model

| member | source | states |
|---|---|---|
| `Scores.SqrtMonotone` | workflows/collectors.py:20-24 | a square root (what `math.sqrt` computes) is monotone on non-negative arguments |
| `Scores.YoutubeScore` | workflows/collectors.py:14-16 | the score is 0 whenever views <= 0, whatever the likes and comments |
| `Scores.YoutubeScoreAtRatios` | workflows/collectors.py:17-20 | for positive views the score is sqrt(views) * (1 + 3*like_ratio + 5*comment_ratio) for the actual ratios |
| `Scores.YoutubeScoreNonNegative` | workflows/collectors.py:14-20 | with non-negative likes and comments the score is never negative |
| `Scores.YoutubeScoreMonotoneInViews` | workflows/collectors.py:14-20 | holding both engagement ratios fixed, more views never lower the score (monotone sqrt) |
| `Scores.YoutubeScoreExample` | workflows/collectors.py:14-20 | 1000 views, 50 likes, 10 comments score exactly sqrt(1000) * 1.2 |
| `Scores.ForumScore` | workflows/collectors.py:22-24 | forum_score: 3 per reply, 2 per like, 5 per contributor plus sqrt of the views floored at 0; its properties are ForumScoreSteps, ForumScoreNegativeViews and ForumScoreMonotoneInViews |
| `Scores.ForumScoreSteps` | workflows/collectors.py:22-24 | one more reply, like or contributor raises the forum score by exactly 3, 2 or 5 |
| `Scores.ForumScoreNegativeViews` | workflows/collectors.py:24 | negative views count as sqrt(0), so they add nothing for a true square root |
| `Scores.ForumScoreMonotoneInViews` | workflows/collectors.py:22-24 | the forum score is non-decreasing in views when sqrt is monotone |
| `Scores.TrendsScore` | workflows/collectors.py:26-28 | trends_score(i, 0) == i, trends_score(i, -100) == 0, and positive for positive interest above -100% |
| `Scores.TrendsScoreOverReference` | workflows/collectors.py:26-28 | with a non-zero reference the trends score of the computed change is interest^2 / reference |
| `Collectors.VideoIdsAppend` | workflows/collectors.py:52 | the video-id list of concatenated search items is the concatenation of their lists (order is kept) |
| `Collectors.VideoIdsMembership` | workflows/collectors.py:52 | an id is collected iff some search item carries it as its videoId |
| `Collectors.VideoObservation` | workflows/collectors.py:61-84 | the record of one statistics item; its content is stated by VideoObservationFields and VideoObservationExample |
| `Collectors.VideoObservationFields` | workflows/collectors.py:61-84 | an item raises iff a counter is unreadable (a null view count included); absent view and absent/None like and comment counts read 0, readable counters are stored as read; the ratios are likes/views and comments/views (0 without views); title, watch URL and keyword are kept; the score is youtube_score of the stored counts |
| `Collectors.VideoObservationExample` | workflows/collectors.py:61-84 | a video with 1000 views, 50 likes and 10 comments is stored with ratios 0.05 and 0.01 and scores sqrt(1000) * 1.2 |
| `Collectors.VideoObservations` | workflows/collectors.py:61-84 | the records of one statistics reply; stated by VideoObservationsAt and VideoObservationsShape |
| `Collectors.VideoObservationsAt` | workflows/collectors.py:61-84 | one record per statistics item in reply order, record j built from item j; the reply raises iff some item has an unreadable counter |
| `Collectors.YouTubeSkipsKeywordWithoutIds` | workflows/collectors.py:54-56 | a keyword whose search yields no video id adds no record and the next keyword is still processed |
| `Collectors.VideoObservationsShape` | workflows/collectors.py:61-84 | a statistics reply yields one YouTube-shaped record per item |
| `Collectors.YouTubeShape` | workflows/collectors.py:38-86 | every record of a successful YouTube collection is labelled YouTube and the country, links to a watch URL, carries one of the keywords and a score consistent with its ratios |
| `Collectors.YouTubeObservations` | workflows/collectors.py:31-86 | collect_youtube_for_country as a function: each keyword's records in keyword order, any failure raises; stated by YouTubeEmits, YouTubeStep, YouTubeSkipsKeywordWithoutIds, YouTubeShape and VideoObservationsAt |
| `Collectors.YouTubeEmits` | workflows/collectors.py:38-86 | a keyword whose search and statistics calls succeed emits its records ahead of the later keywords' records |
| `Collectors.YouTubeStep` | workflows/collectors.py:38-86 | one keyword of the loop: a failing keyword ends the collection with its fault, otherwise its records follow those collected so far and the later keywords' follow them |
| `Collectors.CollectYouTubeForCountry` | workflows/collectors.py:31-86 | the nested keyword/item loops return exactly the specified records in keyword and reply order, or the first fault |
| `Collectors.ForumObservation` | workflows/collectors.py:98-120 | the record of one topic; stated by ForumObservationFields and ForumObservationsAt |
| `Collectors.ForumObservationFields` | workflows/collectors.py:98-120 | title, Forum label, country and the URL base/t/id; absent counters read as 0, present ones are stored as read; the score is forum_score of the stored counts |
| `Collectors.ForumSpec` | workflows/collectors.py:89-122 | collect_forum as a function: a failed listing raises, otherwise the records of the first `limit` topics; stated by ForumObservationsAt and ForumLimit |
| `Collectors.ForumObservationsAt` | workflows/collectors.py:97-121 | one record per topic in listing order, record i built from topic i and its contributor count; the call raises iff some detail fetch raises or a 200 reply is not JSON |
| `Collectors.ForumLimit` | workflows/collectors.py:95-121 | for a non-negative limit exactly min(limit, len(topics)) records, record i built from listing topic i and its contributor count |
| `Collectors.ContributorsRule` | workflows/collectors.py:104-111 | contributors is the participants count on status 200 and 1 on any other status |
| `Collectors.CollectForum` | workflows/collectors.py:89-122 | the topic loop returns exactly the specified records, or the first fault |
| `Collectors.Geo` | workflows/collectors.py:131 | geo is "US" iff the country is "US", and "IN" otherwise |
| `Collectors.ReferenceAt` | workflows/collectors.py:141-143 | the reference sample is the one at index len - min(len, 30), the first when len <= 30 |
| `Collectors.ChangePctGuards` | workflows/collectors.py:142-144 | a one-sample series and a zero reference both give change_pct = 0 |
| `Collectors.TrendObservation` | workflows/collectors.py:140-154 | the record of one keyword with a non-empty series; stated by TrendObservationFields, TrendObservationScore and TrendsShape |
| `Collectors.TrendObservationFields` | workflows/collectors.py:140-154 | the record is named by its keyword, labelled GoogleTrends, the country and the trends URL, and stores the last sample as interest and the guarded change (0 for a one-sample series or a zero reference) |
| `Collectors.TrendObservationScore` | workflows/collectors.py:140-146 | a trends record scores interest^2 / reference, or the interest itself when the reference is 0 |
| `Collectors.TrendsAppend` | workflows/collectors.py:134-156 | the records of concatenated keyword lists are the concatenation of their records |
| `Collectors.TrendsSkipsKeyword` | workflows/collectors.py:138-139 | a keyword that raises or has an empty series contributes nothing and the rest are unaffected |
| `Collectors.TrendsEmits` | workflows/collectors.py:140-154 | a keyword whose series is fetched and not empty emits its record, ahead of the later keywords' records |
| `Collectors.TrendsShape` | workflows/collectors.py:147-154 | at most one record per keyword, each named by its keyword, platform GoogleTrends, the country and the trends URL |
| `Collectors.TrendsSpec` | workflows/collectors.py:125-157 | collect_trends as a function: a client that cannot be built raises, otherwise one record per keyword with a non-empty series, in keyword order; stated by TrendsAppend, TrendsEmits, TrendsSkipsKeyword and TrendsShape |
| `Collectors.CollectTrends` | workflows/collectors.py:125-157 | the keyword loop returns exactly the specified records: a client that cannot be built is the only failure, otherwise the records of the keywords that succeed, in keyword order |
| `Collectors.UpsertWorkflows` | workflows/collectors.py:160-173 | atomic: if no write is refused the table is the batch applied in order, otherwise the table is unchanged |
| `Store.WorkflowTable.UpdateOrCreate` | workflows/collectors.py:164-173 | update_or_create writes the row under its key, creating it iff absent, and stamps last_seen with the save instant |
| `Store.Upserted` | workflows/collectors.py:163-173 | the table after update_or_create of each item of a batch in order; stated by the Upserted lemmas below |
| `Store.UpsertedKeys` | workflows/collectors.py:163-173 | after a batch the table holds exactly the old keys plus the batch's keys |
| `Store.UpsertedLastWins` | workflows/collectors.py:163-173 | each key of the batch holds the values of the last item with that key |
| `Store.UpsertedUntouched` | workflows/collectors.py:163-173 | a key outside the batch keeps its row or stays absent |
| `Store.UpsertedKeyed` | workflows/models.py:13 | upserting never puts a row under another key, so no two rows share a (workflow, platform, country) triple |
| `Store.UpsertedOverrides` | workflows/collectors.py:163-173 | a batch overrides the table with the rows it would produce on an empty table |
| `Store.UpsertedIdempotent` | workflows/collectors.py:163-173 | upserting the same batch again at the same instant changes nothing |
| `Store.UpsertedCountsDistinct` | workflows/collectors.py:163-173 | N items with distinct new keys add exactly N rows |
| `Store.SameKeyTwiceKeepsSecond` | workflows/collectors.py:163-173 | two items with one key in a batch leave one row holding the second |
| `FetchWorkflows.AllItemsOrder` | workflows/management/commands/fetch_workflows.py:12-19 | all_items is US YouTube, Forum, Trends then IN YouTube, Forum, Trends; a raising collector aborts the run |
| `FetchWorkflows.CollectAll` | workflows/management/commands/fetch_workflows.py:12-19 | the country loop returns exactly the specified concatenation, or the first fault |
| `FetchWorkflows.StoreAll` | workflows/management/commands/fetch_workflows.py:21-34 | non-atomic: the writes before the first refused item stay applied; on success the reported count is len(all_items) |
| `FetchWorkflows.Handle` | workflows/management/commands/fetch_workflows.py:9-34 | a collector fault ends the run with the table unchanged; otherwise the batch is stored as far as the first refused write |
| `FetchWorkflows.StoredAfterRun` | workflows/management/commands/fetch_workflows.py:21-32 | each key of the run holds the source_url, metrics and score of its last occurrence and last_seen = the run's instant; other rows are unchanged |
| `FetchWorkflows.CountCanExceedRows` | workflows/management/commands/fetch_workflows.py:21-34 | a batch written into an empty table leaves one row per distinct key, never more than len(all_items), and strictly fewer whenever some key repeats, so the reported count then exceeds the rows written |
| `Models.OmittedScoreIsZero` | workflows/models.py:7-10 | an omitted popularity_score is 0, source_url may be None, and last_seen is the save instant |
| `Models.Display` | workflows/models.py:15-16 | the `__str__` form of a row's key; stated by DisplayRoundTrip and DisplayInjective, for keys whose country has no '/' and whose platform has no '(' |
| `Models.DisplayRoundTrip` | workflows/models.py:15-16 | for a key whose country has no '/' and whose platform has no '(', the string workflow + " (" + platform + "/" + country + ")" parses back to the key |
| `Models.DisplayInjective` | workflows/models.py:15-16 | among keys whose country has no '/' and whose platform has no '(', two with the same string form are the same key |
| `Views.MatchesIgnoresCase` | workflows/views.py:13-16 | examples of the case-insensitive filters: "youtube" selects "YouTube", "in" selects "IN", "US" does not select "IN" |
| `Views.MatchesFoldsCase` | workflows/views.py:13-16 | two filters equal ignoring case select exactly the same fields |
| `Views.FilteredExact` | workflows/views.py:13-16 | a row survives the filters iff it is in the table and matches every non-empty filter, as often as the table holds it |
| `Views.NoFilterKeepsAll` | workflows/views.py:13-16 | an absent or empty filter filters nothing |
| `Views.SortByScore` | workflows/views.py:17 | ordering yields a permutation of the rows in non-increasing score order |
| `Views.Insert` | workflows/views.py:17 | inserting a row into a sorted sequence keeps it sorted and adds exactly that row |
| `Views.SortedAllPairs` | workflows/views.py:17 | in the ordered result every row scores at least as much as every later one |
| `Views.PrefixOfSorted` | workflows/views.py:17 | a cut of the ordered rows is sorted and no row cut off scores above a row kept |
| `Views.ParseIntRoundTrip` | workflows/views.py:11 | int(str(n)) == n for every integer limit |
| `Views.DigitsRoundTrip` | workflows/views.py:11 | the decimal digits of a natural number read back as that number |
| `Views.NonDigitIsNotAnInteger` | workflows/views.py:11 | under the modelled int(), which takes an optional sign and ASCII digits only, any other character after the sign makes the limit an error |
| `Views.TopRows` | workflows/views.py:17 | the ordered, sliced query; stated by TopRowsContract |
| `Views.TopRowsContract` | workflows/views.py:17 | exactly min(bound, number of matches) rows, sorted, drawn from the matching rows, all of them when they fit, and none left out scores higher |
| `Views.ListWorkflows` | workflows/views.py:8-19 | list_workflows over a snapshot of the rows; stated by ListWorkflowsFaults, ListWorkflowsContract and ListWorkflowsDefaults |
| `Views.ListWorkflowsFaults` | workflows/views.py:11-17 | the view fails exactly for a non-integer limit (int raises) or a negative one (negative slicing) |
| `Views.ListWorkflowsContract` | workflows/views.py:12-17 | exactly min(limit, 1000, number of matches) rows, non-increasing score, each from the table and matching the filters, all matching rows when they fit, no better row left out |
| `Views.ListWorkflowsDefaults` | workflows/views.py:11 | without a limit at most 100 rows are returned; limit "ten" is an error |

## Left out

- HTTP transport, `raise_for_status`, JSON decoding and `time.sleep` pacing are not modelled. Each call is a decoded input (`Fetch`, `DetailReply`), and `Failed` stands for any exception of that call.
- The YouTube API key and the `maxResults` search parameter are left out. Both only shape the request; the reply is an input.
- The pytrends client and DataFrame internals are left out. A series is a `seq<int>` of already-converted samples. `clientFails` stands for a `TrendReq` that cannot be built.
- Float rounding is not modelled. Scores and ratios are exact reals, and `math.sqrt` is a parameter. The identities proved hold for exact arithmetic.
- Django ORM, transactions and `auto_now` are not modelled. The table is a map keyed by the unique triple. One instant `now` is used per batch, where the source reads the clock at every save.
- The database's reasons for refusing a write are left out (for example a None score or metrics, or over-long fields on backends that enforce `max_length`). They are folded into the `rejects` oracle.
- Collectors.UpsertWorkflows: items are full observations. Items missing keys, read with `it.get`, are not modelled.
- FetchWorkflows.StoreAll: items are full observations, as the command reads every key directly.
- Forum topics always carry a title and an id, given as the id's text. A missing title (None) or id is not modelled.
- A forum counter present as JSON null is not modelled: `Topic` holds None only for an absent views, reply_count or like_count, read as 0, whereas the source passes a null on and forum_score raises on it.
- A YouTube statistics item always carries an id and a title: an item without `id` or `snippet.title`, on which the source raises KeyError, is not modelled.
- A YouTube counter is absent, None, a number or unreadable. The empty string, which `or 0` maps to 0 for likes and comments, is not distinguished.
- Models.DisplayRoundTrip: the string form is ambiguous when a country holds '/' or a platform holds '(' (for example "x (a/b/c)" for two keys), so the round trip and injectivity are stated for the other keys only.
- Views.ParseInt: accepts an optional sign and ASCII digits. Python's `int()` also accepts surrounding whitespace, underscores and non-ASCII digits; those are not modelled.
- Views.Matches: folds ASCII letters only. Database case folding beyond ASCII is not modelled.
- Views.SortByScore: keeps table order among equal scores. The database's order for ties is unspecified.
- Views.ListWorkflows: runs over a sequence snapshot of the rows. How that snapshot is enumerated from the keyed table is not modelled.
- The serializer and the HTTP response of the view are left out.
- Settings loading (the missing-secret startup error) and the health and home handlers in n8n_popularity are not part of this model.
- The command's progress messages on stdout are left out.
- Overlapping collection runs are left out. The model is sequential.
