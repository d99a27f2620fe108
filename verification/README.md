# RSS digest task — a Dafny model

This project models the feed-collection task of a small robot that every
morning fetches a list of RSS sources, keeps each source's articles
published after the last delivery, and turns them into a digest message and a
delivery-history record (`task/rss.js`). The model covers:

- the cutoff filter (`UpdateAfterLastPush`, `isPubDateMatch`);
- the choice of the cutoff from the delivery history (`handlePushHistory`);
- the batch state and its controller: `handleSouceList`, `launch`,
  `parseCheck`, the round controller `fetchRSSUpdate` with its de-duplication
  by url, and the finish callback `fetchDataCb` with its sort by weight and
  its history record;
- the digest text (`makeUpMessage`).

The module-level variables of the source (`toFetchList`, `pushList`,
`count`, `done`, `fetchTimes`, …) are the fields of the class
`RssTask.BatchState`, and the functions that update them are its methods.
The pure parts are functions specified in their own modules:

- `Cutoff`: the new-item scan and the cutoff choice;
- `Aggregation`: `_.uniqBy`, `_.orderBy` and the article flattening;
- `Bookkeeping`: one settled fetch and one round, as functions on a
  ledger of slots, records and count;
- `Digest`: the message as a list of blocks.

The environment becomes parameters:

- Fetching and parsing a feed are an oracle `fetch(source, round)` that
  returns one of:
  - `Failed`: the fetch or the parse threw;
  - `NoFeed`: parsed, but no feed structure;
  - `Feed(entries)`.
- The weekday, the clock (`now`, the start time) and `Helpers.filterEmoji`
  are parameters.
- The history and source lists returned by the server are arguments of
  `ActivateFetchTask`.
- Times are integers in milliseconds. A publish date is `Option<int>`, with
  `None` for a missing or unparseable date.

Behaviours of the code that the model keeps as written:

- **Round limit.** The counter is incremented first and a round is
  dispatched only while it is below 4, so a batch runs at most three rounds
  and ends on the fourth call at the latest (`task/rss.js:153-158`). This
  agrees with the code's own comment, which speaks of fewer than three
  fetches (`task/rss.js:159`).
- **Feed without a feed structure.** When the parse yields no feed, the
  guard at `task/rss.js:190` is false. The source is then settled with zero
  articles and its slot is emptied (`task/rss.js:200-205`), so it is not
  fetched again. Only a thrown error leaves the slot pending
  (`task/rss.js:207-208`).
- **Count after de-duplication.** The article count is not reduced when
  de-duplication drops records (`task/rss.js:169`). The model proves that
  the count equals the articles listed only when the source urls are
  distinct (`RssTask.BatchState.RunBatch`).
- **Unknown url.** `parseCheck` writes its emptied slot at the index
  `_.findIndex` returns. When no pending slot holds the url, that index is
  -1, and the write is not an array element. The model leaves the slots
  unchanged in that case.

## Model

| member | source | states |
|---|---|---|
| Cutoff.TakeAfter | task/rss.js:212-225 | the result is a prefix of the entries; all of its items have a date after the cutoff; the first item left out (if any) does not |
| Cutoff.TakeAfterIsTheMaximalPrefix | task/rss.js:212-220 | those three properties determine the result: any prefix of new items that the next item cannot extend is the scan's result |
| Cutoff.StaleItemStopsTheScan | task/rss.js:215 | an item that is not new (no date, or not after the cutoff) at position k limits the result to at most k items, hiding any new items behind it |
| Cutoff.CutoffExample | task/rss.js:222-225 | the comparison is strict: dates 10, 8, 5 against cutoff 8 yield only the first item |
| Cutoff.UpdateAfterLastPush | task/rss.js:212-220 | the loop that shifts items off a copy returns exactly the maximal prefix of new items |
| Cutoff.FindWeekly | task/rss.js:134 | `find(type === 'weekly')`: the index of the first weekly record, or none when no record is weekly |
| Cutoff.ChooseCutoff | task/rss.js:130-139 | a daily run uses the newest record's time; a weekly run uses the first weekly record's time; with no such record the cutoff is one day before now |
| Aggregation.UrlsAppend | task/rss.js:169 | the url list of a concatenation is the concatenation of the url lists |
| Aggregation.DistinctIffSingleCopies | task/rss.js:169 | urls are pairwise distinct exactly when each url occurs once in their multiset |
| Aggregation.UniqByUrlKeeps | task/rss.js:169 | `_.uniqBy(pushList, 'url')` yields distinct urls, only records of the input, the same set of urls, and no more copies of any url |
| Aggregation.UniqByUrlKeepsFirstOccurrences | task/rss.js:169 | uniqBy equals the independent definition "each record whose url did not occur earlier", i.e. it keeps the first record per url in order |
| Aggregation.UniqByUrlOfDistinct | task/rss.js:169 | uniqBy leaves a list with distinct urls unchanged |
| Aggregation.UniqByUrlIdempotent | task/rss.js:169 | applying uniqBy twice is the same as once |
| Aggregation.UniqByUrlTotal | task/rss.js:169 | de-duplication never increases the number of listed articles |
| Aggregation.InsertByWeightPermutes | task/rss.js:274 | inserting a record into the sorted list adds exactly that record (records and urls as multisets) |
| Aggregation.InsertByWeightSorted | task/rss.js:274 | inserting into a list sorted by descending weight keeps it sorted |
| Aggregation.OrderByWeightSorted | task/rss.js:274 | `_.orderBy(pushList, 'weight', 'desc')` is sorted by non-increasing weight |
| Aggregation.OrderByWeightPermutes | task/rss.js:274 | the sort is a permutation of the records and of their urls |
| Aggregation.OrderByWeightStable | task/rss.js:274 | the sort is stable: the records of any one weight keep their relative order |
| Aggregation.TotalArticlesOrderByWeight | task/rss.js:274 | sorting keeps the number of listed articles |
| Aggregation.Articles | task/rss.js:283-288 | the flattened article list has one entry per listed article |
| Aggregation.ArticlesAt | task/rss.js:283-288 | article j of record i sits at position (articles of the records before i) + j of the flattened list, as its title and link |
| Aggregation.ArticlesFlatten | task/rss.js:283-288 | the flattened list holds every article of every record, in record order, as its title and link |
| Bookkeeping.FirstSlot | task/rss.js:204 | `_.findIndex` over the slots: the first non-empty slot holding the url, or -1 when none does |
| Bookkeeping.ClearedRemovesOneCopy | task/rss.js:204-205 | emptying the source's slot keeps the number of slots and removes exactly one pending copy of its url (none if it was not pending) |
| Bookkeeping.ClearedEmptiesFirstSlot | task/rss.js:204-205 | only the first slot holding the url changes, and it becomes empty |
| Bookkeeping.Compact | task/rss.js:156 | filtering out null slots leaves only pending slots that hold the same sources, in the same order (hence the same pending urls), all drawn from the input |
| Bookkeeping.PendingSourcesDetermine | task/rss.js:156 | two slot lists without emptied slots that hold the same sources in the same order are equal |
| Bookkeeping.CompactIsTheFilter | task/rss.js:156 | the filter's result is the only slot list without emptied slots holding the input's pending sources in order |
| Bookkeeping.Slots | task/rss.js:143 | the deep copy of the source list gives one pending slot per source, in order |
| Bookkeeping.PendingUrlsOfSlots | task/rss.js:143 | the pending urls of a fresh copy are the source urls |
| Bookkeeping.SettleOutcome | task/rss.js:186-210 | a failed fetch changes nothing; a success empties the source's slot; a record is appended exactly when the feed parsed and its first item is new; that record belongs to the source and holds the first min(5, n) of the n new items, all newer than the cutoff; the count grows by their number and otherwise stays |
| Bookkeeping.SettleAccounting | task/rss.js:195-199 | the count grows exactly as much as the listed articles; pending urls only shrink; an appended record carries the source's url |
| Bookkeeping.SettleKeepsInventory | task/rss.js:186-210 | settling a pending source keeps every recorded or pending url backed by its own copy in the launched source list |
| Bookkeeping.SettledSourceLeavesPending | task/rss.js:204-205 | with distinct source urls, a source that was fetched successfully is no longer pending |
| Bookkeeping.RoundAccounting | task/rss.js:162-164 | a whole round keeps the number of slots, only removes pending urls, only appends records, and moves the count exactly with the listed articles |
| Bookkeeping.RoundRecords | task/rss.js:162-164 | every record appended in a round holds one to five articles and belongs to a source that has a slot in the round's snapshot |
| Bookkeeping.RoundKeepsInventory | task/rss.js:162-164 | a round keeps every recorded or pending url backed by its own copy of the url in the launched source list |
| Digest.NatToStringRoundTrip | task/rss.js:232 | the decimal rendering of a count or index reads back as the same number |
| Digest.LinesShape | task/rss.js:227-243 | with no records, the message is the fixed "no new articles" text; otherwise it is the header with the count, an optional banner, one line per record plus one per article, then the footer |
| Digest.MessageFrame | task/rss.js:229-242 | a non-empty digest starts with the count header and ends with the fixed footer |
| Digest.MessageBanner | task/rss.js:233-235 | the weekly banner follows the header exactly on the weekly day when a weekly url is known |
| Digest.SourceBlock | task/rss.js:236-241 | record i's block (its index line, then its article lines) sits at position i + (articles of earlier records) of the listing |
| Digest.SourceLinesLength | task/rss.js:236-241 | the listing has one line per record and one per article |
| RssTask.PushRecord | task/rss.js:284-289 | the history record's kind follows the weekly flag; it carries the start time and the message, and one article reference per listed article |
| RssTask.PushRecordArticles | task/rss.js:283-288 | the history record's articles are every record's list flattened in record order and projected to title and link |
| RssTask.OrderByWeightKeepsDistinct | task/rss.js:274 | sorting de-duplicated records keeps the urls distinct |
| RssTask.OrderByWeightKeepsRecords | task/rss.js:274 | sorting keeps the records, the article total and the url multiset |
| RssTask.SettleKeepsBounded | task/rss.js:195-199 | settling one outcome keeps every record within one to five articles, the count at least the articles listed, and an exact count exact |
| RssTask.RoundKeepsBounded | task/rss.js:195-199 | after a round every record still holds one to five articles, and the count moves exactly with them |
| RssTask.UniqByUrlWithinBatch | task/rss.js:169 | when the records' urls come from a source list with distinct urls, de-duplication changes nothing |
| RssTask.AppendArticleLines | task/rss.js:238-240 | the inner `forEach` loop appends exactly the concatenated article lines |
| RssTask.AppendSourceLines | task/rss.js:236-241 | the outer `forEach` loop appends exactly the concatenated listing |
| RssTask.BatchState.constructor | task/rss.js:27-62 | the initial values of the module's variables; the invariants hold |
| RssTask.BatchState.HandlePushHistory | task/rss.js:130-139 | the cutoff becomes the one chosen from the history for the current kind of run |
| RssTask.BatchState.Launch | task/rss.js:296-302 | the records, count, finish flag and counter are reset, and every source gets a fresh pending slot |
| RssTask.BatchState.HandleSourceList | task/rss.js:141-150 | stores the list and fresh slots; launches only when the list is non-empty and the day is not silent, otherwise the batch state is unchanged |
| RssTask.BatchState.ActivateFetchTask | task/rss.js:114-127 | with history, the cutoff is chosen from it, else it is one day before now; an empty source list changes nothing else; a non-empty one is stored with fresh slots, and launches the batch unless the day is silent, in which case the batch fields stay as they were |
| RssTask.BatchState.ParseCheck | task/rss.js:186-210 | the new slots, records and count are the settled outcome (see SettleOutcome), and the batch invariant is kept |
| RssTask.BatchState.Round | task/rss.js:162-164 | a dispatched round settles every slot of the snapshot in order and keeps the batch invariant |
| RssTask.BatchState.Dispatch | task/rss.js:158-164 | a round keeps the invariants: bounded records, a count that matches the articles, and urls backed by the source list |
| RssTask.BatchState.CountCall | task/rss.js:153-157 | the counter grows by one; from the second call on, emptied slots are dropped; the pending urls are unchanged |
| RssTask.BatchState.Proceed | task/rss.js:158-170 | dispatches exactly when slots remain and fewer than four calls were made; otherwise de-duplicates and finishes |
| RssTask.BatchState.FetchRSSUpdate | task/rss.js:152-171 | one controller call: dispatches a round on the remaining slots exactly when some remain and the counter is below 4; otherwise the records are de-duplicated by url and the batch finishes, keeping every invariant |
| RssTask.BatchState.Dedup | task/rss.js:169 | de-duplication keeps the records bounded, the count an upper bound, and urls backed by the source list |
| RssTask.BatchState.SortRecords | task/rss.js:274 | the sort by weight keeps the invariants |
| RssTask.BatchState.MakeUpMessage | task/rss.js:227-245 | the text the loops build is the filtered digest message |
| RssTask.BatchState.Report | task/rss.js:275-289 | the history record holds the digest of the current records; a summary issue is produced exactly on the weekly day of a weekly run, with the same text |
| RssTask.BatchState.FetchDataCb | task/rss.js:263-294 | a second call does nothing; the first marks the batch finished and sorts by weight; a history record exists exactly when there are records |
| RssTask.BatchState.Finish | task/rss.js:166-170 | the records end de-duplicated and, on the first finish, sorted; the outputs are those of the finish callback |
| RssTask.BatchState.SetWeeklyUrl | task/rss.js:278-280 | the weekly url becomes the issue's url, or "" when none came back |
| RssTask.BatchState.RunBatch | task/rss.js:152-171 | a launched batch driven to its end finishes after at most four calls and three rounds, with one record per url sorted by weight, a history record exactly when there are records, and (for distinct source urls) a count equal to the articles listed |

## Left out

- Scheduling (`setPushSchedule`, `node-schedule`, the 10:00 delivery job) and the login in `bootstrap` are left out. They are timers and network calls; the model exposes the operations they trigger.
- The interval driver of `fetchRSSUpdate` is left out; its lines in `launch` are commented out in the source. `RunBatch` calls the controller repeatedly in its place.
- `mapLimit` concurrency, its limit of 15 and the 8-second `timeout` are not modelled. A round applies the outcomes of its snapshot's slots one after another, in slot order. The model therefore does not capture other completion orders, which would change the order of records.
- The Juejin crawler call in `launch` is left out; `task/juejinCrawler.js` is not part of this model. The model's batch holds records from the RSS sources only.
- `parseFunction` and `rss-parser` are left out, and so are `Date.parse` and `moment` arithmetic. Their results enter as `Outcome` values and integer milliseconds. A date that does not parse is a missing date.
- `Helpers.filterEmoji` is an arbitrary function parameter; its behaviour is not modelled.
- `sendToWeChat`, `Helpers.sendLogs`, `Base.insertPushHistory` and `issueOperate.createIssue` are not modelled as network calls. What they would send is returned as outputs: the history record, and the issue text. The issue title, built from formatted dates, is left out.
- Logging (`bunyan`) is left out.
- The `err` argument of `fetchDataCb` is left out; it is only logged.
- `fetchStartTime` is a formatted date string in the source and an integer in the model. The null initial times are 0. A null `lastFetchTime` makes every `isAfter` false in the source, whereas the cutoff 0 makes every positive date new in the model. The two differ only when a source list is handled before any cutoff is chosen, which `activateFetchTask` never does (`task/rss.js:119-126`).
- The outcome oracle is keyed by the source and the round. Two slots that hold the same source value therefore get the same outcome within one round, whereas the source fetches them separately.
- Deep copying (`_.cloneDeep`) is modelled as copying values; sources are immutable values in the model.
