# Linktheca in Dafny

A model of the parts of Linktheca where correctness depends on several functions at
once: the Radar pipeline as a protocol over a job queue, refresh-token rotation seen
from the server and from the browser together, the SQL patch and list builders, offset
paging, optimistic cache updates, and the file and content caches.

`dafny verify dfyconfig.toml` checks the whole project.

## How the model is laid out

**Radar.** `RadarTables` gives each SQL statement of the radar store as a function on the
tables; `RadarStore` has the same statements as methods that update the tables in place.
`RadarPipeline` cuts the workers into atomic steps: one store statement, one queue insert
or one fetch each. Jobs are delivered at least once, in any order, to any number of
attempts; attempts may die anywhere; users and administrators act in between. A step that is not
enabled changes nothing, so *every list of steps is a run* and results about
`Run(w, START, steps)` are about every reachable state. `RadarWorkers` has the worker
bodies as they are written, with other activity between any two calls, and proves each
body to be a run of that protocol. `EmbedJobs`, `NoLostWork` and `LostMatches` say what happens
to every finding's work, `Confluence` and `Renaming` compare two ways of draining the queue,
`SeenMatches` is about the user's own marks. Table uniqueness and cascades are those of
`migrations/006` to `migrations/014`.

**Sessions.** `AuthTables`, `RefreshTokens` and `AuthService` are the server: the service
methods are proved to be the atomic calls whose accounting is studied over runs.
`RefreshRaces` cuts a refresh into its round trips. `SessionClient` and `ApiClient` are
the browser: what runs between two awaits is one step. `ApiClient` is the client module with
its fields; a ghost trace ties them to a run, so what holds of runs holds of the object.
`SessionSafety`, `SessionLoss` and `SessionProgress` are about browser and server together.

**SQL builders.** `Sql` is a small semantics: numbered placeholders, three-valued
conditions, `UPDATE` over a table of rows. `SqlPatch` says what a builder keeps while it
appends clauses; `RadarPatches`, `LibraryItems`, `LibraryList` and `MatchList` are the builders,
`RadarUpdates` and `LibraryStore` execute what they emit.

**Optimistic updates.** `Mutations` and `SnapshotLogs` are about onMutate, onError and their
snapshots over any cache and any interleaving; `OptimisticCache` with `QueryCache` and
`RadarCache` with `RadarQueries` are the two sets of callbacks.

**The rest.** `Pagination`, `Ordering` and `Repaging` (offset paging, what `ORDER BY` one column
leaves open, and paging over a query executed anew for each page), `FaviconCache`, `FaviconGuarantees` and `MediaFetcher`,
`ContentMerge`, `CutoffRule`, `SearchFilters` with `SearchParams`, and `Quota`.

## Assumptions

- A single SQL statement is atomic. Postgres, River, the HTML tokenizer, the embedder,
  vector similarity and Argon2 are parameters or short contracts. Similarities are reals.
- `ConditionalFetch.Honest`: an origin asked without validators does not answer 304, and a 304
  means that the current version has the same entries as the version the validators came
  with (sections 13.1.2, 13.1.3 and 15.4.5 of RFC 9110).
- Where a result needs it, its precondition says so: no failure hits an attempt between a store
  write and the enqueue that follows (`EmbedJobs.NothingStranded`, `WorkerRuns.Harmless`), or no
  step breaks the browser's session (`SessionSafety.Breaks`). What happens otherwise is proved
  too: `NoLostWork.LostIsForever`, `LostMatches.MatchedIfAhead`, `SessionLoss.StepSafeIff`.
- The inserter is wired before workers run.

## What turned out false, and exactly when it holds

- *Work stranded between a write and its enqueue is not recovered* by retries. An unembedded
  finding has work left if and only if it was not lost that way (`NoLostWork.UnembeddedHasWork`,
  witness `NoLostWork.CrashLosesWork`). An embedded one can still be matched if and only if it was, or
  its match job is pending, or an attempt is on the way to one (`LostMatches.MatchedIfAhead`,
  witness `LostMatches.CrashLosesMatch`): the retry returns early because the embedding is there.
- *A refresh token is used once* for whole calls (`RefreshTokens.AcceptedAtMostOnce`). With
  overlapping calls, one can be accepted after the token is revoked if and only if its lookup was
  answered before (`RefreshRaces.SecondAcceptance`).
- *The stored refresh token is not always good*, although client.ts keeps it on every failure but a
  401. A step keeps it good if and only if it is not one of three (`SessionLoss.StepSafeIff`): the
  server revokes the stored token and then cannot issue its successor, the answer with the
  successor is lost, or somebody else spends a token of this browser. After either of the first two no
  refresh succeeds until the next sign-in (`SessionLoss.BrokenForGood`,
  `SessionLoss.BreakEndsSession`).
- *Page lists are not determined* by `ORDER BY` one timestamp: they are if and only if no two rows
  tie (`Ordering.DeterminedIffNoTies`). Pages fetched one by one show every row exactly once,
  whatever order each fetch finds, if and only if no two tied rows meet at a page boundary
  (`Repaging.ExactIffNoBoundaryTie`).
- *Overlapping optimistic updates* show at all times what has started and not failed if and only if
  each failure is of the latest survivor (`SnapshotLogs.ShowsSurvivorsIff`). Otherwise a failed
  update's patch is left behind, or a successful one's disappears until the next fetch, unless it
  changed nothing (`OptimisticCache.CrossedRestoresIff`, `OptimisticCache.SuccessIsLostIff`,
  `RadarCache.CrossedRestoresIff`, `RadarCache.SuccessIsLostIff`).
- *A favicon lookup can meet another download's temporary file* if and only if the host is shaped
  like one (`FaviconGuarantees.OnlyTempShapedHostsMeetTemps`). A temporary file is left behind
  exactly by a process that dies while it writes one (`FaviconGuarantees.SavesCleanUp`,
  `FaviconGuarantees.DeathLeavesTemp`).

## Model

| member | source | states |
|---|---|---|
| Crawler.BuildUpserts | internal/radar/crawler/crawler.go:104-137 | the loop over entries yields exactly the proposals of the specification, in order |
| Crawler.ProposalsAreUsableItems | internal/radar/crawler/crawler.go:104-137 | a proposal is made for each entry with a link and for nothing else, keyed by guid or else by link |
| Crawler.NothingToEmbed | internal/radar/jobs/embed_finding.go:61-73 | the embed text is empty exactly when neither title nor summary holds a visible character |
| Text.TrimBlank | internal/radar/jobs/embed_finding.go:61-73 | trimming leaves nothing exactly of strings made of white space alone |
| RadarStore.RadarStore.AddFeed | internal/radar/store.go:75-91 | inserts a feed with no validators unless the url is taken in the same scope, which is reported as a duplicate |
| RadarStore.RadarStore.GetGlobalFeedByURL | internal/radar/store.go:96-112 | finds a catalog feed of that url whenever there is one, never a personal one |
| RadarStore.RadarStore.CountUserFeeds | internal/radar/store.go:115-123 | the number of feeds the user owns |
| RadarStore.RadarStore.Subscribe | internal/radar/store.go:125-144 | subscribes to visible feeds only; a repeated call keeps the first created_at |
| RadarStore.RadarStore.Unsubscribe | internal/radar/store.go:736-744 | removes that one subscription and nothing else |
| RadarStore.RadarStore.SeedSubscriptions | internal/radar/store.go:711-721 | adds the missing subscriptions to active catalog feeds and returns how many were missing |
| RadarStore.RadarStore.ListDueFeeds | internal/radar/store.go:147-170 | due feeds only, none twice, at most the limit, and all of them when the limit is not reached |
| RadarStore.RadarStore.GetFeedForFetch | internal/radar/store.go:178-187 | url and validators of the feed, or not found |
| RadarStore.RadarStore.MarkFeedFetched | internal/radar/store.go:191-200 | replaces both validators, clears the error, and never overwrites a title that is set |
| RadarStore.RadarStore.MarkFeedError | internal/radar/store.go:202-208 | records error and time and leaves the validators alone |
| RadarStore.RadarStore.UpsertFinding | internal/radar/store.go:211-237 | created holds exactly when the key was free; otherwise nothing changes and the row holding the key is returned |
| RadarStore.RadarStore.GetFindingForEmbed | internal/radar/store.go:342-354 | the finding, or not found |
| RadarStore.RadarStore.UpdateFindingEmbedding | internal/radar/store.go:256-269 | writes the vector of that finding only, or reports it missing |
| RadarStore.RadarStore.MatchFindingToTopics | internal/radar/store.go:274-297 | inserts the joined rows not there yet; the count returned is the growth of the table |
| RadarStore.RadarStore.DeleteFeed | internal/radar/store.go:723-734 | deletes in the given owner scope only, with its subscriptions, findings and their matches |
| RadarStore.JobQueue.Insert | internal/radar/jobs/jobs.go:43-47 | one more job under a new id, all others unchanged |
| RadarStore.Origins.Fetch | internal/radar/crawler/crawler.go:40-86 | a 304 carries only the headers the origin repeats; otherwise the whole document |
| Matcher.MatcherRows | internal/radar/store.go:274-297 | exactly the active, embedded, subscribed topics at or above threshold without a row get one, in state new; existing rows are untouched |
| Matcher.MatcherCount | internal/radar/store.go:274-297 | the table grows by the number of those topics |
| Matcher.RowsAffected | internal/radar/store.go:292-296 | the row count returned is that number |
| Matcher.MatcherIdempotent | internal/radar/store.go:271-297 | an immediate rerun changes nothing and reports zero |
| SeenMatches.SeenStaysSeen | internal/radar/store.go:580-594 | from any reachable state a seen match keeps its row through every run in which nobody sets it back to new, or goes with its topic or finding and never comes back |
| RadarReach.UserOpKeeps | internal/radar/store.go:75-144 | every user or administrator statement keeps keys unique, references whole and connections visible, and creates no finding |
| RadarReach.DeleteUserKeeps | migrations/014_radar_feeds_owner.sql:2-3 | deleting an account with all cascades keeps them too |
| RadarReach.MatchFindingKeeps | internal/radar/store.go:274-297 | so does the matcher |
| PipelineBase.StepBase | internal/radar/jobs/crawl_feed.go:25-76 | so does every step of every worker, failures included |
| PipelineBase.EveryConnectionIsVisible | internal/radar/store.go:125-144 | over every run, each subscription and each match, even one that outlived its subscription, stays within what its user may see |
| PipelineBase.KeysStayUnique | migrations/009_radar_findings.sql:2-13 | over every run, no two findings of a feed share a key and no two feeds an owner and url |
| ConditionalFetch.NotModifiedHidesNothing | internal/radar/jobs/crawl_feed.go:41-75 | in every reachable state, if the stored validators would earn a 304, every entry of the current document is already a finding |
| ConditionalFetch.RunSafe | internal/radar/store.go:189-200 | validators are only ever stored for a version whose entries are all findings, under overlapping crawls and changing documents |
| EmbedJobs.ExactlyOneEmbedJob | internal/radar/jobs/crawl_feed.go:56-72 | every finding ever created has exactly one embed job, unless its crawl is just before the enqueue or died there |
| EmbedJobs.NothingStrandedNothingLost | internal/radar/jobs/crawl_feed.go:63-71 | however attempts fail and are retried, nothing is lost unless one fails between its write and its enqueue |
| NoLostWork.UnembeddedHasWork | internal/radar/jobs/crawl_feed.go:56-72 | in every reachable state an unembedded finding with text has an embed job pending or being enqueued, if and only if it was not lost |
| LostMatches.MatchedIfAhead | internal/radar/jobs/embed_finding.go:34-58 | in every reachable state an embedded finding can still go through a match step if and only if it did, its match job is pending, or an attempt is on the way to one |
| LostMatches.RunStranded | internal/radar/jobs/embed_finding.go:34-36 | an embedded finding with none of these ahead stays so through every continuation, and is never matched |
| LostMatches.CrashLosesMatch | internal/radar/jobs/embed_finding.go:47-55 | one failed enqueue after the embedding is written does this to the first entry of any document with text, its embed job still pending |
| NoLostWork.DrainedMeansDone | internal/radar/jobs/embed_finding.go:27-59 | whatever fails and is retried, as long as no failure falls between a write and its enqueue, an empty queue means everything is embedded and matched |
| NoLostWork.LostIsForever | internal/radar/jobs/crawl_feed.go:63-71 | a finding lost before its enqueue is never embedded, whatever is retried later |
| NoLostWork.CrashLosesWork | internal/radar/jobs/crawl_feed.go:63-71 | one crash at that point does lose an entry, from any first document with a usable entry, whatever else it holds |
| Draining.OrderlyStepsLighten | internal/radar/jobs/scheduler.go:25-42 | with one attempt per job, every step that does anything, at any time and with any headers, lowers a weight over pending jobs |
| Draining.DrainExists | internal/radar/jobs/crawl_feed.go:25-76 | the workers alone can empty the queue in at most as many steps as that weight |
| Confluence.Confluent | internal/radar/jobs/crawl_feed.go:25-76 | any two draining runs of the workers, in any order, interleaving and redelivery, end with the same finding rows and the same matches as users see them |
| Renaming.ConfluentUpToIds | internal/radar/jobs/crawl_feed.go:25-76 | a bijection of finding ids, fixed on the findings there before, carries the rows and the matches of one outcome exactly to those of the other |
| Confluence.DrainingRunExists | internal/radar/jobs/embed_finding.go:27-59 | such runs exist, so the outcome is defined |
| Confluence.CrawledDocumentsAreComplete | internal/radar/crawler/crawler.go:104-137 | afterwards every crawled document has all its keys, each new row from an entry of the document as it first occurs |
| RadarWorkers.CrawlFeedWorker.Work | internal/radar/jobs/crawl_feed.go:25-76 | the body, with anything happening between its calls, is a run of the protocol; success means it finished, each error says why, and a fetch error is on record |
| RadarWorkers.CrawlFeedWorker.StoreDoc | internal/radar/jobs/crawl_feed.go:56-75 | the upsert loop with its enqueues, the validators written last |
| RadarWorkers.EmbedFindingWorker.Work | internal/radar/jobs/embed_finding.go:27-59 | likewise: guards, write, then enqueue |
| RadarWorkers.MatchFindingWorker.Work | internal/radar/jobs/match_finding.go:20-26 | likewise: one store call |
| RadarWorkers.ScheduleCrawlsWorker.Work | internal/radar/jobs/scheduler.go:25-42 | one crawl job per listed due feed, at most 100, in the order listed; on failure a prefix |
| Quota.QuotaBound | internal/radar/service.go:195-235 | with at most k overlapping calls the user owns at most max + k - 1 feeds in every interleaving, whatever else happens |
| Quota.BoundIsReached | internal/radar/service.go:211-213 | the bound is exact for every number of overlapping calls |
| Quota.RadarService.AddUserFeed | internal/radar/service.go:195-235 | one call: a catalog address is only subscribed to, the quota holds, and each refusal has its exact cause |
| RadarPatches.BuildUpdateFeed | internal/radar/store.go:664-688 | argIdx stays one past the arguments, every argument has its clause, and the clauses mean the patch |
| RadarPatches.UpdateFeedMeansPatch | internal/radar/store.go:664-707 | the executed statement patches the one feed of that owner, null meaning the catalog, and nothing else |
| RadarPatches.BuildUpdateTopic | internal/radar/store.go:426-458 | the same for topics, with updated_at stamped whenever anything changes |
| RadarPatches.UpdateTopicMeansPatch | internal/radar/store.go:426-479 | the executed statement patches the user's one topic and stamps it |
| RadarUpdates.UpdateFeed | internal/radar/store.go:664-707 | sends the built statement and scans the table back: the patch in the given scope, not found elsewhere, an empty patch refused |
| RadarUpdates.UpdateTopic | internal/radar/store.go:426-479 | likewise for the user's topic, whose updated_at alone becomes the time of the call |
| SqlPatch.Append | internal/radar/store.go:669-683 | appending a clause with its argument extends the meaning by that clause and changes none before |
| SqlPatch.Put | internal/radar/store.go:431-450 | one optional field |
| SqlPatch.UpdateMeansPatch | internal/radar/store.go:690-696 | for any builder state the statement is accepted and changes exactly the addressed row in scope, as the direct patch would |
| Sql.AssignedMeaning | internal/library/store.go:240-245 | numbered placeholders with their arguments execute as the values themselves, whatever arguments follow |
| LibraryItems.BuildUpdateItem | internal/library/store.go:214-237 | argIdx and arguments in step; read_at is set with state read and cleared with any other |
| LibraryItems.UpdateItemMeansPatch | internal/library/store.go:214-258 | the executed statement patches exactly the user's item of that id |
| LibraryItems.ReadAtFollowsState | internal/library/store.go:212-229 | after every run of saves, updates and deletes read_at is set exactly on the items whose state is read |
| LibraryStore.LibraryStore.CreateItem | internal/library/store.go:88-107 | an unread item per user and content, or already saved |
| LibraryStore.LibraryStore.GetItemByID | internal/library/store.go:125-135 | the user's item or not found |
| LibraryStore.LibraryStore.UpdateItem | internal/library/store.go:214-258 | only the given fields change; wrong owner and invalid state are told apart and change nothing |
| LibraryStore.LibraryStore.DeleteItem | internal/library/store.go:261-273 | removes the user's item only |
| LibraryList.BuildList | internal/library/store.go:138-188 | both builders end with the same condition and arguments, LIMIT and OFFSET bound to the last two |
| LibraryList.ListSelects | internal/library/store.go:145-184 | that condition holds of exactly the items of the user, state and star asked for; no state means not archived |
| LibraryList.CountMatchesPage | internal/library/store.go:138-210 | in every reachable state count and page query select the same rows, the join losing none |
| LibraryList.FilterShows | web/src/features/library/use-library.tsx:72-74 | what each choice of the filter bar lists |
| LibraryList.LoadLibrary | web/src/features/library/use-library.tsx:19-41 | whatever limit is asked and whatever order each fetch finds, paging ends with exactly the wanted items, each once and latest first, unless items saved at one instant meet at a page boundary; without ties the list is unique |
| MatchList.FilterSelects | internal/radar/store.go:495-523 | null parameters filter nothing, others exactly |
| MatchList.CountMatchesPage | internal/radar/store.go:493-547 | in every state the pipeline reaches, the page's extra joins lose no counted match |
| MatchList.LoadMatches | web/src/features/radar/use-radar.tsx:55-78 | the same for the wanted matches |
| Pagination.LibraryLimit | internal/library/http.go:63-66 | between 1 and 100, and as asked inside that range |
| Pagination.RadarLimit | internal/radar/service.go:339-346 | between 1 and 100, and as asked inside that range |
| Pagination.FetchEach | web/src/features/library/use-library.tsx:29-33 | the loop stops after just enough fetches, each page a slice of the list found that time |
| Pagination.OneListShown | web/src/features/library/use-library.tsx:29-33 | if every fetch finds one list the flattened pages are the whole of it, no gap, no repeat |
| Pagination.ShownIsPrefix | web/src/features/radar/use-radar.tsx:65-69 | at any moment a prefix is shown, and a next page is offered exactly while items remain |
| Ordering.DeterminedIffNoTies | internal/library/store.go:184-184 | the page order is determined if and only if no two wanted rows share saved_at |
| Ordering.NoTiesOneListing | internal/library/store.go:184-184 | without ties every execution returns the same list |
| Ordering.TieAcrossPages | internal/radar/store.go:521-522 | a tie at a page boundary can repeat one row and hide another |
| Ordering.NextPageAfter | web/src/features/library/use-library.tsx:30-33 | and the client does ask for that page |
| Repaging.SameTimes | internal/library/store.go:184-184 | all orders the query may give have the same times at the same positions |
| Repaging.ExactIffNoBoundaryTie | internal/radar/store.go:521-522 | for every choice of an order at each fetch the pages enumerate the rows exactly, if and only if no tied rows straddle a page boundary |
| Repaging.FetchOrdered | web/src/features/radar/use-radar.tsx:65-69 | the client's loop over such fetches |
| Mutations.SurvivorsShow | web/src/features/library/use-mutations.tsx:28-74 | over every interleaving in which each failure is of the latest survivor, the cache shows exactly the updates that have not failed, in order |
| SnapshotLogs.PartShowsLog | web/src/features/library/use-mutations.tsx:61-68 | over every interleaving, with no condition, a list put back as a whole shows the changes a failure goes back to |
| SnapshotLogs.ShowsSurvivorsIff | web/src/features/library/use-mutations.tsx:61-68 | these are at all times the changes started and not failed, if and only if each failure is of the latest of them |
| OptimisticCache.NestedFailuresRestore | web/src/features/library/use-mutations.tsx:28-68 | properly nested failing updates restore the cache exactly |
| OptimisticCache.SurvivingUpdatesShow | web/src/features/library/use-mutations.tsx:28-74 | the first of these for the library cache, lists and single items |
| OptimisticCache.ListsShowLog | web/src/features/library/use-mutations.tsx:61-68 | the second for its cached lists |
| OptimisticCache.EveryInterleavingKeepsShape | web/src/features/library/use-mutations.tsx:28-74 | every interleaving keeps page count, item ids, order and totals |
| OptimisticCache.CrossedFailures | web/src/features/library/use-mutations.tsx:61-68 | two overlapping failures leave the first one's patch behind |
| OptimisticCache.CrossedRestoresIff | web/src/features/library/use-mutations.tsx:61-68 | they restore the cache if and only if that patch changed nothing it leaves behind |
| OptimisticCache.SuccessIsLostIff | web/src/features/library/use-mutations.tsx:61-68 | a success beside an earlier update that fails, in either order, stays visible if and only if its patch changes nothing in the lists, nor in the item both are about |
| OptimisticCache.SecondFailureIsExact | web/src/features/library/use-mutations.tsx:61-68 | when the later one fails the cache keeps exactly the earlier patch |
| OptimisticCache.PredictionIsStored | web/src/features/library/use-mutations.tsx:76-83 | on success the predicted state and star are what UpdateItem stored |
| QueryCache.QueryClient.OnMutate | web/src/features/library/use-mutations.tsx:32-60 | the callback's loop patches every loaded list and the single item and returns the snapshot |
| QueryCache.QueryClient.OnError | web/src/features/library/use-mutations.tsx:61-68 | the callback puts back what the snapshot holds |
| RadarCache.NestedFailuresRestore | web/src/features/radar/use-mutations.tsx:37-73 | nested failing topic edits and subscription toggles restore the cache exactly |
| RadarCache.ListsShowLogs | web/src/features/radar/use-mutations.tsx:60-67 | over every interleaving of edits and toggles, topic list and feed list each show their own log of changes |
| RadarCache.EditAndToggleCross | web/src/features/radar/use-mutations.tsx:111-136 | an edit and a toggle never disturb each other, crossed in either order, failing or not |
| RadarCache.CrossedRestoresIff | web/src/features/radar/use-mutations.tsx:60-67 | two crossed failing edits, or toggles, restore the cache if and only if the first showed nothing that is left behind |
| RadarCache.SuccessIsLostIff | web/src/features/radar/use-mutations.tsx:127-131 | a success beside an earlier one of its kind that fails stays visible if and only if it showed nothing new |
| RadarCache.PredictionAgrees | web/src/features/radar/use-mutations.tsx:75-83 | a cache that agreed with the server agrees after an accepted change |
| RadarQueries.QueryClient.MutateTopic | web/src/features/radar/use-mutations.tsx:41-59 | at once the edited topic shows the fields given and no other topic, nor any feed, changes; the object stays on a run of the mutation machine |
| RadarQueries.QueryClient.Fail | web/src/features/radar/use-mutations.tsx:60-67 | afterwards, as long as failures came latest first, the fields show exactly the surviving changes |
| RadarQueries.QueryClient.MutateSubscription | web/src/features/radar/use-mutations.tsx:116-126 | at once that feed shows the new flag and nothing else changes |
| RadarQueries.QueryClient.ShowsSurvivors | web/src/features/radar/use-mutations.tsx:127-131 | what a caller may rely on at any time of an object driven through these callbacks |
| AuthTables.AuthStore.AddUser | internal/auth/store.go:29-46 | a new user unless the email is taken |
| AuthTables.AuthStore.GetUserByEmail | internal/auth/store.go:48-64 | the user of that email, if any |
| AuthTables.AuthStore.CreateRefreshToken | internal/auth/store.go:105-121 | a row unless the hash is on file |
| AuthTables.AuthStore.FindActiveRefreshToken | internal/auth/store.go:123-145 | the one unrevoked, unexpired row of that hash |
| AuthTables.AuthStore.RevokeRefreshToken | internal/auth/store.go:147-157 | sets revoked_at once |
| AuthService.AuthService.IssueTokens | internal/auth/service.go:134-155 | a new row and its token, or no row at all |
| AuthService.AuthService.Register | internal/auth/service.go:53-87 | is the atomic call: checks in order, then user, then tokens |
| AuthService.AuthService.Login | internal/auth/service.go:159-179 | is the atomic call; unknown email and wrong password look the same |
| AuthService.AuthService.Refresh | internal/auth/service.go:91-117 | is the atomic call: lookup, revoke, then issue |
| AuthService.AuthService.Logout | internal/auth/service.go:120-131 | is the atomic call; succeeds for unknown tokens |
| RefreshTokens.CallKeeps | internal/auth/service.go:53-179 | each call keeps the table sound and moves the number of unrevoked rows by what it issued less what it spent |
| RefreshTokens.Conservation | internal/auth/service.go:91-155 | unrevoked tokens are registrations plus logins less effective logouts less refreshes that failed after revoking |
| RefreshTokens.AcceptedAtMostOnce | internal/auth/service.go:91-131 | over any run of whole calls a token is accepted at most once, by refresh or logout |
| RefreshTokens.DeadStaysDead | internal/auth/store.go:123-157 | a revoked or expired token never becomes live again as time advances |
| RefreshTokens.RefreshSucceeds | internal/auth/service.go:91-117 | a refresh succeeds exactly when its token is live, the successor unused and nothing fails |
| RefreshTokens.RotationHandsOver | internal/auth/service.go:89-109 | after it the old token is dead and the new one live |
| RefreshRaces.LookupAfterRevokeFails | internal/auth/service.go:93-109 | with steps interleaved in any way, no refresh whose lookup follows the revoke succeeds |
| RefreshRaces.SecondAcceptance | internal/auth/service.go:93-109 | after a revoke a call at any point of its course can be accepted, or was, if and only if it was already, or its lookup was answered and its successor is unused |
| RefreshRaces.OverlappingRefreshesBothAccepted | internal/auth/service.go:93-114 | two overlapping refreshes of one token can both be accepted |
| RefreshRaces.AloneIsAtomic | internal/auth/service.go:91-117 | uninterrupted round trips are the atomic call |
| ApiClient.ApiClient.OneRefreshAtATime | web/src/shared/api/client.ts:13-42 | of the object at any time: the promise names the only refresh not finished |
| ApiClient.ApiClient.NeverThreeRequests | web/src/shared/api/client.ts:56-85 | of the object at any time: no call has sent more than two requests |
| ApiClient.ApiClient.TokensAreGood | web/src/shared/api/client.ts:13-52 | of the object in an unbroken session: no refresh posts a rotated token, and the stored one is unrevoked whenever none is under way |
| ApiClient.ApiClient.RefreshOnce | web/src/shared/api/client.ts:35-42 | joins the refresh under way or starts one |
| ApiClient.ApiClient.RefreshSession | web/src/shared/api/client.ts:44-52 | waits on the one refresh there is; joining sends nothing, and a new one in an unbroken session posts an unrevoked token |
| ApiClient.ApiClient.ApiFetch | web/src/shared/api/client.ts:56-69 | one request, with the current access token, and a step of the run |
| ApiClient.ApiClient.OnResponse | web/src/shared/api/client.ts:71-85 | a call waits for a refresh exactly after a first 401 with a stored token, and has then sent one request; any other response ends it |
| ApiClient.ApiClient.OnReply | web/src/shared/api/client.ts:27-32 | tokens in the reply are stored before anybody resumes, a refusal leaves storage alone, and either way the stored token of an unbroken session is unrevoked |
| ApiClient.ApiClient.OnFinally | web/src/shared/api/client.ts:37-39 | it was the promise's own refresh, and now none is under way |
| ApiClient.ApiClient.OnResume | web/src/shared/api/client.ts:44-52 | exactly after a renewal the call goes on, at most to its second request; only a denial clears storage |
| SessionClient.RunSingleFlight | web/src/shared/api/client.ts:13-42 | in every run, failures included, the promise names the only refresh not finished |
| SessionClient.AtMostTwoRequests | web/src/shared/api/client.ts:56-85 | no apiFetch ever sends a third request |
| SessionSafety.NeverPresentsRotatedToken | web/src/shared/api/client.ts:13-85 | in every interleaving of calls, failures, sign-ins and other sessions in which no step breaks the session, a refresh never carries a rotated token, and the stored one is unrevoked whenever no refresh is under way |
| SessionSafety.EveryRefreshIsGranted | internal/auth/service.go:91-117 | so before expiry the server grants every refresh the browser sends |
| SessionLoss.StepSafeIff | internal/auth/service.go:103-112 | a step keeps the session safe if and only if it does not cut the stored token's rotation short, lose its answer, or spend this browser's token elsewhere |
| SessionLoss.SettledTokenIsGoodIff | web/src/shared/api/client.ts:44-52 | once an answered or lost refresh has settled, the stored token is unrevoked if and only if that step broke nothing |
| SessionLoss.BrokenForGood | web/src/shared/api/client.ts:15-33 | after a rotation cut short or a lost answer, in every run without a sign-in, the stored token is revoked and no refresh is ever granted |
| SessionLoss.BreakEndsSession | web/src/shared/api/client.ts:44-52 | the next refresh that reaches the server posts that token, is denied, and signs the browser out |
| SessionProgress.ContinuationsLowerRank | web/src/shared/api/client.ts:56-85 | every answer, resumption or failure lowers a rank |
| SessionProgress.EffectiveRunsAreShort | web/src/shared/api/client.ts:56-85 | so what is under way ends within that many steps |
| SessionProgress.StuckMeansDone | web/src/shared/api/client.ts:56-85 | and when nothing more can happen every call is answered |
| FaviconCache.StemInvertsNaming | internal/core/media/fetcher.go:98-112 | the stem of a saved favicon is its host, dots and all |
| FaviconCache.RunSound | internal/core/media/fetcher.go:169-219 | what every interleaving of downloads, failures and crashes keeps |
| FaviconGuarantees.PublishedFilesAreComplete | internal/core/media/fetcher.go:169-219 | a file under a final name is one whole response of at most 10 MiB |
| FaviconGuarantees.OnlySuccessPublishes | internal/core/media/fetcher.go:169-219 | any step but a completed copy within the limit leaves the final files as they were |
| FaviconGuarantees.SavesCleanUp | internal/core/media/fetcher.go:175-182 | over every run in which no process dies while writing, failures and oversized bodies included, each temporary file has its save under way, so none is left when all calls have returned |
| FaviconGuarantees.DeathLeavesTemp | internal/core/media/fetcher.go:175-182 | a process that dies there leaves its temporary file for good |
| FaviconGuarantees.LookupReturnsOwnFile | internal/core/media/fetcher.go:98-112 | a lookup returns a complete file of that very host, if the host is not shaped like a temporary name |
| FaviconGuarantees.OnlyTempShapedHostsMeetTemps | internal/core/media/fetcher.go:98-112 | a lookup can meet a temporary file if and only if the host is so shaped |
| FaviconGuarantees.SuccessSettles | internal/core/media/fetcher.go:74-85 | a success that overlapped no other download of its host settles that host |
| FaviconGuarantees.LaterCallsReuse | internal/core/media/fetcher.go:79-81 | from then on every lookup returns the same name and content, and nothing is downloaded for that host |
| MediaFetcher.MediaFetcher.SaveFile | internal/core/media/fetcher.go:169-219 | either the whole body is published or the directory is as it was |
| MediaFetcher.MediaFetcher.FetchFavicon | internal/core/media/fetcher.go:74-85 | a stored favicon is reused without the network; unusable hosts change nothing |
| MediaFetcher.MediaFetcher.Fetch | internal/core/media/fetcher.go:66-68 | an image is saved under a random name |
| ContentMerge.RowAfterUpserts | internal/library/store.go:50-66 | after any sequence of upserts the text columns are the first save's and each of the seven media columns holds the last non-null value given |
| ContentMerge.IdsNeverChange | internal/library/store.go:50-66 | a URL's row keeps its id, shared with no other |
| ContentMerge.FailedExtractionErasesNothing | internal/library/service.go:41-49 | a URL-only failed extraction changes nothing |
| ContentMerge.ContentStore.UpsertContent | internal/library/store.go:50-66 | the statement on the table |
| CutoffRule.RenderScores | cmd/radar-sim/main.go:153-170 | the scan with its flag draws the line before the first row below |
| CutoffRule.BothCutAtAboveCount | web/src/features/radar/components/TopicPreviewPanel.tsx:145-163 | on every descending list both renderings draw at most one line, at index aboveCount |
| CutoffRule.AgreeIffOneDip | web/src/features/radar/components/TopicPreviewPanel.tsx:145-163 | on any list they agree if and only if no score returns above and falls below again |
| SearchFilters.InboxRoundTrip | web/src/routes/radar._index.tsx:24-42 | parsing the printed query gives the filter back, whatever the query held |
| SearchFilters.InboxPrintsOnce | web/src/routes/radar._index.tsx:32-42 | printing is idempotent and keeps all other parameters in order |
| SearchFilters.LibraryRoundTrip | web/src/routes/library._index.tsx:12-31 | the same for the library; an explicit false star reads as unset |
| SearchFilters.LibraryPrintsOnce | web/src/routes/library._index.tsx:24-31 | the same for the library |
| SearchParams.NextInboxSearch | web/src/routes/radar._index.tsx:32-42 | set and delete on a copy give that query, the original untouched |
| SearchParams.NextLibrarySearch | web/src/routes/library._index.tsx:24-31 | the same for the library |

## Left out

- HTTP handlers, JSON, routing, configuration, logging, migrations tooling: plumbing with no cross-function property.
- Simple validators, topic embed text, gradient buckets, reading-time labels, displayTitle: easy members.
- The users table of Radar and River's retry and discard policy: a discarded job counts as unfinished, and a failed attempt leaves its job pending.
- Match row ids: a match is identified by topic and finding, which the table keeps unique.
- RadarStore.RadarStore.UpsertFinding: the re-read after a conflict is folded into the insert, so a row deleted between the two statements is not modelled as an error.
- Radar and library SELECT lists beyond count and page: joined columns, LastSweepAt, ListFeeds and its two scopes.
- SqlPatch.Put: SQL text is modelled as a syntax tree; how the fragments are spelled and parsed is not.
- Sql.AssignedMeaning: only the expressions the builders emit exist, and types are not checked.
- Cosine arithmetic, floats and NaN: similarities are reals with their order.
- RefreshTokens.CallKeeps: read failures and writes that fail count as one early fault; access tokens are not modelled.
- RadarUpdates.UpdateTopic: updated_at is a map beside the topics, which the matcher and the workers never read.
- Service methods around the embedder (CreateTopic, UpdateTopic, PreviewTopic): store statements with an embedding in between, covered as separate steps.
- SessionClient.RunSingleFlight: apiFetch of the refresh path itself, which never retries, has no caller and is not modelled.
- A single administrator under concurrent first registrations is not claimed by the code, and not here.
- SessionSafety.NeverPresentsRotatedToken: logout is excluded, because it revokes the stored token while calls are open; several tabs sharing one local storage are several clients.
- ConditionalFetch.NotModifiedHidesNothing: a document cut at the body limit of the fetcher counts as a document of its own.
- LibraryList.LoadLibrary: the rows do not change between fetches; only their order may.
- OptimisticCache.NestedFailuresRestore: cancelled and refetched queries are not part of it; success only invalidates.
- Number() on other spellings than decimal digits is left to the engine.
- MediaFetcher.MediaFetcher.SaveFile: the random name is a parameter that is not in use, as CreateTemp guarantees by retrying; content sniffing is a parameter.
- Saving a URL as a whole (extraction, image, favicon, upsert, item): its parts are modelled, their composition is straight-line code.
