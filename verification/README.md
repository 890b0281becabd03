# Verified model of the dashboard's stateful cores

A Dafny model of six parts of the dashboard that keep state over time, with proofs of what they keep over
every run. Verify everything with `dafny verify dfyconfig.toml`.

Each part is written twice. Functions on values say what a call or a callback does to the state. Classes
and methods in the source's own form (fields, arrays, loops, timers) are proved to do exactly that. What is
proved of every run of the functions is the `Valid()` of the stateful classes, required and ensured by every
public handler: one request in flight for the trace store, every request accounted for and a client on its
way, a supervised page that is never silent, a scheduler that loses no text and no wakeup.

- **The trace window** shows a growing transcript as turns. `TraceRecords`, `TraceStoreCore` and
  `TraceStoreProtocol` define pages, groupings and the request protocol; `TraceGroupings` and `TraceStores`
  are the in-place forms. `TraceConfluence`, `TraceStarts` and `TracePaging` say exactly which logs are
  grouped alike in whatever pages they arrive; `TraceAgreement`, `TraceDropped` and `TraceTrim` say what
  stays right, and exactly when, as pages come and rows go; `TraceStoreRuns`, `TraceWindows` and
  `TraceWindowRuns` prove it of the window over every run of the store. `TracePanel` and `TracePanelRuns`
  replay the reported changes on the rendered lists, and `TraceLimits` shows what breaks.
  `TraceReading` says what grouping at once means, and `TraceExchange` what is asked for and that every page
  that fits is taken in.
- **Row reordering** (`StatusPaint`, `RowPlacement`): a longest increasing run, and a placement with the
  fewest insertions.
- **The digest** (`TelegramDigest`): greedy packing, lossless and optimal, and no text that waits longer than one
  window.
- **Titles and statuses** (`OscScanner`, `OscReading`, `OscChunking`, `OscTitleSource`, `TitleRuns`,
  `StatusSource`, `QuietReady`, `StatusRuns`): a scanner for titles that does not depend on how the stream is
  cut, and two timed machines that decide when "ready" is real and give out every other signal that is new.
  The introducer and the string terminator are those of ECMA-48 (sections 8.3.89 and 8.3.143).
- **The render scheduler** (`RenderScheduler`, `RenderConservation`, `RenderRuns`, `RenderFairness`,
  `RenderGiven`; in place `RenderSinks`, `RenderSchedulers`): conservation of what callers gave, barriers,
  no lost wakeup, bounded wait, and everything comes out.
- **Connection supervision** (`ControlWs`, `ControlWsRuns`, `ControlAnswers`, `ConnectionSupervisorCore`,
  `ConnectionSupervisor`, `ConnectionRuns`, `ConnectionDecisions`; in place `ControlClients`,
  `ConnectionSupervisors`): the supervisor drives the modelled client itself, so its guarantees are about
  probes, timers and sockets of one system.

Words of the trace model. A log is *pageable* when no record refers to a call that is still to come, no
result without an id stands beside a call without one, and no record of a turn is older than the turn's
first: exactly the logs that are grouped the same in whatever pages they arrive
(`TracePaging.Confluence`). A log is *disciplined* when it meets the first two of these and no two calls
share an id; nothing is asked of the clock, and the window is proved for disciplined logs. A reply is
*honest* when it asks to start over or its records are the log between its two offsets. A trim *parts* a call
from a row when it drops the call and keeps a row that refers to it: exactly then the unresolved counts become
too low (`TraceDropped.TrimKeepsCounts`). `Wrappers` holds the option type all modules share.

## Model

| member | source | states |
|---|---|---|
| `TraceRecords.DisciplinedNeighbours` | public/trace-store-core.ts:160-169 | Two neighbouring slices of a disciplined log share no call id, and the earlier looks up no call of the later |
| `TraceConfluence.RetainRecordsExact` | public/trace-store-core.ts:165-173 | Retaining a page adds to each missing call exactly the rows of the page that refer to it |
| `TraceConfluence.GroupedCounts` | public/trace-store-core.ts:212-222 | A page grouped on its own leaves exactly its calls in the index and exactly its unresolved references in the counts |
| `TraceConfluence.AppendIsGrouping` | public/trace-store-core.ts:212-246 | Appending a page to the grouping of what precedes it gives the grouping of both in one page, whatever the clock, as long as nothing before the page looks up one of its calls |
| `TraceConfluence.PrependCounts` | public/trace-store-core.ts:258-272 | After a prepend the unresolved counts are exactly those of the longer slice, whatever the clock and whichever ids repeat |
| `TraceConfluence.PrependLabels` | public/trace-store-core.ts:258-295 | Relabelling the rows of newly resolved ids gives every row, old and new, the label it has in the longer slice |
| `TraceConfluence.PrependIsGroupingButStarts` | public/trace-store-core.ts:255-297 | Prepending a page to the grouping of what follows it gives the grouping of both in one page in everything but start times |
| `TraceConfluence.PrependIsGrouping` | public/trace-store-core.ts:255-297 | It gives start times too if and only if the boundary cuts no turn or cuts one that starts no later than its second part |
| `TraceConfluence.PagesGroup` | public/trace-store-core.ts:212-297 | Any mix of appends and prepends of contiguous pages gives the grouping of the covered slice but for start times; each turn starts at the time of one of its records, no later than its first |
| `TraceStarts.StartsArePinned` | public/trace-store-core.ts:280-284 | Where no record of a turn is older than its first, such start times leave no choice: they are those of the slice in one page |
| `TracePaging.OnlyPageableGroupsAlike` | public/trace-store-core.ts:212-297 | A log that is not pageable is grouped differently by some mix of pages: one for a record that looks ahead, one for a result and a call without ids, one for a turn with a record older than its first |
| `TracePaging.Confluence` | public/trace-store-core.ts:212-297 | Every mix of appends and prepends of contiguous pages ends in the grouping of the covered slice (turns, heads, rows, labels, start times, metrics, index, counts) if and only if the slice is pageable |
| `TraceReading.GroupingReads` | public/trace-store-core.ts:70-243 | Grouped at once, the rows are the slice in order; a turn begins with the first record and at every prompt, session and typed command and nowhere else, starts when its first record came, and each row shows the last call under its id |
| `TraceReading.IndexHoldsLastCalls` | public/trace-store-core.ts:213-215 | The index holds the last call under each id |
| `TraceAgreement.AppendKeepsMetrics` | public/trace-store-core.ts:204-246 | Every turn's metrics equal a recount of its head and rows after an append |
| `TraceAgreement.PrependKeepsMetrics` | public/trace-store-core.ts:273-295 | The same after a prepend, merged turn included |
| `TraceAgreement.TrimKeepsMetrics` | public/trace-store-core.ts:329-355 | The same after a trim, the cut turn included |
| `TraceAgreement.AppendAddsRecords` | public/trace-store-core.ts:219-243 | An append puts the page's records behind the resident ones, dropping and repeating none |
| `TraceAgreement.PrependAddsRecords` | public/trace-store-core.ts:273-295 | A prepend puts the page's records in front of the resident ones, whatever the view |
| `TraceAgreement.AppendKeepsIndex` | public/trace-store-core.ts:213-215 | The index holds exactly the resident calls after an append |
| `TraceAgreement.PrependKeepsIndex` | public/trace-store-core.ts:258-263 | The index holds exactly the resident calls after a prepend, whatever the view |
| `TraceAgreement.GroupedAgrees` | public/trace-store-core.ts:196-246 | Grouping from scratch: metrics recount, the index is exact, heads start turns, the resident records are the page |
| `TraceDropped.TrimForgetsDropped` | public/trace-store-core.ts:309-355 | A trim forgets the calls and releases the references of the rows it drops, and of no others |
| `TraceDropped.TrimKeepsIndex` | public/trace-store-core.ts:309-355 | A trim to any cap leaves an exact index exact if and only if no call that stays has the id of one that goes |
| `TraceDropped.UniqueCallsGoWhole` | public/trace-store-core.ts:309-355 | Which is always so where no two resident calls share an id |
| `TraceDropped.TrimKeepsCounts` | public/trace-store-core.ts:309-355 | A trim to any cap leaves exact unresolved counts exact if and only if it parts no call from a kept row that refers to it |
| `TraceDropped.AppendKeepsCounts` | public/trace-store-core.ts:219-222 | A page at the end leaves exact counts exact if and only if it brings no missing call that a resident row refers to |
| `TraceDropped.AppendKeepsBound` | public/trace-store-core.ts:219-222 | No unresolved count ever exceeds the resident rows that refer to the call, trims before included |
| `TraceDropped.TrimKeepsBound` | public/trace-store-core.ts:309-318 | The same under a trim, whatever it parts |
| `TraceTrim.DropsUntilTheRestFits` | public/trace-store-core.ts:342-352 | Turns are dropped from the front only, never once the rest fits, and never the last one |
| `TraceTrim.TrimBound` | public/trace-store-core.ts:342-355 | For a cap of at least 1 a trim leaves at most the cap, drops nothing that fits, and lands exactly on the cap when it cuts inside a turn |
| `TraceTrim.AppendKeepsCut` | public/trace-store-core.ts:219-243 | Appending to trimmed turns is trimming the appended ones: the same cut of a longer slice |
| `TraceTrim.TrimKeepsCut` | public/trace-store-core.ts:329-355 | Trimming what was trimmed is one deeper cut of the same slice |
| `TraceTrim.CutIsRemainder` | public/trace-store-core.ts:329-355 | What a cut leaves is the kept head of the oldest turn followed by a suffix of the slice |
| `TraceGroupings.TraceGrouping.IndexToolCalls` | public/trace-store-core.ts:213-215 | In place: the index gains the page's calls, a repeated id keeping the last |
| `TraceGroupings.TraceGrouping.AppendRow` | public/trace-store-core.ts:219-243 | In place: one record added to the open turn or starting a turn, with its delta and its unresolved id |
| `TraceGroupings.TraceGrouping.AppendTraceRecords` | public/trace-store-core.ts:212-246 | In place: the grouping becomes the appended one and the returned deltas are those of the page |
| `TraceGroupings.TraceGrouping.RelabelRowsOfToolUseIds` | public/trace-store-core.ts:184-194 | In place: exactly the rows that refer to the given ids are labelled anew |
| `TraceGroupings.TraceGrouping.MergeEarlierCalls` | public/trace-store-core.ts:258-263 | In place: calls of the earlier page fill the index without replacing any, and the new ids are returned |
| `TraceGroupings.TraceGrouping.ResolveCounts` | public/trace-store-core.ts:264-268 | In place: newly indexed ids leave the counts, and those that were counted are returned |
| `TraceGroupings.TraceGrouping.MergeEarlierCounts` | public/trace-store-core.ts:269-272 | In place: unresolved counts of the earlier page are added for calls still missing |
| `TraceGroupings.TraceGrouping.PutInFront` | public/trace-store-core.ts:273-294 | In place: the earlier turns in front, the split boundary turn joined |
| `TraceGroupings.TraceGrouping.PrependTraceRecords` | public/trace-store-core.ts:255-297 | In place: the grouping becomes the prepended one and the report is that of the page |
| `TraceGroupings.TraceGrouping.CountResidentRows` | public/trace-store-core.ts:303-307 | The loop counts every head and row |
| `TraceGroupings.TraceGrouping.ForgetRowToolCalls` | public/trace-store-core.ts:309-318 | In place: dropped calls leave the index, dropped references release their count |
| `TraceGroupings.TraceGrouping.DropOldestRowsOfFirstTurn` | public/trace-store-core.ts:329-340 | In place: the oldest turn loses exactly its oldest excess rows, its metrics and flag following |
| `TraceGroupings.TraceGrouping.TrimTraceGrouping` | public/trace-store-core.ts:342-355 | In place: the grouping becomes the trimmed one and the counts returned are those of the trim |
| `TraceStoreRuns.StepKeepsSingleFlight` | public/trace-store.ts:68-331 | Every handler keeps at most one request in flight, sent for the edge the window still has |
| `TraceStoreRuns.RunKeepsSingleFlight` | public/trace-store.ts:107-131 | Over every run the pending request is for the selected session, matches the window edge, and its timer is the only one armed; offsets stay ordered |
| `TraceStoreRuns.NoReplyIsStale` | public/trace-store-core.ts:438-450 | Over every run no reply is found stale, and a prepend always meets an untrimmed window at its first offset |
| `TraceWindows.TrimAgrees` | public/trace-store.ts:139-146 | Trimming the window keeps it in agreement with its slice of the log |
| `TraceWindows.SeedAgrees` | public/trace-store.ts:290-295 | The first page gives a window that agrees with its slice |
| `TraceWindows.AppendAgrees` | public/trace-store.ts:294-296 | A forward page keeps the window in agreement with the longer slice, trimmed before or not |
| `TraceWindows.PrependAgrees` | public/trace-store.ts:284-288 | An earlier page keeps the window in agreement with the longer slice |
| `TraceWindows.WindowStartsExactly` | public/trace-store-core.ts:280-284 | Where no record of a turn of the slice is older than its first, every turn of the window starts as in the slice grouped at once |
| `TraceWindowRuns.WindowAgreement` | public/trace-store.ts:139-297 | With honest pages, over any order of replies, late replies, timeouts, resets, selections and logs replaced while no window shows them, the window is the grouping of its slice of the log, or a cut of it once rows were dropped, each turn starting at the time of one of its records of the slice and no later than its first |
| `TraceWindowRuns.ResidentRecords` | public/trace-store.ts:139-297 | In records: exactly the log between the two offsets until the first trim, then a proper suffix of it behind the kept head of the oldest turn |
| `TraceWindowRuns.StepKeepsCounts` | public/trace-store.ts:139-297 | An event of the store leaves exact counts exact if and only if it parts no call from a kept row that refers to it |
| `TraceWindowRuns.CountsStayExact` | public/trace-store.ts:139-297 | Over a run none of whose trims does so the unresolved counts are exact, however much was trimmed |
| `TraceExchange.FittingReplyIsTakenIn` | public/trace-store-core.ts:438-450 | Over every run a page that meets the edge it was asked for is taken in: same session, loaded, the offsets the reply names, its records at that edge, all resident up to 5000 |
| `TraceExchange.UnfitReplyStartsOver` | public/trace-store.ts:274-280 | Over every run any other answer to the pending request leaves a fresh window, and its tail is asked for when it can be |
| `TraceExchange.UnaskedReplyIsIgnored` | public/trace-store-core.ts:440 | A reply nobody waits for leaves the window alone |
| `TraceExchange.WindowStaysSmall` | public/trace-store.ts:139-146 | Over every run no more than 5000 records are resident |
| `TraceExchange.WhatIsCalledForIsAsked` | public/trace-store.ts:120-131 | Over every run showing the view, a new selection, a connection, a change and a queued refresh ask for the newest records of the selected session, as long as the view is on screen and the message is taken |
| `TraceExchange.ChangeIsRemembered` | public/trace-store.ts:299-308 | A change seen while a request is under way is asked for once that is answered |
| `TraceExchange.EarlierPageIsAsked` | public/trace-store-core.ts:412-421 | The page in front is asked for exactly when there is one, nothing was dropped, there is room and no request is under way |
| `TraceExchange.RequestEnds` | public/trace-store.ts:310-331 | An error, a timeout and a lost connection end the request with their text and keep the window |
| `TraceExchange.OptionsAreSessions` | public/trace-store-core.ts:357-366 | The options are the sessions with an id and a name, the first of each id |
| `TraceExchange.SelectionFollows` | public/trace-store-core.ts:368-378 | The session asked for is selected if it is an option, else the one it was, else the first when one may be chosen; a window is given up only for another session |
| `TraceExchange.ChoiceIsTaken` | public/trace-store.ts:211-218 | A choice of the user is taken at once, with a fresh window, when it is an option |
| `TraceStores.TraceStore.ApplySelection` | public/trace-store.ts:99-105 | In place, the whole new state: the selection is resolved again and says whether it changed |
| `TraceStores.TraceStore.TrimOldestRows` | public/trace-store.ts:139-146 | In place, the whole new state: the window is trimmed and remembers when it first lost rows |
| `TraceStores.TraceStore.RequestEarlierTrace` | public/trace-store.ts:204-209 | In place, the whole new state: the page in front of the window is asked for; at most one request stays in flight |
| `TraceStores.TraceStore.SelectTraceSession` | public/trace-store.ts:211-218 | In place, the whole new state: another session is selected and asked for; at most one request stays in flight |
| `TraceStores.TraceStore.RefreshTraceSelectionOnShow` | public/trace-store.ts:220-224 | In place, the whole new state: showing the view selects again and asks; at most one request stays in flight |
| `TraceStores.TraceStore.SetTraceSessions` | public/trace-store.ts:239-244 | In place, the whole new state: the options are replaced and the selection follows; at most one request stays in flight |
| `TraceStores.TraceStore.TakeIn` | public/trace-store.ts:282-295 | In place, the whole new state: a page is taken in at the edge it was asked for |
| `TraceStores.TraceStore.ApplyTraceResponse` | public/trace-store.ts:246-297 | In place, the whole new state: the whole reply handler: a fitting page is taken in at its edge, any other answer starts over, and at most one request stays in flight |
| `TraceStores.TraceStore.ApplyTraceChanged` | public/trace-store.ts:299-308 | In place, the whole new state: a change asks at once or queues a refresh; at most one request stays in flight |
| `TraceStores.TraceStore.ApplyTraceError` | public/trace-store.ts:310-319 | In place, the whole new state: an error for the pending session ends the request and its timer |
| `TraceStores.TraceStore.ApplyTraceConnectionState` | public/trace-store.ts:321-331 | In place, the whole new state: connection changes clear the request and ask again; at most one request stays in flight |
| `TraceStores.TraceStore.RepliesFit` | public/trace-store.ts:248-260 | Whatever handlers were called before, no reply is found stale and a page in front meets an untrimmed window at its first offset |
| `TracePanel.DeltasOfPage` | public/trace-store-core.ts:217-245 | A page yields at most one delta for the open turn and one for each turn it starts, in order |
| `TracePanel.ReplayRendersAppend` | public/trace-panel.ts:281-295 | Replaying a page's deltas on the rendered lists gives the new turns |
| `TracePanel.ReplayRendersTrim` | public/trace-panel.ts:315-333 | Replaying a trim's two counts gives the trimmed turns |
| `TracePanel.ReplayRendersPrepend` | public/trace-panel.ts:345-374 | Replaying a prepend that needs no re-render gives the new turns |
| `TracePanel.RerenderFlagIsExact` | public/trace-store-core.ts:264-296 | Whatever the records, replaying a prepend gives the new turns if and only if no re-render is asked for |
| `TracePanel.Panel.BuildPanelContent` | public/trace-panel.ts:232-263 | In place: the panel shows the turns |
| `TracePanel.Panel.ApplyTurnAppend` | public/trace-panel.ts:281-295 | In place: one delta, a new section or rows at the end of one |
| `TracePanel.Panel.ShowAppendedRecords` | public/trace-panel.ts:335-343 | In place: all deltas of a page in order |
| `TracePanel.Panel.ApplyTrimToRenderedTurns` | public/trace-panel.ts:315-333 | In place: sections and then rows leave from the front |
| `TracePanel.Panel.ApplyPrependToRenderedTurns` | public/trace-panel.ts:345-374 | In place: merged head and rows join the first section, new sections go in front |
| `TracePanelRuns.PanelMirrorsStore` | public/trace-panel.ts:265-428 | Over every run of store and panel, shown or hidden, a list that is not marked stale is the one the resident turns render to |
| `TracePanelRuns.StaleMeansHidden` | public/trace-panel.ts:265-272 | A list is stale only since something happened off the screen, and only until the view is shown |
| `TracePanelRuns.PageRefreshes` | public/trace-panel.ts:335-411 | A page or a reset that comes while the panel is on the screen leaves no stale list |
| `TraceLimits.CountsDriftAtEveryCap` | public/trace-store-core.ts:309-318 | At every cap there is a log whose trim parts a call from its results: all of them stay and none is counted |
| `TraceLimits.LateCallBreaksConfluence` | public/trace-store-core.ts:212-222 | A log that is not pageable: a call after a row that refers to it is labelled differently in one page and in two |
| `TraceLimits.BackwardClockBreaksConfluence` | public/trace-store-core.ts:280-284 | A log that is not pageable: with the older record second, the turn starts differently in one page and in two |
| `StatusPaint.FindTail` | public/status-paint.ts:35-44 | The binary search finds the first length whose tail is not below the position |
| `StatusPaint.FollowBackPointers` | public/status-paint.ts:48-54 | Following back-pointers collects exactly the chain behind the last tail |
| `StatusPaint.BuildTails` | public/status-paint.ts:30-47 | After the loop each length has the chain with the smallest last position |
| `StatusPaint.LongestIncreasingRunIndices` | public/status-paint.ts:29-55 | The indices returned form a strictly increasing run of non-negative positions, and no such run is longer |
| `StatusPaint.TailsBoundRuns` | public/status-paint.ts:30-47 | No increasing run is longer than the number of tails |
| `RowPlacement.PlaceNext` | public/status-paint.ts:64-69 | One step of the backwards loop: placed rows stay in order and the others keep theirs |
| `RowPlacement.UnmovedFormRun` | public/status-paint.ts:57-70 | Rows that no step of a plan moves stand in increasing positions from the start |
| `RowPlacement.PlansMoveTheRest` | public/status-paint.ts:57-70 | Every sequence of insertions that reaches the order moves at least the rows outside the longest run |
| `RowPlacement.NoShorterPlan` | public/status-paint.ts:57-70 | No plan reaching the requested order is shorter than the number of insertions made |
| `RowPlacement.InsertionIsUnique` | public/status-paint.ts:67 | There is only one list with the other children in their order and the row right before the given one, or last |
| `RowPlacement.ElementList.InsertBefore` | public/status-paint.ts:67 | In place: the other children keep their order and the row stands once, right before the given one, or last |
| `RowPlacement.PlaceFromLast` | public/status-paint.ts:63-69 | In place: the loop leaves the requested rows in order, the other children in theirs, and moves only rows outside the run |
| `RowPlacement.PlaceRowsInOrder` | public/status-paint.ts:57-70 | In place: for distinct rows the requested order, the other children in their old order, with the fewest insertions possible |
| `TelegramDigest.PackedIsPacking` | notifications/telegram-digest.ts:9-23 | The greedy packing splits the texts in order into non-empty groups of at most 4096 characters, or of one oversized text |
| `TelegramDigest.PackingIsLossless` | notifications/telegram-digest.ts:9-23 | Joining the messages gives back the joined texts |
| `TelegramDigest.GreedyStaysAhead` | notifications/telegram-digest.ts:11-21 | For every prefix greedy uses no more messages than any packing, and leaves no longer last message when it ties |
| `TelegramDigest.GreedyIsOptimal` | notifications/telegram-digest.ts:9-23 | No packing of the same texts uses fewer messages |
| `TelegramDigest.PackIntoMessages` | notifications/telegram-digest.ts:9-23 | The loop in place builds exactly the greedy packing |
| `TelegramDigest.NothingIsLost` | notifications/telegram-digest.ts:32-47 | Over every run of the digest: delivered messages and buffered texts together are all texts, in order |
| `TelegramDigest.NoTextWaitsLonger` | shared/coalesce-timer.ts:35-43 | Over every run the timer is due one window after the oldest queued text came, whatever came after it |
| `TelegramDigest.QueuedTextsGoOut` | notifications/telegram-digest.ts:35-41 | A flush, and the timer once it is due, send everything queued in as few messages as can hold it; an earlier timer does nothing |
| `TelegramDigest.TelegramDigest.BufferText` | notifications/telegram-digest.ts:43-47 | In place: the text is buffered and the leading timer runs, or runs on |
| `TelegramDigest.TelegramDigest.Flush` | notifications/telegram-digest.ts:35-41 | In place: everything buffered is packed and delivered, the timer cancelled |
| `TelegramDigest.TelegramDigest.TimerFired` | notifications/telegram-digest.ts:33 | In place: the timer flushes once it is due |
| `OscScanner.IndexFromIsFirst` | detection/osc-title-source.ts:42 | The search finds the first occurrence at or after a position, or there is none |
| `OscScanner.RememberedSearchIsFresh` | detection/osc-title-source.ts:35-39 | The terminator found with a remembered position is the one a fresh search finds |
| `OscReading.TailIsHeld` | detection/osc-title-source.ts:53-60 | The carried tail is exactly what a character-by-character reader still holds: an open title or part of an introducer |
| `OscReading.ScanReads` | detection/osc-title-source.ts:92-100 | Cutting titles out of a buffer and keeping its tail is reading it character by character |
| `OscChunking.FeedReads` | detection/osc-title-source.ts:88-101 | Feeding a chunk behind a carried tail continues the reading where it stopped |
| `OscChunking.FeedingIsLimitedReading` | detection/osc-title-source.ts:88-101 | Feeding any chunks is reading them, forgetting an open title that is over the limit at a chunk boundary |
| `OscChunking.ChunkingInvariance` | detection/osc-title-source.ts:53-101 | If no open title is over the limit at a boundary, titles and tail are those of the concatenated stream |
| `OscChunking.CutsAgree` | detection/osc-title-source.ts:53-101 | Two ways of cutting one stream give the same titles and tail, cuts inside introducer and terminator included |
| `OscChunking.TailIsBounded` | detection/osc-title-source.ts:55 | The carried tail never exceeds 4096 characters |
| `OscChunking.ChunkingIsExact` | detection/osc-title-source.ts:53-101 | Titles stay those of the stream, up to a closing terminator, if and only if no open title is over the limit at a boundary |
| `OscTitleSource.FindOscTitle` | detection/osc-title-source.ts:41-51 | With cached positions the next title and its end are those of a fresh search, and the cache stays valid for the loop |
| `OscTitleSource.TitleRunKeeps` | detection/osc-title-source.ts:112-176 | Over every run the stabilization timer is armed exactly when the title is idle-pending and the source alive, and two ready signals never follow each other without another signal |
| `TitleRuns.EachChangeIsSignalled` | detection/osc-title-source.ts:112-176 | Over every run a working, awaiting-input or unknown title gives out its own signal unless the title said so already, and the timer gives out ready, once, when the title still says so and has for the whole stabilization time |
| `OscTitleSource.TitleSource.ProcessTitle` | detection/osc-title-source.ts:112-165 | In place: kind, latch, timer and emitted signal for each kind of title |
| `OscTitleSource.TitleSource.FeedBuffer` | detection/osc-title-source.ts:92-100 | In place: the feed loop processes every title of the buffer in order, with the cached search |
| `OscTitleSource.TitleSource.Feed` | detection/osc-title-source.ts:88-101 | In place: titles processed and tail kept as by the specification |
| `OscTitleSource.TitleSource.StabilizationTimerFired` | detection/osc-title-source.ts:167-176 | In place: the timer turns idle-pending into ready, once |
| `OscTitleSource.TitleSource.ResyncWorkingLatch` | detection/osc-title-source.ts:195-199 | In place: a working latch is forgotten |
| `OscTitleSource.TitleSource.Reset` | detection/osc-title-source.ts:206-213 | In place: latch, kind, timer and tail start afresh in a live source |
| `OscTitleSource.TitleSource.Destroy` | detection/osc-title-source.ts:215-220 | In place: no timer and no tail are left |
| `StatusSource.StatusSource.Ingest` | detection/status-source.ts:67-116 | In place: a live source gives out immediate signals unless they repeat, a ready waits or raises the confidence of the one waiting, activity cancels it |
| `StatusSource.StatusSource.Resolve` | detection/status-source.ts:118-135 | In place: a rapid duplicate passes only with higher confidence |
| `StatusSource.StatusSource.CancelPendingReady` | detection/status-source.ts:137-145 | In place: the waiting ready and its timer go |
| `StatusSource.StatusSource.PendingReadyFired` | detection/status-source.ts:96-107 | In place: the waiting ready is resolved with its own source, confidence and time |
| `StatusSource.StatusSource.Reset` | detection/status-source.ts:147-150 | In place: nothing waits and nothing is remembered |
| `StatusSource.StatusSource.Destroy` | detection/status-source.ts:152-156 | In place: nothing waits any more |
| `QuietReady.OnlyTheTimerSaysReady` | detection/status-source.ts:84-109 | A ready status comes only from the pending timer |
| `QuietReady.QuietBeforeReady` | detection/status-source.ts:67-135 | Over every run a ready status means a ready signal a whole conflict window earlier and no working, resume or awaiting-input signal since |
| `QuietReady.QuietBeforeTitleReady` | detection/replay.ts:82-91 | With title signals fed to the status source as here, a ready from the title means a ready title both windows earlier and no working or awaiting-input title since |
| `StatusRuns.StatusesGivenOut` | detection/status-source.ts:67-135 | Over every run an event gives out exactly the status that is up, told from the signals taken in, unless it repeats the last one given out since a reset |
| `StatusRuns.ImmediateIsGivenOut` | detection/status-source.ts:78-116 | A live source gives out an immediate signal as it came, unless it is the last one again within the dedup window and not surer |
| `StatusRuns.QuietReadyIsGivenOut` | detection/status-source.ts:84-109 | A ready that comes when none waits and that nothing busy follows is given out by the timer once its window is over, for itself or a surer one that took its place, under the same exception |
| `StatusRuns.TitleSignalsAreTaken` | detection/replay.ts:82-91 | What the title says is taken in as the title's own, at the time it is said |
| `RenderConservation.SlicesKeepTheText` | public/render-scheduler.ts:31-37 | Slicing loses nothing and no slice exceeds 16 KiB |
| `RenderConservation.DrawConserves` | public/render-scheduler.ts:86-112 | One service draws leading actions and then text up to the cap; nothing is lost, repeated or moved, and without text the queue is empty |
| `RenderConservation.ServiceKeepsOrdered` | public/render-scheduler.ts:84-138 | A service keeps output and queue together equal to what was enqueued, keeps back-pressure, caps and the dirty flag, and puts something out |
| `RenderConservation.EnqueueKeepsOrdered` | public/render-scheduler.ts:164-177 | The same for enqueueing |
| `RenderConservation.DrainKeepsOrdered` | public/render-scheduler.ts:130-137 | The same for a drain report |
| `RenderRuns.RunKeepsOrdered` | public/render-scheduler.ts:77-177 | Over every run, for each sink: what came out followed by what is queued is what was enqueued, in order; actions and batches wait for the open batch; writes and batches keep their caps; dirty says whether anything is queued |
| `RenderRuns.ActionsAreBarriers` | public/render-scheduler.ts:91-96 | When an action runs, exactly what was enqueued before it has come out and every earlier batch has reported drained |
| `RenderRuns.ActionsRunOnceEach` | public/render-scheduler.ts:91-96 | An action has run as often as it was enqueued, less the times it is still queued |
| `RenderRuns.RunKeepsConsistent` | public/render-scheduler.ts:53-192 | Over every run: names, order and registered sinks agree, and a serviceable sink has a frame armed unless frames were stopped |
| `RenderRuns.TheGoneStayGone` | public/render-scheduler.ts:130-163 | An unregistered sink never changes again and its late drain report changes nothing, whatever is registered since |
| `RenderRuns.RegisteredAgainIsNew` | public/render-scheduler.ts:145-163 | Registering a name again starts a sink of its own |
| `RenderFairness.TickServes` | public/render-scheduler.ts:77-142 | A frame services at most budget sinks, each serviceable and each once, and leaves the others alone |
| `RenderFairness.BoundedWait` | public/render-scheduler.ts:77-142 | With n sinks and budget b of at least 1, a serviceable sink is serviced within max(1, n - b + 1) frames, whatever is enqueued or reported meanwhile |
| `RenderGiven.WhatWasGivenIsKept` | public/render-scheduler.ts:145-177 | Over every run, for each registration: what came out followed by what is queued is what the calls gave it while it held its name, in order; it lives as long as it holds one |
| `RenderGiven.ActionWaitsForWhatWasGiven` | public/render-scheduler.ts:91-96 | When an action runs, exactly what was given before it has come out and every earlier batch has reported |
| `RenderGiven.ReportIsHeard` | public/render-scheduler.ts:130-137 | A report frees its registered sink, and arms a frame when there is more |
| `RenderGiven.ServiceIsFull` | public/render-scheduler.ts:87-112 | A service takes as much as fits the cap |
| `RenderGiven.EntryIsTaken` | public/render-scheduler.ts:164-177 | An entry for a registered name is queued behind the others, whatever is in flight, and a frame will come |
| `RenderGiven.EverythingComesOut` | public/render-scheduler.ts:77-177 | A registered sink that is given nothing more has put out exactly what it was given after as many rounds of frames as letters and actions are queued, and one more, whatever other sinks are given |
| `RenderSinks.AppendWriteSlices` | public/render-scheduler.ts:31-37 | The slicing loop appends exactly the slices of the text |
| `RenderSinks.TerminalSink.TakeFromQueue` | public/render-scheduler.ts:87-112 | In place: the reading loop, by index, draws exactly what the specification draws |
| `RenderSinks.TerminalSink.ClearWhenDrained` | public/render-scheduler.ts:61-66 | In place: an emptied queue is dropped and no longer dirty |
| `RenderSinks.TerminalSink.Compact` | public/render-scheduler.ts:123-126 | In place: entries already read are dropped without changing what is queued |
| `RenderSinks.TerminalSink.Service` | public/render-scheduler.ts:84-138 | In place: one service of a sink |
| `RenderSinks.TerminalSink.BatchDrained` | public/render-scheduler.ts:130-137 | In place: the drain report of a batch |
| `RenderSinks.TerminalSink.Push` | public/render-scheduler.ts:164-177 | In place: an entry at the end of the queue |
| `RenderSchedulers.Scheduler.Register` | public/render-scheduler.ts:145-154 | In place: a new sink under the name, or the same one again; every sink keeps its text and order |
| `RenderSchedulers.Scheduler.Unregister` | public/render-scheduler.ts:155-163 | In place: the sink dies, its name leaves, the round index stays in range; every sink keeps its text and order |
| `RenderSchedulers.Scheduler.Enqueue` | public/render-scheduler.ts:164-170 | In place: data for a registered sink is queued behind the rest and arms a frame, whatever is in flight; no data and no sink do nothing |
| `RenderSchedulers.Scheduler.BatchDrained` | public/render-scheduler.ts:130-137 | In place: a report arms a frame when its registered sink has more; every sink keeps its text and order |
| `RenderSchedulers.Scheduler.IsAnyServiceable` | public/render-scheduler.ts:72-75 | The loop finds out whether any registered sink is serviceable |
| `RenderSchedulers.Scheduler.ServiceRound` | public/render-scheduler.ts:81-139 | In place: the round-robin loop under its budget |
| `RenderSchedulers.Scheduler.Tick` | public/render-scheduler.ts:77-142 | In place: a whole frame; every sink keeps its text and order and no wakeup is lost |
| `RenderSchedulers.Scheduler.WakeupIsComing` | public/render-scheduler.ts:72-142 | Whatever was called before, a registered sink with something to put out has a frame armed unless frames were stopped |
| `ControlWsRuns.EveryRequestIsAnsweredOnce` | public/control-ws.ts:58-93 | Over every run each request is pending with its timeout armed, or was answered exactly once and has no timeout |
| `ControlWsRuns.NeverStuck` | public/control-ws.ts:100-195 | Once connected for the first time, a client that was not abandoned has a socket, a retry timer or a token fetch under way; requests wait only with a socket |
| `ControlWsRuns.SupersededIsUnheard` | public/control-ws.ts:116-184 | A socket that was replaced never becomes current again and its later events change nothing |
| `ControlWsRuns.ReconnectSupersedes` | public/control-ws.ts:100-114 | Abandoning and reconnecting leave the current socket behind |
| `ControlWsRuns.AcceptedNumbersIncrease` | public/control-ws.ts:133-138 | Over every run, reconnects included, accepted numbers strictly increase between unnumbered snapshots |
| `ControlAnswers.AnswersAreEarned` | public/control-ws.ts:58-150 | Over every run each request made waits or has exactly one answer, that of the first event that ended it; what is passed on are the messages that pass and answer no request, in order; messages pass by the numbers of those before them |
| `ControlAnswers.AnswersHaveCauses` | public/control-ws.ts:58-150 | A promise resolves with a body if and only if, while it waited, a message of the current socket named it, passed and carried that body; it is unreadable exactly for a frame outside the contract that named it, timed out exactly by its own timer |
| `ControlAnswers.AlwaysWayUp` | public/control-ws.ts:152-195 | Over every run a client that was not abandoned is at most four events from an open socket |
| `ControlAnswers.NewSocketContinues` | public/control-ws.ts:166-171 | A new socket is announced and asks to go on behind the last number taken |
| `ControlClients.ControlClient.Request` | public/control-ws.ts:58-74 | In place: a request gets a number and a timer, and fails at once without an open socket; requests stay accounted for and the client on its way |
| `ControlClients.ControlClient.RequestTimerFired` | public/control-ws.ts:61-64 | In place: a timeout answers its request; requests stay accounted for and the client on its way |
| `ControlClients.ControlClient.RejectUnreadableReply` | public/control-ws.ts:76-85 | In place: an unreadable reply fails the request it names |
| `ControlClients.ControlClient.RejectPendingRequests` | public/control-ws.ts:87-93 | In place: every pending request fails and every timer goes |
| `ControlClients.ControlClient.ReconnectNow` | public/control-ws.ts:110-114 | In place: given up, then connected afresh; requests stay accounted for and the client on its way |
| `ControlClients.ControlClient.Connect` | public/control-ws.ts:152-170 | In place: a new socket, or a token first; requests stay accounted for and the client on its way |
| `ControlClients.ControlClient.TokenFetched` | public/control-ws.ts:158-162 | In place: connects after the fetch unless abandoned; requests stay accounted for and the client on its way |
| `ControlClients.ControlClient.SocketClosed` | public/control-ws.ts:184-195 | In place: requests fail, the close is announced, a retry is timed; requests stay accounted for and the client on its way |
| `ControlClients.ControlClient.PassNumber` | public/control-ws.ts:133-138 | In place: numbers not above the last one are dropped; an unnumbered snapshot starts afresh |
| `ControlClients.ControlClient.Receive` | public/control-ws.ts:116-150 | In place: the whole message handler: a frame that ends a request answers it, a new message that ends none is passed on; requests stay accounted for and the client on its way |
| `ControlClients.ControlClient.OwesOneAnswer` | public/control-ws.ts:58-93 | Whatever handlers were called, each request made is pending with its timer armed and unanswered, or was answered once and has no timer |
| `ConnectionRuns.ReplaceEverythingIsSafe` | public/connection-supervisor-core.ts:45-48 | Replacing everything keeps the supervised page safe, whether it acts or finds a replacement under way |
| `ConnectionRuns.ProbeDecisionIsSafe` | public/connection-supervisor-core.ts:50-55 | Probing keeps the supervised page safe, announced or not, whether it acts or finds a probe under way |
| `ConnectionRuns.StepIsSafe` | public/connection-supervisor-core.ts:61-100 | Every lifecycle, network, timer, probe and socket event keeps the page safe |
| `ConnectionRuns.NeverSilent` | public/connection-supervisor-core.ts:45-99 | Over every interleaving, a visible, thawed page with an open socket has a heartbeat armed or a probe that will report; without one, also a handshake, retry or token on its way |
| `ConnectionRuns.HeldInputIsReleased` | public/connection-supervisor-core.ts:85-92 | Held input waits for a probe that will report, and any report lets it go |
| `ConnectionRuns.ReplacingMeansDown` | public/connection-supervisor-core.ts:45-99 | Replacing implies that the socket is not open; probing implies a probe under way |
| `ConnectionDecisions.ShownProbesOrReplaces` | public/connection-supervisor-core.ts:63-67 | A page shown after at most 10 seconds keeps its socket, probes it once within 1.5 seconds and holds input for that; after longer it takes a new socket; neither while replacing, no second probe |
| `ConnectionDecisions.HiddenWaits` | public/connection-supervisor-core.ts:68-69 | A hidden page remembers since when and has no heartbeat |
| `ConnectionDecisions.FrozenGivesUp` | public/connection-supervisor-core.ts:70-74 | A frozen page has given up its socket, its requests, its timers and its heartbeat |
| `ConnectionDecisions.ResumedReplaces` | public/connection-supervisor-core.ts:75-77 | A page that resumes takes a new socket, always after a freeze and otherwise unless one is on its way |
| `ConnectionDecisions.NetworkChangeProbes` | public/connection-supervisor-core.ts:78-80 | A change of network makes a visible page probe within 3 seconds, unless it probes or replaces |
| `ConnectionDecisions.HeartbeatProbesOrReplaces` | public/connection-supervisor-core.ts:81-84 | A heartbeat at most 5 seconds late makes a visible page probe, a later one makes it take a new socket |
| `ConnectionDecisions.OverdueHandshakeReplaces` | public/connection-supervisor-core.ts:93-94 | An overdue handshake is given up for a new socket |
| `ConnectionDecisions.PongKeepsSocket` | public/connection-supervisor-core.ts:85-87 | An answered probe keeps the socket, lets held input go and puts the next heartbeat 15 seconds off |
| `ConnectionDecisions.MissedPongReplaces` | public/connection-supervisor-core.ts:88-92 | A missed pong lets held input go, and a thawed page takes a new socket unless one is on its way |
| `ConnectionDecisions.OpeningSettles` | public/connection-supervisor-core.ts:95-96 | A socket that opens ends the replacement and puts the next heartbeat of a visible page 15 seconds off |
| `ConnectionDecisions.ClosingSettles` | public/connection-supervisor-core.ts:97-98 | A socket that closes ends the replacement, fails every request, stops the heartbeat and times a retry |
| `ConnectionSupervisors.Supervisor.RunConnectionAction` | public/connection-supervisor.ts:33-64 | In place: each action on the client, the timers and the input |
| `ConnectionSupervisors.Supervisor.DispatchConnectionEvent` | public/connection-supervisor.ts:66-70 | In place: the decision is taken and its actions run in order |
| `ConnectionSupervisors.Supervisor.NoteVisibilityChange` | public/connection-supervisor.ts:72-82 | In place: the time hidden is measured and decides whether a page shown again probes its socket or takes a new one; the page stays safe |
| `ConnectionSupervisors.Supervisor.NoteControlSocketChange` | public/connection-supervisor.ts:84-96 | In place: the handshake timer follows the socket, opening and closing are decided on |
| `ConnectionSupervisors.Supervisor.HeartbeatTimerFired` | public/connection-supervisor.ts:19-26 | In place: a due heartbeat says how late it is; the page stays safe |
| `ConnectionSupervisors.Supervisor.NoteProbeReport` | public/connection-supervisor.ts:35-39 | In place: the outcome of a probe is decided on; the page stays safe |
| `ConnectionSupervisors.Supervisor.HearClient` | public/connection-supervisor.ts:84-96 | In place: an event of the client and the change it announces; the page stays safe |
| `ConnectionSupervisors.Supervisor.SomethingIsComing` | public/connection-supervisor.ts:19-96 | Whatever was noted, fired or heard, a visible, thawed page has a heartbeat, a probe that will report, a handshake timer, a retry or a token fetch on its way |

## Left out

- DOM nodes, styles, headers, focus and scroll positions; the panel is its list of sections of rows.
- Label texts, badges and byte encoding: a row is its record with the call it resolves to, which is all its
  label depends on; byte counts are numbers carried by the record.
- Turns and rows are values held by the grouping, so a change seen through another reference to the same
  turn object (a delta whose rows a caller keeps and reads later) is not modelled.
- A turn's start time is always known, as records always carry one; the null start time is not modelled.
- Subscribers of the trace store: notifications are recorded by their effect on the state only, and none
  calls back into the store while it is notifying.
- Replies that do not parse are dropped before the modelled handler (`public/trace-store.ts:160-173`).
- Clocks and event loops: a timer is a due time or an armed flag, its callback an event; a promise that
  settles is an event of its own, which may come as late as it likes. That a due timer does fire in time
  is not modelled.
- Title glyph classification: the kind of a title is a parameter, as is the answer to whether anyone is
  looking at the trace.
- Status and meta events carry no session id or extra fields; the title source's context, last character
  and its warning text are left out, as is the character a signal carries.
- TraceWindowRuns.WindowAgreement: of the unresolved counts it says that they never exceed the references
  they stand for; they are exact until a trim parts a call from a kept row (`TraceWindowRuns.CountsStayExact`,
  `TraceWindowRuns.StepKeepsCounts`), and the code then leaves them too low.
- TraceWindowRuns.WindowAgreement: a log may be replaced by any other while no window shows it; pages of the
  new log that reach a window of the old one before the reset does are not modelled, since the protocol has
  no mark to tell them apart.
- TracePanelRuns.PanelMirrorsStore: headers, the text of a trace without turns, and the mounting of the panel
  are not modelled; turns are compared as sections of rows.
- Characters are single code units of an abstract string; lengths and caps count them as the source does,
  without regard to encoding.
- `writes` of a batch are recorded as one hand-over; the write callback of a sink is not replaced when a
  name is registered again.
- Scheduler actions that register or unregister sinks while a frame runs: an action is recorded, not run.
- RenderFairness.BoundedWait: counts the frames that come; that a requested frame comes is the browser's.
- The budget and the byte cap are fixed per scheduler; a byte cap of 0 never finishes a text, as in the code.
- Labels of the connection state, terminal colour reports, wake timelines, log reporters, the sockets of
  terminals and the clients of other hosts: only the local control client is driven.
- Request ids are numbers, unique as the counter behind the source's ids makes them; message contents are
  numbers too. The contract check of a message is a case of the incoming frame.
- The retry delay: attempts are counted, the retry timer is armed or not. A probe carries the time it is due
  by, but timeouts of requests may come at any time.
- The delivery promises of a digest and failures of delivery: every message packed counts as delivered.
- View ordering, column widths, preferences, sound, notifications, the
  server, command line and release parts: only easy members or code outside these files.
