# InfraReplay, modelled and proved

InfraReplay captures the HTTP and SQL traffic of an application, orders it, stores it, replays it
against a live target and compares the two recordings. This project models that pipeline in Dafny
4.11 and proves what it promises. `dafny verify dfyconfig.toml` checks everything.

The model has four connected parts over one `Event` datatype (`Events.dfy`).

1. **The live system as steps** (`Traffic`, `Agent`, `PostgresCapture`, `HttpCapture`, `Logbook`,
   `Flush`, `Timing`, `LiveShape`, `Completeness`, `Overtaking`, `ResponsePromise`). Any number of
   requests interleave freely: a producer emits a request, the app runs SQL into one shared queue, a
   flush drains it in one step and posts it recording by recording, ingest checks the status and
   appends in two steps, the response leaves, the producer emits the reply, and finishing a
   recording reads first and completes later. All theorems quantify over every finite run
   (`Legal(ls)`).
2. **Correlate, link, compare** (`Correlate`, `CorrelateLaws`, `Parents`, `Linking`, `LinkingLaws`,
   `Naturality`, `Comparators`, `Comparison`, `ComparisonLaws`, `ReportRows`, `Alignment`,
   `ReplayReport`, `ReplayEngine`, `Runner`). The loops of the source are methods proved against
   specification functions; the laws are proved about those functions. `Alignment` joins this part
   with the step system, and `ReplayReport` says what the report of a concurrent replay means there.
3. **Inventory reservation** (`Inventory`, `Conservation`, `LostUpdate`, `Oversell`, `ReserveModes`,
   `CheckoutParts`, `Shop`). Checkouts are transactions with row locks, before-images and committed
   reads, interleaving statement by statement; `Conservation` and `LostUpdate` say exactly how far
   stock drifts and when it does not, `Oversell` builds the schedules that lose it; `Shop` is the
   handler itself and says what it does alone.
4. **JSON trees, storage and bundles** (`Json`, `Patterns`, `Normalize`, `Redaction`, `Places`,
   `Substitution`, `Recordings`, `Sessions`, `Portable`). `Places` says what the tree
   transformations do to a value place by place.

`Sequences` holds the shared vocabulary: grouping in first-appearance order, selection, flattening,
and Python's stable sort.

## Premises

- Event ids are never empty and never repeated (`uuid4` is fresh): steps that emit require a fresh
  id, and the store treats the event id as its primary key.
- The clock never goes back (a step's `wait` is a `nat`). Where a result needs SQL to be strictly
  later than its request it says so (`SqlKeyedAfter`, `Handovers`); the clock alone already gives
  "not earlier", so these exclude timestamp ties between the two producers and nothing else.
- A request runs one SQL statement at a time and none after its final body chunk; nothing times out.
- `asyncio.gather` starts its coroutines first to last and each runs to its first await
  (`SentByPlan`).
- Cart quantities are not negative. The comparator registry holds the two built-in comparators.

## Where the code and its documentation differ

`infrareplay/agent/__init__.py` says that a response is never recorded before its database events
have landed. `ResponsePromise.ResponsePromiseExactly` says when that holds, asked of any event of a
request that is about to flush: on every way on without a new request the event is in the store when
the response may leave, unless it is lost, if and only if it is stored or lost already, or is still
queued with no other request running. Otherwise another request's flush carries the event away while
this one finds an empty queue and answers (`Overtaking.ResponseOvertakesItsSql`, with a concrete run
in `Overtaking.PerResponsePromiseFails`). `Flush.Quiescence` and `Completeness` are what the replay
relies on instead.

## Model

| member | source | states |
|---|---|---|
| Agent.CaptureAgent.Drain | infrareplay/agent/agent.py:72-83 | a drain takes the whole queue, in order, and leaves it empty; without a started stream it takes nothing |
| Agent.CaptureAgent.Flush | infrareplay/agent/agent.py:41-70 | everything queued is posted recording by recording; the first HTTP error drops the rest and raises nothing |
| Agent.BatchesPartition | infrareplay/agent/agent.py:53-56 | batching loses, invents and duplicates nothing; each event travels with its own recording, in queue order |
| Agent.BatchesInOrder | infrareplay/agent/agent.py:53-66 | the batches go out in the order in which their recordings were first seen in the queue |
| PostgresCapture.SqlListener.After | infrareplay/plugins/postgres_capture/plugin.py:75-102 | outside a context nothing changes; inside, field by field: a query event with the statement, its start and its duration, then a result event with what the cursor reports, at the end and under the query, numbered in a row |
| PostgresCapture.ResultPayload | infrareplay/plugins/postgres_capture/plugin.py:132-138 | an unknown row count, and only that, is recorded as null, a known one as itself |
| HttpCapture.ReverseProxy.Receive | infrareplay/plugins/http_capture/proxy.py:107-131 | the request event, field by field, is numbered and queued before the forward; a client's correlation header wins over a fresh id |
| HttpCapture.ReverseProxy.Answer | infrareplay/plugins/http_capture/proxy.py:139-147 | the response event, field by field, is queued under its request after the forward, whatever came back |
| HttpCapture.AnswerIsReply | infrareplay/plugins/http_capture/proxy.py:139-147 | the step system's Reply logs exactly that event, for the request it belongs to |
| Traffic.AlwaysBooked | infrareplay/plugins/http_capture/proxy.py:107-149 | over every run each HTTP and SQL event carries the recording and correlation id of the one request that caused it, request before response |
| Logbook.RequestLogged | infrareplay/replay/http_target.py:55-66 | over every run: the event under the id of a send is that request, with its payload, ids and time |
| Logbook.ReplyLogged | infrareplay/plugins/http_capture/proxy.py:139-147 | ... the event under the id of a reply is that reply, with its payload, under its own request |
| Logbook.SqlLogged | infrareplay/plugins/postgres_capture/plugin.py:75-102 | ... and for each statement, the event under its query id is the query at its start and the next one, under its result id, its result at its end, both of the request that ran it |
| Timing.HttpKeysIncrease | infrareplay/plugins/http_capture/proxy.py:174-198 | events of one HTTP producer have strictly increasing (timestamp, sequence) |
| Timing.AlwaysLive | infrareplay/plugins/postgres_capture/plugin.py:72-129 | over every run: ids unique, counters equal to positions, SQL never before its request nor after its response, query/result and request/response pairs intact |
| Timing.ProducerCounts | infrareplay/replay/http_target.py:109-133 | over every run the j-th event that a recording's producer logs carries sequence j: its counter never drifts from what it has emitted |
| Flush.OnePlace | infrareplay/agent/agent.py:41-83 | over every run an emitted SQL event is in exactly one of queue, one flush, store, lost; a queued one belongs to a request that has not flushed |
| Flush.AlwaysTransport | infrareplay/agent/agent.py:41-83 | the invariant behind it: events are conserved, queued events pend, batches carry their own recording's events only |
| Flush.Quiescence | infrareplay/agent/agent.py:107-118 | once every open request is answered nothing is queued or in flight; if nothing was lost each recording holds its events once, and reads back in emission order |
| Flush.SoloResponseLanded | infrareplay/agent/__init__.py:14-16 | the documented promise, for one request between drain and answer |
| ResponsePromise.ResponsePromiseExactly | infrareplay/agent/__init__.py:14-16 | for any event of a request about to flush: on every continuation without a new request it has landed, or is lost, when the response may leave, if and only if it is stored or lost already, or queued with no other request running; an event in another flush is never promised |
| Overtaking.ResponseOvertakesItsSql | infrareplay/agent/__init__.py:14-16 | from every state with two requests about to flush and SQL of one queued, its response can be recorded with that SQL nowhere in the store |
| Overtaking.PerResponsePromiseFails | infrareplay/agent/__init__.py:14-16 | a concrete run from the start in which the promise fails |
| Overtaking.ForeignFlushRefused | infrareplay/capture/session.py:130-144 | with a second recording at the target, a finished recording can be refused its own SQL |
| Overtaking.ForeignFlushLate | infrareplay/capture/session.py:130-144 | ... or have it appended after completion, because check and append are two steps |
| Completeness.ReplayCompleteness | infrareplay/replay/runner.py:61-78 | whatever other recordings, requests and broken POSTs use the target: if the run collects when its own requests are answered and no flush carries a batch of it, nothing of the run is ever lost, what it reads is every SQL event of the run once, and nothing of the run is appended afterwards |
| Completeness.CollectionExactly | infrareplay/replay/runner.py:75-78 | that guard is tight: at any moment with the run's requests answered and nothing of it lost, the store holds all its SQL if and only if no flush carries a batch of it |
| Completeness.OwnReplayComplete | infrareplay/replay/runner.py:61-78 | with the target to itself the run needs only its own replies, and finishing reads every SQL event there was |
| LiveShape.LiveGroupExactly | infrareplay/recording/correlate.py:34-47 | for every run and every arrival order, a request's group reads request, SQL in emission order, response, exactly when the two producers' keys agree at the two handovers |
| LiveShape.LiveGroupShape | infrareplay/recording/correlate.py:50-75 | that group reads request, (query, result)*, response, each result right after its own query and under it, everything else under the request |
| LiveShape.StrictClockHandsOver | infrareplay/recording/correlate.py:3-8 | SQL strictly between request and response by the clock is enough for that |
| Correlate.GroupEvents | infrareplay/recording/correlate.py:34-47 | computes the groups: one per correlation id, each sorted, sorted by their heads |
| Correlate.LinkGroup | infrareplay/recording/correlate.py:50-65 | computes the parents, with the last query kept as the scan goes |
| Correlate.Correlate | infrareplay/recording/correlate.py:20-31 | computes the correlated stream, numbered across the groups |
| CorrelateLaws.CorrelateIsStableRegrouping | infrareplay/recording/correlate.py:20-47 | a permutation except for sequence and parent; sequences 0..n-1; each correlation id contiguous and in time order; ties keep arrival order; groups ordered by their heads |
| CorrelateLaws.CorrelateIdempotent | infrareplay/recording/correlate.py:20-75 | correlating a correlated stream changes nothing, whatever the stream |
| CorrelateLaws.ArrivalOrderIrrelevantExactly | infrareplay/recording/correlate.py:34-47 | every arrival order gives the same output if and only if no two events of a group and no two group heads tie on (timestamp, sequence) |
| CorrelateLaws.RecordedParentsKept | infrareplay/recording/correlate.py:59-60 | a recorded parent is never replaced |
| Parents.ParentsFilled | infrareplay/recording/correlate.py:50-75 | a missing parent: none for a request, the last query before it for a result, the group's first request for everything else and for a result with no query before it |
| CorrelateLaws.ParentForest | infrareplay/recording/correlate.py:50-75 | when groups open with their request and recorded parents point back, every parent is an earlier event of the same correlation id and only requests lack one |
| CorrelateLaws.Ancestor | infrareplay/recording/correlate.py:50-75 | following parents ends, at a request of the same correlation id |
| Naturality.CorrelateNatural | infrareplay/recording/correlate.py:20-75 | correlation commutes with every change of events that keeps keys and types and moves parents with the ids |
| Naturality.LinksNatural | infrareplay/replay/linking.py:19-51 | links see ids and positions only |
| Naturality.RedactionCommutes | infrareplay/recording/service.py:148-150 | redacting before or after correlation makes no difference, nor does it to the links |
| Linking.Signatures | infrareplay/replay/linking.py:36-51 | the two counting dicts compute position: group index, type, occurrence |
| Linking.LinkStreams | infrareplay/replay/linking.py:19-33 | computes the links of the two sorted streams |
| LinkingLaws.LinksZip | infrareplay/replay/linking.py:19-51 | inside every (group, type) the two sides are zipped position by position, and what sticks out stays unlinked |
| LinkingLaws.LinksInjective | infrareplay/replay/linking.py:25-33 | no two originals link to one replayed event |
| LinkingLaws.LinksInverse | infrareplay/replay/linking.py:19-33 | linking the other way round gives the inverse |
| LinkingLaws.LinksSelf | infrareplay/replay/linking.py:19-33 | a stream links to itself by the identity |
| LinkingLaws.LinksMaximal | infrareplay/replay/linking.py:25-33 | no two leftovers at one (group, type) could still be paired |
| LinkingLaws.LinksIgnoreInputOrder | infrareplay/replay/linking.py:42-43 | with distinct sequence numbers the order of the input lists does not matter |
| Comparators.HttpCompare | infrareplay/plugins/comparators/http.py:16-49 | ERROR exactly for a replayed error; else MATCH exactly when the statuses are equal and the bodies are in normal form, and the diff shows both sides of each that is not; the row names both events |
| Comparators.PgCompare | infrareplay/plugins/comparators/postgres.py:16-43 | the same for the row count and the rows, both in normal form |
| Comparators.MatchMeansAgree | infrareplay/plugins/comparators/http.py:25-49 | ERROR exactly for a replayed error, MATCH exactly when no compared field differs, and the diff names exactly the fields that differ |
| Comparators.RedactionKeepsMatches | infrareplay/plugins/redaction_default/plugin.py:29-48 | a pair that matches still matches once both sides are redacted |
| Comparison.CompareRun | infrareplay/comparison/engine.py:12-65 | the two loops with their consumed set compute the report |
| ReportRows.RowsInOrder | infrareplay/comparison/engine.py:12-65 | the report in order: about each original reply and SQL result the verdict on the event its link leads to, or MISSING; then NEW for each replayed one that no link reaches; nothing else |
| ComparisonLaws.EveryEventInOneRow | infrareplay/comparison/engine.py:19-65 | every comparable original and every comparable replayed event is in exactly one row |
| ComparisonLaws.TotalsAddUp | infrareplay/replay/runner.py:80-89 | MATCH + DIFFERENT + ERROR + MISSING counts the originals, with NEW for MISSING the replays |
| ComparisonLaws.SurplusOnOneSide | infrareplay/comparison/engine.py:25-65 | position by position, a row is MISSING, NEW or a verdict according to which side reaches that far |
| ComparisonLaws.SurplusCounts | infrareplay/comparison/engine.py:25-65 | per (group, type) with counts a and b: MISSING = max(0, a-b), NEW = max(0, b-a), never both |
| ComparisonLaws.AllMatchExactly | infrareplay/comparison/engine.py:12-65 | a report is all MATCH if and only if per group and comparable type the sides are equally long, error-free and equal in normal form |
| Alignment.LeadersHead | infrareplay/recording/correlate.py:42-47 | strict leaders in increasing key order head the groups, in that order |
| Alignment.ReplayAlignment | infrareplay/replay/engine.py:139-157 | whatever the concurrency and interleaving, group i of the finished run opens with the i-th request sent and the source's i-th request links to it |
| Alignment.OneGroupPerSend | infrareplay/replay/http_target.py:58-66 | the run has one group per request sent, whatever the source looks like |
| Alignment.NoCrossTalk | infrareplay/replay/linking.py:42-49 | whatever is linked, of any type, comes from corresponding requests |
| Alignment.FinishReadsTheRun | infrareplay/replay/runner.py:75-78 | a replay that collects when nobody carries its events finishes on exactly the rows that alignment speaks about |
| ReplayReport.ReplayReportExactly | infrareplay/replay/runner.py:61-84 | whatever the concurrency, interleaving and arrival order, the report is all MATCH if and only if for every i the i-th request sent got the reply and the SQL results that the source's i-th request got |
| ReplayEngine.OutgoingHeaders | infrareplay/replay/http_target.py:98-107 | the sent headers are the captured ones with their values, without the hop's own, plus the two tying ids |
| ReplayEngine.HttpTarget.Begin | infrareplay/replay/http_target.py:55-66 | the first half of a send: the request event, numbered, under a correlation id of its own; its payload has every given field with its value, and the headers that may be sent |
| ReplayEngine.HttpTarget.Complete | infrareplay/replay/http_target.py:83-96 | the second half: the reply under its request |
| ReplayEngine.Chunks | infrareplay/replay/engine.py:155-157 | the batches concatenate to the payloads; all but the last are full |
| ReplayEngine.Plan | infrareplay/replay/engine.py:139-150 | every source request is sent once, in order, under one renaming, one-to-one on generated values unless a draw was repeated; none means an error |
| ReplayEngine.ReplayedInPlace | infrareplay/replay/engine.py:139-157 | alignment from the source's payload to the linked event: group i of the run opens with exactly the fields of the source's i-th request, each under the run's renaming, and with its headers that may be sent |
| ReplayEngine.StoredInPlace | infrareplay/replay/runner.py:75-81 | the same for the rows as stored, redacted |
| Runner.Summarise | infrareplay/replay/runner.py:86-89 | the counters count each category |
| Runner.RecordRun | infrareplay/replay/runner.py:48-78 | open, stream, append and finish, or fail: the stored run is the correlated rows, its row completed with its own meta data, every other recording's row untouched |
| Runner.RunShown | infrareplay/replay/runner.py:73-76 | whatever the target streamed in and every replayed event is in the finished run |
| Runner.Assess | infrareplay/replay/runner.py:80-89 | links saved under their replayed events, report saved row by row, and counts, of the finished run |
| Runner.RunReplay | infrareplay/replay/runner.py:32-98 | a refused or unknown replay leaves recordings, events, links and comparisons as they were; otherwise the report is that of the source against the finished run, and its rows are saved |
| Recordings.Store.Start | infrareplay/recording/service.py:98-127 | a new recording is open; a taken id is refused |
| Recordings.Store.Append | infrareplay/recording/service.py:130-154 | all events are stored redacted, or none when an event id clashes |
| Recordings.Store.Fail | infrareplay/recording/service.py:157-166 | a known recording becomes FAILED with the reason in its title |
| Recordings.Store.Finish | infrareplay/recording/service.py:169-195 | the returned list is the correlated rows, reading back by sequence gives it exactly, no other recording's rows change |
| Recordings.Store.LinkReplayEvents | infrareplay/recording/service.py:348-363 | each existing replayed row gets the id of the last original, in dict order, that links to it, every other row keeps what it had |
| Recordings.Store.SaveComparison | infrareplay/recording/service.py:366-384 | the rows are appended in report order, under the run |
| Recordings.FinishAgrees | infrareplay/recording/service.py:178-183 | store agreement: write-back by event id turns the rows into the correlated list |
| Recordings.FinishKeepsOthers | infrareplay/recording/service.py:178-183 | ... and leaves every other recording's rows as they were |
| Sessions.Sessions.StartSession | infrareplay/capture/session.py:87-114 | a session that fails to open leaves a FAILED recording and is never registered |
| Sessions.Sessions.Pump | infrareplay/capture/session.py:79-81 | the oldest waiting event is persisted first; what the store holds of a session stays what was emitted, in order, up to what waits |
| Sessions.Sessions.Unregister | infrareplay/capture/session.py:117-121 | a second stop finds no session |
| Sessions.Sessions.Seal | infrareplay/plugins/http_capture/plugin.py:40-45 | the sentinel goes behind everything emitted |
| Sessions.Sessions.Complete | infrareplay/capture/session.py:71-77 | whatever ran between the steps of the stop: before completion every event the plugin emitted is a row of the recording, redacted, in the order of emission, and the finished recording holds each of them |
| Sessions.Sessions.StopSession | infrareplay/capture/session.py:117-123 | the steps in one go: the completed recording holds the correlated rows, with everything ever emitted in it |
| Sessions.Sessions.Deposit | infrareplay/capture/session.py:141-142 | the second half of ingest stores each event redacted and stamped with the recording, all or none, without looking at the status again |
| Sessions.Sessions.Ingest | infrareplay/capture/session.py:130-144 | with nothing in between, events are stored only while the recording is open |
| Substitution.SubstitutionEngine.Swap | infrareplay/replay/substitution.py:79-86 | a mapped value gives its mapping; otherwise in auto mode a UUID gives its remembered replacement, or the fresh draw, which is remembered; anything else gives itself and draws nothing |
| Substitution.SubstitutionEngine.MemorySound | infrareplay/replay/substitution.py:79-86 | as long as no draw has been repeated, generated replacements are UUIDs, one each |
| Substitution.EnoughUuids | infrareplay/replay/substitution.py:86 | there are supplies whose first 16^32 draws are all different |
| Substitution.SubstitutionEngine.Walk | infrareplay/replay/substitution.py:67-77 | the walk is the memory's renaming of the whole tree |
| Substitution.SubstitutionEngine.ApplyAll | infrareplay/replay/substitution.py:61-86 | one renaming explains every output of a run, the first ones included: place by place, at any depth, a string becomes its mapped value, its generated one or itself, and nothing else changes; one-to-one on generated values unless a draw was repeated |
| Substitution.RewritePlaces | infrareplay/replay/substitution.py:67-86 | the renaming of a value, place by place |
| Substitution.RewriteStable | infrareplay/replay/substitution.py:54-56 | later growth of the memory never changes an answer already given |
| Substitution.RewriteInjective | infrareplay/replay/substitution.py:79-86 | without a mapping, distinct payloads stay distinct |
| Substitution.RewriteKeepsSkeleton | infrareplay/replay/substitution.py:67-77 | keys, shape and non-string leaves are unchanged |
| Substitution.NormAbsorbsExactly | infrareplay/comparison/normalize.py:51-80 | substitution is invisible to the comparison, through any memory, if and only if the mapping keeps every value's placeholder |
| Normalize.NormIdempotent | infrareplay/comparison/normalize.py:51-80 | normalising twice is normalising once, at any depth |
| Places.NormPlaces | infrareplay/comparison/normalize.py:51-80 | exactly the places under a volatile header, in any letter case, or an ignored field are gone; every other place is there, with UUIDs, timestamps and ids as their shape |
| Patterns.ShapeExamples | infrareplay/comparison/normalize.py:8-10 | the documented examples have their shape and no other; near misses have none |
| Json.PyEqMeans | infrareplay/plugins/comparators/http.py:35-43 | equality as the comparators use it: key sets and lists item by item, numbers by value with True as 1 and False as 0 |
| Redaction.ScrubFixesMasked | infrareplay/plugins/redaction_default/plugin.py:35-48 | scrubbing masks every sensitive key at any depth, and leaves exactly the masked values alone |
| Places.ScrubPlaces | infrareplay/plugins/redaction_default/plugin.py:35-48 | what a sensitive key holds becomes the mask, whatever it was; off such keys nothing is added, dropped or changed |
| Redaction.RedactionKeepsAgreement | infrareplay/plugins/redaction_default/plugin.py:35-48 | values equal in normal form stay so after redaction |
| Portable.ParseBundle | infrareplay/recording/portable.py:40-57 | which of the three errors a document gives, and otherwise exactly the recording it holds |
| Portable.CorrelateRekeyed | infrareplay/recording/portable.py:67-88 | correlating commutes with re-keying, for any stream whose parents are internal |
| Portable.ImportRecording | infrareplay/recording/service.py:305-324 | a malformed bundle changes nothing; a free id is kept with the bundle's own event ids, a taken one is re-keyed; the result has the bundle's meta data and the correlated, redacted events, and so has the store |
| Portable.ImportExported | infrareplay/recording/service.py:299-324 | the round trip of the operation: an exported recording imports as itself where its id is free, and as the copy under the new ids where it is taken |
| Portable.ImportAfterExport | infrareplay/recording/service.py:299-324 | round trip on an instance without the recording: the same events |
| Portable.ImportAfterExportRekeyed | infrareplay/recording/portable.py:67-88 | round trip on an instance that has it: the same events under the new ids, parents carried along |
| Portable.FinishedIsExported | infrareplay/recording/service.py:130-195 | what append and finish store is correlated and redacted, as the round trip needs |
| Portable.LinksAreTheRenaming | infrareplay/recording/portable.py:67-88 | linking a recording to its re-keyed import finds exactly the renaming |
| Portable.ImportMatchesOriginal | infrareplay/comparison/engine.py:12-65 | comparing them reports MATCH throughout if and only if no captured step of a compared type had failed |
| Conservation.StockDrifts | examples/demo_shop/store.py:142-191 | over every run, with any carts, any mix of modes, any interleaving and aborts anywhere: available + held + sold = initial + the staleness of the updates that were not undone |
| Conservation.ConservedExactly | examples/demo_shop/store.py:142-191 | stock is conserved if and only if that staleness cancels out |
| Conservation.AtomicConservesStock | examples/demo_shop/store.py:156-169 | in every interleaving of any number of ATOMIC checkouts, per SKU: available >= 0 and initial = available + held by open checkouts + committed orders |
| Conservation.NeverNegative | examples/demo_shop/store.py:156-191 | availability stays non-negative in every run, oversold or not |
| Conservation.RejectionRestores | examples/demo_shop/store.py:65-96 | in every run each 409, of either mode, and each abort puts back what the checkout took less its own drift, exactly that when it is ATOMIC; it frees its rows, leaves no order and names what was missing or short |
| Inventory.LockingStep | examples/demo_shop/store.py:160-164 | every step keeps row locks and before-images in agreement, in both modes |
| ReserveModes.ModesAgreeExactly | examples/demo_shop/store.py:156-191 | one checkout alone ends the same in both modes, for every stock, if and only if no line follows another that takes some of the same SKU |
| ReserveModes.SerialRunsAgree | examples/demo_shop/store.py:142-191 | any serial run of such carts: same statuses, short lists and final stock |
| LostUpdate.SerialisedConserves | examples/demo_shop/store.py:142-191 | any carts in any mix of modes, other SKUs, rejections and aborts, as long as a READ_THEN_WRITE cart names the SKU at most once, for a positive quantity: at any point committed stock plus sales is at least the initial stock, and equal to it if and only if each READ_THEN_WRITE sale priced after the previous sale |
| LostUpdate.SettledConservedExactly | examples/demo_shop/store.py:172-191 | when all are over: stock left plus stock sold is the initial stock if and only if the run was so serialised |
| LostUpdate.PricingRepeats | examples/demo_shop/store.py:116-139 | pricing a SKU twice in one checkout shows the same availability twice, whatever commits in between |
| Oversell.OverlappingSell | examples/demo_shop/store.py:172-191 | when all one-line checkouts price before any commits, all that can afford their cart sell, and only the last commit shows in the stock |
| Oversell.OverlappingCheckoutsOversell | examples/demo_shop/store.py:172-191 | so k checkouts of quantity q on a stock s >= q all sell and leave s - q, for every k, and such a run is serialised only if k is 1 |
| Oversell.OverlapHappens | examples/demo_shop/store.py:172-191 | for every list of affordable quantities there is a schedule in which all price before any commits, and its final state |
| Oversell.OversellHappens | examples/demo_shop/store.py:12-15 | for every k > 0, quantity and stock that covers it, a schedule after which all k have confirmed and the stock is down by one quantity |
| Shop.Store.Price | examples/demo_shop/store.py:116-139 | the lines of the stocked items and the SKUs of the others, each in cart order |
| Shop.Store.ReserveAtomic | examples/demo_shop/store.py:156-169 | a line takes its quantity exactly when that much is left when its turn comes; the others are reported in order |
| CheckoutParts.TakesInTurn | examples/demo_shop/store.py:156-169 | that definition against the line-by-line updates |
| Shop.Store.ReserveReadThenWrite | examples/demo_shop/store.py:172-191 | the lines that saw too little are reported and then nothing is written; else the last line of each SKU leaves what it saw less what it takes, and other rows stay |
| Shop.Store.Checkout | examples/demo_shop/store.py:52-110 | outcome, stock and orders of the handler, error paths and rollback included; a decline commits its order |
| Shop.CheckoutAlone | examples/demo_shop/store.py:52-110 | every schedule without abort that runs one transaction alone to its end finishes as the handler does |
| Shop.CheckoutEnds | examples/demo_shop/store.py:52-110 | ... and there always is one |
| Shop.SerialSchedules | examples/demo_shop/store.py:52-110 | every schedule of the step system that takes checkouts one by one is a serial run of the handler |

## Left out

- Event durations: the source updates them after emitting the event, so what gets stored is a race; the model stores 0 for HTTP events.
- HTTP transport, server start-up, timeouts, body decoding and truncation: sends are steps with an arbitrary response; a proxy shutdown is taken to wait for its open handlers.
- Traffic.AlwaysBooked: a POST that fails after the server stored its batch is counted as lost, since the model drops what the client gives up on.
- Recordings.Store.Finish: the database leaves the order of rows with equal sequence numbers open; the model reads them in table order, and `CorrelateLaws.ArrivalOrderIrrelevantExactly` says when that order matters.
- Sessions.Sessions.Ingest: one call with nothing between check and append. `CheckOpen` and `Deposit` are the two steps of the source, and `Overtaking.ForeignFlushLate` shows what can come between.
- ReplayEngine.OutgoingHeaders: captured headers that are not an object count as empty, where the source would raise.
- Portable.ParseBundle: type validation and schema migrations are not modelled (no migration is registered); a value that parses is well typed.
- Timestamps of creation, blob snapshots, statuses of imported recordings: not preserved by the round trip and not part of it.
- The one-shot capture driver: it makes the same store calls as a session.
- The mock target, the production-target check and template expansion: fixed data and easy branches.
- Payment totals: whether the gateway declines is an arbitrary flag per cart, the same in both modes.
- Database isolation beyond row locks, before-images and committed reads; deadlock detection appears as an abort at any point.
- JSON: numbers are reals (no NaN or infinities); key order is not observed; lower-casing and the three patterns are ASCII.
- Plugin registry, CLI, dashboard, API routes, listing and grouping of projects: interface code.
