# Verified models of the benchmark, tracing and release tools

This project models the parts of the repository that run as protocols or clever algorithms outside
the serving engine, and proves what they are for. `dafny verify dfyconfig.toml` checks all of it.

| files | what they model |
|---|---|
| `Rendezvous.dfy` | ranks that meet in blocking collectives: a state machine over all interleavings of their programs |
| `Tensors.dfy`, `AllReduce.dfy`, `AllReduceCorrect.dfy`, `AllReduceRuns.dfy`, `AllReduceCasts.dfy`, `AllReduceCalls.dfy`, `AllReduceRank.dfy` | the hierarchical and the eight-bit all-reduce (`bench/pcie_allreduce.py`) |
| `SpanContainer.dfy`, `SpanLayout.dfy`, `SpanShown.dfy`, `SpanOptimal.dfy`, `SpanGenerator.dfy`, `SpanConversion.dfy` | laying trace spans out on display lines (`scripts/convert_otel_2_perfetto.py`) |
| `EditDistance.dfy` | the edit-distance metric of the OCR benchmark (`benchmark/ocr/eval_utils.py`) |
| `Workload.dfy`, `WorkloadRuns.dfy`, `WorkloadBarrier.dfy`, `WorkloadTalk.dfy`, `WorkloadWords.dfy`, `WorkloadProgress.dfy`, `WorkloadThreads.dfy` | the multi-turn load generator: sender thread, response handler, round barrier (`benchmark/hicache/bench_multiturn.py`) |
| `Reenqueue.dfy`, `ReenqueueProgress.dfy`, `ReenqueueLog.dfy`, `ServingBenchmark.dfy` | the serving benchmark whose requests put their conversation back into a bounded queue (`benchmark/hicache/bench_serving.py`) |
| `TimedQueue.dfy`, `UserRuns.dfy`, `UserTalk.dfy`, `MixedBenchmark.dfy` | users and their queue by start time (`benchmark/hicache/bench_mix.py`) |
| `CyclicRefill.dfy` | filtering chat data and going round it until enough is collected (`benchmark/hicache/data_processing.py`) |
| `WheelIndex.dfy`, `WheelLinks.dfy`, `RootIndex.dfy` | the pages of the nightly wheel index, rewritten by every release (`scripts/update_nightly_whl_index.py`) |
| `BlockReplace.dfy` | the generated block of the documentation's index page (`docs/scripts/update_lmsys_sglang_blogs.py`) |
| `StableSort.dfy`, `Options.dfy` | sorting by a key, and values that may be missing |

Concurrent code is a state machine whose steps are the atomic actions of the threads, ranks or
tasks; theorems about it speak of every run, every interleaving and every position in it. Code that
updates objects or loops is a class or a method, proved against the functions and state machines
that the theorems are about. Clocks, random draws, network answers and file contents are
parameters.

## What the proofs found

- The span layout can show overlapping spans on one line. A span of length zero is put on its
  request's current line without a test (`scripts/convert_otel_2_perfetto.py:98-99`), and from then
  on the neighbour test no longer sees the span around it. Conversion shortens every span by 1000 ns
  (line 209), so a span recorded as exactly 1000 ns long is such a span.
  `SpanLayout.ZeroLengthSpanCausesOverlap` gives an instance; `SpanShown.OverlapShownIff` says that
  a run shows an overlap exactly when a span of length zero is kept on its request's line although it
  falls inside a span stored there. Spans that run backwards, by contrast, do no harm.
- The timed queue of `benchmark/hicache/bench_mix.py` computes an insertion position `i` and inserts
  at `idx` (line 267). A user that starts later than everybody waiting is put in front of the last
  one. `TimedQueue.PushKeepsAscendingIff` gives the exact condition, `LaterUserJumpsTheQueue` the
  smallest instance.
- Filtering chat data never ends when requests are asked for and no conversation keeps a turn;
  `CyclicRefill.LoopEndsIff` shows that this is the only case.
- A conversation without prompts takes one of the serving benchmark's planned dispatches without
  having been counted in the plan (`benchmark/hicache/bench_serving.py:268,414`), so that the
  dispatcher stops before all conversations are over. `ReenqueueProgress.EveryRunGetsOverIff` shows
  that this is the only way it can stop early.
- A failed request under the round barrier holds all later rounds back for good
  (`WorkloadBarrier.FailureStopsTheBarrier`).
- Cards that hold the end marker make a rerun of the documentation update change the page;
  `BlockReplace.LastReplacementWinsIff` is the exact condition. The error text of
  `docs/scripts/update_lmsys_sglang_blogs.py:249-253` speaks of exactly one block; the code accepts
  several and replaces the first. The model follows the code.
- `scripts/update_nightly_whl_index.py:6` promises an order by commit count; the code orders by the
  run that shipped a wheel, newest run first. The model follows the code.

## Model

| member | source | states |
|---|---|---|
| `Rendezvous.BlockedMembersAgree` | bench/pcie_allreduce.py:47-56 | in every reachable state, two blocked ranks that each take part in the collective the other waits at wait at the same collective, for any programs that are projections of one schedule |
| `Rendezvous.MeetingRanksHold` | bench/pcie_allreduce.py:75-80 | ranks that come to the same collective hold what the schedule gives them right before it |
| `Rendezvous.NeverStuck` | bench/pcie_allreduce.py:47-56 | deadlock freedom: every reachable state is finished or has a next step |
| `Rendezvous.FinishedRunFollowsSchedule` | bench/pcie_allreduce.py:75-80 | determinacy: a finished run holds what executing the schedule one collective at a time computes, however the ranks interleaved |
| `Rendezvous.RunsAreBounded` | bench/pcie_allreduce.py:75-80 | termination: no interleaving takes more steps than the initial state holds work |
| `Rendezvous.RunsFinish` | bench/pcie_allreduce.py:75-80 | every run, wherever it has got to, can be carried on to a finished one |
| `Tensors.NothingClipped` | bench/pcie_allreduce.py:65-70 | with the agreed magnitude as scale, every element of every participant lies inside the eight-bit range when it is cast |
| `Tensors.CompressedSumError` | bench/pcie_allreduce.py:67-73 | scale, cast, add, unscale: each element is within one cast error per summand, unscaled, of the exact sum |
| `Tensors.AmaxIsReached` | bench/pcie_allreduce.py:65 | the magnitude of a tensor is that of one of its elements, or the floor of 1e-12 |
| `Tensors.CommonAmaxIsReached` | bench/pcie_allreduce.py:65-66 | the agreed magnitude is that of an element of some participant, or the floor |
| `AllReduce.GroupsPartitionRanks` | bench/pcie_allreduce.py:40-57 | every rank is in exactly one group, and the leaders' group holds exactly one rank of each group, its first |
| `AllReduce.TaskProjects` | bench/pcie_allreduce.py:47-80 | what a rank issues for one construction or one all-reduce is what it sees of the common schedule of that call |
| `AllReduce.ProgramIsProjection` | bench/pcie_allreduce.py:47-112 | the same for the whole program of a rank and any list of constructions and all-reduce calls of both kinds |
| `AllReduce.MachineProjects` | bench/pcie_allreduce.py:47-112 | all ranks' programs are projections of one schedule, so the rendezvous theorems apply |
| `AllReduceCorrect.GroupedSumIsFlat` | bench/pcie_allreduce.py:75-80 | adding up in groups and then across groups is adding up flat, element by element |
| `AllReduceCorrect.ExchangeResult` | bench/pcie_allreduce.py:59-73 | after the exchange every leader holds the sum of the leaders' tensors, exact or compressed; `AllReduceCalls.ReducedIs` says on the call's parameters which |
| `AllReduceCorrect.HierarchicalResult` | bench/pcie_allreduce.py:75-80 | reduce in groups, exchange, broadcast: every rank, leader or not, ends with the leaders' result |
| `AllReduceCorrect.GatherResult` | bench/pcie_allreduce.py:95-112 | reduce-scatter, agree on a magnitude, gather: every rank ends with the exact sum cast and uncast once, shards in order |
| `AllReduceRuns.EveryInterleavingCompletes` | bench/pcie_allreduce.py:37-112 | any mix of constructions and all-reduce calls: every interleaving can be carried on to the end, within the bound |
| `AllReduceRuns.RanksMeetAtSameCollective` | bench/pcie_allreduce.py:47-80 | two ranks of these programs that wait for one another wait at the same collective |
| `AllReduceRuns.EveryInterleavingReduces` | bench/pcie_allreduce.py:37-112 | whatever the interleaving, when all are done every rank holds of every tensor what the calls on it leave one after the other, each reducing in place what the one before it left |
| `AllReduceRuns.RanksAgree` | bench/pcie_allreduce.py:75-112 | once a call has worked on a tensor, all ranks hold the same of it |
| `AllReduceRuns.HeldAfterOneCall` | bench/pcie_allreduce.py:59-112 | a tensor that one call works on ends as what that call leaves of its inputs, whatever the other calls; `AllReduceCalls.HierarchicalCallEnds` and `GatherCallEnds` say what that is |
| `AllReduceRuns.ReducedIsAccurate` | bench/pcie_allreduce.py:59-112 | each element of a call's result is within casts * eps * amax / 448 of the exact sum; `AllReduceCalls.CastCountIs` and `MagnitudeIsReached` say on the call's parameters how many casts there are and what amax is |
| `AllReduceCasts.NothingIsClipped` | bench/pcie_allreduce.py:65-73 | in every reachable state a rank whose next collective casts (the leaders' payload or the gathered shards) has every element it holds inside the eight-bit range at the magnitude it holds, and two ranks that come to that cast scale alike |
| `AllReduceCasts.CastIsCovered` | bench/pcie_allreduce.py:104-110 | the schedule, executed up to a cast, leaves its members agreed on a magnitude that covers what they hold, leaders and shards alike |
| `AllReduceCalls.BuildsEveryGroup` | bench/pcie_allreduce.py:47-56 | every rank issues one construction for each group, ranks g * size to g * size + size - 1 in order, and then one for the multiples of the size |
| `AllReduceCalls.HierarchicalCalls` | bench/pcie_allreduce.py:59-80 | a rank's calls, on the flag, the byte count and 1048576: reduce, then on leaders the magnitude and the payload if the flag is set and the tensor has at least that many bytes, and else one exact sum, then broadcast |
| `AllReduceCalls.GatherCallsAre` | bench/pcie_allreduce.py:95-112 | one exact sum if the elements do not split evenly or there are fewer than 1048576 bytes, and else reduce-scatter, magnitude and gather |
| `AllReduceCalls.ReducedIs` | bench/pcie_allreduce.py:59-112 | what a call leaves, on its parameters: the exact sum, the compressed sum of the groups' sums, or the sum cast once |
| `AllReduceCalls.CompressedSumIs` | bench/pcie_allreduce.py:67-73 | an element of a compressed sum: each term scaled by 448 / amax and cast, the casts added, the total scaled back |
| `AllReduceCalls.RecastIs` | bench/pcie_allreduce.py:104-112 | an element of a gathered sum: scaled by 448 / amax, cast and scaled back |
| `AllReduceCalls.CastCountIs` | bench/pcie_allreduce.py:59-112 | how many casts lie between a call's result and the exact sum, on the call's parameters: one for each group, one, or none |
| `AllReduceCalls.MagnitudeIsReached` | bench/pcie_allreduce.py:65-66 | the magnitude in the error bound is that of an element the call casts, or the floor |
| `AllReduceCalls.HierarchicalCallEnds` | bench/pcie_allreduce.py:59-80 | in a finished run, whatever the interleaving, a tensor that one hierarchical call works on is on every rank the exact sum if the flag is off or it has fewer than 1048576 bytes, and else the compressed sum of the groups' sums |
| `AllReduceCalls.GatherCallEnds` | bench/pcie_allreduce.py:95-112 | likewise for a gather call: the exact sum if uneven or small, and else the exact sum cast once |
| `AllReduceRank.HierarchicalAllReduce.constructor` | bench/pcie_allreduce.py:37-57 | the loops of the constructor issue the rank's part of the construction schedule, in its order |
| `AllReduceRank.HierarchicalAllReduce.ExchangeLeaders` | bench/pcie_allreduce.py:59-73 | issues one sum over the leaders' group unless the flag is set and the tensor has at least 1048576 bytes, and then the magnitude and the payload |
| `AllReduceRank.HierarchicalAllReduce.AllReduce` | bench/pcie_allreduce.py:75-80 | issues the rank's part of one hierarchical all-reduce and nothing else |
| `AllReduceRank.LeaderIsMultiple` | bench/pcie_allreduce.py:44-45 | being a multiple of the group size and being the first rank of one's group are the same |
| `AllReduceRank.Fp8AllGatherAllReduce.AllReduce` | bench/pcie_allreduce.py:95-112 | issues the rank's part of one gather all-reduce: three collectives, or one when the elements do not split evenly or there are fewer than 1048576 bytes |
| `SpanContainer.InsertKeepsSorted` | scripts/convert_otel_2_perfetto.py:72-73 | insertion keeps the list ordered |
| `SpanContainer.InsertedContents` | scripts/convert_otel_2_perfetto.py:72-73 | insertion loses nothing and adds only the new interval |
| `SpanContainer.TestIsSound` | scripts/convert_otel_2_perfetto.py:58-70 | on a list without overlaps between neighbours, a span that passes the two-neighbour test overlaps none of the stored spans |
| `SpanContainer.TestIsExact` | scripts/convert_otel_2_perfetto.py:58-70 | for stored spans of positive length that do not overlap, the two-neighbour test agrees with a scan of the whole list, in both directions |
| `SpanContainer.FreeInsertKeepsChained` | scripts/convert_otel_2_perfetto.py:58-73 | storing a span that passed the test keeps neighbours from overlapping, whatever its length |
| `SpanContainer.ZeroLengthInsertIsExact` | scripts/convert_otel_2_perfetto.py:98-99 | storing a span of length zero keeps neighbours from overlapping if and only if the test would have let it through |
| `SpanContainer.BrokenStaysBroken` | scripts/convert_otel_2_perfetto.py:72-73 | a list with overlapping neighbours never recovers |
| `SpanContainer.SpanLayoutContainer.BisectStart` | scripts/convert_otel_2_perfetto.py:59 | the bisection finds the first interval that starts at or after the start asked for |
| `SpanContainer.SpanLayoutContainer.BisectLeft` | scripts/convert_otel_2_perfetto.py:73 | the bisection finds the first interval not less than the given one |
| `SpanContainer.SpanLayoutContainer.CheckOverlap` | scripts/convert_otel_2_perfetto.py:58-70 | computes the two-neighbour test the lemmas above are about |
| `SpanContainer.SpanLayoutContainer.InsertSpan` | scripts/convert_otel_2_perfetto.py:72-73 | the list becomes the old one with the interval inserted in order |
| `SpanLayout.RunsAreBooked` | scripts/convert_otel_2_perfetto.py:104-120 | after any run, slot rows and lines correspond one to one, lines are numbered from 1 without gaps, and each is in order |
| `SpanLayout.OpensOnlyWhenAllConflict` | scripts/convert_otel_2_perfetto.py:95-120 | a line is opened if and only if the span cannot stay on its request's line and every existing line of its process conflicts; it gets the next number |
| `SpanLayout.FoundLineIs` | scripts/convert_otel_2_perfetto.py:95-120 | a span whose request has a line stays there, and nothing changes, if it has length zero or the line does not conflict; else it gets the first line without a conflict, and only if there is none a new one with the next number |
| `SpanLayout.FoundLineIsFree` | scripts/convert_otel_2_perfetto.py:95-120 | the line found conflicts with the span if and only if it was taken through the zero-length shortcut over a conflict |
| `SpanLayout.PlaceIsSafeIff` | scripts/convert_otel_2_perfetto.py:95-120 | one placement keeps all lines free of overlaps if and only if they were and it does not take that shortcut |
| `SpanLayout.RunIsSafeIff` | scripts/convert_otel_2_perfetto.py:269-309 | a whole run ends with no stored list having overlapping neighbours if and only if no placement in it took the shortcut over a conflict |
| `SpanLayout.NonZeroRunsAreSafe` | scripts/convert_otel_2_perfetto.py:269-309 | runs without zero-length spans never take it, even with spans that run backwards |
| `SpanLayout.ShownSpansNeverOverlap` | scripts/convert_otel_2_perfetto.py:269-309 | in runs without such a placement any two spans shown for one process on one line are disjoint, whichever requests they belong to |
| `SpanShown.OverlapShownIff` | scripts/convert_otel_2_perfetto.py:269-309 | a run shows two overlapping spans of one process on one line if and only if some placement took the shortcut over a conflict |
| `SpanShown.RequestHeld` | scripts/convert_otel_2_perfetto.py:280-293 | after a request a line holds exactly what it held before and the spans the request was given that line for |
| `SpanShown.FirstSpanTakesFirstFree` | scripts/convert_otel_2_perfetto.py:104-120 | in every run a request's first span on a process takes the first line that does not conflict, or a new one |
| `SpanShown.NextSpanKeepsItsLine` | scripts/convert_otel_2_perfetto.py:96-102 | in every run a request's next span on a process keeps the line of its last one if it has length zero or that line does not conflict, and else takes the first line that does not |
| `SpanShown.StaysUnlessInTheWay` | scripts/convert_otel_2_perfetto.py:96-102 | in a run of forward spans it keeps that line if and only if no span shown there before it overlaps it |
| `SpanShown.TestIsExactInRuns` | scripts/convert_otel_2_perfetto.py:58-70 | in runs of spans that end after they start, whenever a span is placed, the two-neighbour test on any line agrees with a scan of everything the line holds |
| `SpanLayout.ZeroLengthSpanCausesOverlap` | scripts/convert_otel_2_perfetto.py:98-99 | three spans, the second of length zero, of which the first and third overlap on line 1 |
| `SpanOptimal.DepthIsLowerBound` | scripts/convert_otel_2_perfetto.py:295-309 | any overlap-free layout needs a line for each span alive at one instant |
| `SpanOptimal.LinesWithinDepth` | scripts/convert_otel_2_perfetto.py:295-309 | the lines in use never outnumber the spans alive at some start |
| `SpanOptimal.PlacedAsAlone` | scripts/convert_otel_2_perfetto.py:95-120 | spans of a process without lines are placed as on an empty layout, whatever the other processes' lines hold |
| `SpanOptimal.FirstFitIsOptimal` | scripts/convert_otel_2_perfetto.py:295-309 | spans of one process placed in start order, whatever the other processes' lines hold: the number of lines is the largest number alive at one instant and the fewest of any overlap-free layout |
| `SpanOptimal.GatewayLayoutIsOptimal` | scripts/convert_otel_2_perfetto.py:278-309 | the same for the gateway's spans, placed after any engine requests at all |
| `SpanConversion.RecordedRunsAreSafe` | scripts/convert_otel_2_perfetto.py:208-211 | recorded spans, each ended 1000 ns early and none exactly 1000 ns long, are shown without overlap, with matching slot rows |
| `StableSort.SortByIsStableSort` | scripts/convert_otel_2_perfetto.py:270-277 | the sort orders by key, keeps every element, and keeps elements of equal key in their order |
| `SpanGenerator.Span.SetTid` | scripts/convert_otel_2_perfetto.py:262-266 | a span and all its descendants get the line, and nothing else changes |
| `SpanGenerator.Graph.Open` | scripts/convert_otel_2_perfetto.py:116-120 | opens the process's next line with an empty container and its slot row |
| `SpanGenerator.Graph.Scan` | scripts/convert_otel_2_perfetto.py:111-114 | finds the first line, in opening order, without a conflict |
| `SpanGenerator.Graph.Keeps` | scripts/convert_otel_2_perfetto.py:96-102 | decides whether the span stays on its request's line: the process is in the status, and the span has length zero or passes the test |
| `SpanGenerator.Graph.FindLine` | scripts/convert_otel_2_perfetto.py:95-120 | the heap version returns the line, status and layout that `SpanLayout.FoundLineIs` describes and the safety theorems are about |
| `SpanGenerator.Graph.Place` | scripts/convert_otel_2_perfetto.py:282-292 | likewise with the span stored on its line and no other container touched |
| `SpanGenerator.Graph.PlaceSpan` | scripts/convert_otel_2_perfetto.py:282-293 | places an engine span and tags its whole subtree with the line |
| `SpanGenerator.Graph.PlaceRequest` | scripts/convert_otel_2_perfetto.py:280-293 | places a request's spans in order, starting without a line of its own, every subtree tagged |
| `SpanGenerator.Graph.PlaceGatewaySpan` | scripts/convert_otel_2_perfetto.py:298-309 | places one gateway span and tags it alone |
| `SpanGenerator.Graph.PlaceGateway` | scripts/convert_otel_2_perfetto.py:296-309 | places all gateway spans as one request |
| `SpanConversion.PlaceRequests` | scripts/convert_otel_2_perfetto.py:279-293 | all engine requests one after the other give the layout and lines of the run |
| `SpanConversion.SeparateRearranged` | scripts/convert_otel_2_perfetto.py:270-277 | sorting keeps span trees apart: no node comes to belong to two spans |
| `SpanConversion.GenerateLayout` | scripts/convert_otel_2_perfetto.py:269-309 | the conversion leaves the layout, slot rows and tags of the run over the sorted requests and then the sorted gateway spans |
| `SpanConversion.EngineInOrder` | scripts/convert_otel_2_perfetto.py:270-277 | requests are placed in order of their first start, each with its own spans in start order, none lost |
| `SpanConversion.ConversionIsOptimal` | scripts/convert_otel_2_perfetto.py:269-309 | the conversion shows the gateway's spans on the fewest possible lines |
| `EditDistance.NeighboursAreClose` | benchmark/ocr/eval_utils.py:620-629 | neighbouring entries of the table differ by at most one, which is why taking the diagonal on a match loses nothing |
| `EditDistance.WitnessEdits` | benchmark/ocr/eval_utils.py:617-629 | for every entry there is a script that turns one prefix into the other ... |
| `EditDistance.WitnessCost` | benchmark/ocr/eval_utils.py:617-629 | ... at the entry's cost |
| `EditDistance.TableIsLowerBound` | benchmark/ocr/eval_utils.py:617-629 | no script that does so is cheaper |
| `EditDistance.DistanceIsCheapest` | benchmark/ocr/eval_utils.py:617-629 | the distance is the least number of insertions, deletions and substitutions that turn one string into the other |
| `EditDistance.ComposeWorks` | benchmark/ocr/eval_utils.py:617-629 | the composition of two scripts does what they do one after the other |
| `EditDistance.TriangleInequality` | benchmark/ocr/eval_utils.py:617-629 | the distance satisfies the triangle inequality |
| `EditDistance.DistanceIsMetric` | benchmark/ocr/eval_utils.py:617-629 | it is a metric, at least the difference and at most the maximum of the lengths |
| `EditDistance.OneRowDistance` | benchmark/ocr/eval_utils.py:617-629 | the loop over one row, updated in place, computes the distance |
| `EditDistance.RatioInRange` | benchmark/ocr/eval_utils.py:612-631 | the normalised distance is in [0, 1], zero exactly for equal strings, symmetric, and one when just one string is empty |
| `EditDistance.RatioIsCheapest` | benchmark/ocr/eval_utils.py:631 | unless both strings are empty, the ratio times the longer length is the cost of a cheapest script |
| `EditDistance.NothingInCommonScoresOne` | benchmark/ocr/eval_utils.py:605-631 | strings of which no script keeps a character score one |
| `EditDistance.NormalizedEditDistance` | benchmark/ocr/eval_utils.py:605-631 | the reported value times the longer normalised length is the least number of edits, zero exactly for equal normalised strings, in [0, 1] |
| `Workload.RoundsAddUp` | benchmark/hicache/bench_multiturn.py:264-268 | the clients of all rounds together are the planned number of requests |
| `Workload.AboveIsCount` | benchmark/hicache/bench_multiturn.py:264-268 | the count of a round's clients is the size of the set of clients with more rounds than that |
| `Workload.FirstPool` | benchmark/hicache/bench_multiturn.py:293-304 | the pool starts with one question for every planned request but each client's first, and at least one |
| `WorkloadRuns.PlacesStay` | benchmark/hicache/bench_multiturn.py:404-542 | every step keeps each client's request in exactly one place (ready, in hand, in flight, answered, held, on its way) while it has rounds left and has not failed, and in none otherwise |
| `WorkloadRuns.StockSuffices` | benchmark/hicache/bench_multiturn.py:293-304 | every step keeps enough sub-questions for the rounds still to come, so the pool is never popped empty |
| `WorkloadRuns.HandlePlaces` | benchmark/hicache/bench_multiturn.py:437-520 | handling an answer takes its client out of flight, and out altogether unless it continues |
| `WorkloadRuns.FaithfulStays` | benchmark/hicache/bench_multiturn.py:450-516 | every step keeps each waiting request carrying its client's current history |
| `WorkloadRuns.AccountStays` | benchmark/hicache/bench_multiturn.py:404-486 | every step keeps, for each client, sent requests equal to rounds answered plus failures plus those out |
| `WorkloadBarrier.FlightIsBounded` | benchmark/hicache/bench_multiturn.py:407-411 | in every state of every run at most the allowed number of requests is in flight, and no pop from the pool fails |
| `WorkloadBarrier.NoRequestOvertakesItsRound` | benchmark/hicache/bench_multiturn.py:517-542 | barrier safety: with a request of round r + 1 ready, being sent or out, every client of round r has had its round-r answer |
| `WorkloadBarrier.ReleaseIsExact` | benchmark/hicache/bench_multiturn.py:524-542 | a release advances one round, hands out exactly as many requests as the next round has clients, and follows a round without failures |
| `WorkloadBarrier.FailureStopsTheBarrier` | benchmark/hicache/bench_multiturn.py:446-449 | after a failure no later state of the run has a higher barrier round |
| `WorkloadTalk.RequestsCarryTheTalk` | benchmark/hicache/bench_multiturn.py:450-516 | in every state of every run the k-th request of a client carries its first input and then, in turn, its first k answers and the sub-questions after them |
| `WorkloadTalk.HistoriesGrow` | benchmark/hicache/bench_multiturn.py:450-516 | a client's next request is the one before it, the answer to that, and the next sub-question |
| `WorkloadWords.AnswersAreFifo` | benchmark/hicache/bench_multiturn.py:437-445 | in every run the handler takes the server's replies, read off the moves, in the order they arrive |
| `WorkloadWords.RecordsFollowReplies` | benchmark/hicache/bench_multiturn.py:450-516 | once n replies have been handled, each client's round is the number of its successful ones, what was said to it is their outputs and its questions in turn, and the pool has lost its last questions, one for each reply that called for one |
| `WorkloadWords.FirstRequestIs` | benchmark/hicache/bench_multiturn.py:305-359 | a client's first request is its first input |
| `WorkloadWords.NextRequestIs` | benchmark/hicache/bench_multiturn.py:450-516 | a client's next request is the one before it, the output of the server's next successful reply to it, and a question, questions being taken from the end of the pool in the order of the replies that call for them |
| `WorkloadBarrier.DrainedRunIsComplete` | benchmark/hicache/bench_multiturn.py:404-542 | a run without failures that has nothing left has sent every client exactly its rounds, and the planned total |
| `WorkloadProgress.WorkAddsUp` | benchmark/hicache/bench_multiturn.py:404-542 | moves made, empty polls aside, and moves left never add up to more than five for each planned request less one for each client, and to exactly that while nothing has failed |
| `WorkloadProgress.RunsAreBounded` | benchmark/hicache/bench_multiturn.py:404-542 | no run makes more moves than that, empty polls aside, failures or not |
| `WorkloadProgress.StalledRunIsComplete` | benchmark/hicache/bench_multiturn.py:404-542 | a run without failures that can do no more has sent every client exactly its rounds, in exactly that many moves |
| `WorkloadProgress.RunsCanComplete` | benchmark/hicache/bench_multiturn.py:404-542 | every run without failures can be carried on to such an end, with the barrier and without |
| `WorkloadThreads.ResolveBounds` | benchmark/hicache/bench_multiturn.py:235-251 | both bounds if both are given, the one given for both, or the common count for both; at least one and in order, and exactly when they are rejected |
| `WorkloadThreads.PlanRounds` | benchmark/hicache/bench_multiturn.py:264-268 | the loops count the set of clients with more rounds than each round, and the requests in all |
| `WorkloadThreads.ReadyQueue.Append` | benchmark/hicache/bench_multiturn.py:194-196 | the item goes to the end |
| `WorkloadThreads.ReadyQueue.Pop` | benchmark/hicache/bench_multiturn.py:198-209 | one request is taken out, the drawn one or the oldest by policy, the rest keep their order; nothing from an empty queue; an unknown policy is an error |
| `WorkloadThreads.WorkloadGenerator.constructor` | benchmark/hicache/bench_multiturn.py:232-359 | the generator starts in an initial state of the machine, whatever the policy |
| `WorkloadThreads.WorkloadGenerator.CheckLimit` | benchmark/hicache/bench_multiturn.py:407-413 | the sender passes the limit check exactly when fewer are out than allowed |
| `WorkloadThreads.WorkloadGenerator.TakeReady` | benchmark/hicache/bench_multiturn.py:198-209 | taking from the ready queue is a step of the machine; with a request waiting and an unknown policy it raises an error and changes nothing |
| `WorkloadThreads.WorkloadGenerator.StartRequest` | benchmark/hicache/bench_multiturn.py:410-411 | starting the request and counting it is a step of the machine |
| `WorkloadThreads.WorkloadGenerator.FinishRequest` | benchmark/hicache/bench_multiturn.py:390-402 | the answer to a request, good or bad, joins the response queue as a step of the machine |
| `WorkloadThreads.WorkloadGenerator.AppendReady` | benchmark/hicache/bench_multiturn.py:538-539 | passing one released request on is a step of the machine |
| `WorkloadThreads.WorkloadGenerator.Extend` | benchmark/hicache/bench_multiturn.py:450-459 | a client's history grows by what is appended and nothing else changes |
| `WorkloadThreads.WorkloadGenerator.PassOn` | benchmark/hicache/bench_multiturn.py:517-520 | a new request is held under the barrier and else released |
| `WorkloadThreads.WorkloadGenerator.AskNext` | benchmark/hicache/bench_multiturn.py:490-520 | the next question extends the history and becomes a request, held under the barrier, else released |
| `WorkloadThreads.WorkloadGenerator.RecordResponse` | benchmark/hicache/bench_multiturn.py:450-520 | a success extends the history, ends the round and may ask the next question |
| `WorkloadThreads.WorkloadGenerator.CountTowardsBarrier` | benchmark/hicache/bench_multiturn.py:522-542 | the last success of a round releases what was held |
| `WorkloadThreads.WorkloadGenerator.HandleResponse` | benchmark/hicache/bench_multiturn.py:441-542 | the handler's whole work on one answer is a step of the machine |
| `Reenqueue.QueueNeverOverflows` | benchmark/hicache/bench_serving.py:186-190 | in every reachable state the queue is within its bound and no put has blocked, each conversation is queued at most once and exactly when it is waiting, and the concurrency limit holds |
| `Reenqueue.PromptsGoOutInOrder` | benchmark/hicache/bench_serving.py:99-190 | each conversation's prompts go out in order and once each, and a queued conversation holds its finished prompts and replies as alternating messages |
| `Reenqueue.PromptLengthsAreActual` | benchmark/hicache/bench_serving.py:102-106 | the length computed for a request is that of its prompts with the answers received so far; `ReenqueueLog.FirstLength` and `NextLength` give its value |
| `ReenqueueProgress.DispatchesWhatWasPlanned` | benchmark/hicache/bench_serving.py:263-277 | the dispatcher never hands out more than planned; when all is over it has handed out one for each prompt and each conversation without any, less the prompts lost behind failures |
| `ReenqueueProgress.RunsAreBounded` | benchmark/hicache/bench_serving.py:263-277 | no run is longer than three moves for each prompt and two for each conversation without any |
| `ReenqueueProgress.NeverStuck` | benchmark/hicache/bench_serving.py:263-277 | with a prompt in every conversation, some step is possible until all is over |
| `ReenqueueProgress.EveryRunGetsOverIff` | benchmark/hicache/bench_serving.py:263-277 | every run that has come to its end has brought all conversations to theirs if and only if each conversation has a prompt |
| `ReenqueueLog.QueueIsFifo` | benchmark/hicache/bench_serving.py:186-190 | over all runs conversations are dispatched in the order they were put into the queue: all of them first, then each one a reply puts back |
| `ReenqueueLog.RepliesAreReceived` | benchmark/hicache/bench_serving.py:165-190 | a conversation's replies are those of the moves that answered it, in order |
| `ReenqueueLog.ConversationHolds` | benchmark/hicache/bench_serving.py:99-190 | over all runs a conversation that is queued, waiting or running holds for each reply, read off the moves, the prompt and the reply as a user's and an assistant's message, and while running the prompt just sent; answered prompts carry the length of their answer |
| `ReenqueueLog.FirstLength` | benchmark/hicache/bench_serving.py:102-106 | over all runs the length sent with a conversation's first prompt is its planned input length |
| `ReenqueueLog.NextLength` | benchmark/hicache/bench_serving.py:102-106 | over all runs the length sent with prompt k + 1 is the one sent with prompt k, plus the output length of the reply received to it, plus the planned input length of prompt k + 1 |
| `ReenqueueLog.TasksAreLimited` | benchmark/hicache/bench_serving.py:396-410 | over all runs the set of running tasks is never larger than a positive limit |
| `ServingBenchmark.PromptLength` | benchmark/hicache/bench_serving.py:102-106 | the loop computes the length that `PromptLenNext` and the run lemmas above are about |
| `ServingBenchmark.PromptLenNext` | benchmark/hicache/bench_serving.py:102-106 | the first length is the first input; the next adds the output in between and the next input |
| `ServingBenchmark.FlatteningKeepsTheTotal` | benchmark/hicache/bench_serving.py:414-421 | flattening shared prefixes keeps the number of requests |
| `ServingBenchmark.FlattenedIs` | benchmark/hicache/bench_serving.py:414-421 | prompt k of group c becomes a conversation of that prompt alone, at the place after all prompts before it |
| `ServingBenchmark.PrepareRequests` | benchmark/hicache/bench_serving.py:414-421 | counts the requests and flattens on demand, the count being right for what is queued |
| `ServingBenchmark.Benchmark.constructor` | benchmark/hicache/bench_serving.py:460-468 | queueing every conversation, empty ones too, gives an initial state of the machine |
| `ServingBenchmark.Benchmark.DispatchNext` | benchmark/hicache/bench_serving.py:268-277 | takes the front of the queue while requests are planned and one is queued, as a step of the machine |
| `ServingBenchmark.Benchmark.SendPrompt` | benchmark/hicache/bench_serving.py:99-116 | sends the next prompt, or raises an error for a conversation without any, exactly when there is no limit or the set of running tasks is smaller than it, as a step of the machine |
| `ServingBenchmark.Benchmark.FinishPrompt` | benchmark/hicache/bench_serving.py:172-190 | a reply updates length and messages and puts the conversation back, as a step of the machine |
| `ServingBenchmark.Benchmark.FailPrompt` | benchmark/hicache/bench_serving.py:191-197 | a failure drops the conversation, as a step of the machine |
| `TimedQueue.IntendedIsAscending` | benchmark/hicache/bench_mix.py:259-266 | inserting at the position the search finds keeps the queue in order of start |
| `TimedQueue.AsWrittenIsIntendedIff` | benchmark/hicache/bench_mix.py:259-267 | the code inserts there if and only if the queue is empty or somebody in it starts later |
| `TimedQueue.PushKeepsAscendingIff` | benchmark/hicache/bench_mix.py:259-267 | a push keeps an ordered queue ordered if and only if the newcomer does not start after everybody |
| `TimedQueue.LaterUserJumpsTheQueue` | benchmark/hicache/bench_mix.py:267 | with one user waiting, a later one is put in front |
| `TimedQueue.AsWrittenKeepsOthers` | benchmark/hicache/bench_mix.py:259-267 | nobody is lost or duplicated by an insertion |
| `UserRuns.UsersAreUnique` | benchmark/hicache/bench_mix.py:195-276 | over all runs every user is waiting or under way at most once, has a round to go, and asks for a positive number of tokens when the means are positive |
| `UserRuns.PromptsNeverCoincide` | benchmark/hicache/bench_mix.py:213 | over all runs no user's prompt under way is the beginning of another's, because each begins with its user's number |
| `UserRuns.StatisticsAreExact` | benchmark/hicache/bench_mix.py:211-241 | over all runs the statistics of each round are exactly the tokens and the number of the prompts drawn for it and of the answers received in it |
| `UserRuns.StatisticsAddUp` | benchmark/hicache/bench_mix.py:211-240 | over all runs, prompts drawn are users handed out plus users waiting, answers counted are answers given, users counted are users made |
| `UserTalk.UserHoldsItsStory` | benchmark/hicache/bench_mix.py:195-257 | over all runs a user, waiting or under way in round k, holds its number, a space, the prompt drawn for round 0 and then in turn the texts of its k answers and the prompts drawn after them, read off the moves; its rounds, and its token target (the last draw, or the mean of its round) and start (zero, or what its last answer set) |
| `UserTalk.ShowReadsBack` | benchmark/hicache/bench_mix.py:213 | a user's number is shown in decimal digits that read back as the number, without leading zeros |
| `MixedBenchmark.UserGenerator.constructor` | benchmark/hicache/bench_mix.py:152-193 | running sums of the ratios and empty statistics, an initial state of the machine, for a configuration with one entry for each round as lines 113-117 demand |
| `MixedBenchmark.UserGenerator.DrawRounds` | benchmark/hicache/bench_mix.py:199-207 | the first round count whose cumulative ratio exceeds the draw, else all |
| `MixedBenchmark.UserGenerator.MakeUser` | benchmark/hicache/bench_mix.py:195-227 | a user with the next number, the drawn rounds, its number in front of its prompt and a token target with the mean as fallback, counted in both statistics |
| `MixedBenchmark.UserGenerator.Pop` | benchmark/hicache/bench_mix.py:269-276 | the first waiting user if the clock is past its start, and else a new one with the next number, as a step of the machine |
| `MixedBenchmark.UserGenerator.InsertUser` | benchmark/hicache/bench_mix.py:259-267 | the loop inserts as the functions above say the code does |
| `MixedBenchmark.UserGenerator.NextRound` | benchmark/hicache/bench_mix.py:237-257 | the prompt followed by the answer and the drawn prompt, the drawn token target and pause with the round's means as fallbacks, and the prompt counted |
| `MixedBenchmark.UserGenerator.Push` | benchmark/hicache/bench_mix.py:229-267 | an answer ends a round, is counted, and queues the user again if rounds are left, to start after the drawn pause or the round's mean, as a step of the machine |
| `CyclicRefill.KeptAreTheFitting` | benchmark/hicache/data_processing.py:57-84 | an entry is kept if and only if it comes from a turn of the conversation and lies within every bound that is set |
| `CyclicRefill.KeptInOrder` | benchmark/hicache/data_processing.py:57-84 | exactly the turns whose numbers of tokens are within the prompt's and the output's bounds are kept, in their order, each with its prompt, its number of tokens, and its output's or the fixed one |
| `CyclicRefill.SurvivorsInOrder` | benchmark/hicache/data_processing.py:56-87 | exactly the conversations that keep a turn survive, in their order |
| `CyclicRefill.TokensAddUp` | benchmark/hicache/data_processing.py:81-84 | the totals of a list of entries are their own lengths added up |
| `CyclicRefill.AllAddsUp` | benchmark/hicache/data_processing.py:81-87 | the totals of all conversations are those of all their entries in one list |
| `CyclicRefill.PassProgressesIff` | benchmark/hicache/data_processing.py:52-87 | a pass over the data adds something if and only if some conversation keeps a turn |
| `CyclicRefill.LoopEndsIff` | benchmark/hicache/data_processing.py:52-87 | the loop ends if and only if nothing is asked for or some conversation keeps a turn |
| `CyclicRefill.Process` | benchmark/hicache/data_processing.py:56-87 | one conversation: its fitting turns are appended as one entry and counted, or nothing changes |
| `CyclicRefill.VisitCycles` | benchmark/hicache/data_processing.py:52-87 | a pass that starts after whole rounds of the survivors adds one round more, or stops when the result is complete |
| `CyclicRefill.Pass` | benchmark/hicache/data_processing.py:53-87 | one pass, on any data, does what the lemmas about passes speak of and keeps the token totals |
| `CyclicRefill.CommonFilterChat` | benchmark/hicache/data_processing.py:37-91 | exactly the requested number of non-empty entries, entry k being survivor k modulo their number, and token totals that are sums over the result |
| `WheelIndex.PageReadsBack` | scripts/update_nightly_whl_index.py:79-87 | round trip: reading a written page gives back exactly the links written, in order |
| `WheelIndex.PageLines` | scripts/update_nightly_whl_index.py:144-150 | a written page is the doctype, a heading that names the CUDA version, and one line for each link |
| `WheelIndex.LinkCarriesName` | scripts/update_nightly_whl_index.py:95-118 | round trip: the name pattern recovers from a link the name of the wheel it was made for |
| `WheelLinks.LinkReadsBack` | scripts/update_nightly_whl_index.py:95-100 | round trip: the tag, the file name and the hash are recovered from the link, for names without a slash or quote, hashes without a number sign or quote and tags without a quote |
| `WheelIndex.RemoveDuplicates` | scripts/update_nightly_whl_index.py:111-121 | keeps exactly the links with a name that no earlier one carries, in order |
| `WheelIndex.FirstsOfJoined` | scripts/update_nightly_whl_index.py:108-121 | of new and old links, all new ones are kept, followed by the old ones with other names |
| `WheelIndex.UpdateWheelIndex` | scripts/update_nightly_whl_index.py:50-150 | one run fails and leaves both pages alone exactly when it has no wheels, and else writes the updated root page and the package page of its CUDA version and of its tag, which carries the date if there is one, and the commit |
| `WheelIndex.PageListsLatest` | scripts/update_nightly_whl_index.py:79-150 | after any sequence of runs the page lists exactly the latest build of each wheel, once each, with the link of the run that shipped it, newer runs first and each run by name |
| `WheelIndex.NothingIsLost` | scripts/update_nightly_whl_index.py:108-121 | every name any run has shipped stays on the page, in a build at least as new |
| `RootIndex.PageReadsBack` | scripts/update_nightly_whl_index.py:127-140 | round trip: the package pattern finds on a written root page exactly the packages written, in order |
| `RootIndex.PageText` | scripts/update_nightly_whl_index.py:136-140 | the text of a root page: the doctype and a linked line for each package |
| `RootIndex.UpdateRoot` | scripts/update_nightly_whl_index.py:123-140 | the loops collect the packages, add this one and write them sorted |
| `RootIndex.RootKeepsPackages` | scripts/update_nightly_whl_index.py:123-140 | whatever the root page held, afterwards it links to exactly the packages it linked to before and to sglang, each once, ascending |
| `RootIndex.RootIsStable` | scripts/update_nightly_whl_index.py:123-140 | a second run leaves the root page as it is |
| `StableSort.StringLeIsOrder` | scripts/update_nightly_whl_index.py:91 | the order of names is total, antisymmetric and transitive |
| `StableSort.FirstDifferenceDecides` | scripts/update_nightly_whl_index.py:91 | the first character that differs decides, and a prefix comes first |
| `BlockReplace.FoundBlockIsFirst` | docs/scripts/update_lmsys_sglang_blogs.py:241-248 | whenever the text has a block one is found, and it begins and ends no later than any other |
| `BlockReplace.OutsideIsKept` | docs/scripts/update_lmsys_sglang_blogs.py:240-254 | an error exactly when there is no block; else the text up to the start marker and from the end marker on is kept around the cards |
| `BlockReplace.LastReplacementWinsIff` | docs/scripts/update_lmsys_sglang_blogs.py:240-254 | replacing with a and then b is replacing with b if and only if a holds no end marker |
| `BlockReplace.RerunChangesNothingIff` | docs/scripts/update_lmsys_sglang_blogs.py:240-254 | for the source's markers, a rerun with the same cards changes nothing if and only if they hold no end marker |

## Left out

- AllReduceRuns.ReducedIsAccurate: tensors hold reals and the cast is any function with a bounded error on the eight-bit range; bf16 and float32 rounding of sums, and the bit patterns of e4m3, are not modelled.
- SpanConversion.GenerateLayout: a request without spans is required not to occur, because the source fails on it (line 276); span objects must be trees without common nodes, as parsing builds them.
- SpanConversion.ConversionIsOptimal: stated for the gateway's spans of positive length, which are placed as one request in start order; engine requests keep returning to their own line and need more lines in general.
- EditDistance.NormalizedEditDistance: stripping and Unicode normalisation are a function parameter, and the ratio is a real rather than a float.
- WorkloadThreads.WorkloadGenerator.constructor: the sampled prompts and the round counts are parameters; progress bar, heartbeat and performance metrics are not modelled.
- WorkloadProgress.RunsCanComplete: says that the run can go on to its end, not that a fair scheduler takes it there; it asks for at least one parallel request and no failure.
- ReenqueueProgress.NeverStuck: which waiting task the semaphore wakes first is left open, and the five-minute wait for an empty queue is taken not to run out.
- ServingBenchmark.Benchmark.SendPrompt: the error of a conversation without prompts ends its task; that it is raised again when all tasks are gathered is not modelled.
- MixedBenchmark.UserGenerator.Pop: asks for at least one round, because the source fails on an empty list of ratios; random draws, the drawn prompt and the clock are parameters.
- CyclicRefill.CommonFilterChat: asks for a conversation that keeps a turn when requests are wanted, because the source loops for ever otherwise; this is proved to be the exact condition.
- WheelIndex.PageListsLatest: tags, hashes and names hold no angle bracket or newline, names end in .whl and differ within one directory; newline translation on reading is not modelled.
- Aliasing of request payloads with the history list they were made from is not modelled; payloads are copies.
- The four other index scripts under `scripts/` would add easier members of the same kind.
- Checkpoint sharding in `examples/checkpoint_engine/update.py` is a ceiling division and two slices.
- Parsing of trace files, construction of span trees, slices and flow events of the trace viewer.
- Kernels, HTTP requests, timing, tokenizers, sampling, argument parsing, report printing.
