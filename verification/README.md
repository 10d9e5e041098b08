# A verified model of the continuous-batching scheduler, its router caches and the observe loop

The model follows the imperative source: batch formation, the queue, the instance simulator, the
router-side LRU, the scorers and the token bucket are classes and methods that update their fields the
way the source does. Each is tied by its `ensures` to a specification function, and the promises of the
source are lemmas about those functions. The observe dispatch loop, which is concurrent, is a state
machine over its atomic steps.

| file | contents |
|---|---|
| `Arithmetic.dfy`, `Sequences.dfy`, `Requests.dfy`, `Limits.dfy` | products, sequences, the request record, the token grants and boundaries |
| `RunningPass*.dfy` | phase 1 of batch formation: index correction, budget, eviction order, completeness |
| `AdmissionPass.dfy` | phase 2: the scan past deferred requests |
| `Scheduler.dfy`, `SloPriority.dfy` | queue orders; SLO classes and their inversion |
| `Runs.dfy`, `RunPlaces.dfy`, `RunOrder.dfy`, `RunBounds.dfy`, `NoStarvation.dfy`, `MostUrgent.dfy` | whole runs of arrivals, timeouts and steps |
| `RunBlocks.dfy`, `RunOutput.dfy` | the tokens in everybody's KV blocks and the output tokens, counted over whole runs |
| `WaitQueue.dfy`, `KvStore.dfy`, `StoreLog.dfy`, `BatchFormation.dfy` | the objects of one instance, what is asked of the KV store, and FormBatch on them |
| `Simulator.dfy` | the event handlers; every instance is a run of `Runs.dfy` |
| `RecencyOrder.dfy`, `PrefixCache.dfy`, `PrefixIndex.dfy` | LRU as a sequence; the linked list and its map; the index |
| `PrefixAffinity.dfy`, `NoHitLru.dfy`, `Routing.dfy` | the two stateful scorers and weighted routing |
| `TokenBucket.dfy` | token-bucket admission |
| `ObserveProtocol.dfy`, `ObserveOrder.dfy`, `ObserveProgress.dfy` | main loop, dispatch goroutines, serializer, channels, session counter; how the two request streams are merged; deadlock freedom and termination |

How the scheduler part fits together. `RunningPass.Run` and `AdmissionPass.Admissions` are the two phases
as functions of what the KV store answered (how often it refused before each allocation, and its verdict
on each queued request). `BatchFormation.FormBatch`, on mutable objects and with a store that answers as
it likes within its contract, ends exactly where these functions end, for the answers it got. The store
keeps a ghost log of every question and answer, and `StoreLog` says what that log must be: every allocation
with its first and last token, every cached prefix, every reloadable prefix, in order.
`Runs.Next` is one event of an instance as a function. `Simulators.Simulator` keeps a ghost history of its
events, and its invariant says that its objects show `Runs.After` of that history. What is proved of all
legal histories is therefore proved of the objects; `Simulators.NobodyStarves`, `Simulators.Lifecycle` and
`Simulators.BlocksCoverProgress` say it of the objects' own fields.

Findings, kept as the code has them:

- Phase 1 completeness under priority preemption (INV-12 in docs/contributing/standards/invariants.md)
  does not hold in general. When the served request is its own least urgent victim, the pass breaks and
  requests behind it get no token although budget is left (`RunningPassOrder.SelfEvictionSkipsTheRest`).
  Exactly when it holds is proved for every batch and every budget
  (`RunningPassCompleteness.CompletenessWithinBudget`): passes that leave some budget serve everybody,
  whatever the KV store answers, if and only if no request within reach of the step's budget is less urgent
  than one behind it. Within reach means that what the requests ahead of it ask of this one step is less
  than the budget. `RunningPassCompleteness.CompletenessExactly` drops the proviso on the budget.
- A running request's blocks do not always hold its progress. An allocation during decode writes a single
  token whatever range it is asked for (sim/kv/cache.go:227-229), so a speculative grant of several tokens runs
  ahead of the blocks (`RunBlocks.SpeculationOutrunsBlocks`); and a prompt found whole in the prefix cache
  has no new token to allocate, so the allocation succeeds without taking over the cached blocks
  (sim/kv/cache.go:255-262, `RunBlocks.WholePromptHoldsNothing`). They hold exactly the progress if and only if
  neither happened since the request's admission (`RunBlocks.BlocksHoldProgress`), which is always so without
  speculation and shared prefixes (`RunBlocks.OrdinaryIsExact`). They never hold more, but for the one token of
  an empty prompt.
- The `ComputedTokens` table is not confined to running requests: nothing deletes the entry of a request
  that completes (sim/simulator.go:1157-1275). Its keys are exactly the running and the completed ids.
- The comment at sim/event.go:187-189 says that a preempted, queued request still has an entry; the entry
  is deleted on preemption (sim/batch_formation.go:521).
- The observe loop counts a session once, at its first pre-generated request, and takes it off the count
  whenever one of its requests comes back without a follow-up. Normal exits keep all follow-ups if and only
  if no two pre-generated requests belong to one session (`ObserveProtocol.LosesNothingExactly`). A mixed
  workload has such a source: open-loop multi-turn clients keep all their rounds in it, under one session
  id each, beside the first rounds of closed-loop sessions (sim/workload/generator.go:477-488). The session
  manager answers every open-loop round with nothing (sim/workload/session.go:121-131), so the count runs
  out while closed-loop sessions go on (`ObserveProtocol.MixedSourceLosesFollowUp`).

## Model

| member | source | states |
|---|---|---|
| Limits.GrantStopsAtBoundary | sim/batch_formation.go:156-211 | a running request short of its boundary is granted at least one token whenever budget is left, never more than the budget, and never past the lower of its completion index and maxModelLen - 1, for any speculative proposal |
| Limits.GrantIsLargest | sim/batch_formation.go:156-211 | a positive n is within the running grant exactly if it stays below maxModelLen and, in prefill, within prompt, budget and threshold; in decode it is one token without a proposal, and otherwise within proposal, budget and the last output token |
| Limits.PrefillIsLargest | sim/batch_formation.go:378-402 | a positive n is within a new request's grant exactly if, from the end of its computed prefix, it stays within prompt, budget, threshold and model window |
| Limits.TransferGrantFloor | sim/batch_formation.go:285-345 | a transferred decode request is never granted 0 because of a boundary, and passes one by at most one token |
| Limits.TransferIsLargest | sim/batch_formation.go:285-345 | within the budget, a transferred request may get one token always, and more exactly as its proposal, its last output token and the model window allow |
| RunningPass.PriorityVictimIsLeastUrgent | sim/batch_formation.go:543-557 | the victim is a least urgent request, by priority and then arrival, and the last one among equals |
| RunningPass.EvictForSound | sim/batch_formation.go:446-531 | wherever the victims sat, the corrected index keeps pointing at the request being served until that request is itself evicted, and order, cursor and budget invariants survive every eviction |
| RunningPass.RunSound | sim/batch_formation.go:134-224 | in any phase 1: the batch is the old batch without the evicted, in order; what lies before the cursor is exactly the surviving visited requests, each visited once; tokens granted plus budget left are the step's budget, refunds included, and the budget is never negative |
| RunningPassOrder.FcfsNeverRefunds | sim/batch_formation.go:446-531 | under fcfs, evictions cut the tail of the batch and touch neither cursor, budget nor any grant: refund and index adjustment are dead, and the served request survives exactly while fewer are refused than stand behind it |
| RunningPassOrder.FcfsRun | sim/batch_formation.go:143-224 | under fcfs the surviving batch followed by the evicted, last one first, is the old batch, and every grant is exactly what is due with the budget the earlier ones left |
| RunningPassOrder.PriorityRun | sim/batch_formation.go:446-557 | in priority mode no survivor is less urgent than anybody evicted, and the evicted, put back at the queue head, stand most urgent first |
| RunningPassOrder.SurvivorsStayWithin | sim/batch_formation.go:156-211 | no survivor of a pass is carried past its boundary |
| RunningPassOrder.SelfEvictionSkipsTheRest | sim/batch_formation.go:170-174 | three running decodes, ample budget, and the third gets nothing because the second evicted itself |
| RunningPassCompleteness.CompletenessWithinBudget | sim/batch_formation.go:149-224 | for both policies, every batch short of its boundaries and every budget: all passes that leave budget serve every survivor, whatever the store answers, if and only if nobody within reach of the budget is less urgent than somebody behind it (vacuous under fcfs) |
| RunningPassCompleteness.CompletenessExactly | sim/batch_formation.go:149-224 | with no proviso: all passes serve every survivor if and only if what all but the last ask of one step is below the budget and, in priority mode, the batch stands in urgency order |
| RunningPassCompleteness.FcfsServesEveryone | sim/batch_formation.go:149-224 | fcfs serves every survivor in every pass that leaves budget, and in every pass whose budget reaches the last request |
| AdmissionPass.ScanCandidate | sim/batch_formation.go:226-300 | the request under the scan cursor is the next one of the queue phase 2 began with, not yet admitted |
| AdmissionPass.AdmissionsSound | sim/batch_formation.go:226-438 | in any phase 2 the admitted are a subsequence of the queue; whoever was left ahead of an admitted one is deferred; the skipped prefix and everything behind keep their order; tokens granted plus budget left are what phase 1 left over |
| AdmissionPass.QueueIsRest | sim/batch_formation.go:425-438 | the queue after phase 2 is the queue before it without the admitted |
| AdmissionPass.AdmissionsWithinSeqs | sim/batch_formation.go:259-262 | however phase 2 goes, the batch never grows beyond the sequence limit |
| AdmissionPass.ScanStops | sim/batch_formation.go:262-414 | the scan is closed only by a request that is not deferred and whose adapter is not resident or which the store refused |
| AdmissionPass.AdmittedAreReady | sim/batch_formation.go:262-283 | nobody is admitted while deferred, and no prefill before its adapter is resident |
| Scheduler.OrderQueue | sim/scheduler.go:17-77 | sorting in place ends in the stable order by key, arrival and id; fcfs leaves the storage alone |
| Scheduler.SortSorted | sim/scheduler.go:28-76 | on distinct ids the result is strictly increasing in the comparator and a rearrangement of the input |
| Scheduler.QueueDirection | sim/scheduler.go:28-76 | which way each order runs: smallest priority value, shortest prompt or largest priority value first, then earlier arrival |
| Scheduler.QueueOrderIsCanonical | sim/scheduler.go:28-76 | every arrangement of the same requests is ordered to one sequence, so where preemption put its victims leaves no trace after the next OrderQueue |
| SloPriority.NewSLOPriorityMap | sim/slo_priority.go:46-62 | fails exactly when an override is out of range; otherwise the defaults with the overrides on top, and maxPri is the maximum of all of them and the default |
| SloPriority.InvertedFromZero | sim/slo_priority.go:93-95 | inverted values are never negative and some class has 0, for every override map |
| SloPriority.DefaultInversion | sim/slo_priority.go:27-95 | the default classes: what each becomes for vLLM, which are sheddable, and that unknown classes count as standard |
| SloPriority.PriorityFcfsIsDescendingSlo | sim/scheduler.go:26-41 | with priorities from InvertForVLLM, PriorityFCFS serves by descending SLO priority and by arrival among equals, so nobody sheddable is ahead of somebody who is not |
| WaitQueues.WaitQueue.PrependFront | sim/queue.go:65-70 | the request becomes the head, the rest keeps its order |
| WaitQueues.WaitQueue.Remove | sim/queue.go:103-111 | removes the first occurrence, by identity, and says whether there was one |
| WaitQueues.WaitQueue.Reorder | sim/queue.go:89-98 | the queue in the scheduler's order |
| KvStores.KVStore.AllocateKVBlocks | sim/kv/cache.go:182-372 | a refusal changes no blocks; a success adds the tokens written to the request's own, in exactly as many blocks as they take up, the new ones taken from free blocks, a newcomer starting from the shared ones; a single-tier store succeeds if and only if there is room |
| KvStores.KVStore.RoomInNumbers | sim/kv/cache.go:182-260 | there is room for a holder if the blocks its new tokens spill over to fit beside the used ones, for a newcomer if those of its own tokens fit beside the used and the shared ones |
| KvStores.KVStore.ReleaseKVBlocks | sim/kv_store.go:5-18 | releasing empties the request's holdings and nobody else's |
| KvStores.KVStore.UsedWithinCapacity | sim/kv_store.go:5-18 | used blocks never exceed the capacity |
| BatchFormation.SelectPriorityVictim | sim/batch_formation.go:543-557 | the loop finds exactly the specified victim |
| BatchFormation.TryAllocate | sim/batch_formation.go:449 | the store is asked for exactly the tokens from the request's progress to the end of its grant; a refusal leaves objects and blocks alone, a success adds those tokens to its blocks |
| BatchFormation.ComputedPrefix | sim/batch_formation.go:351-376 | the credited prefix is the number of blocks the store returned times the block size, or the end it reported as reloadable if that is further; without prefix caching the store is not asked and nothing is credited |
| BatchFormation.PreemptForTokens | sim/batch_formation.go:446-531 | the eviction loop on objects ends as the specified evictions end, after one refused allocation of the granted range per eviction, and a final successful one if the request survives; the caller's index minus the adjustment still points at the request if and only if it may be scheduled; the empty-batch circuit breaker is never reached |
| BatchFormation.Evict | sim/batch_formation.go:476-522 | one eviction: the victim leaves the batch, heads the queue, is reset, holds no blocks, loses its table entry, and its grant of this pass is refunded |
| BatchFormation.ServeRunning | sim/batch_formation.go:134-224 | phase 1 on objects is the specified pass, run to its end, for the refusals it met; the store was asked for exactly the ranges granted, and everybody's blocks have the tokens written for him; under fcfs with room for a lone request the head of the batch is not evicted |
| BatchFormation.DequeueAdmitted | sim/batch_formation.go:425-438 | takes the candidate out of the queue at its place, whether or not somebody was skipped |
| BatchFormation.AdmitWaiting | sim/batch_formation.go:226-422 | phase 2 on objects is the specified scan, run to its end, for the verdicts it got; the verdicts, with the prefix credited to each request, are what the store answered, question by question; it stops for pressure only at a request that was refused and not set aside |
| BatchFormation.FormBatch | sim/batch_formation.go:125-425 | both phases on objects end where the specifications end: batch, queue, every request's fields, the token table, the blocks, and the store's whole log of questions and answers; without prefix caching and reloads every newly admitted request that is not a transfer is billed for every token it is taken to; a nil batch is a fresh empty one |
| Runs.StepConserves | sim/batch_formation.go:125-425 | a step moves live requests and completes some, but loses and doubles none |
| Runs.RunConserves | sim/simulator.go:839-853 | at every reachable state each arrived request is exactly one of running, waiting, completed and timed out, once |
| RunOrder.FormingKeepsLine | sim/batch_formation.go:259-531 | under fcfs without deferral, batch followed by queue is the same sequence before and after FormBatch |
| RunOrder.FcfsIsArrivalOrder | sim/scheduler.go:17-21 | at every reachable state under fcfs the live requests, batch first, stand in enqueue order: no preempted request loses its place |
| RunBounds.NoOvershoot | sim/request.go:159-177 | at every reachable state a request that is not a transferred decode stands at most at its last index, a running one before it, and it completes exactly there: prompt plus output minus one, or the prompt without output, or maxModelLen - 1 if that is lower; a transferred one passes by at most one token |
| RunBounds.RunningWithinSeqs | sim/batch_formation.go:259-262 | at every reachable state at most maxSeqs requests run |
| RunBlocks.BlocksHoldProgress | sim/kv/cache.go:182-372 | at every reachable state the blocks of a running request hold at most its progress, and exactly that if and only if every step since its admission was exact: no decode grant of several tokens, no prompt credited whole; an empty prompt holds one token more |
| RunBlocks.OrdinaryIsExact | sim/kv/cache.go:182-372 | without speculative proposals and shared prefixes every run is exact |
| RunBlocks.SpeculationOutrunsBlocks | sim/kv/cache.go:227-229 | a run in which a request is 36 tokens in and 17 are in its blocks |
| RunBlocks.WholePromptHoldsNothing | sim/kv/cache.go:255-262 | a run in which a request is 16 tokens in and holds no block |
| RunOutput.CompletedInFull | sim/request.go:159-177 | counted over the run, one token with the end of the prompt and the others by decode grants, a completed request has put out all its output tokens, or as many as the model window leaves room for |
| NoStarvation.HeadIsServed | sim/batch_formation.go:149-224 | the first running request is never evicted under fcfs and is granted at least one token |
| NoStarvation.HeadMoves | sim/batch_formation.go:143-422 | in every step the first live request stays first and has more progress |
| NoStarvation.EveryoneLeaves | sim/batch_formation.go:143-224 | once as many steps have run as the boundaries of the first n live requests add up to, all n have left, whatever arrives, times out or is preempted meanwhile |
| MostUrgent.PassServesOrShortens | sim/batch_formation.go:143-224 | in priority mode a pass that leaves budget serves the most urgent request of the batch or takes out somebody ahead of it, and never takes out that request |
| MostUrgent.MostUrgentIsServedAgain | sim/batch_formation.go:143-422 | in priority mode the most urgent request of the batch, at position k, is granted tokens within the next k + 1 steps, whatever arrives, times out or is refused meanwhile |
| Simulators.ExecuteBatch | sim/simulator.go:1104-1139 | the forward pass moves every batch member to its target, adds step latency plus token time per token for decoding members that were granted tokens, and marks a finished prefill |
| Simulators.ProcessCompletions | sim/simulator.go:1157-1275 | exactly those at their last index, in the inputs' own numbers, complete and give their blocks back; the others remain in order, with their past |
| Simulators.CompleteOne | sim/simulator.go:1157-1240 | a request at its completion index is given room for its last output token first, if it has one to come; then its blocks are released |
| RunPlaces.PreemptionShutsAdmission | sim/batch_formation.go:259-262 | a step that preempts anybody admits nobody |
| Simulators.TableKeys | sim/batch_formation.go:218-222 | after a step the token table's keys are the running and the completed ids |
| Simulators.Simulator.Enqueue | sim/event.go:67-79 | which requests are timed out already, dropped, past due or queued; a step at the time of the event is scheduled exactly if none was pending and somebody waits, and nothing else of the instance changes |
| Simulators.Simulator.ReserveTransferredKV | sim/cluster/instance.go:466-478 | the prompt of a request prefilled elsewhere is in its blocks and counts as its progress, or nothing has changed; a single-tier store refuses exactly without room |
| Simulators.Simulator.EnqueueTransferred | sim/simulator.go:660-689 | a transferred request joins the tail at its progress; a step at the time of the event is scheduled exactly if none was pending and nobody runs |
| Simulators.Simulator.CannotServe | sim/simulator.go:541-640 | drops exactly negative budgets, prompts that fill the model window, budgets beyond it, and prompts larger than the cache |
| Simulators.Simulator.Step | sim/simulator.go:839-853 | one step is Runs.Next for the answers the store gave, and the store was asked exactly what batch formation and completion ask; every request's latency log, first-token mark and schedule step follow from it; phase 1 is over, and does not evict everybody when each request fits alone; the invariants hold again; the next step is pending exactly when somebody runs, or waits and no adapter load is in flight; a load is in flight exactly if one was or this step started one |
| Simulators.Simulator.Timeout | sim/event.go:165-227 | a live request leaves batch or queue, everybody else keeping place and progress, and its state becomes timed out; a queued one is no longer deferred; a finished one is left alone; a step is scheduled exactly if the batch is empty, somebody waits and none was pending; the invariants hold again |
| Simulators.Simulator.CompleteLoad | sim/simulator.go:1009-1031 | after an adapter load none is in flight, and a step is scheduled exactly if none was pending and somebody waits |
| Simulators.Lifecycle | sim/request.go:29-38 | Running if and only if in the batch, Queued if and only if in the queue, then at progress 0 without a table entry unless transferred; a running request's entry is its progress |
| Simulators.BlocksCoverProgress | sim/kv/cache.go:182-372 | of the objects: in an exact history a running request holds the blocks its progress takes up, with less than one to spare; without prefix caching and speculation every history is exact |
| Simulators.BatchWithinSeqs | sim/batch_formation.go:259-262 | of the objects: the running batch never outgrows maxSeqs |
| Simulators.TerminalForGood | sim/event.go:165-170 | completed and timed-out requests stay so, whatever event comes next |
| Simulators.NobodyStarves | sim/batch_formation.go:143-224 | of the objects: under fcfs with a model window that fits the cache, everybody among the first n arrivals is completed or timed out once as many further steps have run as their boundaries add up to |
| RecencyOrder.RecentIsByLastTouch | sim/prefix_cache_index.go:110-129 | the recency order is the distinct entries of a history in decreasing order of their last touch |
| RecencyOrder.KeepsMostRecent | sim/prefix_cache_index.go:110-141 | after any history the cache is the capacity most recently touched distinct entries, in that order |
| RecencyOrder.MatchMonotone | sim/prefix_cache_index.go:67-81 | raising the capacity never shortens a match |
| RecencyOrder.MatchIsLongest | sim/prefix_cache_index.go:67-81 | the match is the longest cached prefix |
| PrefixCache.LruBlockCache.RemoveNode | sim/prefix_cache_index.go:160-176 | unlinking any node, first, middle, last or only, leaves the list of the others |
| PrefixCache.LruBlockCache.PushHead | sim/prefix_cache_index.go:144-157 | the node becomes the first of the list, and its last if it was empty |
| PrefixCache.LruBlockCache.EvictOldest | sim/prefix_cache_index.go:135-141 | at capacity the tail is a node, and it leaves list and map; the panic is unreachable |
| PrefixCache.LruBlockCache.Touch | sim/prefix_cache_index.go:110-125 | pointers and map together do what touching does to the recency order |
| PrefixCache.LruBlockCache.ListAndMapAgree | sim/prefix_cache_index.go:127-134 | list and map hold the same blocks; next and prev are inverse; the tail is nil if and only if the map is empty; the size never exceeds the capacity |
| PrefixIndex.ComputeBlockHashes | sim/internal/hash/hash.go:38-65 | one chained hash per full block |
| PrefixIndex.HashesTellPrefix | sim/internal/hash/hash.go:16-65 | two prompts agree on a block hash if and only if they agree on all tokens up to its end, and then on every earlier hash |
| PrefixIndex.PrefixCacheIndex.MatchLength | sim/prefix_cache_index.go:67-81 | the loop finds the longest cached prefix and changes no recency |
| PrefixIndex.PrefixCacheIndex.InstanceBlockCount | sim/prefix_cache_index.go:101-107 | the number of cached blocks, never more than the capacity |
| PrefixIndex.PrefixCacheIndex.RecordBlocks | sim/prefix_cache_index.go:85-99 | touches every hash in turn at this instance and leaves every other instance alone |
| PrefixIndex.PrefixCacheIndex.HoldsMostRecent | sim/prefix_cache_index.go:9-39 | what an instance's pointers hold is the most recent distinct hashes of its whole history |
| PrefixAffinity.PrefixScorer.Score | sim/routing_prefix_scorer.go:30-48 | every instance scores the share of the prompt it has cached, and nothing is recorded |
| PrefixAffinity.PrefixScorer.Observe | sim/routing_prefix_scorer.go:50-62 | the target, and only it, is touched by the prompt's hashes; the memoised ones are right when equal ids mean equal tokens |
| PrefixAffinity.RoutedPromptSticks | sim/routing_prefix_scorer.go:30-62 | a prompt of 1 to capacity blocks scores exactly 1 where it was just sent |
| PrefixAffinity.SharedBlocksScore | sim/routing_prefix_scorer.go:30-62 | a prompt sharing its first k blocks scores at least k over its number of blocks there |
| PrefixAffinity.OversizedPromptScoresZero | sim/routing_prefix_scorer.go:30-62 | a prompt of more blocks than fit scores 0 where it was just sent |
| NoHitLru.NoHitLruScorer.Score | sim/routing_nohit_lru_scorer.go:30-108 | warm or unanswerable requests are neutral and leave the order alone; a cold one prunes departed instances and scores by rank; order and set stay in step |
| NoHitLru.NoHitLruScorer.Observe | sim/routing_nohit_lru_scorer.go:110-132 | only the cold request just scored moves its target to the front; no duplicates arise |
| NoHitLru.RankingIsPermutation | sim/routing_nohit_lru_scorer.go:62-107 | the ranking is a rearrangement of the instances, and scores go by rank |
| NoHitLru.ScoresFallEvenly | sim/routing_nohit_lru_scorer.go:62-107 | of n instances the one at rank r scores (n - 1 - r)/(n - 1) |
| NoHitLru.NextIsUnusedOrOldest | sim/routing_nohit_lru_scorer.go:86-107 | the first in the ranking is the first never-used instance if there is one, otherwise the one used longest ago |
| NoHitLru.ColdRequestsSpread | sim/routing_nohit_lru_scorer.go:62-132 | up to n cold requests over n fixed instances, warm ones interleaved at will, go to different instances |
| Routing.CompositeIsWeightedSum | sim/routing.go:190-205 | over distinct instances the composite is the weighted sum of the clamped scores |
| Routing.SelectBest | sim/routing.go:207-230 | the choice has a highest score, and is the first such without a generator |
| Routing.WeightedScoring.Route | sim/routing.go:184-243 | scores come from the state before the call; the target is an argmax; after it the target's prefix cache has been touched by the prompt and scores 1 for it (0 if it fills no block or too many), every other instance is unchanged, and a cold request's target is most recently used |
| Routing.NoHitAloneFollowsRotation | sim/routing.go:184-243 | with no-hit-lru alone a cold request's argmax is unique: the next of the rotation |
| Routing.WeightedScoring.RouteStretch | sim/routing.go:184-243 | routing a stretch of requests with no-hit-lru alone: up to n cold ones over n instances go to different instances, and n of them to each once, warm ones and random draws interleaved at will |
| TokenBucket.TokenBucket.Admit | sim/admission.go:47-61 | refill, then pay if there is enough; tokens stay between 0 and the capacity |
| TokenBucket.WindowBound | sim/admission.go:47-61 | any window of calls with non-decreasing clocks admits at most the capacity plus the refill rate times the seconds between its first and its last call |
| TokenBucket.AdmitsExactlyConforming | sim/admission.go:32-61 | a bucket that starts full admits a whole stream if and only if no stretch of it asks for more than the capacity plus the refill over that stretch |
| ObserveProtocol.StepKeepsInvariant | cmd/observe_cmd.go:1046-1251 | every atomic step keeps the counter equal to the live session requests, the order of both request streams, one index per flight and the channel bounds |
| ObserveProtocol.RunKeepsInvariant | cmd/observe_cmd.go:1073-1251 | the same over every interleaving, when sessions are distinct and OnComplete returns at most one follow-up, with a session |
| ObserveProtocol.NormalExitLosesNothing | cmd/observe_cmd.go:1175-1214 | a normal exit means the source is exhausted, every pre-generated request and every follow-up was dispatched exactly once, in order, each under its own index, and no session request is on its way anywhere |
| ObserveOrder.EarlierIsChosen | cmd/observe_cmd.go:1175-1214 | with a follow-up and a pre-generated request at hand, the main loop takes the one that arrives earlier, and the follow-up on a tie |
| ObserveOrder.DueFollowUpGoesFirst | cmd/observe_cmd.go:1175-1214 | over all runs: a pending follow-up is dispatched before any pre-generated request still to come that does not arrive before it or a follow-up ahead of it |
| ObserveOrder.EarlierPreGenGoesFirst | cmd/observe_cmd.go:1175-1214 | over all runs: a pre-generated request is dispatched before every later follow-up, if it and all pre-generated ones ahead of it arrive earlier |
| ObserveProgress.NoDeadlock | cmd/observe_cmd.go:1046-1251 | for every source and at least one slot: until the main loop exits, some step that needs no new follow-up is possible, although all channels are bounded and the main loop reads none while it holds a request |
| ObserveProgress.RunFlows | cmd/observe_cmd.go:1046-1251 | for every source: the counter never exceeds the live session requests, a waiting main loop has an active session or a wakeup on its way, and between a drain and the next dispatch at most twice the slots plus one completions are on their way |
| ObserveProgress.StepsBounded | cmd/observe_cmd.go:1046-1251 | over every interleaving: a run has at most 2 + 13 steps per pre-generated request + 15 per follow-up |
| ObserveProgress.EveryRunCanExit | cmd/observe_cmd.go:1046-1251 | every run with at least one slot can be completed, without new follow-ups and within that many steps, to one whose main loop has exited |
| ObserveProtocol.ExitIsFinal | cmd/observe_cmd.go:1069-1092 | after a normal exit no step creates or dispatches anything |
| ObserveProtocol.LosesNothingExactly | cmd/observe_cmd.go:1141-1214 | for every source, any number of slots and an OnComplete that returns at most one follow-up: all normal exits keep all follow-ups if and only if no two pre-generated requests belong to one session |
| ObserveProtocol.MixedSourceLosesFollowUp | cmd/observe_cmd.go:1141-1214 | behind a session manager, whose ended sessions stay ended, every source with a shared session and a session of its own has a normal exit that loses a follow-up |
| ObserveProtocol.SharedSessionLosesFollowUp | cmd/observe_cmd.go:1141-1214 | behind a session manager, two pre-generated requests of one session and one slot: the loop exits with a follow-up in its channel |

## Left out

- KvStores.KVStore.AllocateKVBlocks: the contract is that of the single-tier store with a block-counting body; reloading and deferring stores may refuse as they like, and what such a store moves between tiers before it refuses is not modelled. Ref counts, block contents and hashes of sim/kv are not part of this model, so which prefix is cached is the store's choice. A decode allocation for a request without any output indexes past its output tokens (sim/kv/cache.go:229); here it writes one token. That a non-deferring store never refuses a lone request what fits is part of the contract; with sim/simulator.go:186-199 it is what the progress proof rests on.
- Simulators.Simulator.EnqueueTransferred: follows its reservation at once; what happens at the instance while the transfer is in flight is not modelled.
- NoStarvation.EveryoneLeaves: excludes transferred decode requests, the cold-load gate and offload deferral. Waiting transferred requests hold blocks, so a lone running request can be refused.
- MostUrgent.MostUrgentIsServedAgain: for steps whose phase 1 leaves some budget and does not evict everybody; the latter is part of the contract of Simulators.Simulator.Step.
- TokenBucket.WindowBound: over exact reals; floating-point rounding is not modelled. The same goes for the scores of Routing and NoHitLru.
- PrefixIndex.ComputeBlockHashes: a block hash is modelled as the prefix that determines it, so hash collisions do not exist.
- Scheduler.OrderQueue: the library's stable sort is written out as an insertion sort.
- ObserveProtocol.RunKeepsInvariant: runs without cancellation; the drain after it, pacing and recording are not modelled. After the exit nobody reads the follow-up channel any more.
- Simulators.Simulator.Step: step latency and the time of a token are inputs, and so is the speculative proposal (at least one token; the carry that yields it is only reset); metrics beyond inter-token latency and the first-token mark, session callbacks and the choice of which adapter to load are inputs or left out. An adapter load is a flag raised by a step and lowered by its completion.
- Simulators.Simulator.Enqueue: requires an id no earlier request had and a fresh request; the tables keyed by id rely on that in the source as well.
- Priority is fixed when a request is built; the source sets it once at enqueue.
- Token counts are unbounded integers; 64-bit wrap-around is not modelled.
- Routing.WeightedScoring.Route: the stateless scorers and the cache queries are inputs; duplicate scorer names are refused by the source's validation and by the constructor's precondition.
- Round-robin, least-loaded and always-busiest routing, tier shedding and tenant budgets: stateless or easy.
- Command line, configuration, trace files, the HTTP client, the cluster layer and workload generation.
