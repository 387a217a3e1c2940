# EvalPulse in Dafny

EvalPulse accepts evaluation jobs over HTTP, queues them on a Redis stream, runs each of them on a pool of
workers (one model call per target model), stores the results and offers a regression gate for CI. This project
models that program and proves what it guarantees, for every input and every run, and where a guarantee ends.

| Part | Files | What is modelled |
|---|---|---|
| Job protocol | `RedisStream`, `Protocol`, `ProtocolInvariants`, `NodeInvariants` | The stream and its consumer group; API submissions, worker processes with their read and reclaim loops, semaphore, WaitGroup and contexts, one task per delivered message. A state machine: an event is one step of one participant, a disabled event does nothing, so every sequence of events is a run. Calls may succeed, fail, or succeed unseen; processes may crash. |
| Protocol guarantees | `NoLoss`, `Recovery`, `Durability`, `ExclusiveHolding`, `TimedRuns`, `TimedSlots`, `SlotUse`, `Shutdown`, `Draining`, `Runs`, `OvertakenRun` | No loss, no state from which a job cannot be finished, final records, exclusive holding and, with a clock, the windows that give it, how long a slot can be held, what a shutdown signal stops and that a signalled worker can drain; two concrete runs that show where the guarantees end. |
| Worker and API | `Worker`, `Submission`, `ReclaimWindow` | The statements of one worker goroutine and of the submission handler as imperative classes over the same state; the two dispatch loops on one semaphore and the reclaim window. |
| Store | `Retention`, `JobStore` | The bounded cache and the bounded recency index as classes with the ideal unbounded map as ghost state. |
| Scoring | `Text`, `Similarity`, `Rounding`, `Scorer` | Normalising, tokenising, cosine similarity of token frequencies, drift and alerts. |
| Aggregation and gate | `Metrics`, `Aggregation`, `Gate`, `GateThreshold`, `GateAccuracy`, `AlertWitness`, `GateWindow`, `GateStore` | Per-model accumulators and reports, percentiles, the gate's verdict, what can influence it. |
| Cost and budget | `Pricing`, `Runner`, `Submit`, `Budget`, `SimulatedSpending` | Rate cards, the parallel fan-out and the job record, request validation, the chain from actual cost to the server's cap, and what simulated calls do to it. |
| Shared | `Records`, `Ordering`, `Sets` | Job records; orders, sorting, permutations; finite sets. |

Scores, costs and drifts are exact reals; latencies, token counts and times are integers. What comes from outside is
a parameter: how a call to Redis or to a provider ends, the Unicode classes of characters, which endpoint URLs are
valid, the byte length of a string, and the square root inside the cosine (any number whose square is right).

## Where the program falls short of what it says

For each of these the exact condition is proved, for all inputs, and an input or a run that meets it is given.

- **Acknowledged does not mean final** when a message has two holders: `markRunning` overwrites whatever is stored
  (`cmd/worker/main.go:262-278`). Over a run the records of acknowledged and about-to-be-acknowledged messages stay final
  exactly if no holder marks such a message running (`Durability.AckedStaysFinalIff`); runs that reclaim only messages
  nobody holds are safe (`ExclusiveHolding.ExclusiveRunsStayFinal`), and so are runs whose slots work and whose reclaim
  window is one of the safe ones below (`TimedSlots.SafeWindowStaysFinal`, with the shipped defaults
  `DefaultsStayFinal`); `OvertakenRun.OvertakenHolderOverwrites` is a run that ends with an acknowledged, completed job
  shown as running for good.
- **The floor of the reclaim window is too low.** A worker's read loop and reclaim loop wait for the same slots, and a
  claim takes a message that is idle for the window or longer. A window is safe exactly if it is longer than
  `(ceil(2 * batch / slots) + 1)` worst-case slot occupancies (`ReclaimWindow.NeverStolenIff`); twice the model timeout,
  the floor in `internal/config/config.go:69-73`, never is (`FloorNeverSuffices`). The defaults are safe
  (`DefaultsSuffice`).
- **Trimming can drop accepted jobs**: the next `XADD` can discard an unsettled message exactly if one lies that far
  beyond the newest 50,000 entries (`NoLoss.NextAddMayLoseIff`); Redis trims whole nodes of entries, and for every node
  size some run loses a whole node of accepted jobs (`AcceptedJobCanBeLost`).
- **The server's budget cap bounds every job exactly if it is at least 1.00**: a request without a budget gets 1.00
  unchecked (`cmd/api/handlers.go:227-234`), although `docs/api/openapi.yaml:378-385` says a cap never exceeds the
  server's (`Budget.ServerCapHoldsIff`).
- **Recorded costs can exceed estimate and cap** when calls are simulated, as they are without an API key: a simulation
  reports at least 10 prompt tokens, 15 for a short prompt (`internal/models/provider.go:566-573`). The budget chain covers
  simulations exactly if the job names an output limit and the prompt has enough bytes for its words
  (`SimulatedSpending.SimulationIsWithinIff`); a job stays within its estimate exactly if the output its simulated calls
  did not use, and what its other calls saved, pay for the excess (`SpendingWithinEstimateIff`); the prompt "hi" with 100
  output tokens does not (`SimulatedJobExceedsCap`).
- **The gate sees only the 500 newest jobs**: newer jobs without graded results are invisible exactly if they push no
  graded result out of that window (`GateWindow.UngradedJobsInvisibleIff`); 500 stored jobs without graded results, newer
  than all with some, make the handler answer "passed" whatever the others hold (`GateStore.StoredJobsBlindTheGate`).
- **Alert and gate disagree**, because the gate judges the rounded average of rounded scores: the gate passes although a
  graded result raised an alert exactly if some raw score is below 0.874 and no model's rounded average is
  (`GateAccuracy.GatePassesAlertsIff`, per model `AlertsOnPassingModelIff`). Two answers scored 0.8 and 1.0 do that
  (`SpreadAnswersPass`), and on a single answer exactly a raw score from 0.8735 up to 0.874 (`AlertPassesGateIff`), such as
  70 times "a" and 39 times "b" where "a" is expected (`AlertWitness.AlertedAnswerPassesGate`).
- **Some accepted thresholds never fail**: of the thresholds the gate accepts, exactly the numbers below 100 let it fail at
  all (`GateThreshold.CanFailIff`). With 100 or `NaN`, which passes the range check, every report passes
  (`NaNIsAccepted`), and with `NaN` the answer has no body (`Gate.HandleRegressionCheck`).

## Model

| member | source | states |
|---|---|---|
| `RedisStream.XAddValid` | internal/queue/redis.go:69-94 | Adding an entry, trimming the oldest beyond the cap, keeps every added message undelivered, pending, acknowledged or trimmed, and undoes no delivery or acknowledgement |
| `RedisStream.XReadGroupValid` | internal/queue/redis.go:96-118 | A group read hands out only never-delivered entries, makes them pending, and keeps the same accounting |
| `RedisStream.ReadTakesTheFirst` | internal/queue/redis.go:96-118 | A read takes at most 5 undelivered entries, the smallest ids first, and leaves exactly the others undelivered |
| `RedisStream.ScanTakesTheFirst` | internal/queue/redis.go:132-143 | A claim takes at most 10 pending ids, none of them delivered after its cutoff; it leaves one it may take only if it took 10 smaller ones, and what was delivered no later than one it takes, it may take too |
| `RedisStream.ReadStartsIdleTime` | internal/queue/redis.go:96-118 | The idle time of a message starts with its delivery: no claim with an earlier cutoff takes it |
| `RedisStream.ClaimStartsIdleTime` | internal/queue/redis.go:132-143 | The same of a claimed message |
| `RedisStream.XAutoClaimValid` | internal/queue/redis.go:132-143 | A claim moves pending messages to a new holder with a new delivery count and drops only ids whose entry was trimmed |
| `RedisStream.XAckValid` | internal/queue/redis.go:120-123 | An acknowledgement takes the message off the pending list for good |
| `RedisStream.XDelValid` | internal/queue/redis.go:125-130 | Deleting an acknowledged entry keeps every pending id in the stream |
| `NodeInvariants.KeepsLeaseInv` | cmd/worker/main.go:129-300 | Every event keeps messages, deliveries and tasks consistent: a task's delivery is current or overtaken, acknowledged messages are settled, and history only grows |
| `NodeInvariants.KeepsSubmitInv` | cmd/api/handlers.go:287-324 | A job is on the stream at most once, and only after its queued record was attempted |
| `NodeInvariants.KeepsCancelInv` | cmd/worker/main.go:239-246 | Once a model call of a run saw cancellation its node's job context stays cancelled, so its record never reaches the save |
| `NodeInvariants.KeepsNodeInv` | cmd/worker/main.go:83-127 | Semaphore and WaitGroup count exactly the node's goroutines and the dispatcher's held slot; a drained or crashed node has neither loops nor goroutines |
| `NodeInvariants.Reachable` | cmd/worker/main.go:44-300 | All invariants hold in every state of every run |
| `NoLoss.NoMessageLost` | cmd/worker/main.go:237-300 | In every reachable state each message ever added is undelivered, pending with its entry intact, settled (final record saved or dead-lettered) or trimmed |
| `NoLoss.AcceptedJobNotLost` | cmd/api/handlers.go:291-309 | A job answered 202 through the stream is recoverable, has had a final record saved, or is dead-lettered, as long as nothing is trimmed |
| `Recovery.AlwaysRecoverable` | cmd/worker/main.go:129-260 | From every reachable state each message still recoverable can be brought to its end: one new worker that meets no failure, reads and claims full batches and works off the older messages first, completes its job, or dead-letters it if undecodable, whatever other workers hold |
| `Recovery.AcceptedJobCanComplete` | cmd/api/handlers.go:291-309 | While nothing is trimmed an accepted job is finished or dead-lettered, or such a worker completes it |
| `Recovery.JunkCanBeDeadLettered` | cmd/worker/main.go:210-236 | From every reachable state an undecodable entry that is added can be brought to the dead-letter stream |
| `NoLoss.PendingIsSound` | cmd/worker/main.go:292-300 | Pending ids are in the stream unless trimmed; pending, undelivered and acknowledged messages are disjoint |
| `NoLoss.LostReplyLeavesPending` | cmd/worker/main.go:129-180 | A read or claim whose reply is lost delivers all the same: its messages are pending for the node by a delivery no task holds |
| `NoLoss.AckedNeverReturns` | cmd/worker/main.go:292-300 | An acknowledged message stays so and is never delivered or reclaimed again, whatever other holders still do |
| `NoLoss.NextAddMayLoseIff` | internal/queue/redis.go:79-82 | The next XADD may discard an unsettled message if and only if one lies among the oldest entries beyond the cap |
| `NoLoss.AcceptedJobCanBeLost` | internal/queue/redis.go:79-82 | For every node size there is a run in which a whole node of accepted jobs is neither on the stream, nor finished, nor dead-lettered, with the stream back at its cap |
| `Durability.StepStaysFinalIff` | cmd/worker/main.go:262-278 | One event breaks "acknowledged means final" if and only if a second holder marks a committed message running |
| `Durability.AckedStaysFinalIff` | cmd/worker/main.go:237-257 | Over a whole run every committed message has a final record in every state if and only if no such overwrite happens |
| `Durability.OneAckAway` | cmd/worker/main.go:280-300 | Once a committed record is lost, an acknowledged message lacks a final record now or after one successful XACK |
| `ExclusiveHolding.ExclusiveMeansOneHolder` | cmd/worker/main.go:154-180 | If reclaiming only takes messages nobody holds, no message ever has two holders and none is acknowledged before its holder gets to it |
| `ExclusiveHolding.ExclusiveRunsStayFinal` | cmd/worker/main.go:237-300 | In such runs every acknowledged message has a completed or failed record, or is dead-lettered, in all later states |
| `TimedRuns.WindowMeansExclusive` | cmd/worker/main.go:154-180 | With a clock: if every holder is done before its message is a window old, and claims wait for the window, then claims only take messages nobody holds |
| `TimedRuns.WindowedRunsStayFinal` | internal/config/config.go:69-73 | In such runs every acknowledged message has a final record, or is dead-lettered, in every state from then on |
| `TimedSlots.StartsAhead` | cmd/worker/main.go:185-208 | In every run with fair slots, fewer goroutines than twice its batch start at a node while a delivered message waits there |
| `TimedSlots.RoundsStart` | cmd/worker/main.go:185-208 | If no slot is held for longer than R and none idles while a message waits, every R of waiting starts one goroutine per slot |
| `TimedSlots.TaskAge` | cmd/worker/main.go:154-208 | So in such a run no message, waiting or running, is held for longer than ceil(2 batch / C) + 1 maximum occupancies after its delivery |
| `SlotUse.SlotTimeWithin` | cmd/worker/main.go:210-288 | By the time limits of its calls no goroutine of any run holds its slot for longer than the model timeout and two persist timeouts, and one more for each panic |
| `SlotUse.SlotTimeReached` | cmd/worker/main.go:237-278 | A job's goroutine may take all of that time without a panic |
| `TimedSlots.SafeWindowIsKept` | internal/config/config.go:69-73 | A window that is never stolen from, by the rows on `ReclaimWindow`, has every holder of the run done in time |
| `TimedSlots.SafeWindowStaysFinal` | cmd/worker/main.go:159-168 | With it, no message of the run ever gets a second holder, and every acknowledged message stays final or dead-lettered |
| `TimedSlots.DefaultsStayFinal` | internal/config/config.go:42-49 | This holds of every such run with the shipped defaults |
| `OvertakenRun.OvertakenHolderOverwrites` | cmd/worker/main.go:262-278 | A run of two nodes after which an acknowledged, completed job is stored as running with nothing pending |
| `Shutdown.NoCancelledResultStored` | cmd/worker/main.go:239-257 | No record of a run in which a model call saw cancellation is ever stored |
| `Shutdown.DrainedIsFinal` | cmd/worker/main.go:83-127 | When drain has returned the node has no task left and none ever starts again |
| `Draining.SignalStopsStarts` | cmd/worker/main.go:185-197 | After the signal no goroutine is started: whatever else happens, those a node runs it ran before |
| `Draining.SignalStopsReading` | cmd/worker/main.go:129-131 | After the signal no read begins |
| `Draining.SignalStopsReads` | cmd/worker/main.go:129-131 | After the signal at most the read that is under way is answered; no second one follows |
| `Draining.OnlySignalStops` | cmd/worker/main.go:129-163 | Without a signal no loop of a node leaves or gives up a batch, and the node does not drain |
| `Draining.OnlyDeadlineCancels` | cmd/worker/main.go:86-126 | No model call sees cancellation unless its node drains and the drain deadline passed |
| `Draining.GiveUpLeavesPending` | cmd/worker/main.go:185-197 | A dispatch that gives up drops its batch and the slot it may hold and changes nothing in Redis |
| `Draining.SignalledReclaimerMayClaim` | cmd/worker/main.go:161-168 | When timer and signal are both there the reclaimer may still claim, but nothing of it is ever started |
| `Draining.SignalledNodeCanDrain` | cmd/worker/main.go:79-127 | From every state a signalled node can be in, short of its crash, it can drain without a crash, a panic, a failed call or new work |
| `Draining.CrashEndsEverything` | cmd/worker/main.go:154-156 | A crash ends all tasks of the node for good and changes nothing in Redis or in the store |
| `Shutdown.ConcurrencyIsBounded` | cmd/worker/main.go:185-208 | A node never runs more goroutines than it holds slots, nor more than its concurrency |
| `Shutdown.LeaseNeverVanishes` | cmd/worker/main.go:182-246 | A delivered message stays held until acknowledged, or was given up and is still pending for its node, delivered again, acknowledged by another holder after settling, or trimmed |
| `Worker.WorkerEngine.DeleteEntry` | cmd/worker/main.go:296-299 | The entry goes exactly if the call took effect; records, dead letters and the pending list stay |
| `Worker.WorkerEngine.AckAndDelete` | cmd/worker/main.go:290-300 | Acknowledge, then delete only after a successful acknowledgement; nothing else changes |
| `Worker.WorkerEngine.DeadLetterMessage` | cmd/worker/main.go:280-288 | The message is acknowledged only after it was added to the dead-letter stream |
| `Worker.WorkerEngine.SaveAndAck` | cmd/worker/main.go:241-257 | After cancellation neither the record nor the stream changes; otherwise the result is stored exactly if the save took effect, and acknowledged only after a save that was seen to succeed |
| `Worker.WorkerEngine.Evaluate` | cmd/worker/main.go:237-246 | The drain deadline may pass during the run: that cancels it, and stream, records and dead letters stay |
| `Worker.WorkerEngine.ProcessJob` | cmd/worker/main.go:210-260 | For every outcome of its calls, lost and unseen ones included, record, dead letters and pending list afterwards: a panic dead-letters, a cancelled run leaves the message pending, a finished run is stored and then acknowledged |
| `Worker.WorkerEngine.ProcessMessage` | cmd/worker/main.go:210-260 | For every message and every outcome, record, finals, dead letters and pending list afterwards: a job that neither panics nor is cancelled is never dead-lettered, its result is stored exactly if the save took effect; a message leaves the pending list only when its record is saved or it is dead-lettered |
| `Submission.Server.TryEnqueue` | cmd/api/handlers.go:313-324 | Publishing succeeds exactly if Redis is configured and the append was seen to succeed; an append that took effect unseen leaves the job on the stream all the same |
| `Submission.Server.RunLocally` | cmd/api/handlers.go:328-333 | A job gets a slot of the local executor or is refused |
| `Submission.Server.SubmitJob` | cmd/api/handlers.go:278-309 | For every outcome of its calls, record, stream, finals and answer afterwards: on the stream, run locally, or refused and then recorded as failed exactly if that save took effect |
| `Submission.Server.FinishLocalRun` | cmd/api/handlers.go:342-349 | A local run ends with its record stored exactly if the save took effect |
| `ReclaimWindow.Config.Normalize` | internal/config/config.go:58-74 | Unusable settings become 1 slot, 30 seconds and 10.00, usable ones are left alone, and the reclaim window is raised to the floor only when below it |
| `ReclaimWindow.Grant` | cmd/worker/main.go:185-208 | The front request gets a slot that frees no later than any other, and that slot alone is taken |
| `ReclaimWindow.Dispatch` | cmd/worker/main.go:79-84 | Two loops on one semaphore, one outstanding request each, served first come, first served: every request of the batch is granted once and in order, and the other loop never twice in a row while the batch waits |
| `ReclaimWindow.AheadOf` | cmd/worker/main.go:185-208 | Message k of a batch has at most 2k + 1 requests ahead of it |
| `ReclaimWindow.StartsBy` | cmd/worker/main.go:185-208 | A request starts within the completed rounds of the requests ahead of it |
| `ReclaimWindow.StartsNoEarlier` | cmd/worker/main.go:185-208 | That bound is reached when every job takes its maximum |
| `ReclaimWindow.DelayIsRounds` | cmd/worker/main.go:185-208 | The bound is floor(k / C) times the maximum occupancy |
| `ReclaimWindow.NeverStolenIff` | cmd/worker/main.go:159-168 | With both loops at work, no message gets idle for the window while its live holder waits or runs if and only if the window is longer than ceil(2 batch / C) + 1 maximum occupancies |
| `ReclaimWindow.FloorNeverSuffices` | internal/config/config.go:69-73 | Twice the model timeout is never such a window, since a slot is also held during two persist timeouts |
| `ReclaimWindow.DefaultsSuffice` | internal/config/config.go:42-49 | 25 slots, 30 s and 300 s are safe for batches of 5 and of 10, with the other loop competing |
| `Retention.InsertEvictIff` | internal/storage/store.go:128-138 | Insert-then-evict keeps the best entries of everything ever inserted, also for an id evicted before, if and only if it moves no kept entry below an omitted one |
| `Retention.KeepsUnique` | internal/storage/store.go:148-152 | With a strict ranking there is one collection of the best |
| `Retention.Evict` | internal/storage/store.go:371-384 | Eviction drops exactly the overflow, lowest first |
| `Retention.Descending` | internal/storage/store.go:364-368 | Sorting lists every value once, highest first |
| `Retention.FirstPage` | internal/storage/store.go:197-211 | The head of the sorted cache is a page of the ideal unbounded collection |
| `Retention.PageUnique` | internal/storage/store.go:197-211 | Without ties there is only one page |
| `JobStore.RedisDb.SaveJob` | internal/storage/store.go:140-155 | SET, ZADD and rank trimming: the record is stored, the index evicts its lowest ranks and stays exactly the top of all jobs iff no indexed job moves below a dropped one |
| `JobStore.RedisDb.List` | internal/storage/store.go:214-244 | A list is the records, in order, of those of the highest ranks over all jobs ever saved whose record is still there |
| `JobStore.PickedAreStored` | internal/storage/store.go:232-241 | So a listed job is exactly a stored one of these ranks, and there are as many as ranks with a record: expired ones are skipped, others are not |
| `JobStore.RankByMilli` | internal/storage/store.go:148-152 | Ranks go by the millisecond of creation, and within one by the id |
| `JobStore.HybridStore.EvictOldest` | internal/storage/store.go:371-384 | The cache keeps its newest 5000 jobs |
| `JobStore.HybridStore.SaveInMemory` | internal/storage/store.go:133-138 | The latest version is cached and the cache stays the newest part of the ideal store iff no cached job becomes older than an evicted one |
| `JobStore.HybridStore.SaveJob` | internal/storage/store.go:128-156 | An empty id is refused without effect; memory is always updated; Redis is updated exactly when the transaction took effect, and the answer says whether it was seen to |
| `JobStore.HybridStore.GetJob` | internal/storage/store.go:158-181 | From Redis comes the latest version that reached it, otherwise the latest version this process saved; nothing is found exactly if the job was never saved, or was evicted because 5000 jobs at least as new are kept |
| `JobStore.HybridStore.ListJobs` | internal/storage/store.go:183-212 | A page of the ideal store: from Redis the records still there of the highest ranks, from memory by creation time, 20 jobs when no limit is given |
| `JobStore.SameTimeStays` | internal/storage/store.go:128-156 | Saves that keep a job's creation time meet both conditions above |
| `JobStore.RunsKeepTheTop` | internal/storage/store.go:128-156 | After any run of saves that date no job back, cache and index are exactly the newest 5000 jobs ever saved, however ties are evicted |
| `JobStore.IndexIsExactlyTheTop` | internal/storage/store.go:148-152 | The index is determined by the jobs ever saved: the 5000 greatest pairs of millisecond and id |
| `JobStore.RankedPageIsNewest` | internal/storage/store.go:214-244 | With distinct milliseconds a page by rank is a page by creation time |
| `JobStore.ListsAgree` | internal/storage/store.go:183-244 | Then, with every save in Redis and nothing expired, Redis and memory give the same list |
| `Text.SplitJoin` | internal/eval/scorer.go:140-143 | Splitting inverts joining on lists of non-empty words without separators |
| `Text.SplitAppend` | internal/eval/scorer.go:140-143 | A separator ends one part and starts the next |
| `Text.SplitWord` | internal/eval/scorer.go:140-143 | A word without separators is split into itself |
| `Text.SameNormalFormIff` | internal/eval/scorer.go:140-143 | Two texts have the same normal form if and only if their lower-cased words are the same |
| `Text.BlankIff` | internal/eval/scorer.go:104-109 | A normal form is empty exactly for texts of spaces only |
| `Text.NormalizeIdempotent` | internal/eval/scorer.go:140-143 | Normalising twice is normalising once |
| `Text.NormalizeKeepsTokens` | internal/eval/scorer.go:183-188 | The tokens of the normalised text are the tokens of the lower-cased original |
| `Text.TokenizeAppend` | internal/eval/scorer.go:183-188 | Whatever is no letter or digit ends one token and starts the next |
| `Text.TokenizeWord` | internal/eval/scorer.go:183-188 | Letters and digits alone are one token |
| `Text.WordCharGivesToken` | internal/eval/scorer.go:183-188 | A text with a letter or digit has a token |
| `Similarity.Frequencies` | internal/eval/scorer.go:154-165 | The frequency map counts every token |
| `Similarity.SumParts` | internal/eval/scorer.go:167-174 | The three sums are dot product and squared norms, whatever the order of the words |
| `Similarity.CosineParts` | internal/eval/scorer.go:151-174 | The same for two token lists |
| `Similarity.CauchySchwarz` | internal/eval/scorer.go:167-180 | dot squared is at most the product of the squared norms, with equality if and only if the frequency vectors are proportional |
| `Similarity.QuotientIsScore` | internal/eval/scorer.go:176-180 | The quotient by the two exact square roots is the score |
| `Similarity.ScoreRange` | internal/eval/scorer.go:146-181 | The score lies in [0, 1] and is 1 exactly for non-empty proportional texts |
| `Similarity.ScoreUnique` | internal/eval/scorer.go:146-181 | The token frequencies determine the score |
| `Similarity.ScoreIsSymmetric` | internal/eval/scorer.go:146-181 | Response and ground truth may change places |
| `Similarity.ScoreOfRepeatedText` | internal/eval/scorer.go:146-181 | Repeating a text k times keeps the score |
| `Rounding.RoundIff` | internal/storage/store.go:359-362 | Rounding yields n if and only if the value lies within half of n, the half nearer to zero excluded |
| `Rounding.RoundToIsClose` | internal/storage/store.go:359-362 | A rounded value is off by at most half a step |
| `Scorer.Evaluate` | internal/eval/scorer.go:101-138 | A result is graded exactly if the ground truth holds a character that is no space; it matches exactly if and only if the normalised ground truth stands somewhere in the normalised response; the alert is raised exactly below 95 percent of the baseline |
| `Scorer.GradedCardIsNearest` | internal/eval/scorer.go:121-138 | A graded card reports the nearest thousandth of the similarity and the nearest tenth of a percent of the loss against 0.92 |
| `Scorer.UngradedScoreCounts` | internal/eval/scorer.go:116-119 | An ungraded score is 0.70 plus 0.002 for each word of the response, from 150 words on 1 |
| `Scorer.GradedScoreRange` | internal/eval/scorer.go:121-136 | A graded score lies in [0, 1] and its drift between that of a perfect answer and 100 percent |
| `Scorer.UngradedScoreRange` | internal/eval/scorer.go:114-119 | Against every blank ground truth the score lies between 0.70 and 1 |
| `Scorer.EqualTextsScoreOne` | internal/eval/scorer.go:104-129 | Equal normal forms with a letter or digit score exactly 1, match exactly and raise no alert |
| `Scorer.NormalizingFirstChangesNothing` | internal/eval/scorer.go:104-119 | Normalising the response beforehand changes no graded evaluation |
| `Metrics.PercentileIsNearestRank` | internal/storage/store.go:346-357 | The picked sample has at least ceil(p n / 100) samples at or below it and fewer strictly below |
| `Metrics.AddResult` | internal/storage/store.go:283-301 | One pass of the inner loop keeps each accumulator equal to the filter-and-fold of its model's results |
| `Metrics.Accumulate` | internal/storage/store.go:280-302 | The loops accumulate exactly the results of all jobs per model |
| `Metrics.Summarize` | internal/storage/store.go:305-328 | A row reports counts, percentiles, rounded averages, cost and status of exactly its model's results |
| `Metrics.AggregateModelMetrics` | internal/storage/store.go:269-333 | One report per model with results, strictly sorted by model |
| `Ordering.LexByFirstDifference` | internal/storage/store.go:331 | The order of the reports: the first different character decides, and a prefix comes first |
| `Aggregation.ReportedPercentiles` | internal/storage/store.go:314-320 | P50, P95 and P99 are nearest-rank percentiles of the latencies in the order they came in, and are ordered |
| `Aggregation.ReportsAgree` | internal/storage/store.go:269-333 | The report is a function of the results as a multiset: neither their order nor map iteration shows |
| `Aggregation.JobOrderDoesNotMatter` | internal/storage/store.go:269-333 | Permuting the jobs leaves the report unchanged |
| `Aggregation.EveryResultIsCounted` | internal/storage/store.go:306-309 | The evaluation counts add up to the number of results |
| `Aggregation.CountsByMessage` | internal/storage/store.go:283-309 | A row counts all results of its model, those with an error message as failed and the graded ones without as graded |
| `Aggregation.ResultsOfJobs` | internal/storage/store.go:280-281 | The results aggregated are those of the jobs, none left out and none counted twice |
| `Aggregation.EveryJobIsCounted` | internal/storage/store.go:269-333 | So the evaluation counts add up to the results the jobs recorded, and every model with a result has a report |
| `Aggregation.CostIsConserved` | internal/storage/store.go:296-311 | The models' unrounded costs add up to the jobs' recorded totals, the reported ones up to half a millionth per row |
| `Runner.BuiltRecordsAddUp` | internal/runner/runner.go:114-140 | The same for all jobs whose records the runner built |
| `Gate.Threshold` | cmd/api/handlers.go:404-412 | A threshold is accepted exactly if it is absent, in (0, 100] or NaN; an absent one is 5 |
| `GateThreshold.NaNIsAccepted` | cmd/api/handlers.go:404-412 | NaN is accepted and no report fails it |
| `GateThreshold.CanFailIff` | cmd/api/handlers.go:404-436 | Of the accepted thresholds exactly the numbers below 100 are failed by some report on scores in [0, 1] |
| `Gate.RegressionCheck` | cmd/api/handlers.go:420-455 | The loop computes exactly the failing graded models, the largest drift and the counts; status and exit code follow |
| `Gate.HandleRegressionCheck` | cmd/api/handlers.go:403-457 | A bad threshold is refused; otherwise the verdict is that of the aggregated 500 newest jobs of the store, and it loses its body exactly for NaN |
| `Gate.PassesIff` | cmd/api/handlers.go:423-436 | The gate passes if and only if no graded model's drift exceeds the threshold |
| `Gate.FailingIff` | cmd/api/handlers.go:430-432 | A model is listed as failing if and only if its drift exceeds the threshold |
| `Gate.MaxDriftIsMax` | cmd/api/handlers.go:421-429 | The reported drift bounds every graded model's drift and is reached by one, or is 0 |
| `Gate.ReportedDrift` | cmd/api/handlers.go:452-461 | The reported maximum is within 0.05 of the largest drift |
| `Gate.AggregatesGiveRows` | internal/storage/store.go:324-327 | The rows the gate reads are exactly the models with graded results and their rounded averages |
| `Gate.OnlyGradedResultsMatter` | cmd/api/handlers.go:400-441 | Two result lists with the same graded successful results, in any order, get the same verdict in every field |
| `Gate.NoiseIsInvisible` | cmd/api/handlers.go:423-426 | Inserting failed, simulated or ungraded results anywhere leaves the graded ones as they were |
| `GateAccuracy.AverageIsAccurate` | internal/storage/store.go:324-326 | The reported average is within 0.001 of the mean of the unrounded scores |
| `GateAccuracy.StatusFollowsScores` | internal/storage/store.go:335-344 | A model is critical, degraded or stable as its graded scores average below 0.6995, below 0.8495 or not, and ungraded without any |
| `GateAccuracy.GateIsAccurate` | cmd/api/handlers.go:428-432 | For a model whose exact drift is more than 0.1 / 0.92 points from the threshold the gate decides as without rounding |
| `GateAccuracy.AlertsOnPassingModelIff` | cmd/api/handlers.go:428-432 | One of a model's graded results raised an alert and yet the model does not fail if and only if some raw score is below 0.874 and its rounded average is not |
| `GateAccuracy.GatePassesAlertsIff` | cmd/api/handlers.go:423-436 | The gate passes although some graded result raised an alert if and only if some raw score is below 0.874 and no model's rounded average is |
| `GateAccuracy.SpreadAnswersPass` | cmd/api/handlers.go:428-432 | Of two answers scored 0.8 and 1.0 the first raises an alert, and the gate passes |
| `GateAccuracy.AlertPassesGateIff` | internal/eval/scorer.go:124-136 | A single graded result raises an alert and passes the gate if and only if its raw score lies in [0.8735, 0.874) |
| `AlertWitness.WitnessScore` | internal/eval/scorer.go:146-181 | 70 times "a" and 39 times "b" against "a" score 70 / sqrt(6421), which lies there |
| `AlertWitness.AlertedAnswerPassesGate` | cmd/api/handlers.go:428-432 | So this answer raises an alert, and the gate passes on it |
| `GateWindow.UngradedJobsInvisibleIff` | internal/storage/store.go:261-267 | Newer jobs without graded results leave the graded results in view unchanged if and only if they push none out |
| `GateWindow.UngradedJobsKeepVerdict` | internal/storage/store.go:261-267 | Then the verdict is unchanged |
| `GateWindow.NewerJobsBlindTheGate` | internal/storage/store.go:261-267 | 500 newer jobs without graded results at the head of a list make the gate pass with no graded model |
| `GateStore.StoredJobsBlindTheGate` | cmd/api/handlers.go:403-457 | For the list the store gives the handler, from Redis or from memory: 500 stored jobs without graded results, each from a later millisecond than every job with some, make it answer "passed" with no graded model |
| `GateWindow.WindowCountsAllIff` | internal/storage/store.go:258-267 | The reported graded counts cover all graded results if and only if none lies beyond the window |
| `Pricing.PricingKeys` | internal/eval/scorer.go:58-73 | All keys once, longest first, then alphabetically |
| `Pricing.Load` | internal/eval/scorer.go:22-73 | Package initialisation yields the rate table with its keys in lookup order |
| `Pricing.KeyOrderIsUnique` | internal/eval/scorer.go:58-73 | That order does not depend on how the map is iterated |
| `Pricing.LookupIsMostSpecific` | internal/eval/scorer.go:75-84 | The chosen card belongs to the most specific key contained in the name; the default is used exactly when no key matches |
| `Pricing.CardIsForLowered` | internal/eval/scorer.go:75-84 | A name gets the card of the most specific key its lower-case form contains |
| `Pricing.CaseDoesNotMatter` | internal/eval/scorer.go:75-99 | A name and its lower-case form get the same card and cost the same |
| `Pricing.CardIsUnique` | internal/eval/scorer.go:75-84 | There is only one such card |
| `Pricing.CostIsMonotone` | internal/eval/scorer.go:86-99 | More tokens never cost less, and no token count, negative ones included, makes a cost negative |
| `Pricing.CostIsAdditive` | internal/eval/scorer.go:94-98 | A million prompt or completion tokens cost the card's rate, and costs add up |
| `Runner.FanOut` | internal/runner/runner.go:41-58 | Under every interleaving, panics included, the results are those of calling the models one after the other |
| `Runner.BuildRecord` | internal/runner/runner.go:108-149 | The winner is the earliest successful result that none beats by score, then latency; no winner and status failed exactly for a non-empty job without success; the total is the cost of the successes |
| `Runner.WinnerIsUnique` | internal/runner/runner.go:121-125 | There is at most one such winner |
| `Runner.Run` | internal/runner/runner.go:38-149 | The record says call by call what happened: latency, tokens, price at these tokens and evaluation of each response, no numbers for a failure; the bill is the responses' costs, failed means that every call failed, and the winner is the first of the fastest of the best |
| `Runner.RecordIsDetermined` | internal/runner/runner.go:38-61 | The outcomes of the calls determine the record |
| `Runner.SlotFailsIff` | internal/runner/runner.go:49-80 | A call fails if and only if it panics, answers nothing, or returns an error with a message |
| `Runner.SlotCountsIff` | internal/runner/runner.go:82-87 | A result counts for the gate if and only if it is a real response to a job with a ground truth; any other has no alert and no drift |
| `Runner.UncountedJobIsInvisible` | internal/runner/runner.go:82-87 | A job that only failed, was simulated or has no ground truth leaves the gate's graded results unchanged |
| `Submit.CleanModels` | cmd/api/handlers.go:199-211 | The loop yields the first occurrences of the non-blank trimmed identifiers, or reports one that is too long |
| `Submit.CleanIsDistinct` | cmd/api/handlers.go:199-211 | Cleaning keeps every non-blank identifier, adds none and leaves each once |
| `Submit.CleanInOrder` | cmd/api/handlers.go:199-211 | The cleaned identifiers stand in the order of their first occurrences |
| `Submit.TrimDropsSpaces` | cmd/api/handlers.go:183-184 | Trimming drops spaces at both ends and nothing else |
| `Submit.AcceptableIff` | cmd/api/handlers.go:182-243 | A request has no problem if and only if it is within every limit |
| `Submit.NormalizedKeeps` | cmd/api/handlers.go:182-243 | What an accepted request becomes: prompt, ground truth and keys stay, the suite id loses its surrounding spaces, no identifier is lost, and only what was not given is filled in |
| `Submit.SubmitJobRequest.Normalize` | cmd/api/handlers.go:182-243 | A request is accepted if and only if it has no problem, otherwise its first problem in the order of the checks is reported, and an accepted request carries the defaults |
| `Submit.EstimateCostUSD` | internal/runner/runner.go:151-160 | The estimate adds each target model's cost at len/4 + 1 prompt tokens and full output |
| `Submit.HandleSubmit` | cmd/api/handlers.go:245-263 | A job is taken on if and only if its request is acceptable and its estimate within its own cap |
| `Budget.SpendingWithinEstimate` | internal/runner/runner.go:108-126 | A job's recorded total never exceeds its estimate while no call reports more tokens than assumed |
| `Budget.BudgetChain` | cmd/api/handlers.go:256-263 | For every job taken on: actual cost, estimate, the job's cap, and the server's cap when that is at least 1.00 |
| `SimulatedSpending.SimulationIsWithinIff` | internal/models/provider.go:566-573 | A simulated call meets the chain's hypothesis if and only if the job names an output limit and the prompt has 56 bytes, or for more than seven words four bytes for each of their tokens but one |
| `SimulatedSpending.SimulatedCompletionTokens` | internal/models/provider.go:569-573 | A simulation reports 140 completion tokens, or the job's limit if that is positive and smaller: the fallback limit never shows |
| `SimulatedSpending.CostIsLinear` | internal/runner/runner.go:151-160 | The same tokens for every model cost them what they cost at the sums of the models' rates |
| `SimulatedSpending.SpendingWithinEstimateIff` | internal/models/provider.go:548-586 | A job stays within its estimate if and only if the output its simulated calls did not use, and what its other calls saved, pay for the prompt tokens the simulated ones reported in excess |
| `SimulatedSpending.OthersSave` | internal/runner/runner.go:108-126 | The other calls never save less than nothing while they report no more tokens than assumed |
| `SimulatedSpending.SimulatedWithinEstimateIff` | internal/models/provider.go:548-586 | The case of a job whose calls are all simulated |
| `SimulatedSpending.SimulatedJobExceedsCap` | internal/models/provider.go:566-573 | The prompt "hi" for one model with 100 output tokens and its estimate as budget: taken on, and recorded with more than estimate and cap |
| `Budget.TablesExist` | internal/eval/scorer.go:22-73 | The package's own prices, in the order initialisation leaves them, over a simple character table meet every hypothesis of these rows |
| `Budget.DefaultCapBreaks` | cmd/api/handlers.go:227-229 | Some request without a budget is taken on under every server cap and costs exactly 1.00 in the worst case |
| `Budget.ServerCapHoldsIff` | cmd/api/handlers.go:227-234 | The server's cap bounds the estimate of every job taken on if and only if it is at least 1.00 |
| `Budget.NormalizingAgain` | cmd/api/handlers.go:182-243 | Normalising an accepted request again changes nothing, and it is accepted again if and only if it named a budget or 1.00 fits the server's cap |

## Left out

- Provider adapters, HTTP handling, credentials, JSON encoding and the web interface: a model call is any outcome (error, no response, panic, response), a payload is a job or undecodable.
- Dead-letter contents and redaction: the dead-letter stream is the set of messages ever added; its own trimming to 10,000 entries is not modelled.
- Expiry of stored jobs after their TTL: the protocol's store forgets nothing; the store's list theorem names it as a hypothesis.
- Wall-clock time in the protocol: idle times are counted in delivering calls there, and every cutoff is possible; `TimedRuns` and `TimedSlots` add a clock to a run. XAUTOCLAIM's own limit of ten scanned entries per claimed one, retry backoff and tick intervals do not appear. That a job can always be finished is proved; that it will be is not stated.
- The eight slots of the API's local executor are not counted: a fallback job may find a slot or not. Whether saving the queued record fails is open too; the code only logs it.
- A goroutine's deferred release of its slot and of the WaitGroup is one step of the protocol. The worker class runs one goroutine without interruption; interleavings are the protocol's.
- Time spent outside the slots: `TimedSlots` assumes that dispatching takes no time, that slots go first come, first served and that a loop asks for its next slot before another one is granted; how long a reply is on its way is not modelled.
- Node boundaries of the stream: trimming drops any run of oldest entries that leaves 50,000.
- Job ids are numbers in the protocol and strings in the store.
- Response texts and time to first token are not part of a stored result; a simulation's text and latency are left open.
- An error without a message would count as a success (`Runner.SlotFailsIff`); no provider of the program returns one, only a custom factory could.
- Cloned records and aliasing of cached ones: records are values here; a nil job cannot be saved.
- Floating-point error: scores, costs and drifts are exact reals; of the special values only a NaN threshold is modelled.
- Messages, logging, timestamps of answers, health checks, demo seeding and reading the environment.
- Runner.FanOut: takes the outcome of each call as given, so a provider's dependence on the timing of the others is not captured.
