# Verified models of the companion platform's cores

This project models, in Dafny, the concurrent and stateful cores of the companion platform and
proves what the code and its documentation promise about them. JavaScript stretches between two
`await`s, and single SQL statements, are atomic steps; runs are sequences of such steps in any
order. Most cores come twice: as a state machine over values (`Step`, `Run`), about which the
theorems are proved for every run, and as a class in the code's own form, each of whose methods is
proved to take exactly one such step. Of those methods the table lists the ones with work of their
own; the other handlers of `EmbodiedConnection`, `CompanionBridge`, `AffectChain`, `StreamQueue`,
`WsTransport` and `MemoizingGateway` have the contract that they take their step, and no row.

| file | what it models |
|---|---|
| EventLog, LogHistory, Delivery, TickLife, LostRows, ExactDelivery, Heartbeat | the durable event log, its visibility horizon, live delivery by overlapping heartbeat ticks, and which rows it can lose |
| Embodiment, LeaseHistory, Handoff | the embodiment lease with its two-part fence key, and the mid-turn handoff |
| Usage, TurnLog, TurnProtocol, Harness | the metered model stream, the turn protocol, and the agent loop |
| TurnFacts, TurnPaths, TurnStory, SearchTurn, UnbilledExits | what a finished turn guarantees, its ceilings, its story, two whole turns, and the exits that pay nothing |
| SerialChain, Bridge, BridgeHistory, DiscordBridge, Affect, AffectHistory | promise chains, the Discord bridge, and the affect reads |
| StreamQueues, Transport, TransportHistory, WsTransports | the response stream queue and the multiplexing WebSocket client |
| Growth, Levels | the growth high-water mark and band arithmetic |
| Equipped, Argv, CliAdapter, Embedding | the equipped-tool table, command templates, embeddings |

How to read the history modules: `TickLife`, `LogHistory`, `LeaseHistory`, `BridgeHistory`,
`AffectHistory` and `TransportHistory` say what became of each tick, row, hold, connection, read
and call by recursion over the events of a run, without looking at the machine's state, its flags or
its other bookkeeping; their theorems say that in every reachable state the machine agrees. The
theorems of the other modules that speak of a flag or of recorded history rest on these.

How to read the turn model: `Harness` runs the loop against an `Environment` that answers every
question the loop asks (model, tools, gate, database, consumer) by its position in the effect log,
so a theorem about all environments is a theorem about all behaviours of the outside world. The
loop writes that log, and every effect it writes is proved to be the one that `TurnProtocol` calls
for at that point, so the log is a path of the protocol. `TurnLog.Watch` reads the harness's promises
off the log; `TurnFacts`, `TurnPaths` and `TurnStory` state over the log itself what a turn does,
why, and how it ends.

Where the code differs from its own words, or from what they lead one to expect:

- The event log's comment takes for granted that transaction ids follow seq order because every
  append is one autocommit statement. The model makes that an explicit assumption, shows that
  statements which assign both at once meet it, and shows the loss when they are assigned apart:
  `LostRows.ReadIsSafeIff` and `LostRows.RowIsLostIff` say exactly when, without that assumption.
- The claim number is described as monotonic, but releasing deletes the row, so the next claim
  starts again at 1. A superseded binding stays dead if connection ids are unique or no delete
  intervenes, and `Embodiment.DeleteRestartsTheClaimSeq` is the run in which neither is so.
- Growth reflections are described as posted once per band reached. The code posts one per axis
  that advanced, however many bands it skipped: `Growth.OneWinMaySkipABand` is such a run, and
  `Growth.AdvancesMatchTheBandIff` says exactly when the two counts agree.
- The superseded turn is said to stand down at its next check. A check that cannot be read counts
  as held, so it goes on until one can: `Handoff.ReadableTurnStopsAtItsNextCheck` is exact.
- The heartbeat fires without waiting for the previous tick, so ticks may overlap. No event is lost
  then, but `ExactDelivery.DeliveryIsExactIff` says exactly when none is repeated or reordered.
- A load is meant to keep the tool it loaded. Times are milliseconds that may tie, and clocks may be
  behind; `Equipped.LoadMayEvictItselfIff` says exactly when a load can evict its own tool.
- The bridge's comment says that a drop before registration surfaces as a failed connect. A close
  that arrives between the connect resolving and the registration does not, and leaves a phantom.
- The transport's comment says that a write dropped on a closed socket is failed by the close
  path. That holds for what was registered before the close, not for a call or stream made after it.
- Four exits of the agent loop debit nothing: a consumer that leaves at the citations or at a
  proposal, and a throwing append of the reply or of the pre-amble. `UnbilledExits` reaches each of
  them with a sum owed.

## Model

| member | source | states |
|---|---|---|
| `EventLog.HorizonNeverMovesBack` | packages/core/src/events/log.ts:41-54 | No database step moves the snapshot horizon (the oldest running transaction) backwards. |
| `EventLog.ScanIsExact` | packages/core/src/events/log.ts:60-78 | The horizon read returns exactly the companion's committed rows of the range whose transaction is below the horizon, each once, by ascending seq. |
| `EventLog.PrefixIsScan` | packages/core/src/events/log.ts:64-76 | Cutting a read at the limit is the same as reading up to the last row kept: the limit leaves no hole behind the new cursor. |
| `EventLog.ReadIsScan` | packages/core/src/events/log.ts:60-78 | A non-empty batch is everything deliverable between the cursor asked with and the batch's last seq. |
| `EventLog.RowIsReadIff` | packages/core/src/events/log.ts:60-78 | The limit: a row is read exactly if it is deliverable, beyond the cursor, and fewer than `limit` such rows come before it. |
| `LogHistory.TableIsItsHistory` | packages/core/src/events/log.ts:38-58 | Over every run from an empty log, told by its events alone: the numbers drawn, what each row holds, and whether each transaction runs, committed or aborted. |
| `LogHistory.VisibleIffItsTransactionCommitted` | packages/core/src/events/log.ts:41-54 | A row is visible exactly if the transaction of its insert committed, and deliverable exactly if moreover every older transaction has ended. |
| `EventLog.SettledScanIsCommitted` | packages/core/src/events/log.ts:41-51 | On a range whose rows are all below the horizon, the horizon read and the committed rows are the same. |
| `EventLog.CompanionEventLog.constructor` | packages/core/src/events/log.ts:38-39 | A fresh log is empty and valid. |
| `EventLog.CompanionEventLog.BeginAppend` | packages/core/src/events/log.ts:56-58 | The insert assigns seq and transaction id in one step and leaves the transaction running. |
| `EventLog.CompanionEventLog.EndAppend` | packages/core/src/events/log.ts:56-58 | The append's autocommit commits or aborts exactly its own transaction. |
| `EventLog.CompanionEventLog.ReadRows` | packages/core/src/events/log.ts:60-78 | The ascending index scan with a limit returns `ReadSince`: the first rows of the horizon read. |
| `EventLog.CompanionEventLog.LatestSettled` | packages/core/src/events/log.ts:80-88 | The descending scan returns the newest deliverable seq, or 0. |
| `Delivery.NoEventLost` | packages/api/src/ws/register.ts:167-202 | For every interleaving of appends, commits, aborts, foreign transactions and overlapping ticks (including ones that move the cursor back), every committed row above the first cursor and up to the current one has been pushed with its own payload; and nothing else ever was. |
| `Delivery.AtomicWritersAreInOrder` | packages/core/src/events/log.ts:47-50 | Writers that assign seq and transaction id in one statement satisfy the ordering assumption in every interleaving. |
| `Delivery.LateInsertIsLostIffBehindCursor` | packages/core/src/events/log.ts:41-51 | With split assignment, a late insert that commits at once, before any read, breaks delivery if and only if the cursor has already passed its seq. With a read in between, a seq ahead of the cursor is no safety; the `LostRows` rows are the exact conditions. |
| `LostRows.ReadIsSafeIff` | packages/core/src/events/log.ts:60-78 | No database steps ever make a row visible that a non-empty batch has passed and does not hold, if and only if at the read every seq it passes is settled: not drawn by a writer still to insert, and no row there running or committed above the horizon. |
| `LostRows.ReadMayLoseIff` | packages/api/src/ws/register.ts:188-193 | In every world a connection can reach, whatever its writers: some database steps between a read and its delivery lose a row the batch passes, if and only if that read is not safe in this sense. |
| `LostRows.RowIsLostIff` | packages/api/src/ws/register.ts:167-202 | Over every run, whatever the writers and however ticks overlap: a committed row behind the cursor was passed by some batch, and it is lost if and only if every batch that passed it was read while the row was not deliverable. |
| `LostRows.SafeReadsLoseNothing` | packages/api/src/ws/register.ts:167-202 | A run all of whose reads are safe loses no row, in whatever order seqs and transaction ids are assigned, and nothing the database does afterwards loses one. |
| `LostRows.SettledForGood` | packages/core/src/events/log.ts:41-51 | A settled seq stays settled, and what is visible there never changes again. |
| `LostRows.InsertAheadOfTheCursorIsLost` | packages/core/src/events/log.ts:47-51 | A concrete run from an empty log: a row inserted while the cursor is below its seq, committed after one tick, is lost. |
| `LostRows.CommitBeforeDeliveryIsLost` | packages/api/src/ws/register.ts:188-193 | A concrete run from an empty log: a row inserted and committed below a batch already read, before the batch is delivered, is lost. |
| `Delivery.SplitAssignmentLosesARow` | packages/core/src/events/log.ts:47-51 | A concrete run, without overlap and with the code's batch limit, in which separate assignment of seq and transaction id loses a row for good. |
| `Delivery.BehindIsStable` | packages/core/src/events/log.ts:41-51 | Once every row at or below a value is under the horizon, no later step changes what is visible there. |
| `Delivery.OrderIsKept` | packages/core/src/events/log.ts:47-50 | In-order inserts keep seq order and transaction order aligned. |
| `Delivery.ReadIsSolid` | packages/api/src/ws/register.ts:188-193 | A batch read now is solid for good: its rows are committed, and every row up to its last seq is under the horizon. |
| `Delivery.RunKeepsInv` | packages/api/src/ws/register.ts:167-202 | After every in-order run, every row at or below the cursor, and at or below what each tick in flight asked with, is past the horizon for good and has been pushed; each batch in flight has no hole; and nothing uncommitted was pushed. |
| `TickLife.SupersededIffARenewWasLost` | packages/api/src/ws/register.ts:167-186 | Over every run, told by its events alone: a session is superseded exactly if a renew some tick was waiting for came back lost, and its heartbeat is off exactly if one did or the socket was closed. |
| `TickLife.LostRenewFencesTheConnection` | packages/api/src/ws/register.ts:180-186 | The self-fence: after a tick's renew comes back lost, whatever follows, the session stays superseded and off, that tick asks for, reads and pushes nothing, and no tick is started any more. |
| `TickLife.TicksStandWhereTheirEventsLeftThem` | packages/api/src/ws/register.ts:167-202 | Over every run: which ticks are in flight and what each carries: a tick waits for its renew from its fire, for its rows from a held renew, and holds the rows of its query until they are delivered; any other answer ends it. |
| `TickLife.PushedIsWhatTheTicksRead` | packages/api/src/ws/register.ts:188-193 | Over every run: what was pushed is, delivery by delivery, the rows the tick's query found beyond the cursor as it was at its renew; and the cursor is the last of them. |
| `TickLife.FailedTickLeavesTheHeartbeat` | packages/api/src/ws/register.ts:170-202 | A renew or a query that fails ends its tick and changes nothing else. |
| `ExactDelivery.DeliverStaysExactIffFresh` | packages/api/src/ws/register.ts:188-193 | Delivering a non-empty batch keeps what was pushed ascending if and only if the tick asked with the cursor it finds, which is the same as its first row lying beyond that cursor. |
| `ExactDelivery.DeliveryIsExactIff` | packages/api/src/ws/register.ts:145-202 | Over every run, overlapping ticks included: what was pushed is ascending, and is exactly the committed rows between the first cursor and the current one, if and only if every non-empty batch was asked for with the cursor it finds. |
| `ExactDelivery.NonOverlappingDeliveryIsExact` | packages/api/src/ws/register.ts:145-202 | So when ticks do not overlap, what was pushed is exactly those rows: ascending, no gap, no duplicate, for any batch limit. |
| `ExactDelivery.SnapshotOrStream` | packages/api/src/ws/register.ts:134-147 | A row that ever commits was either committed when the cursor was set (so every later snapshot shows it) or lies ahead of that cursor. |
| `ExactDelivery.DeliverableIffOlderWritersDone` | packages/core/src/events/log.ts:45-51 | A committed row is withheld exactly while some transaction no younger than its own is running: delayed, never dropped. |
| `ExactDelivery.BatchThenRest` | packages/api/src/ws/register.ts:188-193 | A batch is a proper head of what lies ahead, and the rest lies ahead of the new cursor; it is empty only if nothing does. |
| `ExactDelivery.CyclesDrainTheLog` | packages/api/src/ws/register.ts:167-202 | With a batch limit of at least one, as many ticks as there are deliverable rows push all of them, in order. |
| `ExactDelivery.OverlapRepeatsAndRewinds` | packages/api/src/ws/register.ts:167-202 | A run from a freshly opened connection on an empty log in which two overlapping ticks push an event twice and move the cursor back. |
| `Heartbeat.EmbodiedConnection.OnRows` | packages/api/src/ws/register.ts:190-193 | Pushes every row in order and moves the cursor to the last. |
| `Embodiment.OneHolder` | packages/core/src/embodiment/store.ts:124-137 | At most one binding per companion holds. |
| `Embodiment.ClaimTakesTheRoom` | packages/core/src/embodiment/store.ts:68-107 | A claim is refused exactly when a live holder has the same or a newer token; a winning claim holds and fences out whatever held before; a refused one changes nothing. |
| `Embodiment.FencedOutChangesNothing` | packages/core/src/embodiment/store.ts:109-149 | Renew, release and presence writes by a binding that does not hold leave the table as it was. |
| `Embodiment.PresenceKeepsTheClaim` | packages/core/src/embodiment/presence.ts:63-93 | A presence write never changes who holds the room nor the lease clock. |
| `Embodiment.RevivedIff` | packages/core/src/embodiment/store.ts:79-93 | A binding starts to hold in a step if and only if that step is a claim under its connection id that wins and draws its claim number. |
| `Embodiment.UnseatedIff` | packages/core/src/embodiment/store.ts:79-149 | A holder stops holding in a step if and only if that step is a winning claim or its own release. |
| `Embodiment.HoldsAgainIff` | packages/core/src/embodiment/store.ts:68-149 | Over every run: a binding that did not hold at one moment holds at a later one if and only if a claim in between granted it anew and nothing unseated it since. |
| `Embodiment.NeverRevivedWithUniqueIds` | packages/core/src/embodiment/store.ts:68-149 | Over every run, with unique connection ids, a granted binding that stops holding never holds again, even across row deletes. |
| `Embodiment.NeverRevivedWithoutDelete` | packages/core/src/embodiment/store.ts:68-149 | Over every run without a row delete, the same with recurring connection ids. |
| `Embodiment.RevivalNeedsRecurringIdAndDelete` | packages/core/src/embodiment/store.ts:79-149 | A revival needs a recurring id after the loss and a delete since the grant, both before the revival. |
| `Embodiment.DeleteRestartsTheClaimSeq` | packages/core/src/embodiment/store.ts:76-84 | A concrete run in which a release restarts the claim number at 1 and a recurring id revives a superseded binding. |
| `Embodiment.ClaimSeqGrows` | packages/core/src/embodiment/store.ts:79-84 | Between deletes the claim number never falls below a granted one. |
| `Embodiment.NewestTokenHoldsTheRoom` | packages/core/src/embodiment/store.ts:91-93 | While no claim finds its holder lapsed and nobody leaves, the room belongs to the newest token that ever asked, whatever the order of the claims. |
| `LeaseHistory.RowIsItsHistory` | packages/core/src/embodiment/store.ts:68-149 | Over every run, told by its events alone: who holds the room, and every column of its row; in particular the lease clock stands at the holder's grant or its last own renew. |
| `LeaseHistory.HolderIsUnseatedIff` | packages/core/src/embodiment/store.ts:91-93 | Over every run, a step ends a hold exactly if it is the holder's own release, a claim with a newer token, or a claim more than its TTL after the holder's grant or last renew. |
| `LeaseHistory.BeatingHolderKeepsTheRoom` | packages/core/src/embodiment/store.ts:91-122 | A holder that renews at least every TTL is unseated exactly by its own release or a newer token, however the clock moves. |
| `LeaseHistory.BeatingRoomNeverLapses` | packages/core/src/embodiment/store.ts:91-122 | If every holder renews at least every TTL, no claim finds its holder lapsed. |
| `LeaseHistory.NewestTokenHoldsABeatingRoom` | packages/core/src/embodiment/store.ts:91-122 | So under such a renewal schedule, with no release, the room belongs to the newest token that ever asked. |
| `Embodiment.ActiveEmbodiment.Claim` | packages/core/src/embodiment/store.ts:68-107 | The upsert with its takeover condition; the returned binding holds. |
| `Embodiment.ActiveEmbodiment.Renew` | packages/core/src/embodiment/store.ts:109-122 | Refreshes the heartbeat of exactly the holder and says whether it holds. |
| `Embodiment.ActiveEmbodiment.IsHolder` | packages/core/src/embodiment/store.ts:124-137 | True exactly when the row carries both parts of the fence key. |
| `Embodiment.ActiveEmbodiment.Release` | packages/core/src/embodiment/store.ts:139-149 | Deletes the holder's own row only; afterwards the binding does not hold. |
| `Embodiment.ActiveEmbodiment.Current` | packages/core/src/embodiment/store.ts:151-168 | The holder whose heartbeat has not lapsed, or none. |
| `Embodiment.ActiveEmbodiment.FireUpdate` | packages/core/src/embodiment/presence.ts:63-93 | The patch lands only on the row with both parts of the fence key. |
| `Usage.EstimateTokens` | packages/core/src/usage.ts:30-33 | The least number of groups of four characters that covers the text. |
| `Usage.EstimateUsage` | packages/core/src/usage.ts:35-40 | Prompt and completion are each covered by their own estimate, and the total is their sum. |
| `Usage.UsageAccumulator.Add` | packages/core/src/usage.ts:54-60 | A deposit adds component-wise to the tally. |
| `Usage.MeteredStream.Next` | packages/core/src/usage.ts:133-152 | A chunk is kept and handed on; a clean end deposits the reported usage; a fault deposits nothing. |
| `Usage.MeteredStream.Return` | packages/core/src/usage.ts:153-168 | Only a stream suspended at a yield deposits, and then the estimate of the prompt and of the text handed over. |
| `Usage.PullThenReturn` | packages/core/src/usage.ts:90-171 | However many chunks a consumer pulls before it lets go, one call deposits at most once, and exactly what `CallCost` says. |
| `TurnLog.PairedGrows` | packages/core/src/harness/harness.ts:538-583 | Appending an assistant turn with one result per call, in order, keeps the log paired. |
| `TurnLog.ArmedMeansChecked` | packages/core/src/harness/harness.ts:685-722 | A write the monitor allows has a lease check before it that did not report loss, with no model call or dispatch in between. |
| `TurnLog.FencedMeansEveryRowChecked` | packages/core/src/harness/harness.ts:457-635 | In a kept turn every transcript row is so covered. |
| `TurnLog.QuietMeansStandsDown` | packages/core/src/harness/harness.ts:465-467 | After a check reports loss a turn does nothing but settle its bill. |
| `TurnLog.SupersededTurnFinishesItsStep` | packages/core/src/harness/harness.ts:457-467 | Once checks report loss, whatever is still written was covered by a check made before, and precedes the next check. |
| `Harness.AgentLoop.constructor` | packages/core/src/harness/harness.ts:427-454 | A run starts from the prepared context with an empty tally, nothing settled and no stream. |
| `Harness.AgentLoop.StoodDown` | packages/core/src/harness/harness.ts:685-722 | Loss exactly when the check reports it (a failed read or no fence counts as held): then the run halts with nothing settled, otherwise the next write is covered. |
| `Harness.AgentLoop.Debit` | packages/core/src/harness/harness.ts:866-879 | Spends exactly retrieval plus metered tokens, and only with a wallet and a positive sum. |
| `Harness.AgentLoop.CallModel` | packages/core/src/harness/harness.ts:496-513 | One model call: the text returned is what was streamed, and it ends answered, faulted, or abandoned with the stream suspended. |
| `Harness.AgentLoop.Forward` | packages/core/src/harness/harness.ts:506-511 | One pull: a chunk reaches the consumer as it came, the clean end or the fault ends the call, and nothing else of the run changes. |
| `Harness.AgentLoop.AskGate` | packages/core/src/harness/harness.ts:549-559 | The gate's answer is recorded; a held proposal joins those held in this step. |
| `Harness.AgentLoop.RunTool` | packages/core/src/harness/harness.ts:560-611 | An allowed call that returns adds exactly one result, with its own id and the content the tool's hook gave; a failed or silent call writes no row, and a row needs a fresh lease check. |
| `Harness.AgentLoop.RecordToolStep` | packages/core/src/harness/harness.ts:736-758 | The event is emitted only when its row was persisted. |
| `Harness.AgentLoop.WalkTools` | packages/core/src/harness/harness.ts:546-612 | With nothing held, the results appended answer the calls one for one, in order. |
| `Harness.AgentLoop.AskTools` | packages/core/src/harness/harness.ts:536-612 | With nothing held, the message log stays well formed. |
| `Harness.AgentLoop.Finish` | packages/core/src/harness/harness.ts:761-776 | Concludes the run: reply persisted, settled once, `done` emitted; a throwing append settles nothing. |
| `Harness.AgentLoop.Persist` | packages/core/src/harness/harness.ts:744-776 | A covered append leaves the run where it was, with the row if it was written; the row of a reply or pre-amble is in the model's own words. |
| `Harness.AgentLoop.HoldProposals` | packages/core/src/harness/harness.ts:804-822 | One row and one event per held action; the last row reported is one that was persisted. |
| `Harness.AgentLoop.Conclude` | packages/core/src/harness/harness.ts:824-847 | A held turn always announces its end once: with a persisted row, or an error when none could be written. |
| `Harness.AgentLoop.FinishBlocked` | packages/core/src/harness/harness.ts:784-847 | Concludes the run for approval, settling once except on the two exits that settle nothing. |
| `Harness.AgentLoop.AnswerTurn` | packages/core/src/harness/harness.ts:515-635 | After an answered call the run is concluded, halted with nothing settled, or goes round again with a well-formed log. |
| `Harness.AgentLoop.Iterate` | packages/core/src/harness/harness.ts:496-635 | One round: a model call and its answer; it concludes the run, halts it with nothing settled, or leaves it ready for the next. |
| `Harness.AgentLoop.Loop` | packages/core/src/harness/harness.ts:456-636 | At most `maxToolIterations` model calls; every effect logged is the one the protocol calls for; on the way out settled exactly if concluded. |
| `Harness.AgentLoop.Cite` | packages/core/src/harness/harness.ts:430-432 | The sources come first, outside the settlement: a consumer that leaves there is owed for by nobody. |
| `Harness.AgentLoop.SettleAbnormal` | packages/core/src/harness/harness.ts:637-652 | An exit that settled nothing forwards the end into the stream in flight, then settles what was metered, once. |
| `Harness.AgentLoop.Run` | packages/core/src/harness/harness.ts:240-294 | The loop is concluded and its end announced; nothing is debited or metered afterwards. |
| `Harness.AgentLoop.RunLoop` | packages/core/src/harness/harness.ts:416-653 | Every exit is concluded: settled once as owed, except the four that settle nothing. |
| `Harness.Converse` | packages/core/src/harness/harness.ts:240-294 | A whole turn keeps everything `TurnKept` lists, whatever model, tools, gate, database and consumer answer; and its log, from the entry to the end of the loop, is the path the turn protocol prescribes for those answers. |
| `Harness.RunTurn` | packages/core/src/harness/harness.ts:225-294 | A user's turn reaches the loop exactly if its message was persisted and its context prepared, and then starts from that context and is kept; otherwise the failure is announced and settles nothing; the result says whether it was superseded. |
| `Harness.ContinueAfterApproval` | packages/core/src/harness/harness.ts:314-339 | A resumed turn reaches the loop exactly if its context was prepared, and then starts from that context with the approval note at its end and is kept; it launches no post-turn reads. |
| `Harness.FailureIsAnnounced` | packages/core/src/harness/harness.ts:283-288 | A failure before the loop ends with exactly one terminal event and no debit. |
| `TurnPaths.TurnIsDetermined` | packages/core/src/harness/harness.ts:416-653 | Two turns in the same world from the same start have the same log and end the same way. |
| `TurnPaths.NoCallPastTheCeiling` | packages/core/src/harness/harness.ts:469-484 | No model call starts once the calls made are as many as configured, or the tokens metered before it meet the budget. |
| `TurnPaths.ReplyIsEarned` | packages/core/src/harness/harness.ts:469-484 | A reply row is written only directly after a call answered in words alone and its lease check, or where one of the two ceilings is met. |
| `TurnPaths.RoundGoesOn` | packages/core/src/harness/harness.ts:612-636 | After a round whose calls all ran, the next lease check that finds the room held is followed by another model call, or by the reply exactly if a ceiling is met. |
| `TurnPaths.TopGoesOn` | packages/core/src/harness/harness.ts:456-496 | Wherever a round is about to begin and the check finds the room held, a model call follows, or the reply exactly if a ceiling is met. |
| `TurnPaths.ExitHasItsCause` | packages/core/src/harness/harness.ts:416-653 | A turn ends superseded only after a check that reported loss, in order only after its terminal event, abandoned only where the consumer closed it, and with an error only after a fault of the provider, the gate, a tool's hook or the row of a reply or pre-amble; nothing but the bill follows the cause. |
| `TurnStory.CauseEndsTheTurn` | packages/core/src/harness/harness.ts:416-653 | And each of these causes does end the turn there, in that way, with nothing after it but the bill. |
| `TurnStory.EveryEffectIsInPlace` | packages/core/src/harness/harness.ts:496-847 | Every effect of a turn is what the log so far calls for: each model call gets exactly the conversation so far, with each tool result under the call it answers; the gate is asked about the calls of a round in order, past held ones too; a reply, step, pre-amble, proposal or last-resort row has exactly the text it should; `done` carries the row it should; and the debit is what is owed. |
| `TurnStory.WhatMustFollowDoes` | packages/core/src/harness/harness.ts:549-611 | An allowed call is dispatched at once; a success that shows is followed by a lease check; a step row that was kept is announced, as is every held action whether or not its row was; a kept reply is followed by the settlement or `done`. |
| `TurnStory.WhatFollowsTheLoop` | packages/core/src/harness/harness.ts:240-294 | After the loop an error event is emitted exactly if an error propagated, and the post-turn reads are launched exactly for a user's turn that ended in order. |
| `SearchTurn.FindsIt` | packages/core/src/harness/harness.ts:456-636 | A concrete turn under a ceiling of 6: the model asks for a search, is called again with the result, and what it found is the reply; the log is given in full. |
| `SearchTurn.RunsOut` | packages/core/src/harness/harness.ts:725-728 | The same world under a ceiling of 1: the fallback is the reply. |
| `TurnFacts.EveryCallSeesPairedMessages` | packages/core/src/harness/harness.ts:496-504 | At each model call every tool call in the message log has exactly one result, in call order and before the next assistant message. |
| `TurnFacts.EveryCallIsResolved` | packages/core/src/harness/harness.ts:447-513 | Every model call of a finished run is resolved once: by its reported usage, by a fault only where the provider broke, or by the estimate for the prompt sent and the text forwarded. |
| `TurnFacts.MeterAddsUp` | packages/core/src/usage.ts:127-169 | The tally is the sum of those resolutions. |
| `TurnFacts.TurnDebitsOnce` | packages/core/src/harness/harness.ts:637-652 | The wallet debits of a turn are one debit of retrieval plus all its calls (none without a wallet or when the sum is not positive), and none on the four exits that settle nothing. |
| `UnbilledExits.LeavingThereIsUnbilled` | packages/core/src/harness/harness.ts:761-822 | A turn that left by one of those exits has no debit in its log. |
| `UnbilledExits.LeaveAtTheCitations` | packages/core/src/harness/harness.ts:430-432 | A concrete turn with a wallet and 10 tokens of retrieval, closed at the citations, its log given in full: nothing is debited. |
| `UnbilledExits.LeaveAtAProposal` | packages/core/src/harness/harness.ts:804-822 | The same with 15 tokens, a model call included, closed at a proposal; its log in full. |
| `UnbilledExits.ReplyIsNotPersisted` | packages/core/src/harness/harness.ts:761-776 | The same when the append of the reply throws; its log in full. |
| `UnbilledExits.PreambleIsNotPersisted` | packages/core/src/harness/harness.ts:784-803 | The same when the append of the pre-amble throws; its log in full. |
| `TurnFacts.AnnouncedIsLast` | packages/core/src/harness/harness.ts:761-847 | A turn neither superseded nor abandoned emits exactly one `done` or `error`, as its last event. |
| `TurnFacts.AnnouncedRowsArePersisted` | packages/core/src/harness/harness.ts:744-847 | The row a `done` or `tool_step` event carries was persisted earlier in the same turn, as a row of a kind that event may carry. |
| `TurnFacts.RowsCarryTheModelsWords` | packages/core/src/harness/harness.ts:506-533 | A reply row holds exactly the text streamed by the last model call, or the fallback when it streamed nothing; a pre-amble row holds exactly that text. |
| `TurnFacts.DispatchedIsAllowed` | packages/core/src/harness/harness.ts:549-573 | Nothing runs that the gate did not allow: each dispatch follows directly on the gate's allowing exactly that call. |
| `TurnFacts.HeldActionsAreSurfaced` | packages/core/src/harness/harness.ts:540-546 | A `done` never leaves a held action unsurfaced: the proposals emitted before it are exactly those the gate held since the last model call, in order, each once. |
| `Handoff.SupersededTurnStops` | packages/core/src/harness/harness.ts:457-467 | Composed with the claim row: between losing the room and a row there is no check that could be read, and the row is covered by a check made before the loss or by one whose read failed. |
| `Handoff.ReadableTurnStopsAtItsNextCheck` | packages/core/src/harness/harness.ts:685-722 | A superseded turn writes beyond its next check if and only if that check could not be read; otherwise the row is covered by a check made before the loss. |
| `Handoff.FailedReadLetsASupersededTurnWrite` | packages/core/src/harness/harness.ts:685-722 | The loop itself, in a room lost before its first effect and with checks that cannot be read, calls the model and writes its reply: the log is given in full, and the turn keeps everything `TurnKept` lists. |
| `SerialChain.OneAtATimeInOrder` | packages/core/src/harness/post-turn-perception.ts:144-160 | On a promise chain one link runs at a time, in launch order, for every interleaving. |
| `SerialChain.ReadyMeansAlone` | packages/discord/src/bridge.ts:417-422 | A link that may start finds every earlier one settled. |
| `SerialChain.ReadyIffFirstInLine` | packages/discord/src/bridge.ts:414-437 | The chain is a queue: a link may start exactly if it waits and every earlier one has settled, whatever entries were cleared. |
| `SerialChain.LaunchKeepsInv` | packages/discord/src/bridge.ts:414-429 | Launching behind the current tail keeps the chain's order. |
| `SerialChain.AdvanceKeepsInv` | packages/core/src/harness/post-turn-perception.ts:149-152 | Starting a ready link, or settling a running one, keeps it. |
| `SerialChain.ClearKeepsInv` | packages/discord/src/bridge.ts:432-436 | Clearing the tail entry once its link is settled keeps it: a later launch without a predecessor overtakes nobody. |
| `Bridge.AtMostOneDial` | packages/discord/src/bridge.ts:405-437 | For every interleaving, at most one `openEmbodiment` of the user is in flight. |
| `Bridge.RegistrationNeverOverwrites` | packages/discord/src/bridge.ts:484-502 | Registration finds no live entry, and admits the connection exactly when it was not superseded meanwhile. |
| `Bridge.FlaggedIffSuperseded` | packages/discord/src/bridge.ts:454-464 | While a connection is dialed its flag says exactly whether it was superseded. |
| `Bridge.RegisteredIsNotSuperseded` | packages/discord/src/bridge.ts:450-502 | In every reachable state the registered connection has not been superseded. |
| `Bridge.LateEventsSpareTheSuccessor` | packages/discord/src/bridge.ts:582-598 | Events and retractions of another connection never remove the registered one. |
| `Bridge.HoldersCountAdvances` | packages/discord/src/bridge.ts:343-350 | `holders` equals the number of advances in flight on the embodiment. |
| `BridgeHistory.RetractionsAreWarranted` | packages/discord/src/bridge.ts:343-357 | Over every run, told by its events alone: a skipped advance takes the registered embodiment away exactly if it was on it, no other advance is in flight there, and no live advance, reusing summon or opening summon ever gave it a reason to stay; live and failed advances never do. |
| `BridgeHistory.JustifiedIffGivenAReason` | packages/discord/src/bridge.ts:346-426 | Over every run: an embodiment is justified exactly if such an event gave it a reason. |
| `BridgeHistory.RoomIsItsHistory` | packages/discord/src/bridge.ts:405-512 | Over every run: how many connections were dialed, which is registered, and which were admitted, superseded, dropped, and dropped before registration, all as the events say. |
| `BridgeHistory.EstablishesAreServedInOrder` | packages/discord/src/bridge.ts:405-437 | Over every run: an establish gets its turn exactly when all before it are done, and each one's outcome is what its events say. |
| `BridgeHistory.ReuseReturnsTheRegistered` | packages/discord/src/bridge.ts:417-427 | An establish whose turn comes while an embodiment is registered returns it and dials nothing; otherwise it dials the next connection. |
| `BridgeHistory.AdvancesAreThoseBegun` | packages/discord/src/bridge.ts:343-357 | Over every run: the advances in flight are those begun on an admitted embodiment and not ended since. |
| `Bridge.PhantomIffDroppedEarly` | packages/discord/src/bridge.ts:465-472 | The registered connection is dead exactly if its close arrived before registration. |
| `Bridge.PhantomStep` | packages/discord/src/bridge.ts:465-512 | A step makes a phantom if and only if it registers a connection that is dropped and not flagged at that moment, and ends one if and only if it tears that connection down. |
| `Bridge.PhantomIff` | packages/discord/src/bridge.ts:465-512 | Over every run: the bridge holds a phantom if and only if such a registration happened and nothing took the connection away since. |
| `Bridge.DropBeforeRegistrationLeavesPhantom` | packages/discord/src/bridge.ts:465-472 | A concrete run that ends with such a phantom. |
| `Bridge.RunKeepsInv` | packages/discord/src/bridge.ts:414-512 | The bridge invariant holds in every reachable state. |
| `DiscordBridge.CompanionBridge.Register` | packages/discord/src/bridge.ts:484-512 | A flagged connection is given up, any other is registered; the attempt ends. |
| `Affect.ReadsRunInLaunchOrder` | packages/core/src/harness/post-turn-perception.ts:144-160 | While a read runs, every earlier one is over and every later one has not begun. |
| `Affect.DeltasTelescope` | packages/core/src/harness/post-turn-perception.ts:170-220 | The deltas handed to `reinforce`, with the one still owed for a stored reading and those of the run's rejections that came after a write, sum to the last stored valence minus the first, whichever reads fail or are declined. |
| `Affect.QuietDeltasAreTheWholeChangeIff` | packages/core/src/harness/post-turn-perception.ts:170-220 | With no read between its upsert and its hand-over, what was handed over is the whole change if and only if the deltas of the run's rejections after a write sum to zero. |
| `Affect.RejectedUpsertLosesTheSwing` | packages/core/src/harness/post-turn-perception.ts:207-220 | A concrete run in which an upsert writes its row, rejects, and the swing is never handed over. |
| `Affect.RowAndBaseAreHeld` | packages/core/src/harness/post-turn-perception.ts:186-207 | The row is the last valence it ever held, the base the first; which those are, `AffectHistory.HeldIsWhatWasSensed` says. |
| `AffectHistory.HeldIsWhatWasSensed` | packages/core/src/harness/post-turn-perception.ts:186-207 | Over every run, told by its events alone: the valences the row has held are the one it began with and then exactly the readings sensed by the reads whose upsert took effect, and the row is the last. |
| `AffectHistory.UpsertsAreInLaunchOrder` | packages/core/src/harness/post-turn-perception.ts:144-207 | Over every run: those upserts took effect in launch order, each storing what its own read had sensed in place of what the one before had stored. |
| `AffectHistory.DeltasAreSensedChanges` | packages/core/src/harness/post-turn-perception.ts:207-220 | Over every run: each delta handed over is its own read's reading less what it replaced, 0 for the first; and what was lost is the same of the reads that failed after their upsert. |
| `AffectHistory.ReadsAreServedInOrder` | packages/core/src/harness/post-turn-perception.ts:144-160 | Over every run: a read may begin exactly when all before it are done, and every read stands where its own events left it. |
| `Affect.OverlappingReadsDoubleCount` | packages/core/src/harness/post-turn-perception.ts:179-185 | Without the chain the law fails: a concrete pair of overlapping reads counts one swing twice. |
| `Affect.RunKeepsInv` | packages/core/src/harness/post-turn-perception.ts:144-221 | The chain and the row stay consistent over every run. |
| `StreamQueues.EndedStreamYieldsEverything` | packages/shared/src/ws-transport.ts:130-177 | For every interleaving, a consumer that returns has been given exactly the chunks pushed before the end, in order, and returns what the first `end` was given. |
| `StreamQueues.FailedStreamYieldsAPrefix` | packages/shared/src/ws-transport.ts:148-177 | A consumer that throws does so with the first failure, got a prefix of what was pushed, and all of it exactly when the failure did not overtake a chunk handed over and not yet yielded. |
| `StreamQueues.QueueIsACursor` | packages/shared/src/ws-transport.ts:120-177 | Buffer and waiter are a cursor over the pushed chunks: for every interleaving what was yielded is what the cursor has passed, and the consumer parks, wakes, returns and throws as the cursor says. |
| `StreamQueues.FailDropsTheHandedChunk` | packages/shared/src/ws-transport.ts:170-173 | A concrete run that loses a handed chunk. |
| `StreamQueues.ParkedMeansEmptyAndOpen` | packages/shared/src/ws-transport.ts:163-172 | A parked consumer has an empty buffer and an unsettled stream. |
| `StreamQueues.SettledStreamDrains` | packages/shared/src/ws-transport.ts:162-177 | On a settled stream, one pull per buffered chunk and one more yields everything and finishes. |
| `Transport.ConnectTakesTheFirstDecision` | packages/shared/src/ws-transport.ts:226-244 | `connect` settles at most once, by the first event after it that decides, and waits exactly as long as none does. |
| `Transport.ResolvedConnectCameFirst` | packages/shared/src/ws-transport.ts:314-324 | A connect that resolved did so before any supersede, error or close. |
| `Transport.CallSettlesWithItsFirstAnswer` | packages/shared/src/ws-transport.ts:263-270 | Every call is settled exactly by the first result or error frame with its own id, or the close, that follows it, and is pending exactly while there was none. |
| `Transport.RunSettlesOnce` | packages/shared/src/ws-transport.ts:350-367 | No call is ever settled twice, nor pending once settled. |
| `Transport.CloseSettlesEverything` | packages/shared/src/ws-transport.ts:393-406 | When the socket closes, every pending call is rejected with the reason of the close, and no consumer of an open stream is left parked: one between pulls drains what arrived and sees an outcome. |
| `Transport.CallAfterTheCloseIsNeverSent` | packages/shared/src/ws-transport.ts:326-334 | A call made after the close is never written, and settles if and only if a frame with its own id still arrives: the close path does not cover it. |
| `Transport.LateCallHangs` | packages/shared/src/ws-transport.ts:263-270 | A concrete run: a call after the close is pending, and was never sent. |
| `Transport.StreamAfterTheCloseIsNeverSent` | packages/shared/src/ws-transport.ts:278-288 | A streaming call opened after the close is never written, and is settled if and only if a result or an error with its own id still arrives while its consumer is there; until then its consumer neither returns nor throws. |
| `Transport.LateStreamParks` | packages/shared/src/ws-transport.ts:278-288 | A concrete run: its consumer parks on a stream that was never asked for. |
| `Transport.StreamHearsOnlyItsOwn` | packages/shared/src/ws-transport.ts:350-363 | Among all calls and streams of the connection, a stream's queue is in exactly the state its own frames, the close and its own consumer put it in. |
| `Transport.StreamingCallYieldsItsChunks` | packages/shared/src/ws-transport.ts:278-288 | A streaming call that returns has yielded exactly the chunks of its own frames that arrived before its own result, in order, and returns that result. |
| `Transport.RunKeepsInv` | packages/shared/src/ws-transport.ts:201-423 | The transport invariant holds after every run. |
| `TransportHistory.CloseIsReportedAsItWas` | packages/shared/src/ws-transport.ts:393-422 | Over every run, told by its events alone: the close listeners are told once, at the close of a begun connection, whether the room had been lost and whether the caller had asked for the close. |
| `TransportHistory.RequestsAreWrittenIffWritable` | packages/shared/src/ws-transport.ts:326-334 | Over every run: a request was written exactly if it was made while the socket was open. |
| `TransportHistory.ConnectIsItsHistory` | packages/shared/src/ws-transport.ts:213-240 | Over every run: the connect is not asked for, waiting, or told the first decision after it. |
| `TransportHistory.CallIsItsHistory` | packages/shared/src/ws-transport.ts:263-270 | Over every run: a call is pending from the moment it was made until its first answer, and settled by exactly that one. |
| `TransportHistory.StreamIsItsHistory` | packages/shared/src/ws-transport.ts:278-288 | Over every run: a stream's queue is what its own frames, the close and its consumer make of it, and it is registered exactly from its call until the close or until its consumer has returned, thrown or left. |
| `WsTransports.WsTransport.RejectPending` | packages/shared/src/ws-transport.ts:399-402 | Rejects every pending call, in registration order. |
| `WsTransports.WsTransport.FailStreams` | packages/shared/src/ws-transport.ts:403-406 | Fails every open stream and forgets them. |
| `WsTransports.WsTransport.HandleClose` | packages/shared/src/ws-transport.ts:393-422 | Runs once; settles the connect, the calls and the streams, then tells the listeners why. |
| `Growth.WeakCompareAndSetIsExact` | packages/core/src/growth/growth-store.ts:66-89 | In every reachable state, for every recompute in flight, comparing bands and list length succeeds exactly when the row is still the whole mark it read. |
| `Growth.GuardAloneIsWeak` | packages/core/src/growth/growth-store.ts:78-84 | Between arbitrary marks the guard is weaker than equality, so the reachable states matter. |
| `Growth.MarkNeverMovesBack` | packages/core/src/growth/service.ts:135-142 | Over every run bands only rise and the capability list only grows at its end. |
| `Growth.EachCapabilityIsWonOnce` | packages/core/src/growth/service.ts:120-158 | The row's capability list is exactly what the winning recomputes announced, in order, none twice. |
| `Growth.AdvancesNeverExceedTheBand` | packages/core/src/growth/service.ts:117-156 | Per axis the bands gained by the winners add up to the final band, so advances announced never exceed it. |
| `Growth.AdvancesMatchTheBandIff` | packages/core/src/growth/service.ts:117-156 | Per axis, as many advances were announced as bands were reached if and only if every winning recompute raised that axis by at most one. |
| `Growth.OneNotePerBandIff` | packages/core/src/growth/service.ts:277-300 | Before the write: a win posts one note per band it gains on an axis if and only if what it observed is at most one band above the stored mark. |
| `Growth.OneWinMaySkipABand` | packages/core/src/growth/service.ts:277-300 | A concrete run in which one win reaches two bands and announces one advance. |
| `Growth.AdvanceIsAllOrNothing` | packages/core/src/growth/service.ts:124-159 | A recompute that lost or had nothing to add returns the empty transition and leaves the row; one that won started from the row it read, returns the transition to what it saw, and covers everything it saw. |
| `Growth.AloneAlwaysLands` | packages/core/src/growth/service.ts:110-159 | An uninterrupted recompute never loses and lands its whole view. |
| `Growth.TargetExtends` | packages/core/src/growth/service.ts:294-300 | The target keeps the stored list as a prefix, adds exactly the unseen capabilities, each once, and equals the stored mark exactly when there is nothing to announce. |
| `Growth.ObservedIsDistinct` | packages/core/src/growth/capabilities.ts:62-66 | The observed list holds exactly the demonstrated registry entries, each once. |
| `Growth.RunKeepsInv` | packages/core/src/growth/service.ts:110-159 | The winners form one chain from the empty mark to the row, over every interleaving. |
| `Growth.GrowthStore.GetSnapshot` | packages/core/src/growth/growth-store.ts:56-64 | Creates the row at the empty mark on first use and returns the row. |
| `Growth.GrowthStore.Advance` | packages/core/src/growth/growth-store.ts:66-89 | Overwrites the row and reports a win exactly when the guard matches. |
| `Growth.GrowthService.Recompute` | packages/core/src/growth/service.ts:110-159 | Uninterrupted: the transition, the new row and the notes posted; nothing at all for an unknown companion. |
| `Growth.GrowthService.Announce` | packages/core/src/growth/service.ts:277-289 | Posts every note that does not fail, in order. |
| `Growth.GrowthService.Notes` | packages/core/src/growth/service.ts:264-276 | One note per axis advanced, then one per new capability. |
| `Growth.NotesTellTheTransition` | packages/core/src/growth/service.ts:264-276 | There is a note for each axis that advanced and each capability won, and none besides. |
| `Growth.NotesAreInOrder` | packages/core/src/growth/service.ts:264-276 | Each note once, the axes first, then the capabilities in the order they were won. |
| `Growth.SurvivingAreTheUnfailed` | packages/core/src/growth/service.ts:277-289 | Every note whose post does not fail is posted, and no other, each moved up by the failures before it. |
| `Equipped.TableRefinesList` | packages/core/src/acquisition/equipped-store.ts:68-124 | With a strictly increasing clock, any sequence of loads, uses and evictions leaves exactly the move-to-front list truncated to the cap, in recency order. |
| `Equipped.LoadKeepsTheMostRecent` | packages/core/src/acquisition/load-tool.ts:89-98 | After a load at most `cap` tools remain, the loaded tool is one of them (with its fresh schema) when the cap allows any, and every tool gone was used before every tool kept. |
| `Equipped.EvictRefines` | packages/core/src/acquisition/equipped-store.ts:113-124 | Deleting the oldest rows over the cap is truncating the list. |
| `Equipped.RowIsItsHistory` | packages/core/src/acquisition/equipped-store.ts:68-124 | Over every run, whatever the clock: a tool is equipped exactly from a load until an eviction that lists it among the excess, with the schema of its last load, the time it was first loaded since it was last absent, and the time of its last load or use. |
| `Equipped.OrderIsTheListBackwards` | packages/core/src/acquisition/equipped-store.ts:114-118 | With distinct times there is one oldest-first order: the list, reversed. |
| `Equipped.LoadMayEvictItselfIff` | packages/core/src/acquisition/equipped-store.ts:113-124 | For every table, clock and cap: some order the database may return makes a load evict its own tool if and only if at least `cap` other rows carry a time not before the load's. |
| `Equipped.SecondLoadEvictsItself` | packages/core/src/acquisition/equipped-store.ts:113-124 | A run of two loads into a table with room for one, the second not later than the first: the second evicts itself under an order the database may return. |
| `Equipped.TiedLoadMayEvictItself` | packages/core/src/acquisition/equipped-store.ts:113-124 | The case of two loads in one millisecond. |
| `Equipped.LoadBehindTheClockEvictsItself` | packages/core/src/acquisition/equipped-store.ts:113-124 | The case of a clock that is behind: nothing is tied, there is one order, and the load evicts itself. |
| `Equipped.EquippedToolStore.Equip` | packages/core/src/acquisition/equipped-store.ts:68-96 | Upsert: fresh schema and recency, first load time kept. |
| `Equipped.EquippedToolStore.Touch` | packages/core/src/acquisition/equipped-store.ts:106-111 | Bumps the recency of an equipped tool, and only of that one. |
| `Equipped.EquippedToolStore.EvictToMaxEquipped` | packages/core/src/acquisition/equipped-store.ts:113-124 | Deletes exactly the first rows of the order, as many as exceed the cap, and counts them. |
| `Equipped.LoadTool` | packages/core/src/acquisition/load-tool.ts:55-117 | Equips and evicts exactly when the tool is named, listed, trusted and offered and nothing throws; every refusal leaves the table as it was. |
| `Argv.ReadingLosesNothing` | packages/core/src/cli/tool-def.ts:42-43 | Reading an element into literals and placeholders loses and reorders nothing. |
| `Argv.WritingIsReadBack` | packages/core/src/cli/tool-def.ts:42-43 | A template written from literals and placeholders is read back as the same. |
| `Argv.OneTokenPerKeptElement` | packages/core/src/cli/adapter.ts:183-193 | Token k is the rendering of the k-th element all of whose parameters are present: order kept, nothing split or joined. |
| `Argv.KeptAreTheResolved` | packages/core/src/cli/adapter.ts:186-189 | An element is dropped exactly when it refers to a missing parameter. |
| `Argv.KeptAscend` | packages/core/src/cli/adapter.ts:184-192 | Kept elements stay in template order. |
| `Argv.SilentLintMeansAnchored` | packages/core/src/cli/tool-def.ts:125-150 | The lint is silent if and only if every element before the first `--` that has a placeholder begins with literal text. |
| `Argv.AnchoredTokensStartWithTheirText` | packages/core/src/cli/adapter.ts:183-193 | Then, for all arguments, every token rendered from such an element begins with the element's own literal text. |
| `Argv.EveryReportIsReal` | packages/core/src/cli/tool-def.ts:119-123 | No report is a false alarm: some arguments make the token begin with any string chosen for the reported parameter. |
| `Argv.ReportedAreLeading` | packages/core/src/cli/tool-def.ts:136-147 | The cursor and the literal flag report exactly the leading run of placeholders. |
| `Argv.UnsafeArgvPlaceholders` | packages/core/src/cli/tool-def.ts:125-150 | The loop returns the names the specification calls unsafe, as a set. |
| `Argv.SplicedIsRendered` | packages/core/src/cli/adapter.ts:190 | What one pass over the matches writes, literal text up to each match and then its value, is the pieces' rendering. |
| `Argv.Replace` | packages/core/src/cli/adapter.ts:190 | The pass with its cursor: each value is written once and never read again, whatever braces it contains. |
| `Argv.RenderElement` | packages/core/src/cli/adapter.ts:186-190 | None exactly when a referenced parameter is missing; otherwise the literals with each value substituted once. |
| `Argv.RenderArgv` | packages/core/src/cli/adapter.ts:183-193 | The rendered command line. |
| `Argv.RenderedCons` | packages/core/src/cli/adapter.ts:190 | A literal character renders as itself, a reference as its value in full. |
| `Argv.RenderingIsPieceByPiece` | packages/core/src/cli/adapter.ts:190 | What stands side by side in the template stands side by side in the token. |
| `CliAdapter.ValidateArgs` | packages/core/src/cli/adapter.ts:129-160 | Reports exactly the complaints there are: missing, unexpected, not a choice, wrong type. |
| `CliAdapter.Check` | packages/core/src/cli/adapter.ts:140-157 | At most one complaint per argument; a choice list takes the place of the type. |
| `CliAdapter.NoComplaintIff` | packages/core/src/cli/adapter.ts:129-160 | Nothing is said against a call exactly if every required argument is there and every argument is known or allowed, one of its choices if there are any, and otherwise of its type. |
| `CliAdapter.IntegersAreWhole` | packages/core/src/cli/adapter.ts:162-176 | A number is an integer exactly if it has no fraction. |
| `CliAdapter.FirstUndeclared` | packages/core/src/cli/tool-def.ts:86-96 | Parsing refuses a template exactly when it names an undeclared parameter, and names one. |
| `CliAdapter.UnnamedArgumentsNeverReachArgv` | packages/core/src/cli/adapter.ts:183-193 | Rendering depends on nothing but the parameters the template names. |
| `CliAdapter.RequiredElementsAreNeverDropped` | packages/core/src/cli/adapter.ts:177-193 | A validated call loses no element of a template that names required parameters only. |
| `CliAdapter.RunCliTool` | packages/core/src/cli/adapter.ts:74-121 | Refused exactly when there is a complaint; an error exactly when the sandbox throws, on a timeout, on a non-zero exit, or when no exit status is left that truncation does not explain. |
| `Embedding.Reorder` | packages/core/src/embedding/openrouter.ts:49-75 | Accepted exactly when counts agree and every item is well formed, in range, of the right size and not a repeat; then every slot holds the vector whose index names it; otherwise the first faulty item decides the error. |
| `Embedding.AcceptsIff` | packages/core/src/embedding/openrouter.ts:49-75 | An answer is acceptable exactly if it has one item per input, each with an index in range and a vector of the right size, and no two with one index. |
| `Embedding.EverySlotIsNamed` | packages/core/src/embedding/openrouter.ts:67-69 | Equal counts and distinct in-range indices leave no slot unnamed. |
| `Embedding.AlignmentIsUnique` | packages/core/src/embedding/openrouter.ts:56-74 | The order the items arrive in does not matter. |
| `Embedding.ToUsage` | packages/core/src/embedding/openrouter.ts:107-123 | The reported prompt if there is one, else the reported total, else the least cover of the text; the total is the prompt, whatever total the provider claims. |
| `Embedding.EmbedInBatches` | packages/core/src/embedding/batch.ts:29-53 | Pairs and deposits are those of the batches; a failing batch fails the call after the earlier deposits. |
| `Embedding.EmbedBatch` | packages/core/src/embedding/batch.ts:43-50 | One round trip: deposit, then pair each item with its vector, absent if the provider returned fewer. |
| `Embedding.BatchingIsOneShot` | packages/core/src/embedding/batch.ts:40-52 | For every batch size of at least one, batching equals embedding everything at once, in input order. |
| `Embedding.BatchingChargesTheSame` | packages/core/src/embedding/batch.ts:49 | And deposits the same total, for a gateway that charges by the text. |
| `Embedding.MemoIsTransparent` | packages/core/src/embedding/memoizing.ts:53-65 | For every interleaving of concurrent calls, answers and failures, what the memo hands out is what the deterministic gateway answers to the same parameters. |
| `Embedding.MemoIsItsHistory` | packages/core/src/embedding/memoizing.ts:53-65 | Over every run, told by its events alone: the memo remembers the last answer and nothing else, forwards exactly the calls that do not repeat it, and hands out that answer for nothing, or the provider's own. |
| `Embedding.OnlyProviderCallsAreCharged` | packages/core/src/embedding/memoizing.ts:58-63 | The usage handed out is exactly that of the calls that reached the provider. |
| `Embedding.MemoizingGateway.OnAnswered` | packages/core/src/embedding/memoizing.ts:61-63 | The cache keeps a copy of its own, never the array the caller gets. |
| `Levels.PointsBandBrackets` | packages/core/src/growth/levels.ts:28-38 | The index is the one band that brackets the points (-1 with no bands), the fill stays in [0, 1]. |
| `Levels.PointsReadingIsMonotone` | packages/core/src/growth/levels.ts:28-38 | More points never give a lower index or a lower index plus fill. |
| `Levels.PointsReadingInverts` | packages/core/src/growth/levels.ts:28-38 | Below the top band, index plus fill times the width is the points, negative points as zero. |
| `Levels.PointsPosition` | packages/core/src/growth/levels.ts:28-38 | Index plus fill is the points in widths, and full from the top band on. |
| `Levels.BandFromThresholds` | packages/core/src/growth/levels.ts:41-61 | The loop finds the last threshold reached, with the code's fallbacks for missing thresholds. |
| `Levels.ThresholdBandBrackets` | packages/core/src/growth/levels.ts:41-61 | With ascending thresholds, one per band, the index is the one band that brackets the value and the fill stays in [0, 1]. |
| `Levels.ThresholdReadingIsMonotone` | packages/core/src/growth/levels.ts:41-61 | With ascending thresholds, however many, a larger value never reads lower. |
| `Levels.ThresholdReadingInverts` | packages/core/src/growth/levels.ts:57-60 | Below the top band, the fill between its two thresholds gives the value back, values under the first threshold as that threshold. |
| `Levels.KnowledgeNeverReadsLower` | packages/core/src/growth/levels.ts:63-82 | More sources, sections or episodes never lower the knowledge reading. |
| `Levels.KnowledgeIsCounted` | packages/core/src/growth/levels.ts:63-82 | Every source, section and episode adds its own points, whatever else there is. |
| `Levels.BondNeverReadsLower` | packages/core/src/growth/levels.ts:84-95 | More episodes, no less salient, never lower the bond reading. |
| `Levels.BondIsRounded` | packages/core/src/growth/levels.ts:84-95 | Bond points are the weighted episodes and salience to the nearest whole number, halves up. |
| `Levels.PersonalitySpread` | packages/core/src/growth/levels.ts:127-137 | The spread lies in [0, 1]; it is the total deviation as a share of the most there can be, capped at 1 for weights out of range; 0 exactly when nothing was learned or every drive is neutral; and, for weights in [0, 1], 1 exactly when every drive is at an extreme. |

## Left out

- Foreign I/O: the web server, sockets, discord.js, SQL building, object storage, tracing, prompts and model text appear only as the answers they give.
- Ids and time: connection ids are their rank, request ids their number, times integers, valence, fill and vectors real numbers; rounding of floating point is not modelled.
- String lengths count Dafny characters where the code counts UTF-16 units.
- `embody`: the refused-claim branch and the ready push are not modelled, only the cursor's initial value and the heartbeat.
- Embodiment: rows deleted because their companion was deleted are not modelled, nor is the presence read.
- Harness: a spend that fails counts as a debit, because the code logs the failure and goes on; the consumer leaving at the very last `error` is not a separate exit; the post-turn reads are one effect; registry resolution, spans and prompt stamps are not modelled.
- Bridge: one arbitrary user, since every map is keyed by user; `stop()`, the notices, the greeting and the proactive loop are not modelled; an advance may start on any connection ever registered, which is more than the code allows.
- Affect: the `reinforce` hook is taken as wired; user-fact capture uses the same chain keyed by user and is not modelled separately.
- AffectChain.OnFinally: microtask ordering between a settled link and its successor is not modelled, any order is allowed.
- StreamQueues: a consumer that asks to return while parked is not modelled; it can leave only between pulls.
- Transport: queues live in a map by request id, so sharing of one queue object between the map and its consumer is not captured; event listeners are not modelled.
- WsTransport.OnClose: close codes are not modelled, only the two flags the listeners are given.
- Growth: the substrate queries are one observation; deletion of a companion between the insert and the second read is not modelled.
- Equipped: deletes of one eviction happen with its select in one step, so concurrent loads of the same companion interleave between statements of different loads only at equip and evict.
- Argv.UnsafeArgvPlaceholders: the sorted order of the names is not modelled, because the result is a set.
- CliAdapter: properties every JavaScript object inherits do not count as arguments; the fencing of a command's output and the remaining checks of a tool file are left out as easy members.
- Embedding.Reorder: fractional indices are not modelled; the HTTP request and its status errors are left out.
- Embedding.EmbedInBatches: a batch size below one is excluded, since the code's loop would not end.
- Embedding.MemoizingGateway.OnAnswered: the outer array is copied on the heap; the vectors in it are values, so the copy of each one is not captured.
- Renderers, canned notes, configuration parsing, credentials and the job queue would only add easy members or are not correctness cores.
