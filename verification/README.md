# FT8 station: verified model

A Dafny model of the parts of an FT8 station program that decide what goes on the
air, what is written to the log, and what is remembered. `dafny verify
dfyconfig.toml` checks the whole project.

What is modelled, one group of modules for each part of the program:

- **The automatic operator and its transmit worker.** `OperatorTypes`,
  `OperatorSteps` (file `Operator.dfy`): one pure function for each method of the
  operator, over its whole state. `OperatorObject`: a class with the source's
  fields; its methods do what their functions say, and the public ones keep it
  valid and promise what the proofs show.
  `OperatorProofs`: what every method keeps. `OperatorRuns`: whole runs, in every
  interleaving of decodes, cycles, commands and worker steps (take, pass the slot
  wait, start playing, stop). `OperatorCadence`: how often CQ is called.
  `OperatorOrigins`: whom a contact answers, on which tone and in which period.
  `OperatorEffects`: what retries and the partner's messages do to the whole
  state. `OperatorChoices`: whom the operator answers, keeps or leaves alone.
  `OperatorDrops`: when a contact may be dropped. `CooldownIndependence`: what the
  cooldowns have no say in.
  `OperatorExchange`: a whole contact between two stations that both run the
  operator.
- **Message text.** `Protocol`, `ProtocolProofs`: tokens, classes of third
  fields, the three-field view, the call-order rewriter, report texts.
- **The slot clock.** `SlotClock`: delays to a transmit window over `real` time,
  both waiting loops on an ideal clock, the native twin. `CycleKeys`: slot starts
  written as calendar text with a two-digit year and read back. `TxPlayer`: one
  transmission with PTT and audio, and a worker making many.
- **Buffers and caches.** `HopBuffers`, `BufferedLog` (daily files and the file
  tail), `WorkedLog` (the worked-today cache against the log), `DecodeFilter`,
  `SessionStats` (station table and buckets).
- **The PTT controller.** `PttFirmware`: commands, schedule and watchdog on a
  32-bit millisecond counter, with the line assembler.

Time, the clocks and every answer of a lookup outside the model (worked before,
distance, grid from the geographic tables, the library's own idea of the period)
are parameters of the call that uses them. The history field of the operator (a
count of contacts begun, the records written, the contacts given up or dropped,
the CQs called) observes it; no branch reads it, and only the log exists in the
program.

## Results that are not what one might expect

- A message consisting of the single word `CQ` makes the source's parser raise
  (`cw_discover/ft8/ft8_protocol.py:50-53`), and with it the rewriter and the decode
  call of an armed operator, which has then changed nothing: `ParserRaisesExactly`,
  `RewriterRaisesExactly`, `DecodeRaisesExactly`.
- The number in a partner's R-report is never stored
  (`cw_discover/ft8/qso_controller.py:926-931`), so the station that answered a CQ
  logs "+00" as the report it received: `ExchangeCompletes`. The two records agree
  exactly under the condition of `RecordsAgreeExactly`.
- `data/FT8_BEHAVIOR_50.md:37` has our own transmissions, heard back, ignored. In a
  contact they are, whichever call stands first, unless they say RR73 or 73
  (`EchoIsIgnored`); our own CQ is not (`cw_discover/ft8/qso_controller.py:741-778`)
  and starts a contact exactly when it passes the filters for any CQ:
  `OwnCqIsAnswered`.
- A caller from our own four-character grid square is taken for an echo of our
  own message and never answered, in any state: `OwnSquareIsIgnored`,
  `NeighbourIsIgnored`, `CallIsAnsweredUnlessNeighbour`.
- The delay to a transmit window is 15 s short when waiting for period 1 late in a
  period 1 slot (`cw_discover/ft8/ft8_slot.py:116-117`). The waiting loops are
  right all the same, because they look again (`DelayMeaning`, `WaitForTxSlot`),
  but the slot a transmission is filed under then has the other parity
  (`TxSlotPeriod`).
- `data/FT8_BEHAVIOR_50.md:23` gives 17.5 s as the greatest age of a decode; the
  code accepts 32.5 s (`cw_discover/ft8/ft8_slot.py:93`), and the model follows it.
  `FreshnessGap` and `CqAnsweredByAge` say at which ages the operator still answers
  and `OldCqAnswered` gives a decode of 20 s.
- The worked-today cache files a record without band or call, or with a blank
  mode, which a later load skips or renames: `AppendSoundExactly` says exactly when an append keeps it sound.
- The PTT controller's `AT` command does not look at the safety lock: `LockStep`.
  A switch-on at counter value zero is not watched: `WatchdogExactly`.

## Model

| member | source | states |
|---|---|---|
| `OperatorRuns.OnlyLatestPasses` | cw_discover/ft8/qso_controller.py:1001-1016 | In every interleaving of operator and worker steps, an item passing an abort check has the current epoch and is the latest message; during a contact it is addressed to that partner from us, on the contact's snapped tone, in the contact's period |
| `OperatorRuns.StepsThatCancel` | cw_discover/ft8/qso_controller.py:890-896 | Abort, halt, disarm, giving a contact up, every new contact and every change of the latest message raise the epoch |
| `OperatorRuns.CancelledNeverPasses` | cw_discover/ft8/qso_controller.py:1008-1012 | Once a step raises the epoch, nothing queued or held by the worker before it ever passes an abort check again, at any later point of any run |
| `OperatorRuns.ContactIsConstant` | cw_discover/ft8/qso_controller.py:839-852 | Partner, tone, transmit period, start time and way of starting never change while a contact lasts |
| `OperatorRuns.EveryContactEnds` | cw_discover/ft8/qso_controller.py:483-506 | With at most M retries allowed, no contact is found active by more than 4M+1 armed cycle calls in its own period and it is over after the (4M+1)-th, whatever is decoded |
| `OperatorRuns.ContactsAreConserved` | cw_discover/ft8/qso_controller.py:975-999 | In every reachable state begun = logged + abandoned + dropped + (1 if active), and no contact is logged twice |
| `OperatorRuns.EveryRecordIsConfirmed` | cw_discover/ft8/qso_controller.py:926-938 | Every log record belongs to a contact during which a message between us and the partner with third field R-report, RRR, RR73 or 73 was decoded |
| `OperatorRuns.CooldownIsKept` | cw_discover/ft8/qso_controller.py:427-448 | Counted from the latest time a call was given up, no CQ of it is answered before its cooldown runs out unless a contact with it was logged in between, buffered candidates included |
| `OperatorRuns.GivingUpCools` | cw_discover/ft8/qso_controller.py:352-361 | A contact is given up only by a cycle call, and its call is then cooling down until the clock plus the configured seconds |
| `OperatorRuns.RunInv` | cw_discover/ft8/qso_controller.py:107-144 | Every state reachable from start-up is consistent: phase and contact agree, each queued or held item is no newer than the epoch and if current is the latest message, history adds up |
| `OperatorRuns.StepKeeps` | cw_discover/ft8/qso_controller.py:146-463 | Every operator or worker step keeps the consistency of the whole system and makes only allowed changes |
| `OperatorRuns.RunIsTraced` | cw_discover/ft8/qso_controller.py:656-685 | Every run is a chain of allowed steps between consistent states |
| `OperatorRuns.ClosingIsConfirmed` | cw_discover/ft8/qso_controller.py:926-931 | The closing phase is only ever reached in a contact already confirmed by a decode |
| `OperatorRuns.NewRecordIsConfirmed` | cw_discover/ft8/qso_controller.py:975-999 | A step adds at most one record, at the end, and only of a contact confirmed by then |
| `OperatorRuns.ContactsDoNotReturn` | cw_discover/ft8/qso_controller.py:839-852 | A contact that has ended never becomes active again |
| `OperatorRuns.BudgetStep` | cw_discover/ft8/qso_controller.py:483-506 | One step keeps the count of own-period cycles within retries allowed per stage of the exchange |
| `OperatorRuns.CooldownStands` | cw_discover/ft8/qso_controller.py:439-448 | A running cooldown survives every step until it expires, a contact is logged or the call is given up again |
| `OperatorCadence.OneCqParity` | cw_discover/ft8/qso_controller.py:507-521 | All CQs between two re-armings go out in slots of one parity and are queued for that period |
| `OperatorCadence.CqsAreSpaced` | cw_discover/ft8/qso_controller.py:512-522 | Two successive CQs with no contact begun and no abort, halt or arming between them are at least w+1 new cycles apart |
| `OperatorCadence.IdleCadence` | cw_discover/ft8/qso_controller.py:512-522 | On an idle channel with alternating slots the next CQ comes after exactly w+1 cycles for odd w and w+2 for even w, and none before |
| `OperatorCadence.CadenceKeeps` | cw_discover/ft8/qso_controller.py:469-522 | No step but a new armed cycle with the wait run down, no contact and the CQ period calls CQ, and the CQ period changes only on re-arming |
| `OperatorExchange.ExchangeCompletes` | cw_discover/ft8/qso_controller.py:898-939 | Two stations running the operator complete a contact in seven messages, retries in between allowed: both end idle with one new record of the other, the caller's with both reports, the answerer's with "+00" for the report received |
| `OperatorExchange.ExchangeHappens` | cw_discover/ft8/qso_controller.py:898-939 | From any two stations that can start, whatever strengths are heard and whenever, the seven messages do go through and both stations log the contact |
| `OperatorExchange.StationsCanStart` | cw_discover/ft8/qso_controller.py:402-418 | Any two stations in basic mode with different calls and grid squares, one of which has called CQ after arming, can start |
| `OperatorExchange.CallIsPlain` | cw_discover/ft8/callsign.py:149-198 | Every call of a letter, a digit and three letters is a valid remote call in its normal form |
| `OperatorExchange.RecordsAgreeExactly` | cw_discover/ft8/qso_controller.py:926-931 | The two records of a whole contact agree, each received report being the one the other sent, exactly when the answerer heard the caller at no more than two digits and the caller heard the answerer at 0 dB |
| `OperatorExchange.CallIsAnsweredUnlessNeighbour` | cw_discover/ft8/qso_controller.py:687-735 | A station calling CQ in basic mode answers a caller who sends a grid exactly when the grid square is not our own |
| `OperatorExchange.OwnSquareIsIgnored` | cw_discover/ft8/qso_controller.py:297-307 | In every state and mode a message naming us first with our own square does at most move our tone |
| `OperatorExchange.NeighbourIsIgnored` | cw_discover/ft8/qso_controller.py:297-307 | A caller from our own square is never answered, in whatever state and mode we are |
| `OperatorExchange.CqAnsweredByAge` | cw_discover/ft8/qso_controller.py:656-660 | A CQ that passes the filters is answered exactly up to an age of 32 whole seconds, hence from 18 to 32 beyond the documented 17.5 s; an older one changes nothing |
| `OperatorExchange.OldCqAnswered` | cw_discover/ft8/qso_controller.py:656-660 | A CQ decoded 20 s after its slot began is answered |
| `OperatorExchange.CqIsAnswered` | cw_discover/ft8/qso_controller.py:741-796 | A station free, in basic mode, answers a CQ that passes its filters with its own grid |
| `OperatorExchange.GridIsReported` | cw_discover/ft8/qso_controller.py:910-916 | The partner's grid is answered with our report of the partner, which is noted as sent |
| `OperatorExchange.ReportIsRogered` | cw_discover/ft8/qso_controller.py:917-925 | The partner's report is noted and answered with our report marked R |
| `OperatorExchange.RogerIsClosed` | cw_discover/ft8/qso_controller.py:926-931 | The partner's R-report is answered with RR73 and closes the exchange; its number is not noted |
| `OperatorExchange.GoodbyeIsLogged` | cw_discover/ft8/qso_controller.py:932-938 | RR73 or 73 from the partner is answered with 73 and the contact is logged with the noted reports |
| `OperatorExchange.RetriesOnlyWait` | cw_discover/ft8/qso_controller.py:483-506 | A cycle call within the retry limit changes nothing but the retry count, the queue and the buffers |
| `OperatorExchange.DirectedArrives` | cw_discover/ft8/ft8_protocol.py:63-92 | A message addressed to us reaches the operator with the sender first, except our own grid square |
| `OperatorProofs.OnDecodeHeard` | cw_discover/ft8/qso_controller.py:656-685 | A decode keeps the state consistent, gives no contact up, and closes or logs one only if the message confirms it |
| `OperatorProofs.OnCycleMoves` | cw_discover/ft8/qso_controller.py:469-510 | A cycle call in the contact's own period spends exactly one retry or ends the contact by logging or giving up; any other leaves it alone |
| `OperatorProofs.HandleActiveHeard` | cw_discover/ft8/qso_controller.py:898-939 | A decode in a contact keeps partner, tone and period, progresses the exchange or leaves it, and closes or logs only when confirmed |
| `OperatorProofs.ActiveCycleTicks` | cw_discover/ft8/qso_controller.py:483-506 | A counted cycle stays within the limit or ends: logged if closing, otherwise given up |
| `OperatorProofs.AbandonMoves` | cw_discover/ft8/qso_controller.py:352-367 | Giving up records the call, starts its cooldown and raises the epoch; a buffered caller may take its place as a fresh contact |
| `OperatorProofs.FinishQsoMoves` | cw_discover/ft8/qso_controller.py:975-999 | Finishing writes one record of the contact in progress and clears its cooldown |
| `OperatorProofs.ByeLogs` | cw_discover/ft8/qso_controller.py:932-938 | On RR73 or 73 the 73 supersedes the queue and the contact is logged, never given up |
| `OperatorProofs.PreemptOrBufferGood` | cw_discover/ft8/qso_controller.py:603-654 | Pre-empting or buffering a caller leaves a consistent state, logs and gives up nothing, calls no CQ, and any contact it starts is fresh |
| `OperatorProofs.MaybeAnswerCqGood` | cw_discover/ft8/qso_controller.py:741-778 | Considering a CQ starts a contact only if its call is not cooling down |
| `OperatorProofs.FlushCqGood` | cw_discover/ft8/qso_controller.py:536-547 | Flushing buffered CQ candidates never touches a contact and starts one only with a call not cooling down |
| `OperatorProofs.FlushIncomingGood` | cw_discover/ft8/qso_controller.py:549-568 | Flushing buffered callers never touches a contact, and starts one exactly when it says so |
| `OperatorProofs.TickCqMoves` | cw_discover/ft8/qso_controller.py:512-522 | One scheduler tick counts the wait down, or calls CQ and restarts the wait, or does nothing |
| `OperatorProofs.AbortMoves` | cw_discover/ft8/qso_controller.py:165-200 | Abort and halt leave no contact and an empty queue and cancel what was in play |
| `OperatorProofs.SetArmedMoves` | cw_discover/ft8/qso_controller.py:402-418 | Disarming leaves no contact and cancels what was in play; arming leaves the contact alone |
| `OperatorProofs.EngageMoves` | cw_discover/ft8/qso_controller.py:202-230 | Engaging a call by hand drops the contact in progress and starts a fresh consistent one |
| `CooldownIndependence.CooldownSparesDecodes` | cw_discover/ft8/qso_controller.py:656-685 | Every decode but a CQ has the same effect whatever is cooling down, and the cooldowns lose at most the entry of a partner just logged |
| `CooldownIndependence.CooldownSparesCallers` | cw_discover/ft8/qso_controller.py:687-735 | Calls addressed to us are treated the same whatever is cooling down, and leave the cooldowns as they are |
| `CooldownIndependence.CooldownSparesEngaged` | cw_discover/ft8/qso_controller.py:202-230 | A contact engaged by hand is treated the same whatever is cooling down, and leaves the cooldowns as they are |
| `OperatorProofs.MoveTrans` | cw_discover/ft8/qso_controller.py:839-896 | Allowed changes compose |
| `OperatorObject.Ft8AutoOperator.HandleDecode` | cw_discover/ft8/qso_controller.py:656-685 | A valid object stays valid; the call raises exactly on a fresh single CQ while armed, having changed nothing; otherwise the contact keeps its terms, moves on only by its exchange, and is closed or logged only if this message confirms it; a contact is begun only with the station heard, on its tone and in the period other than the one it was heard in; not listened to, it changes nothing |
| `OperatorObject.Ft8AutoOperator.HandleCycle` | cw_discover/ft8/qso_controller.py:469-510 | A valid object stays valid; a contact found in its own period within the limit has one more retry counted and its last message queued again unless that slot holds one, while closing only RR73; beyond the limit it is logged if closing and given up with a cooldown otherwise; any other call leaves contact and log alone, and a contact is begun only with a station kept from a recent decode, on its tone and in the other period |
| `OperatorObject.Ft8AutoOperator.CycleOfActive` | cw_discover/ft8/qso_controller.py:487-505 | The object's method takes the whole state through the step ActiveCycle, of which OperatorEffects.CountedIsRetried and OperatorProofs.ActiveCycleTicks speak |
| `OperatorObject.Ft8AutoOperator.HandleActiveExchange` | cw_discover/ft8/qso_controller.py:898-939 | The object's method takes the whole state through the step HandleActive, of which OperatorProofs.HandleActiveHeard and OperatorEffects.HeardByExchange speak |
| `OperatorObject.Ft8AutoOperator.TryIncomingPreemptOrBuffer` | cw_discover/ft8/qso_controller.py:603-654 | The object's method takes the whole state through the step PreemptOrBuffer, of which OperatorProofs.PreemptOrBufferGood, OperatorDrops.PreemptDrops and OperatorChoices.WeakIsBuffered speak |
| `OperatorObject.Ft8AutoOperator.ProcessIncomingCall` | cw_discover/ft8/qso_controller.py:687-735 | The object's method takes the whole state through the step ProcessIncoming, of which OperatorProofs.ProcessIncomingGood and OperatorChoices.CallIsProcessed speak |
| `OperatorObject.Ft8AutoOperator.ConsiderCq` | cw_discover/ft8/qso_controller.py:741-778 | The object's method takes the whole state through the step MaybeAnswerCq, of which OperatorProofs.MaybeAnswerCqGood and OperatorChoices.FiltersPassed speak |
| `OperatorObject.Ft8AutoOperator.ReplyToCq` | cw_discover/ft8/qso_controller.py:780-796 | The object's method takes the whole state through the step AnswerCq: unless the call cools down a contact with it begins, on its tone and in the other period than its cycle names (OperatorOrigins.CqAnswerBegins) |
| `OperatorObject.Ft8AutoOperator.ReplyToCaller` | cw_discover/ft8/qso_controller.py:798-837 | The object's method takes the whole state through the step AnswerIncoming: a contact with the caller begins, on its tone and in the other period than its cycle names (OperatorOrigins.CallerAnswerBegins) |
| `OperatorObject.Ft8AutoOperator.DrainTxQueue` | cw_discover/ft8/qso_controller.py:890-896 | The draining loop empties the queue and raises the epoch by one |
| `OperatorObject.Ft8AutoOperator.EligibleCandidates` | cw_discover/ft8/qso_controller.py:541 | The filtering loop keeps exactly the candidates not cooling down and forgets exactly the expired cooldowns asked about |
| `OperatorObject.Ft8AutoOperator.IsOutboundCooldown` | cw_discover/ft8/qso_controller.py:439-448 | True exactly while the call cools down; an expired entry is forgotten |
| `OperatorObject.Ft8AutoOperator.SetCqWaitPeriods` | cw_discover/ft8/qso_controller.py:394-400 | A valid object stays valid and the wait between CQs stays an allowed odd one |
| `OperatorObject.Ft8AutoOperator.OutboundCooldownCalls` | cw_discover/ft8/qso_controller.py:450-463 | Returns exactly the calls still cooling down and forgets all others |
| `OperatorObject.Ft8AutoOperator.FlushCqBuffer` | cw_discover/ft8/qso_controller.py:536-547 | The object's method takes the whole state through the step FlushCq, of which OperatorProofs.FlushCqGood and OperatorChoices.CqFlushEffect speak |
| `OperatorObject.Ft8AutoOperator.FlushIncomingBuffer` | cw_discover/ft8/qso_controller.py:549-568 | The object's method takes the whole state through the step FlushIncoming, of which OperatorProofs.FlushIncomingGood and OperatorChoices.CallerFlushEffect speak |
| `OperatorObject.Ft8AutoOperator.AbandonStuckQso` | cw_discover/ft8/qso_controller.py:352-367 | The object's method takes the whole state through the step AbandonStuck, of which OperatorProofs.AbandonMoves and OperatorChoices.AbandoningTakesCaller speak |
| `OperatorObject.Ft8AutoOperator.Finish` | cw_discover/ft8/qso_controller.py:975-999 | The object's method takes the whole state through the step FinishQso, of which OperatorProofs.FinishQsoMoves and OperatorEffects.FinishIsLogged speak |
| `OperatorObject.Ft8AutoOperator.TickCqScheduler` | cw_discover/ft8/qso_controller.py:512-522 | The object's method takes the whole state through the step TickCq, of which OperatorProofs.TickCqMoves and OperatorChoices.CqTick speak |
| `OperatorObject.Ft8AutoOperator.Abort` | cw_discover/ft8/qso_controller.py:165-178 | A valid object stays valid, with no contact, no CQ wait, empty queue and buffers and no slot filed, what was in play cancelled and the log unchanged |
| `OperatorObject.Ft8AutoOperator.Halt` | cw_discover/ft8/qso_controller.py:185-200 | As for abort, and the station stays armed exactly if asked to and armed before |
| `OperatorObject.Ft8AutoOperator.Arm` | cw_discover/ft8/qso_controller.py:402-418 | A valid object stays valid; disarming leaves no contact and cancels what was in play, arming leaves contact, queue and epoch alone and restarts the CQ schedule, and arming twice changes nothing |
| `OperatorObject.Ft8AutoOperator.Engage` | cw_discover/ft8/qso_controller.py:202-230 | A valid object stays valid; a new contact with the call is active in the period after this one, its first message (our R-report if its report is given, which is noted, else our grid) alone in the queue, buffers empty, log and cooldowns unchanged |
| `OperatorObject.PickBestCq` | cw_discover/ft8/pro_operator.py:270-273 | The loop returns the specified best candidate |
| `OperatorTypes.PickBestIsFirstMaximum` | cw_discover/ft8/pro_operator.py:270-273 | The best candidate has the highest score, is the first with it, and exists exactly when there are candidates |
| `OperatorObject.PruneList` | cw_discover/ft8/qso_controller.py:524-534 | The loop keeps exactly the candidates still fresh, in order |
| `OperatorTypes.ScoreOrder` | cw_discover/ft8/pro_operator.py:177-202 | Other things being equal each priority ranks as it is named: farther, stronger, weaker, or balanced towards weaker |
| `OperatorTypes.NormalizeCqWaitNearest` | cw_discover/ft8/station_identity.py:12-19 | The chosen wait is an allowed odd one, none is nearer, ties go to the smaller, allowed waits are kept |
| `OperatorTypes.SnapNearest` | cw_discover/ft8/tx_player.py:33-35 | A tone is moved to a 6.25 Hz step at most half a step away, and snapping twice is snapping once |
| `ProtocolProofs.ParseDirected` | cw_discover/ft8/ft8_protocol.py:41-60 | A directed message built from proper tokens parses back to its three fields |
| `ProtocolProofs.NormalizeMeaning` | cw_discover/ft8/ft8_protocol.py:63-92 | The rewriter leaves the three fields alone or swaps exactly the two calls of a message naming us first |
| `ProtocolProofs.NormalizeIdempotent` | cw_discover/ft8/ft8_protocol.py:63-92 | Rewriting twice is rewriting once, for every text and station |
| `ProtocolProofs.ClassesDisjoint` | cw_discover/ft8/ft8_protocol.py:95-153 | The token classes do not overlap, except that an R-report is a report |
| `ProtocolProofs.SentReportClass` | cw_discover/ft8/ft8_protocol.py:156-162 | Reports we send are classed by the partner as a report and as an R-report, never as a grid |
| `ProtocolProofs.ReportRoundTrip` | cw_discover/ft8/ft8_protocol.py:156-178 | A report reads back as the same text exactly for values from -99 to 99 |
| `ProtocolProofs.RstNonEmpty` | cw_discover/ft8/ft8_protocol.py:165-178 | A received plain report is never stored as empty text |
| `SlotClock.DelayMeaning` | cw_discover/ft8/ft8_slot.py:101-118 | The delay is zero exactly in the 2.5 s window of a wanted slot; otherwise it is the true gap, or 15 s short exactly when waiting for period 1 late in its own slot |
| `SlotClock.TrueGapIsLeast` | cw_discover/ft8/ft8_slot.py:101-118 | The true gap is at most 27.5 s and is the least wait that opens the window |
| `SlotClock.WaitForTxSlot` | cw_discover/ft8/tx_player.py:107-113 | The re-evaluating loop ends exactly when the window first opens |
| `SlotClock.WaitForTxPeriod` | cw_discover/ft8/ft8_slot.py:121-136 | The adaptive loop ends inside the window, at most a millisecond after it first opens |
| `SlotClock.TxSlotPeriod` | cw_discover/ft8/ft8_slot.py:85-89 | The slot a transmission is filed under has the wanted parity except exactly for period 1 late in its own slot |
| `SlotClock.NativePeriodAgrees` | opt-lab/native/slot_timer.c:7-11 | The native period is the Python one for every time |
| `SlotClock.NativeAgrees` | opt-lab/native/slot_timer.c:13-20 | The native delay equals the Python one exactly unless the time is negative and late in a wanted slot |
| `SlotClock.GapShrinks` | cw_discover/ft8/ft8_slot.py:101-118 | Waiting part of the gap leaves the rest of it |
| `CycleKeys.CycleKeyRoundTrip` | cw_discover/ft8/ft8_slot.py:29-42 | Decoding the key of a time gives the start of its slot exactly up to the end of 2068 |
| `CycleKeys.KeyRoundTrip` | cw_discover/ft8/ft8_slot.py:74-82 | A formatted second reads back as itself exactly up to the end of 2068 |
| `CycleKeys.PeriodRoundTrip` | cw_discover/ft8/ft8_slot.py:45-59 | A decode labelled with its slot's key is attributed to that slot's period, for every time from 1970 on, misread years included |
| `CycleKeys.KeysNameSlots` | cw_discover/ft8/ft8_slot.py:79-82 | Two times have the same key exactly when they share a slot |
| `CycleKeys.DaysToClosed` | cw_discover/ft8/ft8_slot.py:32 | Counting days year by year agrees with the closed form of the calendar |
| `CycleKeys.WalkYears` | cw_discover/ft8/ft8_slot.py:74-76 | The calendar walk gives a real date whose day count is the number of days walked |
| `TxPlayer.Player.Transmit` | cw_discover/ft8/tx_player.py:203-260 | Each outcome has exactly its cause in the order of the guards; PTT is off whenever the call returns and is never switched on for a message blocked, unencodable or stale before its window; a sent message started exactly at the opening of its own window |
| `TxPlayer.Player.WaitForTxSlot` | cw_discover/ft8/tx_player.py:98-113 | The wait ends at the opening of the window, or less than a second after an abort |
| `TxPlayer.Player.Work` | cw_discover/ft8/qso_controller.py:1001-1016 | One worker leaves PTT off and spaces its starts, for any jobs, failures and rests, what it started is exactly the jobs it reported sent, in order, and every outcome is the one the conditions cause at the time the job was taken up |
| `TxPlayer.SequentialSpaced` | cw_discover/ft8/tx_player.py:228-248 | After a transmission longer than the window no other starts in its slot, and none of its period within 27.5 s |
| `TxPlayer.StartsApart` | cw_discover/ft8/ft8_slot.py:10-11 | Two window starts more than 2.5 s apart lie in different slots; of one period they are at least 27.5 s apart |
| `WorkedLog.CacheIsSound` | cw_discover/ft8/forgalmi_log.py:127-204 | The cache never claims a contact that the log does not hold for the cached day |
| `WorkedLog.OwnContactsStay` | cw_discover/ft8/forgalmi_log.py:195-204 | A contact logged on its day stays in the cache until an event of another day |
| `WorkedLog.CacheIsComplete` | cw_discover/ft8/forgalmi_log.py:133-166 | With no other writer the cache is exactly the day's contacts, whenever at each load the day's records lie within the 256 KiB that are read |
| `WorkedLog.FittingDayIsReached` | cw_discover/ft8/forgalmi_log.py:138-166 | If no line before the n-th is a contact of the day and the rest fits in the tail, a load finds every contact of the day |
| `WorkedLog.ShortLogIsReached` | cw_discover/ft8/forgalmi_log.py:139 | A log no longer than the tail is the case n = 0 of it |
| `WorkedLog.AppendSoundExactly` | cw_discover/ft8/forgalmi_log.py:148-154 | An append keeps the cache sound exactly when the record is of another day, or has call and band and a mode that is absent or not blank |
| `WorkedLog.ForgalmiNaplo.LoadWorkedCache` | cw_discover/ft8/forgalmi_log.py:127-168 | The loading loop collects exactly the keys of today's records in the tail |
| `WorkedLog.ForgalmiNaplo.EnsureTodayCache` | cw_discover/ft8/forgalmi_log.py:170-173 | The cache is reloaded exactly on a change of day |
| `WorkedLog.ForgalmiNaplo.RecentlyWorked` | cw_discover/ft8/forgalmi_log.py:175-179 | A yes means the log holds a record of today with the same call, band and mode up to case and blanks; with a complete cache a no means it holds none |
| `WorkedLog.ForgalmiNaplo.LogQso` | cw_discover/ft8/forgalmi_log.py:190-204 | Appending extends the log and files today's contact |
| `HopBuffers.HopBuffer.Feed` | cw_discover/ft8/audio_fast.py:34-56 | However the stream is cut, the hops make up its longest prefix of whole hops and the rest is pending |
| `HopBuffers.HopBuffer.Extend` | cw_discover/ft8/audio_fast.py:34-46 | Appending loses nothing across doubling and reallocation |
| `HopBuffers.HopBuffer.PopHop` | cw_discover/ft8/audio_fast.py:48-56 | A hop is the oldest samples, taken exactly when enough are pending; the shift loses nothing |
| `HopBuffers.HopBuffer.DrainHops` | cw_discover/ft8/audio_feed.py:105-113 | Draining leaves less than one hop and loses nothing |
| `HopBuffers.HopsDetermined` | cw_discover/ft8/audio_fast.py:48-56 | Hops of one size are determined by what they add up to |
| `HopBuffers.ChunkingIsIrrelevant` | cw_discover/ft8/audio_feed.py:105-113 | One stream cut in two ways gives the same hops and the same number pending |
| `BufferedLog.DailyBufferedWriter.AppendDecode` | cw_discover/ft8/atomic_io.py:93-96 | File plus pending records stay all that was ever appended for each day, in order, whether or not this append flushes |
| `BufferedLog.DailyBufferedWriter.AppendCandidate` | cw_discover/ft8/atomic_io.py:98-101 | Appending a candidate keeps file plus pending records equal to all ever appended for each day, in order |
| `BufferedLog.DailyBufferedWriter.MaybeFlush` | cw_discover/ft8/atomic_io.py:111-119 | The timer flushes everything once 300 s have passed since the last flush, counting anew from then, and otherwise changes nothing |
| `BufferedLog.DailyBufferedWriter.Flush` | cw_discover/ft8/atomic_io.py:121-139 | Everything pending is on disk and nothing is lost, repeated or reordered within a day |
| `BufferedLog.DailyBufferedWriter.WriteOut` | cw_discover/ft8/atomic_io.py:123-137 | One buffer reaches its day files and files of the other kind are untouched |
| `BufferedLog.AllWritten` | cw_discover/ft8/atomic_io.py:126-137 | Writing each day's group once puts every record of a day after what its file held, in order |
| `BufferedLog.GroupsAreDays` | cw_discover/ft8/atomic_io.py:126-129 | A group exists exactly for the days met and holds that day's records in order |
| `BufferedLog.GroupByDay` | cw_discover/ft8/atomic_io.py:126-129 | The grouping loop computes those groups |
| `BufferedLog.WriteGroups` | cw_discover/ft8/atomic_io.py:130-134 | The writing loop appends every group |
| `BufferedLog.RecordsAfter` | cw_discover/ft8/decode_tail.py:59-67 | Reading from the end of a prefix gives exactly the records of the lines after it, each once, in order |
| `BufferedLog.JsonlTail.ReadNew` | cw_discover/ft8/decode_tail.py:53-67 | A read gives the records of the lines written since the last one, each once and in order, or those of the whole file if it became shorter |
| `BufferedLog.JsonlTail.Follow` | cw_discover/ft8/decode_tail.py:53-67 | Following a growing file gives the records of the lines written after opening, each exactly once, in order |
| `DecodeFilter.Filter.Offer` | cw_discover/ft8/engine.py:123-130 | A key passes exactly when it is not in the memory of emitted keys, which is the last 5000 (RecentExactly), all distinct |
| `DecodeFilter.Filter.Run` | cw_discover/ft8/engine.py:123-130 | A stream gives what a filter with a perfect memory of 5000 emissions lets through |
| `DecodeFilter.NothingIsLost` | cw_discover/ft8/engine.py:123-130 | Right after any key arrives it is among the recent emissions |
| `DecodeFilter.RepeatsAreFarApart` | cw_discover/ft8/virtual_engine.py:65-71 | Between two emissions of one key lie 5000 emissions of other keys, all different |
| `PttFirmware.WatchdogExactly` | firmware/esp32_ptt/main.cpp:50-58 | The watchdog switches off, clears the schedule and locks exactly when PTT is on, its stamp is not zero and the true time on, modulo 2^32 ms, is at least 20 s |
| `PttFirmware.ElapsedAcrossWrap` | firmware/esp32_ptt/main.cpp:54 | The unsigned difference of counter readings is the true elapsed time modulo 2^32 ms |
| `PttFirmware.PttNeverStuck` | firmware/esp32_ptt/main.cpp:168-170 | If the loop comes round at least every g ms, PTT has been on for less than 20 s after every pass, unless switched on at counter value zero |
| `PttFirmware.LockStep` | firmware/esp32_ptt/main.cpp:139-153 | A step keeps the lock silent exactly when it does not handle an AT line while locked |
| `PttFirmware.LockMeansSilence` | firmware/esp32_ptt/main.cpp:100-112 | While no AT line is handled under the lock, locked means PTT off and nothing scheduled |
| `PttFirmware.OnlyResumeUnlocks` | firmware/esp32_ptt/main.cpp:107-112 | The lock ends only by RESUME |
| `PttFirmware.Controller.Loop` | firmware/esp32_ptt/main.cpp:168-190 | One pass applies the schedule, then the watchdog, then every line completed, however the input is cut; what each line does is LineIsObeyed |
| `PttFirmware.Controller.HandleLine` | firmware/esp32_ptt/main.cpp:79-156 | PTT 1 and PTT ON switch on unless locked, PTT 0 and PTT OFF switch off, SHUTDOWN locks and silences, RESUME unlocks and silences, AT with two numbers notes the order, and any other line changes nothing |
| `PttFirmware.Controller.CheckPttWatchdog` | firmware/esp32_ptt/main.cpp:50-58 | The object's watchdog is the specified step |
| `SessionStats.StationTableIsExact` | cw_discover/ft8/session_log.py:392-441 | After any events since a reset a call is in the table exactly when a decode named it, with count, strongest and weakest report, kinds and times of exactly those decodes, snr equal to the strongest, and the place of the first decode that had a grid for it |
| `SessionStats.SessionIsConserved` | cw_discover/ft8/session_log.py:354-465 | Hour buckets and cycle buckets each sum to the number of stations and to the number of decodes |
| `SessionStats.NewsAreDebuts` | cw_discover/ft8/analytics.py:210-273 | A bucket's count of new stations is the number of stations first heard in it |
| `SessionStats.BucketsAreExact` | cw_discover/ft8/analytics.py:92-187 | A bucket's counts, calls, totals, extremes, first 64 samples and kinds are those of exactly the decodes that fall in it |
| `SessionStats.ExtremesAreTrue` | cw_discover/ft8/analytics.py:25-33 | The running extremes are the true ones exactly when some report lies within the sentinels 99 and -99 |
| `SessionStats.SearchesAreConserved` | cw_discover/ft8/analytics.py:234-242 | Cycle buckets hold all candidates searched and hour buckets all audio reports |
| `SessionStats.MemoryHoldsTheNewest` | cw_discover/ft8/session_log.py:443-445 | The decodes in memory are the newest 10000 since the last reset |
| `SessionStats.NewCallsAreTheGain` | cw_discover/ft8/session_log.py:417-441 | The new calls of a decode are exactly those the table gains, each listed once, even if a message names a call twice |
| `SessionStats.SessionLog.AddDecode` | cw_discover/ft8/session_log.py:354-465 | The session after the decode, and the returned calls are exactly those the decode puts on the map |
| `SessionStats.SessionLog.NoteStations` | cw_discover/ft8/session_log.py:378-441 | The loop over calls updates the table call by call and lists the calls new to it and those newly on the map |
| `SessionStats.NewOnMapIsTheGain` | cw_discover/ft8/session_log.py:404-441 | The calls newly on the map are exactly those the map gains, each listed once, and the map loses none |
| `SessionStats.MapIsConserved` | cw_discover/ft8/session_log.py:354-465 | Every station on the map was reported as newly on it exactly once since the last reset |
| `SessionStats.SessionLog.NoteAudioLevels` | cw_discover/ft8/analytics.py:234-237 | The object notes audio as the step says |
| `SessionStats.SessionLog.NoteCycleSearch` | cw_discover/ft8/analytics.py:239-242 | The object notes a search as the step says |
| `SessionStats.SessionLog.Clear` | cw_discover/ft8/session_log.py:136-166 | A reset leaves nothing |
| `PttFirmware.AtTakesEffect` | firmware/esp32_ptt/main.cpp:60-70 | An AT order takes effect at the first pass whose clock has reached its time, and only there, unless a newer AT, SHUTDOWN or the watchdog comes first |
| `ProtocolProofs.ParserRaisesExactly` | cw_discover/ft8/ft8_protocol.py:45-60 | The parser raises exactly on the single word CQ, in any case and with any blanks around it |
| `ProtocolProofs.RewriterRaisesExactly` | cw_discover/ft8/ft8_protocol.py:63-92 | The rewriter raises exactly there, if a call sign is set |
| `OperatorProofs.DecodeRaisesExactly` | cw_discover/ft8/qso_controller.py:656-663 | A decode raises exactly when an armed operator hears a fresh message that is the single word CQ, and nothing has changed then |
| `OperatorProofs.OwnMessageParses` | cw_discover/ft8/qso_controller.py:278-287 | The parser never raises on our own last message if our call has three characters |
| `OperatorProofs.OneMessagePerSlot` | cw_discover/ft8/qso_controller.py:870-888 | A new message is alone in the queue under a new epoch; a retry adds itself at most, and only in a slot that holds nothing yet |
| `SlotClock.FreshnessGap` | cw_discover/ft8/ft8_slot.py:92-98 | The limit in force is 32 whole seconds and the documented one 17; they differ on ages 18 to 32 and on no other |
| `OperatorDrops.DroppedExactlyBy` | cw_discover/ft8/qso_controller.py:603-626 | In any run a contact is dropped only by abort, halt, disarming, engaging another call, or a decode of another station while the professional options are on and the contact is stuck; the first four always drop it |
| `OperatorDrops.DecodesDropExactly` | cw_discover/ft8/qso_controller.py:603-626 | A decode drops the contact in progress exactly when it reaches the rules for callers and is the call of another station that displaces a stuck contact |
| `OperatorOrigins.ContactsAnswerDecodes` | cw_discover/ft8/qso_controller.py:780-852 | In any run every contact the operator begins by itself is with a station named in a decode of that or an earlier step, on the tone of that decode, in the period other than the one of that decode's slot (or of the clock, or of the library for an unreadable key), its first message alone in the queue for that period; one begun at the start of a cycle answers a decode at most 32 whole seconds old |
| `OperatorOrigins.DecodeBegins` | cw_discover/ft8/qso_controller.py:656-685 | A decode begins a contact only with the station it is from, on its tone and in the other period than that of its slot, and keeps only what it says; begun or not, the tone follows it as the source has it; a decode not listened to changes nothing |
| `OperatorOrigins.CycleBegins` | cw_discover/ft8/qso_controller.py:536-568 | A cycle call begins a contact only with a station kept from a decode at most 32 whole seconds old, on its tone and in the other period than that of its slot |
| `OperatorOrigins.BuffersWereHeard` | cw_discover/ft8/qso_controller.py:524-534 | Every candidate waiting in any reachable state was decoded in an earlier step |
| `OperatorOrigins.CqAnswerBegins` | cw_discover/ft8/qso_controller.py:780-796 | Answering a CQ begins a contact with that call exactly when it is not cooling down, on its tone and in the other period |
| `OperatorOrigins.CallerAnswerBegins` | cw_discover/ft8/qso_controller.py:798-837 | Answering a caller begins a contact with it on its tone and in the other period |
| `OperatorEffects.RetryIsSent` | cw_discover/ft8/qso_controller.py:483-506 | Within the retry limit an armed call in the contact's own period counts one retry and appends exactly the last message, on the contact's tone and period and under the current epoch, unless that slot already holds one; while closing only if that message is RR73; a call in the other period sends nothing |
| `OperatorEffects.EchoIsIgnored` | cw_discover/ft8/qso_controller.py:901-903 | In a contact our own last message, its calls in either order, changes nothing unless it is RR73 or 73 |
| `OperatorEffects.GridEffect` | cw_discover/ft8/qso_controller.py:910-916 | The whole state after the partner's grid: the grid noted, and the first time our report noted and alone in the queue under a new epoch |
| `OperatorEffects.ReportEffect` | cw_discover/ft8/qso_controller.py:917-925 | The whole state after the partner's report, names in either order: the first time both reports noted and our R-report alone in the queue, later nothing |
| `OperatorEffects.RogerEffect` | cw_discover/ft8/qso_controller.py:926-931 | The whole state after an R-report or RRR: closing with RR73 alone in the queue, once |
| `OperatorEffects.ByeIsAnswered` | cw_discover/ft8/qso_controller.py:932-938 | The whole state after RR73 or 73: 73 alone in the queue, no contact, one record with reports, grid (the contact's, else the one remembered), start and end time, the wait before the next CQ begun and the call's cooldown gone |
| `OperatorEffects.ClosingRunsOut` | cw_discover/ft8/qso_controller.py:487-492 | Out of retries while closing, the contact is logged the same way and nothing is sent |
| `OperatorEffects.OthersLeaveContact` | cw_discover/ft8/qso_controller.py:603-654 | With the professional options off, or the contact not stuck, no message between other stations or from them to us changes anything |
| `OperatorEffects.FinishIsLogged` | cw_discover/ft8/qso_controller.py:941-999 | Finishing writes the record with the stated fields, starts the CQ wait, and takes only that call off the cooldowns |
| `OperatorChoices.UnwantedCq` | cw_discover/ft8/qso_controller.py:741-758 | A CQ while in CQ mode, of no proper call, too weak, too strong in the professional mode, worked today or cooling down starts, keeps and notes nothing |
| `OperatorChoices.WantedCqIsAnswered` | cw_discover/ft8/qso_controller.py:759-796 | Any other CQ is answered at once, with our grid or in the fast mode with our report if the grid is known, unless answers are put off |
| `OperatorChoices.OwnCqIsAnswered` | cw_discover/ft8/qso_controller.py:741-796 | Our own CQ heard back starts a contact with ourselves exactly when it passes the filters of any other CQ |
| `OperatorChoices.WantedCqIsKept` | cw_discover/ft8/qso_controller.py:763-776 | Put off, it is kept behind the candidates still recent with call, tone, strength, cycle, grid, distance and score, exactly if far enough and not for another region |
| `OperatorChoices.WhatIsKnown` | cw_discover/ft8/qso_controller.py:574-590 | Grid and distance of a station come from its message, what is remembered and the tables, in that order |
| `OperatorChoices.HearingIsRemembered` | cw_discover/ft8/pro_operator.py:115-127 | What is heard of a call replaces what was remembered of it and of no other call |
| `OperatorChoices.CallersAreDetected` | cw_discover/ft8/qso_controller.py:233-325 | A message is a call to us exactly when it names us second, or first in the states that believe it with a report or a square that is not ours and is not our own message |
| `OperatorChoices.DisplacesExactly` | cw_discover/ft8/qso_controller.py:369-392 | A caller displaces exactly a stuck contact with another station in the professional modes, in the balanced mode if not weaker than the partner by more than the margin |
| `OperatorChoices.CallIsTaken` | cw_discover/ft8/qso_controller.py:687-735 | Without a contact a call to us is answered case by case: nothing to RR73, 73 or a station worked today that sends no report; our R-report to a report, both noted; nothing while the grid is unknown; kept in CQ mode if it passes the filters; else our grid, or our report in the fast mode |
| `OperatorChoices.CallDisplaces` | cw_discover/ft8/qso_controller.py:610-626 | A caller that may displace a stuck contact is answered as if there had been no contact, and the contact is dropped |
| `OperatorChoices.CallIsKeptMeanwhile` | cw_discover/ft8/qso_controller.py:628-654 | A caller too weak to displace a stuck contact is kept if it passes the filters, and left alone if it sends a report, RR73 or 73 |
| `OperatorChoices.ChosenIsFirstBest` | cw_discover/ft8/qso_controller.py:536-558 | Of a buffer the first candidate of the highest score is chosen among exactly those recent and not cooling down, none exactly if there is none |
| `OperatorChoices.CycleAnswersCq` | cw_discover/ft8/qso_controller.py:536-547 | At the first call in a new cycle without a contact that candidate's CQ is answered and the buffer is empty |
| `OperatorChoices.CycleAnswersCaller` | cw_discover/ft8/qso_controller.py:549-568 | In CQ mode the first best caller kept is answered with our report, whatever cools down |
| `OperatorChoices.CycleCallsCq` | cw_discover/ft8/qso_controller.py:507-522 | With nobody to answer, a CQ is called on our tone exactly when the wait is over in our CQ period, which is this one if none was chosen |
| `OperatorChoices.ArmingCallsCq` | cw_discover/ft8/qso_controller.py:411-414 | The first new cycle after arming calls CQ in its own period if nobody is to be answered |
| `OperatorChoices.GivingUpTakesCaller` | cw_discover/ft8/qso_controller.py:352-367 | Out of retries before closing there is no contact and nothing queued, except that in the balanced and the CQ mode the first best caller kept is answered with our report |
| `OperatorChoices.EngagedSays` | cw_discover/ft8/qso_controller.py:202-230 | Engaging a call by hand queues our R-report if its report is given, noting both, and our grid otherwise, alone and for the other period than this one |
| `OperatorTypes.SettingsMean` | cw_discover/ft8/pro_operator.py:74-86 | Three retries and 600 s by default, two and 180 s in the fast mode, settings counting from one retry and 30 s |
| `OperatorRuns.ChecksPassExactly` | cw_discover/ft8/qso_controller.py:1008-1013 | The worker passes the slot wait exactly in the item's window with the item's epoch current, and the second check exactly with it current |
| `SlotClock.TxSlotIsNext` | cw_discover/ft8/ft8_slot.py:85-89 | The filed slot is the one in which the window next opens, wherever the delay is not short |
| `ProtocolProofs.UpperMeans` | cw_discover/ft8/ft8_protocol.py:46-47 | Upper-casing turns each small letter into its capital and leaves every other character |
| `ProtocolProofs.GridTokens` | cw_discover/ft8/ft8_protocol.py:142-153 | Among texts of letters and digits the grids are a four-character square, alone or with two more letters, but never RR73 |
| `ProtocolProofs.BracketsFall` | cw_discover/ft8/callsign.py:64-75 | A call in the angle brackets of a hashed call is that call |
| `ProtocolProofs.ModifierPassedOver` | cw_discover/ft8/ft8_protocol.py:50-56 | A CQ with a modifier parses to the call and the grid behind it |
| `WorkedLog.KeysMatchExactly` | cw_discover/ft8/forgalmi_log.py:138-179 | A query's key is among the keys of some lines exactly when one of them is a record of the day with that call, band and mode, up to case and blanks, no mode standing for FT8 |
| `WorkedLog.TailIsSuffix` | cw_discover/ft8/forgalmi_log.py:138-141 | What a load reads is the longest run of whole lines at the end within 262144 bytes |
| `BufferedLog.RecordsAreListed` | cw_discover/ft8/decode_tail.py:42-51 | The records of a file, read from the back as the offset needs, are those of its lines from the front, each once |
| `BufferedLog.DayHoldsTime` | cw_discover/ft8/atomic_io.py:85-86 | A record's day is the one whose 86400 seconds hold its time |
| `DecodeFilter.RecentExactly` | cw_discover/ft8/engine.py:123-130 | The memory holds exactly the last 5000 emissions |
| `PttFirmware.LineIsObeyed` | firmware/esp32_ptt/main.cpp:79-156 | Every line has the effect its words name, whatever blanks stand before them, and lines that say nothing known have none |
| `PttFirmware.LinesAreObeyed` | firmware/esp32_ptt/main.cpp:173-190 | The lines of a pass are obeyed one after the other |
| `PttFirmware.LineCompleted` | firmware/esp32_ptt/main.cpp:173-190 | A line end completes the text since the last one, cut to 95 characters; a carriage return is skipped |
| `SessionStats.SearchesStayApart` | cw_discover/ft8/analytics.py:234-242 | Each cycle bucket holds the candidates of its own searches, each hour bucket its own audio reports and those that clipped |

## Left out

- The unlocked middle of `engage_call` (`cw_discover/ft8/qso_controller.py:218-230`), and the unlocked reads at the start of `on_decode` and `on_cycle`: every public call is one atomic step.
- One call sees one instant of each clock, although the source asks for the time several times.
- Status texts, decision records, band and dial frequency, and the call-to-grid tables consulted last when a record's grid is unknown: a record's grid comes from the contact or from what was heard.
- The active contact is a value held by the operator, not a separate object others could alias; nothing in the source shares it.
- Simulated transmission in the worker steps of `OperatorSteps` (it is in `TxPlayer`), the transmit wait without a period, shutdown and the sentinel that ends the worker.
- Play halted part-way counts as sent, as in the source; `TxPlayer` calls such a start not complete, and the spacing results speak of complete ones.
- `OperatorExchange` follows the basic mode with retries in between; the shorter openings of the professional modes and other stations' messages between the seven are covered only by the results about all runs.
- A raise of the parser on our own last message, which needs a call sign of fewer than three characters (`OwnMessageParses`): the model then sees no message there.
- Text other than ASCII, and white space other than blank, tab, line feed and carriage return.
- Cycle tags of decodes are slot starts rather than text (`CycleKeys` shows that keys and slot starts correspond up to 2068); one-digit fields that `strptime` would also accept are read as no key.
- Rounding of floating point: times, tones and scores are exact reals, which do not run into the limits of a double.
- Errors in the middle of a write, `fsync`, renaming, and directories: a file is the sequence of its records or lines with their lengths. Records without a reception time are not modelled, since the program writes none.
- The tail's missing-file answers, its `set_path` on an equal path, and its memory-mapped twin; the Hungarian and ADIF forms of the log, and `worked_calls_today`.
- A hop buffer of capacity zero, whose doubling would not end; the program makes none. Down-sampling before the buffer and conversion to 16 bits after it.
- `HopBuffers.HopBuffer.Extend`: elements are any type; the single-precision conversion of samples is not modelled.
- Coordinates, distances and location texts in the session table (grid square and whether it has a position are inputs), means and compass or distance statistics in the buckets, and the rounded busy level: they come from geographic and floating-point lookups.
- `PttFirmware`: numbers beyond 64 bits, a zero byte inside a line, replies on the serial port, and setting the wall clock, whose value is an input of each pass. A pass and the lines read in it share one counter value; a line may come at any time in the run model.
- PyFT8 encoding and decoding, sound, serial ports, the host's PTT watchdog, the windows, maps and scripts.
