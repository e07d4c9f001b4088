# Verified model of the OCPP core

A Dafny model of the parts of an OCPP library that have to be right: the sans-I/O protocol engine with
its durable queue, the journal behind that queue, the composite charging schedule, exact decimal
arithmetic with its parser and printer, the transaction machine and the ledger it reports to, and the
authorization cache.

## How the model is put together

- **Engine.** `EngineModel` has one function per function of src/engine/mod.rs, on a state value that
  also carries the log of a run. `Monitor` is an independent statement of the protocol: it reads a log
  one event at a time, knows nothing of queues and indices, and says whether the next event is
  allowed. `EngineInvariant` relates the two, `EngineSafety` proves that every entry point keeps the
  relation, and `Traces` and `EngineTheorems` turn acceptance by the monitor into statements about whole
  runs: any commands, any clock readings, any frames, any mix of disconnections, cancellations and
  shutdowns. `EngineRecovery` follows every stored message from event to event, `EngineLives` puts the
  engine on its journal and cuts its lives at any event, `EngineAttempts` and `EngineOrder` count and
  order transmissions over those lives. `EngineOutcomes` says what is reported of every call,
  `EngineSubmission` what becomes of a submitted one, `EngineReactions` what the peer's requests meet
  with; `EngineTimers`, `EngineHeartbeats` and `EngineBoot` when calls time out, heartbeats go and boot
  states expire; `EngineDrain` when a drain ends and what an outage leaves; `EngineHistory` which step
  logs what, and `EngineProgress` what one step achieves.
  `EngineObject` is the mutable object: each method leaves the state the corresponding function gives,
  so all of the above is about it.
- **Stores.** `Queue` has the in-memory store and the retry policy; `Journal` and `FileStore` the
  append-only journal, its replay, compaction and crash recovery.
- **Decimals.** `Decimals` states rounding half to even as a relation with one solution and proves the
  arithmetic against it. `DecimalText` is the parser, `DecimalRounding` what its stages amount to,
  `DecimalPrinting` the printer.
- **Charging.** `Charging` is the stacking rule at one instant, `Stacking` what it comes to over the
  profiles' own fields, `CompositeSchedule` the breakpoint sweep, `CompositeTheorems` their equality at
  every second, `CompositeLimits` where it ends.
- **Accounting.** `Transactions` numbers events, `TransactionRules` says when there are any, `Ledger`
  records them, `LedgerHistory` says what it answers and keeps for any history of deliveries,
  `LedgerTheorems` and `ExactlyOnce` show that order and repetition do not matter.
- **Cache.** `AuthorizationCache` is a stamped map against a list kept in order of use.

Where the source updates fields or walks a loop, the model does too; each such method is proved against
a function on values, and the properties are proved about that function.

## Where the code and its description part

- An `Accepted` boot state is described as normal operation, and one would expect it to last. A retry
  armed by an earlier verdict is not cleared by it, so the acceptance is lost when that retry comes due:
  `EngineBoot.AcceptanceCanBeLost` has a run, `EngineBoot.TickExpiresIffDue` the exact condition.
- The retry policy bounds the transmissions of one process and not of a message: an attempt is on record
  only once it is known to be lost. `EngineAttempts.TransmissionsOverLives` is the exact count over
  restarts, `EngineAttempts.WithinPolicyIff` when it stays within the policy, and
  `EngineAttempts.EveryLifeTransmits` builds as many lives as one likes that each transmit.
- The policy is described as a wait before each retry. A restored message does not wait, whatever is on
  record: `EngineAttempts.ThirdAttemptAtOnce` has an input, and `EngineTheorems.RetriesWait` says that
  exactly the repeats of one run do.
- A drain is described as flushing the queue and then closing. A cancellation that takes the last call
  closes nothing, so the connection stays up until the next tick: `EngineDrain.CancelLeavesDrainOpen` says
  exactly when.
- The parser is described as rounding half to even. It rounds in up to three stages, and two of them can
  compound: `DecimalPrinting.StagedRoundingMisses` has a text that comes out as the wrong neighbour, and
  `DecimalPrinting.StagedRoundingRefuses` one that is refused though its rounding fits. What holds for
  every text is a bound of 5/9 of a unit in the last place; `DecimalRounding.RoundedOnceIff` says exactly
  when the answer, or the refusal, is that of one rounding, and `DecimalRounding.RefusedIff` exactly what
  is refused.
- `checked_pow10` refuses some shifts of zero at a fine scale although zero is the answer, and accepts
  larger ones: `Decimals.ShiftRefusedIff`.
- Unit conversion is described as having no answer for a zero phase count; the code takes at least one
  phase: `Charging.ZeroPhasesAreOne`, with the exact refusals in `Charging.WattsRefusedIff` and
  `Charging.AmperesRefusedIff`.
- Counter transaction ids are described as unique when the prefix differs after every reboot. A prefix
  that continues an earlier one with digits meets it: `Transactions.DifferentPrefixesCanMeet`, and
  `Transactions.PrefixesMeetIff` is the exact condition.
- Amperes to watts is described as exact. It rounds when the scales of limit and voltage sum past
  eighteen: `Charging.WattsCanRound`, and `Charging.WattsExactIff` says when.
- Filling the gaps of a composite schedule does not fill a gap at its front, since that is never a step:
  `CompositeTheorems.LeadingGapStaysIff`, with `CompositeLimits.GapAtFront` for an input.

## Model

| member | source | states |
|---|---|---|
| EngineTheorems.TransactionsInOrder | src/engine/mod.rs:1574-1656 | In every run, when a transaction message is put on the wire every transaction message issued before it already has its outcome, whatever was retried, lost, cancelled or overtaken in between. |
| EngineOrder.InOrderOverLives | src/engine/mod.rs:1574-1656 | When a stored transaction message is transmitted, in whatever life, every stored transaction message accepted before it, in whatever life, has left the store: in an earlier life, or earlier in this one. |
| EngineTheorems.CallsConserved | src/engine/mod.rs:920-1001 | In every reachable state each token handed out is in exactly one of the queue, the slot and the reported outcomes, and there once; no other token is anywhere. |
| EngineTheorems.DrainedMeansAllOver | src/engine/mod.rs:1764-1775 | A drained close is reported only after every call issued before it has its outcome. |
| EngineTheorems.TransmissionsBounded | src/engine/mod.rs:1522-1563 | In one run a transaction message goes out at most max(1, attempts) times, starting from the attempts on record when it was restored; any other message at most once. |
| EngineTheorems.RetriesWait | src/engine/queue.rs:208-216 | In one run a transmission follows a loss by the interval times the transmissions made, with none in between, if and only if it repeats one of the same run. |
| EngineTheorems.TransmittedAsSubmitted | src/engine/mod.rs:1597-1656 | Every transmission carries the action, payload and kind submitted, and is numbered by the transmissions before it. |
| EngineTheorems.BootGateHolds | src/engine/mod.rs:1574-1595 | Nothing but `BootNotification` and triggered messages leaves a gated station unless some `BootNotification` it transmitted got a result whose payload said `Accepted`, and no boot event since took that back. |
| EngineTheorems.OneOutstandingCall | src/engine/mod.rs:1624-1655 | Between any two transmitted calls the slot was freed by an answer, a timeout or a disconnection. |
| EngineTheorems.AnswersMatchLatest | src/engine/mod.rs:1455-1460 | The slot is freed only under the token and id of the latest call transmission. |
| EngineTheorems.IdsNeverRepeat | src/engine/mod.rs:1597-1656 | With a prefix that leaves room for the counter and below its wrap, no two transmissions of a run share an id. |
| EngineTheorems.LateAnswerIgnored | src/engine/mod.rs:1387-1394 | A result or error for any transmission but the outstanding one is reported as unexpected and changes nothing else. |
| EngineTheorems.RequestsAnsweredOnce | src/engine/mod.rs:1462-1467 | Every answer is to a request surfaced on the same connection and not answered since, so none is answered twice or after its connection ended. |
| EngineTheorems.OutstandingRequestsBounded | src/engine/mod.rs:1263-1385 | The peer never has more than max(1, limit) requests outstanding. |
| EngineOutcomes.OutcomesTell | src/engine/mod.rs:1387-1446 | For every outcome of every run, every result there is, if and only if: a payload exactly when the last thing to become of the call was an answer with that payload, the peer's refusal when it was one, sent when it is a transmitted `SEND`, timed out, out of retries, disconnected, queue full and cancelled each on its exact condition over the log; and the id it goes by is that of the latest transmission, or none for a call that had none or waited for its next. |
| EngineOutcomes.ResultReported | src/engine/mod.rs:1387-1422 | In every run a result from the peer is reported at once, with its payload, as the outcome of the call waiting under its id; where none waits, nothing is freed or reported. |
| EngineOutcomes.RefusalReported | src/engine/mod.rs:1424-1445 | The same for an error. |
| EngineOutcomes.CancelledIffAsked | src/engine/mod.rs:1067-1080 | In every run a command makes a call end as cancelled if and only if it asks for that call's cancellation and the call is queued. |
| EngineSubmission.CallSubmits | src/engine/mod.rs:920-1001 | Every call not refused is issued once, with the content given; it outlasts an outage, is stored, or fails on the spot as disconnected or for want of room, each if and only if its options, its action, the connection and the room left say so. |
| EngineSubmission.RefusedIff | src/engine/mod.rs:927-941 | What is refused outright, and why, each if and only if; a refusal changes nothing but the clock. |
| EngineLives.DefaultTransactionNeverLost | src/engine/mod.rs:943-979 | A transaction message submitted with default options, connected or not, to an engine with room in its queue is settled by the end of any life that saw the call return, or found by the next and never lost after. |
| EngineTimers.TimeoutsOnlyWhenDue | src/engine/mod.rs:1143-1153 | In every run no call times out before the timeout in force when it was transmitted has passed since. |
| EngineTimers.TickTimesOutIff | src/engine/mod.rs:1143-1153 | In every run a tick lets a call time out if and only if one is unanswered and that time has come. |
| EngineHeartbeats.TickBeatsIff | src/engine/mod.rs:1155-1165 | In every run a tick issues the engine's own `Heartbeat`, and no other call, if and only if the heartbeat armed last is due, the connection is up, the station accepted and the call not refused. |
| EngineHeartbeats.HeartbeatsPaced | src/engine/mod.rs:1676-1695 | In every run the heartbeat is armed only by the interval the latest acceptance gave, and no sooner than that after any transmission before. |
| EngineHeartbeats.TrafficPostpones | src/engine/mod.rs:1676-1695 | After any frame from the peer, a connection, a command that transmits a call or a heartbeat that fell due, the next heartbeat is a whole interval away. |
| EngineHistory.ApplyOnward | src/engine/mod.rs:869-885 | Which command may log which sort of event: only a tick a timeout, a due heartbeat or an expiry, only a frame received the arming of the boot retry, only a submission or a tick a new call, and so on. |
| EngineReactions.CallReaction | src/engine/mod.rs:1263-1385 | A `CALL` is refused with a code if and only if that code's condition holds, surfaced if and only if none does, after exactly the complaints due; and what that changes. |
| EngineReactions.AnswerTells | src/engine/mod.rs:1004-1038 | An answer goes out if and only if its request is open, which it then is no longer; a CSMS takes the boot state from the verdict it gives. |
| EngineReactions.SolicitsIff | src/engine/mod.rs:1746-1762 | Of what a CSMS submits it remembers exactly what that licenses the station to say, and forgets nothing. |
| EngineReactions.UnreadableTells | src/engine/mod.rs:1191-1230 | A frame that cannot be read is complained of, and answered if and only if its kind calls for it. |
| EngineReactions.RejectTells | src/engine/mod.rs:1045-1061 | A result is rejected if and only if the version has a message for that. |
| EngineDrain.DrainClosedAtOnce | src/engine/mod.rs:1764-1775 | A drain that is over is closed in the step that ends it and at every tick or disconnection, but where a cancellation or a new connection ends it. |
| EngineDrain.CancelLeavesDrainOpen | src/engine/mod.rs:1067-1080 | A cancellation ends a drain without closing it if and only if it takes the only call left. |
| EngineDrain.TickDrainsIff | src/engine/mod.rs:1178-1188 | A tick leaves the engine draining if and only if it was, something is left, and the deadline has not come. |
| EngineDrain.ShutdownTells | src/engine/mod.rs:1087-1098 | A shutdown drains until its deadline unless there is nothing to drain; a second changes nothing. |
| EngineDrain.OfflineQueueKept | src/engine/mod.rs:1113-1141 | In every run, while the connection is down nothing is outstanding and every queued call is one that was to wait out an outage. |
| EngineSafety.ApplyKeeps | src/engine/mod.rs:869-885 | Every entry point, from any state related to an accepted log, leaves a state related to an accepted log. |
| EngineSafety.RunKeeps | src/engine/mod.rs:869-885 | Every run from a sound store leaves a log the monitor accepts, and a state that agrees with it. |
| EngineSafety.PumpKeeps | src/engine/mod.rs:1597-1656 | Pumping puts on the wire only what the monitor allows at that moment and keeps the relation. |
| EngineSafety.RequeueOrFailKeeps | src/engine/mod.rs:1522-1563 | A lost call goes back in its place in the order, or fails as what lost it or as out of retries, under the id it was lost under; and the relation holds again. |
| EngineSafety.DisconnectedKeeps | src/engine/mod.rs:1113-1141 | Losing the connection, with its in-place sweep of the queue, keeps the relation. |
| EngineSafety.OnCallResultKeeps | src/engine/mod.rs:1387-1422 | An answer frees its slot, settles, is reported as what it carried under the id it answers, and pumps, in an order the monitor accepts. |
| EngineSafety.WithStoreKeeps | src/engine/mod.rs:747-784 | An engine built on a sound store starts related to the log of what it restored. |
| EngineRecovery.StoreHoldsUndelivered | src/engine/mod.rs:1496-1512 | At the end of any run the store holds, in order and with their contents, exactly the messages accepted into it that have no outcome. |
| EngineRecovery.StoreIsTold | src/engine/mod.rs:1496-1503 | The store at the end of every run is the fold of the log in which every operation on the store is one event. |
| EngineRecovery.StoredOrSettled | src/engine/mod.rs:1496-1503 | A message accepted into the store is in it, under its number and with its contents, if and only if it is not settled; after that nothing is stored under its number. |
| EngineRecovery.EveryMomentAccounted | src/engine/mod.rs:1387-1422 | At every event of every run, inside a command too, each accepted message is in exactly one of three places: stored; settled and its outcome not yet among the outputs; its outcome among the outputs. Between commands none is in the second. |
| EngineRecovery.RecordsLag | src/engine/mod.rs:1522-1563 | The attempts on record are the ones the message came with or leave it a retry, and lag the transmissions made by one at most. |
| EngineRecovery.RestartQueuesStored | src/engine/mod.rs:747-784 | The rebuilt queue is the stored messages in their order, each under its own number. |
| EngineHistory.RunOnward | src/engine/mod.rs:869-885 | What a run has logged stays where it is. |
| EngineLives.JournalFollows | src/engine/store_file.rs:294-328 | At every event of a life on the journal, the journal is valid, holds what the log tells, and numbers as the engine does. |
| EngineLives.EmptyJournal | src/engine/store_file.rs:144-163 | An empty journal opens, to nothing, and is where lives can begin. |
| EngineLives.CutReopens | src/engine/store_file.rs:144-163 | A life cut at any event, or in the middle of the operation there, leaves something that reopens to what the log had told at the cut or just after it. |
| EngineLives.RebuiltQueue | src/engine/mod.rs:747-784 | After such a cut the next engine queues exactly the messages not settled by then, oldest first. |
| EngineLives.NeverLost | src/engine/mod.rs:747-784 | Through any number of lives and crashes a stored message is settled in one of them, each before that having found it in the store, or is stored still. |
| EngineLives.AcceptedNeverLost | src/engine/mod.rs:920-1001 | A message accepted in any life is settled in it, or found by the next one and never lost after. |
| EngineAttempts.LifeAccount | src/engine/mod.rs:1522-1563 | One life: attempts on record plus transmissions come to one past the limit at most, and unless it settled the message the next life finds all of them on record but perhaps the last. |
| EngineAttempts.TransmissionsOverLives | src/engine/mod.rs:1522-1563 | Over all lives, attempts on record plus transmissions equal where the count ended (known in the life that settled the message, or on record in the end) plus one for every life that ended before its last transmission was on record; the count ends at one past the limit at most. |
| EngineAttempts.WithinPolicyIff | src/engine/mod.rs:1522-1563 | A new message stays within max(1, attempts) over all its lives if and only if its unrecorded transmissions fit in what its count left of it. |
| EngineAttempts.LapseIff | src/engine/mod.rs:1597-1656 | A life that did not settle the message leaves the record behind if and only if, as far as the device can tell, its last transmission was never recorded. |
| EngineAttempts.EveryLifeTransmits | src/engine/mod.rs:1597-1656 | So the number of lives is no bound: a message can be transmitted once in each of as many lives as one likes, whatever the policy. |
| EngineAttempts.RestoredGoesAtOnce | src/engine/mod.rs:747-784 | A restored transaction message goes out on the first connection, however many attempts are on record. |
| EngineAttempts.ThirdAttemptAtOnce | src/engine/mod.rs:747-784 | Two attempts on record and a minute between retries: the third goes out at instant zero. |
| EngineProgress.PumpLeavesNothingDue | src/engine/mod.rs:1597-1656 | After pumping a live connection no `SEND` that may go is queued, and no `CALL` that may go while the slot is free. |
| EngineProgress.CallReactedToOnce | src/engine/mod.rs:1263-1385 | A parsed `CALL` adds exactly one of an immediate error and a surfaced request. |
| EngineProgress.SendNeverAnswered | src/engine/mod.rs:1469-1479 | A parsed `SEND` puts nothing on the wire and opens no request, whatever is wrong with it. |
| EngineProgress.LoadBounded | src/engine/mod.rs:920-1001 | Queue and slot together never exceed the limit plus one, or what was restored if that was more. |
| EngineProgress.AcceptedSurvivesTimeoutIff | src/engine/mod.rs:1143-1189 | An accepted station is still accepted after a timeout if and only if no pending boot retry has come due. |
| EngineProgress.AcceptanceKeepsPendingRetry | src/engine/mod.rs:1697-1743 | An acceptance leaves a pending boot retry in place. |
| EngineProgress.BootAnswerObserved | src/engine/mod.rs:1697-1743 | The answer to a station's `BootNotification` makes the boot state the one it names, if it names one, and arms the retry, for the time it gives or the fallback, if and only if it says to wait or turns the station away. |
| EngineBoot.ExpiresOnlyWhenDue | src/engine/mod.rs:1143-1189 | In every run the boot state expires only through a retry that was armed, is not spent or replaced, and has come due. |
| EngineBoot.TickExpiresIffDue | src/engine/mod.rs:1143-1189 | In every run a tick makes the boot state expire if and only if such a retry is pending and due. |
| EngineBoot.AcceptanceCanBeLost | src/engine/mod.rs:1697-1743 | A run in which a station is told to wait, is accepted before the wait is over, and loses the acceptance when it is. |
| EngineObject.Engine.constructor | src/engine/mod.rs:747-784 | A new engine is in the state restored from the store, with nothing to hand out. |
| EngineObject.Engine.Handle | src/engine/mod.rs:869-885 | Any entry point moves the object as the model's step does, so a run of the object is a run of the model; outputs not yet taken are the visible part of the log. |
| EngineObject.Engine.PollOutput | src/engine/mod.rs:894-896 | Outputs are handed out once, in order. |
| EngineObject.Engine.CallWith | src/engine/mod.rs:920-1001 | Submission: its refusal or token, and the whole new state, of which `EngineSubmission.CallSubmits` says what is stored, kept and failed. |
| EngineObject.Engine.Pump | src/engine/mod.rs:1597-1656 | The loop over the queue reaches the state of the recursive specification. |
| EngineObject.Engine.EligibleAt | src/engine/mod.rs:1574-1595 | The scan decides eligibility as the specification does. |
| EngineObject.Engine.RequeueOrFail | src/engine/mod.rs:1522-1563 | Requeueing, or failing, what was in flight: the whole new state. |
| EngineObject.Engine.OnDisconnected | src/engine/mod.rs:1113-1141 | The in-place sweep equals failing the unqueueable one by one. |
| EngineObject.Engine.OnTimeout | src/engine/mod.rs:1143-1189 | Deadlines in the source's order: call, heartbeat, boot retry, drain. |
| EngineObject.Engine.OnReceived | src/engine/mod.rs:1191-1261 | Every parsed or unreadable frame: the whole new state. |
| EngineObject.Engine.RespondTo | src/engine/mod.rs:1004-1039 | An answer to a peer request: refused when none is open, otherwise the whole new state. |
| EngineObject.Engine.CancelCall | src/engine/mod.rs:1067-1080 | A queued call is removed and reported; nothing is pumped. |
| MessageIds.IdsDistinctIffPrefixShort | src/types.rs:596-619 | Ids of different counters are different if and only if the prefix leaves 13 of 36 characters. |
| MessageIds.ShortPrefixKeepsIdsApart | src/types.rs:596-619 | With such a prefix equal ids mean equal counters. |
| MessageIds.LongPrefixCollides | src/types.rs:596-619 | A longer prefix makes two counters share an id. |
| MessageIds.WriteId | src/types.rs:596-619 | The digit loop, on its buffer, writes the prefix and the counter in base 36, cut to the limit; the engine mints its ids with it. |
| MessageIds.CounterIds.NextId | src/types.rs:596-619 | The id of the counter, which advances, wrapping. |
| Queue.MemStore.Put | src/engine/queue.rs:134-146 | A message is appended under the next number, or refused when full. |
| Queue.MemStore.Remove | src/engine/queue.rs:151-154 | Exactly the message with that number is gone. |
| Queue.MemStore.Record | src/engine/queue.rs:156-161 | Only that message's attempts change. |
| Queue.AckOrdered | src/engine/queue.rs:151-154 | Removal keeps the store ordered by number. |
| Journal.RefusedIffQueuedTwice | src/engine/store_file.rs:185-244 | Replay refuses a journal if and only if some number is pushed twice before any tear. |
| Journal.SnapshotReplays | src/engine/store_file.rs:247-270 | A rewritten journal replays to exactly the messages it lists. |
| FileStore.AgreesWithMemory | src/engine/store_file.rs:294-328 | Each operation changes what the engine sees as the in-memory store does, with the same numbers. |
| FileStore.PerformKeepsValid | src/engine/store_file.rs:273-328 | After every operation the journal replays to the live map, and holds fewer than 64 + 4 × live records. |
| FileStore.RewritePaidFor | src/engine/store_file.rs:285-290 | An automatic rewrite copies at most two thirds of the records appended since the previous one. |
| FileStore.CrashRecovers | src/engine/store_file.rs:144-163 | Whatever a crash leaves (untouched, torn, appended, rewritten) reopens, to the messages from before or after the interrupted operation. |
| FileStore.CrashWhileOpening | src/engine/store_file.rs:144-163 | Crashing while opening loses nothing. |
| FileStore.ReopenedSameEntries | src/engine/store_file.rs:144-163 | Reopening finds the same messages in the same order, numbering above all of them. |
| FileStore.SurvivesUntilRemoved | src/engine/store_file.rs:294-328 | Through any life with any crashes a stored message keeps its number and contents until it is removed. |
| FileStore.FileStore.ReadJournal | src/engine/store_file.rs:185-244 | The reading loop computes replay. |
| FileStore.FileStore.RewriteJournal | src/engine/store_file.rs:247-270 | The writing loop leaves the snapshot of the live map. |
| FileStore.FileStore.OpenOn | src/engine/store_file.rs:144-163 | Opening succeeds if and only if replay does, and yields a valid store. |
| FileStore.FileStore.PushCall | src/engine/store_file.rs:294-303 | Pushing keeps the store valid and acts as the in-memory push. |
| FileStore.FileStore.Pending | src/engine/store_file.rs:305-311 | Lists the live messages oldest first. |
| FileStore.FileStore.AckCall | src/engine/store_file.rs:313-319 | Acknowledging keeps the store valid and acts as the in-memory removal. |
| FileStore.FileStore.RecordAttempts | src/engine/store_file.rs:321-328 | Noting attempts keeps the store valid and acts as in memory. |
| Decimals.CompareIsNumeric | src/decimal.rs:539-567 | Comparison is the order of the numbers, whatever their scales; hence total. |
| Decimals.AtFits | src/decimal.rs:539-567 | Bringing two decimals to one scale never leaves an `i128`, so the fallback of the comparison is never taken. |
| Decimals.PowerOfTen | src/decimal.rs:145-153 | The loop computes the power of ten. |
| Decimals.EqualIffNormalizedAlike | src/decimal.rs:249-258 | Two decimals compare equal if and only if they normalize alike. |
| Decimals.Normalize | src/decimal.rs:249-258 | The loop reaches the one normal form of the number. |
| Decimals.HalfEvenUnique | src/decimal.rs:829-845 | The rounding relation has one solution. |
| Decimals.RoundOffHalfEven | src/decimal.rs:829-845 | Dropping any number of digits from anything a `u128` holds rounds half to even. |
| Decimals.SumsAreExact | src/decimal.rs:314-342 | Sums and differences that are returned are exact, at the finer scale. |
| Decimals.RoundToIsHalfEven | src/decimal.rs:292-308 | Rounding to a scale is the exact number rounded half to even, and is never refused to a coarser scale. |
| Decimals.MulIsHalfEven | src/decimal.rs:345-363 | A product is exact while the scales fit, otherwise the exact product rounded half to even; it is refused only when that does not fit. |
| Decimals.MulRefusedIff | src/decimal.rs:345-363 | A product is refused if and only if it does not fit, as it is or rounded. |
| Decimals.DivIsHalfEven | src/decimal.rs:371-429 | A quotient that is returned is the exact fraction at the scale asked for rounded half to even, for shifts of either sign and with the remainder counted. |
| Decimals.DivRefusedIff | src/decimal.rs:371-429 | A quotient is refused if and only if the divisor is zero, the scale out of range, the value on the way too wide for a `u128`, or the answer does not fit. |
| Decimals.CheckedPow10 | src/decimal.rs:438-493 | The loops compute the closed form of moving the point. |
| Decimals.ShiftIsExact | src/decimal.rs:438-493 | Moving the point is exact. |
| Decimals.ShiftRefusedIff | src/decimal.rs:438-493 | It is refused if and only if no decimal is the answer, or it is a zero whose scale lands between the cut-offs. |
| DecimalText.FromAscii | src/decimal.rs:598-749 | The parser's loops compute the grammar, the accumulator and the staged rounding. |
| DecimalText.AccumulateDigits | src/decimal.rs:622-662 | The digit loop gathers the digits read, and refuses a second point. |
| DecimalText.FirstRounding | src/decimal.rs:663-669 | The digits that found no room round the kept ones half to even. |
| DecimalText.ConvertAnswers | src/decimal.rs:701-749 | A written number is refused only when it is larger than every decimal; accepted, it is exact without a fraction and within 5/9 of a unit in the last place with one. |
| DecimalText.ParseWithinBound | src/decimal.rs:598-749 | A text outside the grammar, and only such a text, is refused as not a number; every other is answered within that bound. |
| DecimalText.FittingIsExact | src/decimal.rs:701-749 | Digits that fit the mantissa at a scale up to 18 are kept as written. |
| DecimalRounding.StageIsHalfEvenIff | src/decimal.rs:829-845 | After roundings that stayed close, one more is half to even of the number itself if and only if it did not meet an exact half and go the other way from the number. |
| DecimalRounding.RoundedOnceIff | src/decimal.rs:701-749 | For every written number, refused ones included: the parser answers what one rounding half to even would, with as many fraction digits as fit and a refusal only when not even the integer part does, if and only if no stage gives up a unit that would have fitted or overshoots a half it met. |
| DecimalRounding.RefusedIff | src/decimal.rs:701-749 | For every written number, whether it is refused: by one bound on its digits, which the stages push below where one rounding would put it. |
| DecimalRounding.RefusedFromThreshold | src/decimal.rs:735-742 | With digits the accumulator holds and a scale a decimal can have, that bound is one number per scale. |
| DecimalRounding.ParseRoundedOnceIff | src/decimal.rs:598-749 | Both of texts. |
| DecimalText.OneStageIsHalfEven | src/decimal.rs:701-749 | A condition on digits and scale that rules a miss out: at most one stage has digits to drop. |
| DecimalText.ClampOnlyBeyond | src/decimal.rs:671-693 | The exponent is read as written below a million, and never falls back below it. |
| DecimalPrinting.ParseAfterPrint | src/decimal.rs:900-917 | Parsing what is printed returns the same mantissa and scale if and only if the mantissa is not the least. |
| DecimalPrinting.PrintAfterParse | src/decimal.rs:900-917 | Printing the parse of any canonical text in range returns the text. |
| DecimalPrinting.PrintsCanonical | src/decimal.rs:900-917 | What is printed is canonical and means the decimal. |
| DecimalPrinting.StagedRoundingMisses | src/decimal.rs:717-742 | A text, 9.9999999999999999549, whose answer is not the nearest. |
| DecimalPrinting.StagedRoundingRefuses | src/decimal.rs:735-742 | A text, 9223372036854775807.46, that is refused though its half-even rounding fits. |
| Charging.ConversionIsExact | src/station/smart_charging.rs:361-378 | Amperes become watts exactly while the scales fit and past that by the exact product rounded half to even; watts become amperes by the exact quotient rounded half to even to a milliampere. |
| Charging.WattsExactIff | src/station/smart_charging.rs:374-374 | Past eighteen places amperes become watts exactly if and only if the digits past them are zeros. |
| Charging.WattsCanRound | src/station/smart_charging.rs:374-374 | A limit and a voltage for which they are not. |
| Charging.WattsRefusedIff | src/station/smart_charging.rs:361-378 | A conversion to watts is refused if and only if volts times phases, or the product with it, does not fit. |
| Charging.AmperesRefusedIff | src/station/smart_charging.rs:361-378 | A conversion to amperes is refused if and only if volts times phases does not fit, the voltage is zero, the value on the way is too wide, or the answer does not fit. |
| Charging.ZeroPhasesAreOne | src/station/smart_charging.rs:371-371 | A phase count of zero or less counts as one, given or in the supply. |
| Charging.LeadingIsHighest | src/station/smart_charging.rs:643-658 | The leading profile speaks at that instant, none that speaks stands higher, and the later leads on a tie; there is none only when none speaks. |
| Stacking.StackingRule | src/station/smart_charging.rs:630-710 | Over the profiles alone: priority charging overrules the transaction's own profile and that the default; of that limit, the station's and the outside one the lowest constrains, the earlier named of equals, and gives the phases; what is generated on site comes on top, exactly where the sum can be written; and where nothing constrains it is the generation, or no limit. |
| Stacking.LeadingSays | src/station/smart_charging.rs:643-658 | A purpose's limit is what its highest profile with something to say says, the last of equals, converted from its own unit to the one asked for; a conversion refused leaves the purpose silent. |
| Stacking.ProfileSaysIff | src/station/smart_charging.rs:286-328 | A profile says something about an instant if and only if it is valid and the last step begun of its first schedule, within its duration, is in force there, counted from the schedule's start, the latest repetition or the transaction's start. |
| Stacking.AnsweredFrom | src/station/smart_charging.rs:517-535 | A request is answered from exactly the profiles for its EVSE or for all, and for its transaction or any, in the order they were installed. |
| Charging.EffectiveIsLowest | src/station/smart_charging.rs:667-702 | The limit is one of the competing limits and exceeds none, is absent only when none competes, and local generation comes on top exactly; `Stacking.StackingRule` says which limits compete. |
| CompositeSchedule.Boundaries | src/station/smart_charging.rs:567-625 | The loops collect exactly the breakpoints, ascending. |
| CompositeSchedule.Breakpoints | src/station/smart_charging.rs:567-625 | Ascending, and a second is in it if and only if it starts the window or some profile marks it. |
| CompositeSchedule.WalkRepetitions | src/station/smart_charging.rs:599-606 | The walk over repetitions, cut at 4096. |
| CompositeSchedule.Composite | src/station/smart_charging.rs:505-564 | The sweep merges the steps at the breakpoints of the profiles that apply. |
| CompositeSchedule.FillGaps | src/station/smart_charging.rs:423-433 | Steps without a limit get the rated maximum and equal neighbours merge. |
| CompositeTheorems.ChangesOnlyAtMarks | src/station/smart_charging.rs:567-625 | Between two consecutive seconds with no breakpoint a profile says the same. |
| CompositeTheorems.CompositeIsPointwise | src/station/smart_charging.rs:505-702 | At every second of a window of any length the last step begun says, as a number and in phases, what the stacking rule says. |
| CompositeTheorems.CompositeShape | src/station/smart_charging.rs:537-555 | Steps strictly increase within the window, differ from their neighbours, and the first carries a limit. |
| CompositeTheorems.MergeReads | src/station/smart_charging.rs:548-554 | Merging changes nothing that can be read off a schedule. |
| CompositeTheorems.UsualProfilesSweep | src/station/smart_charging.rs:587-608 | Non-negative starts, a step at zero for recurring schedules and at most 4095 repetitions suffice. |
| CompositeTheorems.FillGapsReads | src/station/smart_charging.rs:423-433 | After filling every step has a limit and says what it said, and what had no step still has none. |
| CompositeTheorems.LeadingGapStaysIff | src/station/smart_charging.rs:548-554 | After filling, a window starts without a limit if and only if the rule gave none there. |
| CompositeLimits.ExactIffAnchored | src/station/smart_charging.rs:590-608 | For a profile alone the composite is exact in every window the walk covers if and only if the schedule has a breakpoint, or nothing to say, where it starts and starts over. |
| CompositeLimits.FrozenPastCut | src/station/smart_charging.rs:597-606 | Past the last repetition walked the composite repeats what it said last. |
| CompositeLimits.PastCutExactIff | src/station/smart_charging.rs:597-606 | There it is exact if and only if the rule says what it said in the last second walked. |
| CompositeLimits.PastCutCanMiss | src/station/smart_charging.rs:597-606 | A daily profile and a window in which it is not. |
| CompositeLimits.GapAtFront | src/station/smart_charging.rs:548-554 | A schedule asked for a hundred seconds before its profile starts, with nothing at its front after filling. |
| Ledger.Ledger.IngestEvent | src/csms/ledger.rs:319-398 | The new ledger and the verdict, for new, repeated and late events; what they are is said by the members of `LedgerHistory`. |
| LedgerHistory.VerdictTells | src/csms/ledger.rs:339-398 | For any history of deliveries: a duplicate if and only if the number came before; else after the end if and only if an end came before; else applied, with a gap of exactly the numbers below one that came which have not come, ascending, and without one if and only if there are none. |
| LedgerHistory.UnsequencedVerdictTells | src/csms/ledger.rs:409-428 | For any history of unnumbered deliveries: a duplicate if and only if one of the kind and instant came before, else after the end if and only if an end came before, else applied, never with a gap. |
| LedgerHistory.RecordIsBuilt | src/csms/ledger.rs:339-386 | A record is built from the deliveries of its transaction that brought a new number, and from nothing else. |
| LedgerHistory.HeardPlaces | src/csms/ledger.rs:339-345 | Those deliveries are exactly the first with each number, in order. |
| LedgerHistory.FirstNamedWins | src/csms/ledger.rs:347-361 | Token, EVSE and connector are those of the first delivery that names one. |
| LedgerHistory.RegistersAre | src/csms/ledger.rs:362-379 | The start register is the latest reading a start brought, or, where none did, the earliest of an update; the stop register the latest of an end or of an update heard before any end; each absent if and only if there is no such reading. |
| LedgerHistory.TimesAre | src/csms/ledger.rs:380-387 | Times and reason are those of the last start and the last end, and the offline mark is set if and only if an event was. |
| LedgerHistory.PruneForgetsIff | src/csms/ledger.rs:464-469 | Pruning forgets a record if and only if it ended before the cut-off, and touches no other record and no counter. |
| Ledger.Ledger.IngestUnsequencedEvent | src/csms/ledger.rs:409-428 | Numbering by arrival and recognising repeats by kind and instant. |
| Ledger.Ledger.PruneEndedBefore | src/csms/ledger.rs:464-469 | Ended records before the cut-off go, counters stay. |
| LedgerTheorems.MissingAreTheGaps | src/csms/ledger.rs:256-260 | The gaps are exactly the unseen numbers up to the highest, ascending. |
| LedgerTheorems.OrderDoesNotMatter | src/csms/ledger.rs:319-398 | Two deliveries of the same events, in any order with any repeats, agree on the numbers seen, the gaps, registers, energy, times, reason, offline mark and the multiset of signed readings. |
| LedgerTheorems.RetryChangesNothing | src/csms/ledger.rs:339-341 | An event with a transaction and number already seen is recognised whenever it comes, whatever else it says, and leaves the whole ledger as it was. |
| LedgerTheorems.SignedKeptOnce | src/csms/ledger.rs:355-358 | Every signed reading delivered is kept, once. |
| LedgerTheorems.EnergyIsExact | src/csms/ledger.rs:299-301 | The energy is the exact difference of the final and the first register. |
| LedgerTheorems.CrossingEndAgreesIff | src/csms/ledger.rs:362-379 | An update and an end that cross agree on the stop register if and only if the end has a reading or the update adds none. |
| LedgerTheorems.RecordsAreApart | src/csms/ledger.rs:319-398 | A record depends on its own transaction's deliveries alone. |
| LedgerTheorems.UnsequencedIsContiguous | src/csms/ledger.rs:409-428 | Numbering by arrival leaves no gap and counts each kind and instant once. |
| LedgerTheorems.GapAfterPrune | src/csms/ledger.rs:464-469 | An event after its record is gone opens a record without gaps if and only if its counter never moved. |
| Transactions.TransactionMachine.ObserveConditions | src/station/transactions.rs:369-422 | The events and the new machine for any change of conditions; what they are is said by `TransactionRules.ObserveTells` and `TransactionRules.EventsNumbered`. |
| TransactionRules.ObserveTells | src/station/transactions.rs:124-139 | Over the conditions alone: an idle machine starts a transaction if and only if one of its start points goes on; a running one ends it if and only if one of its stop points goes off, for the reason of the first that does; it reports an update if and only if none does and something changed; and nothing else is sent. The power path is closed while there is both an authorization and a connection. |
| TransactionRules.EventsNumbered | src/station/transactions.rs:369-422 | Each event carries the id and next number of its transaction, the instant and the trigger, and leaves running what it should. |
| TransactionRules.TriggerTells | src/station/transactions.rs:481-509 | Each trigger if and only if what it names is the first to have changed, in the order authorization, cable, bay, signed data, energy. |
| TransactionRules.UpdateAndAbortTell | src/station/transactions.rs:428-453 | An update and an abort are sent for a running transaction alone, as asked, under its id and next number; the one leaves it running, the other does not. |
| TransactionRules.PulledCableEnds | src/station/transactions.rs:392-410 | A machine that stops on the cable ends its transaction when the cable is pulled. |
| Transactions.TransactionMachine.UpdateFor | src/station/transactions.rs:428-438 | An update takes the next number of the running transaction, or nothing. |
| Transactions.TransactionMachine.AbortFor | src/station/transactions.rs:442-453 | An abort ends the running transaction with its next number, or nothing. |
| Transactions.TransactionMachine.ResumeFrom | src/station/transactions.rs:461-472 | A resumed machine continues id, number and conditions. |
| Transactions.Turning | src/station/transactions.rs:376-397 | A point is found if and only if one of the set turns, and it is one that does. |
| Transactions.ReasonTellsWhatHappened | src/station/transactions.rs:516-532 | A reason that blames the EV or the authorization is given only when that went away. |
| Transactions.OneGeneratorNeverRepeats | src/station/transactions.rs:275-281 | One counter never repeats an id. |
| Transactions.PrefixesMeetIff | src/station/transactions.rs:250-281 | Two counters share an id sooner or later if and only if their prefixes are equal, or one is the other followed by digits that do not begin with zero. |
| Transactions.PrefixesKeptApart | src/station/transactions.rs:250-281 | Different prefixes of one length, or that end in no digit, never do. |
| Transactions.DifferentPrefixesCanMeet | src/station/transactions.rs:250-281 | Two different prefixes that share an id. |
| ExactlyOnce.EveryTransactionNumbered | src/station/transactions.rs:369-472 | Through any observations, updates, aborts and reboots under prefixes that meet no earlier one, each transaction's events are numbered from zero without a hole, the first starts it, and only the last of a finished one ends it. |
| ExactlyOnce.ExactlyOnceAccounting | src/csms/ledger.rs:319-398 | A complete transaction delivered at least once, in any order among any other traffic, leaves a closed record with nothing missing, each event and signed reading counted once, and the registers of its ends. |
| ExactlyOnce.StationToLedger | src/station/transactions.rs:369-472 | The two together, from the station's life to the ledger's record. |
| AuthorizationCache.AuthorizationCache.Remember | src/station/authorization.rs:309-328 | The stamped map stays the mirror of the list with the token moved to its front and cut at capacity. |
| AuthorizationCache.AuthorizationCache.Evict | src/station/authorization.rs:316-327 | The eviction loop drops exactly the end of the list. |
| AuthorizationCache.AuthorizationCache.Get | src/station/authorization.rs:331-340 | The answer is the list's, and a hit moves to the front. |
| AuthorizationCache.AuthorizationCache.SetEnabled | src/station/authorization.rs:283-288 | Switching off empties it. |
| AuthorizationCache.OldestIsLast | src/station/authorization.rs:317-322 | The oldest stamp belongs to the last of the list. |
| AuthorizationCache.KeptIffRecent | src/station/authorization.rs:309-340 | A token is still cached if and only if fewer other tokens than the capacity were used since it was. |
| AuthorizationCache.AnswersLatest | src/station/authorization.rs:331-340 | Whatever the uses, an answer is the info remembered last for the token, and there is one if and only if the cache is on and holds the token still. |

## Left out

- Transport, TLS, WebSocket and the asynchronous driver: I/O. Frames reach the engine already parsed; payloads are opaque but for the fields the engine reads.
- Frame text, JSON, error-code spelling and signed meter data: they rest on libraries that are not part of this model.
- The generated message catalogues: which actions exist, their kind and their origin are a parameter, but for the actions the engine itself names.
- An unreadable `SEND` may be answered, since its message type is not known; only parsed ones are proved never to be.
- A frame that cannot be serialized when it is transmitted is not modelled.
- Random ids and `set_id_generator`: the engine is modelled with counter ids.
- The engine object holds its store and its id counter by value; `EngineLives` ties the journal to its log, operation by operation.
- A store whose append or sync fails and lives on: an append succeeds, or the process crashes in it.
- Durations are whole milliseconds, timestamps integers; the call token does not wrap.
- Conversion of decimals to and from floating point, and their use as hash keys beyond normal forms.
- Overflow of `i64` seconds in a schedule and of `i32` sequence numbers.
- `min_charging_rate`, `phase_to_use`, all schedules but the first, and installing and clearing profiles: the composite does not read them, or they would only add easy members.
- LedgerTheorems.OrderDoesNotMatter: needs a single start and a single end that carry readings, as the source's own description does; token, EVSE and connector are those of the first event to name one, so they depend on order when events disagree: `LedgerHistory.FirstNamedWins`.
- The local authorization list, the authorizer's decision table, device model and configuration keys: lookups that would only add easy members.
- EngineTheorems.TransmissionsBounded: of one run; the count over restarts is `EngineAttempts.TransmissionsOverLives`.
- EngineTheorems.RetriesWait: of one run; the first transmission of a restored message does not wait.
- EngineRecovery.EveryMomentAccounted: an outcome counts as reported once it is among the outputs; what the driver has not taken from there when the process dies is lost with it.
- Journal.RefusedIffQueuedTwice: payloads are opaque, so the refusal of a stored payload that is not JSON is not modelled.
- DecimalText.ConvertAnswers: one direction of the refusal; the exact one is `DecimalRounding.RefusedIff`.
- DecimalText.OneStageIsHalfEven: a simple sufficient condition; the exact one is `DecimalRounding.RoundedOnceIff`.
- CompositeLimits.PastCutExactIff: of a profile on its own whose steps fall within its period.
- CompositeLimits.FrozenPastCut: of a profile on its own whose steps fall within its period; another profile, or a longer step, may add breakpoints past the cut.
- LedgerTheorems.EnergyIsExact: needs the same; which readings count without it is `LedgerHistory.RegistersAre`.
