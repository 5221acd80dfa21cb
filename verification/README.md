# Verified model of the relay

This project models the parts of the relay in which order, loss and duplication are decided, in Dafny 4.11, and proves
what they keep over all their runs. `dafny verify dfyconfig.toml` checks all of it.

## What is modelled

**Agent-lifecycle delivery** (`Lifecycle*.dfy`, `TransitionEncoder.dfy`, `OpenClawAdapter.dfy`, `Reconciliation.dfy`).
A transition encoder numbers the events of a source generation; a directory outbox keeps them in file-name order; a
publisher drains it up to the first failure; a relay opens, registers and reconciles generations and retries. The relay
is modelled twice. `LifecyclePipeline` has its operations as functions on the relay's world, with an environment that
chooses every answer of the backend, every file fault and every id; `LifecycleMachine` has the objects that update their
fields in place, each method proved equal to its operation. `LifecycleProtocol` is the protocol underneath, as atomic
steps; `LifecycleOrder`, `LifecycleSuccession` and `LifecycleConservation` prove its invariants over all runs, and
`LifecycleRefinement` proves that every run of the relay is a run of the protocol and carries the invariants over.
`LifecycleAnswers` says what single operations come to, `LifecycleReconciled` what reconciliation stores,
`LifecycleTending` exactly when pending events are left with nothing scheduled, `LifecycleRetry` exactly when an
unregistered generation is, and `LifecycleWitness` shows that the assumptions of these theorems can be met, by a run that
submits an event and replaces a generation, and gives the runs that fail.

**Gateway event forwarder** (`GatewayForwarder`, `ForwarderSignals`, `ForwarderText`, `ForwarderRuns`,
`ForwarderTerminals`, `ForwarderLosses`). One run's state, with every `await` of a flush as a step boundary, so that anything may come in
between.

**Message processing** (`TransportText`, `ChatBatcher`, `TaskQueue`). Splitting a reply into captions and texts, the
per-session debounce batcher, and the bounded queue in front of it. `Text` defines white space, trimming and what it
means that pieces spell a text.

**Codex credential transaction** (`CodexStores`, `CodexAuth`, `CodexRollback`, `CodexAgreement`). A login bundle goes into
two JSON stores, two database rows, the configuration, the sessions, the command-line login and a sync marker; any step
may fail, and then everything is put back.

**Self-nudge, chat retry, activity index** (`SelfNudge`, `SelfNudgeProofs`, `SelfNudgeRuns`, `ChatRetry`, `ChatEndings`,
`ActivityIndex`). `SelfNudgeProofs` is about any sequence of ticks, `SelfNudgeRuns` about the runner, whose timer is set
only by a tick that comes to its end. `ChatRetry` has the attempt loop, `ChatEndings` says how it ends.

## Where the code does less than one might expect

- A terminal text can be lost: when its event comes in while another terminal text is being sent, or numbered at or below
  one forwarded before, or when a recovery has overtaken its number by the time a flush comes to it.
  `ForwarderLosses.TerminalLostExactly` is the exact condition over all runs, `ForwarderRuns.LateTerminalLost`,
  `ForwarderRuns.LateTerminalStaysLost` and `ForwarderRuns.OvertakenTerminalLost` are runs. An event that is replaced before
  any flush comes to it leaves no trace (`ForwarderLosses.ReplacedLeavesNoTrace`).
- Text can be sent twice although all events come in order: the text of a delta that waits behind a flush goes out again
  after the terminal text (`ForwarderRuns.DeltaBehindTerminalRepeats`). `ForwarderText.RecoveryConservesText` gives the
  exact condition, which is the prefix test of the code; `ForwarderRuns.CalmRunsConserveText` gives one on the events.
- A relay whose save of a replacing generation fails is left with nothing scheduled. `LifecycleRetry.WatchedExactly` is
  the exact condition over all runs, `LifecycleWitness.ARunStrands` a run that ends so.
- Pending events can be left with nothing scheduled to drain them: a turn that throws, a store that fails after writing for
  one, schedules nothing, and a relay that takes itself to have converged does not look at what its drain left, unless a
  reconciliation drains again. `LifecycleTending.TendedExactly` is the exact condition over all runs,
  `LifecycleWitness.AFailingStoreLeavesItsEvent` and `LifecycleWitness.ConvergenceLeavesAnEvent` are runs.
- A profile of another kind under the bundle's id is spread over the new login, and that store then holds no OpenAI
  login (`CodexStores.ReplacementHoldsOne`, `CodexStores.TakenIdHoldsNone`).
- The rollback deletes a primary row whose columns are not of the declared types (`CodexRollback.TableRestored`,
  `CodexRollback.OddRowIsLost`).
- One self-nudge tick that throws, whether the model, a send, a save or a notice fails, ends all nudging until the relay is
  started again (`SelfNudgeRuns.GoesOnExactly`, `SelfNudgeRuns.OneThrowEndsNudging`,
  `SelfNudgeRuns.UnreachedModelEndsNudging`). The spacing of the nudges sent holds in every run all the same
  (`SelfNudgeRuns.SentNudgesBackOff`): a nudge that is sent and not counted is the runner's last.
- The fallback's resend goes out under the key of the send it repeats, which on the first attempt is the task's own, even
  when the error was a session conflict (`ChatRetry.RetryKeyExactly`, `ChatRetry.ResendKeepsTheKey`).

## Model

| member | source | states |
|---|---|---|
| TransitionEncoder.AgentLifecycleTransitionEncoder.constructor | src/agentLifecycle/adapter.ts:52-54 | A new encoder remembers no scope and has numbered nothing. |
| TransitionEncoder.AgentLifecycleTransitionEncoder.SeedActiveRun | src/agentLifecycle/adapter.ts:56-66 | Seeding puts one scope into the given run and touches no other scope and no number. |
| TransitionEncoder.AgentLifecycleTransitionEncoder.Observe | src/agentLifecycle/adapter.ts:68-120 | Observing in place is the encoding function: an idle, unchanged or illegal observation and a failing parse leave both maps as they were; otherwise the event is emitted and both maps move on. |
| TransitionEncoder.ScopeHistoriesAreLegal | src/agentLifecycle/contract.ts:78-112 | Over every sequence of calls and in every scope: a run opens active or seeded, no status repeats in a row, and nothing follows a terminal event until another run opens or is seeded. |
| TransitionEncoder.EmittedExactly | src/agentLifecycle/adapter.ts:68-119 | Over every sequence of calls: an observation is reported if and only if there is one, it is not idle, the event it makes is acceptable, and it is news to its scope: another status of the run the scope is in, which is running or waiting, or an active status of another run. Only an unacceptable event makes the call throw. |
| TransitionEncoder.EmittedSays | src/agentLifecycle/adapter.ts:93-118 | What a reported event says, field by field: who and where the context says, the status and diagnostics observed, the next number of its generation; every text trimmed. |
| TransitionEncoder.NumberedWithoutGaps | src/agentLifecycle/adapter.ts:93-118 | Over every sequence of calls the events of a generation are numbered 1, 2, 3, ... and their ids name those numbers. |
| TransitionEncoder.EventIdInjective | src/agentLifecycle/adapter.ts:98 | An event id determines its generation and its number, although a generation may itself contain colons. |
| TransitionEncoder.EventIdsDistinct | src/agentLifecycle/adapter.ts:93-119 | No two events of one encoder share an id, whatever generations they belong to. |
| LifecycleContract.ParsedEventIsTrimmed | src/agentLifecycle/contract.ts:32-63 | The event schema takes a candidate exactly when every field, trimmed, is within its bounds: identifiers of 1 to 200 characters, labels of 1 to 128, a provider id, a safe positive number, a status that is not idle. What it gives back is the candidate with every text field trimmed and every other field as it was. |
| LifecycleContract.ParsedEventParses | src/agentLifecycle/contract.ts:32-63 | Parsing an accepted event again changes nothing, so that an event stored, read back and submitted is parsed to itself. |
| OpenClawAdapter.SignalsMean | src/agentLifecycle/openclawAdapter.ts:38-121 | Which signals report which status, for each status if and only if: a run that is over is cancelled before it is failed, and completed otherwise. |
| OpenClawAdapter.ReportsName | src/agentLifecycle/openclawAdapter.ts:38-121 | What a report says beside its status: the native event, its phase or approval, and the reason, for each kind of signal. |
| Reconciliation.PlanAgentLifecycleReconciliation | src/agentLifecycle/reconciliation.ts:60-85 | The two loops over insertion-ordered maps compute the plan: active corrections for the observed runs, then one for each checkpoint run that is gone. |
| Reconciliation.PlanFacts | src/agentLifecycle/reconciliation.ts:60-85 | The plan names each run once: every observed run as active with the status the checkpoint had for it, every other checkpoint run as disappeared, and nothing else. |
| Reconciliation.CorrectEmits | src/agentLifecycle/relay.ts:161-195 | On an encoder that does not know the run, one correction emits exactly one event, for that run, with the next number; a run that is gone is seeded first so that its end is legal. |
| Reconciliation.ReconciliationConverges | src/agentLifecycle/relay.ts:147-196 | Every correction emits exactly one event, numbered 1 to n, and folding these events over the checkpoint's active runs gives exactly the observed runs, those in both keeping the checkpoint's status. |
| LifecycleReconciled.CorrectionsAreStored | src/agentLifecycle/relay.ts:161-196 | When the loop over the corrections does not throw, the events it has stored are, in order, those that correcting one after the other gives, and the encoder is where that leaves it; given that no pending event has an id of a number to come. |
| LifecycleReconciled.StoredCorrectionsConverge | src/agentLifecycle/relay.ts:147-196 | So what the relay stores for a new generation converges: a backend that applies the stored events to its checkpoint is left with exactly the observed runs. |
| LifecycleOutbox.FileNameInjective | src/agentLifecycle/outbox.ts:111-118 | A file name determines the time, the number and the digest it was built from. |
| LifecycleOutbox.FileNameOrder | src/agentLifecycle/outbox.ts:116-118 | For every time below 10^13 and every safe sequence number, the order of the padded names is the order on (time, number, digest). |
| LifecycleOutbox.Existing | src/agentLifecycle/outbox.ts:89-94 | The first pending entry with the event's server and event id, or nothing when no pending entry has them. |
| LifecycleOutbox.DirectoryChanges | src/agentLifecycle/outbox.ts:65-83 | Renaming a file into the directory, or unlinking one, does to the sorted listing exactly what inserting an entry in name order, or removing it, does. |
| LifecycleMachine.AgentLifecycleOutbox.List | src/agentLifecycle/outbox.ts:65-83 | Reading the sorted names one after the other gives the listing. |
| LifecycleMachine.AgentLifecycleOutbox.Enqueue | src/agentLifecycle/outbox.ts:86-139 | Storing in the directory is the storing operation: idempotent on the same event, refusing an identity conflict and a full outbox, and possibly failing before or after the rename. |
| LifecycleMachine.AgentLifecycleOutbox.Acknowledge | src/agentLifecycle/outbox.ts:143-150 | Unlinking the entry is the removing operation, a failure before or after the unlink included. |
| LifecycleMachine.AgentLifecycleOutbox.Quarantine | src/agentLifecycle/outbox.ts:152-163 | Moving the entry away is the quarantining operation, a failure before or after the move included. |
| LifecycleMachine.AgentLifecyclePublisher.Drain | src/agentLifecycle/publisher.ts:36-79 | The loop submits in listing order, acknowledges what is accepted, quarantines a refusal with 400 or 422, stops at the first failure, and reports what is left and whether there was a gap. |
| LifecycleMachine.AgentLifecyclePublisher.SubmitEvent | src/agentLifecycle/publisher.ts:41 | One submission is logged with its answer, and the time it takes passes whatever the answer. |
| LifecycleAnswers.DrainAnswers | src/agentLifecycle/publisher.ts:36-79 | Said of the answers: a drain submits in order as long as each entry is accepted and its file removed, the first for which that fails stops it, a refusal with 400 or 422 is moved away and throws if that fails, and a gap is reported just if the refusal says so; with its log and result in every case. |
| LifecycleAnswers.EnqueueAnswers | src/agentLifecycle/outbox.ts:86-139 | Said of the answers: when storing throws, and when the event is stored: known identity, full outbox, and a write that fails before or after. |
| LifecycleAnswers.RegisterAnswers | src/agentLifecycle/relay.ts:121-145 | A generation counts as registered exactly if it is granted for the relay's own server; the active runs are passed on exactly if the state was then saved. |
| LifecycleAnswers.RetryKeepsTheWeightiest | src/agentLifecycle/relay.ts:67-90 | However often a retry is asked for before it fires, one timer is armed, with the delay of its attempt, and it activates the relay with the weightiest trigger asked for. |
| LifecycleRefinement.DrainTakesPrefix | src/agentLifecycle/publisher.ts:36-79 | A drain takes away a prefix of the listing: the acknowledged entries and at most the one that blocked it; a drain that was not blocked leaves nothing. |
| LifecycleMachine.AgentLifecycleRelay.ScheduleActivationRetry | src/agentLifecycle/relay.ts:73-90 | The retry keeps the trigger of highest priority and arms at most one timer, with the next delay. |
| LifecycleMachine.AgentLifecycleRelay.MarkActivationConverged | src/agentLifecycle/relay.ts:112-119 | Convergence disarms the timer and forgets trigger and attempts. |
| LifecycleMachine.AgentLifecycleRelay.RegisterCurrent | src/agentLifecycle/relay.ts:121-145 | Registration marks the generation registered only on an answer for the same server, and answers nothing when the call, the identity or the save fails. |
| LifecycleMachine.AgentLifecycleRelay.ApplyCorrections | src/agentLifecycle/relay.ts:162-196 | The loop seeds, observes and stores correction after correction, and stops where one throws. |
| LifecycleMachine.AgentLifecycleRelay.Reconcile | src/agentLifecycle/relay.ts:147-224 | Reconciliation in place is the reconciling operation, with the retry it schedules for a gap or for what is left. |
| LifecycleMachine.AgentLifecycleRelay.BootstrapGeneration | src/agentLifecycle/relay.ts:287-313 | Without a known server the first generation is registered before it is saved, and any failure schedules a retry. |
| LifecycleMachine.AgentLifecycleRelay.ActivateGeneration | src/agentLifecycle/relay.ts:226-314 | Activation in place is the activating operation on every path: a stored generation is resumed; a registered one is drained, and replaced by one that is saved before it is registered; without a known server the first one is opened; and all failures of these. |
| LifecycleMachine.AgentLifecycleRelay.ActivateConnected | src/agentLifecycle/relay.ts:92-110 | A connected relay subscribes before it activates; a failing subscription schedules a retry. |
| LifecycleMachine.AgentLifecycleRelay.PublishFrame | src/agentLifecycle/relay.ts:330-351 | With a generation at hand a frame is encoded, stored, registered if needed and drained. |
| LifecycleMachine.AgentLifecycleRelay.ProcessFrame | src/agentLifecycle/relay.ts:316-352 | Handling a frame in place is the frame operation: bootstrap if needed, encode, store in the outbox, register, drain, and react to a gap. |
| LifecycleMachine.AgentLifecycleRelay.HandleGatewayEvent | src/agentLifecycle/relay.ts:355-357 | A gateway event joins the end of the chain. |
| LifecycleMachine.AgentLifecycleRelay.HandleGatewayConnectionStateChange | src/agentLifecycle/relay.ts:359-365 | Only a change of the connection counts, and only connecting queues an activation. |
| LifecycleMachine.AgentLifecycleRelay.OnRetryTimer | src/agentLifecycle/relay.ts:83-88 | The timer disarms itself and queues an activation with the trigger kept for it. |
| LifecycleMachine.AgentLifecycleRelay.RunNext | src/agentLifecycle/relay.ts:55-65 | The chain runs its operations one at a time in order; what one throws is dropped. |
| LifecycleProtocol.OutboxStaysProper | src/agentLifecycle/outbox.ts:86-163 | Every step keeps the listing in name order, within capacity, with well-built names and no identity twice. |
| LifecycleRefinement.RelayRunsTheProtocol | src/agentLifecycle/relay.ts:226-371 | Every run of the relay, over all frames, connection changes, timers and answers, is a run of the protocol's atomic steps; this is what carries the invariants below to the relay. |
| LifecycleOrder.StoreGoesBehind | src/agentLifecycle/outbox.ts:111-118 | A new event is filed behind every pending event of its own generation. |
| LifecycleRefinement.RelaySubmitsInOrder | src/agentLifecycle/relay.ts:316-352 | In every run: every submission, first or repeated, is of the entry that heads the listing as the start and the log before it give it. While the clock is below 10^13: submissions of a generation that left nothing behind go out in sequence order, only the same event is ever submitted twice, and none after it was removed or quarantined. |
| LifecycleRefinement.RelaySucceedsGenerations | src/agentLifecycle/relay.ts:226-314 | In every run: an event is submitted only after its generation was registered; a generation is replaced only when it is the latest, registered, and just drained with nothing pending or a gap reported; a drain reports as pending what the log leaves, and a gap only when the backend's last answer did. |
| LifecycleRefinement.RelayConservesEvents | src/agentLifecycle/publisher.ts:36-79 | In every run: capacity holds and no identity is pending twice; what was pending at the start or stored since is pending, removed or quarantined; an entry leaves only right after the backend accepted it or refused it with 400 or 422. |
| LifecycleRefinement.RelayKeepsEachEventOnce | src/agentLifecycle/outbox.ts:86-163 | In every run, a stored event of a generation that left nothing behind is in exactly one of pending, removed and quarantined. |
| LifecycleRetry.StrandsExactly | src/agentLifecycle/relay.ts:226-314 | From a watched state one stimulus leaves a connected relay on an unregistered generation with nothing scheduled if and only if it is a turn that opens a replacing generation and fails to save it, with no activation queued behind it and no retry armed before it (for a frame that first opens a generation: none armed by that activation); no other throw does. |
| LifecycleRetry.WatchedExactly | src/agentLifecycle/relay.ts:73-90 | In every run a connected relay with an unregistered generation always has a retry armed or an activation queued, if and only if no turn of the run is such a one. |
| LifecycleTending.UntendedExactly | src/agentLifecycle/relay.ts:226-352 | From a tended state one stimulus leaves events pending on a connected relay with no retry armed and no activation queued if and only if it is a turn, with no activation behind it, that throws with no retry armed, or whose log ends with a drain after which the relay takes itself to have converged: the first after a registration, of a generation just opened, or with a gap, or with nothing left, and not followed by a reconciliation's drain. |
| LifecycleTending.TendedExactly | src/agentLifecycle/relay.ts:67-90 | In every run from a start: pending events of a connected relay always have a retry armed or an activation queued, if and only if no turn of the run is such a one. |
| LifecycleTending.DrainIsRetried | src/agentLifecycle/relay.ts:197-204 | A turn that does not throw and ends with a drain that left events arms a retry, whether frame, activation or reconciliation, if and only if that drain is not one with which the relay converges. |
| LifecycleWitness.AFailingStoreLeavesItsEvent | src/agentLifecycle/relay.ts:341 | A run from a process start: the store of a frame's event fails after writing, and the event is left with nothing scheduled. |
| LifecycleWitness.ConvergenceLeavesAnEvent | src/agentLifecycle/relay.ts:287-313 | A run from a process start in which nothing throws: the backend does not answer the drain after the first registration, and the leftover is left with nothing scheduled. |
| LifecycleWitness.ARunStrands | src/agentLifecycle/relay.ts:263-285 | A run from a process start that ends stranded: after a reconnection the save of the next generation fails before anything is scheduled. |
| LifecycleWitness.SettingExists | src/agentLifecycle/relay.ts:40-71 | The assumptions of the theorems over all runs hold of a process start, whatever answers are to come. |
| LifecycleWitness.ARunReplacesAGeneration | src/agentLifecycle/relay.ts:226-352 | A run from that start opens a generation, stores, submits and removes an event, and replaces the generation after a reconnection. |
| GatewayForwarder.RunForwardState.Forward | src/openclaw/gatewayEventForwarder.ts:481-556 | An arriving event in place is the arrival step: the correlation is set once, a terminal event replaces the last one, a delta already forwarded or already waiting is dropped. |
| GatewayForwarder.RunForwardState.AttachTrace | src/openclaw/gatewayEventForwarder.ts:179-195 | A correlation is taken once, when there is none yet and one is known. |
| GatewayForwarder.RunForwardState.Close | src/openclaw/gatewayEventForwarder.ts:135-150 | Closing a run in place is the close step, with the terminal text taken as delivered only for a reason that is not a failure. |
| GatewayForwarder.RunForwardState.FlushBufferedSignals | src/openclaw/gatewayEventForwarder.ts:287-304 | A flush that gets its turn takes the waiting deltas, sorted, or leaves them when there is no correlation. |
| GatewayForwarder.RunForwardState.SendDeltas | src/openclaw/gatewayEventForwarder.ts:303-339 | The loop over the deltas does what its recursive form does, up to its first submission. |
| GatewayForwarder.RunForwardState.SendDeltaRecovery | src/openclaw/gatewayEventForwarder.ts:340-369 | After the deltas the pending part of the latest text is handed over, if the run is closed and its number is new. |
| GatewayForwarder.RunForwardState.SendTerminalRecovery | src/openclaw/gatewayEventForwarder.ts:370-406 | Then the pending part of the terminal text, if it is later than what was recovered and forwarded. |
| GatewayForwarder.RunForwardState.SubmissionSettled | src/openclaw/gatewayEventForwarder.ts:306-406 | Going on after an await is the settle step, with the state read again after the wait. |
| ForwarderSignals.SignalsAtMostOnce | src/openclaw/gatewayEventForwarder.ts:287-339 | Over every order of arrivals, duplicates included, and anything coming in during an await: delta signals carry strictly increasing numbers and one correlation, and each is for a delta that came in. |
| ForwarderSignals.NoDeltaLost | src/openclaw/gatewayEventForwarder.ts:517-537 | When only final events are forwarded (`forwardFinalOnly`): every delta that came in is waiting, or signalled, or was overtaken: while it came in or waited, one numbered at least as high had been taken up. In the other mode a flush sends no signals. |
| ForwarderSignals.SortedInOrder | src/openclaw/gatewayEventForwarder.ts:298-303 | Sorting any waiting deltas orders them by number and by arrival where numbers agree, and neither loses nor repeats one. |
| ForwarderSignals.SortedSeqs | src/openclaw/gatewayEventForwarder.ts:298-303 | Sorting waiting deltas, which have distinct numbers, puts them in ascending order and keeps the same numbers. |
| ForwarderText.PendingFacts | src/openclaw/gatewayEventForwarder.ts:160-177 | Nothing is pending exactly when the text is blank or shown already; a piece is trimmed and not blank; it is the rest of a text that extends the delivered one, and the whole text otherwise. |
| ForwarderRuns.ReasonsThatDeliver | src/openclaw/gatewayEventForwarder.ts:562-575 | A close takes the terminal text as delivered if and only if its reason mentions none of the six words for a failure or no reply, in whatever case. |
| ForwarderText.NothingRecoveredBeforeClose | src/openclaw/gatewayEventForwarder.ts:340-349 | In every run, recovered pieces and adopted texts exist only after a close. |
| ForwarderText.UnchangedTextNotResent | src/openclaw/gatewayEventForwarder.ts:160-177 | No step recovers a text that is blank or equals the delivered one, nor sends a blank piece. |
| ForwarderText.RecoveryConservesText | src/openclaw/gatewayEventForwarder.ts:340-406 | Over every run in which no terminal event comes in while one is being sent: the adopted text followed by the recovered pieces spells the last full text, up to white space between, if and only if no step hands over a text that does not begin with the delivered one (or adopts a text while a recovery is under way). |
| ForwarderRuns.CalmRunsConserveText | src/openclaw/gatewayEventForwarder.ts:340-406 | A condition on what comes in that suffices: texts grow with their numbers, deltas come after the terminal events before them, terminal events in order and not during a flush, and no adopting close while deltas wait. |
| ForwarderTerminals.NextFlushHandsOver | src/openclaw/gatewayEventForwarder.ts:287-406 | The next flush of a closed, correlated, idle run, left to itself, hands over the pending part of the terminal text if and only if there is one and the terminal event is numbered above the terminals forwarded and above the last recovery, that of waiting deltas included. |
| ForwarderTerminals.MarkedNeverSent | src/openclaw/gatewayEventForwarder.ts:370-406 | Over every run: once the terminal event counts as forwarded, no continuation without a new one hands over any of its text. |
| ForwarderLosses.HandedOverExactly | src/openclaw/gatewayEventForwarder.ts:370-406 | Over every run: some text of a terminal event is handed over, at whatever moment until another one comes in, if and only if it came in numbered above the terminals forwarded and with no terminal text being sent, and the first flush of the closed run to come to it finds it numbered above the last recovery and its text not shown; it is then that flush that hands it over. |
| ForwarderLosses.TerminalLostExactly | src/openclaw/gatewayEventForwarder.ts:135-150 | Over every run: when a flush has come to a terminal event with a text, the text was never given if and only if it was not the last text given when it came in, no close adopted it, and another terminal text was being sent, or it counted as shown without having been given, or its number is not above a terminal forwarded before or the last recovery. |
| ForwarderLosses.ThreeWaysToLose | src/openclaw/gatewayEventForwarder.ts:287-406 | In a run undisturbed until the event came in, the ways to lose its text are exactly three: a terminal text being sent, a number not above one forwarded, a number not above the last recovery; unless the text was shown already or is adopted. |
| ForwarderLosses.AccountIsRight | src/openclaw/gatewayEventForwarder.ts:160-177 | In a run in which no terminal event comes in while one is being sent and no close adopts a text during a recovery, what counts as shown is what was given last. |
| ForwarderLosses.FlushLooks | src/openclaw/gatewayEventForwarder.ts:287-370 | A flush of a closed run comes to the terminal event before it is idle again, whatever comes in meanwhile. |
| ForwarderLosses.ReplacedLeavesNoTrace | src/openclaw/gatewayEventForwarder.ts:481-556 | A terminal event replaced by another one before a flush comes to it, or a close adopts its text, leaves no trace but its correlation: the run goes on exactly as without it. |
| ForwarderTerminals.LateTerminalNeverSent | src/openclaw/gatewayEventForwarder.ts:399-405 | Over every run: a terminal event that comes in while a terminal text is being sent counts as forwarded once that settles, and nothing of its text is handed over from then on, over every continuation without a new one. |
| ForwarderRuns.LateTerminalLost | src/openclaw/gatewayEventForwarder.ts:403-405 | A run that loses a text so: the second terminal text counts as forwarded and was never sent. |
| ForwarderRuns.LateTerminalStaysLost | src/openclaw/gatewayEventForwarder.ts:370-406 | The same text coming in once more is not sent either, because it counts as shown. |
| ForwarderRuns.OvertakenTerminalLost | src/openclaw/gatewayEventForwarder.ts:370-377 | A run in which a recovery overtakes the terminal event: its text stays pending and no flush to come changes anything. |
| ForwarderRuns.DeltaBehindTerminalRepeats | src/openclaw/gatewayEventForwarder.ts:340-369 | A run with all events in order and growing texts in which the text of a delta waiting behind a flush goes out again after the terminal text, so the pieces do not spell the text. |
| Text.TrimSplits | src/processor/messageProcessor.ts:1502 | Trimming takes blank ends and nothing else. |
| Text.TrimUnique | src/processor/messageProcessor.ts:1502 | Blank ends around a trimmed middle determine what trimming leaves. |
| Text.SpacesAre | src/processor/messageProcessor.ts:1502 | The white space that trimming takes, as character codes. |
| TransportText.SplitTextForTransport | src/processor/messageProcessor.ts:1501-1525 | The loop ends for every limit of at least 1 and returns the chunks of the trimmed text. |
| TransportText.ChunksSpell | src/processor/messageProcessor.ts:1501-1525 | The chunks, each trimmed, not empty and within the limit, spell the text with only white space between; there are none exactly for the empty text. |
| TransportText.ChunkCount | src/processor/messageProcessor.ts:1508-1515 | There are at most (length - 1) / (six tenths of the limit, rounded down, plus 1) + 1 chunks. |
| TransportText.ChunksCutAtBreaks | src/processor/messageProcessor.ts:1508-1520 | A text within the limit is one chunk; a longer one is cut at the last line break or blank after six tenths of the limit, or at the limit without one, and the rest is cut in the same way. |
| TransportText.DeliverReply | src/processor/messageProcessor.ts:1760-1870 | The loop over the media and the loop over the remaining chunks carry out the plan. |
| TransportText.PlanDelivers | src/processor/messageProcessor.ts:1801-1868 | For any number of attachments: each is sent once and in order, captions hold at most 1000 characters and texts at most 3900, and captions and texts together spell the whole reply. |
| TransportText.CaptionsComeFirst | src/processor/messageProcessor.ts:1801-1868 | Captions come before plain texts: no item goes without a caption as long as a later one, or a text, shows something; elsewhere than on Telegram the first item carries the whole text. |
| ChatBatcher.FlushChatBatch | src/processor/messageProcessor.ts:376-457 | The flush asks for its calls in order and settles each message by the answer to its own call, whatever the other answers are. |
| ChatBatcher.MessageBatcher.Handle | src/processor/messageProcessor.ts:151-179 | Anything but a user's chat, and everything when there is no debounce, is run directly; the rest is put in its session's batch. |
| ChatBatcher.MessageBatcher.EnqueueChatBatch | src/processor/messageProcessor.ts:342-374 | A message joins its session's open batch, or opens one, and the batch's timer starts over. |
| ChatBatcher.MessageBatcher.TimerFires | src/processor/messageProcessor.ts:361-372 | A due timer closes whatever batch its session has open and flushes it. |
| ChatBatcher.BatchingConserves | src/processor/messageProcessor.ts:342-374 | Over every interleaving of arrivals and timers: each session's messages are its flushed batches in order followed by those waiting; an open batch is not empty and has exactly one live timer, due a full debounce after its last message; every promise settles once, when its message is flushed; no flush comes earlier than the debounce. |
| ChatBatcher.UserChatsAreBatched | src/processor/messageProcessor.ts:151-179 | Over every run: exactly the users' chats join a batch, in order; the relay's own reminders and nudges do not, and without a debounce none does. |
| ChatBatcher.DueTimerFlushes | src/processor/messageProcessor.ts:361-457 | Over every run: when the timer of an open batch fires once it is due, everything waiting in its session goes out, each promise settled by its own answer, and no other session is touched. |
| ChatBatcher.FlushAsksOncePerMessage | src/processor/messageProcessor.ts:412-457 | A batch of n is answered by n - 1 callbacks, in order, naming the last message and the count, and one run: of the message itself if it is alone, of the merge otherwise. |
| ChatBatcher.MergedTextSpells | src/processor/messageProcessor.ts:459-482 | The merged text is the non-blank texts in order with only white space between and none around. |
| ChatBatcher.MergeInParts | src/processor/messageProcessor.ts:459-482 | Merging in two parts and merging these gives the text of merging at once; texts and media are concatenated in order. |
| ChatBatcher.MergedMessageSays | src/processor/messageProcessor.ts:459-482 | The merged message is the last one but for text and media; its media are those of all messages in order, if there are any. |
| TaskQueue.InMemoryTaskQueue.Enqueue | src/queue/inMemoryTaskQueue.ts:36-45 | Enqueuing in place is the enqueue step: closed and full queues refuse, anything else is queued and pumped. |
| TaskQueue.InMemoryTaskQueue.Pump | src/queue/inMemoryTaskQueue.ts:84-94 | The loop starts tasks from the front while a slot is free, although each processor may enqueue more before it first waits. |
| TaskQueue.InMemoryTaskQueue.OnFinished | src/queue/inMemoryTaskQueue.ts:89-92 | A task that ends frees its slot and the queue is pumped. |
| TaskQueue.InMemoryTaskQueue.StopAccepting | src/queue/inMemoryTaskQueue.ts:60-62 | From then on the queue refuses, and keeps what it holds. |
| TaskQueue.InMemoryTaskQueue.RemoveQueued | src/queue/inMemoryTaskQueue.ts:47-58 | The backwards loop that splices in place is a stable partition: what the predicate selects is returned in queue order and the rest stays in order. |
| TaskQueue.QueueGuarantees | src/queue/inMemoryTaskQueue.ts:22-94 | After any sequence of operations, processors enqueuing from inside included: the limits hold; every accepted task is queued, started or removed, exactly one of them; started and queued tasks are in order of acceptance; and the queue is empty or all slots are busy. |
| TaskQueue.SubmitAnswers | src/queue/inMemoryTaskQueue.ts:36-45 | After any operations: a task is refused as closed if and only if the queue was stopped, as full if and only if it was not and holds its maximum, and then nothing changes; otherwise it is the next task accepted, followed only by what processors started in the call enqueued. |
| TaskQueue.SlotsAreCounted | src/queue/inMemoryTaskQueue.ts:84-94 | After any operations the tasks in flight are those started less those finished. |
| TaskQueue.RemovalSelects | src/queue/inMemoryTaskQueue.ts:47-58 | Removing takes exactly the queued tasks that the predicate selects and leaves exactly the others, both in queue order. |
| ActivityIndex.StableSortSorts | src/conversation/activityIndex.ts:519-521 | The sort by delivery and recording time is a permutation, latest first. |
| ActivityIndex.SortsByTimes | src/conversation/activityIndex.ts:519-521 | What latest first means: by delivery, and by recording among deliveries of one moment. |
| ActivityIndex.StableSortIsStable | src/conversation/activityIndex.ts:519-521 | Deliveries of equal times keep their order. |
| ActivityIndex.IncrementalIsBatch | src/conversation/activityIndex.ts:513-523 | After any history of deliveries with distinct ids, the stored list is the first fifty of the stable sort of the whole history. |
| ActivityIndex.FinalityOfHistory | src/conversation/activityIndex.ts:413-430 | A query over the stored list gives the answer of the whole history if fewer than fifty deliveries come before that answer, and nothing otherwise; and that answer is a latest one. |
| ActivityIndex.FindsTheLatestMatch | src/conversation/activityIndex.ts:413-430 | In any list a closing delivery with the ids and the time the query names is found if there is one, and none that matches is later. |
| ActivityIndex.MergeReplaces | src/conversation/activityIndex.ts:513-523 | A delivery takes the place of one with its id or is added; at most fifty are kept, in order, and nothing dropped is later than anything kept. |
| ActivityIndex.ConversationActivityIndex.MergeRecord | src/conversation/activityIndex.ts:432-471 | Merging an entry replaces its session's record by the merge and leaves every other session's alone. |
| ActivityIndex.ConversationActivityIndex.Find | src/conversation/activityIndex.ts:413-430 | A session without record or deliveries has no finality; otherwise the stored list is asked. |
| ActivityIndex.RecordsSummarise | src/conversation/activityIndex.ts:432-478 | After any run over any sessions, a session has a record exactly when it had an entry, and the record holds the maxima of that session's own times and the latest fifty of its own deliveries. |
| ActivityIndex.MaximaIgnoreOrder | src/conversation/activityIndex.ts:474-478 | The maxima do not depend on the order in which the entries came. |
| CodexStores.ReplacementHoldsOne | src/agentControl/codexLogin.ts:500-511 | A store comes to hold exactly one OpenAI login, the new one, and the other profiles as they were; where a profile of another kind had that id it keeps that one and holds no OpenAI login. |
| CodexStores.TakenIdHoldsNone | src/agentControl/codexLogin.ts:500-511 | Such a store: an API key under the login's id is kept, and no OpenAI login is held. |
| CodexAuth.AgentAuth.PersistStores | src/agentControl/codexLogin.ts:706-710 | The loop over the store files stops where one fails, the files before it written. |
| CodexAuth.AgentAuth.UpdateCodexRuntimeAuthStore | src/agentControl/codexLogin.ts:584-639 | The database update may stop after opening, after either table, or uncommitted; committed, both primary rows are written. |
| CodexAuth.AgentAuth.RetargetCodexSessionAuthProfiles | src/agentControl/codexLogin.ts:513-549 | The loop over the sessions retargets every OpenAI pin to the profile and nothing else, and writes only when something changed. |
| CodexAuth.AgentAuth.PersistCodexCredentials | src/agentControl/codexLogin.ts:687-774 | Stores, database, configuration and sessions are written in this order, up to the first failure. |
| CodexAuth.AgentAuth.WriteCodexCliChatGptAuth | src/agentControl/codexLogin.ts:791-801 | The command-line login is switched to the bundle's tokens and loses its API key; an unreadable file makes it throw. |
| CodexAuth.AgentAuth.RestoreFileSnapshots | src/agentControl/codexLogin.ts:1105-1120 | The loop puts the saved files back one after the other, missing ones removed. |
| CodexAuth.AgentAuth.RestoreCodexRuntimeAuthStore | src/agentControl/codexLogin.ts:1181-1232 | The database is removed, or its tables dropped, or its primary rows put back or deleted, as the snapshot says. |
| CodexAuth.AgentAuth.ApplyCodexAuthBundle | src/agentControl/codexLogin.ts:1256-1318 | Applying in place is the applying operation: refused before anything is touched, applied in full, rolled back, or stopped in the restore. |
| CodexAuth.AgentAuth.SyncCodexAuthBundle | src/agentControl/codexLogin.ts:1574-1625 | Syncing in place is the syncing operation: it throws on an unreadable marker, skips what is up to date, and applies the rest with a new marker. |
| CodexRollback.FilesRestored | src/agentControl/codexLogin.ts:1090-1120 | Putting every saved file back gives all files as they were, whatever part of the bundle had been written. |
| CodexRollback.TableRestored | src/agentControl/codexLogin.ts:1181-1232 | Restoring a table gives it back exactly when its primary row, if any, was of the declared column types. |
| CodexRollback.RollbackRestoresEverything | src/agentControl/codexLogin.ts:1256-1318 | Whichever step fails, before or after writing: once the restore has gone through, every file and the database are as before, missing files, tables and rows included, if and only if no primary row had columns of undeclared types; a refused bundle changes nothing. |
| CodexRollback.OddRowIsLost | src/agentControl/codexLogin.ts:1181-1232 | Such a rollback: a primary row whose time is a text is gone after everything has been put back. |
| CodexAgreement.AppliedStoresAgree | src/agentControl/codexLogin.ts:687-774 | After a bundle is applied every store holds its login as the only OpenAI login (unless the id was taken there by another kind), both orders name it alone, every OpenAI pin names it, the command-line login carries its tokens, and what is not OpenAI's is unchanged. |
| CodexAgreement.AppliedSpelledOut | src/agentControl/codexLogin.ts:674-801 | After a bundle is applied, token by token: the only OpenAI login of each store and of the database has its access token as access and its refresh token as refresh, its expiry, and the e-mail address, account and plan of its identity; the command-line login has the same tokens; the configuration lists the profile with that address. |
| CodexAgreement.OthersAreKept | src/agentControl/codexLogin.ts:674-801 | After a bundle is applied: under other ids exactly the profiles that are not OpenAI logins stay, in every store, in the database and in the configuration; exactly the pins that name an OpenAI profile move; an empty account is left out of the command-line login. |
| CodexAgreement.SyncAnswers | src/agentControl/codexLogin.ts:1574-1625 | When a sync throws, when it is up to date, and when it tries to apply the bundle, each if and only if, on the marker, the version and the connection; it leaves everything alone unless it tries. |
| CodexAgreement.CompleteSays | src/agentControl/codexLogin.ts:774-783 | A bundle is complete if and only if both its tokens hold more than white space. |
| CodexAgreement.ApplyAnswers | src/agentControl/codexLogin.ts:1256-1318 | When a bundle is refused, for all inputs; and, where nothing fails, that it is applied exactly if it is complete, what is read is readable, and the status then shows a login. |
| CodexAgreement.NewerBundleIsApplied | src/agentControl/codexLogin.ts:1574-1625 | A newer bundle for the profile the stores agree on is applied if it lives, is complete and nothing fails; the stores then agree on its login and the marker records it. |
| CodexAgreement.CleanApplyAgrees | src/agentControl/codexLogin.ts:500-511 | If no store had another kind of profile under the id, all stores agree on the bundle's login. |
| CodexAgreement.AgreedIsConnected | src/agentControl/codexLogin.ts:940-972 | Stores that agree on a login are connected with it exactly as long as it lives. |
| CodexAgreement.SyncKeepsVersion | src/agentControl/codexLogin.ts:1574-1625 | A sync that finds the login live changes nothing for a version not above the recorded one, and never lowers the recorded version, however it ends. |
| CodexAgreement.VersionsNeverDecrease | src/agentControl/codexLogin.ts:1574-1625 | Over any run of syncs for one profile that find its login live, failing steps and failing restores included, the recorded version never goes down and old versions change nothing. |
| CodexAgreement.SyncKeepsAgreement | src/agentControl/codexLogin.ts:1574-1625 | A sync whose restore does not fail leaves the stores as they were or in agreement on the new login. |
| SelfNudge.ProcessedStore.MarkAnalyzed | src/openclaw/selfNudgeRunner.ts:1206-1245 | Marking sets the request's record, keeping its notice time, and keeps the latest records in memory even if the file cannot be written. |
| SelfNudge.ProcessedStore.Get | src/openclaw/selfNudgeRunner.ts:1227-1232 | The record of a request, if there is one. |
| SelfNudge.ProcessedStore.MarkFinalNoticeSent | src/openclaw/selfNudgeRunner.ts:1245-1252 | Only a record that is there gets a notice time. |
| SelfNudge.SelfNudgeRunner.OnTimer | src/openclaw/selfNudgeRunner.ts:230-280 | A firing of the timer in place is the firing step: it evaluates the request or polls later, and sets the next timer only when the tick comes to its end. |
| SelfNudge.SelfNudgeRunner.EvaluateSelfNudgeTick | src/openclaw/selfNudgeRunner.ts:305-485 | A tick in place is the tick step on all its paths, and asks for the next after the delay of that path, or throws. |
| SelfNudge.SelfNudgeRunner.SendNudge | src/openclaw/selfNudgeRunner.ts:458-478 | A nudge is sent, then put on record, then counted; a throw in between leaves the rest undone. |
| SelfNudge.SelfNudgeRunner.CloseRequest | src/openclaw/selfNudgeRunner.ts:426-455 | A closing decision is put on record, and a final one gets one notice when notices are on. |
| SelfNudge.SelfNudgeRunner.FindLatestAssistantActivity | src/openclaw/selfNudgeRunner.ts:726-746 | The loop finds the latest time of an assistant message after the user's that is not a notice of the relay's. |
| SelfNudgeProofs.ActivityIsTheLatest | src/openclaw/selfNudgeRunner.ts:726-746 | The last activity on a request is the file's time or the latest time of an assistant message behind the user's that is not a notice, whichever is later. |
| SelfNudgeProofs.RequestsAreTheSame | src/openclaw/selfNudgeRunner.ts:1550-1558 | Two ticks see the same request if and only if session, role, text and time agree, and the line where there is no time. |
| SelfNudgeProofs.TickSendsExactly | src/openclaw/selfNudgeRunner.ts:305-478 | In any state: when a tick nudges, when it announces a final answer, and that it sends nothing else, each if and only if, on the clock, the record of the request, the idle checks and the decision; and what it counts and puts on record. |
| SelfNudgeProofs.TickEndsExactly | src/openclaw/selfNudgeRunner.ts:305-493 | In any state: a tick throws if and only if the decision, something sent or a save does on its way, and how long it asks to wait for the next one in each case. |
| SelfNudgeProofs.NoticeIsRemembered | src/openclaw/selfNudgeRunner.ts:333-456 | In any state: the notice a tick remembers is the one just announced, the one a closing record shows, or the one remembered for the same request; and a record that is kept says when it was announced. |
| SelfNudgeProofs.NudgesBackOff | src/openclaw/selfNudgeRunner.ts:348-372 | Over any uninterrupted sequence of ticks on one request, the k-th counted nudge comes at least base times k(k+1)/2 after the activity that anchored the first, base being at least 1000 ms. |
| SelfNudgeRuns.SentNudgesBackOff | src/openclaw/selfNudgeRunner.ts:348-372 | In every run of the runner, whatever throws: from the moment a request becomes current and while no other does, the k-th nudge sent comes at least base times k(k+1)/2 after the activity that anchored the first. |
| SelfNudgeRuns.RunnerCounts | src/openclaw/selfNudgeRunner.ts:458-478 | In every run of the runner on one request each nudge sent is counted as long as the runner goes on; when it has stopped at most the last is not. |
| SelfNudgeRuns.GoesOnExactly | src/openclaw/selfNudgeRunner.ts:230-280 | In every run of a started runner a next tick is scheduled if and only if no tick so far threw. |
| SelfNudgeRuns.OneThrowEndsNudging | src/openclaw/selfNudgeRunner.ts:215-280 | After a tick that throws nothing is sent and nothing changes, whatever the timer would have found. |
| SelfNudgeRuns.UnreachedModelEndsNudging | src/openclaw/selfNudgeRunner.ts:230-280 | A run that shows it: the model cannot be reached once, and the nudge due a second later is never sent. |
| SelfNudgeRuns.WakesWhenDue | src/openclaw/selfNudgeRunner.ts:348-372 | A tick that has to wait asks for the next one when the wait is over: the next tick for the request finds it over, and called on time comes at its very end, or the least delay of a second later. |
| SelfNudgeProofs.CountedExactly | src/openclaw/selfNudgeRunner.ts:458-478 | Over any ticks on one request, scheduled or called directly, every nudge sent is counted if and only if no tick that sends one fails to save the index afterwards. |
| SelfNudgeProofs.ConsecutiveNudgesDiffer | src/openclaw/selfNudgeRunner.ts:388-397 | In any run over any requests: while the request's record is retained, no nudge repeats the analysis of the nudge before it. |
| SelfNudgeProofs.NudgesInARowDiffer | src/openclaw/selfNudgeRunner.ts:388-397 | On one request with room in the index, no two nudges in a row are about the same analysis; the record is not evicted. |
| SelfNudgeProofs.ClosedIsAbsorbing | src/openclaw/selfNudgeRunner.ts:374-386 | A retained closed decision never changes, and no nudge and no notice is sent for its request again, whatever other requests do. |
| SelfNudgeProofs.KeptWhenLate | src/openclaw/selfNudgeRunner.ts:1206-1211 | A save keeps a record when no more records than the limit, itself included, were analyzed as late. |
| ChatRetry.RunChatTask | src/openclaw/chatRunner.ts:1363-2170 | The loop ends by itself, by the measure (fallback unused, attempts left) although it takes an attempt back; it never falls through; it sends at most the larger limit plus one. |
| ChatEndings.TaskEnds | src/openclaw/chatRunner.ts:1363-2170 | How every task ends: each send follows the one before because that turn went on, at the next attempt or resent with the fallback; at the last one it is finished, threw, timed out or failed, each if and only if, said of the turn, the attempt number and the limits. |
| ChatRetry.TaskSendsBounded | src/openclaw/chatRunner.ts:1361-1395 | At most max(attempts, conflict attempts) sends, one more with a fallback; without a session conflict the smaller limit holds. |
| ChatRetry.BoundIsReached | src/openclaw/chatRunner.ts:1419-1432 | A rejected payload followed by conflicts reaches the bound for every setting of the limits. |
| ChatRetry.KeysDistinctOnceInterrupted | src/openclaw/chatRunner.ts:753-762 | In every run attempt numbers repeat only for the fallback's resend, and after an interruption or a conflict a send's key differs from those of all other attempt numbers before it. |
| ChatRetry.RetryKeyExactly | src/openclaw/chatRunner.ts:753-762 | In every run a send goes out under another key than the task's own if and only if an earlier turn showed an interruption or a conflict and the send is not of the first attempt; the fallback's resend of the first attempt keeps the task's key. |
| ChatRetry.ResendKeepsTheKey | src/openclaw/chatRunner.ts:1407-1440 | Two runs: an error that is a conflict and rejects the payload on the first attempt is followed by a resend under the task's own key; a conflict and then a rejection by one under the retry key of the second attempt. |

## Left out

- Lifecycle, crash and restart: claims are per process. A generation that was stored but not registered when the process
  ended starts numbering again; ordering and exactly-one-place are claimed for generations that left nothing behind.
- Lifecycle, interleaving: timers and connection changes take effect between the operations of the chain, not inside
  one; answers, the clock, file faults and the ids drawn are free inside an operation.
- LifecycleOutbox.FileNameOrder: holds for times below 10^13 ms, where the padding ends; the ordering theorem has the
  same limit on the clock.
- Lifecycle, reading: reads of the outbox directory succeed, so no good record is taken for a corrupt one; byte capacity,
  file modes and syncing to disk are not modelled. Digests are an injective function; the ids drawn are trimmed and
  never repeat, and may be of any length (an event with one too long is refused when parsed).
- Reconciliation.ReconciliationConverges: runs carry trimmed identifiers within the schema's bounds, as the schemas of
  both their sources demand; reading the sessions payload (`readOpenClawActiveRuns`) is not part of this model. What is
  claimed is what is emitted and, for a loop that does not throw, stored, not the scopes of the encoder afterwards.
- Lifecycle, frames: a frame arrives as the observation made of it; the Codex and Claude Code adapters and the frame
  observer are not part of this model. The publisher's `publish`, which the relay does not call, is left out.
- GatewayForwarder: timers are not modelled, a flush may get its turn whenever none is under way; dead letters and the
  deletion of a state are left out. A flush queued on the chain of a deleted state works on the state that follows it,
  beside that state's own flushes; the claims are for the flushes of one state's own chain.
- GatewayForwarder: with forwarding of all events on, the raw event is submitted before it is looked at; arrivals are
  taken at the moment after that.
- TransportText: reply targets, idempotency keys, silent and WhatsApp sends and their errors are left out. A string is a
  sequence of characters without surrogates: a character outside the basic plane counts as one here and as two code
  units in the source, so the lengths, limits and breaks of texts with such characters differ.
- TransportText.EarliestBreak: six tenths of the limit are exact here, where the source multiplies in floating point and
  rounds down. For the limits in use (1000 and 3900) both give the same whole number.
- ChatBatcher: what running one message does is an answer from outside; the messages of a batch are chat messages, as
  the only caller ensures.
- TaskQueue: when tasks finish is chosen from outside; waiting in `drain` is left out, and a queued item that is falsy,
  which would stop the loop, is not modelled.
- ActivityIndex: channel, target, user and classification of a record are left out, as are the two routes and the file;
  of a delivery the fields used for order and search are kept. An absent list of deliveries reads as empty.
- CodexAuth: token decoding is outside, a bundle comes with the identity its tokens carry; JSON is modelled by the parts
  a login touches, keys in the order written; expired entries, the device login, the mode switch, export and clearing
  are left out, and of status the connected profile is kept.
- CodexRollback.RollbackRestoresEverything: the side files of the database are not modelled, and what a failing restore
  leaves is claimed for the marker only.
- SelfNudge: reading transcripts, the model's decision and the notices' texts are outside; fingerprints are the data
  they hash. A tick is one step: stopping the runner, and a second call while a tick is under way, are left out, and the
  clock is free.
- ChatRetry: waiting for an answer is one of the courses a turn may take; delays, transcripts and events are outside.
  The difference between the handler and the buffered scan on an empty final after a delta is not modelled.
- HTTP, WebSocket and proxy plumbing, the transport delivery tracker, media handling, transcription, pairing and
  diagnostics are not part of this model.
