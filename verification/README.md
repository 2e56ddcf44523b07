# Verification of mailwake's wake-up pipeline

mailwake watches mailboxes, Gmail histories, files and system resumes, and runs configured commands:
`source -> bounded lossy event queue -> debounce -> command lane -> run`. This project models that pipeline and proves
what it promises about whole runs. `dafny verify dfyconfig.toml` checks everything.

How the model is built:

- **Machines.** Each concurrent task is a machine of atomic steps (`Lane`, `Debounce`, `FsState`, `ResumeWait`, `ImapIdle`,
  `OutputLimit`). A schedule is a sequence of inputs: what the rest of the program does (time passes, events and requests
  arrive, the shutdown flag moves) and which branch of a `select!` is taken next. Every branch that is ready may be taken
  at any time, so a statement about all schedules covers all interleavings. Channels hold 64 entries; `try_send` on a full
  one drops its event, `send` waits. `Instant` is a natural number that never goes back.
- **Runners.** The code that updates state in loops is written again as classes and methods with the same loops
  (`LaneRunner`, `DebounceRunner`, `FsStateRunner`, `ResumeRunner`, `ImapSession`, `Gmail`, `ProcessRun`, `Config`, `Wiring`,
  `RuntimeStates`). A runner takes a schedule and its contract says that it goes through exactly the states of its machine;
  what is proved of the machine's runs is thereby proved of the loops. Such a contract ends either at the end of the task or
  at the end of the schedule.
- **Theorems.** `LaneLifecycle`, `LaneOrder`, `LaneFairness` and `LaneShutdown` are about one lane, `DebounceTiming` about one
  debounce runner; `Pipeline` puts a source's queue and its debounce or resume runner in front of a lane that other sources
  use too, and `FsPipeline` the filesystem runner; `LaneProgress` and `FsStateProgress` say that what is begun moves on;
  `LaneOutcome` traces what waiters hear to what the executor said; `FsStateProps`, `FsStateWindow`, `FsStateRecords` and
  `FsStateRebaseline` are about the filesystem runner, whose history records for each entry the earlier entries it follows
  from; `ImapGrammar` says in terms of the lines themselves what they are taken for.

Assumptions. The shutdown flag only goes from false to true and its sender outlives the tasks; `Cooldown` and
`SubmitsInTime` state this as `ShutsDownOnly`, `CooldownFailsExactly` says what goes wrong without it, and the inputs of
`Pipeline` have no other change of the flag. The startup signal is given once and stays. Lane tasks do not panic. In the
Gmail part the server answers truthfully about a history that is only appended to (`Truthful`), and invents no records
(`Genuine`, for `Gmail.EventsAreCalledFor` only). Only the pipe readers send on
the output-limit channel (`SentByReaders`).

Where code and expectation part ways, the model follows the code:

- A watch change that is not a shutdown cuts a lane's cooldown short (`LaneOrder.CooldownFailsExactly`, `LaneEdge.CooldownCutShort`).
- The check of IMAP strings rejects CR and LF only, so a quoted string may hold NUL or eight-bit characters that the grammar of
  RFC 3501 does not allow (`ImapText.CheckedLoginReadsBack`, `ImapText.EightBitPasswordIsNoQuotedString`).
- A failed state read without events leaves the filesystem runner at rest, and a failed startup run is not tried again
  (`FsStateProps.RestsAfterFailureExactly`, `FsStateProps.EventOfFailedReadIsForgotten`,
  `FsStateProps.StartupFailureIsNotRetried`).
- A resume is broadcast twice when a listener reports it more than 64 broadcasts late (`Resume.OnceEachIffListenersKeepUp`,
  `Resume.LateListenerRepeats`).
- The validation error for a repeated mailbox name cannot occur, because the check of source names before it fails first
  (`Config.ValidateMailboxes`).

## Model

| member | source | states |
|---|---|---|
| `LaneLifecycle.LifecycleConservation` | src/lane.rs:154-215 | at every point of every run each request is in exactly one place (channel, waiting, in the one current run, or complete), its lifecycle is exactly Started then one Finished, or a single Finished: a cancellation by a lane that has stopped, or the refusal of an unknown command; and a lane that has returned owes nothing to a request it received |
| `LaneLifecycle.StepKeepsInv` | src/lane.rs:154-266 | every atomic step keeps the lane invariant: the queue holds exactly the commands that have waiters, groups are duplicate-free, and each lifecycle is as far as its request |
| `LaneLifecycle.ChannelHolds64` | src/main.rs:371-371 | never more than 64 requests wait in the channel, and one that is sent is taken if and only if the lane has not stopped, the channel is open and fewer wait |
| `LaneOrder.NoOverlap` | src/lane.rs:201-204 | between the beginnings of two runs of a lane the earlier run has ended |
| `LaneOrder.Cooldown` | src/lane.rs:217-266 | a command begins no sooner than `min_interval` after each of its earlier finishes, successful or not, whatever is requested during the wait, when the shutdown flag only goes from false to true and its sender lives |
| `LaneOrder.CoolsNoLonger` | src/lane.rs:217-266 | and no longer: while a command waits, its run is due exactly `min_interval` after its latest finish in the history |
| `LaneOrder.CooldownFailsExactly` | src/lane.rs:245-247 | without that assumption a run begins too early if and only if the waiting task takes a watch change that is not a shutdown before the timer is due |
| `LaneEdge.CooldownCutShort` | src/lane.rs:245-247 | a concrete run in which the sender of the flag goes away and a command begins again the instant it finished |
| `LaneShutdown.AtMostOneMoreRun` | src/lane.rs:203-210 | once shutdown has been requested at most one further run begins, in every schedule, and none if a run was going on or had just ended |
| `LaneShutdown.LaneStopsExactly` | src/lane.rs:160-210 | the lane stops if and only if it takes a watch change with the flag up, or finds its channel closed and empty, while it waits, or finds the flag up after a drain |
| `LaneOrder.RunsAtMostRequests` | src/lane.rs:354-363 | in every run a command begins at most as often as it was requested |
| `LaneOrder.NeverStale` | src/lane.rs:201-205 | every run serves at least one request; each request it serves was sent before the run began and asks for its command; a request that hears Started is served by exactly one run |
| `LaneFairness.CoalescedRequestsShareOneRun` | src/lane.rs:240-264 | all requests for one command that the lane holds at one moment hear the same lifecycle from then on, and no run serves one of them without the other |
| `LaneFairness.DrainTakesEverything` | src/lane.rs:330-334 | a drain ends only when the channel has been emptied, so everything sent before its end shares the follow-up run |
| `LaneFairness.FifoWhileWaiting` | src/lane.rs:365-372 | while a request waits, the runs that begin are exactly those of the commands that were ahead of it, in their order, each once |
| `LaneFairness.BoundedOvertaking` | src/lane.rs:176-211 | while a received request for a known command waits, every other command begins at most once and its own not at all, so it waits for at most n - 1 runs |
| `LaneProgress.WaitingMovesOn` | src/lane.rs:176-266 | every action of the lane's task that does anything brings a waiting request nearer to its run in commands ahead, stage, or unread requests, until its run begins or it is refused or cancelled; unless a cooldown or a command is not over yet there is such an action |
| `LaneOutcome.MoveTraces` | src/lane.rs:201-205 | whoever has heard Started and Finished was served by a run that ended with that report |
| `LaneOutcome.ReportsAreResults` | src/lane.rs:268-328 | over every run, each entry that ends a run was made by the end of the executor, and its report is Outcome(b) if and only if the executor ran the command to b, and Error(e) if and only if it could not and said e |
| `LaneOutcome.HeardIsResult` | src/lane.rs:201-205 | what a waiter hears at the end is what the executor said of the run that served it |
| `PendingQueue.PushKeepsConsistent` | src/lane.rs:354-363 | `order` stays duplicate-free and equal as a set to the keys of `waiters` |
| `PendingQueue.PopTakeKeepsConsistent` | src/lane.rs:365-376 | popping yields the oldest waiting command, in between the invariant holds but for that command, and taking its waiters restores it |
| `PendingQueue.PendingRequests.IsEmpty` | src/lane.rs:350-352 | emptiness of the map is emptiness of the queue |
| `PendingQueue.PendingRequests.Push` | src/lane.rs:354-363 | in-place push is the abstract push |
| `PendingQueue.PendingRequests.PopNextCommand` | src/lane.rs:365-372 | the popping loop, with commands that have no waiters skipped, is the abstract pop |
| `PendingQueue.PendingRequests.TakeWaiters` | src/lane.rs:374-376 | returns the waiters of the command and leaves the others |
| `LaneRunner.CommandLaneRunner.SendEach` | src/lane.rs:379-389 | each waiter of the group gets the note, nobody else does |
| `LaneRunner.CommandLaneRunner.CancelPending` | src/lane.rs:391-395 | in whatever order the map is walked, every pending waiter gets exactly one Finished(Cancelled) |
| `LaneRunner.CommandLaneRunner.WaitForMinInterval` | src/lane.rs:217-266 | the cooldown wait ends only where the machine lets the command begin or the lane stop |
| `LaneRunner.CommandLaneRunner.CoalesceOrPush` | src/lane.rs:248-263 | a request during the cooldown joins the group that waits or the queue, as in the machine |
| `LaneRunner.CommandLaneRunner.RunCommand` | src/lane.rs:268-328 | the run ends with the end of its executor, and with a report that tells a success, a failure or an error exactly as the executor did |
| `LaneRunner.CommandLaneRunner.DrainRequests` | src/lane.rs:330-334 | the drain loop and the shutdown test after it go through the states of the machine |
| `LaneRunner.CommandLaneRunner.AwaitRequest` | src/lane.rs:160-174 | the idle select goes through the states of the machine |
| `LaneRunner.CommandLaneRunner.ServeNext` | src/lane.rs:176-211 | one round of the inner loop: a command is refused, cancelled or run as in the machine |
| `LaneRunner.CommandLaneRunner.RunLane` | src/lane.rs:154-215 | the nested loops of `run` go through exactly the states of the lane machine, so every theorem about its runs is one about them |
| `Pipeline.NoLostWakeUp` | src/debounce.rs:39-94 | in every run of queue, debounce or resume runner, and lane among any other traffic, every event, even one dropped because the queue was full, is followed by a run of its command that begins at or after it, or is still in flight, unless shutdown was requested |
| `Pipeline.AllServedAtRest` | src/imap.rs:672-696 | an idle source with an empty queue has had every event served, unless shutdown was requested |
| `DebounceTiming.SubmitsInTime` | src/debounce.rs:39-117 | in every run a batch is submitted no sooner than the debounce delay after it began and the cooldown after the latest end of a command in the schedule (reported, refused, or its wait ended), however many events arrive meanwhile, under the same assumption on the flag |
| `DebounceTiming.DelayIsFixed` | src/debounce.rs:186-194 | while the delay is slept it ends the debounce time after the batch began, whatever events arrive |
| `DebounceTiming.CooldownIsFixed` | src/debounce.rs:96-117 | while a cooldown is waited for it ends exactly the cooldown after the latest end of a command in the schedule |
| `DebounceTiming.NoSubmissionWithoutEvent` | src/debounce.rs:39-79 | in every run each submission follows an event that was taken since the submission before |
| `DebounceTiming.SubmitsWholeBatch` | src/debounce.rs:87-117 | when a submission begins the queue is empty |
| `DebounceTiming.QueueHolds64` | src/main.rs:411-411 | the event queue never holds more than 64, and an event is queued if and only if it holds fewer and is open |
| `DebounceTiming.WaitsEndExactly` | src/debounce.rs:96-194 | delay, cooldown, submission and the wait for the command end exactly with their time, with what the lane says, or with any watch change, and lead where the loop goes on |
| `DebounceTiming.StopsExactly` | src/debounce.rs:39-58 | the runner stops if and only if it takes a watch change with the flag up, or finds its queue closed and empty |
| `DebounceTiming.BatchMovesOn` | src/debounce.rs:55-69 | every action of the task on a batch brings it a stage nearer to its submission, or takes an event off the queue, or stops it on shutdown; unless a timer is not due yet there is such an action |
| `DebounceRunner.DebounceRunner.SleepOrShutdown` | src/debounce.rs:186-194 | a wait ends by its time or by a watch change; shutdown stops the task |
| `DebounceRunner.DebounceRunner.DrainEvents` | src/debounce.rs:87-94 | empties the queue and says whether it held anything |
| `DebounceRunner.DebounceRunner.WaitForCooldown` | src/debounce.rs:96-117 | waits out what is left of the cooldown and drains again only if it had to wait |
| `DebounceRunner.DebounceRunner.RunOnce` | src/debounce.rs:119-165 | submits and waits for the end, or for a watch change |
| `DebounceRunner.DebounceRunner.RunSource` | src/debounce.rs:39-79 | the nested loops of `run` go through exactly the states of the debounce machine |
| `FsStateProps.NoEventLost` | src/fs_state.rs:247-302 | every event received outside the own-command window, and every failed change-triggered command, is followed by a comparing read that began later and found the known baseline, or failed with no event during it, or by the success of a command submitted later; or is in flight, or shutdown or the end of the events has ended the runner |
| `FsStateProps.ServedAtRest` | src/fs_state.rs:380-467 | whenever the runner waits for work every event and every failed change-triggered command has been served in one of these ways |
| `FsStateProps.StopsOnlyWhenTold` | src/fs_state.rs:304-345 | the runner stops exactly when a shutdown, the end of the events while it waits for them, or a cancelled state read tells it to, or when a startup read that has to succeed fails before anything has been received |
| `FsPipeline.SuccessIsARun` | src/fs_state.rs:578-671 | with the runner in front of a lane that others use too: every success it records is a run of its command that began at or after the submission and that the executor had ended with success by then |
| `FsPipeline.FailureIsAnswered` | src/fs_state.rs:578-671 | every failure it records is a request of its command, sent at or after the submission, that was answered with a failure, an error or a cancellation, unless the lane has stopped |
| `FsPipeline.ServedByReadOrRun` | src/fs_state.rs:247-302 | when the runner waits for work every event and every failed change-triggered command is followed by a later settling read or by a run in the lane that began at or after a later submission and that the executor ended with success |
| `FsStateProgress.AttemptMovesOn` | src/fs_state.rs:347-708 | no input takes an attempt back a stage; what it waits for takes it a stage further or ends it; and an ended attempt leaves the runner at rest if and only if no event came meanwhile and no change-triggered command failed |
| `FsStateProgress.AtMostOneStartupRun` | src/fs_state.rs:310-345 | in every run at most one startup run is submitted, and none without a signal to wait for |
| `FsStateProgress.SignalIsActedOn` | src/fs_state.rs:310-345 | no resolved await leaves the runner waiting for work with the signal given and not acted on; if the signal comes while it waits, the next resolution but the end of the task submits the startup run |
| `FsStateProgress.StartupIsAwaited` | src/fs_state.rs:310-345 | without the signal given nothing is submitted for it, and once its sender is gone the runner no longer waits for it |
| `FsStateWindow.SuppressedExactlyInWindow` | src/fs_state.rs:525-708 | every event that reaches a listening runner is recorded, and is suppressed if and only if the runner has heard that its own command started or succeeded and has not been done with it since |
| `FsStateProps.FailedChangeIsRetried` | src/fs_state.rs:420-434 | after a failed change-triggered command the runner is never back at rest before a later read found the known baseline or failed undisturbed, or a later submission succeeded |
| `FsStateProps.BaselineIsSound` | src/fs_state.rs:212-245 | the baseline is exactly what the last accepted read left; an accepted read is the startup read or was begun at least the settle time after an own command succeeded; nothing else changes it |
| `FsStateProps.SubmitsExactlyOnDifference` | src/fs_state.rs:386-418 | with a reader, a comparing read is followed at once by the submission of the command if and only if it succeeded with a state that differs from the known baseline, or the baseline is unknown; every change-triggered submission follows such a read |
| `FsStateProps.NoSelfTriggerLoop` | src/fs_state.rs:443-464 | once the baseline is known and no command is out, no number of events, failures or startup runs makes a change submit the command while successful reads return that state |
| `FsStateProps.RebaselineReconciles` | src/fs_state.rs:443-464 | a read after an own command that succeeds leads to such a state |
| `FsStateRebaseline.SuccessIsRebaselined` | src/fs_state.rs:443-464 | over every run with a reader: after each success the read for it begins, no sooner than the settle time and with nothing but received events recorded in between, and goes on, ends, or is cut by shutdown; or the settle time still runs, and its timer begins the read; or the task was told to stop in it |
| `FsStateRebaseline.SettleTimeIsKept` | src/fs_state.rs:673-708 | with or without a reader, nothing happens within the settle time after a success: events in it are suppressed, and no read, check or submission comes sooner |
| `FsStateRebaseline.ReadSetsBaseline` | src/fs_state.rs:212-245 | a read that succeeds, at startup or after an own command, makes its state the baseline, whatever was known before |
| `FsStateRebaseline.QuietAfterSuccess` | src/fs_state.rs:443-464 | once the state read after an own command is the baseline, in every continuation in which the reads that succeed return that state no change submits the command again |
| `FsStateProps.SettleBound` | src/fs_state.rs:347-378 | while a batch settles, every entry that waits in it, the oldest included, makes it due at most `max_debounce` after that entry came, whatever events arrive, and once that time has come any resolution of the wait but shutdown and the end of the events begins the check |
| `FsStateProps.SettlesWhenQuiet` | src/fs_state.rs:347-378 | a batch is due at most `debounce` after its newest entry, and once that time has come without another the timer begins the check |
| `FsStateProps.ChecksOnlyBatches` | src/fs_state.rs:347-378 | a comparing read, or without a reader a change-triggered submission, directly follows the end of a settled batch |
| `FsStateProps.CheckedWhenDue` | src/fs_state.rs:347-378 | a batch is checked when its oldest event or failure is `max_debounce` old, or earlier only after a quiet `debounce`; the first time is that of the oldest entry and never after the last |
| `FsStateProps.RestsAfterFailureExactly` | src/fs_state.rs:420-434 | a failed read puts the runner to rest if and only if no event came during it; a command that failed or could not be submitted or followed if and only if it was the startup run and no event waits; the baseline stays |
| `FsStateProps.EventOfFailedReadIsForgotten` | src/fs_state.rs:394-394 | a concrete run in which an event is received, the read it causes fails, and the runner is at rest |
| `FsStateProps.StartupFailureIsNotRetried` | src/fs_state.rs:481-489 | a concrete run in which the startup run fails and the runner is at rest |
| `FsStateProps.StepKeepsInv` | src/fs_state.rs:247-302 | every step keeps the invariant from which these follow: what is owed is held, history entries follow from the entries they name, the baseline is the last accepted read |
| `FsStateRunner.FsStateRunner.RecvWork` | src/fs_state.rs:304-345 | the work received and the states passed are those of the machine |
| `FsStateRunner.FsStateRunner.WaitForSettledBatch` | src/fs_state.rs:347-378 | the settling loop with its two deadlines goes through the states of the machine |
| `FsStateRunner.FsStateRunner.ReadStateCollectingEvents` | src/fs_state.rs:525-576 | a read ends with its result and the events noted, or suppressed, meanwhile |
| `FsStateRunner.FsStateRunner.TriggerCollectingEvents` | src/fs_state.rs:578-671 | a command ends with its result and the events noted before it started; those during it are suppressed |
| `FsStateRunner.FsStateRunner.SettleAfterOwnCommand` | src/fs_state.rs:673-708 | the own-command settle time is waited out, events in it are suppressed |
| `FsStateRunner.FsStateRunner.ProcessDirtyBatch` | src/fs_state.rs:380-467 | a batch ends at rest, or dirty with the times of the events noted, or with the task, as in the machine |
| `FsStateRunner.FsStateRunner.ProcessStartupTrigger` | src/fs_state.rs:469-523 | the same for the startup run |
| `FsStateRunner.FsStateRunner.ProcessUntilIdle` | src/fs_state.rs:250-298 | batches follow one another until one ends at rest |
| `FsStateRunner.FsStateRunner.RunInner` | src/fs_state.rs:204-302 | `run_inner` goes through exactly the states of the machine |
| `OutputLimit.SharedBudget` | src/process.rs:484-509 | for every interleaving of the two readers the captured lengths sum to at most the limit and each capture is a prefix of its stream |
| `OutputLimit.ExceededMeansFull` | src/process.rs:308-314 | once a reader was cut short the sum is exactly the limit and stays so |
| `OutputLimit.VerdictIsScheduleFree` | src/process.rs:518-551 | for streams read without I/O error something was cut if and only if the streams together exceed the limit, whatever the schedule; otherwise both are whole |
| `OutputLimit.SharedOutputLimit.Reserve` | src/process.rs:308-314 | grants what is left up to the request; a smaller grant uses the budget up |
| `OutputLimit.PipeReader.ReadChunk` | src/process.rs:475-511 | one turn of a reader loop does to buffer and budget what the machine does |
| `OutputLimit.Capture.RunTurns` | src/process.rs:475-511 | the two tasks in any order go through the states of the machine |
| `ProcessRun.Classification` | src/process.rs:247-262 | the class of a run is decided exactly by its end and by whether the streams exceed the limit, and what it carries is whole if and only if they do not |
| `ProcessRun.WaitForChild` | src/process.rs:317-405 | the wait goes on exactly through turns in which the child runs, nobody asks for shutdown, time is left and no reader sends; TimedOut only at or after the deadline, Cancelled only after shutdown was seen true, each end but Completed only after the process group was terminated |
| `ProcessRun.WaitIsDecided` | src/process.rs:317-405 | the first turn that is not so decides: an exit completes; else the flag cancels; else, at or after the deadline, the child is terminated and TimedOut; else a watch change to true cancels and a reader's message ends it for its output; a failed kill is an error |
| `ProcessRun.NoWaitBeyondDeadline` | src/process.rs:339-345 | no child is waited for beyond the first turn at or after the deadline |
| `ProcessRun.WaitGoesOnExactly` | src/process.rs:317-405 | the wait has no end if and only if every turn is quiet |
| `ProcessRun.CollectAfterChildExit` | src/process.rs:408-473 | the same while a descendant holds the pipes; it ends at exactly the first signal that ends it |
| `ProcessRun.CollectionIsDecided` | src/process.rs:408-473 | after the exit of the shell the first round that is not quiet decides: both pipes read completes; a reader's message, a flag that is up, or the deadline ends it by termination |
| `ProcessRun.ChildEndsExactly` | src/process.rs:184-245 | after quiet turns and an exit the child's end is that of the collection, goes on exactly through quiet rounds, and is complete as soon as both pipes are read |
| `ProcessRun.RunShellProcess` | src/process.rs:184-245 | the run is exactly what the child's end and the pipes amount to; one reported complete was not terminated and carries both whole streams; TimedOut and Cancelled as above; it is reported over the limit if and only if the streams exceed it, with what a reader had captured |
| `ProcessRun.OverLimitIfExceeded` | src/process.rs:475-511 | a child is terminated for its output only on the message of a reader that was cut short, and then the streams exceed the limit |
| `ProcessRun.SecretIsWholeOutput` | src/auth.rs:131-178 | a helper secret is returned if and only if the helper succeeded within its limits, and is its whole nonempty standard output less the trailing CRs and LFs |
| `ProcessRun.HelperErrorsAreExact` | src/auth.rs:131-178 | each error of a helper is reported in exactly its case, and reauthentication is required if and only if it ended within its limits with code 78 |
| `ProcessRun.TrimIsExact` | src/auth.rs:300-302 | trimming takes away exactly the trailing CRs and LFs |
| `ProcessRun.RunHelper` | src/auth.rs:131-178 | a helper run without shutdown is never reported as cancelled |
| `Resume.HistoryIsTheRecentPast` | src/system_resume.rs:52-68 | the history is duplicate-free and is the last min(64, k) of k broadcasts |
| `Resume.RebroadcastNeeds64Others` | src/system_resume.rs:52-68 | an id is broadcast again only after 64 pairwise distinct other ids in between |
| `Resume.OnceEachIffListenersKeepUp` | src/system_resume.rs:52-68 | listeners replaying one id sequence broadcast each id exactly once, in order, if and only if a reporting listener is never more than 64 broadcasts behind |
| `Resume.LateListenerRepeats` | src/system_resume.rs:52-68 | a concrete order of two listeners in which a resume is broadcast twice |
| `Resume.ResumeBroadcaster.Broadcast` | src/system_resume.rs:52-68 | the bounded history stays the end of the unbounded one; an id is sent if and only if it is a resume and not remembered |
| `ResumeWait.NoWakeUpLost` | src/system_resume.rs:164-193 | every wake-up, even one dropped because the queue was full, is followed by an attempt to submit at or after it, or is in flight, or the runner has stopped |
| `ResumeWait.QuietBeforeSubmit` | src/system_resume.rs:210-239 | when the timer ends the wait, the submission comes a whole settle time after every wake-up heard |
| `ResumeWait.NoAttemptWithoutWakeUp` | src/system_resume.rs:164-193 | in every run each attempt follows a wake-up heard since the attempt before, and the settle time being waited for ends at most a whole settle time from now |
| `ResumeWait.SetsOutExactly` | src/system_resume.rs:210-239 | the wait for quiet ends exactly when its time is over, on a watch change that is no shutdown, or when the wake-ups have ended; a wake-up starts it again; without a settle time it ends exactly when the queue is empty |
| `ResumeWait.CommandIsFollowed` | src/system_resume.rs:241-284 | a command is waited for until the lane refuses or finishes it or the watch changes, and then the queue is emptied unless the task ends |
| `ResumeWait.StopsExactly` | src/system_resume.rs:164-239 | the runner stops if and only if it takes a watch change with the flag up, or finds its queue closed and empty |
| `ResumeWait.WakeUpMovesOn` | src/system_resume.rs:164-239 | every action of the runner on a wake-up takes an event off the queue, or brings it a stage nearer, or stops it on shutdown; unless the settle time is not over yet there is such an action |
| `ResumeRunner.SystemResumeRunner.WaitForQuiet` | src/system_resume.rs:210-239 | the wait goes through the states of the machine |
| `ResumeRunner.SystemResumeRunner.RunOnce` | src/system_resume.rs:241-284 | the submission goes through the states of the machine |
| `ResumeRunner.SystemResumeRunner.RunSource` | src/system_resume.rs:164-193 | `run` goes through exactly the states of the machine |
| `Gmail.HistoryHasNoGaps` | src/gmail_api_poll.rs:334-371 | given an append-only history and truthful answers, every record that concerns the source and lies between baseline and cursor fell in a poll that offered an event, whatever polls failed |
| `Gmail.AnsweredPollReportsAll` | src/gmail_api_poll.rs:334-371 | after a poll that is answered, every record that concerns the source, was added since the baseline and was in the mailbox when the poll began has been reported, whatever polls failed before |
| `Gmail.IntervalsChain` | src/gmail_api_poll.rs:221-240 | accepted intervals chain end to start from the baseline to the cursor and each goes strictly up |
| `Gmail.PagingIsAnyRecord` | src/gmail_api_poll.rs:397-423 | over a complete listing paging answers whether any page holds a record with a nonempty id; a negative answer comes only from a complete listing without one |
| `Gmail.ListingIsDecided` | src/gmail_api_poll.rs:397-423 | any listing is answered by its first page that is not empty with a next page: with yes if and only if that holds a record, with no if and only if it is empty and the last, as stale if and only if the server says so |
| `Gmail.LabelsAreDecided` | src/gmail_api_poll.rs:380-395 | the answer over all labels is that of the first listing that is not silent, and there is no change if and only if all are silent |
| `Gmail.PollIsDecided` | src/gmail_api_poll.rs:334-371 | the cursor moves if and only if a higher id was read and the labels, if any, were all silent or called for an event; an event is offered if and only if no labels are configured, or the first listing that is not silent found a record or was stale |
| `Gmail.EveryIntervalIsAPoll` | src/gmail_api_poll.rs:334-371 | over every run of polls each accepted interval is that of one poll, made on the cursor it begins at, and offered its event exactly if the answers to that poll called for one |
| `Gmail.EventsAreCalledFor` | src/gmail_api_poll.rs:334-371 | with labels configured and a server that invents no records, an interval that offered an event has a record of a configured label beyond its beginning, or the server no longer knew the interval |
| `Gmail.NoChangeMeansNoLabel` | src/gmail_api_poll.rs:380-395 | no change is answered only if every label was answered in the negative |
| `Gmail.ListLabel` | src/gmail_api_poll.rs:397-423 | the paging loop computes the answer of the listing |
| `Gmail.CheckLabels` | src/gmail_api_poll.rs:380-395 | the label loop computes the answer over all labels |
| `Gmail.PollOnce` | src/gmail_api_poll.rs:334-371 | a poll moves tracker and queue as the poll step says, and queues nothing when every label was silent; it reports success if and only if every answer it needed was given; an error leaves the cursor as it was |
| `Gmail.EventQueue.QueueSourceEvent` | src/gmail_api_poll.rs:521-531 | an event is queued, or finds the queue full, or closed |
| `Gmail.WatchForever` | src/gmail_api_poll.rs:243-322 | the poller reads one baseline, and from there each turn is one poll on the cursor that the polls before it left; it goes on exactly until the flag, a broken sleep, a permanent failure or a failure without retry |
| `ImapSession.WatchMailbox` | src/imap.rs:99-205 | over all sessions: a session queues one catch-up event if and only if it reaches IDLE and an earlier one did, and the wait after an error lasts min(2^k, 300) seconds after k completed waits since the start, an established session or a resume |
| `ImapSession.BackoffDoubles` | src/imap.rs:125-195 | the wait after a session that fails at the end of a streak of k failed and waited-out sessions, none after the first of which reached IDLE, is min(2^k, 300) seconds |
| `ImapSession.GivesUpExactly` | src/imap.rs:125-205 | the watcher gives up if and only if it is told to stop, during IDLE or in a wait, or its login is refused |
| `ImapSession.RunSession` | src/imap.rs:125-195 | one turn of that loop, with its four ends |
| `ImapSession.RunMailboxOnce` | src/imap.rs:215-271 | a session that is set up ends as its IDLE loop ends |
| `ImapSession.IdleSession.IdleForever` | src/imap.rs:425-567 | the nested loops of the session go through exactly the states of the IDLE machine |
| `ImapSession.IdleSession.WaitIdleContinuation` | src/imap.rs:569-582 | lines before the continuation are skipped, the tagged answer is an error |
| `ImapSession.IdleSession.FinishIdle` | src/imap.rs:599-647 | between DONE and its answer at most one event is queued |
| `ImapIdle.CatchUpOnce` | src/imap.rs:452-471 | exactly one catch-up event in a session that is to catch up and reaches IDLE, however often IDLE is entered again |
| `ImapIdle.EstablishedByContinuation` | src/imap.rs:569-582 | a session is established by the first IDLE the server accepts and by nothing else |
| `ImapIdle.EveryChangeQueues` | src/imap.rs:625-647 | a line that announces a change in any letter case (EXISTS, RECENT, EXPUNGE, FETCH of any message number, VANISHED) queues its own event while idling, and between DONE and its answer all of them have queued exactly one |
| `ImapIdle.EventsAreForChanges` | src/imap.rs:625-647 | a step that queues an event for a change has read an untagged line, no BYE, that names one |
| `ImapIdle.LinesDecide` | src/imap.rs:490-647 | OK to the current tag in any letter case is the answer: the next IDLE is sent, or the session ends if it was to stop; NO, BAD and BYE fail it; a line that is none of these and names no change does nothing |
| `ImapIdle.SignalsDecide` | src/imap.rs:480-600 | while idling a due refresh and a shutdown have the session send DONE, and a failure ends it; after DONE only its answer and a failure matter |
| `ImapIdle.ContinuationDecides` | src/imap.rs:569-582 | before the server accepts the IDLE only its continuation, its tagged refusal and a failure matter |
| `ImapIdle.RefreshIdlesAgain` | src/imap.rs:480-567 | from any idle state of any run a refresh that is answered leads to idling under the next tag with no event queued, and a shutdown that is answered to the end |
| `ImapIdle.OtherAnswersAreIgnored` | src/imap.rs:656-670 | an answer to another tag changes nothing |
| `Backoff.DoubledDelay` | src/imap.rs:195-195 | doubling and capping keeps the variable at min(2^k, 300) |
| `ImapText.QuotedParsesBack` | src/imap.rs:762-774 | a quoted string reads back as its value if and only if every character may stand in one, and otherwise not at all |
| `ImapText.LoginParsesBack` | src/imap.rs:391-397 | the same for the pair of a LOGIN line |
| `ImapText.CheckedLoginReadsBack` | src/imap.rs:391-397 | for every user and password free of CR and LF the line reads back as that pair; by the letter of sections 4.3 and 9 of RFC 3501 it does so if and only if all characters are TEXT-CHARs |
| `ImapText.EightBitPasswordIsNoQuotedString` | src/imap.rs:743-748 | a password that passes the check and is no quoted string of RFC 3501 |
| `ImapText.LoginIsOneLine` | src/imap.rs:391-398 | the LOGIN line holds CR and LF only at its end |
| `ImapText.TagsAreDistinct` | src/imap.rs:815-820 | tags are pairwise distinct (section 2.2.1 of RFC 3501) |
| `ImapText.OneLineCompletesOneTag` | src/imap.rs:780-784 | no response line completes two tags |
| `ImapGrammar.ClassificationIsExclusive` | src/imap.rs:656-670 | any line, exactly: it closes if and only if it begins with "* BYE" in any letter case; it is the answer if and only if it begins with the tag, a good one if and only if OK in any letter case is the first word after; it is a change if and only if it is another line that begins with "* " and has one of the five words in any letter case |
| `ImapGrammar.AnnouncedIsChange` | src/imap.rs:798-808 | every line by which a server announces a change, in any letter case and for every message number, is taken for one |
| `ImapGrammar.OthersArePassedOver` | src/imap.rs:656-670 | a line that is neither BYE nor tagged nor names a change is passed over |
| `ImapText.QuoteImap` | src/imap.rs:762-774 | the quoting loop computes the quoted string |
| `ImapText.ValidateImapString` | src/imap.rs:743-748 | the scan accepts exactly the strings without CR and LF |
| `ImapText.Login` | src/imap.rs:391-397 | the LOGIN line is made if and only if both strings pass the check |
| `ImapText.Tags.Next` | src/imap.rs:815-820 | each call counts up and yields the tag of the new number |
| `Config.Validate` | src/config.rs:303-432 | accepts exactly the configurations with at least one source, distinct names and resolved references; an error is one the configuration has, and the error for a repeated mailbox name is never reported |
| `Config.ValidateCommands` | src/config.rs:434-459 | accepts exactly distinct command names and returns their set |
| `Config.ValidateMailboxes` | src/config.rs:402-424 | accepts exactly mailboxes whose source names are new and no command's; the mailbox-name check never fires |
| `Config.ValidateSource` | src/config.rs:754-844 | accepts exactly a new name with resolved references |
| `Config.CommandLaneCount` | src/config.rs:575-586 | counts the different lanes of mailboxes and commands |
| `Config.LegacyNamesAreAll` | src/config.rs:928-930 | the legacy names are exactly `account/mailbox` for every mailbox of every account |
| `Config.LegacyNamesCollide` | src/config.rs:928-930 | `account/mailbox` names are not injective |
| `Config.DistinctCount` | src/config.rs:567-569 | distinct names are as many as their set |
| `Wiring.RuntimeNamesDistinct` | src/main.rs:271-297 | runtime command names of an accepted configuration are pairwise distinct |
| `Wiring.RuntimeCommandSpecs` | src/main.rs:271-297 | the specs are the mailboxes' and then the commands', in order, each with its lane |
| `Wiring.CommandsByLane` | src/main.rs:299-308 | there is an entry for exactly the lanes named, and each holds its commands in order |
| `Wiring.ExactlyOneLane` | src/main.rs:299-308 | a command is in its own lane, there once, and in no other |
| `Wiring.CommandsKeepTheirLane` | src/config.rs:718-720 | in an accepted configuration a command runs in the lane it names, or in one of its own name, and in no other |
| `Wiring.MailboxesKeepTheirLane` | src/main.rs:271-297 | the command of a legacy mailbox runs in the lane of its own name and in no other |
| `Wiring.SpawnLanes` | src/main.rs:370-404 | in whatever order the map is walked, exactly the runtime commands get a sender, each that of its own lane, and exactly the lanes are registered |
| `Wiring.RegisterMailboxes` | src/main.rs:406-459 | fails if and only if a legacy command has no lane; otherwise registers a watcher for every mailbox |
| `Wiring.RegisterSources` | src/main.rs:461-672 | fails if and only if a reference does not resolve; otherwise registers a watcher for every source, connected to its command |
| `Wiring.SetUp` | src/main.rs:325-672 | fails exactly on the configurations that validation rejects; otherwise every lookup succeeds, every source leads to its command in that command's lane, and watcher and lane counts are what the health check expects |
| `Wiring.NoCountProblem` | src/state.rs:304-335 | in whatever order the state was told of the registrations that `SetUp` makes and of reports of tasks registered before, no health problem is one of the two counts |
| `Wiring.WatchersCounted` | src/config.rs:567-569 | an accepted configuration has as many different source names as `source_count` counts |
| `RuntimeStates.CountsStayExactlyIfRegistered` | src/state.rs:144-234 | after any sequence of reports both counts are what they were if and only if no report names an entry that was not there |
| `RuntimeStates.EntriesAreRegistrations` | src/state.rs:121-234 | in every interleaving of registrations and reports of entries registered before, the entries are exactly those registered |
| `RuntimeStates.StartedIsOverdueInTime` | src/state.rs:201-216 | over everything the state was told: a command reported started, of whose lane nothing but that it is running was reported since, is found overdue if and only if its timeout is over |
| `RuntimeStates.LastWordOnRunner` | src/state.rs:178-234 | otherwise the last report decides: a lane registered or whose command finished is well, and one given another phase is well unless it crashed or stopped |
| `RuntimeStates.LastWordOnWatcher` | src/state.rs:144-166 | a source that crashed or stopped stays so whatever progress it reports; any other is well if and only if its last sign of life is not too old |
| `RuntimeStates.RuntimeState.RegisterWatcher` | src/state.rs:121-130 | adds or resets one watcher entry |
| `RuntimeStates.RuntimeState.RegisterCommandRunner` | src/state.rs:132-142 | adds or resets one lane entry |
| `RuntimeStates.RuntimeState.MarkWatcher` | src/state.rs:144-155 | the report creates a missing entry |
| `RuntimeStates.RuntimeState.MarkWatcherProgress` | src/state.rs:157-166 | the report never creates an entry and leaves a crashed or stopped one alone |
| `RuntimeStates.RuntimeState.MarkCommandRunner` | src/state.rs:178-199 | the report creates a missing entry; any phase but running clears the start time |
| `RuntimeStates.RuntimeState.MarkCommandStarted` | src/state.rs:201-216 | the report records running and the start time |
| `RuntimeStates.RuntimeState.MarkCommandFinished` | src/state.rs:218-234 | the report records idle and clears the start time |
| `RuntimeStates.RuntimeState.FindHealthProblem` | src/state.rs:298-354 | no problem is found if and only if both counts are right and every watcher and lane is well; a problem found is one the entries have; one is found once a started command is past its timeout |

## Left out

- Process spawning, signals, process groups, sockets, TLS, D-Bus, HTTP, `notify` and systemd: their results are inputs.
- Logging, status text, output tails, and the phases that tasks report while they run; only the health entries and their checks are modelled.
- The single-field checks of validation (nonempty, nonzero, CR and LF, ranges), TOML and command-line parsing, path and helper checks: each is settled by one branch.
- The OAuth helper and the XOAUTH2 exchange, the greeting and EXAMINE: a session's set-up succeeds, fails, or fails for good.
- Liveness under fair scheduling: an event is shown to be served or in flight, not that the scheduler will come to it.
- Requests still in the channel when a lane returns get no Finished; the model says so and promises nothing for them.
- Untagged lines before the IDLE continuation are skipped, as in the code, so no change among them is claimed to be seen.
- A response line of which only a part had been read when another branch of the select was taken.
- The filesystem watcher's own queue: events count from their receipt by the runner; one dropped on a full queue leaves 64 others to be received.
- The Gmail poller's backoff and phases, and which errors count as permanent; a failing turn says whether it is retried.
- Wrap-around of 64-bit counters (tags, history ids, watch revisions).
- UTF-8 decoding of a helper's output, which is a parameter of `ProcessRun.SecretIsWholeOutput`.
- The cloned `watch` receivers and reference-counted state are modelled as each task's own view, without aliasing between tasks.
