/** How the run of a child process ends, and what its callers may conclude from it. */
module ProcessRun {
  import opened Basics
  import opened Options
  import opened OutputLimit

  datatype ExitStatus = ExitStatus(success: bool, code: Option<int>)

  datatype LimitExceeded = LimitExceeded(stream: Which, limit: nat, output: seq<Byte>)

  datatype End = Completed(status: ExitStatus) | TimedOut | Cancelled | OutputExceeded(first: LimitExceeded)

  datatype Captured = Captured(stdout: seq<Byte>, stderr: seq<Byte>, stdoutTruncated: bool, stderrTruncated: bool)

  datatype Collected = Whole(captured: Captured) | TooLarge(first: LimitExceeded, captured: Captured)

  datatype ShellRun =
    | RanToEnd(status: ExitStatus, captured: Captured)
    | RanOutOfTime(captured: Captured)
    | WasCancelled(captured: Captured)
    | WroteTooMuch(first: LimitExceeded, captured: Captured)

  datatype ProcessError = WaitError | OutputError

  datatype Result<+T, +E> = Ok(value: T) | Err(error: E)

  // ---------- Collecting and classifying ----------

  function Exceeding(which: Which, limit: nat, r: Reader): Option<LimitExceeded> {
    if r.status.Exceeded? then Some(LimitExceeded(which, limit, r.captured)) else None
  }

  /** `collect_captured_output` on reader tasks that have ended. A stream that is not captured is an empty pipe. */
  function Collect(s: Readers): Result<Collected, ProcessError> {
    if s.stdout.status.Broken? || s.stderr.status.Broken? then Err(OutputError)
    else
      var limit := if s.limit.Some? then s.limit.value else 0;
      var out := Exceeding(Stdout, limit, s.stdout);
      var err := Exceeding(Stderr, limit, s.stderr);
      var captured := Captured(s.stdout.captured, s.stderr.captured, out.Some?, err.Some?);
      if out.Some? then Ok(TooLarge(out.value, captured))
      else if err.Some? then Ok(TooLarge(err.value, captured))
      else Ok(Whole(captured))
  }

  function FinishShellRun(end: End, collected: Collected): ShellRun {
    match (end, collected)
    case (OutputExceeded(first), _) => WroteTooMuch(first, collected.captured)
    case (_, TooLarge(first, captured)) => WroteTooMuch(first, captured)
    case (Completed(status), Whole(captured)) => RanToEnd(status, captured)
    case (TimedOut, Whole(captured)) => RanOutOfTime(captured)
    case (Cancelled, Whole(captured)) => WasCancelled(captured)
  }

  /** Both reader tasks have ended, in some interleaving. */
  ghost predicate Ran(s: Readers) {
    Inv(s) && !s.stdout.status.Reading? && !s.stderr.status.Reading?
  }

  /** Output is collected unless a reader failed. */
  lemma CollectFailsExactly(s: Readers)
    ensures Collect(s) == Err(OutputError) <==> s.stdout.status.Broken? || s.stderr.status.Broken?
    ensures Collect(s).Err? ==> Collect(s).error == OutputError
  {
  }

  /** The classification, exactly: a run is classified by its end unless its output went over the limit, and what a
      run carries is then both whole streams. */
  lemma Classification(end: End, s: Readers)
    requires Ran(s) && Collect(s).Ok?
    ensures var run := FinishShellRun(end, Collect(s).value);
            var whole := Captured(s.stdout.pipe, s.stderr.pipe, false, false);
            var over := OverLimit(s.limit, s.stdout.pipe, s.stderr.pipe);
            && (run.WroteTooMuch? <==> end.OutputExceeded? || over)
            && (run.RanToEnd? <==> end.Completed? && !over)
            && (run.RanOutOfTime? <==> end.TimedOut? && !over)
            && (run.WasCancelled? <==> end.Cancelled? && !over)
            && (run.RanToEnd? ==> run.status == end.status)
            && (!over ==> run.captured == whole)
            && (run.captured == whole <==> !over)
  {
  }

  // ---------- Waiting for the child ----------

  /** What ends the select of one turn of `wait_for_child`. */
  datatype Wake = Tick | WatchChanged(stop: bool) | LimitMessage(first: Option<LimitExceeded>)

  /** One turn of its loop: what `try_wait` says, the time it is reached after, the flag, and how it is woken. */
  datatype Turn = Turn(exited: Result<Option<ExitStatus>, ()>, after: nat, flag: bool, wake: Wake, killFails: bool)

  datatype Child = Child(deadline: nat, hasShutdown: bool, hasLimit: bool)

  function Clock(start: nat, turns: seq<Turn>, n: nat): nat
    requires n <= |turns|
  {
    if n == 0 then start else Clock(start, turns, n - 1) + turns[n - 1].after
  }

  /** `terminate_process_group(..)?` and the end it is done for. */
  function Killed(fails: bool, because: End): Option<Result<End, ProcessError>> {
    Some(if fails then Err(WaitError) else Ok(because))
  }

  /** The readers' channel has not been found closed before turn `k`. */
  predicate Listens(child: Child, turns: seq<Turn>, k: nat)
    requires k <= |turns|
  {
    child.hasLimit && forall j :: 0 <= j < k ==> turns[j].wake != LimitMessage(None)
  }

  /** How turn `k` ends the wait, if it does: the child's exit comes before the flag, the flag before the deadline, and all
      of them before what wakes the turn. */
  function EndAt(child: Child, start: nat, turns: seq<Turn>, k: nat): Option<Result<End, ProcessError>>
    requires k < |turns|
  {
    var turn := turns[k];
    if turn.exited.Err? then Some(Err(WaitError))
    else if turn.exited.value.Some? then Some(Ok(Completed(turn.exited.value.value)))
    else if child.hasShutdown && turn.flag then Killed(turn.killFails, Cancelled)
    else if Clock(start, turns, k + 1) >= child.deadline then Killed(turn.killFails, TimedOut)
    else if child.hasShutdown && turn.wake == WatchChanged(true) then Killed(turn.killFails, Cancelled)
    else if turn.wake.LimitMessage? && turn.wake.first.Some? && Listens(child, turns, k) then
      Killed(turn.killFails, OutputExceeded(turn.wake.first.value))
    else None
  }

  /** The first turn from `k` on that ends the wait, or the end of the schedule. */
  function FirstEnd(child: Child, start: nat, turns: seq<Turn>, k: nat): (n: nat)
    requires k <= |turns|
    ensures k <= n <= |turns| && forall j :: k <= j < n ==> EndAt(child, start, turns, j).None?
    ensures n < |turns| ==> EndAt(child, start, turns, n).Some?
    decreases |turns| - k
  {
    if k < |turns| && EndAt(child, start, turns, k).None? then FirstEnd(child, start, turns, k + 1) else k
  }

  /** How the wait ends; `None` when the schedule does. */
  function WaitEnd(child: Child, start: nat, turns: seq<Turn>): Option<Result<End, ProcessError>> {
    var n := FirstEnd(child, start, turns, 0);
    if n < |turns| then EndAt(child, start, turns, n) else None
  }

  /** The wait is over for this reason, or failed because the process group could not be terminated. */
  predicate EndedFor(end: Option<Result<End, ProcessError>>, killFails: bool, because: End) {
    if killFails then end == Some(Err(WaitError)) else end == Some(Ok(because))
  }

  /** In turn `k` the child is running, nobody asks for shutdown, there is time left, and no reader sends. */
  ghost predicate Quiet(child: Child, start: nat, turns: seq<Turn>, k: nat)
    requires k < |turns|
  {
    && turns[k].exited == Ok(None)
    && (child.hasShutdown ==> !turns[k].flag && turns[k].wake != WatchChanged(true))
    && Clock(start, turns, k + 1) < child.deadline
    && (Listens(child, turns, k) ==> !turns[k].wake.LimitMessage? || turns[k].wake.first.None?)
  }

  lemma {:induction false} QuietGoesOn(child: Child, start: nat, turns: seq<Turn>, j: nat, k: nat)
    requires j <= k <= |turns| && forall i :: j <= i < k ==> Quiet(child, start, turns, i)
    ensures FirstEnd(child, start, turns, j) == FirstEnd(child, start, turns, k)
    decreases k - j
  {
    if j < k {
      assert Quiet(child, start, turns, j);
      QuietGoesOn(child, start, turns, j + 1, k);
    }
  }

  /** When the turns before `k` were quiet, the wait is decided there: by the child's exit; else by the flag; else, once the
      deadline has come, by it; else by a watch that turns true, or by a reader's message. */
  lemma {:induction false} WaitIsDecided(child: Child, start: nat, turns: seq<Turn>, k: nat)
    requires k < |turns| && forall j :: 0 <= j < k ==> Quiet(child, start, turns, j)
    ensures var turn, end := turns[k], WaitEnd(child, start, turns);
            var fails, asked := turn.killFails, child.hasShutdown && turn.flag;
            var late := Clock(start, turns, k + 1) >= child.deadline;
            && (turn.exited.Err? ==> end == Some(Err(WaitError)))
            && (turn.exited.Ok? && turn.exited.value.Some? ==> end == Some(Ok(Completed(turn.exited.value.value))))
            && (turn.exited == Ok(None) && asked ==> EndedFor(end, fails, Cancelled))
            && (turn.exited == Ok(None) && !asked && late ==> EndedFor(end, fails, TimedOut))
            && (turn.exited == Ok(None) && !asked && !late && child.hasShutdown && turn.wake == WatchChanged(true) ==>
                  EndedFor(end, fails, Cancelled))
            && (turn.exited == Ok(None) && !asked && !late && turn.wake.LimitMessage? && turn.wake.first.Some?
                && Listens(child, turns, k) ==>
                  EndedFor(end, fails, OutputExceeded(turn.wake.first.value)))
    ensures !Quiet(child, start, turns, k) ==> FirstEnd(child, start, turns, 0) == k
  {
    QuietGoesOn(child, start, turns, 0, k);
  }

  /** The wait goes on exactly through quiet turns. */
  lemma {:induction false} WaitGoesOnExactly(child: Child, start: nat, turns: seq<Turn>)
    ensures WaitEnd(child, start, turns).None? <==> forall k :: 0 <= k < |turns| ==> Quiet(child, start, turns, k)
  {
    var n := FirstEnd(child, start, turns, 0);
    forall k | 0 <= k < n ensures Quiet(child, start, turns, k) {
      assert EndAt(child, start, turns, k).None?;
    }
    if n < |turns| {
      assert EndAt(child, start, turns, n).Some? && !Quiet(child, start, turns, n);
    }
  }

  /** No child is waited for beyond the first turn whose time is the deadline or later. */
  lemma {:induction false} NoWaitBeyondDeadline(child: Child, start: nat, turns: seq<Turn>, k: nat)
    requires k < |turns| && Clock(start, turns, k + 1) >= child.deadline
    ensures FirstEnd(child, start, turns, 0) <= k && WaitEnd(child, start, turns).Some?
  {
    assert EndAt(child, start, turns, k).Some?;
  }

  /** An end that only termination leads to. */
  predicate ByForce(end: Option<Result<End, ProcessError>>) {
    end.Some? && end.value.Ok? && !end.value.value.Completed?
  }

  /** `wait_for_child`. `None` is the end of the schedule. The wait ends at the first turn that ends it; every end but
      `Completed` comes after the process group was terminated. */
  method WaitForChild(child: Child, start: nat, turns: seq<Turn>)
    returns (end: Option<Result<End, ProcessError>>, now: nat, terminated: bool)
    ensures end == WaitEnd(child, start, turns)
    ensures end.None? <==> forall k :: 0 <= k < |turns| ==> Quiet(child, start, turns, k)
    ensures var n := FirstEnd(child, start, turns, 0); now == Clock(start, turns, if n < |turns| then n + 1 else n)
    ensures terminated <==> ByForce(end)
    ensures end == Some(Ok(TimedOut)) ==> now >= child.deadline
    ensures end == Some(Ok(Cancelled)) ==>
              child.hasShutdown && exists k :: 0 <= k < |turns| && (turns[k].flag || turns[k].wake == WatchChanged(true))
  {
    WaitGoesOnExactly(child, start, turns);
    end, now, terminated := None, start, false;
    var listening := child.hasLimit;
    var k := 0;
    while k < |turns|
      invariant k <= |turns| && now == Clock(start, turns, k) && !terminated && end.None?
      invariant FirstEnd(child, start, turns, 0) == FirstEnd(child, start, turns, k)
      invariant listening <==> Listens(child, turns, k)
    {
      var turn := turns[k];
      now := now + turn.after;
      if turn.exited.Err? {
        end := Some(Err(WaitError));
        return;
      }
      if turn.exited.value.Some? {
        end := Some(Ok(Completed(turn.exited.value.value)));
        return;
      }
      if child.hasShutdown && turn.flag {
        end, terminated := Terminate(turn.killFails, Cancelled);
        return;
      }
      if now >= child.deadline {
        end, terminated := Terminate(turn.killFails, TimedOut);
        return;
      }
      match turn.wake {
        case Tick =>
        case WatchChanged(stop) =>
          if child.hasShutdown && stop {
            end, terminated := Terminate(turn.killFails, Cancelled);
            return;
          }
        case LimitMessage(first) =>
          if listening && first.Some? {
            end, terminated := Terminate(turn.killFails, OutputExceeded(first.value));
            return;
          }
          if first.None? {
            listening := false;
          }
      }
      k := k + 1;
    }
  }

  method Terminate(killFails: bool, because: End) returns (end: Option<Result<End, ProcessError>>, terminated: bool)
    ensures end == Killed(killFails, because) && (terminated <==> !killFails)
  {
    if killFails {
      return Some(Err(WaitError)), false;
    }
    end, terminated := Some(Ok(because)), true;
  }

  // ---------- After the shell has exited ----------

  /** What ends the select of one turn of `collect_after_child_exit`; `FlagIs(None)` is a closed watch. */
  datatype Signal = BothRead | LimitSignal(first: Option<LimitExceeded>) | FlagIs(value: Option<bool>) | SleepEnds

  datatype Round = Round(after: nat, signal: Signal, killFails: bool)

  function ClockOf(start: nat, rounds: seq<Round>, n: nat): nat
    requires n <= |rounds|
  {
    if n == 0 then start else ClockOf(start, rounds, n - 1) + rounds[n - 1].after
  }

  predicate StillListens(child: Child, rounds: seq<Round>, k: nat)
    requires k <= |rounds|
  {
    child.hasLimit && forall j :: 0 <= j < k ==> rounds[j].signal != LimitSignal(None)
  }

  predicate StillWatches(child: Child, rounds: seq<Round>, k: nat)
    requires k <= |rounds|
  {
    child.hasShutdown && forall j :: 0 <= j < k ==> rounds[j].signal != FlagIs(None)
  }

  /** How round `k` ends the collection, if it does. */
  function CollectionEnd(child: Child, status: ExitStatus, start: nat, rounds: seq<Round>, k: nat)
    : Option<Result<End, ProcessError>>
    requires k < |rounds|
  {
    var round := rounds[k];
    match round.signal
    case BothRead => Some(Ok(Completed(status)))
    case LimitSignal(first) =>
      if first.Some? && StillListens(child, rounds, k) then Killed(round.killFails, OutputExceeded(first.value)) else None
    case FlagIs(value) =>
      if value == Some(true) && StillWatches(child, rounds, k) then Killed(round.killFails, Cancelled) else None
    case SleepEnds =>
      if ClockOf(start, rounds, k + 1) >= child.deadline then Killed(round.killFails, TimedOut) else None
  }

  function FirstCollectionEnd(child: Child, status: ExitStatus, start: nat, rounds: seq<Round>, k: nat): (n: nat)
    requires k <= |rounds|
    ensures k <= n <= |rounds| && forall j :: k <= j < n ==> CollectionEnd(child, status, start, rounds, j).None?
    ensures n < |rounds| ==> CollectionEnd(child, status, start, rounds, n).Some?
    decreases |rounds| - k
  {
    if k < |rounds| && CollectionEnd(child, status, start, rounds, k).None?
    then FirstCollectionEnd(child, status, start, rounds, k + 1) else k
  }

  /** How the collection ends; `None` when the schedule does. */
  function CollectEnd(child: Child, status: ExitStatus, start: nat, rounds: seq<Round>): Option<Result<End, ProcessError>> {
    var n := FirstCollectionEnd(child, status, start, rounds, 0);
    if n < |rounds| then CollectionEnd(child, status, start, rounds, n) else None
  }

  /** In round `k` the pipes are still held, no reader sends, nobody asks for shutdown, and no sleep ends at the deadline. */
  ghost predicate QuietRound(child: Child, start: nat, rounds: seq<Round>, k: nat)
    requires k < |rounds|
  {
    && !rounds[k].signal.BothRead?
    && (StillListens(child, rounds, k) && rounds[k].signal.LimitSignal? ==> rounds[k].signal.first.None?)
    && (StillWatches(child, rounds, k) ==> rounds[k].signal != FlagIs(Some(true)))
    && (rounds[k].signal.SleepEnds? ==> ClockOf(start, rounds, k + 1) < child.deadline)
  }

  lemma {:induction false} QuietRoundsGoOn(child: Child, status: ExitStatus, start: nat, rounds: seq<Round>, j: nat, k: nat)
    requires j <= k <= |rounds| && forall i :: j <= i < k ==> QuietRound(child, start, rounds, i)
    ensures FirstCollectionEnd(child, status, start, rounds, j) == FirstCollectionEnd(child, status, start, rounds, k)
    decreases k - j
  {
    if j < k {
      assert QuietRound(child, start, rounds, j);
      QuietRoundsGoOn(child, status, start, rounds, j + 1, k);
    }
  }

  /** When the rounds before `k` were quiet, the collection is decided there: by the end of both readers, by a reader's
      message, by a flag that is up, or by the deadline. */
  lemma {:induction false} CollectionIsDecided(child: Child, status: ExitStatus, start: nat, rounds: seq<Round>, k: nat)
    requires k < |rounds| && forall j :: 0 <= j < k ==> QuietRound(child, start, rounds, j)
    ensures var signal, end := rounds[k].signal, CollectEnd(child, status, start, rounds);
            && (signal.BothRead? ==> end == Some(Ok(Completed(status))))
            && (signal.LimitSignal? && signal.first.Some? && StillListens(child, rounds, k) ==>
                  EndedFor(end, rounds[k].killFails, OutputExceeded(signal.first.value)))
            && (signal == FlagIs(Some(true)) && StillWatches(child, rounds, k) ==>
                  EndedFor(end, rounds[k].killFails, Cancelled))
            && (signal.SleepEnds? && ClockOf(start, rounds, k + 1) >= child.deadline ==>
                  EndedFor(end, rounds[k].killFails, TimedOut))
    ensures !QuietRound(child, start, rounds, k) ==> FirstCollectionEnd(child, status, start, rounds, 0) == k
  {
    QuietRoundsGoOn(child, status, start, rounds, 0, k);
  }

  lemma {:induction false} CollectionGoesOnExactly(child: Child, status: ExitStatus, start: nat, rounds: seq<Round>)
    ensures CollectEnd(child, status, start, rounds).None? <==>
              forall k :: 0 <= k < |rounds| ==> QuietRound(child, start, rounds, k)
  {
    var n := FirstCollectionEnd(child, status, start, rounds, 0);
    forall k | 0 <= k < n ensures QuietRound(child, start, rounds, k) {
      assert CollectionEnd(child, status, start, rounds, k).None?;
    }
    if n < |rounds| {
      assert CollectionEnd(child, status, start, rounds, n).Some? && !QuietRound(child, start, rounds, n);
    }
  }

  /** `collect_after_child_exit`: deadline, shutdown and budget stay in force while a descendant holds the pipes. */
  method CollectAfterChildExit(child: Child, status: ExitStatus, start: nat, rounds: seq<Round>)
    returns (end: Option<Result<End, ProcessError>>, now: nat, terminated: bool)
    ensures end == CollectEnd(child, status, start, rounds)
    ensures end.None? <==> forall k :: 0 <= k < |rounds| ==> QuietRound(child, start, rounds, k)
    ensures var n := FirstCollectionEnd(child, status, start, rounds, 0);
            now == ClockOf(start, rounds, if n < |rounds| then n + 1 else n)
    ensures terminated <==> ByForce(end)
    ensures end == Some(Ok(TimedOut)) ==> now >= child.deadline
    ensures end == Some(Ok(Cancelled)) ==>
              child.hasShutdown && exists k :: 0 <= k < |rounds| && rounds[k].signal == FlagIs(Some(true))
  {
    CollectionGoesOnExactly(child, status, start, rounds);
    end, now, terminated := None, start, false;
    var listening, watching := child.hasLimit, child.hasShutdown;
    var k := 0;
    while k < |rounds|
      invariant k <= |rounds| && now == ClockOf(start, rounds, k) && !terminated && end.None?
      invariant FirstCollectionEnd(child, status, start, rounds, 0) == FirstCollectionEnd(child, status, start, rounds, k)
      invariant (listening <==> StillListens(child, rounds, k)) && (watching <==> StillWatches(child, rounds, k))
    {
      var round := rounds[k];
      now := now + round.after;
      var because: Option<End> := None;
      match round.signal {
        case BothRead =>
          end := Some(Ok(Completed(status)));
          return;
        case LimitSignal(first) =>
          if listening && first.Some? {
            because := Some(OutputExceeded(first.value));
          }
          listening := listening && first.Some?;
        case FlagIs(value) =>
          if watching && value == Some(true) {
            because := Some(Cancelled);
          }
          watching := watching && value.Some?;
        case SleepEnds =>
          if now >= child.deadline {
            because := Some(TimedOut);
          }
      }
      if because.Some? {
        end, terminated := Terminate(round.killFails, because.value);
        return;
      }
      k := k + 1;
    }
  }

  // ---------- A whole run ----------

  /** How the child ends: the wait, and after an exit of the shell the collection. */
  function ChildEnd(child: Child, start: nat, turns: seq<Turn>, rounds: seq<Round>): Option<Result<End, ProcessError>> {
    var end := WaitEnd(child, start, turns);
    if end.Some? && end.value.Ok? && end.value.value.Completed? then
      CollectEnd(child, end.value.value.status, Clock(start, turns, FirstEnd(child, start, turns, 0) + 1), rounds)
    else end
  }

  /** The child runs on exactly while every turn of the wait is quiet, or, once its shell has exited, every round of the
      collection; an exit of the shell is its end as soon as both readers are done. */
  lemma {:induction false} ChildEndsExactly(child: Child, start: nat, turns: seq<Turn>, rounds: seq<Round>, k: nat)
    requires k < |turns| && turns[k].exited.Ok? && turns[k].exited.value.Some?
    requires forall j :: 0 <= j < k ==> Quiet(child, start, turns, j)
    ensures var status, later := turns[k].exited.value.value, Clock(start, turns, k + 1);
            && ChildEnd(child, start, turns, rounds) == CollectEnd(child, status, later, rounds)
            && (ChildEnd(child, start, turns, rounds).None? <==>
                  forall j :: 0 <= j < |rounds| ==> QuietRound(child, later, rounds, j))
            && (forall m :: 0 <= m < |rounds| && rounds[m].signal.BothRead?
                            && (forall j :: 0 <= j < m ==> QuietRound(child, later, rounds, j)) ==>
                  ChildEnd(child, start, turns, rounds) == Some(Ok(Completed(status))))
  {
    var status, later := turns[k].exited.value.value, Clock(start, turns, k + 1);
    WaitIsDecided(child, start, turns, k);
    CollectionGoesOnExactly(child, status, later, rounds);
    forall m | 0 <= m < |rounds| && rounds[m].signal.BothRead? && (forall j :: 0 <= j < m ==> QuietRound(child, later, rounds, j))
      ensures CollectEnd(child, status, later, rounds) == Some(Ok(Completed(status)))
    {
      CollectionIsDecided(child, status, later, rounds, m);
    }
  }

  /** The run that an end of the child and what was read of its pipes amount to. */
  function ShellRunOf(end: Option<Result<End, ProcessError>>, pipes: Readers): Option<Result<ShellRun, ProcessError>> {
    if end.None? then None
    else if end.value.Err? then Some(Err(end.value.error))
    else if Collect(pipes).Err? then Some(Err(Collect(pipes).error))
    else Some(Ok(FinishShellRun(end.value.value, Collect(pipes).value)))
  }

  /** A run fails with the error that the child's end failed with, or when a reader broke, and in no other case. */
  lemma RunFailsExactly(end: Option<Result<End, ProcessError>>, pipes: Readers, error: ProcessError)
    ensures ShellRunOf(end, pipes) == Some(Err(error)) <==>
            || end == Some(Err(error))
            || (end.Some? && end.value.Ok? && error == OutputError && (pipes.stdout.status.Broken? || pipes.stderr.status.Broken?))
    ensures ShellRunOf(end, pipes).None? <==> end.None?
  {
  }

  /** The message is the one that a reader sends when the budget cuts it short. */
  ghost predicate SentByReader(pipes: Readers, message: LimitExceeded) {
    pipes.limit.Some?
    && (Exceeding(Stdout, pipes.limit.value, pipes.stdout) == Some(message)
        || Exceeding(Stderr, pipes.limit.value, pipes.stderr) == Some(message))
  }

  /** Nobody but the readers sends on the channel that the waits listen to. */
  ghost predicate SentByReaders(pipes: Readers, turns: seq<Turn>, rounds: seq<Round>) {
    && (forall k :: 0 <= k < |turns| && turns[k].wake.LimitMessage? && turns[k].wake.first.Some? ==>
          SentByReader(pipes, turns[k].wake.first.value))
    && (forall k :: 0 <= k < |rounds| && rounds[k].signal.LimitSignal? && rounds[k].signal.first.Some? ==>
          SentByReader(pipes, rounds[k].signal.first.value))
  }

  /** So a child is terminated for its output only when the streams exceed the limit. */
  lemma OverLimitIfExceeded(child: Child, start: nat, turns: seq<Turn>, rounds: seq<Round>, pipes: Readers)
    requires Ran(pipes) && SentByReaders(pipes, turns, rounds)
    ensures var end := ChildEnd(child, start, turns, rounds);
            end.Some? && end.value.Ok? && end.value.value.OutputExceeded? ==>
              SentByReader(pipes, end.value.value.first) && OverLimit(pipes.limit, pipes.stdout.pipe, pipes.stderr.pipe)
  {
  }

  /** Somewhere in the run the shutdown flag was seen true. */
  ghost predicate SawShutdown(turns: seq<Turn>, rounds: seq<Round>) {
    || (exists k :: 0 <= k < |turns| && (turns[k].flag || turns[k].wake == WatchChanged(true)))
    || (exists k :: 0 <= k < |rounds| && rounds[k].signal == FlagIs(Some(true)))
  }

  /** `run_shell_process` from the spawned child on. `pipes` is how the reader tasks have ended when their output
      is collected. A completed run carries both whole streams and was not terminated; a run is reported out of
      time only at or after its deadline and as cancelled only when shutdown was seen, each only after its process
      group was terminated. */
  method RunShellProcess(child: Child, start: nat, turns: seq<Turn>, rounds: seq<Round>, pipes: Readers)
    returns (run: Option<Result<ShellRun, ProcessError>>, now: nat, terminated: bool)
    requires Ran(pipes) && (pipes.limit.Some? <==> child.hasLimit) && SentByReaders(pipes, turns, rounds)
    ensures run == ShellRunOf(ChildEnd(child, start, turns, rounds), pipes)
    ensures run.Some? && run.value.Ok? && run.value.value.RanToEnd? ==>
              && !terminated
              && run.value.value.captured == Captured(pipes.stdout.pipe, pipes.stderr.pipe, false, false)
              && !OverLimit(pipes.limit, pipes.stdout.pipe, pipes.stderr.pipe)
    ensures run.Some? && run.value.Ok? && run.value.value.RanOutOfTime? ==> terminated && now >= child.deadline
    ensures run.Some? && run.value.Ok? && run.value.value.WasCancelled? ==>
              terminated && child.hasShutdown && SawShutdown(turns, rounds)
    ensures run.Some? && run.value.Ok? ==>
              (run.value.value.WroteTooMuch? <==> OverLimit(pipes.limit, pipes.stdout.pipe, pipes.stderr.pipe))
    ensures run.Some? && run.value.Ok? && run.value.value.WroteTooMuch? ==> SentByReader(pipes, run.value.value.first)
  {
    var end;
    end, now, terminated := WaitForChild(child, start, turns);
    if end.None? {
      return None, now, terminated;
    }
    if end.value.Err? {
      return Some(Err(end.value.error)), now, terminated;
    }
    if end.value.value.Completed? {
      end, now, terminated := CollectAfterChildExit(child, end.value.value.status, now, rounds);
      if end.None? {
        return None, now, terminated;
      }
      if end.value.Err? {
        return Some(Err(end.value.error)), now, terminated;
      }
    }
    var collected := Collect(pipes);
    if collected.Err? {
      return Some(Err(collected.error)), now, terminated;
    }
    Classification(end.value.value, pipes);
    OverLimitIfExceeded(child, start, turns, rounds, pipes);
    run := Some(Ok(FinishShellRun(end.value.value, collected.value)));
  }

  // ---------- Secrets from helpers ----------

  const REAUTH_REQUIRED_EXIT_CODE := 78

  datatype AuthError = HelperStart | HelperTimedOut | HelperCancelled | HelperOutputTooLarge | HelperReauthRequired | HelperFailed
                     | HelperOutputUtf8 | EmptySecret

  function TrimTrailingCrLf(s: string): string {
    if s != [] && IsCrLf(s[|s| - 1]) then TrimTrailingCrLf(s[..|s| - 1]) else s
  }

  /** Trimming takes away exactly the trailing CRs and LFs. */
  lemma {:induction false} TrimIsExact(s: string)
    ensures var t := TrimTrailingCrLf(s);
            && t <= s
            && (forall k :: |t| <= k < |s| ==> IsCrLf(s[k]))
            && (t != [] ==> !IsCrLf(t[|t| - 1]))
  {
    if s != [] && IsCrLf(s[|s| - 1]) {
      TrimIsExact(s[..|s| - 1]);
    }
  }

  lemma {:induction false} TrimIsUnique(s: string, t: string)
    requires t <= s && t != [] && !IsCrLf(t[|t| - 1])
    requires forall k :: |t| <= k < |s| ==> IsCrLf(s[k])
    ensures t == TrimTrailingCrLf(s)
  {
    if |t| < |s| {
      TrimIsUnique(s[..|s| - 1], t);
    } else {
      assert t == s;
    }
  }

  /** `run_secret_command`, from the run of the helper on. */
  function RunSecretCommand(run: Result<ShellRun, ProcessError>, utf8: seq<Byte> -> Option<string>): Result<string, AuthError> {
    match run
    case Err(_) => Err(HelperStart)
    case Ok(RanOutOfTime(_)) => Err(HelperTimedOut)
    case Ok(WasCancelled(_)) => Err(HelperCancelled)
    case Ok(WroteTooMuch(_, _)) => Err(HelperOutputTooLarge)
    case Ok(RanToEnd(status, captured)) =>
      if !status.success then Err(if status.code == Some(REAUTH_REQUIRED_EXIT_CODE) then HelperReauthRequired else HelperFailed)
      else match utf8(captured.stdout)
        case None => Err(HelperOutputUtf8)
        case Some(text) =>
          var secret := TrimTrailingCrLf(text);
          if secret == "" then Err(EmptySecret) else Ok(secret)
  }

  /** A helper's secret is never a part of what it printed: it is returned exactly when the helper succeeded within its
      limits, and is then its whole standard output, decoded, nonempty, less the trailing CRs and LFs. */
  lemma SecretIsWholeOutput(end: End, pipes: Readers, utf8: seq<Byte> -> Option<string>, secret: string)
    requires Ran(pipes) && Collect(pipes).Ok?
    ensures var text := utf8(pipes.stdout.pipe);
            RunSecretCommand(Ok(FinishShellRun(end, Collect(pipes).value)), utf8) == Ok(secret)
            <==>
            && end.Completed? && end.status.success
            && !OverLimit(pipes.limit, pipes.stdout.pipe, pipes.stderr.pipe)
            && text.Some? && secret != ""
            && secret <= text.value
            && (forall k :: |secret| <= k < |text.value| ==> IsCrLf(text.value[k]))
            && !IsCrLf(secret[|secret| - 1])
  {
    Classification(end, pipes);
    var text := utf8(pipes.stdout.pipe);
    if text.Some? {
      TrimIsExact(text.value);
      if secret != "" && secret <= text.value && !IsCrLf(secret[|secret| - 1])
         && forall k :: |secret| <= k < |text.value| ==> IsCrLf(text.value[k]) {
        TrimIsUnique(text.value, secret);
      }
    }
  }

  /** And every error says what went wrong, exactly. */
  lemma HelperErrorsAreExact(end: End, pipes: Readers, utf8: seq<Byte> -> Option<string>)
    requires Ran(pipes) && Collect(pipes).Ok?
    ensures var r := RunSecretCommand(Ok(FinishShellRun(end, Collect(pipes).value)), utf8);
            var over := OverLimit(pipes.limit, pipes.stdout.pipe, pipes.stderr.pipe);
            var text := utf8(pipes.stdout.pipe);
            && (r == Err(HelperTimedOut) <==> end.TimedOut? && !over)
            && (r == Err(HelperCancelled) <==> end.Cancelled? && !over)
            && (r == Err(HelperOutputTooLarge) <==> end.OutputExceeded? || over)
            && (r == Err(HelperReauthRequired) <==>
                  end.Completed? && !over && !end.status.success && end.status.code == Some(78))
            && (r == Err(HelperFailed) <==> end.Completed? && !over && !end.status.success && end.status.code != Some(78))
            && (r == Err(HelperOutputUtf8) <==> end.Completed? && !over && end.status.success && text.None?)
            && (r == Err(EmptySecret) <==>
                  end.Completed? && !over && end.status.success && text.Some?
                  && forall k :: 0 <= k < |text.value| ==> IsCrLf(text.value[k]))
            && r != Err(HelperStart)
  {
    Classification(end, pipes);
    var text := utf8(pipes.stdout.pipe);
    if text.Some? {
      TrimIsExact(text.value);
      var t := TrimTrailingCrLf(text.value);
      assert t != [] ==> !IsCrLf(text.value[|t| - 1]);
    }
  }

  /** A helper is run without shutdown, so its run is never reported as cancelled. */
  method RunHelper(deadline: nat, start: nat, turns: seq<Turn>, rounds: seq<Round>, pipes: Readers,
                   utf8: seq<Byte> -> Option<string>) returns (secret: Option<Result<string, AuthError>>)
    requires Ran(pipes) && pipes.limit.Some? && SentByReaders(pipes, turns, rounds)
    ensures var run := ShellRunOf(ChildEnd(Child(deadline, false, true), start, turns, rounds), pipes);
            secret == if run.None? then None else Some(RunSecretCommand(run.value, utf8))
    ensures secret.Some? ==> secret.value != Err(HelperCancelled)
    ensures secret.Some? && secret.value.Ok? ==>
              && utf8(pipes.stdout.pipe).Some?
              && secret.value.value == TrimTrailingCrLf(utf8(pipes.stdout.pipe).value) != ""
  {
    var run, now, terminated := RunShellProcess(Child(deadline, false, true), start, turns, rounds, pipes);
    if run.None? {
      return None;
    }
    secret := Some(RunSecretCommand(run.value, utf8));
  }
}
