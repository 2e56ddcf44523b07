/** The runner behind a system-resume source as a machine of atomic steps: it waits for quiet, then submits. */
module ResumeWait {
  import opened SourceTask
  import opened Watching

  /** What the properties speak about: a wake-up is offered to the queue, one is taken from it, and the runner sets
      out to submit its command; `quiet` says that the settle time was waited out. */
  datatype Mark = Woken(at: nat) | Heard(at: nat) | Attempt(at: nat, quiet: bool)

  datatype Loc =
    | Waiting               // the select of `run`
    | Settling(until: nat)  // `wait_for_quiet` with a settle time
    | Emptying              // `wait_for_quiet` without one
    | Submitting
    | Awaiting
    | Draining(saw: bool)   // after a run
    | Stopped

  datatype World = World(now: nat, queued: nat, closed: bool, watch: Watch, log: seq<Mark>)

  datatype State = State(world: World, loc: Loc)

  datatype Input =
    | Elapse(duration: nat)
    | Wake
    | CloseEvents
    | SetShutdown(value: bool)
    | DropShutdown
    | Act(choice: Choice)

  function Init(): State {
    State(World(0, 0, false, NOT_SHUT_DOWN, []), Waiting)
  }

  /** A wake-up that finds the queue full is dropped. */
  function Ambient(w: World, i: Input): World {
    match i
    case Elapse(n) => w.(now := w.now + n)
    case Wake =>
      if w.closed then w
      else w.(queued := if w.queued < QUEUE_CAPACITY then w.queued + 1 else w.queued, log := w.log + [Woken(w.now)])
    case CloseEvents => w.(closed := true)
    case SetShutdown(v) => w.(watch := w.watch.Set(v))
    case DropShutdown => w.(watch := w.watch.Drop())
    case Act(_) => w
  }

  function Hear(w: World): World
    requires w.queued > 0
  {
    w.(queued := w.queued - 1, log := w.log + [Heard(w.now)])
  }

  /** The top of `wait_for_quiet`. */
  function Settle(settle: nat, s: State): State {
    s.(loc := if settle == 0 then Emptying else Settling(s.world.now + settle))
  }

  function SetOut(s: State, quiet: bool): State {
    s.(world := s.world.(log := s.world.log + [Attempt(s.world.now, quiet)]), loc := Submitting)
  }

  function WatchDuring(s: State, over: State): State {
    if !s.world.watch.Ready() then s
    else if s.world.watch.Stops() then s.(world := s.world.(watch := s.world.watch.Taken()), loc := Stopped)
    else over.(world := over.world.(watch := s.world.watch.Taken()))
  }

  function ActStep(settle: nat, s: State, choice: Choice): State {
    var w := s.world;
    match s.loc
    case Waiting =>
      if choice.Receive? then
        if w.queued > 0 then Settle(settle, s.(world := Hear(w)))
        else if w.closed then s.(loc := Stopped)
        else s
      else if choice.TakeWatch? then WatchDuring(s, s)
      else s
    case Settling(until) =>
      if choice.TimerFires? then if w.now >= until then SetOut(s, true) else s
      else if choice.Receive? then
        if w.queued > 0 then Settle(settle, s.(world := Hear(w)))
        else if w.closed then SetOut(s, false)
        else s
      else if choice.TakeWatch? then WatchDuring(s, SetOut(s, false))
      else s
    case Emptying => if w.queued > 0 then s.(world := Hear(w)) else SetOut(s, true)
    case Submitting =>
      if choice.Submitted? then s.(loc := Awaiting)
      else if choice.SubmitFailed? then s.(loc := Draining(false))
      else if choice.TakeWatch? then WatchDuring(s, s.(loc := Draining(false)))
      else s
    case Awaiting =>
      if choice.Reported? then s.(loc := Draining(false))
      else if choice.TakeWatch? then WatchDuring(s, s.(loc := Draining(false)))
      else s
    case Draining(saw) =>
      if w.queued > 0 then State(Hear(w), Draining(true))
      else if saw then Settle(settle, s)
      else s.(loc := Waiting)
    case Stopped => s
  }

  function Step(settle: nat, s: State, i: Input): State {
    if i.Act? then ActStep(settle, s, i.choice) else s.(world := Ambient(s.world, i))
  }

  function Run(settle: nat, s: State, script: seq<Input>): State {
    if script == [] then s
    else Step(settle, Run(settle, s, script[..|script| - 1]), script[|script| - 1])
  }

  lemma RunStep(settle: nat, s: State, script: seq<Input>, n: nat)
    requires n < |script|
    ensures Run(settle, s, script[..n + 1]) == Step(settle, Run(settle, s, script[..n]), script[n])
  {
    assert script[..n + 1][..n] == script[..n];
  }

  // ---------- What holds in every run ----------

  /** Something the runner holds will make it set out again. */
  predicate InFlight(s: State) {
    s.world.queued > 0 || s.loc.Settling? || s.loc.Emptying? || (s.loc.Draining? && s.loc.saw)
  }

  /** Wake-up `k` has no later attempt. */
  ghost predicate Unserved(log: seq<Mark>, k: nat)
    requires k < |log|
  {
    log[k].Woken? && forall j :: k < j < |log| ==> !log[j].Attempt?
  }

  /** A quiet attempt at `j` comes a whole settle time after every wake-up heard before it. */
  ghost predicate QuietAt(settle: nat, log: seq<Mark>, k: nat, j: nat)
    requires k < j < |log|
  {
    log[k].Heard? && log[j].Attempt? && log[j].quiet ==> log[k].at + settle <= log[j].at
  }

  ghost predicate Inv(settle: nat, s: State) {
    var log := s.world.log;
    && (forall k :: 0 <= k < |log| && Unserved(log, k) ==> InFlight(s) || s.loc.Stopped?)
    && (forall k, j :: 0 <= k < j < |log| ==> QuietAt(settle, log, k, j) && log[k].at <= log[j].at)
    && (forall k :: 0 <= k < |log| ==> log[k].at <= s.world.now)
    && (s.loc.Settling? ==> forall k :: 0 <= k < |log| && log[k].Heard? ==> log[k].at + settle <= s.loc.until)
    && (s.loc.Emptying? ==> settle == 0)
  }

  /** A step adds one mark at the present instant, or none. */
  ghost predicate Adds(s: State, t: State) {
    && t.world.now == s.world.now
    && (t.world.log == s.world.log
        || (exists m: Mark :: m.at == s.world.now && t.world.log == s.world.log + [m]))
  }

  lemma AddsKeepsOrder(settle: nat, s: State, t: State)
    requires Inv(settle, s) && Adds(s, t)
    requires t.world.log != s.world.log && Newest(t).Attempt? && Newest(t).quiet ==>
               settle == 0 || (s.loc.Settling? && s.loc.until <= s.world.now)
    ensures forall k, j :: 0 <= k < j < |t.world.log| ==>
              QuietAt(settle, t.world.log, k, j) && t.world.log[k].at <= t.world.log[j].at
    ensures forall k :: 0 <= k < |t.world.log| ==> t.world.log[k].at <= t.world.now
  {
    var before, log := s.world.log, t.world.log;
    forall k, j | 0 <= k < j < |log| ensures QuietAt(settle, log, k, j) && log[k].at <= log[j].at {
      if j < |before| {
        assert QuietAt(settle, before, k, j);
      }
    }
  }

  ghost function Newest(s: State): Mark
    requires s.world.log != []
  {
    s.world.log[|s.world.log| - 1]
  }

  /** What was in flight stays so, or is served by an attempt. */
  lemma StaysInFlight(s: State, t: State, k: nat)
    requires s.world.log <= t.world.log && k < |s.world.log| && Unserved(t.world.log, k)
    ensures Unserved(s.world.log, k)
    ensures |t.world.log| > |s.world.log| ==> !t.world.log[|s.world.log|].Attempt?
  {
  }

  lemma ActKeepsFlight(settle: nat, s: State, choice: Choice, k: nat)
    requires Inv(settle, s)
    requires var log := ActStep(settle, s, choice).world.log; k < |log| && Unserved(log, k)
    ensures var t := ActStep(settle, s, choice); InFlight(t) || t.loc.Stopped?
  {
    var t := ActStep(settle, s, choice);
    if k < |s.world.log| {
      StaysInFlight(s, t, k);
    }
  }

  lemma ActAddsOne(settle: nat, s: State, choice: Choice)
    requires s.loc.Emptying? ==> settle == 0
    ensures var t := ActStep(settle, s, choice);
            && Adds(s, t) && s.world.log <= t.world.log
            && (t.world.log != s.world.log && Newest(t).Attempt? && Newest(t).quiet ==>
                  settle == 0 || (s.loc.Settling? && s.loc.until <= s.world.now))
  {
    var t := ActStep(settle, s, choice);
    assert t.world.log == s.world.log || t.world.log == s.world.log + [Newest(t)];
  }

  lemma ActKeepsInv(settle: nat, s: State, choice: Choice)
    requires Inv(settle, s)
    ensures Inv(settle, ActStep(settle, s, choice))
  {
    var t := ActStep(settle, s, choice);
    ActAddsOne(settle, s, choice);
    AddsKeepsOrder(settle, s, t);
    forall k | 0 <= k < |t.world.log| && Unserved(t.world.log, k) ensures InFlight(t) || t.loc.Stopped? {
      ActKeepsFlight(settle, s, choice, k);
    }
  }

  lemma AmbientKeepsInv(settle: nat, s: State, i: Input)
    requires Inv(settle, s) && !i.Act?
    ensures Inv(settle, Step(settle, s, i))
  {
    var t := Step(settle, s, i);
    if i.Wake? && !s.world.closed {
      assert t.world.log == s.world.log + [Woken(s.world.now)];
      AddsKeepsOrder(settle, s, t);
    }
    forall k | 0 <= k < |t.world.log| && Unserved(t.world.log, k) ensures InFlight(t) || t.loc.Stopped? {
      if k < |s.world.log| {
        StaysInFlight(s, t, k);
      }
    }
  }

  lemma {:induction false} RunKeepsInv(settle: nat, script: seq<Input>)
    ensures Inv(settle, Run(settle, Init(), script))
  {
    if script != [] {
      RunKeepsInv(settle, script[..|script| - 1]);
      var s, last := Run(settle, Init(), script[..|script| - 1]), script[|script| - 1];
      if last.Act? {
        ActKeepsInv(settle, s, last.choice);
      } else {
        AmbientKeepsInv(settle, s, last);
      }
    }
  }

  /** Every wake-up, even one dropped because the queue was full, is followed by an attempt to submit at or after it, or is
      still in flight, or the runner has stopped. */
  lemma {:induction false} NoWakeUpLost(settle: nat, script: seq<Input>, k: nat)
    requires k < |Run(settle, Init(), script).world.log| && Run(settle, Init(), script).world.log[k].Woken?
    ensures var s := Run(settle, Init(), script);
            || (exists j :: k < j < |s.world.log| && s.world.log[j].Attempt? && s.world.log[j].at >= s.world.log[k].at)
            || InFlight(s)
            || s.loc.Stopped?
  {
    var s := Run(settle, Init(), script);
    RunKeepsInv(settle, script);
    if !Unserved(s.world.log, k) {
      var j :| k < j < |s.world.log| && s.world.log[j].Attempt?;
      assert QuietAt(settle, s.world.log, k, j);
    }
  }

  /** The command is submitted a whole settle time after the last wake-up heard, unless the wait was ended by the source's
      end or by the watch. */
  lemma {:induction false} QuietBeforeSubmit(settle: nat, script: seq<Input>, k: nat, j: nat)
    requires k < j < |Run(settle, Init(), script).world.log|
    requires var log := Run(settle, Init(), script).world.log; log[k].Heard? && log[j].Attempt? && log[j].quiet
    ensures var log := Run(settle, Init(), script).world.log; log[k].at + settle <= log[j].at
  {
    RunKeepsInv(settle, script);
    assert QuietAt(settle, Run(settle, Init(), script).world.log, k, j);
  }

  // ---------- What is in flight moves on ----------

  /** How far the runner is from setting out, once no event is queued. */
  function Stage(s: State): nat {
    match s.loc
    case Draining(saw) => if saw then 2 else 0
    case Settling(_) => 1
    case Emptying => 1
    case _ => 0
  }

  /** The task can act: its settle time is over, or it only empties the queue. */
  predicate Enabled(s: State, choice: Choice) {
    match s.loc
    case Settling(until) => choice.TimerFires? && s.world.now >= until
    case Emptying => true
    case Draining(_) => true
    case _ => false
  }

  /** Until the runner sets out every action of it that does anything takes an event off the queue, or with the queue as it
      was brings it a stage nearer, or stops it on shutdown; and unless the settle time is not over yet there is such an
      action. `wait_for_quiet` has no bound on how often events start the settle time again. */
  lemma WakeUpMovesOn(settle: nat, s: State, choice: Choice)
    requires Stage(s) > 0
    ensures var t := ActStep(settle, s, choice);
            && (t == s || t.loc.Submitting? || t.world.queued < s.world.queued
                || (t.world.queued == s.world.queued && Stage(t) < Stage(s))
                || (t.loc.Stopped? && s.world.watch.Stops()))
            && (Enabled(s, choice) ==> t != s)
  {
  }

  // ---------- Every submission answers a wake-up ----------

  /** A wake-up was heard, and no attempt has followed yet. */
  ghost predicate HeardSince(log: seq<Mark>) {
    exists k :: 0 <= k < |log| && HeardLast(log, k)
  }

  ghost predicate HeardLast(log: seq<Mark>, k: nat)
    requires k < |log|
  {
    log[k].Heard? && forall j :: k < j < |log| ==> !log[j].Attempt?
  }

  /** Every attempt follows a wake-up heard since the attempt before. */
  ghost predicate AllAnswer(log: seq<Mark>) {
    forall j :: 0 <= j < |log| && log[j].Attempt? ==> HeardSince(log[..j])
  }

  ghost predicate Answering(settle: nat, s: State) {
    AllAnswer(s.world.log) && (Stage(s) > 0 ==> HeardSince(s.world.log))
    && (s.loc.Settling? ==> s.loc.until <= s.world.now + settle)
  }

  lemma HeardStays(log: seq<Mark>, m: Mark)
    ensures m.Heard? ==> HeardSince(log + [m])
    ensures HeardSince(log) && !m.Attempt? ==> HeardSince(log + [m])
    ensures AllAnswer(log) && (m.Attempt? ==> HeardSince(log)) ==> AllAnswer(log + [m])
  {
    var more := log + [m];
    if m.Heard? {
      assert HeardLast(more, |log|);
    }
    if HeardSince(log) && !m.Attempt? {
      var k :| 0 <= k < |log| && HeardLast(log, k);
      assert HeardLast(more, k);
    }
    forall j | 0 <= j <= |log| ensures more[..j] == log[..j] {
    }
    assert log[..|log|] == log;
  }

  lemma StepAnswers(settle: nat, s: State, i: Input)
    requires Answering(settle, s)
    ensures Answering(settle, Step(settle, s, i))
  {
    HeardStays(s.world.log, Heard(s.world.now));
    HeardStays(s.world.log, Woken(s.world.now));
    HeardStays(s.world.log, Attempt(s.world.now, true));
    HeardStays(s.world.log, Attempt(s.world.now, false));
    if i.Act? {
      match s.loc {
        case Waiting =>
        case Settling(_) =>
        case Emptying =>
        case Submitting =>
        case Awaiting =>
        case Draining(_) =>
        case Stopped =>
      }
    }
  }

  lemma {:induction false} RunAnswers(settle: nat, script: seq<Input>)
    ensures Answering(settle, Run(settle, Init(), script))
  {
    if script != [] {
      RunAnswers(settle, script[..|script| - 1]);
      StepAnswers(settle, Run(settle, Init(), script[..|script| - 1]), script[|script| - 1]);
    }
  }

  /** In every run each attempt to submit follows a wake-up that was heard since the attempt before; and the settle time that
      is being waited for is over no later than a whole settle time from now. */
  lemma {:induction false} NoAttemptWithoutWakeUp(settle: nat, script: seq<Input>, j: nat)
    requires j < |Run(settle, Init(), script).world.log| && Run(settle, Init(), script).world.log[j].Attempt?
    ensures var s := Run(settle, Init(), script);
            && HeardSince(s.world.log[..j])
            && (s.loc.Settling? ==> s.loc.until <= s.world.now + settle)
  {
    RunAnswers(settle, script);
  }

  /** The task takes a watch change with the flag up, or finds its queue closed and empty. */
  predicate EndsTask(s: State, i: Input) {
    || (i == Act(TakeWatch) && s.world.watch.unseen && s.world.watch.value && !s.loc.Draining? && !s.loc.Emptying?)
    || (i == Act(Receive) && s.loc.Waiting? && s.world.queued == 0 && s.world.closed)
  }

  predicate WatchTells(s: State, choice: Choice) {
    choice.TakeWatch? && (s.world.watch.unseen || !s.world.watch.open)
  }

  /** The settle time is over, or cut short by a watch change that is no shutdown or by the end of the wake-ups; without a
      settle time, the queue is empty. */
  predicate SettlingIsOver(s: State, i: Input) {
    i.Act?
    && match s.loc
       case Settling(until) =>
         || (i.choice.TimerFires? && s.world.now >= until)
         || (WatchTells(s, i.choice) && !EndsTask(s, i))
         || (i.choice.Receive? && s.world.queued == 0 && s.world.closed)
       case Emptying => s.world.queued == 0
       case _ => false
  }

  /** The runner sets out exactly then, and a wake-up in the settle time starts that again. */
  lemma SetsOutExactly(settle: nat, s: State, i: Input)
    requires s.loc.Settling? || s.loc.Emptying?
    ensures Step(settle, s, i).loc.Submitting? <==> SettlingIsOver(s, i)
    ensures s.loc.Settling? && settle > 0 && i == Act(Receive) && s.world.queued > 0 ==>
              Step(settle, s, i).loc == Settling(s.world.now + settle)
  {
  }

  /** A command is waited for until the lane has refused or finished it, or the watch has something to tell; then the queue is
      emptied, unless the task ends. */
  lemma CommandIsFollowed(settle: nat, s: State, i: Input)
    requires s.loc.Submitting? || s.loc.Awaiting?
    ensures var t := Step(settle, s, i);
            var over := i.Act? && (WatchTells(s, i.choice) || i.choice == if s.loc.Submitting? then SubmitFailed else Reported);
            && (t.loc == Awaiting <==> !over && (s.loc.Awaiting? || i == Act(Submitted)))
            && (t.loc == Draining(false) <==> over && !EndsTask(s, i))
  {
  }

  /** The runner stops exactly then. */
  lemma StopsExactly(settle: nat, s: State, i: Input)
    requires !s.loc.Stopped?
    ensures Step(settle, s, i).loc.Stopped? <==> EndsTask(s, i)
  {
  }
}
