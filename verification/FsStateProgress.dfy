/** What moves the filesystem runner on: its stages, and its one startup run. */
module FsStateProgress {
  import opened FsState
  import opened FsStateProps
  import opened Options

  // ---------- Stages of an attempt ----------

  /** How far the runner is from the end of what it has begun for a batch or a startup run. */
  function Stage(s: State): nat {
    match s.loc
    case Settling(_, _) => 7
    case Checking(_, _) => 6
    case Submitting(_, _, _) => 5
    case AwaitingRun(_, _, _, started) => if started then 3 else 4
    case OwnSettling(_, _, _) => 2
    case Rebaselining(_, _) => 1
    case _ => 0
  }

  /** What the runner waits for comes: its timer, the end of a read, a submission or a command. */
  predicate Resolves(cfg: Config, s: State, i: Input) {
    match s.loc
    case Settling(first, last) => i.TimerFires? && s.world.now >= Due(cfg, first, last)
    case Checking(_, _) => i.ReadEnds?
    case Submitting(_, _, _) => i.StartEnds?
    case AwaitingRun(_, _, _, _) => i.Hears? && i.lifecycle != Started
    case OwnSettling(_, until, _) => i.TimerFires? && s.world.now >= until
    case Rebaselining(_, _) => i.ReadEnds?
    case _ => false
  }

  /** The attempt is over, and only what came meanwhile is left to be served. */
  ghost predicate Over(t: State) {
    AtRest(t) || t.loc.Settling? || t.loc.Checking? || t.loc.Submitting?
  }

  /** The tracker of what came meanwhile. */
  function Meanwhile(s: State): Dirty {
    if s.loc.Checking? || s.loc.Submitting? || s.loc.AwaitingRun? || s.loc.OwnSettling? || s.loc.Rebaselining? then s.loc.dirty
    else CLEAN
  }

  /** The attempt ends with this input: a read that finds no difference, a command that fails, or what follows a success. */
  predicate EndsAttempt(cfg: Config, s: State, i: Input) {
    match s.loc
    case Checking(_, _) => i == ReadEnds(ReadFailed) || (i.ReadEnds? && i.result.ReadOk? && s.baseline == Some(Known(i.result.state)))
    case Submitting(_, _, _) => i == StartEnds(false)
    case AwaitingRun(_, _, _, _) =>
      i == Hears(Lost) || i == Hears(Finished(false)) || (i == Hears(Finished(true)) && cfg.selfSettle == 0 && !cfg.hasReader)
    case OwnSettling(_, _, _) => i.TimerFires? && !cfg.hasReader
    case Rebaselining(_, _) => i.ReadEnds?
    case _ => false
  }

  /** No input takes an attempt back a stage before its end; what is waited for takes it at least one stage further or ends
      it; and an attempt that ends leaves the runner at rest exactly if no event came meanwhile and no change-triggered
      command failed. */
  ghost predicate MovesOn(cfg: Config, s: State, i: Input, t: State) {
    && (t.loc.Stopped? ==> EndsTask(s, i))
    && (!t.loc.Stopped? ==>
          if Resolves(cfg, s, i) && EndsAttempt(cfg, s, i) then Over(t) && (AtRest(t) <==> NothingLeft(s, i))
          else if Resolves(cfg, s, i) then Stage(t) < Stage(s)
          else Stage(t) <= Stage(s))
  }

  predicate NothingLeft(s: State, i: Input) {
    && Meanwhile(s).first.None?
    && ((s.loc.Submitting? || s.loc.AwaitingRun?) && i != Hears(Finished(true)) ==> s.loc.startup)
  }

  lemma ConcludeRests(cfg: Config, s: State, dirty: Dirty)
    ensures Over(Conclude(cfg, s, dirty)) && (AtRest(Conclude(cfg, s, dirty)) <==> dirty.first.None?)
    ensures AtRest(Conclude(cfg, s, dirty)) ==> Stage(Conclude(cfg, s, dirty)) <= 5
  {
  }

  lemma SettlingMovesOn(cfg: Config, s: State, i: Input)
    requires s.loc.Settling?
    ensures MovesOn(cfg, s, i, Step(cfg, s, i))
  {
  }

  lemma CheckingMovesOn(cfg: Config, s: State, i: Input)
    requires s.loc.Checking?
    ensures MovesOn(cfg, s, i, Step(cfg, s, i))
  {
    if i.ReadEnds? && !i.result.ReadCancelled? {
      ConcludeRests(cfg, Compare(s, s.loc.began, if i.result.ReadOk? then Some(i.result.state) else None), s.loc.dirty);
    }
  }

  lemma FailRests(cfg: Config, s: State, startup: bool, dirty: Dirty, sub: nat)
    ensures Over(Fail(cfg, s, startup, dirty, sub))
    ensures AtRest(Fail(cfg, s, startup, dirty, sub)) <==> startup && dirty.first.None?
  {
    ConcludeRests(cfg, s.(world := Record(s.world, RunFailed(sub, s.world.now))),
                  if startup then dirty else dirty.NoteNow(s.world.now));
  }

  lemma SubmittingMovesOn(cfg: Config, s: State, i: Input)
    requires s.loc.Submitting?
    ensures MovesOn(cfg, s, i, Step(cfg, s, i))
  {
    FailRests(cfg, s, s.loc.startup, s.loc.dirty, s.loc.sub);
  }

  lemma AwaitingRunMovesOn(cfg: Config, s: State, i: Input)
    requires s.loc.AwaitingRun?
    ensures MovesOn(cfg, s, i, Step(cfg, s, i))
  {
    FailRests(cfg, s, s.loc.startup, s.loc.dirty, s.loc.sub);
    ConcludeRests(cfg, s.(world := Record(s.world, RunOk(s.loc.sub, s.world.now))), s.loc.dirty);
  }

  lemma AfterRunMovesOn(cfg: Config, s: State, i: Input)
    requires s.loc.OwnSettling? || s.loc.Rebaselining?
    ensures MovesOn(cfg, s, i, Step(cfg, s, i))
  {
    ConcludeRests(cfg, s, s.loc.dirty);
    if s.loc.Rebaselining? && i.ReadEnds? && i.result.ReadOk? {
      ConcludeRests(cfg, Base(s, i.result.state, AfterRun(s.loc.began)), s.loc.dirty);
    }
  }

  /** Whatever the runner has begun moves on, in every state and with every input. */
  lemma AttemptMovesOn(cfg: Config, s: State, i: Input)
    requires Stage(s) > 0
    ensures MovesOn(cfg, s, i, Step(cfg, s, i))
  {
    match s.loc {
      case Settling(_, _) => SettlingMovesOn(cfg, s, i);
      case Checking(_, _) => CheckingMovesOn(cfg, s, i);
      case Submitting(_, _, _) => SubmittingMovesOn(cfg, s, i);
      case AwaitingRun(_, _, _, _) => AwaitingRunMovesOn(cfg, s, i);
      case OwnSettling(_, _, _) => AfterRunMovesOn(cfg, s, i);
      case Rebaselining(_, _) => AfterRunMovesOn(cfg, s, i);
    }
  }

  // ---------- The startup run ----------

  function Startups(h: seq<Obs>): nat {
    if h == [] then 0
    else Startups(h[..|h| - 1]) + if h[|h| - 1].Submitted? && h[|h| - 1].startup then 1 else 0
  }

  /** The startup runs submitted, and the one that may still be. */
  function Budget(s: State): nat {
    Startups(s.world.history) + if s.world.armed then 1 else 0
  }

  /** The runner does not wait for work with the signal given and not acted on. */
  predicate Prompt(t: State) {
    t.loc.AwaitWork? ==> !(t.world.armed && t.world.signal)
  }

  lemma StartupsAppend(h: seq<Obs>, e: Obs)
    ensures Startups(h + [e]) == Startups(h) + if e.Submitted? && e.startup then 1 else 0
  {
    assert (h + [e])[..|h|] == h;
  }

  lemma AwaitBudget(s: State)
    ensures Budget(Await(s)) == Budget(s) && Prompt(Await(s))
  {
    StartupsAppend(s.world.history, Submitted(true, s.world.now, None, s.baseline));
  }

  lemma CheckBudget(cfg: Config, s: State)
    ensures Budget(Check(cfg, s)) == Budget(s)
  {
    StartupsAppend(s.world.history, CheckBegan(s.world.now));
    StartupsAppend(s.world.history, Submitted(false, s.world.now, None, s.baseline));
  }

  lemma SettleBudget(cfg: Config, s: State, first: nat, last: nat)
    ensures Budget(Settle(cfg, s, first, last)) == Budget(s) && Prompt(Settle(cfg, s, first, last))
  {
    var e := Checked(first, last, s.world.now);
    StartupsAppend(s.world.history, e);
    CheckBudget(cfg, s.(world := Record(s.world, e)));
  }

  lemma ConcludeBudget(cfg: Config, s: State, dirty: Dirty)
    ensures var t := Conclude(cfg, s, dirty);
            Budget(t) == Budget(s) && Prompt(t)
  {
    if dirty.first.None? {
      AwaitBudget(s);
    } else {
      SettleBudget(cfg, s, dirty.first.value, if dirty.last.Some? then dirty.last.value else dirty.first.value);
    }
  }

  lemma FailBudget(cfg: Config, s: State, startup: bool, dirty: Dirty, sub: nat)
    ensures var t := Fail(cfg, s, startup, dirty, sub);
            Budget(t) == Budget(s) && Prompt(t)
  {
    var e := RunFailed(sub, s.world.now);
    StartupsAppend(s.world.history, e);
    ConcludeBudget(cfg, s.(world := Record(s.world, e)), if startup then dirty else dirty.NoteNow(s.world.now));
  }

  lemma RebaselineBudget(cfg: Config, s: State, dirty: Dirty, ok: nat)
    ensures var t := Rebaseline(cfg, s, dirty, ok);
            Budget(t) == Budget(s) && Prompt(t)
  {
    StartupsAppend(s.world.history, RebaseBegan(ok, s.world.now));
    ConcludeBudget(cfg, s, dirty);
  }

  lemma SucceedBudget(cfg: Config, s: State, dirty: Dirty, sub: nat)
    ensures var t := Succeed(cfg, s, dirty, sub);
            Budget(t) == Budget(s) && Prompt(t)
  {
    var e := RunOk(sub, s.world.now);
    StartupsAppend(s.world.history, e);
    RebaselineBudget(cfg, s.(world := Record(s.world, e)), dirty, |s.world.history|);
  }

  lemma ReceiveBudget(s: State, suppressed: bool)
    ensures Budget(Receive(s, suppressed)) == Budget(s)
  {
    StartupsAppend(s.world.history, Seen(s.world.now, suppressed));
  }

  /** No step adds to the budget; and a step that resolves an await does not leave a signalled runner waiting for work. */
  ghost predicate KeepsBudget(s: State, t: State) {
    Budget(t) <= Budget(s) && (Prompt(t) || t == s)
  }

  lemma StartupReadBudget(cfg: Config, s: State, i: Input)
    requires s.loc.StartupRead?
    ensures KeepsBudget(s, StartupReadStep(cfg, s, i))
  {
    if i.ReadEnds? && i.result.ReadOk? {
      BaseBudget(s, i.result.state, Startup);
      AwaitBudget(Base(s, i.result.state, Startup));
    } else {
      AwaitBudget(s.(baseline := Some(Unknown)));
    }
  }

  lemma AwaitStepBudget(cfg: Config, s: State, i: Input)
    requires s.loc.AwaitWork?
    ensures KeepsBudget(s, AwaitStep(cfg, s, i))
  {
    AwaitBudget(s);
    AwaitBudget(s.(world := s.world.(armed := false)));
    ReceiveBudget(s, false);
    SettleBudget(cfg, Receive(s, false), s.world.now, s.world.now);
  }

  lemma SettlingBudget(cfg: Config, s: State, i: Input)
    requires s.loc.Settling?
    ensures KeepsBudget(s, SettlingStep(cfg, s, i))
  {
    ReceiveBudget(s, false);
    SettleBudget(cfg, Receive(s, false), s.loc.first, s.world.now);
    SettleBudget(cfg, s, s.loc.first, s.loc.last);
  }

  lemma ComparedBudget(s: State, began: nat, read: Option<string>)
    ensures Budget(Compare(s, began, read)) == Budget(s)
    ensures Budget(Submit(Compare(s, began, read), false, read)) == Budget(s)
  {
    var t := Compare(s, began, read);
    StartupsAppend(s.world.history, Compared(began, s.world.now, read, s.baseline));
    StartupsAppend(t.world.history, Submitted(false, t.world.now, read, t.baseline));
  }

  lemma CheckingBudget(cfg: Config, s: State, i: Input)
    requires s.loc.Checking?
    ensures KeepsBudget(s, CheckingStep(cfg, s, i))
  {
    ReceiveBudget(s, false);
    if i.ReadEnds? && !i.result.ReadCancelled? {
      var read := if i.result.ReadOk? then Some(i.result.state) else None;
      ComparedBudget(s, s.loc.began, read);
      ConcludeBudget(cfg, Compare(s, s.loc.began, read), s.loc.dirty);
    }
  }

  lemma SubmittingBudget(cfg: Config, s: State, i: Input)
    requires s.loc.Submitting?
    ensures KeepsBudget(s, SubmittingStep(cfg, s, i))
  {
    ReceiveBudget(s, false);
    FailBudget(cfg, s, s.loc.startup, s.loc.dirty, s.loc.sub);
  }

  lemma AwaitingRunBudget(cfg: Config, s: State, i: Input)
    requires s.loc.AwaitingRun?
    ensures KeepsBudget(s, AwaitingRunStep(cfg, s, i))
  {
    ReceiveBudget(s, s.loc.started);
    FailBudget(cfg, s, s.loc.startup, s.loc.dirty, s.loc.sub);
    SucceedBudget(cfg, s, s.loc.dirty, s.loc.sub);
  }

  lemma OwnSettlingBudget(cfg: Config, s: State, i: Input)
    requires s.loc.OwnSettling?
    ensures KeepsBudget(s, OwnSettlingStep(cfg, s, i))
  {
    ReceiveBudget(s, true);
    RebaselineBudget(cfg, s, s.loc.dirty, s.loc.ok);
  }

  lemma BaseBudget(s: State, state: string, origin: Origin)
    ensures Budget(Base(s, state, origin)) == Budget(s)
  {
    StartupsAppend(s.world.history, Based(state, origin));
  }

  lemma RebaseliningBudget(cfg: Config, s: State, i: Input)
    requires s.loc.Rebaselining?
    ensures KeepsBudget(s, RebaseliningStep(cfg, s, i))
  {
    ReceiveBudget(s, true);
    if i.ReadEnds? && i.result.ReadOk? {
      BaseBudget(s, i.result.state, AfterRun(s.loc.began));
      ConcludeBudget(cfg, Base(s, i.result.state, AfterRun(s.loc.began)), s.loc.dirty);
    } else {
      ConcludeBudget(cfg, s, s.loc.dirty);
    }
  }

  lemma StepBudget(cfg: Config, s: State, i: Input)
    requires !i.Elapse? && !i.GiveSignal?
    ensures KeepsBudget(s, Step(cfg, s, i))
  {
    match s.loc {
      case Checking(_, _) => CheckingBudget(cfg, s, i);
      case Submitting(_, _, _) => SubmittingBudget(cfg, s, i);
      case AwaitingRun(_, _, _, _) => AwaitingRunBudget(cfg, s, i);
      case OwnSettling(_, _, _) => OwnSettlingBudget(cfg, s, i);
      case Rebaselining(_, _) => RebaseliningBudget(cfg, s, i);
      case StartupRead => StartupReadBudget(cfg, s, i);
      case AwaitWork => AwaitStepBudget(cfg, s, i);
      case Settling(_, _) => SettlingBudget(cfg, s, i);
      case Stopped =>
    }
  }

  /** In every run there is at most one startup run, none if there is no signal to wait for, and none more once the signal is
      no longer waited for. */
  lemma {:induction false} AtMostOneStartupRun(cfg: Config, armed: bool, script: seq<Input>)
    ensures Budget(Run(cfg, Init(cfg, armed), script)) <= if armed then 1 else 0
  {
    if script != [] {
      AtMostOneStartupRun(cfg, armed, script[..|script| - 1]);
      var i := script[|script| - 1];
      if !i.Elapse? && !i.GiveSignal? {
        StepBudget(cfg, Run(cfg, Init(cfg, armed), script[..|script| - 1]), i);
      }
    }
  }

  /** And it is not forgotten: a step of the runner never leaves it waiting for work with the signal given and not yet acted
      on; if the signal comes while it waits, the next resolution of the wait but the end of the task submits the run. */
  lemma SignalIsActedOn(cfg: Config, s: State, i: Input)
    requires !i.Elapse? && !i.GiveSignal?
    ensures var t := Step(cfg, s, i);
            && (t.loc.AwaitWork? && t != s ==> !(t.world.armed && t.world.signal))
            && (s.loc.AwaitWork? && s.world.armed && s.world.signal && (i == WatchChanged(false) || i == StartupChanged(false)) ==>
                  t.loc.Submitting? && t.loc.startup && !t.world.armed)
  {
    StepBudget(cfg, s, i);
  }

  /** A runner that waits for work is done with the startup run once the signal's sender is gone, and without the signal having
      been given nothing is submitted; otherwise it goes on waiting for the signal. */
  lemma StartupIsAwaited(cfg: Config, s: State, dropped: bool)
    requires s.loc.AwaitWork? && s.world.armed && !s.world.signal
    ensures var t := Step(cfg, s, StartupChanged(dropped));
            t.loc.AwaitWork? && t.world.armed == !dropped && t.world.history == s.world.history
  {
  }
}
