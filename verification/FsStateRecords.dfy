/** What a single step of the filesystem-state runner may record. */
module FsStateRecords {
  import opened Options
  import opened FsState
  import opened FsStateProps

  /** The entries for the ends of commands, and for the reads after them. */
  predicate Marks(e: Obs) {
    e.RunOk? || e.RunFailed? || e.RebaseBegan? || e.Based?
  }

  /** The code between two awaits marks nothing unless the await before it did, and leads to no wait of its own after a
      command. */
  ghost predicate Unmarked(s: State, t: State) {
    && s.world.history <= t.world.history && t.world.now == s.world.now
    && (t.loc.AwaitWork? || t.loc.Settling? || t.loc.Checking? || t.loc.Submitting?)
    && (forall j :: |s.world.history| <= j < |t.world.history| ==>
          !Marks(t.world.history[j]) && t.world.history[j].at == s.world.now)
    && (t.loc.Submitting? ==>
          t.loc.sub < |t.world.history| && t.world.history[t.loc.sub].Submitted?
          && t.world.history[t.loc.sub].at == s.world.now)
  }

  lemma AwaitUnmarked(s: State)
    ensures Unmarked(s, Await(s))
  {
  }

  lemma SettleUnmarked(cfg: Config, s: State, first: nat, last: nat)
    ensures Unmarked(s, Settle(cfg, s, first, last))
  {
  }

  lemma ConcludeUnmarked(cfg: Config, s: State, dirty: Dirty)
    ensures Unmarked(s, Conclude(cfg, s, dirty))
  {
  }

  // ---------- The marks of one step ----------

  /** A success is recorded only where the runner hears of it, and a failure only where it hears of one, or that its command
      could not be submitted. */
  ghost predicate EndsNoted(s: State, i: Input, t: State) {
    && s.world.history <= t.world.history
    && (forall j :: |s.world.history| <= j < |t.world.history| && t.world.history[j].RunOk? ==>
          s.loc.AwaitingRun? && i == Hears(Finished(true)) && j == |s.world.history|
          && t.world.history[j] == RunOk(s.loc.sub, s.world.now))
    && (forall j :: |s.world.history| <= j < |t.world.history| && t.world.history[j].RunFailed? ==>
          || (s.loc.Submitting? && i == StartEnds(false) && t.world.history[j] == RunFailed(s.loc.sub, s.world.now))
          || (s.loc.AwaitingRun? && (i == Hears(Finished(false)) || i == Hears(Lost))
              && t.world.history[j] == RunFailed(s.loc.sub, s.world.now)))
  }

  /** A read after a success is begun where the settle time is over, and a baseline accepted where a read ends. */
  ghost predicate ReadsNoted(s: State, i: Input, t: State) {
    && s.world.history <= t.world.history
    && (forall j :: |s.world.history| <= j < |t.world.history| && t.world.history[j].RebaseBegan? ==>
          t.loc.Rebaselining? && t.loc.began == j && j + 1 == |t.world.history|)
    && (forall j :: |s.world.history| <= j < |t.world.history| && t.world.history[j].Based? ==>
          j == |s.world.history| && i.ReadEnds? && i.result == ReadOk(t.world.history[j].state)
          && (if t.world.history[j].origin.Startup? then s.loc.StartupRead?
              else s.loc.Rebaselining? && s.loc.began == t.world.history[j].origin.began))
  }

  /** A command is out from its submission on. */
  ghost predicate CommandKept(s: State, i: Input, t: State) {
    && t.world.now == s.world.now
    && (t.loc.Submitting? ==>
          t.loc.sub < |t.world.history| && t.world.history[t.loc.sub].Submitted?
          && (t.world.history[t.loc.sub].at == s.world.now || (s.loc.Submitting? && s.loc.sub == t.loc.sub)))
    && (t.loc.AwaitingRun? ==>
          (s.loc.AwaitingRun? && s.loc.sub == t.loc.sub)
          || (s.loc.Submitting? && s.loc.sub == t.loc.sub && i == StartEnds(true)))
  }

  /** Every entry is made at its time. */
  ghost predicate NotedNow(s: State, t: State) {
    forall j :: |s.world.history| <= j < |t.world.history| ==>
      t.world.history[j].Based? || t.world.history[j].at == s.world.now
  }

  ghost predicate Records(s: State, i: Input, t: State) {
    EndsNoted(s, i, t) && ReadsNoted(s, i, t) && CommandKept(s, i, t) && NotedNow(s, t)
  }

  lemma StartupReadRecords(cfg: Config, s: State, i: Input)
    requires s.loc.StartupRead?
    ensures Records(s, i, StartupReadStep(cfg, s, i))
  {
    AwaitUnmarked(s.(baseline := Some(Unknown)));
    if i.ReadEnds? && i.result.ReadOk? {
      AwaitUnmarked(Base(s, i.result.state, Startup));
    }
  }

  lemma AwaitStepRecords(cfg: Config, s: State, i: Input)
    requires s.loc.AwaitWork?
    ensures Records(s, i, AwaitStep(cfg, s, i))
  {
    if i.Event? {
      SettleUnmarked(cfg, Receive(s, false), s.world.now, s.world.now);
    } else {
      AwaitUnmarked(s);
      AwaitUnmarked(s.(world := s.world.(armed := false)));
    }
  }

  lemma SettlingRecords(cfg: Config, s: State, i: Input)
    requires s.loc.Settling?
    ensures Records(s, i, SettlingStep(cfg, s, i))
  {
    if i.Event? {
      SettleUnmarked(cfg, Receive(s, false), s.loc.first, s.world.now);
    } else {
      SettleUnmarked(cfg, s, s.loc.first, s.loc.last);
    }
  }

  lemma CheckingRecords(cfg: Config, s: State, i: Input)
    requires s.loc.Checking?
    ensures Records(s, i, CheckingStep(cfg, s, i))
  {
    if i.ReadEnds? && !i.result.ReadCancelled? {
      var read := if i.result.ReadOk? then Some(i.result.state) else None;
      ConcludeUnmarked(cfg, Compare(s, s.loc.began, read), s.loc.dirty);
    }
  }

  lemma FailRecords(cfg: Config, s: State, startup: bool, dirty: Dirty, sub: nat)
    ensures var t := Fail(cfg, s, startup, dirty, sub);
            && Unmarked(s.(world := Record(s.world, RunFailed(sub, s.world.now))), t)
            && |t.world.history| > |s.world.history| && t.world.history[|s.world.history|] == RunFailed(sub, s.world.now)
  {
    ConcludeUnmarked(cfg, s.(world := Record(s.world, RunFailed(sub, s.world.now))),
                     if startup then dirty else dirty.NoteNow(s.world.now));
  }

  lemma SubmittingRecords(cfg: Config, s: State, i: Input)
    requires s.loc.Submitting? && s.loc.sub < |s.world.history| && s.world.history[s.loc.sub].Submitted?
    ensures Records(s, i, SubmittingStep(cfg, s, i))
  {
    FailRecords(cfg, s, s.loc.startup, s.loc.dirty, s.loc.sub);
  }

  lemma SucceedRecords(cfg: Config, s: State)
    requires s.loc.AwaitingRun?
    ensures Records(s, Hears(Finished(true)), Succeed(cfg, s, s.loc.dirty, s.loc.sub))
  {
    ConcludeUnmarked(cfg, s.(world := Record(s.world, RunOk(s.loc.sub, s.world.now))), s.loc.dirty);
  }

  lemma AwaitingRunRecords(cfg: Config, s: State, i: Input)
    requires s.loc.AwaitingRun?
    ensures Records(s, i, AwaitingRunStep(cfg, s, i))
  {
    FailRecords(cfg, s, s.loc.startup, s.loc.dirty, s.loc.sub);
    SucceedRecords(cfg, s);
  }

  lemma OwnSettlingRecords(cfg: Config, s: State, i: Input)
    requires s.loc.OwnSettling?
    ensures Records(s, i, OwnSettlingStep(cfg, s, i))
  {
    ConcludeUnmarked(cfg, s, s.loc.dirty);
  }

  lemma RebaseliningRecords(cfg: Config, s: State, i: Input)
    requires s.loc.Rebaselining?
    ensures Records(s, i, RebaseliningStep(cfg, s, i))
  {
    if i == ReadEnds(ReadFailed) {
      ConcludeUnmarked(cfg, s, s.loc.dirty);
    } else if i.ReadEnds? && i.result.ReadOk? {
      ConcludeUnmarked(cfg, Base(s, i.result.state, AfterRun(s.loc.began)), s.loc.dirty);
    }
  }

  lemma StepRecords(cfg: Config, s: State, i: Input)
    requires Inv(cfg, s) && !i.Elapse?
    ensures Records(s, i, Step(cfg, s, i))
  {
    if !i.GiveSignal? {
      match s.loc {
        case Checking(_, _) => CheckingRecords(cfg, s, i);
        case Submitting(_, _, _) => SubmittingRecords(cfg, s, i);
        case AwaitingRun(_, _, _, _) => AwaitingRunRecords(cfg, s, i);
        case OwnSettling(_, _, _) => OwnSettlingRecords(cfg, s, i);
        case Rebaselining(_, _) => RebaseliningRecords(cfg, s, i);
        case StartupRead => StartupReadRecords(cfg, s, i);
        case AwaitWork => AwaitStepRecords(cfg, s, i);
        case Settling(_, _) => SettlingRecords(cfg, s, i);
        case Stopped =>
      }
    }
  }
}
