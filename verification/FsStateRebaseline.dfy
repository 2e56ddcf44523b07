/** What follows a successful own command: the settle time, a new read, and calm while nothing changes. */
module FsStateRebaseline {
  import opened Options
  import opened FsState
  import opened FsStateProps
  import opened FsStateRecords

  /** Nothing but received events was recorded between two entries. */
  ghost predicate OnlySeen(h: seq<Obs>, from: nat, to: nat)
    requires to <= |h|
  {
    forall x :: from <= x < to ==> h[x].Seen?
  }

  /** Entry `b` begins the read after the success at entry `j`, and nothing was begun in between. */
  ghost predicate RebasedAt(h: seq<Obs>, j: nat, b: nat)
    requires j < |h|
  {
    j < b < |h| && h[b].RebaseBegan? && h[b].ok == j && OnlySeen(h, j + 1, b)
  }

  /** The success at entry `j` is in its settle time, or its read was begun, or the task ended within the settle time. */
  ghost predicate FollowedUp(s: State, j: nat)
    requires j < |s.world.history|
  {
    var h := s.world.history;
    || (s.loc.OwnSettling? && s.loc.ok == j && OnlySeen(h, j + 1, |h|))
    || (exists b :: RebasedAt(h, j, b))
    || (s.loc.Stopped? && OnlySeen(h, j + 1, |h|))
  }

  ghost predicate AllFollowedUp(s: State) {
    forall j :: 0 <= j < |s.world.history| && s.world.history[j].RunOk? ==> FollowedUp(s, j)
  }

  lemma RebasedStays(g: seq<Obs>, h: seq<Obs>, j: nat)
    requires j < |g| && g <= h && exists b :: RebasedAt(g, j, b)
    ensures exists b :: RebasedAt(h, j, b)
  {
    var b :| RebasedAt(g, j, b);
    assert RebasedAt(h, j, b);
  }

  /** Outside the settle time a step leaves what was followed up. */
  lemma OtherFollowUp(s: State, t: State, j: nat)
    requires s.world.history <= t.world.history && !s.loc.OwnSettling?
    requires s.loc.Stopped? ==> t == s
    requires j < |s.world.history| && FollowedUp(s, j)
    ensures FollowedUp(t, j)
  {
    if !s.loc.Stopped? {
      RebasedStays(s.world.history, t.world.history, j);
    }
  }

  lemma OwnSettlingFollowUp(cfg: Config, s: State, i: Input, j: nat)
    requires cfg.hasReader && s.loc.OwnSettling? && j < |s.world.history| && FollowedUp(s, j)
    ensures s.world.history <= OwnSettlingStep(cfg, s, i).world.history && FollowedUp(OwnSettlingStep(cfg, s, i), j)
  {
    var t := OwnSettlingStep(cfg, s, i);
    if exists b :: RebasedAt(s.world.history, j, b) {
      RebasedStays(s.world.history, t.world.history, j);
    } else if |t.world.history| > |s.world.history| && t.world.history[|s.world.history|].RebaseBegan? {
      assert RebasedAt(t.world.history, j, |s.world.history|);
    }
  }

  lemma SucceedFollowUp(cfg: Config, s: State, dirty: Dirty, sub: nat)
    requires cfg.hasReader
    ensures FollowedUp(Succeed(cfg, s, dirty, sub), |s.world.history|)
  {
    var t := Succeed(cfg, s, dirty, sub);
    if cfg.selfSettle == 0 {
      assert RebasedAt(t.world.history, |s.world.history|, |s.world.history| + 1);
    }
  }

  lemma StepFollowsUp(cfg: Config, s: State, i: Input)
    requires cfg.hasReader && Inv(cfg, s) && AllFollowedUp(s)
    ensures AllFollowedUp(Step(cfg, s, i))
  {
    var t := Step(cfg, s, i);
    if !i.Elapse? && !i.GiveSignal? {
      StepRecords(cfg, s, i);
      forall j | 0 <= j < |t.world.history| && t.world.history[j].RunOk? ensures FollowedUp(t, j) {
        if j >= |s.world.history| {
          SucceedFollowUp(cfg, s, s.loc.dirty, s.loc.sub);
        } else if s.loc.OwnSettling? {
          OwnSettlingFollowUp(cfg, s, i, j);
        } else {
          OtherFollowUp(s, t, j);
        }
      }
    } else {
      assert t.loc == s.loc && t.world.history == s.world.history;
    }
  }

  lemma {:induction false} RunFollowsUp(cfg: Config, armed: bool, script: seq<Input>)
    requires cfg.hasReader
    ensures AllFollowedUp(Run(cfg, Init(cfg, armed), script))
  {
    if script != [] {
      RunFollowsUp(cfg, armed, script[..|script| - 1]);
      RunKeepsInv(cfg, armed, script[..|script| - 1]);
      StepFollowsUp(cfg, Run(cfg, Init(cfg, armed), script[..|script| - 1]), script[|script| - 1]);
    }
  }

  // ---------- The settle time ----------

  /** Entry `x` keeps out of the settle time after the success at entry `j`, or is an event suppressed in it. */
  ghost predicate KeepsOut(cfg: Config, h: seq<Obs>, j: nat, x: nat)
    requires j < x < |h| && h[j].RunOk?
  {
    (h[x].Seen? && h[x].suppressed) || h[x].Based? || h[x].at >= h[j].at + cfg.selfSettle
  }

  /** After the success at entry `j` the settle time was kept, and it is over unless it runs still or the task ended in it. */
  ghost predicate SettleKept(cfg: Config, s: State, j: nat)
    requires j < |s.world.history| && s.world.history[j].RunOk?
  {
    && (forall x :: j < x < |s.world.history| ==> KeepsOut(cfg, s.world.history, j, x))
    && (|| (s.loc.OwnSettling? && s.loc.ok == j)
        || s.loc.Stopped?
        || s.world.now >= s.world.history[j].at + cfg.selfSettle)
  }

  ghost predicate AllSettleKept(cfg: Config, s: State) {
    forall j :: 0 <= j < |s.world.history| && s.world.history[j].RunOk? ==> SettleKept(cfg, s, j)
  }

  lemma LaterKeepsOut(cfg: Config, s: State, t: State, j: nat)
    requires j < |s.world.history| && s.world.history[j].RunOk? && SettleKept(cfg, s, j)
    requires s.world.history <= t.world.history && s.world.now <= t.world.now && NotedNow(s, t)
    requires s.world.now >= s.world.history[j].at + cfg.selfSettle
    ensures SettleKept(cfg, t, j)
  {
    forall x | j < x < |t.world.history| ensures KeepsOut(cfg, t.world.history, j, x) {
      assert x < |s.world.history| ==> KeepsOut(cfg, s.world.history, j, x);
    }
  }

  /** Within the settle time only suppressed events are recorded, and only its end or shutdown leaves it. */
  lemma OwnSettlingKeeps(cfg: Config, s: State, i: Input, j: nat)
    requires Inv(cfg, s) && s.loc.OwnSettling? && s.loc.ok == j && SettleKept(cfg, s, j)
    ensures SettleKept(cfg, OwnSettlingStep(cfg, s, i), j)
  {
    var t := OwnSettlingStep(cfg, s, i);
    OwnSettlingRecords(cfg, s, i);
    if s.world.now >= s.world.history[j].at + cfg.selfSettle {
      LaterKeepsOut(cfg, s, t, j);
    } else {
      forall x | j < x < |t.world.history| ensures KeepsOut(cfg, t.world.history, j, x) {
        assert x < |s.world.history| ==> KeepsOut(cfg, s.world.history, j, x);
      }
    }
  }

  lemma SucceedKeepsSettle(cfg: Config, s: State, dirty: Dirty, sub: nat)
    requires NotedNow(s, Succeed(cfg, s, dirty, sub))
    requires |Succeed(cfg, s, dirty, sub).world.history| > |s.world.history|
    requires Succeed(cfg, s, dirty, sub).world.history[|s.world.history|] == RunOk(sub, s.world.now)
    requires Succeed(cfg, s, dirty, sub).world.now == s.world.now
    ensures SettleKept(cfg, Succeed(cfg, s, dirty, sub), |s.world.history|)
  {
  }

  lemma StepKeepsSettle(cfg: Config, s: State, i: Input)
    requires Inv(cfg, s) && AllSettleKept(cfg, s)
    ensures AllSettleKept(cfg, Step(cfg, s, i))
  {
    var t := Step(cfg, s, i);
    if i.Elapse? || i.GiveSignal? {
      forall j | 0 <= j < |t.world.history| && t.world.history[j].RunOk? ensures SettleKept(cfg, t, j) {
        assert SettleKept(cfg, s, j);
        forall x | j < x < |t.world.history| ensures KeepsOut(cfg, t.world.history, j, x) {
          assert KeepsOut(cfg, s.world.history, j, x);
        }
      }
    } else {
      StepRecords(cfg, s, i);
      forall j | 0 <= j < |t.world.history| && t.world.history[j].RunOk? ensures SettleKept(cfg, t, j) {
        if j >= |s.world.history| {
          SucceedKeepsSettle(cfg, s, s.loc.dirty, s.loc.sub);
        } else if s.loc.OwnSettling? && s.loc.ok == j {
          OwnSettlingKeeps(cfg, s, i, j);
        } else if !s.loc.Stopped? {
          LaterKeepsOut(cfg, s, t, j);
        }
      }
    }
  }

  lemma {:induction false} RunKeepsSettle(cfg: Config, armed: bool, script: seq<Input>)
    ensures AllSettleKept(cfg, Run(cfg, Init(cfg, armed), script))
  {
    if script != [] {
      RunKeepsSettle(cfg, armed, script[..|script| - 1]);
      RunKeepsInv(cfg, armed, script[..|script| - 1]);
      StepKeepsSettle(cfg, Run(cfg, Init(cfg, armed), script[..|script| - 1]), script[|script| - 1]);
    }
  }

  // ---------- The read after a success ----------

  /** With input `n` the read begun at entry `b` ends, or the task does. */
  ghost predicate ReadEndsAt(cfg: Config, armed: bool, script: seq<Input>, b: nat, n: nat)
    requires n < |script|
  {
    var s := Run(cfg, Init(cfg, armed), script[..n]);
    && s.loc.Rebaselining? && s.loc.began == b
    && (script[n].ReadEnds? || script[n] == WatchChanged(true))
  }

  /** The read begun at entry `b` is going on, or has ended. */
  ghost predicate ReadFollows(cfg: Config, armed: bool, script: seq<Input>, b: nat) {
    var s := Run(cfg, Init(cfg, armed), script);
    || (s.loc.Rebaselining? && s.loc.began == b)
    || (exists n :: 0 <= n < |script| && ReadEndsAt(cfg, armed, script, b, n))
  }

  lemma RebaseliningStays(cfg: Config, s: State, i: Input)
    requires s.loc.Rebaselining? && !i.ReadEnds? && i != WatchChanged(true)
    ensures Step(cfg, s, i).loc == s.loc
  {
  }

  lemma {:induction false} RebaseIsRead(cfg: Config, armed: bool, script: seq<Input>, b: nat)
    requires b < |Run(cfg, Init(cfg, armed), script).world.history|
    requires Run(cfg, Init(cfg, armed), script).world.history[b].RebaseBegan?
    ensures ReadFollows(cfg, armed, script, b)
  {
    var rest, i := script[..|script| - 1], script[|script| - 1];
    var s := Run(cfg, Init(cfg, armed), rest);
    RunKeepsInv(cfg, armed, rest);
    if !i.Elapse? {
      StepRecords(cfg, s, i);
    }
    if b < |s.world.history| {
      RebaseIsRead(cfg, armed, rest, b);
      if s.loc.Rebaselining? && s.loc.began == b {
        if i.ReadEnds? || i == WatchChanged(true) {
          assert ReadEndsAt(cfg, armed, script, b, |rest|);
        } else {
          RebaseliningStays(cfg, s, i);
        }
      } else {
        var n :| 0 <= n < |rest| && ReadEndsAt(cfg, armed, rest, b, n);
        assert rest[..n] == script[..n];
        assert ReadEndsAt(cfg, armed, script, b, n);
      }
    }
  }

  // ---------- Main results ----------

  /** No success goes without a new read: with a reader, each is followed by the read begun for it, with nothing but received
      events in between, no sooner than the settle time and at the first timer after it; or its settle time is running; or
      the task was told to stop. And that read is still going on, or ended, or was cut by shutdown. */
  lemma {:induction false} SuccessIsRebaselined(cfg: Config, armed: bool, script: seq<Input>, j: nat)
    requires cfg.hasReader && j < |Run(cfg, Init(cfg, armed), script).world.history|
    requires Run(cfg, Init(cfg, armed), script).world.history[j].RunOk?
    ensures var s := Run(cfg, Init(cfg, armed), script);
            var h := s.world.history;
            || (exists b :: j < b < |h| && h[b].RebaseBegan? && h[b].ok == j && h[b].at >= h[j].at + cfg.selfSettle
                            && OnlySeen(h, j + 1, b) && ReadFollows(cfg, armed, script, b))
            || (s.loc.OwnSettling? && s.loc.ok == j && OnlySeen(h, j + 1, |h|)
                && (s.world.now >= h[j].at + cfg.selfSettle ==>
                      Step(cfg, s, TimerFires).world.history == h + [RebaseBegan(j, s.world.now)]))
            || (ToldToStop(cfg, armed, script) && OnlySeen(h, j + 1, |h|))
  {
    var s := Run(cfg, Init(cfg, armed), script);
    var h := s.world.history;
    RunFollowsUp(cfg, armed, script);
    RunKeepsInv(cfg, armed, script);
    StopsOnlyWhenTold(cfg, armed, script);
    assert FollowedUp(s, j);
    if exists b :: RebasedAt(h, j, b) {
      var b :| RebasedAt(h, j, b);
      assert LinkOk(cfg, h, b);
      RebaseIsRead(cfg, armed, script, b);
    }
  }

  /** The settle time is kept: with or without a reader, nothing happens within it after a success but events that are
      suppressed; no read, no check, no submission and no event that counts comes earlier. */
  lemma {:induction false} SettleTimeIsKept(cfg: Config, armed: bool, script: seq<Input>, j: nat, x: nat)
    requires j < x < |Run(cfg, Init(cfg, armed), script).world.history|
    requires Run(cfg, Init(cfg, armed), script).world.history[j].RunOk?
    ensures var h := Run(cfg, Init(cfg, armed), script).world.history;
            && (h[x].Seen? && h[x].at < h[j].at + cfg.selfSettle ==> h[x].suppressed)
            && (!h[x].Seen? && !h[x].Based? ==> h[x].at >= h[j].at + cfg.selfSettle)
  {
    RunKeepsSettle(cfg, armed, script);
    var s := Run(cfg, Init(cfg, armed), script);
    assert SettleKept(cfg, s, j);
    assert KeepsOut(cfg, s.world.history, j, x);
  }

  /** A read that succeeds, at startup or after an own command, makes its state the baseline. */
  lemma ReadSetsBaseline(cfg: Config, s: State, state: string)
    requires s.loc.StartupRead? || s.loc.Rebaselining?
    ensures var t := Step(cfg, s, ReadEnds(ReadOk(state)));
            && t.baseline == Some(Known(state))
            && s.world.history + [Based(state, if s.loc.StartupRead? then Startup else AfterRun(s.loc.began))]
               <= t.world.history
  {
    if s.loc.Rebaselining? {
      ConcludeUnmarked(cfg, Base(s, state, AfterRun(s.loc.began)), s.loc.dirty);
    } else {
      AwaitUnmarked(Base(s, state, Startup));
    }
  }

  lemma {:induction false} RunConcat(cfg: Config, s: State, a: seq<Input>, b: seq<Input>)
    ensures Run(cfg, s, a + b) == Run(cfg, Run(cfg, s, a), b)
  {
    if b == [] {
      assert a + b == a;
    } else {
      RunConcat(cfg, s, a, b[..|b| - 1]);
      assert (a + b)[..|a + b| - 1] == a + b[..|b| - 1];
    }
  }

  /** Input `n` records entry `g`. */
  ghost predicate RecordedBy(cfg: Config, armed: bool, script: seq<Input>, n: nat, g: nat) {
    && n < |script|
    && |Run(cfg, Init(cfg, armed), script[..n]).world.history| <= g
    && g < |Run(cfg, Init(cfg, armed), script[..n + 1]).world.history|
  }

  /** The step that accepts a state read after an own command leaves the runner calm. */
  lemma BasedReconciles(cfg: Config, s: State, i: Input, g: nat)
    requires cfg.hasReader && Inv(cfg, s) && |s.world.history| <= g < |Step(cfg, s, i).world.history|
    requires Step(cfg, s, i).world.history[g].Based? && Step(cfg, s, i).world.history[g].origin.AfterRun?
    ensures var t := Step(cfg, s, i);
            Reconciled(t, t.world.history[g].state) && NoChangeSubmitted(t.world.history, g)
  {
    StepRecords(cfg, s, i);
    var state := Step(cfg, s, i).world.history[g].state;
    ConcludeReconciled(cfg, Base(s, state, AfterRun(s.loc.began)), s.loc.dirty, state, g);
  }

  lemma {:induction false} HistoryStays(cfg: Config, s: State, more: seq<Input>)
    requires Inv(cfg, s)
    ensures Inv(cfg, Run(cfg, s, more)) && s.world.history <= Run(cfg, s, more).world.history
  {
    if more != [] {
      var t, i := Run(cfg, s, more[..|more| - 1]), more[|more| - 1];
      HistoryStays(cfg, s, more[..|more| - 1]);
      StepKeepsInv(cfg, t, i);
      if !i.Elapse? {
        StepRecords(cfg, t, i);
      }
    }
  }

  /** The runner does not trigger itself: once the state read after its own command is the baseline, no change submits the
      command again, whatever events arrive, while the reads that succeed return that state. */
  lemma {:induction false} QuietAfterSuccess(cfg: Config, armed: bool, script: seq<Input>, n: nat, g: nat)
    requires cfg.hasReader && RecordedBy(cfg, armed, script, n, g)
    requires g < |Run(cfg, Init(cfg, armed), script).world.history|
    requires var e := Run(cfg, Init(cfg, armed), script).world.history[g];
             e.Based? && e.origin.AfterRun? && ReadsOnly(script[n + 1..], e.state)
    ensures NoChangeSubmitted(Run(cfg, Init(cfg, armed), script).world.history, g)
  {
    var s, t := Run(cfg, Init(cfg, armed), script[..n]), Run(cfg, Init(cfg, armed), script[..n + 1]);
    var more := script[n + 1..];
    RunStep(cfg, Init(cfg, armed), script, n);
    RunKeepsInv(cfg, armed, script[..n]);
    assert script == script[..n + 1] + more;
    RunConcat(cfg, Init(cfg, armed), script[..n + 1], more);
    StepKeepsInv(cfg, s, script[n]);
    HistoryStays(cfg, t, more);
    BasedReconciles(cfg, s, script[n], g);
    NoSelfTriggerLoop(cfg, t, more, t.world.history[g].state);
  }
}
