/** Who is served together, and who may be served before whom. */
module LaneFairness {
  import opened Basics
  import opened PendingQueue
  import opened Lane
  import opened LaneLifecycle
  import opened LaneOrder

  // ---------- Requests that wait together are answered together ----------

  /** Two received requests for one command with the same lifecycle so far. */
  ghost predicate Together(s: State, a: nat, b: nat) {
    && a < s.world.received && b < s.world.received
    && s.world.received <= |s.world.asked| == |s.world.inbox|
    && s.world.asked[a] == s.world.asked[b]
    && s.world.inbox[a] == s.world.inbox[b]
  }

  lemma SameGroup(cfg: Config, s: State, a: nat, b: nat)
    requires Inv(cfg, s) && Together(s, a, b)
    ensures var c := s.world.asked[a];
            && (a in Waiting(s.pending, c) <==> b in Waiting(s.pending, c))
            && (s.loc.Cooling? || s.loc.Running? ==> (a in s.loc.ids <==> b in s.loc.ids))
            && (forall d :: d in s.pending.waiters && d != c ==> a !in s.pending.waiters[d] && b !in s.pending.waiters[d])
  {
    assert LifecycleOk(cfg, s, a) && LifecycleOk(cfg, s, b);
    forall d | d in s.pending.waiters ensures AskedFor(s.world, d, s.pending.waiters[d]) {}
  }

  /** A run begun by the step serves both requests or neither. */
  ghost predicate ServesBothOrNeither(s: State, t: State, a: nat, b: nat) {
    forall k :: |s.world.history| <= k < |t.world.history| && t.world.history[k].Began? ==>
      (a in t.world.history[k].served <==> b in t.world.history[k].served)
  }

  lemma StopTogether(cfg: Config, s: State, current: seq<nat>, a: nat, b: nat)
    requires Inv(cfg, s) && Together(s, a, b)
    requires a in current <==> b in current
    ensures Together(Stop(s, current), a, b)
  {
    SameGroup(cfg, s, a, b);
  }

  lemma ChoosingTogether(cfg: Config, s: State, a: nat, b: nat)
    requires Inv(cfg, s) && s.loc.Choosing? && Together(s, a, b)
    ensures Together(ActChoosing(cfg, s), a, b) && ServesBothOrNeither(s, ActChoosing(cfg, s), a, b)
  {
    SameGroup(cfg, s, a, b);
    PopTakeKeepsConsistent(s.pending);
  }

  lemma CoolingTogether(cfg: Config, s: State, choice: Choice, a: nat, b: nat)
    requires Inv(cfg, s) && s.loc.Cooling? && Together(s, a, b)
    ensures Together(ActCooling(s, choice), a, b) && ServesBothOrNeither(s, ActCooling(s, choice), a, b)
  {
    SameGroup(cfg, s, a, b);
    if choice.TakeWatch? && s.world.watch.Stops() {
      var t := s.(world := s.world.(watch := s.world.watch.Taken()));
      forall id | 0 <= id < |s.world.asked| ensures LifecycleOk(cfg, t, id) {
        assert LifecycleOk(cfg, s, id);
      }
      StopTogether(cfg, t, s.loc.ids, a, b);
    } else if choice.Receive? && !s.world.HasRequest() && s.world.closed {
      StopTogether(cfg, s, s.loc.ids, a, b);
    }
  }

  lemma IdleTogether(cfg: Config, s: State, choice: Choice, a: nat, b: nat)
    requires Inv(cfg, s) && s.loc.Idle? && Together(s, a, b)
    ensures Together(ActIdle(s, choice), a, b) && ServesBothOrNeither(s, ActIdle(s, choice), a, b)
  {
    EmptyPending(s.pending);
  }

  lemma RunningTogether(cfg: Config, s: State, choice: Choice, a: nat, b: nat)
    requires Inv(cfg, s) && s.loc.Running? && Together(s, a, b)
    ensures Together(ActRunning(s, choice), a, b) && ServesBothOrNeither(s, ActRunning(s, choice), a, b)
  {
    SameGroup(cfg, s, a, b);
  }

  lemma DrainingTogether(cfg: Config, s: State, a: nat, b: nat)
    requires Inv(cfg, s) && s.loc.Draining? && Together(s, a, b)
    ensures Together(ActDraining(s), a, b) && ServesBothOrNeither(s, ActDraining(s), a, b)
  {
    StopTogether(cfg, s, [], a, b);
  }

  lemma StepTogether(cfg: Config, s: State, i: Input, a: nat, b: nat)
    requires Inv(cfg, s) && Together(s, a, b)
    ensures Together(Step(cfg, s, i), a, b) && ServesBothOrNeither(s, Step(cfg, s, i), a, b)
  {
    if i.Act? {
      match s.loc {
        case Idle => IdleTogether(cfg, s, i.choice, a, b);
        case Choosing => ChoosingTogether(cfg, s, a, b);
        case Cooling(_, _, _) => CoolingTogether(cfg, s, i.choice, a, b);
        case Running(_, _) => RunningTogether(cfg, s, i.choice, a, b);
        case Draining => DrainingTogether(cfg, s, a, b);
        case Stopped =>
      }
    }
  }

  lemma {:induction false} RunTogether(cfg: Config, s: State, more: seq<Input>, a: nat, b: nat)
    requires Inv(cfg, s) && Together(s, a, b)
    ensures var t := Run(cfg, s, more);
            Together(t, a, b) && s.world.history <= t.world.history && ServesBothOrNeither(s, t, a, b)
  {
    if more != [] {
      var m := Run(cfg, s, more[..|more| - 1]);
      RunTogether(cfg, s, more[..|more| - 1], a, b);
      RunKeepsInv(cfg, s, more[..|more| - 1]);
      StepTogether(cfg, m, more[|more| - 1], a, b);
      StepMoves(cfg, m, more[|more| - 1]);
      var t := Run(cfg, s, more);
      forall k | |s.world.history| <= k < |t.world.history| && t.world.history[k].Began?
        ensures a in t.world.history[k].served <==> b in t.world.history[k].served
      {
        if k < |m.world.history| {
          assert m.world.history[k] == t.world.history[k];
        }
      }
    }
  }

  /** All requests for a command that the lane holds at one moment share one follow-up: from then on they
      hear the same lifecycle and no run serves one of them without the other. In particular this covers
      everything that was in the channel when a run's drain ends, for then the channel is empty. */
  lemma {:induction false} CoalescedRequestsShareOneRun(cfg: Config, script: seq<Input>, more: seq<Input>, a: nat, b: nat)
    requires var s := Run(cfg, Init(), script);
             && a < s.world.received && b < s.world.received && s.world.received <= |s.world.asked|
             && Held(s, a) && Held(s, b) && s.world.asked[a] == s.world.asked[b]
    ensures var s := Run(cfg, Init(), script);
            var t := Run(cfg, s, more);
            && |t.world.inbox| > a && |t.world.inbox| > b && t.world.inbox[a] == t.world.inbox[b]
            && ServesBothOrNeither(s, t, a, b)
  {
    var s := Run(cfg, Init(), script);
    RunAlternates(cfg, script);
    assert LifecycleOk(cfg, s, a) && LifecycleOk(cfg, s, b);
    RunTogether(cfg, s, more, a, b);
  }

  /** A drain ends only when it has taken in everything that was sent. */
  lemma {:induction false} DrainTakesEverything(cfg: Config, script: seq<Input>, i: Input)
    ensures var s := Run(cfg, Init(), script);
            s.loc.Draining? && !Step(cfg, s, i).loc.Draining? ==>
              i.Act? && Step(cfg, s, i).world.received == |Step(cfg, s, i).world.asked|
  {
    RunAlternates(cfg, script);
  }

  // ---------- Bounded overtaking ----------

  /** The part of the queue in front of `c`. */
  function Before(order: seq<Command>, c: Command): seq<Command> {
    if order == [] || order[0] == c then [] else [order[0]] + Before(order[1..], c)
  }

  /** The commands that stand between `c` and its next run, in the order in which they will be looked at. */
  function Ahead(s: State, c: Command): seq<Command> {
    if s.loc.Cooling? then
      if s.loc.command == c then [] else [s.loc.command] + Before(s.pending.order, c)
    else Before(s.pending.order, c)
  }

  function Beginnings(h: seq<Obs>): seq<Command> {
    if h == [] then []
    else Beginnings(h[..|h| - 1]) + if h[|h| - 1].Began? then [h[|h| - 1].command] else []
  }

  /** Those of `p` that the lane can run. */
  function Known(cfg: Config, p: seq<Command>): seq<Command> {
    if p == [] then []
    else Known(cfg, p[..|p| - 1]) + if p[|p| - 1] in cfg then [p[|p| - 1]] else []
  }

  lemma {:induction false} BeforeAppend(order: seq<Command>, more: seq<Command>, c: Command)
    requires c in order
    ensures Before(order + more, c) == Before(order, c)
  {
    if order[0] != c {
      assert (order + more)[1..] == order[1..] + more;
      BeforeAppend(order[1..], more, c);
    }
  }

  /** One step leaves those ahead of `c` as they are, or takes the first of them away and, if it is a
      known command, begins its run. */
  ghost predicate Advances(cfg: Config, s: State, t: State, c: Command) {
    || (Ahead(t, c) == Ahead(s, c) && Beginnings(t.world.history) == Beginnings(s.world.history))
    || (Ahead(s, c) != [] && Ahead(t, c) == Ahead(s, c)[1..]
        && Beginnings(t.world.history) == Beginnings(s.world.history) + Known(cfg, [Ahead(s, c)[0]]))
  }

  lemma TakeInAdvances(cfg: Config, s: State, c: Command)
    requires Inv(cfg, s) && s.world.HasRequest()
    requires c in s.pending.order || (s.loc.Cooling? && s.loc.command == c)
    ensures Ahead(TakeIn(s), c) == Ahead(s, c)
  {
    if c in s.pending.order {
      BeforeAppend(s.pending.order, [s.world.asked[s.world.received]], c);
    }
  }

  lemma HeadLeaves(cfg: Config, s: State, t: State, c: Command)
    requires s.loc.Choosing? && s.pending.order != [] && s.pending.order[0] != c
    requires !t.loc.Cooling? && t.pending.order == s.pending.order[1..]
    requires s.pending.order[0] !in cfg ==> t.world.history == s.world.history
    requires s.pending.order[0] in cfg ==>
               t.world.history != [] && t.world.history == s.world.history + [LastObs(t)]
               && LastObs(t).Began? && LastObs(t).command == s.pending.order[0]
    ensures Advances(cfg, s, t, c)
  {
    var d := s.pending.order[0];
    assert [d][..0] == [];
    assert Ahead(s, c) == [d] + Ahead(t, c);
    assert Known(cfg, [d]) == if d in cfg then [d] else [];
    if d in cfg {
      assert t.world.history[..|s.world.history|] == s.world.history;
    }
  }

  lemma ChoosingAdvances(cfg: Config, s: State, id: nat)
    requires Inv(cfg, s) && s.loc.Choosing? && id < s.world.received && Held(s, id)
    requires var t := ActChoosing(cfg, s); id < |t.world.asked| && Held(t, id)
    ensures Advances(cfg, s, ActChoosing(cfg, s), s.world.asked[id])
  {
    var t := ActChoosing(cfg, s);
    var c := s.world.asked[id];
    PopTakeKeepsConsistent(s.pending);
    if !t.loc.Cooling? {
      assert s.pending.order[0] != c;
      HeadLeaves(cfg, s, t, c);
    }
  }

  lemma CoolingEndAdvances(cfg: Config, s: State, t: State, c: Command)
    requires s.loc.Cooling? && t.loc.Running? && s.loc.command != c && s.loc.command in cfg
    requires t.world.history != []
    requires t.pending == s.pending && t.world.history == s.world.history + [LastObs(t)]
    requires LastObs(t).Began? && LastObs(t).command == s.loc.command
    ensures Advances(cfg, s, t, c)
  {
    assert t.world.history[..|s.world.history|] == s.world.history;
    assert [s.loc.command][..0] == [];
  }

  lemma CoolingAdvances(cfg: Config, s: State, choice: Choice, id: nat)
    requires Inv(cfg, s) && s.loc.Cooling? && id < s.world.received && Held(s, id)
    requires var t := ActCooling(s, choice); id < |t.world.asked| && Held(t, id)
    ensures Advances(cfg, s, ActCooling(s, choice), s.world.asked[id])
  {
    var t := ActCooling(s, choice);
    var c := s.world.asked[id];
    if t.loc.Running? {
      CoolingEndAdvances(cfg, s, t, c);
    } else if choice.Receive? && s.world.HasRequest() {
      TakeInAdvances(cfg, s, c);
    }
  }

  lemma StepAdvances(cfg: Config, s: State, i: Input, id: nat)
    requires Inv(cfg, s) && id < s.world.received && Held(s, id)
    requires var t := Step(cfg, s, i); id < |t.world.asked| && Held(t, id)
    ensures Advances(cfg, s, Step(cfg, s, i), s.world.asked[id])
  {
    if i.Act? {
      match s.loc {
        case Idle => EmptyPending(s.pending);
        case Choosing => ChoosingAdvances(cfg, s, id);
        case Cooling(_, _, _) => CoolingAdvances(cfg, s, i.choice, id);
        case Running(_, _) =>
          var t := ActRunning(s, i.choice);
          if i.choice.Completes? {
            assert t.world.history[..|s.world.history|] == s.world.history;
          }
        case Draining =>
          if s.world.HasRequest() {
            TakeInAdvances(cfg, s, s.world.asked[id]);
          }
        case Stopped =>
      }
    }
  }

  /** A received request whose run has not begun after a step had not begun before it. */
  lemma HeldBefore(cfg: Config, s: State, i: Input, id: nat)
    requires Inv(cfg, s) && id < s.world.received
    requires var t := Step(cfg, s, i); id < |t.world.asked| && Held(t, id)
    ensures Held(s, id) && Step(cfg, s, i).world.asked[id] == s.world.asked[id]
  {
    StepKeepsInv(cfg, s, i);
    var t := Step(cfg, s, i);
    assert LifecycleOk(cfg, s, id) && LifecycleOk(cfg, t, id);
    StepGrows(cfg, s, i);
    assert s.world.inbox[id] <= t.world.inbox[id];
  }

  /** Lifecycles only grow. */
  ghost predicate Grows(s: State, t: State) {
    && s.world.received <= t.world.received && s.world.asked <= t.world.asked
    && |s.world.inbox| <= |t.world.inbox|
    && forall id :: 0 <= id < |s.world.inbox| ==> s.world.inbox[id] <= t.world.inbox[id]
  }

  lemma StopGrows(s: State, current: seq<nat>)
    ensures Grows(s, Stop(s, current))
  {
  }

  lemma ChoosingGrows(cfg: Config, s: State)
    ensures Grows(s, ActChoosing(cfg, s))
  {
  }

  lemma CoolingGrows(s: State, choice: Choice)
    requires s.loc.Cooling?
    ensures Grows(s, ActCooling(s, choice))
  {
    var t := s.(world := s.world.(watch := s.world.watch.Taken()));
    if choice.TakeWatch? && s.world.watch.Stops() {
      StopGrows(t, s.loc.ids);
    } else if choice.Receive? && !s.world.HasRequest() && s.world.closed {
      StopGrows(s, s.loc.ids);
    }
  }

  lemma IdleGrows(s: State, choice: Choice)
    ensures Grows(s, ActIdle(s, choice))
  {
    StopGrows(s, []);
    StopGrows(s.(world := s.world.(watch := s.world.watch.Taken())), []);
  }

  lemma RunningGrows(s: State, choice: Choice)
    requires s.loc.Running?
    ensures Grows(s, ActRunning(s, choice))
  {
  }

  lemma DrainingGrows(s: State)
    ensures Grows(s, ActDraining(s))
  {
    StopGrows(s, []);
  }

  lemma StepGrows(cfg: Config, s: State, i: Input)
    ensures Grows(s, Step(cfg, s, i))
  {
    if i.Act? {
      match s.loc {
        case Idle => IdleGrows(s, i.choice);
        case Choosing => ChoosingGrows(cfg, s);
        case Cooling(_, _, _) => CoolingGrows(s, i.choice);
        case Running(_, _) => RunningGrows(s, i.choice);
        case Draining => DrainingGrows(s);
        case Stopped =>
      }
    }
  }

  lemma {:induction false} RunGrows(cfg: Config, s: State, more: seq<Input>)
    ensures Grows(s, Run(cfg, s, more))
  {
    if more != [] {
      RunGrows(cfg, s, more[..|more| - 1]);
      var m := Run(cfg, s, more[..|more| - 1]);
      var t := Run(cfg, s, more);
      StepGrows(cfg, m, more[|more| - 1]);
      forall id | 0 <= id < |s.world.inbox| ensures s.world.inbox[id] <= t.world.inbox[id] {
        assert s.world.inbox[id] <= m.world.inbox[id] <= t.world.inbox[id];
      }
    }
  }

  /** FIFO, exactly: while request `id` waits, the runs that begin are those of the commands that were ahead
      of it, in their order, each once; whatever is sent meanwhile does not get in front. */
  lemma {:induction false} FifoWhileWaiting(cfg: Config, s: State, more: seq<Input>, id: nat) returns (passed: seq<Command>)
    requires Inv(cfg, s) && id < s.world.received
    requires var t := Run(cfg, s, more); id < |t.world.asked| && Held(t, id)
    ensures var t := Run(cfg, s, more);
            var c := s.world.asked[id];
            && Held(s, id) && t.world.asked[id] == c && s.world.received <= t.world.received
            && Ahead(s, c) == passed + Ahead(t, c)
            && Beginnings(t.world.history) == Beginnings(s.world.history) + Known(cfg, passed)
  {
    if more == [] {
      passed := [];
    } else {
      var m := Run(cfg, s, more[..|more| - 1]);
      var i := more[|more| - 1];
      RunKeepsInv(cfg, s, more[..|more| - 1]);
      RunGrows(cfg, s, more[..|more| - 1]);
      HeldBefore(cfg, m, i, id);
      passed := FifoWhileWaiting(cfg, s, more[..|more| - 1], id);
      StepGrows(cfg, m, i);
      StepAdvances(cfg, m, i, id);
      passed := PassOne(cfg, s, m, Run(cfg, s, more), s.world.asked[id], passed);
    }
  }

  lemma PassOne(cfg: Config, s: State, m: State, t: State, c: Command, before: seq<Command>) returns (passed: seq<Command>)
    requires Ahead(s, c) == before + Ahead(m, c)
    requires Beginnings(m.world.history) == Beginnings(s.world.history) + Known(cfg, before)
    requires Advances(cfg, m, t, c)
    ensures Ahead(s, c) == passed + Ahead(t, c)
    ensures Beginnings(t.world.history) == Beginnings(s.world.history) + Known(cfg, passed)
  {
    passed := before;
    if Ahead(t, c) != Ahead(m, c) || Beginnings(t.world.history) != Beginnings(m.world.history) {
      var d := Ahead(m, c)[0];
      passed := before + [d];
      KnownAppend(cfg, before, d);
      Regroup(before, d, Ahead(m, c), Ahead(t, c));
    }
  }

  lemma KnownAppend(cfg: Config, p: seq<Command>, d: Command)
    ensures Known(cfg, p + [d]) == Known(cfg, p) + Known(cfg, [d])
  {
    assert (p + [d])[..|p|] == p && [d][..0] == [];
  }

  lemma Regroup(p: seq<Command>, d: Command, q: seq<Command>, r: seq<Command>)
    ensures q != [] && q[0] == d && r == q[1..] ==> p + q == p + [d] + r
  {
  }

  lemma {:induction false} KnownNoDup(cfg: Config, p: seq<Command>, c: Command)
    requires NoDup(p) && c !in p
    ensures NoDup(Known(cfg, p)) && c !in Known(cfg, p)
    ensures forall d :: d in Known(cfg, p) ==> d in cfg && d in p
  {
    if p != [] {
      KnownNoDup(cfg, p[..|p| - 1], c);
    }
  }

  lemma {:induction false} NoDupFits(p: seq<Command>, all: set<Command>)
    requires NoDup(p) && forall d :: d in p ==> d in all
    ensures |p| <= |all|
  {
    if p != [] {
      var d := p[|p| - 1];
      NoDupFits(p[..|p| - 1], all - {d});
    }
  }

  lemma {:induction false} BeforeNoDup(order: seq<Command>, c: Command)
    requires NoDup(order)
    ensures NoDup(Before(order, c)) && c !in Before(order, c)
    ensures forall d :: d in Before(order, c) ==> d in order
  {
    if order != [] && order[0] != c {
      BeforeNoDup(order[1..], c);
      assert order[0] !in order[1..];
    }
  }

  /** Bounded overtaking: while a received request for a known command waits, whatever the schedule, every
      other command of the lane begins at most once and its own not at all, so it waits for at most n - 1 runs. */
  lemma {:induction false} BoundedOvertaking(cfg: Config, script: seq<Input>, more: seq<Input>, id: nat)
    requires var s := Run(cfg, Init(), script);
             id < s.world.received && s.world.received <= |s.world.asked| && s.world.asked[id] in cfg
    requires var t := Run(cfg, Run(cfg, Init(), script), more); id < |t.world.asked| && Held(t, id)
    ensures var s := Run(cfg, Init(), script);
            var t := Run(cfg, s, more);
            && Beginnings(s.world.history) <= Beginnings(t.world.history)
            && var between := Beginnings(t.world.history)[|Beginnings(s.world.history)|..];
               NoDup(between) && s.world.asked[id] !in between && |between| <= |cfg| - 1
  {
    var s := Run(cfg, Init(), script);
    var c := s.world.asked[id];
    RunAlternates(cfg, script);
    var passed := FifoWhileWaiting(cfg, s, more, id);
    BeforeNoDup(s.pending.order, c);
    assert forall d :: d in passed ==> d in Ahead(s, c);
    assert NoDup(Ahead(s, c));
    forall i, j | 0 <= i < j < |passed| ensures passed[i] != passed[j] {
      assert Ahead(s, c)[i] == passed[i] && Ahead(s, c)[j] == passed[j];
    }
    KnownNoDup(cfg, passed, c);
    NoDupFits(Known(cfg, passed), cfg.Keys - {c});
    assert |cfg.Keys - {c}| == |cfg| - 1;
  }
}
