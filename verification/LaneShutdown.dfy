/** What a lane still does once shutdown has been requested. */
module LaneShutdown {
  import opened Lane
  import opened LaneFairness

  /** Whether the lane's task is at a point from which it may begin a run before it comes to a shutdown test. */
  function MayBegin(s: State): nat {
    if s.loc.Idle? || s.loc.Choosing? || s.loc.Cooling? then 1 else 0
  }

  /** The flag stays up, and a run that begins uses up the one that was left. */
  ghost predicate UsesUp(s: State, t: State) {
    && t.world.watch.value
    && |Beginnings(t.world.history)| + MayBegin(t) <= |Beginnings(s.world.history)| + MayBegin(s)
  }

  lemma OneMore(s: State, t: State)
    requires s.world.watch.value && t.world.watch.value && MayBegin(s) == 1 && MayBegin(t) == 0
    requires t.world.history == s.world.history || exists e: Obs :: t.world.history == s.world.history + [e]
    ensures UsesUp(s, t)
  {
    if t.world.history != s.world.history {
      assert t.world.history[..|s.world.history|] == s.world.history;
    }
  }

  lemma ChoosingUsesUp(cfg: Config, s: State)
    requires s.world.watch.value && s.loc.Choosing?
    ensures UsesUp(s, ActChoosing(cfg, s))
  {
    var t := ActChoosing(cfg, s);
    if t.loc.Running? {
      assert t.world.history == s.world.history + [t.world.history[|s.world.history|]];
      OneMore(s, t);
    }
  }

  lemma CoolingUsesUp(s: State, choice: Choice)
    requires s.world.watch.value && s.loc.Cooling?
    ensures UsesUp(s, ActCooling(s, choice))
  {
    var t := ActCooling(s, choice);
    if t.loc.Running? {
      assert t.world.history == s.world.history + [t.world.history[|s.world.history|]];
      OneMore(s, t);
    }
  }

  lemma RunningUsesUp(s: State, choice: Choice)
    requires s.world.watch.value && s.loc.Running?
    ensures UsesUp(s, ActRunning(s, choice))
  {
    if choice.Completes? {
      assert ActRunning(s, choice).world.history[..|s.world.history|] == s.world.history;
    }
  }

  /** The test after a drain: with the flag up the drain leads nowhere but to the end. */
  lemma DrainingUsesUp(s: State)
    requires s.world.watch.value && s.loc.Draining?
    ensures UsesUp(s, ActDraining(s))
  {
  }

  lemma StepUsesUp(cfg: Config, s: State, i: Input)
    requires s.world.watch.value && i != SetShutdown(false)
    ensures UsesUp(s, Step(cfg, s, i))
  {
    if i.Act? {
      match s.loc {
        case Idle =>
        case Choosing => ChoosingUsesUp(cfg, s);
        case Cooling(_, _, _) => CoolingUsesUp(s, i.choice);
        case Running(_, _) => RunningUsesUp(s, i.choice);
        case Draining => DrainingUsesUp(s);
        case Stopped =>
      }
    }
  }

  /** Once shutdown has been requested at most one further run begins, in every schedule; and none if a run was going on or
      had just ended. */
  lemma {:induction false} AtMostOneMoreRun(cfg: Config, s: State, more: seq<Input>)
    requires s.world.watch.value
    requires forall k :: 0 <= k < |more| ==> more[k] != SetShutdown(false)
    ensures var t := Run(cfg, s, more);
            && t.world.watch.value
            && |Beginnings(t.world.history)| + MayBegin(t) <= |Beginnings(s.world.history)| + MayBegin(s)
  {
    if more != [] {
      AtMostOneMoreRun(cfg, s, more[..|more| - 1]);
      StepUsesUp(cfg, Run(cfg, s, more[..|more| - 1]), more[|more| - 1]);
    }
  }

  /** The task takes a watch change with the flag up, or finds its channel closed and empty, while it waits for a request or
      for a cooldown; or finds the flag up after a drain. */
  predicate EndsLane(s: State, i: Input) {
    i.Act? &&
    match s.loc
    case Idle => SeesShutdown(s, i) || SeesClosed(s, i)
    case Cooling(_, _, _) => SeesShutdown(s, i) || SeesClosed(s, i)
    case Draining => s.world.received >= |s.world.asked| && s.world.watch.value
    case _ => false
  }

  predicate SeesShutdown(s: State, i: Input) {
    i == Act(TakeWatch) && s.world.watch.unseen && s.world.watch.value
  }

  predicate SeesClosed(s: State, i: Input) {
    i == Act(Receive) && s.world.received >= |s.world.asked| && s.world.closed
  }

  /** The lane stops exactly then. */
  lemma LaneStopsExactly(cfg: Config, s: State, i: Input)
    requires !s.loc.Stopped?
    ensures Step(cfg, s, i).loc.Stopped? <==> EndsLane(s, i)
  {
  }
}
