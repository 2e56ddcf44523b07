/** Work that a lane holds moves on: every action brings a waiting request nearer to its run. */
module LaneProgress {
  import opened Lane
  import opened LaneFairness
  import opened LaneLifecycle
  import opened PendingQueue

  /** How far the lane's task is from looking at, or beginning, the next command. */
  function Stage(s: State): nat {
    match s.loc
    case Running(_, _) => 3
    case Draining => 2
    case Choosing => 1
    case _ => 0
  }

  /** Requests still in the channel. */
  function Unread(s: State): int {
    |s.world.asked| - s.world.received
  }

  /** The task can act: it waits for nothing, its cooldown is over, or its command has ended. */
  predicate Enabled(s: State, choice: Choice) {
    match s.loc
    case Choosing => true
    case Draining => true
    case Cooling(_, _, runAt) => choice.TimerFires? && s.world.now >= runAt
    case Running(_, _) => choice.Completes?
    case _ => false
  }

  /** Fewer commands are ahead of `c`, or the next one is nearer, or the channel is shorter. */
  ghost predicate Nearer(s: State, t: State, c: Command) {
    || |Ahead(t, c)| < |Ahead(s, c)|
    || (|Ahead(t, c)| == |Ahead(s, c)| && Stage(t) < Stage(s))
    || (|Ahead(t, c)| == |Ahead(s, c)| && Stage(t) == Stage(s) && 0 <= Unread(t) < Unread(s))
  }

  lemma ChoosingNearer(cfg: Config, s: State, id: nat)
    requires Inv(cfg, s) && s.loc.Choosing? && id < s.world.received && Held(s, id)
    requires var t := ActChoosing(cfg, s); id < |t.world.asked| && Held(t, id)
    ensures Nearer(s, ActChoosing(cfg, s), s.world.asked[id])
  {
    var t := ActChoosing(cfg, s);
    ChoosingAdvances(cfg, s, id);
    PopTakeKeepsConsistent(s.pending);
    if s.pending.order == [] {
      EmptyPending(s.pending);
    } else if !t.loc.Cooling? {
      var c := s.world.asked[id];
      assert s.pending.order[0] != c;
      assert Ahead(s, c) == [s.pending.order[0]] + Ahead(t, c);
    }
  }

  lemma CoolingNearer(cfg: Config, s: State, choice: Choice, id: nat)
    requires Inv(cfg, s) && s.loc.Cooling? && id < s.world.received && Held(s, id)
    requires var t := ActCooling(s, choice); t != s && id < |t.world.asked| && Held(t, id)
    ensures Nearer(s, ActCooling(s, choice), s.world.asked[id])
  {
    CoolingAdvances(cfg, s, choice, id);
    var t := ActCooling(s, choice);
    if t.loc.Running? {
      assert Ahead(s, s.world.asked[id]) == [s.loc.command] + Ahead(t, s.world.asked[id]);
    }
  }

  lemma DrainingNearer(cfg: Config, s: State, id: nat)
    requires Inv(cfg, s) && s.loc.Draining? && id < s.world.received && Held(s, id)
    requires var t := ActDraining(s); id < |t.world.asked| && Held(t, id)
    ensures Nearer(s, ActDraining(s), s.world.asked[id])
  {
    if s.world.HasRequest() {
      TakeInAdvances(cfg, s, s.world.asked[id]);
    }
  }

  /** In every reachable state a request that waits is brought nearer to its run by every action of the task that does
      anything, until its run begins or it is refused or cancelled; and unless a cooldown is not over yet, or a command has
      not ended, there is such an action. */
  lemma {:induction false} WaitingMovesOn(cfg: Config, s: State, choice: Choice, id: nat)
    requires Inv(cfg, s) && id < s.world.received && Held(s, id)
    ensures var t := ActStep(cfg, s, choice);
            && id < |t.world.asked|
            && (t == s || !Held(t, id) || Nearer(s, t, s.world.asked[id]))
            && (Enabled(s, choice) ==> t != s)
            && !s.loc.Idle? && !s.loc.Stopped?
  {
    var t := ActStep(cfg, s, choice);
    StepGrows(cfg, s, Act(choice));
    assert Step(cfg, s, Act(choice)) == t;
    match s.loc {
      case Idle => EmptyPending(s.pending);
      case Stopped => EmptyPending(s.pending);
      case Choosing =>
        ChoosingMovesOff(cfg, s);
        if Held(t, id) {
          ChoosingNearer(cfg, s, id);
        }
      case Cooling(_, _, _) =>
        if t != s && Held(t, id) {
          CoolingNearer(cfg, s, choice, id);
        }
      case Running(_, _) =>
      case Draining =>
        if Held(t, id) {
          DrainingNearer(cfg, s, id);
        }
    }
  }

  lemma ChoosingMovesOff(cfg: Config, s: State)
    requires Inv(cfg, s) && s.loc.Choosing?
    ensures ActChoosing(cfg, s) != s
  {
    PopTakeKeepsConsistent(s.pending);
    var t := ActChoosing(cfg, s);
    if s.pending.order != [] {
      assert s.pending.order[0] in s.pending.waiters && s.pending.order[0] !in t.pending.waiters;
    }
  }
}
