/**
 * The filesystem runner in front of a command lane, among any other traffic: what it hears of its commands is what the lane
 * does with them.
 */
module FsPipeline {
  import F = FsState
  import FP = FsStateProps
  import FR = FsStateRecords
  import L = Lane
  import LF = LaneFairness
  import LL = LaneLifecycle
  import LO = LaneOrder
  import LX = LaneOutcome

  /** `request` is the runner's last request and `heard` how much of its lifecycle the runner has read; `sentAt` is when
      each request of the lane was sent. */
  datatype System = System(fs: F.State, lane: L.State, request: nat, heard: nat, sentAt: seq<nat>)

  datatype Config = Config(command: string, fs: F.Config, armed: bool, lane: L.Config)

  /** Any schedule of the two tasks, the clock, shutdown and the other sources of the lane. */
  datatype Input =
    | Elapse(duration: nat)
    | Shutdown
    | OtherRequest(command: string)
    | Runner(input: F.Input)
    | LaneActs(choice: L.Choice)
    | LaneSendersGone

  function Init(cfg: Config): System {
    System(F.Init(cfg.fs, cfg.armed), L.Init(), 0, 0, [])
  }

  /** What a note of the lane is to the runner. */
  function AsHeard(note: L.Note): F.Lifecycle {
    match note
    case Started => F.Started
    case Finished(report) => F.Finished(report == L.Outcome(true))
  }

  predicate Accepts(lane: L.State) {
    !lane.loc.Stopped? && !lane.world.closed && |lane.world.asked| < lane.world.received + L.CHANNEL_CAPACITY
  }

  function Sent(cfg: Config, s: System, c: string): System {
    var t := L.Step(cfg.lane, s.lane, L.Send(c));
    s.(lane := t, sentAt := if |t.world.asked| > |s.lane.world.asked| then s.sentAt + [s.lane.world.now] else s.sentAt)
  }

  /** The runner's task acts. Whether its request is taken, and what it hears of it, is decided by the lane; it sees a
      shutdown only when there was one. */
  function RunnerStep(cfg: Config, s: System, i: F.Input): System {
    var acted := s.(fs := F.Step(cfg.fs, s.fs, i));
    match i
    case Elapse(_) => s
    case WatchChanged(stop) => if stop && !s.lane.world.watch.value then s else acted
    case StartEnds(ok) =>
      if !s.fs.loc.Submitting? then s
      else if ok then
        if Accepts(s.lane) then Sent(cfg, acted, cfg.command).(request := |s.lane.world.asked|, heard := 0) else s
      else if s.lane.loc.Stopped? then acted
      else s
    case Hears(lifecycle) =>
      if !s.fs.loc.AwaitingRun? || s.request >= |s.lane.world.inbox| then s
      else if s.heard < |s.lane.world.inbox[s.request]| then
        if lifecycle == AsHeard(s.lane.world.inbox[s.request][s.heard]) then acted.(heard := s.heard + 1) else s
      else if s.lane.loc.Stopped? && lifecycle.Lost? then acted
      else s
    case _ => acted
  }

  function Step(cfg: Config, s: System, i: Input): System {
    match i
    case Elapse(n) => s.(fs := F.Step(cfg.fs, s.fs, F.Elapse(n)), lane := L.Step(cfg.lane, s.lane, L.Elapse(n)))
    case Shutdown => s.(lane := L.Step(cfg.lane, s.lane, L.SetShutdown(true)))
    case OtherRequest(c) => Sent(cfg, s, c)
    case Runner(input) => RunnerStep(cfg, s, input)
    case LaneActs(choice) => s.(lane := L.Step(cfg.lane, s.lane, L.Act(choice)))
    case LaneSendersGone =>
      if s.fs.loc.Stopped? then s.(lane := L.Step(cfg.lane, s.lane, L.CloseRequests)) else s
  }

  function Run(cfg: Config, script: seq<Input>): System {
    if script == [] then Init(cfg)
    else Step(cfg, Run(cfg, script[..|script| - 1]), script[|script| - 1])
  }

  // ---------- What the lane keeps ----------

  /** A run begins no sooner than the requests it serves were sent. */
  ghost predicate OnTime(w: L.World, sentAt: seq<nat>, k: nat)
    requires k < |w.history|
  {
    && w.history[k].at <= w.now
    && (w.history[k].Began? ==>
          forall id {:trigger id in w.history[k].served} :: id in w.history[k].served ==>
            id < |sentAt| && sentAt[id] <= w.history[k].at)
  }

  ghost predicate LaneOk(cfg: Config, lane: L.State, sentAt: seq<nat>) {
    && LL.Inv(cfg.lane, lane) && LO.Alternates(lane) && LO.Served(lane.world) && LX.Traced(lane.world)
    && |sentAt| == |lane.world.asked|
    && (forall id :: 0 <= id < |sentAt| ==> sentAt[id] <= lane.world.now)
    && (forall k :: 0 <= k < |lane.world.history| ==> OnTime(lane.world, sentAt, k))
  }

  lemma HistoryGrows(cfg: L.Config, s: L.State, t: L.State)
    requires LO.Moves(cfg, s, t)
    ensures s.world.history <= t.world.history && s.world.now <= t.world.now
    ensures |t.world.history| <= |s.world.history| + 1
  {
  }

  lemma StepKeepsOnTime(cfg: Config, s: L.State, t: L.State, sentAt: seq<nat>, now: seq<nat>)
    requires LaneOk(cfg, s, sentAt) && LO.Moves(cfg.lane, s, t) && LO.Served(t.world)
    requires sentAt <= now && |now| == |t.world.asked|
    requires forall id :: 0 <= id < |now| ==> now[id] <= t.world.now
    ensures forall k :: 0 <= k < |t.world.history| ==> OnTime(t.world, now, k)
  {
    HistoryGrows(cfg.lane, s, t);
    forall k | 0 <= k < |t.world.history| ensures OnTime(t.world, now, k) {
      if k < |s.world.history| {
        assert OnTime(s.world, sentAt, k);
      } else {
        assert LO.ServesOwn(t.world, t.world.history[k]);
      }
    }
  }

  lemma LaneStepKeepsOk(cfg: Config, s: L.State, i: L.Input, sentAt: seq<nat>, now: seq<nat>)
    requires LaneOk(cfg, s, sentAt)
    requires var t := L.Step(cfg.lane, s, i);
             sentAt <= now && |now| == |t.world.asked| && forall id :: 0 <= id < |now| ==> now[id] <= t.world.now
    ensures LaneOk(cfg, L.Step(cfg.lane, s, i), now)
  {
    var t := L.Step(cfg.lane, s, i);
    LL.StepKeepsInv(cfg.lane, s, i);
    LO.StepMoves(cfg.lane, s, i);
    LO.MoveAlternates(cfg.lane, s, t);
    LO.MoveServed(cfg.lane, s, t);
    LF.StepGrows(cfg.lane, s, i);
    HistoryGrows(cfg.lane, s, t);
    LX.MoveTraces(cfg.lane, s, t);
    StepKeepsOnTime(cfg, s, t, sentAt, now);
  }

  // ---------- Both together ----------

  /** Run `k` of the lane is one of the runner's command that began after the submission at entry `sub`, and had succeeded by
      `at`. */
  ghost predicate Succeeded(cfg: Config, s: System, sub: nat, at: nat, k: nat) {
    && sub < |s.fs.world.history| && s.fs.world.history[sub].Submitted?
    && var h := s.lane.world.history;
       && k + 1 < |h|
       && h[k].Began? && h[k].command == cfg.command && h[k].at >= s.fs.world.history[sub].at
       && h[k + 1].Ended? && h[k + 1].command == cfg.command && h[k + 1].report == L.Outcome(true) && h[k + 1].at <= at
  }

  /** Note `m` to request `id`, one for the runner's command sent at or after the submission at entry `sub`, is the end of its
      lifecycle and no success. */
  ghost predicate Failed(cfg: Config, s: System, sub: nat, id: nat, m: nat) {
    && sub < |s.fs.world.history| && s.fs.world.history[sub].Submitted?
    && var w := s.lane.world;
       && id < |w.asked| && id < |w.inbox| && id < |s.sentAt|
       && w.asked[id] == cfg.command && s.fs.world.history[sub].at <= s.sentAt[id]
       && m < |w.inbox[id]| && w.inbox[id][m].Finished? && w.inbox[id][m].report != L.Outcome(true)
  }

  ghost predicate Proven(cfg: Config, s: System, j: nat)
    requires j < |s.fs.world.history|
  {
    var e := s.fs.world.history[j];
    && (e.RunOk? ==> exists k :: Succeeded(cfg, s, e.sub, e.at, k))
    && (e.RunFailed? ==> s.lane.loc.Stopped? || exists id, m :: Failed(cfg, s, e.sub, id, m))
  }

  /** The runner's request, while it waits for its end. */
  ghost predicate RequestOk(cfg: Config, s: System) {
    var h := s.fs.world.history;
    && (s.fs.loc.Submitting? || s.fs.loc.AwaitingRun? ==>
          s.fs.loc.sub < |h| && h[s.fs.loc.sub].Submitted? && h[s.fs.loc.sub].at <= s.fs.world.now)
    && (s.fs.loc.AwaitingRun? ==>
          s.request < |s.lane.world.asked| && s.lane.world.asked[s.request] == cfg.command
          && s.request < |s.sentAt| && h[s.fs.loc.sub].at <= s.sentAt[s.request])
  }

  ghost predicate Inv(cfg: Config, s: System) {
    && LaneOk(cfg, s.lane, s.sentAt)
    && FP.Inv(cfg.fs, s.fs)
    && s.fs.world.now == s.lane.world.now
    && RequestOk(cfg, s)
    && (forall j :: 0 <= j < |s.fs.world.history| ==> Proven(cfg, s, j))
  }

  lemma ProvenStays(cfg: Config, s: System, t: System, j: nat)
    requires j < |s.fs.world.history| && Proven(cfg, s, j)
    requires s.fs.world.history <= t.fs.world.history && LaneGrows(s, t)
    ensures Proven(cfg, t, j)
  {
    var e := s.fs.world.history[j];
    if e.RunOk? {
      var k :| Succeeded(cfg, s, e.sub, e.at, k);
      assert Succeeded(cfg, t, e.sub, e.at, k);
    } else if e.RunFailed? && !s.lane.loc.Stopped? {
      var id, m :| Failed(cfg, s, e.sub, id, m);
      assert Failed(cfg, t, e.sub, id, m);
    }
  }

  /** What the lane has recorded, taken and answered stays, and a stopped lane is stopped for good. */
  ghost predicate LaneGrows(s: System, t: System) {
    var v, w := s.lane.world, t.lane.world;
    && v.history <= w.history && v.asked <= w.asked && |v.inbox| <= |w.inbox| && s.sentAt <= t.sentAt
    && (forall id :: 0 <= id < |v.inbox| ==> v.inbox[id] <= w.inbox[id])
    && (s.lane.loc.Stopped? ==> t.lane.loc.Stopped?)
  }

  lemma LaneStepGrows(cfg: Config, s: System, i: L.Input, t: System)
    requires LaneOk(cfg, s.lane, s.sentAt) && t.lane == L.Step(cfg.lane, s.lane, i) && s.sentAt <= t.sentAt
    ensures LaneGrows(s, t)
  {
    LO.StepMoves(cfg.lane, s.lane, i);
    HistoryGrows(cfg.lane, s.lane, t.lane);
    LF.StepGrows(cfg.lane, s.lane, i);
  }

  /** Every success that was proven stays so, and the lane's own steps leave the runner's request alone. */
  lemma LaneMovesKeepInv(cfg: Config, s: System, t: System, i: L.Input)
    requires Inv(cfg, s)
    requires t.lane == L.Step(cfg.lane, s.lane, i) && LaneOk(cfg, t.lane, t.sentAt)
    requires FP.Inv(cfg.fs, t.fs) && t.fs.world.now == t.lane.world.now
    requires t.fs.world.history == s.fs.world.history && t.fs.loc == s.fs.loc && s.fs.world.now <= t.fs.world.now
    requires t.request == s.request && s.sentAt <= t.sentAt
    ensures Inv(cfg, t)
  {
    LaneStepGrows(cfg, s, i, t);
    forall j | 0 <= j < |t.fs.world.history| ensures Proven(cfg, t, j) {
      ProvenStays(cfg, s, t, j);
    }
  }

  lemma SentKeepsOk(cfg: Config, s: System, c: string)
    requires LaneOk(cfg, s.lane, s.sentAt)
    ensures var t := Sent(cfg, s, c);
            && LaneOk(cfg, t.lane, t.sentAt) && LaneGrows(s, t) && t.lane.world.history == s.lane.world.history
            && t.lane.world.now == s.lane.world.now
            && (Accepts(s.lane) ==>
                  && t.lane.world.asked == s.lane.world.asked + [c] && t.sentAt == s.sentAt + [s.lane.world.now])
  {
    LaneStepKeepsOk(cfg, s.lane, L.Send(c), s.sentAt, Sent(cfg, s, c).sentAt);
    LaneStepGrows(cfg, s, L.Send(c), Sent(cfg, s, c));
  }

  /** When the runner hears that its command has succeeded, a run of it has. */
  lemma HeardSuccess(cfg: Config, s: System)
    requires Inv(cfg, s) && s.fs.loc.AwaitingRun? && s.heard < |s.lane.world.inbox[s.request]|
    requires AsHeard(s.lane.world.inbox[s.request][s.heard]) == F.Finished(true)
    ensures exists k :: Succeeded(cfg, s, s.fs.loc.sub, s.fs.world.now, k)
  {
    var w, id := s.lane.world, s.request;
    assert LL.LifecycleOk(cfg.lane, s.lane, id);
    assert w.inbox[id][s.heard] == L.Finished(L.Outcome(true));
    assert |w.inbox[id]| == 2 && w.inbox[id][1] == L.Finished(L.Outcome(true));
    assert LX.HasRun(w, id, L.Outcome(true));
    var k :| 0 <= k < |w.history| && LX.RunOf(w, k, id, L.Outcome(true));
    assert LO.ServesOwn(w, w.history[k]);
    assert OnTime(w, s.sentAt, k) && OnTime(w, s.sentAt, k + 1);
    assert Succeeded(cfg, s, s.fs.loc.sub, s.fs.world.now, k);
  }

  /** When the runner hears that its command has failed, its request was answered so. */
  lemma HeardFailure(cfg: Config, s: System)
    requires Inv(cfg, s) && s.fs.loc.AwaitingRun? && s.heard < |s.lane.world.inbox[s.request]|
    requires AsHeard(s.lane.world.inbox[s.request][s.heard]) == F.Finished(false)
    ensures exists id, m :: Failed(cfg, s, s.fs.loc.sub, id, m)
  {
    assert Failed(cfg, s, s.fs.loc.sub, s.request, s.heard);
  }

  /** What the lane must have done for the runner to act so. */
  ghost predicate Allowed(cfg: Config, s: System, i: F.Input) {
    && i != F.StartEnds(true)
    && (i == F.Hears(F.Finished(true)) && s.fs.loc.AwaitingRun? ==>
          exists k :: Succeeded(cfg, s, s.fs.loc.sub, s.fs.world.now, k))
    && ((i == F.Hears(F.Finished(false)) && s.fs.loc.AwaitingRun?) || (i == F.Hears(F.Lost) && s.fs.loc.AwaitingRun?)
        || (i == F.StartEnds(false) && s.fs.loc.Submitting?) ==>
          s.lane.loc.Stopped? || exists id, m :: Failed(cfg, s, s.fs.loc.sub, id, m))
  }

  /** An action of the runner that the lane has no part in, or that the lane allows. */
  lemma ActedKeepsInv(cfg: Config, s: System, i: F.Input, t: System)
    requires Inv(cfg, s) && !i.Elapse?
    requires t == s.(fs := F.Step(cfg.fs, s.fs, i), heard := t.heard)
    requires Allowed(cfg, s, i)
    ensures Inv(cfg, t)
  {
    FP.StepKeepsInv(cfg.fs, s.fs, i);
    FR.StepRecords(cfg.fs, s.fs, i);
    forall j | 0 <= j < |t.fs.world.history| ensures Proven(cfg, t, j) {
      if j < |s.fs.world.history| {
        ProvenStays(cfg, s, t, j);
      } else if t.fs.world.history[j].RunOk? {
        var k :| Succeeded(cfg, s, s.fs.loc.sub, s.fs.world.now, k);
        assert Succeeded(cfg, t, s.fs.loc.sub, s.fs.world.now, k);
      } else if t.fs.world.history[j].RunFailed? && !s.lane.loc.Stopped? {
        var id, m :| Failed(cfg, s, s.fs.loc.sub, id, m);
        assert Failed(cfg, t, s.fs.loc.sub, id, m);
      }
    }
  }

  /** The lane takes the runner's request. */
  lemma StartKeepsInv(cfg: Config, s: System)
    requires Inv(cfg, s) && s.fs.loc.Submitting? && Accepts(s.lane)
    ensures Inv(cfg, RunnerStep(cfg, s, F.StartEnds(true)))
  {
    var t := RunnerStep(cfg, s, F.StartEnds(true));
    FP.StepKeepsInv(cfg.fs, s.fs, F.StartEnds(true));
    FR.StepRecords(cfg.fs, s.fs, F.StartEnds(true));
    SentKeepsOk(cfg, s.(fs := t.fs), cfg.command);
    forall j | 0 <= j < |t.fs.world.history| ensures Proven(cfg, t, j) {
      ProvenStays(cfg, s, t, j);
    }
  }

  lemma RunnerKeepsInv(cfg: Config, s: System, i: F.Input)
    requires Inv(cfg, s)
    ensures Inv(cfg, RunnerStep(cfg, s, i))
  {
    var t := RunnerStep(cfg, s, i);
    if t != s {
      if i == F.StartEnds(true) {
        StartKeepsInv(cfg, s);
      } else {
        if i == F.Hears(F.Finished(true)) {
          HeardSuccess(cfg, s);
        } else if i == F.Hears(F.Finished(false)) {
          HeardFailure(cfg, s);
        }
        ActedKeepsInv(cfg, s, i, t);
      }
    }
  }

  lemma ClockKeepsInv(cfg: Config, s: System, n: nat)
    requires Inv(cfg, s)
    ensures Inv(cfg, Step(cfg, s, Elapse(n)))
  {
    LaneStepKeepsOk(cfg, s.lane, L.Elapse(n), s.sentAt, s.sentAt);
    FP.StepKeepsInv(cfg.fs, s.fs, F.Elapse(n));
    LaneMovesKeepInv(cfg, s, Step(cfg, s, Elapse(n)), L.Elapse(n));
  }

  lemma LaneKeepsInv(cfg: Config, s: System, i: L.Input)
    requires Inv(cfg, s) && (i.Act? || i.CloseRequests? || i == L.SetShutdown(true))
    ensures Inv(cfg, s.(lane := L.Step(cfg.lane, s.lane, i)))
  {
    var t := s.(lane := L.Step(cfg.lane, s.lane, i));
    LaneLeavesClock(cfg.lane, s.lane, i);
    LaneStepKeepsOk(cfg, s.lane, i, s.sentAt, s.sentAt);
    LaneMovesKeepInv(cfg, s, t, i);
  }

  lemma LaneLeavesClock(cfg: L.Config, s: L.State, i: L.Input)
    requires i.Act? || i.CloseRequests? || i == L.SetShutdown(true)
    ensures var t := L.Step(cfg, s, i); t.world.now == s.world.now && t.world.asked == s.world.asked
  {
    match s.loc {
      case Idle =>
      case Choosing =>
      case Cooling(_, _, _) =>
      case Running(_, _) =>
      case Draining =>
      case Stopped =>
    }
  }

  lemma OtherKeepsInv(cfg: Config, s: System, c: string)
    requires Inv(cfg, s)
    ensures Inv(cfg, Sent(cfg, s, c))
  {
    SentKeepsOk(cfg, s, c);
    LaneMovesKeepInv(cfg, s, Sent(cfg, s, c), L.Send(c));
  }

  lemma {:induction false} RunKeepsInv(cfg: Config, script: seq<Input>)
    ensures Inv(cfg, Run(cfg, script))
  {
    if script == [] {
      LL.InitInv(cfg.lane);
    } else {
      var s := Run(cfg, script[..|script| - 1]);
      RunKeepsInv(cfg, script[..|script| - 1]);
      match script[|script| - 1] {
        case Elapse(n) => ClockKeepsInv(cfg, s, n);
        case Shutdown => LaneKeepsInv(cfg, s, L.SetShutdown(true));
        case OtherRequest(c) => OtherKeepsInv(cfg, s, c);
        case Runner(i) => RunnerKeepsInv(cfg, s, i);
        case LaneActs(choice) => LaneKeepsInv(cfg, s, L.Act(choice));
        case LaneSendersGone => LaneKeepsInv(cfg, s, L.CloseRequests);
      }
    }
  }

  // ---------- What the executor said ----------

  /** With input `n` the executor ended the run of the lane that entry `k` ends, with this result. */
  ghost predicate ExecutedAt(cfg: Config, script: seq<Input>, n: nat, k: nat, result: L.RunResult) {
    && n < |script|
    && var lane := Run(cfg, script[..n]).lane;
       lane.loc.Running? && |lane.world.history| == k && script[n] == LaneActs(L.Completes(result))
  }

  lemma ExecutedAtPrefix(cfg: Config, script: seq<Input>, n: nat, k: nat, result: L.RunResult)
    requires script != [] && ExecutedAt(cfg, script[..|script| - 1], n, k, result)
    ensures ExecutedAt(cfg, script, n, k, result)
  {
    assert script[..|script| - 1][..n] == script[..n];
  }

  /** Only an action of the lane adds to its history, and at most one entry. */
  lemma StepLeavesLaneHistory(cfg: Config, s: System, i: Input)
    requires Inv(cfg, s)
    ensures var g, h := s.lane.world.history, Step(cfg, s, i).lane.world.history;
            g <= h && |h| <= |g| + 1 && (|h| > |g| ==> i.LaneActs?)
  {
    match i {
      case Elapse(n) =>
      case Shutdown =>
      case OtherRequest(c) => SentKeepsOk(cfg, s, c);
      case Runner(input) =>
        if input == F.StartEnds(true) {
          SentKeepsOk(cfg, s.(fs := F.Step(cfg.fs, s.fs, input)), cfg.command);
        }
      case LaneActs(choice) =>
        LO.StepMoves(cfg.lane, s.lane, L.Act(choice));
        HistoryGrows(cfg.lane, s.lane, Step(cfg, s, i).lane);
      case LaneSendersGone =>
    }
  }

  /** A step that adds the end of a run is the end of the executor's work. */
  lemma NewEndIsResult(cfg: Config, script: seq<Input>, k: nat) returns (result: L.RunResult)
    requires script != [] && Inv(cfg, Run(cfg, script[..|script| - 1]))
    requires |Run(cfg, script[..|script| - 1]).lane.world.history| == k < |Run(cfg, script).lane.world.history|
    requires Run(cfg, script).lane.world.history[k].Ended?
    ensures ExecutedAt(cfg, script, |script| - 1, k, result) && LX.Tells(Run(cfg, script).lane.world.history[k].report, result)
  {
    var s, i := Run(cfg, script[..|script| - 1]), script[|script| - 1];
    StepLeavesLaneHistory(cfg, s, i);
    LX.StepEnds(cfg.lane, s.lane, L.Act(i.choice));
    result := i.choice.result;
  }

  /** Every end of a run that the lane records is one that the executor gave, and is reported as such. */
  lemma {:induction false} LaneEndsAreResults(cfg: Config, script: seq<Input>, k: nat) returns (n: nat, result: L.RunResult)
    requires k < |Run(cfg, script).lane.world.history| && Run(cfg, script).lane.world.history[k].Ended?
    ensures ExecutedAt(cfg, script, n, k, result)
    ensures LX.Tells(Run(cfg, script).lane.world.history[k].report, result)
  {
    var rest, i := script[..|script| - 1], script[|script| - 1];
    RunKeepsInv(cfg, rest);
    StepLeavesLaneHistory(cfg, Run(cfg, rest), i);
    if k < |Run(cfg, rest).lane.world.history| {
      n, result := LaneEndsAreResults(cfg, rest, k);
      ExecutedAtPrefix(cfg, script, n, k, result);
    } else {
      n := |rest|;
      result := NewEndIsResult(cfg, script, k);
    }
  }

  /** Run `k` of the lane is one of the runner's command, begun at or after the submission at entry `sub`, which the executor
      ended with success, by input `n`, no later than `at`. */
  ghost predicate RanWell(cfg: Config, script: seq<Input>, sub: nat, at: nat, k: nat, n: nat) {
    Succeeded(cfg, Run(cfg, script), sub, at, k) && ExecutedAt(cfg, script, n, k + 1, L.Ran(true))
  }

  // ---------- Main results ----------

  /** A success that the runner records is one of its command: in every schedule a run of it began at or after the submission,
      the executor ended that run with success, and it had done so when the runner recorded it. */
  lemma {:induction false} SuccessIsARun(cfg: Config, script: seq<Input>, j: nat) returns (k: nat, n: nat)
    requires j < |Run(cfg, script).fs.world.history| && Run(cfg, script).fs.world.history[j].RunOk?
    ensures var e := Run(cfg, script).fs.world.history[j]; RanWell(cfg, script, e.sub, e.at, k, n)
  {
    RunKeepsInv(cfg, script);
    var s := Run(cfg, script);
    var e := s.fs.world.history[j];
    assert Proven(cfg, s, j);
    k :| Succeeded(cfg, s, e.sub, e.at, k);
    var result;
    n, result := LaneEndsAreResults(cfg, script, k + 1);
  }

  /** A failure that the runner records is one, too: a request for its command sent at or after the submission was answered
      with a failure, an error or a cancellation; or the lane has stopped. */
  lemma {:induction false} FailureIsAnswered(cfg: Config, script: seq<Input>, j: nat)
    requires j < |Run(cfg, script).fs.world.history| && Run(cfg, script).fs.world.history[j].RunFailed?
    ensures var s := Run(cfg, script);
            s.lane.loc.Stopped? || exists id, m :: Failed(cfg, s, s.fs.world.history[j].sub, id, m)
  {
    RunKeepsInv(cfg, script);
    assert Proven(cfg, Run(cfg, script), j);
  }

  /** End to end: when the runner waits for work, every event received outside the own-command window, and every failed
      change-triggered command, is followed by a read that began later and found the known baseline or failed undisturbed,
      or by a run of the command in the lane that began at or after a later submission and that the executor ended with
      success. */
  lemma {:induction false} ServedByReadOrRun(cfg: Config, script: seq<Input>, k: nat)
    requires k < |Run(cfg, script).fs.world.history| && FP.Obliges(Run(cfg, script).fs.world.history, k)
    requires Run(cfg, script).fs.loc.AwaitWork?
    ensures var h := Run(cfg, script).fs.world.history;
            exists j :: k < j < |h| && FP.Settles(h, k, j)
                        && (h[j].RunOk? ==> exists r, n :: RanWell(cfg, script, h[j].sub, h[j].at, r, n))
  {
    RunKeepsInv(cfg, script);
    var s := Run(cfg, script);
    assert !FP.Unserved(s.fs.world.history, k);
    var j :| k < j < |s.fs.world.history| && FP.Settles(s.fs.world.history, k, j);
    if s.fs.world.history[j].RunOk? {
      var r, n := SuccessIsARun(cfg, script, j);
    }
  }
}
