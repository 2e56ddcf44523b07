/**
 * A source's event queue and the task behind it, a debounce runner or a resume runner, in front of a command lane, among any
 * other traffic: no wake-up is lost from the moment it is produced until its command runs.
 */
module Pipeline {
  import opened SourceTask
  import opened Watching
  import D = Debounce
  import L = Lane
  import LL = LaneLifecycle
  import Q = PendingQueue
  import R = ResumeWait

  /** What the property speaks about: events of the source, and runs that begin. */
  datatype Mark = Produced(at: nat) | RunBegan(command: string, at: nat)

  // ---------- The task behind the queue ----------

  datatype SourceConfig = DebounceConfig(delays: D.Config) | ResumeConfig(settle: nat)

  datatype Source = Debouncing(delays: D.Config, debounce: D.State) | Resuming(settle: nat, resume: R.State) {
    function WatchOf(): Watch {
      if Debouncing? then debounce.world.watch else resume.world.watch
    }

    function Queued(): nat {
      if Debouncing? then debounce.world.queued else resume.world.queued
    }

    predicate Closed() {
      if Debouncing? then debounce.world.closed else resume.world.closed
    }

    predicate Submitting() {
      if Debouncing? then debounce.loc.Submitting? else resume.loc.Submitting?
    }

    predicate Awaiting() {
      if Debouncing? then debounce.loc.Awaiting? else resume.loc.Awaiting?
    }

    predicate Stopped() {
      if Debouncing? then debounce.loc.Stopped? else resume.loc.Stopped?
    }

    /** It waits for an event, and none is queued. */
    predicate Idle() {
      Queued() == 0 && if Debouncing? then debounce.loc.Waiting? else resume.loc.Waiting?
    }

    /** A wake-up is queued, debouncing or settling, or about to be submitted. */
    predicate Working() {
      || Queued() > 0
      || Submitting()
      || (if Debouncing? then
            debounce.loc.Sleeping? || debounce.loc.Cooling?
            || (debounce.loc.Draining? && debounce.loc.drain != D.AfterRun(false))
          else
            resume.loc.Settling? || resume.loc.Emptying? || (resume.loc.Draining? && resume.loc.saw))
    }

    function Act(choice: Choice): Source {
      if Debouncing? then this.(debounce := D.ActStep(delays, debounce, choice))
      else this.(resume := R.ActStep(settle, resume, choice))
    }

    /** Another task offers an event, closes the queue, lets time pass, or requests shutdown. */
    function Offered(): Source {
      if Debouncing? then this.(debounce := D.Step(delays, debounce, D.Produce))
      else this.(resume := R.Step(settle, resume, R.Wake))
    }

    function EventsClosed(): Source {
      if Debouncing? then this.(debounce := D.Step(delays, debounce, D.CloseEvents))
      else this.(resume := R.Step(settle, resume, R.CloseEvents))
    }

    function Later(duration: nat): Source {
      if Debouncing? then this.(debounce := D.Step(delays, debounce, D.Elapse(duration)))
      else this.(resume := R.Step(settle, resume, R.Elapse(duration)))
    }

    function ShutDown(): Source {
      if Debouncing? then this.(debounce := D.Step(delays, debounce, D.SetShutdown(true)))
      else this.(resume := R.Step(settle, resume, R.SetShutdown(true)))
    }
  }

  function Begin(cfg: SourceConfig): Source {
    match cfg
    case DebounceConfig(delays) => Debouncing(delays, D.Init())
    case ResumeConfig(settle) => Resuming(settle, R.Init())
  }

  // ---------- The system ----------

  datatype System = System(source: Source, lane: L.State, request: nat, log: seq<Mark>)

  datatype Config = Config(command: string, source: SourceConfig, lane: L.Config)

  /** Any schedule of the two tasks, the source's producer, the clock, shutdown and the other sources of the lane. */
  datatype Input =
    | Produce
    | EndSource
    | Elapse(duration: nat)
    | OtherRequest(command: string)
    | Shutdown
    | SourceActs(choice: Choice)
    | LaneActs(branch: L.Choice)
    | LaneSendersGone

  function Init(cfg: Config): System {
    System(Begin(cfg.source), L.Init(), 0, [])
  }

  ghost predicate Answered(s: System) {
    s.request < |s.lane.world.inbox| && exists r :: L.Finished(r) in s.lane.world.inbox[s.request]
  }

  /** The source's task acts. What its trigger sees is decided by the lane: a stopped lane refuses the request,
      a full channel makes it wait, and waiting ends with Finished or with the lane. */
  ghost function SourceStep(cfg: Config, s: System, choice: Choice): System {
    match choice
    case Submitted =>
      if s.source.Submitting() && !s.lane.loc.Stopped? && !s.lane.world.closed
         && |s.lane.world.asked| < s.lane.world.received + L.CHANNEL_CAPACITY
      then s.(source := s.source.Act(choice),
              lane := L.Step(cfg.lane, s.lane, L.Send(cfg.command)),
              request := |s.lane.world.asked|)
      else s
    case SubmitFailed =>
      if s.lane.loc.Stopped? then s.(source := s.source.Act(choice)) else s
    case Reported =>
      if Answered(s) || s.lane.loc.Stopped? then s.(source := s.source.Act(choice)) else s
    case _ => s.(source := s.source.Act(choice))
  }

  function LaneStep(cfg: Config, s: System, choice: L.Choice): System {
    var t := L.Step(cfg.lane, s.lane, L.Act(choice));
    s.(lane := t,
       log := s.log + if t.loc.Running? && !s.lane.loc.Running? then [RunBegan(t.loc.command, t.world.now)] else [])
  }

  ghost function Step(cfg: Config, s: System, i: Input): System {
    match i
    case Produce =>
      if s.source.Closed() then s
      else s.(source := s.source.Offered(), log := s.log + [Produced(s.lane.world.now)])
    case EndSource => s.(source := s.source.EventsClosed())
    case Elapse(n) => s.(source := s.source.Later(n), lane := L.Step(cfg.lane, s.lane, L.Elapse(n)))
    case OtherRequest(c) => s.(lane := L.Step(cfg.lane, s.lane, L.Send(c)))
    case Shutdown => s.(source := s.source.ShutDown(), lane := L.Step(cfg.lane, s.lane, L.SetShutdown(true)))
    case SourceActs(choice) => SourceStep(cfg, s, choice)
    case LaneActs(choice) => LaneStep(cfg, s, choice)
    case LaneSendersGone =>
      // the source's trigger holds a sender for as long as its task lives
      if s.source.Stopped() then s.(lane := L.Step(cfg.lane, s.lane, L.CloseRequests)) else s
  }

  ghost function Run(cfg: Config, script: seq<Input>): System {
    if script == [] then Init(cfg)
    else Step(cfg, Run(cfg, script[..|script| - 1]), script[|script| - 1])
  }

  predicate ShutDown(s: System) {
    s.lane.world.watch.value
  }

  /** The wake-up is with the source's task, or requested in the lane with its run not begun. */
  predicate InFlight(s: System) {
    || s.source.Working()
    || (s.source.Awaiting() && s.request < |s.lane.world.inbox| && s.lane.world.inbox[s.request] == [])
  }

  /** Some event has no later beginning of the source's command. */
  function Owed(log: seq<Mark>, c: string): bool {
    if log == [] then false
    else match log[|log| - 1]
      case Produced(_) => true
      case RunBegan(d, _) => d != c && Owed(log[..|log| - 1], c)
  }

  ghost predicate Inv(cfg: Config, s: System) {
    && LL.Inv(cfg.lane, s.lane)
    && Monotone(s.source.WatchOf()) && Monotone(s.lane.world.watch)
    && s.source.WatchOf().value == s.lane.world.watch.value
    && (s.lane.world.closed ==> s.source.Stopped())
    && (s.lane.loc.Stopped? ==> ShutDown(s) || s.source.Stopped())
    && (s.source.Awaiting() ==> s.request < |s.lane.world.asked| && s.lane.world.asked[s.request] == cfg.command)
    && (s.source.Stopped() ==> ShutDown(s) || s.source.Closed())
    && (Owed(s.log, cfg.command) ==> InFlight(s) || ShutDown(s))
    && (forall k :: 0 <= k < |s.log| ==> s.log[k].at <= s.lane.world.now)
    && (forall j, k :: 0 <= j < k < |s.log| ==> s.log[j].at <= s.log[k].at)
  }

  lemma OwedAppend(log: seq<Mark>, m: Mark, c: string)
    ensures Owed(log + [m], c) == match m case Produced(_) => true case RunBegan(d, _) => d != c && Owed(log, c)
  {
    assert (log + [m])[..|log|] == log;
  }

  /** A lane stops only on shutdown or when its senders are gone. */
  lemma LaneStopsWhy(cfg: L.Config, s: L.State, choice: L.Choice)
    requires LL.Inv(cfg, s) && !s.loc.Stopped? && L.Step(cfg, s, L.Act(choice)).loc.Stopped?
    ensures s.world.watch.value || s.world.closed
  {
  }

  /** What the lane's own actions leave alone. */
  ghost predicate SameSurroundings(s: L.State, t: L.State) {
    && Monotone(t.world.watch) && t.world.watch.value == s.world.watch.value
    && t.world.now == s.world.now && t.world.closed == s.world.closed && t.world.asked == s.world.asked
  }

  lemma CoolingKeepsWatch(s: L.State, choice: L.Choice)
    requires s.loc.Cooling? && Monotone(s.world.watch)
    ensures SameSurroundings(s, L.ActCooling(s, choice))
  {
  }

  lemma ChoosingKeepsWatch(cfg: L.Config, s: L.State)
    requires Monotone(s.world.watch)
    ensures SameSurroundings(s, L.ActChoosing(cfg, s))
  {
  }

  lemma IdleKeepsWatch(s: L.State, choice: L.Choice)
    requires s.loc.Idle? && Monotone(s.world.watch)
    ensures SameSurroundings(s, L.ActIdle(s, choice))
  {
  }

  lemma LaneKeepsWatch(cfg: L.Config, s: L.State, choice: L.Choice)
    requires Monotone(s.world.watch)
    ensures SameSurroundings(s, L.Step(cfg, s, L.Act(choice)))
  {
    match s.loc {
      case Idle => IdleKeepsWatch(s, choice);
      case Choosing => ChoosingKeepsWatch(cfg, s);
      case Cooling(_, _, _) => CoolingKeepsWatch(s, choice);
      case Running(_, _) =>
      case Draining =>
      case Stopped =>
    }
  }

  /** A request for a known command that has heard nothing goes on hearing nothing until a run of its command
      begins or the lane stops. */
  lemma SilentUntilRun(cfg: L.Config, s: L.State, choice: L.Choice, id: nat)
    requires LL.Inv(cfg, s) && id < |s.world.asked| && s.world.asked[id] in cfg && s.world.inbox[id] == []
    requires var t := L.Step(cfg, s, L.Act(choice));
             !t.loc.Stopped? && !(t.loc.Running? && !s.loc.Running? && t.loc.command == s.world.asked[id])
    ensures var t := L.Step(cfg, s, L.Act(choice)); id < |t.world.inbox| && t.world.inbox[id] == []
  {
    assert LL.LifecycleOk(cfg, s, id);
    match s.loc {
      case Idle =>
      case Choosing => ChoosingSilent(cfg, s, id);
      case Cooling(_, _, _) =>
      case Running(_, _) =>
      case Draining =>
      case Stopped =>
    }
  }

  lemma ChoosingSilent(cfg: L.Config, s: L.State, id: nat)
    requires LL.Inv(cfg, s) && s.loc.Choosing?
    requires id < |s.world.asked| && s.world.asked[id] in cfg && s.world.inbox[id] == []
    requires var t := L.ActChoosing(cfg, s); !(t.loc.Running? && t.loc.command == s.world.asked[id])
    ensures var t := L.ActChoosing(cfg, s); id < |t.world.inbox| && t.world.inbox[id] == []
  {
    Q.PopTakeKeepsConsistent(s.pending);
    if s.pending.order != [] {
      var d := s.pending.order[0];
      assert LL.AskedFor(s.world, d, s.pending.waiters[d]);
    }
  }

  lemma LaneActsKeepFlight(cfg: Config, s: System, choice: L.Choice)
    requires cfg.command in cfg.lane && Inv(cfg, s) && !ShutDown(s)
    requires Owed(LaneStep(cfg, s, choice).log, cfg.command)
    ensures InFlight(LaneStep(cfg, s, choice))
  {
    var t := LaneStep(cfg, s, choice);
    if t.log != s.log {
      OwedAppend(s.log, t.log[|s.log|], cfg.command);
    }
    if t.lane.loc.Stopped? && !s.lane.loc.Stopped? {
      LaneStopsWhy(cfg.lane, s.lane, choice);
    }
    if s.source.Awaiting() && s.lane.world.inbox[s.request] == [] {
      SilentUntilRun(cfg.lane, s.lane, choice, s.request);
    }
  }

  lemma LaneActsKeepInv(cfg: Config, s: System, choice: L.Choice)
    requires cfg.command in cfg.lane && Inv(cfg, s)
    ensures Inv(cfg, LaneStep(cfg, s, choice))
  {
    var t := LaneStep(cfg, s, choice);
    LL.StepKeepsInv(cfg.lane, s.lane, L.Act(choice));
    LaneKeepsWatch(cfg.lane, s.lane, choice);
    if t.lane.loc.Stopped? && !s.lane.loc.Stopped? {
      LaneStopsWhy(cfg.lane, s.lane, choice);
    }
    if Owed(t.log, cfg.command) && !ShutDown(s) {
      LaneActsKeepFlight(cfg, s, choice);
    }
  }

  /** What an action of the source's task may do to what the system sees of it. */
  ghost predicate SourceMoves(s: Source, t: Source, choice: Choice) {
    && Monotone(t.WatchOf()) && t.WatchOf().value == s.WatchOf().value && t.Closed() == s.Closed()
    && (t.Awaiting() ==> s.Awaiting() || (s.Submitting() && choice.Submitted?))
    && (t.Stopped() ==> s.Stopped() || s.WatchOf().value || (s.Closed() && !s.Working()))
    && (s.Working() ==>
          t.Working() || s.WatchOf().value || (s.Submitting() && (choice.Submitted? || choice.SubmitFailed?)))
    && (s.Awaiting() ==> t.Awaiting() || t.Working() || choice.Reported? || s.WatchOf().value)
    && (s.Submitting() && choice.Submitted? ==> t.Awaiting())
  }

  lemma DebounceMoves(s: Source, choice: Choice)
    requires s.Debouncing? && Monotone(s.WatchOf())
    ensures SourceMoves(s, s.Act(choice), choice)
  {
  }

  lemma ResumeMoves(s: Source, choice: Choice)
    requires s.Resuming? && Monotone(s.WatchOf())
    ensures SourceMoves(s, s.Act(choice), choice)
  {
  }

  lemma SubmittedKeepsInv(cfg: Config, s: System)
    requires cfg.command in cfg.lane && Inv(cfg, s)
    requires SourceMoves(s.source, s.source.Act(Submitted), Submitted)
    ensures Inv(cfg, SourceStep(cfg, s, Submitted))
  {
    LL.StepKeepsInv(cfg.lane, s.lane, L.Send(cfg.command));
  }

  lemma SourceActsKeepInv(cfg: Config, s: System, choice: Choice)
    requires cfg.command in cfg.lane && Inv(cfg, s)
    ensures Inv(cfg, SourceStep(cfg, s, choice))
  {
    if s.source.Debouncing? {
      DebounceMoves(s.source, choice);
    } else {
      ResumeMoves(s.source, choice);
    }
    if choice.Submitted? {
      SubmittedKeepsInv(cfg, s);
    }
  }

  lemma ProduceKeepsInv(cfg: Config, s: System)
    requires Inv(cfg, s)
    ensures Inv(cfg, Step(cfg, s, Produce))
  {
    OwedAppend(s.log, Produced(s.lane.world.now), cfg.command);
  }

  lemma OtherRequestKeepsInv(cfg: Config, s: System, c: string)
    requires Inv(cfg, s)
    ensures Inv(cfg, Step(cfg, s, OtherRequest(c)))
  {
    LL.StepKeepsInv(cfg.lane, s.lane, L.Send(c));
  }

  lemma OthersKeepInv(cfg: Config, s: System, i: Input)
    requires cfg.command in cfg.lane && Inv(cfg, s)
    requires !i.SourceActs? && !i.LaneActs?
    ensures Inv(cfg, Step(cfg, s, i))
  {
    match i {
      case Produce => ProduceKeepsInv(cfg, s);
      case EndSource =>
      case Elapse(n) => LL.StepKeepsInv(cfg.lane, s.lane, L.Elapse(n));
      case OtherRequest(c) => OtherRequestKeepsInv(cfg, s, c);
      case Shutdown => LL.StepKeepsInv(cfg.lane, s.lane, L.SetShutdown(true));
      case LaneSendersGone => LL.StepKeepsInv(cfg.lane, s.lane, L.CloseRequests);
    }
  }

  lemma {:induction false} RunKeepsInv(cfg: Config, script: seq<Input>)
    requires cfg.command in cfg.lane
    ensures Inv(cfg, Run(cfg, script))
  {
    if script == [] {
      LL.InitInv(cfg.lane);
    } else {
      var s := Run(cfg, script[..|script| - 1]);
      RunKeepsInv(cfg, script[..|script| - 1]);
      match script[|script| - 1] {
        case SourceActs(choice) => SourceActsKeepInv(cfg, s, choice);
        case LaneActs(choice) => LaneActsKeepInv(cfg, s, choice);
        case i => OthersKeepInv(cfg, s, i);
      }
    }
  }

  lemma {:induction false} OwedFrom(log: seq<Mark>, k: nat, c: string)
    requires k < |log| && log[k].Produced?
    requires forall j :: k < j < |log| && log[j].RunBegan? ==> log[j].command != c
    ensures Owed(log, c)
  {
    if k < |log| - 1 {
      OwedFrom(log[..|log| - 1], k, c);
    }
  }

  /** End to end: in every schedule, every event the source produces, a mailbox change or a resume, even one dropped because
      the queue was full, is followed by a run of its command that begins at or after it, or is still in flight, unless
      shutdown was requested. */
  lemma {:induction false} NoLostWakeUp(cfg: Config, script: seq<Input>, k: nat)
    requires cfg.command in cfg.lane
    requires k < |Run(cfg, script).log| && Run(cfg, script).log[k].Produced?
    ensures var s := Run(cfg, script);
            || (exists j :: k < j < |s.log| && s.log[j].RunBegan? && s.log[j].command == cfg.command
                            && s.log[j].at >= s.log[k].at)
            || InFlight(s)
            || ShutDown(s)
  {
    var s := Run(cfg, script);
    RunKeepsInv(cfg, script);
    if forall j :: k < j < |s.log| && s.log[j].RunBegan? ==> s.log[j].command != cfg.command {
      OwedFrom(s.log, k, cfg.command);
    }
  }

  /** An idle source, which waits for an event with none queued, has had every event served, whatever the lane is doing. */
  lemma {:induction false} AllServedAtRest(cfg: Config, script: seq<Input>, k: nat)
    requires cfg.command in cfg.lane
    requires k < |Run(cfg, script).log| && Run(cfg, script).log[k].Produced?
    requires var s := Run(cfg, script); s.source.Idle() && !ShutDown(s)
    ensures var s := Run(cfg, script);
            exists j :: k < j < |s.log| && s.log[j].RunBegan? && s.log[j].command == cfg.command && s.log[j].at >= s.log[k].at
  {
    NoLostWakeUp(cfg, script, k);
  }
}
