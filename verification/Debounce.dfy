/** The debounce runner of one source as a machine of atomic steps; its event queue is bounded and lossy. */
module Debounce {
  import opened Options
  import opened SourceTask
  import opened Watching

  /** Which `drain_events` is going on. */
  datatype Drain = BeforeCooldown | AfterCooldown | AfterRun(saw: bool)

  datatype Loc =
    | Waiting                   // the select of `run`
    | Sleeping(until: nat)      // the debounce delay
    | Draining(drain: Drain)
    | Cooling(until: nat)
    | Submitting                // waiting for the lane's channel to take the request
    | Awaiting                  // waiting for Finished
    | Stopped

  datatype World = World(now: nat, queued: nat, closed: bool, watch: Watch)

  datatype State = State(world: World, last: Option<nat>, loc: Loc)

  datatype Config = Config(debounce: nat, cooldown: nat)

  datatype Input =
    | Elapse(duration: nat)
    | Produce
    | CloseEvents
    | SetShutdown(value: bool)
    | DropShutdown
    | Act(choice: Choice)

  function InitWorld(): World {
    World(0, 0, false, NOT_SHUT_DOWN)
  }

  function Init(): State {
    State(InitWorld(), None, Waiting)
  }

  /** `try_send`: an event that finds the queue full is dropped. */
  function Ambient(w: World, i: Input): World {
    match i
    case Elapse(n) => w.(now := w.now + n)
    case Produce => if w.queued < QUEUE_CAPACITY && !w.closed then w.(queued := w.queued + 1) else w
    case CloseEvents => w.(closed := true)
    case SetShutdown(v) => w.(watch := w.watch.Set(v))
    case DropShutdown => w.(watch := w.watch.Drop())
    case Act(_) => w
  }

  function DebounceFrom(cfg: Config, now: nat): Loc {
    if cfg.debounce == 0 then Draining(BeforeCooldown) else Sleeping(now + cfg.debounce)
  }

  function CooldownFrom(cfg: Config, last: Option<nat>, now: nat): Loc {
    if last.None? || cfg.cooldown == 0 || now >= last.value + cfg.cooldown then Submitting
    else Cooling(last.value + cfg.cooldown)
  }

  /** Where an emptied queue leads. */
  function Drained(cfg: Config, s: State, drain: Drain): Loc {
    match drain
    case BeforeCooldown => CooldownFrom(cfg, s.last, s.world.now)
    case AfterCooldown => Submitting
    case AfterRun(saw) => if saw then DebounceFrom(cfg, s.world.now) else Waiting
  }

  /** A wait that also watches for shutdown: another change of the watch ends it as if it were over. */
  function WatchDuring(s: State, over: State): State {
    if !s.world.watch.Ready() then s
    else if s.world.watch.Stops() then s.(world := s.world.(watch := s.world.watch.Taken()), loc := Stopped)
    else over.(world := over.world.(watch := s.world.watch.Taken()))
  }

  function Finish(s: State): State {
    s.(last := Some(s.world.now), loc := Draining(AfterRun(false)))
  }

  function ActStep(cfg: Config, s: State, choice: Choice): State {
    match s.loc
    case Waiting =>
      (match choice
       case Receive =>
         if s.world.queued > 0 then
           s.(world := s.world.(queued := s.world.queued - 1), loc := DebounceFrom(cfg, s.world.now))
         else if s.world.closed then s.(loc := Stopped)
         else s
       case TakeWatch => WatchDuring(s, s)
       case _ => s)
    case Sleeping(until) =>
      (match choice
       case TimerFires => if s.world.now >= until then s.(loc := Draining(BeforeCooldown)) else s
       case TakeWatch => WatchDuring(s, s.(loc := Draining(BeforeCooldown)))
       case _ => s)
    case Draining(drain) =>
      if s.world.queued > 0 then
        s.(world := s.world.(queued := s.world.queued - 1),
           loc := Draining(if drain.AfterRun? then AfterRun(true) else drain))
      else s.(loc := Drained(cfg, s, drain))
    case Cooling(until) =>
      (match choice
       case TimerFires => if s.world.now >= until then s.(loc := Draining(AfterCooldown)) else s
       case TakeWatch => WatchDuring(s, s.(loc := Draining(AfterCooldown)))
       case _ => s)
    case Submitting =>
      (match choice
       case Submitted => s.(loc := Awaiting)
       case SubmitFailed => Finish(s)
       case TakeWatch => WatchDuring(s, Finish(s))
       case _ => s)
    case Awaiting =>
      (match choice
       case Reported => Finish(s)
       case TakeWatch => WatchDuring(s, Finish(s))
       case _ => s)
    case Stopped => s
  }

  function Step(cfg: Config, s: State, i: Input): State {
    if i.Act? then ActStep(cfg, s, i.choice) else s.(world := Ambient(s.world, i))
  }

  function Run(cfg: Config, s: State, script: seq<Input>): State {
    if script == [] then s
    else Step(cfg, Run(cfg, s, script[..|script| - 1]), script[|script| - 1])
  }

  lemma RunStep(cfg: Config, s: State, script: seq<Input>, n: nat)
    requires n < |script|
    ensures Run(cfg, s, script[..n + 1]) == Step(cfg, Run(cfg, s, script[..n]), script[n])
  {
    assert script[..n + 1][..n] == script[..n];
  }
}
