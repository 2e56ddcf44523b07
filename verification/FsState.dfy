/**
 * The filesystem-state runner as a machine of atomic steps. What happens is recorded in a history whose
 * entries name, by index, the earlier entries they follow from.
 */
module FsState {
  import opened Basics
  import opened Options

  datatype Baseline = Known(state: string) | Unknown

  /** `DirtyTracker`: the times of the first and the last event noted. */
  datatype Dirty = Dirty(first: Option<nat>, last: Option<nat>) {
    function NoteNow(now: nat): Dirty {
      Dirty(if first.None? then Some(now) else first, Some(now))
    }
  }

  const CLEAN := Dirty(None, None)

  /** Where a baseline comes from: the startup read, or the read begun at entry `began` after an own command. */
  datatype Origin = Startup | AfterRun(began: nat)

  datatype Obs =
    | Seen(at: nat, suppressed: bool)
    | CheckBegan(at: nat)                        // a `state_cmd` read that will be compared
    | Compared(began: nat, at: nat, read: Option<string>, base: Option<Baseline>)  // the read begun there ends; None: it failed
    | Submitted(startup: bool, at: nat, read: Option<string>, base: Option<Baseline>)
    | RunOk(sub: nat, at: nat)                   // the command submitted at entry `sub` succeeded
    | RunFailed(sub: nat, at: nat)               // it failed, or could not be submitted or followed
    | RebaseBegan(ok: nat, at: nat)              // the read after the success at entry `ok`
    | Based(state: string, origin: Origin)       // the baseline becomes known
    | Checked(first: nat, last: nat, at: nat)    // a batch has settled

  datatype Loc =
    | StartupRead
    | AwaitWork
    | Settling(first: nat, last: nat)
    | Checking(dirty: Dirty, began: nat)
    | Submitting(startup: bool, dirty: Dirty, sub: nat)
    | AwaitingRun(startup: bool, dirty: Dirty, sub: nat, started: bool)
    | OwnSettling(dirty: Dirty, until: nat, ok: nat)
    | Rebaselining(dirty: Dirty, began: nat)
    | Stopped

  /** `armed` while the runner still waits for the startup signal, `signal` once it was given. */
  datatype World = World(now: nat, signal: bool, armed: bool, history: seq<Obs>)

  datatype State = State(world: World, baseline: Option<Baseline>, loc: Loc)

  datatype Config = Config(debounce: nat, maxDebounce: nat, selfSettle: nat, hasReader: bool, mustBeReady: bool)

  datatype ReadResult = ReadOk(state: string) | ReadFailed | ReadCancelled

  datatype Lifecycle = Started | Finished(success: bool) | Lost

  datatype Input =
    | Elapse(duration: nat)
    | GiveSignal
    | Event
    | EventsClosed
    | WatchChanged(stop: bool)
    | StartupChanged(dropped: bool)
    | TimerFires
    | ReadEnds(result: ReadResult)
    | StartEnds(ok: bool)
    | Hears(lifecycle: Lifecycle)

  function Record(w: World, e: Obs): World {
    w.(history := w.history + [e])
  }

  function Due(cfg: Config, first: nat, last: nat): nat {
    Min(last + cfg.debounce, first + cfg.maxDebounce)
  }

  // ---------- The code between two awaits ----------

  function Submit(s: State, startup: bool, read: Option<string>): State {
    s.(world := Record(s.world, Submitted(startup, s.world.now, read, s.baseline)),
       loc := Submitting(startup, CLEAN, |s.world.history|))
  }

  /** The top of `recv_work`. */
  function Await(s: State): State {
    if s.world.armed && s.world.signal then Submit(s.(world := s.world.(armed := false)), true, None)
    else s.(loc := AwaitWork)
  }

  /** `process_dirty_batch` up to its first await. */
  function Check(cfg: Config, s: State): State {
    if cfg.hasReader then
      s.(world := Record(s.world, CheckBegan(s.world.now)), loc := Checking(CLEAN, |s.world.history|))
    else Submit(s, false, None)
  }

  /** The top of `wait_for_settled_batch`. */
  function Settle(cfg: Config, s: State, first: nat, last: nat): State {
    if s.world.now >= Due(cfg, first, last) then
      Check(cfg, s.(world := Record(s.world, Checked(first, last, s.world.now))))
    else s.(loc := Settling(first, last))
  }

  /** `into_operation_result`, and what `run_inner` makes of it. */
  function Conclude(cfg: Config, s: State, dirty: Dirty): State {
    if dirty.first.None? then Await(s)
    else Settle(cfg, s, dirty.first.value, if dirty.last.Some? then dirty.last.value else dirty.first.value)
  }

  function Fail(cfg: Config, s: State, startup: bool, dirty: Dirty, sub: nat): State {
    Conclude(cfg, s.(world := Record(s.world, RunFailed(sub, s.world.now))),
             if startup then dirty else dirty.NoteNow(s.world.now))
  }

  function Rebaseline(cfg: Config, s: State, dirty: Dirty, ok: nat): State {
    if cfg.hasReader then
      s.(world := Record(s.world, RebaseBegan(ok, s.world.now)), loc := Rebaselining(dirty, |s.world.history|))
    else Conclude(cfg, s, dirty)
  }

  function Succeed(cfg: Config, s: State, dirty: Dirty, sub: nat): State {
    var ok := |s.world.history|;
    var t := s.(world := Record(s.world, RunOk(sub, s.world.now)));
    if cfg.selfSettle == 0 then Rebaseline(cfg, t, dirty, ok)
    else t.(loc := OwnSettling(dirty, s.world.now + cfg.selfSettle, ok))
  }

  function Receive(s: State, suppressed: bool): State {
    s.(world := Record(s.world, Seen(s.world.now, suppressed)))
  }

  function Base(s: State, state: string, origin: Origin): State {
    s.(world := Record(s.world, Based(state, origin)), baseline := Some(Known(state)))
  }

  /** The read begun at entry `began` ends, and is held against the baseline. */
  function Compare(s: State, began: nat, read: Option<string>): State {
    s.(world := Record(s.world, Compared(began, s.world.now, read, s.baseline)))
  }

  // ---------- One await resolves ----------

  function StartupReadStep(cfg: Config, s: State, i: Input): State {
    if !i.ReadEnds? then s
    else match i.result
      case ReadOk(state) => Await(Base(s, state, Startup))
      case ReadCancelled => s.(loc := Stopped)
      case ReadFailed => if cfg.mustBeReady then s.(loc := Stopped) else Await(s.(baseline := Some(Unknown)))
  }

  function AwaitStep(cfg: Config, s: State, i: Input): State {
    match i
    case Event => Settle(cfg, Receive(s, false), s.world.now, s.world.now)
    case EventsClosed => s.(loc := Stopped)
    case WatchChanged(stop) => if stop then s.(loc := Stopped) else Await(s)
    case StartupChanged(dropped) =>
      if !s.world.armed then s
      else if dropped then Await(s.(world := s.world.(armed := false)))
      else Await(s)
    case _ => s
  }

  function SettlingStep(cfg: Config, s: State, i: Input): State
    requires s.loc.Settling?
  {
    match i
    case TimerFires => Settle(cfg, s, s.loc.first, s.loc.last)
    case Event => Settle(cfg, Receive(s, false), s.loc.first, s.world.now)
    case EventsClosed => s.(loc := Stopped)
    case WatchChanged(stop) => if stop then s.(loc := Stopped) else Settle(cfg, s, s.loc.first, s.loc.last)
    case _ => s
  }

  function CheckingStep(cfg: Config, s: State, i: Input): State
    requires s.loc.Checking?
  {
    var Checking(dirty, began) := s.loc;
    match i
    case ReadEnds(ReadOk(state)) =>
      var t := Compare(s, began, Some(state));
      if s.baseline == Some(Known(state)) then Conclude(cfg, t, dirty) else Submit(t, false, Some(state))
    case ReadEnds(ReadFailed) => Conclude(cfg, Compare(s, began, None), dirty)
    case ReadEnds(ReadCancelled) => s.(loc := Stopped)
    case Event => Receive(s, false).(loc := Checking(dirty.NoteNow(s.world.now), began))
    case WatchChanged(stop) => if stop then s.(loc := Stopped) else s
    case _ => s
  }

  function SubmittingStep(cfg: Config, s: State, i: Input): State
    requires s.loc.Submitting?
  {
    var Submitting(startup, dirty, sub) := s.loc;
    match i
    case StartEnds(ok) =>
      if ok then s.(loc := AwaitingRun(startup, dirty, sub, false)) else Fail(cfg, s, startup, dirty, sub)
    case Event => Receive(s, false).(loc := Submitting(startup, dirty.NoteNow(s.world.now), sub))
    case WatchChanged(stop) => if stop then s.(loc := Stopped) else s
    case _ => s
  }

  function AwaitingRunStep(cfg: Config, s: State, i: Input): State
    requires s.loc.AwaitingRun?
  {
    var AwaitingRun(startup, dirty, sub, started) := s.loc;
    match i
    case Hears(Started) => s.(loc := AwaitingRun(startup, dirty, sub, true))
    case Hears(Finished(success)) =>
      if success then Succeed(cfg, s, dirty, sub) else Fail(cfg, s, startup, dirty, sub)
    case Hears(Lost) => Fail(cfg, s, startup, dirty, sub)
    case Event =>
      if started then Receive(s, true)
      else Receive(s, false).(loc := AwaitingRun(startup, dirty.NoteNow(s.world.now), sub, false))
    case WatchChanged(stop) => if stop then s.(loc := Stopped) else s
    case _ => s
  }

  function OwnSettlingStep(cfg: Config, s: State, i: Input): State
    requires s.loc.OwnSettling?
  {
    match i
    case TimerFires => if s.world.now >= s.loc.until then Rebaseline(cfg, s, s.loc.dirty, s.loc.ok) else s
    case Event => Receive(s, true)
    case WatchChanged(stop) => if stop then s.(loc := Stopped) else s
    case _ => s
  }

  function RebaseliningStep(cfg: Config, s: State, i: Input): State
    requires s.loc.Rebaselining?
  {
    var Rebaselining(dirty, began) := s.loc;
    match i
    case ReadEnds(ReadOk(state)) => Conclude(cfg, Base(s, state, AfterRun(began)), dirty)
    case ReadEnds(ReadFailed) => Conclude(cfg, s, dirty)
    case ReadEnds(ReadCancelled) => s.(loc := Stopped)
    case Event => Receive(s, true)
    case WatchChanged(stop) => if stop then s.(loc := Stopped) else s
    case _ => s
  }

  function Step(cfg: Config, s: State, i: Input): State {
    match i
    case Elapse(n) => s.(world := s.world.(now := s.world.now + n))
    case GiveSignal => s.(world := s.world.(signal := true))
    case _ =>
      match s.loc
      case StartupRead => StartupReadStep(cfg, s, i)
      case AwaitWork => AwaitStep(cfg, s, i)
      case Settling(_, _) => SettlingStep(cfg, s, i)
      case Checking(_, _) => CheckingStep(cfg, s, i)
      case Submitting(_, _, _) => SubmittingStep(cfg, s, i)
      case AwaitingRun(_, _, _, _) => AwaitingRunStep(cfg, s, i)
      case OwnSettling(_, _, _) => OwnSettlingStep(cfg, s, i)
      case Rebaselining(_, _) => RebaseliningStep(cfg, s, i)
      case Stopped => s
  }

  /** With a reader the baseline is read first; `armed` says whether there is a startup signal to wait for. */
  function Init(cfg: Config, armed: bool): State {
    State(World(0, false, armed, []), None, if cfg.hasReader then StartupRead else AwaitWork)
  }

  function Run(cfg: Config, s: State, script: seq<Input>): State {
    if script == [] then s
    else Step(cfg, Run(cfg, s, script[..|script| - 1]), script[|script| - 1])
  }

  lemma RunStep(cfg: Config, s: State, script: seq<Input>, n: nat)
    requires n < |script|
    ensures Run(cfg, s, script[..n + 1]) == Step(cfg, Run(cfg, s, script[..n]), script[n])
  {
    assert script[..n + 1][..n] == script[..n];
  }
}
