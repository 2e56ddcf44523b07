/**
 * One command lane as a machine of atomic steps. A schedule is a sequence of inputs: what the rest of
 * the program does to the lane (time passes, a request is sent, the shutdown flag moves) and `Act`,
 * one atomic action of the lane's own task, with the branch its `select!` takes when it has one.
 */
module Lane {
  import opened Watching
  import opened PendingQueue

  const CHANNEL_CAPACITY := 64
  const UNKNOWN_COMMAND := "unknown command"

  datatype RunResult = Ran(success: bool) | CouldNotRun(error: string)

  datatype Report = Outcome(success: bool) | Error(error: string) | Cancelled

  datatype Note = Started | Finished(report: Report)

  /** What the lane does that time and order matter for. `cut` marks a cooldown that a watch change
      other than shutdown ended early; `sent` is how many requests had been sent by then. */
  datatype Obs =
    | Began(command: Command, at: nat, served: seq<nat>, cut: bool, sent: nat)
    | Ended(command: Command, at: nat, report: Report)

  /** What the lane shares with the other tasks. Request `id` is the one sent as number `id`: it asks for
      `asked[id]` and reads its lifecycle from `inbox[id]`. The request channel holds `asked[received..]`. */
  datatype World = World(
    now: nat,
    asked: seq<Command>,
    received: nat,
    closed: bool,
    inbox: seq<seq<Note>>,
    watch: Watch,
    history: seq<Obs>)
  {
    predicate HasRequest() {
      received < |asked|
    }
  }

  /** Where the lane's task stands. */
  datatype Loc =
    | Idle                                                     // the select of `run`, nothing pending
    | Choosing                                                 // about to pop the next command
    | Cooling(command: Command, ids: seq<nat>, runAt: nat)     // the select of `wait_for_min_interval`
    | Running(command: Command, ids: seq<nat>)
    | Draining                                                 // `drain_requests` after a run
    | Stopped

  datatype State = State(world: World, pending: Pending, last: map<Command, nat>, loc: Loc)

  /** The lane's commands with their `min_interval`. */
  type Config = map<Command, nat>

  datatype Choice = Proceed | Receive | TakeWatch | TimerFires | Completes(result: RunResult)

  datatype Input =
    | Elapse(duration: nat)
    | Send(command: Command)
    | SetShutdown(value: bool)
    | DropShutdown
    | CloseRequests
    | Act(choice: Choice)

  function InitWorld(): World {
    World(0, [], 0, false, [], NOT_SHUT_DOWN, [])
  }

  function Init(): State {
    State(InitWorld(), EMPTY, map[], Idle)
  }

  /** What the other tasks do. A full channel makes the sender wait, so nothing is sent yet;
      a stopped lane has dropped its receiver, so sending fails. */
  function Ambient(w: World, i: Input, stopped: bool): World {
    match i
    case Elapse(n) => w.(now := w.now + n)
    case Send(c) =>
      if stopped || w.closed || |w.asked| >= w.received + CHANNEL_CAPACITY then w
      else w.(asked := w.asked + [c], inbox := w.inbox + [[]])
    case SetShutdown(v) => w.(watch := w.watch.Set(v))
    case DropShutdown => w.(watch := w.watch.Drop())
    case CloseRequests => w.(closed := true)
    case Act(_) => w
  }

  function Deliver(inbox: seq<seq<Note>>, ids: seq<nat>, note: Note): seq<seq<Note>> {
    seq(|inbox|, i requires 0 <= i < |inbox| => if i in ids then inbox[i] + [note] else inbox[i])
  }

  /** `cancel_pending`: each waiter of each pending command gets its Finished. */
  function CancelAll(inbox: seq<seq<Note>>, p: Pending): seq<seq<Note>> {
    seq(|inbox|, i requires 0 <= i < |inbox| =>
      if exists c | c in p.waiters :: i in p.waiters[c] then inbox[i] + [Finished(Cancelled)] else inbox[i])
  }

  function Stop(s: State, current: seq<nat>): State {
    var inbox := Deliver(s.world.inbox, current, Finished(Cancelled));
    State(s.world.(inbox := CancelAll(inbox, s.pending)), EMPTY, s.last, Stopped)
  }

  function Begin(s: State, c: Command, ids: seq<nat>, cut: bool): State {
    var w := s.world;
    s.(world := w.(inbox := Deliver(w.inbox, ids, Started),
                   history := w.history + [Began(c, w.now, ids, cut, |w.asked|)]),
       loc := Running(c, ids))
  }

  /** Takes the request at the head of the channel into the pending queue. */
  function TakeIn(s: State): State
    requires s.world.HasRequest()
  {
    var id := s.world.received;
    s.(world := s.world.(received := id + 1), pending := Pushed(s.pending, s.world.asked[id], id))
  }

  function ActIdle(s: State, choice: Choice): State {
    match choice
    case TakeWatch =>
      if !s.world.watch.Ready() then s
      else
        var t := s.(world := s.world.(watch := s.world.watch.Taken()));
        if s.world.watch.Stops() then Stop(t, []) else t.(loc := Choosing)
    case Receive =>
      if s.world.HasRequest() then TakeIn(s).(loc := Choosing)
      else if s.world.closed then Stop(s, [])
      else s
    case _ => s
  }

  /** When a command that last finished at `last` may run again. */
  function RunAt(cfg: Config, last: map<Command, nat>, c: Command): nat
    requires c in cfg
  {
    if c in last && cfg[c] != 0 then last[c] + cfg[c] else 0
  }

  function ActChoosing(cfg: Config, s: State): State {
    var (next, popped) := PopNext(s.pending);
    if next.None? then s.(pending := popped, loc := Idle)
    else
      var c := next.value;
      var ids := Waiting(popped, c);
      var t := s.(pending := Without(popped, c));
      if c !in cfg then
        t.(world := t.world.(inbox := Deliver(t.world.inbox, ids, Finished(Error(UNKNOWN_COMMAND)))))
      else if s.world.now >= RunAt(cfg, s.last, c) then Begin(t, c, ids, false)
      else t.(loc := Cooling(c, ids, RunAt(cfg, s.last, c)))
  }

  function ActCooling(s: State, choice: Choice): State
    requires s.loc.Cooling?
  {
    var Cooling(c, ids, runAt) := s.loc;
    match choice
    case TimerFires =>
      if s.world.now >= runAt then Begin(s, c, ids, false) else s
    case TakeWatch =>
      if !s.world.watch.Ready() then s
      else
        var t := s.(world := s.world.(watch := s.world.watch.Taken()));
        if s.world.watch.Stops() then Stop(t, ids) else Begin(t, c, ids, true)
    case Receive =>
      if s.world.HasRequest() then
        var id := s.world.received;
        if s.world.asked[id] == c then
          s.(world := s.world.(received := id + 1), loc := Cooling(c, ids + [id], runAt))
        else TakeIn(s)
      else if s.world.closed then Stop(s, ids)
      else s
    case _ => s
  }

  function ToReport(r: RunResult): Report {
    match r
    case Ran(success) => Outcome(success)
    case CouldNotRun(e) => Error(e)
  }

  function ActRunning(s: State, choice: Choice): State
    requires s.loc.Running?
  {
    match choice
    case Completes(result) =>
      var w := s.world;
      var report := ToReport(result);
      State(w.(inbox := Deliver(w.inbox, s.loc.ids, Finished(report)),
               history := w.history + [Ended(s.loc.command, w.now, report)]),
            s.pending, s.last[s.loc.command := w.now], Draining)
    case _ => s
  }

  function ActDraining(s: State): State {
    if s.world.HasRequest() then TakeIn(s)
    else if s.world.watch.value then Stop(s, [])
    else s.(loc := Choosing)
  }

  /** One atomic action of the lane's task. */
  function ActStep(cfg: Config, s: State, choice: Choice): State {
    match s.loc
    case Idle => ActIdle(s, choice)
    case Choosing => ActChoosing(cfg, s)
    case Cooling(_, _, _) => ActCooling(s, choice)
    case Running(_, _) => ActRunning(s, choice)
    case Draining => ActDraining(s)
    case Stopped => s
  }

  function Step(cfg: Config, s: State, i: Input): State {
    if i.Act? then ActStep(cfg, s, i.choice)
    else s.(world := Ambient(s.world, i, s.loc.Stopped?))
  }

  /** The state after a schedule. */
  function Run(cfg: Config, s: State, script: seq<Input>): State {
    if script == [] then s
    else Step(cfg, Run(cfg, s, script[..|script| - 1]), script[|script| - 1])
  }

  lemma RunStep(cfg: Config, s: State, script: seq<Input>, n: nat)
    requires n < |script|
    ensures Run(cfg, s, script[..n + 1]) == Step(cfg, Run(cfg, s, script[..n]), script[n])
  {
    assert script[..n + 1][..n] == script[..n];
  }
}
