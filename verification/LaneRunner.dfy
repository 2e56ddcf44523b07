/** `CommandLaneRunner` as it is written, with its nested loops, driven by a schedule: it goes through
    exactly the states of the lane machine. */
module LaneRunner {
  import opened Basics
  import opened Options
  import opened PendingQueue
  import opened Lane
  import opened LaneLifecycle
  import LX = LaneOutcome

  /** How `wait_for_min_interval` ends; `Suspended` is the end of the schedule during the wait. */
  datatype Wait = MayRun | MustStop | Suspended

  /** How one round of `run`'s inner loop ends; `Over` is the end of the task or of the schedule. */
  datatype Flow = Next | NothingLeft | Over

  lemma DeliverOne(inbox: seq<seq<Note>>, ids: seq<nat>, k: nat, note: Note)
    requires NoDup(ids) && k < |ids| && ids[k] < |inbox|
    ensures var done := Deliver(inbox, ids[..k], note);
            Deliver(inbox, ids[..k + 1], note) == done[ids[k] := done[ids[k]] + [note]]
  {
    assert ids[..k + 1] == ids[..k] + [ids[k]];
  }

  /** Cancelling one more group of a pending queue. */
  lemma CancelOne(inbox: seq<seq<Note>>, all: map<Command, seq<nat>>, rest: map<Command, seq<nat>>, c: Command)
    requires c in rest && rest.Keys <= all.Keys && forall d :: d in rest ==> rest[d] == all[d]
    requires forall d, e, id {:trigger id in all[d], id in all[e]} ::
               d in all && e in all && id in all[d] && id in all[e] ==> d == e
    ensures CancelAll(inbox, Pending([], all - (rest - {c}).Keys))
         == Deliver(CancelAll(inbox, Pending([], all - rest.Keys)), all[c], Finished(Cancelled))
  {
    var before := Pending([], all - rest.Keys);
    var after := Pending([], all - (rest - {c}).Keys);
    forall i | 0 <= i < |inbox|
      ensures CancelAll(inbox, after)[i] == Deliver(CancelAll(inbox, before), all[c], Finished(Cancelled))[i]
    {
      if i in all[c] {
        assert c in after.waiters;
        forall d | d in before.waiters ensures i !in before.waiters[d] {
          assert before.waiters[d] == all[d];
        }
      } else if d :| d in after.waiters && i in after.waiters[d] {
        assert d in before.waiters;
      } else {
        forall d | d in before.waiters ensures i !in before.waiters[d] {
          assert d in after.waiters;
        }
      }
    }
  }

  class CommandLaneRunner {
    const commands: Config
    const script: seq<Input>
    var pos: nat
    var world: World
    const pending: PendingRequests
    var lastFinished: map<Command, nat>
    ghost var loc: Loc

    ghost function View(): State
      reads this, pending
    {
      State(world, pending.View(), lastFinished, loc)
    }

    /** The machine's state after the part of the schedule that has been used. */
    ghost function Reached(): State
      reads this
      requires pos <= |script|
    {
      Run(commands, Init(), script[..pos])
    }

    ghost predicate Valid()
      reads this, pending
    {
      pos <= |script| && View() == Reached() && Inv(commands, View())
    }

    /** The next input is an action of this task and would lead to `next`. */
    ghost predicate LeadsTo(next: State)
      reads this
    {
      pos < |script| && script[pos].Act? && Step(commands, Reached(), script[pos]) == next
    }

    constructor (commands: Config, script: seq<Input>)
      ensures this.commands == commands && this.script == script
      ensures Valid() && pos == 0 && fresh(pending) && loc.Idle?
    {
      this.commands, this.script := commands, script;
      pos, world, lastFinished, loc := 0, InitWorld(), map[], Idle;
      pending := new PendingRequests();
      new;
      InitInv(commands);
    }

    /** Ends the current atomic action. */
    method Commit(ghost next: Loc)
      requires LeadsTo(View().(loc := next)) && Inv(commands, Reached())
      modifies this`pos, this`loc
      ensures Valid() && pos == old(pos) + 1 && loc == next
    {
      RunStep(commands, Init(), script, pos);
      StepKeepsInv(commands, Reached(), script[pos]);
      pos := pos + 1;
      loc := next;
    }

    /** Lets the other tasks act until this one does, and says which branch of its `select!` resolves. */
    method Poll() returns (choice: Option<Choice>)
      requires Valid() && !loc.Stopped?
      modifies this`pos, this`world
      ensures Valid() && pos >= old(pos)
      ensures choice.None? ==> pos == |script|
      ensures choice.Some? ==> pos < |script| && script[pos] == Act(choice.value)
    {
      while pos < |script|
        invariant Valid() && pos >= old(pos)
        decreases |script| - pos
      {
        if script[pos].Act? {
          return Some(script[pos].choice);
        }
        OthersAct();
      }
      choice := None;
    }

    method OthersAct()
      requires Valid() && !loc.Stopped? && pos < |script| && !script[pos].Act?
      modifies this`pos, this`world
      ensures Valid() && pos == old(pos) + 1
    {
      RunStep(commands, Init(), script, pos);
      StepKeepsInv(commands, View(), script[pos]);
      world := Ambient(world, script[pos], false);
      pos := pos + 1;
    }

    /** `start_waiters` and `finish_waiters`. */
    method SendEach(ids: seq<nat>, note: Note)
      requires NoDup(ids) && forall id :: id in ids ==> id < |world.inbox|
      modifies this`world
      ensures world == old(world).(inbox := Deliver(old(world.inbox), ids, note))
    {
      var k := 0;
      assert Deliver(world.inbox, ids[..0], note) == world.inbox;
      while k < |ids|
        invariant k <= |ids|
        invariant world == old(world).(inbox := Deliver(old(world.inbox), ids[..k], note))
      {
        var id := ids[k];
        assert id in ids;
        DeliverOne(old(world.inbox), ids, k, note);
        world := world.(inbox := world.inbox[id := world.inbox[id] + [note]]);
        k := k + 1;
      }
      assert ids[..|ids|] == ids;
    }

    /** `cancel_pending`: the groups of the map, in whatever order it yields them. */
    method CancelPending()
      requires Consistent(pending.View())
      requires forall c :: c in pending.waiters ==> AskedFor(world, c, pending.waiters[c])
      requires |world.inbox| == |world.asked|
      modifies this`world, pending
      ensures world == old(world).(inbox := CancelAll(old(world.inbox), old(pending.View())))
      ensures pending.View() == EMPTY
    {
      var rest := pending.waiters;
      ghost var all := pending.waiters;
      assert CancelAll(world.inbox, Pending([], all - rest.Keys)) == world.inbox;
      while rest != map[]
        invariant rest.Keys <= all.Keys && forall d :: d in rest ==> rest[d] == all[d]
        invariant world == old(world).(inbox := CancelAll(old(world.inbox), Pending([], all - rest.Keys)))
        decreases |rest|
      {
        var c :| c in rest;
        assert AskedFor(old(world), c, all[c]);
        forall d, e, id | d in all && e in all && id in all[d] && id in all[e] ensures d == e {
          assert AskedFor(old(world), d, all[d]) && AskedFor(old(world), e, all[e]);
        }
        CancelOne(old(world.inbox), all, rest, c);
        SendEach(rest[c], Finished(Cancelled));
        rest := rest - {c};
      }
      assert all - rest.Keys == all;
      assert CancelAll(old(world.inbox), Pending([], all)) == CancelAll(old(world.inbox), old(pending.View()));
      pending.order, pending.waiters := [], map[];
    }

    /** Cancels the current group and everything pending; the task returns. */
    method StopLane(current: seq<nat>)
      requires pos < |script| && Inv(commands, Reached())
      requires LeadsTo(Stop(View(), current))
      requires NoDup(current) && forall id :: id in current ==> id < |world.inbox|
      requires Consistent(pending.View()) && |world.inbox| == |world.asked|
      requires forall c :: c in pending.waiters ==> AskedFor(world, c, pending.waiters[c])
      modifies this, pending
      ensures Valid() && loc.Stopped? && pos == old(pos) + 1
    {
      SendEach(current, Finished(Cancelled));
      CancelPending();
      Commit(Stopped);
    }

    method TakeRequest() returns (id: nat)
      requires world.HasRequest()
      modifies this`world
      ensures id == old(world.received) && world == old(world).(received := id + 1)
    {
      id := world.received;
      world := world.(received := id + 1);
    }

    /** A request that arrives during the cooldown joins the waiting group or the pending queue. */
    method CoalesceOrPush(command: Command, waiters: seq<nat>, runAt: nat) returns (ids: seq<nat>)
      requires Valid() && loc == Cooling(command, waiters, runAt)
      requires pos < |script| && script[pos] == Act(Receive) && world.HasRequest()
      modifies this, pending
      ensures Valid() && pos == old(pos) + 1 && loc == Cooling(command, ids, runAt)
      ensures lastFinished == old(lastFinished)
    {
      ids := waiters;
      var id := TakeRequest();
      if world.asked[id] == command {
        ids := ids + [id];
      } else {
        pending.Push(world.asked[id], id);
      }
      Commit(Cooling(command, ids, runAt));
    }

    /** `wait_for_min_interval`. What ends it is left to the caller to act on. */
    method WaitForMinInterval(command: Command, waiters: seq<nat>) returns (wait: Wait, ids: seq<nat>, cut: bool)
      requires command in commands && CurrentOk(commands, View(), command, waiters) && !loc.Cooling?
      requires pos < |script| && Inv(commands, Reached()) && Shape(commands, View())
      requires LeadsTo(if world.now >= RunAt(commands, lastFinished, command) then Begin(View(), command, waiters, false)
                       else View().(loc := Cooling(command, waiters, RunAt(commands, lastFinished, command))))
      modifies this, pending
      ensures pos >= old(pos) && pos <= |script| && Inv(commands, Reached())
      ensures wait.Suspended? ==> Valid() && pos == |script|
      ensures wait.MayRun? ==> LeadsTo(Begin(View(), command, ids, cut))
      ensures wait.MustStop? ==> LeadsTo(Stop(View(), ids))
      ensures !wait.Suspended? ==> Shape(commands, View()) && CurrentOk(commands, View(), command, ids)
    {
      ids, cut := waiters, false;
      if command !in lastFinished || commands[command] == 0 {
        return MayRun, ids, cut;
      }
      var runAt := lastFinished[command] + commands[command];
      if world.now >= runAt {
        return MayRun, ids, cut;
      }
      Commit(Cooling(command, ids, runAt));
      wait, ids, cut := CoolDown(command, ids, runAt);
    }

    /** Its select loop. */
    method CoolDown(command: Command, waiters: seq<nat>, runAt: nat) returns (wait: Wait, ids: seq<nat>, cut: bool)
      requires Valid() && loc == Cooling(command, waiters, runAt)
      modifies this, pending
      ensures pos >= old(pos) && pos <= |script| && Inv(commands, Reached())
      ensures wait.Suspended? ==> Valid() && pos == |script|
      ensures wait.MayRun? ==> LeadsTo(Begin(View(), command, ids, cut))
      ensures wait.MustStop? ==> LeadsTo(Stop(View(), ids))
      ensures !wait.Suspended? ==> Shape(commands, View()) && CurrentOk(commands, View(), command, ids)
    {
      ids, cut := waiters, false;
      while true
        invariant Valid() && pos >= old(pos) && loc == Cooling(command, ids, runAt)
        decreases |script| - pos
      {
        var choice := Poll();
        if choice.None? {
          return Suspended, ids, cut;
        }
        match choice.value {
          case TimerFires =>
            if world.now >= runAt {
              return MayRun, ids, cut;
            }
            Commit(loc);
          case TakeWatch =>
            if world.watch.Ready() {
              var stops := world.watch.Stops();
              world := world.(watch := world.watch.Taken());
              wait, cut := if stops then MustStop else MayRun, !stops;
              return;
            }
            Commit(loc);
          case Receive =>
            if world.HasRequest() {
              ids := CoalesceOrPush(command, ids, runAt);
            } else if world.closed {
              return MustStop, ids, cut;
            } else {
              Commit(loc);
            }
          case _ =>
            Commit(loc);
        }
      }
    }

    /** `run_command`: the executor's future resolves with a result. */
    method RunCommand() returns (report: Option<Report>)
      requires Valid() && loc.Running?
      modifies this`pos, this`world, this`loc
      ensures Valid() && pos >= old(pos) && loc == old(loc) && lastFinished == old(lastFinished)
      ensures report.None? ==> pos == |script|
      ensures report.Some? ==> pos < |script| && script[pos].Act? && script[pos].choice.Completes?
                               && report.value == ToReport(script[pos].choice.result)
                               && LX.Tells(report.value, script[pos].choice.result)
    {
      while true
        invariant Valid() && pos >= old(pos) && loc == old(loc)
        decreases |script| - pos
      {
        var choice := Poll();
        if choice.None? {
          return None;
        }
        if choice.value.Completes? {
          return Some(ToReport(choice.value.result));
        }
        Commit(loc);
      }
    }

    /** `drain_requests` and the shutdown test after it. */
    method DrainRequests() returns (goOn: bool)
      requires Valid() && loc.Draining?
      modifies this, pending
      ensures Valid() && pos >= old(pos)
      ensures goOn ==> loc.Choosing?
      ensures !goOn ==> loc.Stopped? || pos == |script|
    {
      while true
        invariant Valid() && pos >= old(pos) && loc.Draining?
        decreases |script| - pos
      {
        var choice := Poll();
        if choice.None? {
          return false;
        }
        if !world.HasRequest() {
          break;
        }
        var id := TakeRequest();
        pending.Push(world.asked[id], id);
        Commit(loc);
      }
      if world.watch.value {
        StopLane([]);
        return false;
      }
      Commit(Choosing);
      goOn := true;
    }

    /** The select of `run` while nothing is pending. */
    method AwaitRequest() returns (goOn: bool)
      requires Valid() && loc.Idle?
      modifies this, pending
      ensures Valid() && pos >= old(pos)
      ensures goOn ==> loc.Choosing? && pos > old(pos)
      ensures !goOn ==> loc.Stopped? || pos == |script|
    {
      while true
        invariant Valid() && pos >= old(pos) && loc.Idle?
        decreases |script| - pos
      {
        var choice := Poll();
        if choice.None? {
          return false;
        }
        match choice.value {
          case TakeWatch =>
            if world.watch.Ready() {
              var stops := world.watch.Stops();
              world := world.(watch := world.watch.Taken());
              if stops {
                StopLane([]);
                return false;
              }
              Commit(Choosing);
              return true;
            }
            Commit(loc);
          case Receive =>
            if world.HasRequest() {
              var id := TakeRequest();
              pending.Push(world.asked[id], id);
              Commit(Choosing);
              return true;
            }
            if world.closed {
              StopLane([]);
              return false;
            }
            Commit(loc);
          case _ =>
            Commit(loc);
        }
      }
    }

    /** `run`. Every state it goes through is the machine's, to the end of the schedule or of the task. */
    method RunLane()
      requires Valid() && loc.Idle?
      modifies this, pending
      ensures Valid() && (loc.Stopped? || pos == |script|)
    {
      while true
        invariant Valid() && loc.Idle?
        decreases |script| - pos
      {
        var empty := pending.IsEmpty();
        assert empty;
        var goOn := AwaitRequest();
        if !goOn {
          return;
        }
        var flow := NothingLeft;
        while true
          invariant Valid() && loc.Choosing?
          decreases |script| - pos
        {
          flow := ServeNext();
          if !flow.Next? {
            break;
          }
        }
        if flow.Over? {
          return;
        }
      }
    }

    /** The body of the inner loop of `run`: one command popped, refused or run. */
    method ServeNext() returns (flow: Flow)
      requires Valid() && loc.Choosing?
      modifies this, pending
      ensures Valid() && pos >= old(pos)
      ensures flow.Next? ==> loc.Choosing? && pos > old(pos)
      ensures flow.NothingLeft? ==> loc.Idle?
      ensures flow.Over? ==> loc.Stopped? || pos == |script|
    {
      var choice := Poll();
      if choice.None? {
        return Over;
      }
      PopTakeKeepsConsistent(pending.View());
      var next := pending.PopNextCommand();
      if next.None? {
        Commit(Idle);
        return NothingLeft;
      }
      var command := next.value;
      var waiters := pending.TakeWaiters(command);
      assert AskedFor(world, command, waiters);
      if command !in commands {
        SendEach(waiters, Finished(Error(UNKNOWN_COMMAND)));
        Commit(loc);
        return Next;
      }
      var wait, cut;
      wait, waiters, cut := WaitForMinInterval(command, waiters);
      match wait {
        case Suspended =>
          flow := Over;
        case MustStop =>
          StopLane(waiters);
          flow := Over;
        case MayRun =>
          flow := RunGroup(command, waiters, cut);
      }
    }

    /** Starts the waiters, runs the command, finishes the waiters and drains. */
    method RunGroup(command: Command, waiters: seq<nat>, cut: bool) returns (flow: Flow)
      requires LeadsTo(Begin(View(), command, waiters, cut)) && Inv(commands, Reached())
      requires NoDup(waiters) && forall id :: id in waiters ==> id < |world.inbox|
      modifies this, pending
      ensures Valid() && pos > old(pos)
      ensures flow.Next? ==> loc.Choosing?
      ensures !flow.Next? ==> flow.Over? && (loc.Stopped? || pos == |script|)
    {
      SendEach(waiters, Started);
      world := world.(history := world.history + [Began(command, world.now, waiters, cut, |world.asked|)]);
      Commit(Running(command, waiters));
      var report := RunCommand();
      if report.None? {
        return Over;
      }
      lastFinished := lastFinished[command := world.now];
      SendEach(waiters, Finished(report.value));
      world := world.(history := world.history + [Ended(command, world.now, report.value)]);
      Commit(Draining);
      var goOn := DrainRequests();
      flow := if goOn then Next else Over;
    }
  }
}
