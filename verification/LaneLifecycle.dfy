/** Every request the lane receives gets exactly one lifecycle, whatever the schedule. */
module LaneLifecycle {
  import opened Basics
  import opened Options
  import opened PendingQueue
  import opened Lane

  /** The requests whose run has not begun: pending, or waiting out a cooldown. */
  ghost predicate Held(s: State, id: nat)
    requires id < |s.world.asked|
  {
    || id in Waiting(s.pending, s.world.asked[id])
    || (s.loc.Cooling? && id in s.loc.ids)
  }

  ghost predicate BeingRun(s: State, id: nat) {
    s.loc.Running? && id in s.loc.ids
  }

  /** A complete lifecycle of a request for `c`: cancelled by a lane that has stopped, refused for want of the command, or
      run. */
  ghost predicate Complete(cfg: Config, stopped: bool, c: Command, notes: seq<Note>) {
    || (stopped && notes == [Finished(Cancelled)])
    || (c !in cfg && notes == [Finished(Error("unknown command"))])
    || (c in cfg && |notes| == 2 && notes[0] == Started && notes[1].Finished? && !notes[1].report.Cancelled?)
  }

  /** The lifecycle request `id` must show in state `s`. */
  ghost predicate LifecycleOk(cfg: Config, s: State, id: nat)
    requires id < |s.world.asked| == |s.world.inbox|
  {
    var notes := s.world.inbox[id];
    if id >= s.world.received || Held(s, id) then notes == []
    else if BeingRun(s, id) then notes == [Started]
    else Complete(cfg, s.loc.Stopped?, s.world.asked[id], notes)
  }

  /** All of `ids` are received requests for `c`. */
  ghost predicate AskedFor(w: World, c: Command, ids: seq<nat>) {
    forall id {:trigger id in ids} :: id in ids ==> id < w.received <= |w.asked| && w.asked[id] == c
  }

  ghost predicate CurrentOk(cfg: Config, s: State, c: Command, ids: seq<nat>) {
    && c in cfg
    && c !in s.pending.waiters
    && ids != []
    && NoDup(ids)
    && AskedFor(s.world, c, ids)
  }

  ghost predicate Shape(cfg: Config, s: State) {
    && s.world.received <= |s.world.asked| == |s.world.inbox|
    && |s.world.asked| <= s.world.received + CHANNEL_CAPACITY
    && Consistent(s.pending)
    && (forall c :: c in s.pending.waiters ==> AskedFor(s.world, c, s.pending.waiters[c]))
    && (s.loc.Cooling? ==> CurrentOk(cfg, s, s.loc.command, s.loc.ids))
    && (s.loc.Running? ==> CurrentOk(cfg, s, s.loc.command, s.loc.ids))
    && (s.loc.Idle? || s.loc.Stopped? ==> s.pending.order == [])
  }

  ghost predicate Inv(cfg: Config, s: State) {
    && Shape(cfg, s)
    && forall id :: 0 <= id < |s.world.asked| ==> LifecycleOk(cfg, s, id)
  }

  lemma EmptyPending(p: Pending)
    requires Consistent(p) && p.order == []
    ensures p == EMPTY
  {
    PopTakeKeepsConsistent(p);
  }

  lemma AmbientKeepsInv(cfg: Config, s: State, i: Input)
    requires Inv(cfg, s)
    ensures Inv(cfg, s.(world := Ambient(s.world, i, s.loc.Stopped?)))
  {
    var t := s.(world := Ambient(s.world, i, s.loc.Stopped?));
    forall id | 0 <= id < |t.world.asked| ensures LifecycleOk(cfg, t, id) {
      if id < |s.world.asked| {
        assert LifecycleOk(cfg, s, id);
      }
    }
  }

  lemma TakeInKeepsInv(cfg: Config, s: State)
    requires Inv(cfg, s) && s.world.HasRequest()
    requires s.loc.Choosing? || s.loc.Draining? || (s.loc.Cooling? && s.world.asked[s.world.received] != s.loc.command)
    ensures Inv(cfg, TakeIn(s))
  {
    var t := TakeIn(s);
    var id := s.world.received;
    var c := s.world.asked[id];
    PushKeepsConsistent(s.pending, c, id);
    forall d | d in t.pending.waiters ensures AskedFor(t.world, d, t.pending.waiters[d]) {
      if d in s.pending.waiters {
        assert AskedFor(s.world, d, s.pending.waiters[d]);
      }
    }
    forall j | 0 <= j < |t.world.asked| ensures LifecycleOk(cfg, t, j) {
      assert LifecycleOk(cfg, s, j);
      if j == id {
        assert t.pending.waiters[c][|t.pending.waiters[c]| - 1] == id;
      }
    }
  }

  lemma StopKeepsInv(cfg: Config, s: State, current: seq<nat>)
    requires Inv(cfg, s)
    requires current == if s.loc.Cooling? then s.loc.ids else []
    requires !s.loc.Running?
    ensures Inv(cfg, Stop(s, current))
  {
    var t := Stop(s, current);
    forall id | 0 <= id < |t.world.asked| ensures LifecycleOk(cfg, t, id) {
      assert LifecycleOk(cfg, s, id);
      var c := s.world.asked[id];
      if id in Waiting(s.pending, c) {
        assert c in s.pending.waiters && id in s.pending.waiters[c];
      }
    }
  }

  lemma BeginKeepsInv(cfg: Config, s: State, c: Command, ids: seq<nat>, cut: bool)
    requires Shape(cfg, s) && CurrentOk(cfg, s, c, ids)
    requires !s.loc.Running? && !s.loc.Stopped?
    requires s.loc.Cooling? ==> s.loc.ids == ids
    requires forall id :: 0 <= id < |s.world.asked| ==>
               if id in ids then s.world.inbox[id] == [] else LifecycleOk(cfg, s, id)
    ensures Inv(cfg, Begin(s, c, ids, cut))
  {
    var t := Begin(s, c, ids, cut);
    forall id | 0 <= id < |t.world.asked| ensures LifecycleOk(cfg, t, id) {
      if id in ids {
        assert s.world.asked[id] == c;
      } else {
        assert LifecycleOk(cfg, s, id);
      }
    }
  }

  /** Unless it may be popped, everything is as it must be once the group of `c` has been taken out. */
  ghost predicate TakenOut(cfg: Config, t: State, c: Command, ids: seq<nat>) {
    && Shape(cfg, t) && t.loc.Choosing?
    && ids != [] && NoDup(ids) && c !in t.pending.waiters && AskedFor(t.world, c, ids)
    && forall id :: 0 <= id < |t.world.asked| ==>
         if id in ids then t.world.inbox[id] == [] else LifecycleOk(cfg, t, id)
  }

  lemma TakeOut(cfg: Config, s: State)
    requires Inv(cfg, s) && s.loc.Choosing? && s.pending.order != []
    ensures var c := s.pending.order[0];
            && PopNext(s.pending).0 == Some(c)
            && TakenOut(cfg, s.(pending := Without(PopNext(s.pending).1, c)), c, Waiting(PopNext(s.pending).1, c))
  {
    PopTakeKeepsConsistent(s.pending);
    var c := s.pending.order[0];
    var popped := PopNext(s.pending).1;
    var ids := Waiting(popped, c);
    var t := s.(pending := Without(popped, c));
    assert AskedFor(s.world, c, ids);
    forall id | 0 <= id < |s.world.asked|
      ensures if id in ids then s.world.inbox[id] == [] else LifecycleOk(cfg, t, id)
    {
      assert LifecycleOk(cfg, s, id);
    }
  }

  lemma RefuseKeepsInv(cfg: Config, t: State, c: Command, ids: seq<nat>)
    requires TakenOut(cfg, t, c, ids) && c !in cfg
    ensures Inv(cfg, t.(world := t.world.(inbox := Deliver(t.world.inbox, ids, Finished(Error(UNKNOWN_COMMAND))))))
  {
    var u := t.(world := t.world.(inbox := Deliver(t.world.inbox, ids, Finished(Error(UNKNOWN_COMMAND)))));
    forall id | 0 <= id < |u.world.asked| ensures LifecycleOk(cfg, u, id) {
      if id in ids {
        assert t.world.asked[id] == c;
      } else {
        assert LifecycleOk(cfg, t, id);
      }
    }
  }

  lemma CoolKeepsInv(cfg: Config, t: State, c: Command, ids: seq<nat>, runAt: nat)
    requires TakenOut(cfg, t, c, ids) && c in cfg
    ensures Inv(cfg, t.(loc := Cooling(c, ids, runAt)))
  {
    var u := t.(loc := Cooling(c, ids, runAt));
    forall id | 0 <= id < |u.world.asked| ensures LifecycleOk(cfg, u, id) {
      if id !in ids {
        assert LifecycleOk(cfg, t, id);
      }
    }
  }

  lemma ChoosingKeepsInv(cfg: Config, s: State)
    requires Inv(cfg, s) && s.loc.Choosing?
    ensures Inv(cfg, ActChoosing(cfg, s))
  {
    if s.pending.order == [] {
      PopTakeKeepsConsistent(s.pending);
      forall id | 0 <= id < |s.world.asked| ensures LifecycleOk(cfg, ActChoosing(cfg, s), id) {
        assert LifecycleOk(cfg, s, id);
      }
    } else {
      TakeOut(cfg, s);
      var c := s.pending.order[0];
      var ids := Waiting(PopNext(s.pending).1, c);
      var t := s.(pending := Without(PopNext(s.pending).1, c));
      if c !in cfg {
        RefuseKeepsInv(cfg, t, c, ids);
      } else if s.world.now >= RunAt(cfg, s.last, c) {
        BeginKeepsInv(cfg, t, c, ids, false);
      } else {
        CoolKeepsInv(cfg, t, c, ids, RunAt(cfg, s.last, c));
      }
    }
  }

  lemma CoolingKeepsInv(cfg: Config, s: State, choice: Choice)
    requires Inv(cfg, s) && s.loc.Cooling?
    ensures Inv(cfg, ActCooling(s, choice))
  {
    var Cooling(c, ids, runAt) := s.loc;
    var t := s.(world := s.world.(watch := s.world.watch.Taken()));
    forall id | 0 <= id < |s.world.asked|
      ensures LifecycleOk(cfg, t, id) && (id in ids ==> s.world.inbox[id] == [])
    {
      assert LifecycleOk(cfg, s, id);
    }
    match choice {
      case TimerFires => BeginKeepsInv(cfg, s, c, ids, false);
      case TakeWatch =>
        if s.world.watch.Stops() {
          StopKeepsInv(cfg, t, ids);
        } else {
          BeginKeepsInv(cfg, t, c, ids, true);
        }
      case Receive =>
        if s.world.HasRequest() {
          var id := s.world.received;
          assert id !in ids;
          if s.world.asked[id] == c {
            var u := ActCooling(s, choice);
            assert u.loc.ids[|ids|] == id;
            forall j | 0 <= j < |u.world.asked| ensures LifecycleOk(cfg, u, j) {
              assert LifecycleOk(cfg, s, j);
            }
          } else {
            TakeInKeepsInv(cfg, s);
          }
        } else if s.world.closed {
          StopKeepsInv(cfg, s, ids);
        }
      case _ =>
    }
  }

  lemma RunningKeepsInv(cfg: Config, s: State, choice: Choice)
    requires Inv(cfg, s) && s.loc.Running?
    ensures Inv(cfg, ActRunning(s, choice))
  {
    if choice.Completes? {
      var t := ActRunning(s, choice);
      forall id | 0 <= id < |t.world.asked| ensures LifecycleOk(cfg, t, id) {
        assert LifecycleOk(cfg, s, id);
        if id in s.loc.ids {
          assert !Held(s, id);
        }
      }
    }
  }

  lemma IdleKeepsInv(cfg: Config, s: State, choice: Choice)
    requires Inv(cfg, s) && s.loc.Idle?
    ensures Inv(cfg, ActIdle(s, choice))
  {
    var t := s.(world := s.world.(watch := s.world.watch.Taken()));
    forall id | 0 <= id < |s.world.asked|
      ensures LifecycleOk(cfg, t, id) && LifecycleOk(cfg, t.(loc := Choosing), id) && LifecycleOk(cfg, s.(loc := Choosing), id)
    {
      assert LifecycleOk(cfg, s, id);
    }
    match choice {
      case TakeWatch =>
        if s.world.watch.Stops() {
          StopKeepsInv(cfg, t, []);
        }
      case Receive =>
        if s.world.HasRequest() {
          assert TakeIn(s).(loc := Choosing) == TakeIn(s.(loc := Choosing));
          TakeInKeepsInv(cfg, s.(loc := Choosing));
        } else if s.world.closed {
          StopKeepsInv(cfg, s, []);
        }
      case _ =>
    }
  }

  lemma StepKeepsInv(cfg: Config, s: State, i: Input)
    requires Inv(cfg, s)
    ensures Inv(cfg, Step(cfg, s, i))
  {
    if !i.Act? {
      AmbientKeepsInv(cfg, s, i);
    } else {
      match s.loc {
        case Idle => IdleKeepsInv(cfg, s, i.choice);
        case Choosing => ChoosingKeepsInv(cfg, s);
        case Cooling(_, _, _) => CoolingKeepsInv(cfg, s, i.choice);
        case Running(_, _) => RunningKeepsInv(cfg, s, i.choice);
        case Draining =>
          if s.world.HasRequest() {
            TakeInKeepsInv(cfg, s);
          } else if s.world.watch.value {
            StopKeepsInv(cfg, s, []);
          } else {
            forall id | 0 <= id < |s.world.asked| ensures LifecycleOk(cfg, s.(loc := Choosing), id) {
              assert LifecycleOk(cfg, s, id);
            }
          }
        case Stopped =>
      }
    }
  }

  lemma {:induction false} RunKeepsInv(cfg: Config, s: State, script: seq<Input>)
    requires Inv(cfg, s)
    ensures Inv(cfg, Run(cfg, s, script))
  {
    if script != [] {
      RunKeepsInv(cfg, s, script[..|script| - 1]);
      StepKeepsInv(cfg, Run(cfg, s, script[..|script| - 1]), script[|script| - 1]);
    }
  }

  lemma InitInv(cfg: Config)
    ensures Inv(cfg, Init())
  {
  }

  /** The channel holds 64 requests: never more wait in it, and one that is sent is taken exactly if the lane has not stopped, the
      channel is open and fewer wait. */
  lemma {:induction false} ChannelHolds64(cfg: Config, script: seq<Input>, c: Command)
    ensures var s := Run(cfg, Init(), script);
            var asked := Step(cfg, s, Send(c)).world.asked;
            && s.world.received <= |s.world.asked| <= s.world.received + 64
            && asked == if !s.loc.Stopped? && !s.world.closed && |s.world.asked| < s.world.received + 64
                        then s.world.asked + [c] else s.world.asked
  {
    InitInv(cfg);
    RunKeepsInv(cfg, Init(), script);
  }

  /** Conservation, at every point of every run: a request is still in the channel, or held, or in the one
      run there is, or it has its one complete lifecycle, and never two of these. A stopped lane holds
      nothing, so what it received is complete and only what it left in the channel hears nothing. */
  lemma {:induction false} LifecycleConservation(cfg: Config, script: seq<Input>, id: nat)
    requires id < |Run(cfg, Init(), script).world.asked|
    ensures var s := Run(cfg, Init(), script);
            && |s.world.inbox| == |s.world.asked|
            && (id >= s.world.received || Held(s, id) <==> s.world.inbox[id] == [])
            && (BeingRun(s, id) <==> s.world.inbox[id] == [Started])
            && (Complete(cfg, s.loc.Stopped?, s.world.asked[id], s.world.inbox[id]) <==>
                  id < s.world.received && !Held(s, id) && !BeingRun(s, id))
            && (s.loc.Stopped? && id < s.world.received ==> Complete(cfg, true, s.world.asked[id], s.world.inbox[id]))
  {
    InitInv(cfg);
    RunKeepsInv(cfg, Init(), script);
    var s := Run(cfg, Init(), script);
    assert LifecycleOk(cfg, s, id);
    if s.loc.Stopped? {
      EmptyPending(s.pending);
    }
    if id >= s.world.received || Held(s, id) {
      assert !BeingRun(s, id);
    }
  }
}
