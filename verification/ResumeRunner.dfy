/** `SystemResumeRunner` as it is written, driven by a schedule: it goes through exactly the states of the machine. */
module ResumeRunner {
  import opened Options
  import opened SourceTask
  import opened Watching
  import opened ResumeWait

  /** How a part of the loop ends: it is over, the task ends, or the schedule ends during it. */
  datatype Wait = Over | Ended | Suspended

  class SystemResumeRunner {
    const settle: nat
    const script: seq<Input>
    var pos: nat
    var world: World
    ghost var loc: Loc

    ghost function View(): State
      reads this
    {
      State(world, loc)
    }

    ghost predicate Valid()
      reads this
    {
      pos <= |script| && View() == Run(settle, Init(), script[..pos])
    }

    ghost predicate LeadsTo(next: State)
      reads this
    {
      pos < |script| && script[pos].Act? && Step(settle, Run(settle, Init(), script[..pos]), script[pos]) == next
    }

    constructor (settle: nat, script: seq<Input>)
      ensures this.settle == settle && this.script == script
      ensures Valid() && pos == 0 && loc.Waiting?
    {
      this.settle, this.script := settle, script;
      pos, world, loc := 0, World(0, 0, false, NOT_SHUT_DOWN, []), Waiting;
    }

    /** Ends the current atomic action. */
    method Commit(ghost next: Loc)
      requires LeadsTo(View().(loc := next))
      modifies this`pos, this`loc
      ensures Valid() && pos == old(pos) + 1 && loc == next
    {
      RunStep(settle, Init(), script, pos);
      pos := pos + 1;
      loc := next;
    }

    /** Lets the other tasks act until this one does. */
    method Poll() returns (choice: Option<Choice>)
      requires Valid()
      modifies this`pos, this`world
      ensures Valid() && pos >= old(pos)
      ensures choice.None? ==> pos == |script|
      ensures choice.Some? ==> pos < |script| && script[pos] == Act(choice.value)
    {
      while pos < |script|
        invariant Valid() && pos >= old(pos)
        decreases |script| - pos
      {
        if script[pos].Act? {
          return Some(script[pos].choice);
        }
        OthersAct();
      }
      choice := None;
    }

    method OthersAct()
      requires Valid() && pos < |script| && !script[pos].Act?
      modifies this`pos, this`world
      ensures Valid() && pos == old(pos) + 1
    {
      RunStep(settle, Init(), script, pos);
      world := Ambient(world, script[pos]);
      pos := pos + 1;
    }

    method Note(mark: Mark)
      modifies this`world
      ensures world == old(world).(log := old(world).log + [mark])
    {
      world := world.(log := world.log + [mark]);
    }

    /** Takes one wake-up from the queue. */
    method HearOne()
      requires world.queued > 0
      modifies this`world
      ensures world == Hear(old(world))
    {
      world := world.(queued := world.queued - 1);
      Note(Heard(world.now));
    }

    /** `drain_events`: empties the queue and says whether it held anything. The action that finds it empty is left to the
        caller. */
    method DrainEvents() returns (saw: bool, suspended: bool)
      requires Valid() && (loc.Emptying? || loc == Draining(false))
      modifies this
      ensures Valid() && pos >= old(pos) && loc == if old(loc).Emptying? then Emptying else Draining(saw)
      ensures suspended ==> pos == |script|
      ensures !suspended ==> pos < |script| && script[pos].Act? && world.queued == 0
    {
      saw, suspended := false, false;
      while true
        invariant Valid() && pos >= old(pos) && loc == if old(loc).Emptying? then Emptying else Draining(saw)
        decreases |script| - pos
      {
        var choice := Poll();
        if choice.None? {
          suspended := true;
          return;
        }
        if world.queued == 0 {
          return;
        }
        HearOne();
        saw := true;
        Commit(if loc.Emptying? then Emptying else Draining(true));
      }
    }

    /** The watch changed during a wait: shutdown ends the task, anything else the wait. What follows is left to the
        caller. */
    method AfterWatch() returns (stops: bool)
      requires Valid() && pos < |script| && script[pos] == Act(TakeWatch) && world.watch.Ready()
      requires !loc.Emptying? && !loc.Draining? && !loc.Stopped?
      modifies this
      ensures pos >= old(pos)
      ensures stops ==> Valid() && loc.Stopped?
      ensures !stops ==>
                && pos == old(pos) && loc == old(loc) && world == old(world).(watch := old(world).watch.Taken())
                && LeadsTo(if loc.Waiting? then View() else if loc.Settling? then SetOut(View(), false)
                           else View().(loc := Draining(false)))
    {
      stops := world.watch.Stops();
      world := world.(watch := world.watch.Taken());
      if stops {
        Commit(Stopped);
      }
    }

    /** `wait_for_quiet`. */
    method WaitForQuiet() returns (wait: Wait)
      requires Valid() && View() == Settle(settle, View())
      modifies this
      ensures Valid() && pos >= old(pos)
      ensures wait.Over? ==> loc.Submitting? && pos > old(pos)
      ensures wait.Ended? ==> loc.Stopped?
      ensures wait.Suspended? ==> pos == |script|
    {
      if settle == 0 {
        var saw, suspended := DrainEvents();
        if suspended {
          return Suspended;
        }
        Note(Attempt(world.now, true));
        Commit(Submitting);
        return Over;
      }
      var settleUntil: nat := world.now + settle;
      while true
        invariant Valid() && pos >= old(pos) && loc == Settling(settleUntil)
        decreases |script| - pos
      {
        var choice := Poll();
        if choice.None? {
          return Suspended;
        }
        if choice.value.TimerFires? && world.now >= settleUntil {
          Note(Attempt(world.now, true));
          Commit(Submitting);
          return Over;
        }
        if choice.value.Receive? && world.queued > 0 {
          HearOne();
          settleUntil := world.now + settle;
          Commit(Settling(settleUntil));
          continue;
        }
        if choice.value.Receive? && world.closed {
          Note(Attempt(world.now, false));
          Commit(Submitting);
          return Over;
        }
        if choice.value.TakeWatch? && world.watch.Ready() {
          var stops := AfterWatch();
          if stops {
            return Ended;
          }
          Note(Attempt(world.now, false));
          Commit(Submitting);
          return Over;
        }
        Commit(loc);
      }
    }

    /** `run_once`. */
    method RunOnce() returns (wait: Wait)
      requires Valid() && loc.Submitting?
      modifies this
      ensures Valid() && pos >= old(pos)
      ensures wait.Over? ==> loc == Draining(false)
      ensures wait.Ended? ==> loc.Stopped?
      ensures wait.Suspended? ==> pos == |script|
    {
      var taken := false;
      while true
        invariant Valid() && pos >= old(pos) && loc == if taken then Awaiting else Submitting
        decreases |script| - pos
      {
        var choice := Poll();
        if choice.None? {
          return Suspended;
        }
        if (!taken && choice.value.SubmitFailed?) || (taken && choice.value.Reported?) {
          Commit(Draining(false));
          return Over;
        }
        if choice.value.TakeWatch? && world.watch.Ready() {
          var stops := AfterWatch();
          if stops {
            return Ended;
          }
          Commit(Draining(false));
          return Over;
        }
        if !taken && choice.value.Submitted? {
          taken := true;
          Commit(Awaiting);
        } else {
          Commit(loc);
        }
      }
    }

    /** The inner loop of `run`: wait, submit, and again for as long as wake-ups came meanwhile. */
    method RunBatches() returns (wait: Wait)
      requires Valid() && View() == Settle(settle, View())
      modifies this
      ensures Valid() && pos >= old(pos)
      ensures wait.Over? ==> loc.Waiting? && pos > old(pos)
      ensures wait.Ended? ==> loc.Stopped?
      ensures wait.Suspended? ==> pos == |script|
    {
      while true
        invariant Valid() && pos >= old(pos) && View() == Settle(settle, View())
        decreases |script| - pos
      {
        wait := WaitForQuiet();
        if !wait.Over? {
          return;
        }
        wait := RunOnce();
        if !wait.Over? {
          return;
        }
        var saw, suspended := DrainEvents();
        if suspended {
          return Suspended;
        }
        if !saw {
          Commit(Waiting);
          return Over;
        }
        Commit(Settle(settle, View()).loc);
      }
    }

    /** `run`. Every state it goes through is the machine's, to the end of the schedule or of the task. */
    method RunSource()
      requires Valid() && loc.Waiting?
      modifies this
      ensures Valid() && (loc.Stopped? || pos == |script|)
    {
      while true
        invariant Valid() && loc.Waiting?
        decreases |script| - pos
      {
        var choice := Poll();
        if choice.None? {
          return;
        }
        if choice.value.TakeWatch? && world.watch.Ready() {
          var stops := AfterWatch();
          if stops {
            return;
          }
          Commit(Waiting);
        } else if choice.value.Receive? && world.queued > 0 {
          HearOne();
          Commit(Settle(settle, View()).loc);
          var wait := RunBatches();
          if !wait.Over? {
            return;
          }
        } else if choice.value.Receive? && world.closed {
          Commit(Stopped);
          return;
        } else {
          Commit(Waiting);
        }
      }
    }
  }
}
