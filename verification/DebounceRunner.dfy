/** `DebounceRunner` as it is written, driven by a schedule: it goes through exactly the states of the
    debounce machine. */
module DebounceRunner {
  import opened Options
  import opened SourceTask
  import opened Debounce

  /** How a wait ends: its time is up, shutdown, or the schedule ends during it. */
  datatype Wait = Over | Shutdown | Suspended

  class DebounceRunner {
    const cfg: Config
    const script: seq<Input>
    var pos: nat
    var world: World
    var lastCommandFinished: Option<nat>
    ghost var loc: Loc

    ghost function View(): State
      reads this
    {
      State(world, lastCommandFinished, loc)
    }

    ghost predicate Valid()
      reads this
    {
      pos <= |script| && View() == Run(cfg, Init(), script[..pos])
    }

    /** The next input is an action of this task and would lead to `next`. */
    ghost predicate LeadsTo(next: State)
      reads this
    {
      pos < |script| && script[pos].Act? && Step(cfg, Run(cfg, Init(), script[..pos]), script[pos]) == next
    }

    constructor (cfg: Config, script: seq<Input>)
      ensures this.cfg == cfg && this.script == script
      ensures Valid() && pos == 0 && loc.Waiting?
    {
      this.cfg, this.script := cfg, script;
      pos, world, lastCommandFinished, loc := 0, InitWorld(), None, Waiting;
    }

    /** Ends the current atomic action. */
    method Commit(ghost next: Loc)
      requires LeadsTo(View().(loc := next))
      modifies this`pos, this`loc
      ensures Valid() && pos == old(pos) + 1 && loc == next
    {
      RunStep(cfg, Init(), script, pos);
      pos := pos + 1;
      loc := next;
    }

    /** Lets the other tasks act until this one does, and says which branch of its `select!` resolves. */
    method Poll() returns (choice: Option<Choice>)
      requires Valid()
      modifies this`pos, this`world
      ensures Valid() && pos >= old(pos)
      ensures choice.None? ==> pos == |script|
      ensures choice.Some? ==> pos < |script| && script[pos] == Act(choice.value)
    {
      while pos < |script|
        invariant Valid() && pos >= old(pos)
        decreases |script| - pos
      {
        if script[pos].Act? {
          return Some(script[pos].choice);
        }
        RunStep(cfg, Init(), script, pos);
        world := Ambient(world, script[pos]);
        pos := pos + 1;
      }
      choice := None;
    }

    /** The common shape of the waits on a clock: `sleep_or_shutdown` from the point where it must really sleep. */
    method SleepOrShutdown(until: nat) returns (wait: Wait)
      requires Valid() && (loc == Sleeping(until) || loc == Cooling(until))
      modifies this
      ensures pos >= old(pos) && lastCommandFinished == old(lastCommandFinished)
      ensures wait.Over? ==> Valid() && loc == Draining(if old(loc).Sleeping? then BeforeCooldown else AfterCooldown)
      ensures wait.Shutdown? ==> Valid() && loc.Stopped?
      ensures wait.Suspended? ==> Valid() && pos == |script|
    {
      ghost var over := Draining(if loc.Sleeping? then BeforeCooldown else AfterCooldown);
      while true
        invariant Valid() && pos >= old(pos) && loc == old(loc) && lastCommandFinished == old(lastCommandFinished)
        decreases |script| - pos
      {
        var choice := Poll();
        if choice.None? {
          return Suspended;
        }
        if choice.value.TimerFires? && world.now >= until {
          Commit(over);
          return Over;
        }
        if choice.value.TakeWatch? && world.watch.Ready() {
          var stops := world.watch.Stops();
          world := world.(watch := world.watch.Taken());
          if stops {
            Commit(Stopped);
            return Shutdown;
          }
          Commit(over);
          return Over;
        }
        Commit(loc);
      }
    }

    /** `drain_events`: empties the queue and says whether it held anything. The action that finds it empty is
        left to the caller. */
    method DrainEvents() returns (saw: bool, suspended: bool)
      requires Valid() && loc.Draining? && loc.drain != AfterRun(true)
      modifies this
      ensures Valid() && pos >= old(pos) && lastCommandFinished == old(lastCommandFinished)
      ensures suspended ==> pos == |script|
      ensures !suspended ==> pos < |script| && script[pos].Act? && world.queued == 0
      ensures loc == Draining(if old(loc).drain.AfterRun? then AfterRun(saw) else old(loc).drain)
    {
      saw, suspended := false, false;
      while true
        invariant Valid() && pos >= old(pos) && lastCommandFinished == old(lastCommandFinished)
        invariant loc == Draining(if old(loc).drain.AfterRun? then AfterRun(saw) else old(loc).drain)
        decreases |script| - pos
      {
        var choice := Poll();
        if choice.None? {
          suspended := true;
          return;
        }
        if world.queued == 0 {
          return;
        }
        world := world.(queued := world.queued - 1);
        saw := true;
        Commit(if loc.drain.AfterRun? then Draining(AfterRun(true)) else loc);
      }
    }

    /** `wait_for_cooldown`, entered with the queue just found empty. */
    method WaitForCooldown() returns (wait: Wait)
      requires Valid() && loc == Draining(BeforeCooldown)
      requires pos < |script| && script[pos].Act? && world.queued == 0
      modifies this
      ensures Valid() && pos > old(pos)
      ensures wait.Over? ==> loc.Submitting?
      ensures wait.Shutdown? ==> loc.Stopped?
      ensures wait.Suspended? ==> pos == |script|
    {
      if lastCommandFinished.None? || cfg.cooldown == 0 || world.now >= lastCommandFinished.value + cfg.cooldown {
        Commit(Submitting);
        return Over;
      }
      var until := lastCommandFinished.value + cfg.cooldown;
      Commit(Cooling(until));
      wait := SleepOrShutdown(until);
      if wait.Over? {
        var saw, suspended := DrainEvents();
        if suspended {
          return Suspended;
        }
        Commit(Submitting);
      }
    }

    /** `run_once`: submits the command and waits for its end, or for shutdown. The action that ends it is
        left to the caller. */
    method RunOnce() returns (wait: Wait)
      requires Valid() && loc.Submitting?
      modifies this
      ensures pos >= old(pos) && lastCommandFinished == old(lastCommandFinished)
      ensures wait.Over? ==> LeadsTo(Debounce.Finish(View()))
      ensures wait.Shutdown? ==> Valid() && loc.Stopped?
      ensures wait.Suspended? ==> Valid() && pos == |script|
    {
      while true
        invariant Valid() && pos >= old(pos) && lastCommandFinished == old(lastCommandFinished) && loc.Submitting?
        decreases |script| - pos
      {
        var choice := Poll();
        if choice.None? {
          return Suspended;
        }
        if choice.value.SubmitFailed? {
          return Over;
        }
        if choice.value.TakeWatch? && world.watch.Ready() {
          wait := AfterWatch();
          return;
        }
        if choice.value.Submitted? {
          Commit(Awaiting);
          break;
        }
        Commit(loc);
      }
      while true
        invariant Valid() && pos >= old(pos) && lastCommandFinished == old(lastCommandFinished) && loc.Awaiting?
        decreases |script| - pos
      {
        var choice := Poll();
        if choice.None? {
          return Suspended;
        }
        if choice.value.Reported? {
          return Over;
        }
        if choice.value.TakeWatch? && world.watch.Ready() {
          wait := AfterWatch();
          return;
        }
        Commit(loc);
      }
    }

    /** The watch changed while the runner had a request out: shutdown stops it, anything else ends the wait. */
    method AfterWatch() returns (wait: Wait)
      requires Valid() && pos < |script| && script[pos] == Act(TakeWatch) && world.watch.Ready()
      requires loc.Submitting? || loc.Awaiting?
      modifies this
      ensures pos >= old(pos) && lastCommandFinished == old(lastCommandFinished)
      ensures wait.Over? ==> LeadsTo(Debounce.Finish(View()))
      ensures wait.Shutdown? ==> Valid() && loc.Stopped?
      ensures !wait.Suspended?
    {
      var stops := world.watch.Stops();
      world := world.(watch := world.watch.Taken());
      if stops {
        Commit(Stopped);
        return Shutdown;
      }
      wait := Over;
    }

    /** The inner loop of `run`: debounce, cooldown, one run, and again for as long as events came meanwhile. */
    method RunBatches() returns (wait: Wait)
      requires Valid() && (loc == DebounceFrom(cfg, world.now))
      modifies this
      ensures Valid() && pos >= old(pos)
      ensures wait.Over? ==> loc.Waiting? && pos > old(pos)
      ensures wait.Shutdown? ==> loc.Stopped?
      ensures wait.Suspended? ==> pos == |script|
    {
      while true
        invariant Valid() && pos >= old(pos) && loc == DebounceFrom(cfg, world.now)
        decreases |script| - pos
      {
        if cfg.debounce != 0 {
          wait := SleepOrShutdown(world.now + cfg.debounce);
          if !wait.Over? {
            return;
          }
        }
        var saw, suspended := DrainEvents();
        if suspended {
          return Suspended;
        }
        wait := WaitForCooldown();
        if !wait.Over? {
          return;
        }
        wait := RunOnce();
        if !wait.Over? {
          return;
        }
        lastCommandFinished := Some(world.now);
        Commit(Draining(AfterRun(false)));
        saw, suspended := DrainEvents();
        if suspended {
          return Suspended;
        }
        if saw {
          Commit(DebounceFrom(cfg, world.now));
          continue;
        }
        Commit(Waiting);
        return Over;
      }
    }

    /** `run`. Every state it goes through is the machine's, to the end of the schedule or of the task. */
    method RunSource()
      requires Valid() && loc.Waiting?
      modifies this
      ensures Valid() && (loc.Stopped? || pos == |script|)
    {
      while true
        invariant Valid() && loc.Waiting?
        decreases |script| - pos
      {
        var choice := Poll();
        if choice.None? {
          return;
        }
        if choice.value.TakeWatch? && world.watch.Ready() {
          var stops := world.watch.Stops();
          world := world.(watch := world.watch.Taken());
          if stops {
            Commit(Stopped);
            return;
          }
          Commit(loc);
          continue;
        }
        if !choice.value.Receive? {
          Commit(loc);
          continue;
        }
        if world.queued == 0 {
          if world.closed {
            Commit(Stopped);
            return;
          }
          Commit(loc);
          continue;
        }
        world := world.(queued := world.queued - 1);
        Commit(DebounceFrom(cfg, world.now));
        var wait := RunBatches();
        if !wait.Over? {
          return;
        }
      }
    }
  }
}
