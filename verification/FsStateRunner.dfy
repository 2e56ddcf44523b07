/** `FsStateRunner` as it is written, driven by a schedule: it goes through exactly the states of the
    filesystem-state machine. */
module FsStateRunner {
  import opened Basics
  import opened Options
  import opened FsState

  // Each result has one case more than the source: the schedule ends while the task waits.

  datatype SourceWork = FilesystemEvent(at: nat) | StartupTrigger | NoMoreWork | WorkSuspended

  datatype BatchWait = CheckNow | Closed | BatchSuspended

  datatype ReadOperation = Read(state: string, dirty: Dirty) | ReadFailing(dirty: Dirty) | ReadShutdown | ReadSuspended

  datatype StartOperation = RequestTaken(dirty: Dirty) | StartFailed(dirty: Dirty) | StartShutdown | StartSuspended

  datatype TriggerOperation =
    | TriggerFinished(success: bool, dirty: Dirty)
    | TriggerFailed(dirty: Dirty)
    | TriggerShutdown
    | TriggerSuspended

  datatype OperationResult = IdleAgain | DirtyAgain(dirty: Dirty) | OperationShutdown | OperationSuspended

  function IntoOperationResult(dirty: Dirty): OperationResult {
    if dirty.first.Some? then DirtyAgain(dirty) else IdleAgain
  }

  class FsStateRunner {
    const cfg: Config
    ghost const armed: bool
    const script: seq<Input>
    var pos: nat
    var world: World
    var baseline: Option<Baseline>
    ghost var loc: Loc

    ghost function View(): State
      reads this
    {
      State(world, baseline, loc)
    }

    ghost predicate Valid()
      reads this
    {
      pos <= |script| && View() == Run(cfg, Init(cfg, armed), script[..pos])
    }

    /** The next input resolves the current await and would lead to `next`. */
    ghost predicate LeadsTo(next: State)
      reads this
    {
      pos < |script| && Step(cfg, Run(cfg, Init(cfg, armed), script[..pos]), script[pos]) == next
    }

    ghost predicate AtEnd()
      reads this
    {
      Valid() && (loc.Stopped? || pos == |script|)
    }

    /** An operation ends at rest, or dirty with the times of the events noted, or with the task. */
    ghost predicate ResultOk(result: OperationResult)
      reads this
    {
      match result
      case IdleAgain => LeadsTo(Await(View()))
      case DirtyAgain(dirty) => dirty.first.Some? && LeadsTo(Conclude(cfg, View(), dirty))
      case _ => AtEnd()
    }

    constructor (cfg: Config, armed: bool, script: seq<Input>)
      ensures this.cfg == cfg && this.armed == armed && this.script == script
      ensures Valid() && pos == 0
    {
      this.cfg, this.armed, this.script := cfg, armed, script;
      pos, world, baseline := 0, World(0, false, armed, []), None;
      loc := if cfg.hasReader then StartupRead else AwaitWork;
    }

    /** Ends the code between two awaits. */
    method Commit(ghost next: Loc)
      requires LeadsTo(View().(loc := next))
      modifies this`pos, this`loc
      ensures Valid() && pos == old(pos) + 1 && loc == next
    {
      RunStep(cfg, Init(cfg, armed), script, pos);
      pos := pos + 1;
      loc := next;
    }

    method Note(e: Obs)
      modifies this`world
      ensures world == Record(old(world), e)
    {
      world := Record(world, e);
    }

    /** Lets time pass and the startup signal be given until an await of this task resolves. */
    method Poll() returns (input: Option<Input>)
      requires Valid()
      modifies this`pos, this`world
      ensures Valid() && pos >= old(pos)
      ensures world.history == old(world).history && world.armed == old(world).armed
      ensures input.None? ==> pos == |script|
      ensures input.Some? ==> pos < |script| && script[pos] == input.value && !input.value.Elapse? && !input.value.GiveSignal?
    {
      while pos < |script|
        invariant Valid() && pos >= old(pos)
        invariant world.history == old(world).history && world.armed == old(world).armed
        decreases |script| - pos
      {
        var i := script[pos];
        if !i.Elapse? && !i.GiveSignal? {
          return Some(i);
        }
        RunStep(cfg, Init(cfg, armed), script, pos);
        world := if i.Elapse? then world.(now := world.now + i.duration) else world.(signal := true);
        pos := pos + 1;
      }
      input := None;
    }

    /** `recv_work`. `resolved` says that an await has resolved whose action is still to be ended. */
    method RecvWork(resolved: bool) returns (work: SourceWork)
      requires if resolved then LeadsTo(Await(View()))
               else Valid() && loc.AwaitWork? && !(world.armed && world.signal)
      modifies this
      ensures pos >= old(pos)
      ensures work.FilesystemEvent? ==> work.at == world.now && LeadsTo(Settle(cfg, View(), work.at, work.at))
      ensures work.StartupTrigger? ==> LeadsTo(Submit(View(), true, None))
      ensures work.NoMoreWork? || work.WorkSuspended? ==> AtEnd()
    {
      var again := resolved;
      while true
        invariant pos >= old(pos)
        invariant if again then LeadsTo(Await(View()))
                  else Valid() && loc.AwaitWork? && !(world.armed && world.signal)
        decreases |script| - pos, if again then 0 else 1
      {
        if world.armed && world.signal {
          world := world.(armed := false);
          return StartupTrigger;
        }
        if again {
          Commit(AwaitWork);
        }
        var input := SelectWork();
        if input.None? {
          return WorkSuspended;
        }
        var i := input.value;
        if i.Event? {
          Note(Seen(world.now, false));
          return FilesystemEvent(world.now);
        }
        if i.EventsClosed? || i == WatchChanged(true) {
          Commit(Stopped);
          return NoMoreWork;
        }
        if i == StartupChanged(true) {
          world := world.(armed := false);
        }
        again := true;
      }
    }

    /** The select of `recv_work`: the branch that resolves, left to the caller to act on. */
    method SelectWork() returns (input: Option<Input>)
      requires Valid() && loc.AwaitWork?
      modifies this`pos, this`world, this`loc
      ensures Valid() && pos >= old(pos) && loc.AwaitWork?
      ensures input.None? ==> pos == |script|
      ensures input.Some? ==> pos < |script| && script[pos] == input.value
      ensures input.Some? ==> input.value.Event? || input.value.EventsClosed? || input.value.WatchChanged?
                              || (input.value.StartupChanged? && world.armed)
    {
      while true
        invariant Valid() && pos >= old(pos) && loc.AwaitWork?
        decreases |script| - pos
      {
        input := Poll();
        if input.None? {
          return;
        }
        var i := input.value;
        if i.Event? || i.EventsClosed? || i.WatchChanged? || (i.StartupChanged? && world.armed) {
          return;
        }
        Commit(loc);
      }
    }

    /** `wait_for_settled_batch`, entered with an await resolved. */
    method WaitForSettledBatch(first: nat, last: nat) returns (wait: BatchWait)
      requires LeadsTo(Settle(cfg, View(), first, last))
      modifies this
      ensures pos >= old(pos) && baseline == old(baseline)
      ensures wait.CheckNow? ==> LeadsTo(Check(cfg, View()))
      ensures !wait.CheckNow? ==> AtEnd()
    {
      var latest: nat := last;
      while true
        invariant pos >= old(pos) && baseline == old(baseline)
        invariant LeadsTo(Settle(cfg, View(), first, latest))
        decreases |script| - pos
      {
        var due := Min(latest + cfg.debounce, first + cfg.maxDebounce);
        if world.now >= due {
          Note(Checked(first, latest, world.now));
          return CheckNow;
        }
        Commit(Settling(first, latest));
        while true
          invariant Valid() && pos > old(pos) && baseline == old(baseline) && loc == Settling(first, latest)
          decreases |script| - pos
        {
          var input := Poll();
          if input.None? {
            return BatchSuspended;
          }
          var i := input.value;
          if i.EventsClosed? || i == WatchChanged(true) {
            Commit(Stopped);
            return Closed;
          }
          if i.Event? {
            Note(Seen(world.now, false));
            latest := world.now;
            break;
          }
          if i.TimerFires? || i.WatchChanged? {
            break;
          }
          Commit(loc);
        }
      }
    }

    /** `read_state_collecting_events`. The end of the read is left to the caller to act on. */
    method ReadStateCollectingEvents(suppress: bool) returns (op: ReadOperation)
      requires Valid() && (if suppress then loc.Rebaselining? else loc.Checking? && loc.dirty == CLEAN)
      modifies this
      ensures pos >= old(pos) && baseline == old(baseline)
      ensures op.ReadShutdown? || op.ReadSuspended? ==> AtEnd()
      ensures op.Read? || op.ReadFailing? ==>
                && Valid() && pos < |script|
                && script[pos] == ReadEnds(if op.Read? then ReadOk(op.state) else ReadFailed)
                && loc == (if suppress then old(loc) else Checking(op.dirty, old(loc).began))
    {
      var dirty := CLEAN;
      while true
        invariant Valid() && pos >= old(pos) && baseline == old(baseline)
        invariant loc == if suppress then old(loc) else Checking(dirty, old(loc).began)
        decreases |script| - pos
      {
        var input := Poll();
        if input.None? {
          return ReadSuspended;
        }
        var i := input.value;
        if i.ReadEnds? && i.result.ReadOk? {
          return Read(i.result.state, dirty);
        } else if i.ReadEnds? && i.result.ReadFailed? {
          return ReadFailing(dirty);
        } else if i.ReadEnds? || i == WatchChanged(true) {
          Commit(Stopped);
          return ReadShutdown;
        } else if i.Event? {
          Note(Seen(world.now, suppress));
          if !suppress {
            dirty := dirty.NoteNow(world.now);
          }
          Commit(if suppress then loc else Checking(dirty, loc.began));
        } else {
          Commit(loc);
        }
      }
    }

    /** `trigger_collecting_events`, entered with an await resolved. The end of the command is left to the caller. */
    method TriggerCollectingEvents(startup: bool, read: Option<string>) returns (op: TriggerOperation, sub: nat)
      requires LeadsTo(Submit(View(), startup, read))
      modifies this
      ensures pos > old(pos) && baseline == old(baseline)
      ensures op.TriggerShutdown? || op.TriggerSuspended? ==> AtEnd()
      ensures op.TriggerFinished? && op.success ==> LeadsTo(Succeed(cfg, View(), op.dirty, sub))
      ensures op.TriggerFailed? || (op.TriggerFinished? && !op.success) ==> LeadsTo(Fail(cfg, View(), startup, op.dirty, sub))
    {
      sub := |world.history|;
      Note(Submitted(startup, world.now, read, baseline));
      Commit(Submitting(startup, CLEAN, sub));
      var start := SubmitCollectingEvents(startup, sub);
      match start {
        case RequestTaken(dirty) =>
          op := AwaitCollectingEvents(startup, dirty, sub);
        case StartFailed(dirty) =>
          op := TriggerFailed(dirty);
        case StartShutdown =>
          op := TriggerShutdown;
        case StartSuspended =>
          op := TriggerSuspended;
      }
    }

    /** Its first loop: until the lane has taken the request. */
    method SubmitCollectingEvents(startup: bool, sub: nat) returns (op: StartOperation)
      requires Valid() && loc == Submitting(startup, CLEAN, sub)
      modifies this
      ensures pos >= old(pos) && baseline == old(baseline)
      ensures op.StartShutdown? || op.StartSuspended? ==> AtEnd()
      ensures op.RequestTaken? ==> Valid() && loc == AwaitingRun(startup, op.dirty, sub, false)
      ensures op.StartFailed? ==> LeadsTo(Fail(cfg, View(), startup, op.dirty, sub))
    {
      var dirty := CLEAN;
      while true
        invariant Valid() && pos >= old(pos) && baseline == old(baseline) && loc == Submitting(startup, dirty, sub)
        decreases |script| - pos
      {
        var input := Poll();
        if input.None? {
          return StartSuspended;
        }
        var i := input.value;
        if i == StartEnds(true) {
          Commit(AwaitingRun(startup, dirty, sub, false));
          return RequestTaken(dirty);
        } else if i.StartEnds? {
          return StartFailed(dirty);
        } else if i == WatchChanged(true) {
          Commit(Stopped);
          return StartShutdown;
        } else if i.Event? {
          Note(Seen(world.now, false));
          dirty := dirty.NoteNow(world.now);
          Commit(Submitting(startup, dirty, sub));
        } else {
          Commit(loc);
        }
      }
    }

    /** Its second loop: until the command has finished. */
    method AwaitCollectingEvents(startup: bool, noted: Dirty, sub: nat) returns (op: TriggerOperation)
      requires Valid() && loc == AwaitingRun(startup, noted, sub, false)
      modifies this
      ensures pos >= old(pos) && baseline == old(baseline)
      ensures op.TriggerShutdown? || op.TriggerSuspended? ==> AtEnd()
      ensures op.TriggerFinished? && op.success ==> LeadsTo(Succeed(cfg, View(), op.dirty, sub))
      ensures op.TriggerFailed? || (op.TriggerFinished? && !op.success) ==> LeadsTo(Fail(cfg, View(), startup, op.dirty, sub))
    {
      var dirty := noted;
      var running := false;
      while true
        invariant Valid() && pos >= old(pos) && baseline == old(baseline)
        invariant loc == AwaitingRun(startup, dirty, sub, running)
        decreases |script| - pos
      {
        var input := Poll();
        if input.None? {
          return TriggerSuspended;
        }
        var i := input.value;
        if i == Hears(Started) {
          running := true;
          Commit(AwaitingRun(startup, dirty, sub, running));
        } else if i == Hears(Lost) {
          return TriggerFailed(dirty);
        } else if i.Hears? {
          return TriggerFinished(i.lifecycle.success, dirty);
        } else if i == WatchChanged(true) {
          Commit(Stopped);
          return TriggerShutdown;
        } else if i.Event? {
          Note(Seen(world.now, running));
          if !running {
            dirty := dirty.NoteNow(world.now);
          }
          Commit(AwaitingRun(startup, dirty, sub, running));
        } else {
          Commit(loc);
        }
      }
    }

    /** `settle_after_own_command`, entered with an await resolved. */
    method SettleAfterOwnCommand(dirty: Dirty, ok: nat) returns (wait: BatchWait)
      requires LeadsTo(if cfg.selfSettle == 0 then Rebaseline(cfg, View(), dirty, ok)
                       else View().(loc := OwnSettling(dirty, world.now + cfg.selfSettle, ok)))
      modifies this
      ensures pos >= old(pos) && baseline == old(baseline)
      ensures wait.CheckNow? ==> LeadsTo(Rebaseline(cfg, View(), dirty, ok))
      ensures !wait.CheckNow? ==> AtEnd()
    {
      if cfg.selfSettle == 0 {
        return CheckNow;
      }
      var until := world.now + cfg.selfSettle;
      Commit(OwnSettling(dirty, until, ok));
      while true
        invariant Valid() && pos > old(pos) && baseline == old(baseline) && loc == OwnSettling(dirty, until, ok)
        decreases |script| - pos
      {
        var input := Poll();
        if input.None? {
          return BatchSuspended;
        }
        var i := input.value;
        if i.TimerFires? && world.now >= until {
          return CheckNow;
        } else if i == WatchChanged(true) {
          Commit(Stopped);
          return Closed;
        } else {
          if i.Event? {
            Note(Seen(world.now, true));
          }
          Commit(loc);
        }
      }
    }

    /** What follows an own command that succeeded: settle, then rebaseline. */
    method AfterOwnCommand(dirty: Dirty, sub: nat) returns (result: OperationResult)
      requires LeadsTo(Succeed(cfg, View(), dirty, sub))
      modifies this
      ensures pos >= old(pos)
      ensures ResultOk(result)
    {
      var ok := |world.history|;
      Note(RunOk(sub, world.now));
      var settled := SettleAfterOwnCommand(dirty, ok);
      if !settled.CheckNow? {
        return if settled.Closed? then OperationShutdown else OperationSuspended;
      }
      if cfg.hasReader {
        result := RebaselineNow(dirty, ok);
      } else {
        result := IntoOperationResult(dirty);
      }
    }

    method RebaselineNow(dirty: Dirty, ok: nat) returns (result: OperationResult)
      requires cfg.hasReader && LeadsTo(Rebaseline(cfg, View(), dirty, ok))
      modifies this
      ensures pos >= old(pos)
      ensures ResultOk(result)
    {
      var began := |world.history|;
      Note(RebaseBegan(ok, world.now));
      Commit(Rebaselining(dirty, began));
      var op := ReadStateCollectingEvents(true);
      match op {
        case Read(state, _) =>
          Note(Based(state, AfterRun(began)));
          baseline := Some(Known(state));
          result := IntoOperationResult(dirty);
        case ReadFailing(_) =>
          result := IntoOperationResult(dirty);
        case ReadShutdown =>
          result := OperationShutdown;
        case ReadSuspended =>
          result := OperationSuspended;
      }
    }

    /** `process_dirty_batch`, entered with an await resolved. */
    method ProcessDirtyBatch() returns (result: OperationResult)
      requires LeadsTo(Check(cfg, View()))
      modifies this
      ensures pos > old(pos) && ResultOk(result)
    {
      var read := None;
      if cfg.hasReader {
        var began := |world.history|;
        Note(CheckBegan(world.now));
        Commit(Checking(CLEAN, began));
        var op := ReadStateCollectingEvents(false);
        match op {
          case Read(state, dirty) =>
            Note(Compared(began, world.now, Some(state), baseline));
            if baseline == Some(Known(state)) {
              return IntoOperationResult(dirty);
            }
            read := Some(state);
          case ReadFailing(dirty) =>
            Note(Compared(began, world.now, None, baseline));
            return IntoOperationResult(dirty);
          case ReadShutdown =>
            return OperationShutdown;
          case ReadSuspended =>
            return OperationSuspended;
        }
      }
      var op, sub := TriggerCollectingEvents(false, read);
      match op {
        case TriggerFinished(true, dirty) =>
          result := AfterOwnCommand(dirty, sub);
        case TriggerFinished(false, dirty) =>
          Note(RunFailed(sub, world.now));
          result := IntoOperationResult(dirty.NoteNow(world.now));
        case TriggerFailed(dirty) =>
          Note(RunFailed(sub, world.now));
          result := IntoOperationResult(dirty.NoteNow(world.now));
        case TriggerShutdown =>
          result := OperationShutdown;
        case TriggerSuspended =>
          result := OperationSuspended;
      }
    }

    /** `process_startup_trigger`, entered with an await resolved. */
    method ProcessStartupTrigger() returns (result: OperationResult)
      requires LeadsTo(Submit(View(), true, None))
      modifies this
      ensures pos > old(pos) && ResultOk(result)
    {
      var op, sub := TriggerCollectingEvents(true, None);
      match op {
        case TriggerFinished(true, dirty) =>
          result := AfterOwnCommand(dirty, sub);
        case TriggerFinished(false, dirty) =>
          Note(RunFailed(sub, world.now));
          result := IntoOperationResult(dirty);
        case TriggerFailed(dirty) =>
          Note(RunFailed(sub, world.now));
          result := IntoOperationResult(dirty);
        case TriggerShutdown =>
          result := OperationShutdown;
        case TriggerSuspended =>
          result := OperationSuspended;
      }
    }

    /** The startup read of `run_inner`. */
    method ReadStartupBaseline() returns (goOn: bool)
      requires Valid() && loc.StartupRead?
      modifies this
      ensures pos >= old(pos)
      ensures goOn ==> LeadsTo(Await(View()))
      ensures !goOn ==> AtEnd()
    {
      while true
        invariant Valid() && pos >= old(pos) && loc.StartupRead?
        decreases |script| - pos
      {
        var input := Poll();
        if input.None? {
          return false;
        }
        var i := input.value;
        if !i.ReadEnds? {
          Commit(loc);
        } else if i.result.ReadOk? {
          Note(Based(i.result.state, Startup));
          baseline := Some(Known(i.result.state));
          return true;
        } else if i.result.ReadFailed? && !cfg.mustBeReady {
          baseline := Some(Unknown);
          return true;
        } else {
          Commit(Stopped);
          return false;
        }
      }
    }

    /** Batches until the source is at rest: the inner loops of `run_inner`. */
    method ProcessUntilIdle(begun: OperationResult) returns (result: OperationResult)
      requires ResultOk(begun)
      modifies this
      ensures pos >= old(pos) && ResultOk(result) && !result.DirtyAgain?
      ensures begun.DirtyAgain? && result.IdleAgain? ==> pos > old(pos)
    {
      result := begun;
      while result.DirtyAgain?
        invariant pos >= old(pos) && ResultOk(result) && (pos > old(pos) || result == begun)
        decreases |script| - pos, result.DirtyAgain?
      {
        var first := result.dirty.first.value;
        var last := if result.dirty.last.Some? then result.dirty.last.value else first;
        var wait := WaitForSettledBatch(first, last);
        if !wait.CheckNow? {
          return if wait.Closed? then OperationShutdown else OperationSuspended;
        }
        result := ProcessDirtyBatch();
      }
    }

    /** `run_inner`. Every state it goes through is the machine's, to the end of the schedule or of the task. */
    method RunInner()
      requires Valid() && pos == 0
      modifies this
      ensures AtEnd()
    {
      var resolved := cfg.hasReader;
      if cfg.hasReader {
        var goOn := ReadStartupBaseline();
        if !goOn {
          return;
        }
      }
      while true
        invariant if resolved then LeadsTo(Await(View()))
                  else Valid() && loc.AwaitWork? && !(world.armed && world.signal)
        decreases |script| - pos, if resolved then 0 else 1
      {
        var work := RecvWork(resolved);
        var result;
        match work {
          case FilesystemEvent(at) =>
            result := ProcessUntilIdle(DirtyAgain(Dirty(Some(at), Some(at))));
          case StartupTrigger =>
            result := ProcessStartupTrigger();
            result := ProcessUntilIdle(result);
          case _ =>
            return;
        }
        if !result.IdleAgain? {
          return;
        }
        resolved := true;
      }
    }
  }
}
