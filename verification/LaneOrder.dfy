/** Order and time over whole runs of a lane: no overlap, cooldown, coalescing, bounded overtaking. */
module LaneOrder {
  import opened Watching
  import opened PendingQueue
  import opened Lane
  import opened LaneLifecycle

  // ---------- What one step does to the history ----------

  /** The step records `e`, and nothing else. */
  ghost predicate Records(s: State, t: State, e: Obs) {
    && t.world.history == s.world.history + [e]
    && t.world.asked == s.world.asked && t.world.received == s.world.received
    && t.world.now == s.world.now
  }

  /** The step begins a run: of the command that was cooling, or of the oldest pending one. */
  ghost predicate Begins(cfg: Config, s: State, t: State, e: Obs) {
    && t.loc.Running? && t.loc.command in cfg && t.last == s.last
    && Records(s, t, e)
    && e.Began? && e.command == t.loc.command && e.served == t.loc.ids
    && e.at == s.world.now && e.sent == |s.world.asked|
    && t.world.inbox == Deliver(s.world.inbox, t.loc.ids, Started)
    && (if s.loc.Cooling? then
          t.loc.command == s.loc.command && t.loc.ids == s.loc.ids && t.pending == s.pending
          && (e.cut || s.world.now >= s.loc.runAt)
        else
          s.loc.Choosing? && s.pending.order != [] && t.loc.command == s.pending.order[0]
          && t.loc.ids == Waiting(s.pending, t.loc.command)
          && t.pending == Without(s.pending.(order := s.pending.order[1..]), t.loc.command)
          && s.world.now >= RunAt(cfg, s.last, t.loc.command))
  }

  ghost predicate Ends(s: State, t: State, e: Obs) {
    && s.loc.Running? && t.loc.Draining? && t.pending == s.pending
    && Records(s, t, e)
    && e.Ended? && e.command == s.loc.command && e.at == s.world.now
    && t.last == s.last[s.loc.command := s.world.now]
    && t.world.inbox == Deliver(s.world.inbox, s.loc.ids, Finished(e.report))
  }

  /** The step records nothing. */
  ghost predicate Quiet(cfg: Config, s: State, t: State) {
    && t.world.history == s.world.history && t.last == s.last
    && s.world.asked <= t.world.asked && s.world.now <= t.world.now
    && |s.world.inbox| <= |t.world.inbox|
    && (forall id :: 0 <= id < |t.world.inbox| ==>
          (Started in t.world.inbox[id] <==> id < |s.world.inbox| && Started in s.world.inbox[id]))
    && (t.loc.Running? || s.loc.Running? ==> t.loc == s.loc)
    && (t.loc.Cooling? ==>
          if s.loc.Cooling? then t.loc.command == s.loc.command && t.loc.runAt == s.loc.runAt
          else t.loc.command in cfg && t.loc.runAt == RunAt(cfg, s.last, t.loc.command))
  }

  ghost function LastObs(t: State): Obs
    requires t.world.history != []
  {
    t.world.history[|t.world.history| - 1]
  }

  ghost predicate Moves(cfg: Config, s: State, t: State) {
    || Quiet(cfg, s, t)
    || (t.world.history != [] && (Begins(cfg, s, t, LastObs(t)) || Ends(s, t, LastObs(t))))
  }

  lemma ChoosingMoves(cfg: Config, s: State)
    requires Inv(cfg, s) && s.loc.Choosing?
    ensures Moves(cfg, s, ActChoosing(cfg, s))
  {
    PopTakeKeepsConsistent(s.pending);
    var t := ActChoosing(cfg, s);
    var c := PopNext(s.pending).0;
    if c.Some? && c.value in cfg && s.world.now >= RunAt(cfg, s.last, c.value) {
      assert Begins(cfg, s, t, LastObs(t));
    } else {
      assert Quiet(cfg, s, t);
    }
  }

  lemma CoolingMoves(cfg: Config, s: State, choice: Choice)
    requires Inv(cfg, s) && s.loc.Cooling?
    ensures Moves(cfg, s, ActCooling(s, choice))
  {
    var t := ActCooling(s, choice);
    if t.loc.Running? {
      assert Begins(cfg, s, t, LastObs(t));
    } else {
      assert Quiet(cfg, s, t);
    }
  }

  lemma RunningMoves(cfg: Config, s: State, choice: Choice)
    requires s.loc.Running?
    ensures Moves(cfg, s, ActRunning(s, choice))
  {
    var t := ActRunning(s, choice);
    if choice.Completes? {
      assert Ends(s, t, LastObs(t));
    }
  }

  lemma AmbientMoves(cfg: Config, s: State, i: Input)
    requires Inv(cfg, s) && !i.Act?
    ensures Moves(cfg, s, Step(cfg, s, i))
  {
    assert Quiet(cfg, s, Step(cfg, s, i));
  }

  lemma IdleMoves(cfg: Config, s: State, choice: Choice)
    requires Inv(cfg, s) && s.loc.Idle?
    ensures Moves(cfg, s, ActIdle(s, choice))
  {
    assert Quiet(cfg, s, ActIdle(s, choice));
  }

  lemma DrainingMoves(cfg: Config, s: State)
    requires Inv(cfg, s) && s.loc.Draining?
    ensures Moves(cfg, s, ActDraining(s))
  {
    assert Quiet(cfg, s, ActDraining(s));
  }

  lemma StepMoves(cfg: Config, s: State, i: Input)
    requires Inv(cfg, s)
    ensures Moves(cfg, s, Step(cfg, s, i))
  {
    if !i.Act? {
      AmbientMoves(cfg, s, i);
    } else {
      match s.loc {
        case Idle => IdleMoves(cfg, s, i.choice);
        case Choosing => ChoosingMoves(cfg, s);
        case Cooling(_, _, _) => CoolingMoves(cfg, s, i.choice);
        case Running(_, _) => RunningMoves(cfg, s, i.choice);
        case Draining => DrainingMoves(cfg, s);
        case Stopped =>
      }
    }
  }

  // ---------- Runs never overlap ----------

  ghost predicate Adjacent(h: seq<Obs>, k: int)
    requires 0 <= k < |h|
  {
    && (h[k].Ended? ==> k > 0 && h[k - 1].Began? && h[k - 1].command == h[k].command)
    && (h[k].Began? && k > 0 ==> h[k - 1].Ended?)
  }

  ghost predicate Alternates(s: State) {
    var h := s.world.history;
    && (forall k :: 0 <= k < |h| ==> Adjacent(h, k))
    && (if s.loc.Running? then
          h != [] && LastObs(s).Began? && LastObs(s).command == s.loc.command && LastObs(s).served == s.loc.ids
        else h != [] ==> LastObs(s).Ended?)
  }

  lemma MoveAlternates(cfg: Config, s: State, t: State)
    requires Alternates(s) && Moves(cfg, s, t)
    ensures Alternates(t)
  {
    forall k | 0 <= k < |t.world.history| ensures Adjacent(t.world.history, k) {
      if k < |s.world.history| {
        assert Adjacent(s.world.history, k);
      }
    }
  }

  lemma {:induction false} RunAlternates(cfg: Config, script: seq<Input>)
    ensures Inv(cfg, Run(cfg, Init(), script)) && Alternates(Run(cfg, Init(), script))
  {
    InitInv(cfg);
    if script != [] {
      var s := Run(cfg, Init(), script[..|script| - 1]);
      RunAlternates(cfg, script[..|script| - 1]);
      StepKeepsInv(cfg, s, script[|script| - 1]);
      StepMoves(cfg, s, script[|script| - 1]);
      MoveAlternates(cfg, s, Run(cfg, Init(), script));
    }
  }

  /** Between the beginnings of two runs of a lane the earlier one has ended. */
  lemma {:induction false} NoOverlap(cfg: Config, script: seq<Input>, j: nat, k: nat)
    requires j < k < |Run(cfg, Init(), script).world.history|
    requires Run(cfg, Init(), script).world.history[j].Began?
    requires Run(cfg, Init(), script).world.history[k].Began?
    ensures var h := Run(cfg, Init(), script).world.history;
            j + 1 < k && h[j + 1].Ended? && h[j + 1].command == h[j].command
  {
    RunAlternates(cfg, script);
    var h := Run(cfg, Init(), script).world.history;
    assert Adjacent(h, j + 1);
  }

  // ---------- Cooldown ----------

  /** The finish at `j` is accounted for in `last`. */
  ghost predicate Remembered(s: State, j: int)
    requires 0 <= j < |s.world.history|
  {
    var e := s.world.history[j];
    e.Ended? ==> e.command in s.last && e.at <= s.last[e.command] <= s.world.now
  }

  /** Unless its cooldown was cut, the run at `k` begins a full interval after the finish at `j`. */
  ghost predicate Spaced(cfg: Config, h: seq<Obs>, j: int, k: int)
    requires 0 <= j < k < |h|
  {
    h[j].Ended? && h[k].Began? && !h[k].cut && h[j].command == h[k].command ==>
      h[k].command in cfg && h[k].at >= h[j].at + cfg[h[k].command]
  }

  ghost predicate Timely(cfg: Config, s: State) {
    && (forall j :: 0 <= j < |s.world.history| ==> Remembered(s, j))
    && (forall c :: c in s.last ==> s.last[c] <= s.world.now)
    && (s.loc.Cooling? ==> s.loc.command in cfg && s.loc.runAt == RunAt(cfg, s.last, s.loc.command))
    && (forall j, k :: 0 <= j < k < |s.world.history| ==> Spaced(cfg, s.world.history, j, k))
  }

  lemma MoveTimely(cfg: Config, s: State, t: State)
    requires Timely(cfg, s) && Moves(cfg, s, t)
    ensures Timely(cfg, t)
  {
    var n := |s.world.history|;
    forall j | 0 <= j < |t.world.history| ensures Remembered(t, j) {
      if j < n {
        assert Remembered(s, j);
      }
    }
    forall j, k | 0 <= j < k < |t.world.history| ensures Spaced(cfg, t.world.history, j, k) {
      if k < n {
        assert Spaced(cfg, s.world.history, j, k);
      } else {
        assert Remembered(s, j);
      }
    }
  }

  lemma {:induction false} RunTimely(cfg: Config, script: seq<Input>)
    ensures Timely(cfg, Run(cfg, Init(), script))
  {
    if script != [] {
      var s := Run(cfg, Init(), script[..|script| - 1]);
      RunTimely(cfg, script[..|script| - 1]);
      RunAlternates(cfg, script[..|script| - 1]);
      StepMoves(cfg, s, script[|script| - 1]);
      MoveTimely(cfg, s, Run(cfg, Init(), script));
    }
  }

  /** The shutdown flag of the schedule only goes from false to true and its sender lives. */
  ghost predicate ShutsDownOnly(script: seq<Input>) {
    forall k :: 0 <= k < |script| ==> script[k] != SetShutdown(false) && script[k] != DropShutdown
  }

  ghost predicate Uncut(s: State) {
    Monotone(s.world.watch) && forall k :: 0 <= k < |s.world.history| && s.world.history[k].Began? ==> !s.world.history[k].cut
  }

  lemma StepKeepsUncut(cfg: Config, s: State, i: Input)
    requires Uncut(s) && i != SetShutdown(false) && i != DropShutdown
    ensures Uncut(Step(cfg, s, i))
  {
    if i.Act? {
      match s.loc {
        case Idle =>
        case Choosing =>
        case Cooling(_, _, _) =>
        case Running(_, _) =>
        case Draining =>
        case Stopped =>
      }
    }
  }

  lemma {:induction false} NeverCut(cfg: Config, script: seq<Input>)
    requires ShutsDownOnly(script)
    ensures Uncut(Run(cfg, Init(), script))
  {
    if script != [] {
      NeverCut(cfg, script[..|script| - 1]);
      StepKeepsUncut(cfg, Run(cfg, Init(), script[..|script| - 1]), script[|script| - 1]);
    }
  }

  /** In every run, whatever is sent during the wait, a command begins again no sooner than its
      `min_interval` after each of its earlier finishes, successful or not. */
  lemma {:induction false} Cooldown(cfg: Config, script: seq<Input>, j: nat, k: nat)
    requires ShutsDownOnly(script)
    requires j < k < |Run(cfg, Init(), script).world.history|
    requires Run(cfg, Init(), script).world.history[j].Ended? && Run(cfg, Init(), script).world.history[k].Began?
    requires Run(cfg, Init(), script).world.history[j].command == Run(cfg, Init(), script).world.history[k].command
    ensures var h := Run(cfg, Init(), script).world.history;
            h[k].command in cfg && h[k].at >= h[j].at + cfg[h[k].command]
  {
    RunTimely(cfg, script);
    NeverCut(cfg, script);
    assert Spaced(cfg, Run(cfg, Init(), script).world.history, j, k);
  }

  /** The step begins a run of a command that is still cooling down. */
  ghost predicate BeginsEarly(cfg: Config, s: State, t: State) {
    && t.loc.Running? && !s.loc.Running?
    && t.loc.command in cfg && t.loc.command in s.last
    && s.world.now < s.last[t.loc.command] + cfg[t.loc.command]
  }

  /** Without the assumption on the flag the cooldown can fail, and this is exactly when: the waiting task
      takes a watch change that is not a shutdown before the timer is due. */
  lemma {:induction false} CooldownFailsExactly(cfg: Config, script: seq<Input>, i: Input)
    ensures var s := Run(cfg, Init(), script);
            BeginsEarly(cfg, s, Step(cfg, s, i)) <==>
            (s.loc.Cooling? && s.world.now < s.loc.runAt && i == Act(TakeWatch)
               && s.world.watch.Ready() && !s.world.watch.Stops())
  {
    var s := Run(cfg, Init(), script);
    RunTimely(cfg, script);
    RunAlternates(cfg, script);
    PopTakeKeepsConsistent(s.pending);
  }

  /** `at` is the instant at which command `c` last ended in the history. */
  ghost predicate LastEnded(h: seq<Obs>, c: Command, at: nat) {
    exists j :: 0 <= j < |h| && EndsLast(h, c, at, j)
  }

  ghost predicate EndsLast(h: seq<Obs>, c: Command, at: nat, j: nat)
    requires j < |h|
  {
    h[j].Ended? && h[j].command == c && h[j].at == at && forall k :: j < k < |h| && h[k].Ended? ==> h[k].command != c
  }

  ghost predicate Recent(s: State) {
    forall c :: c in s.last ==> LastEnded(s.world.history, c, s.last[c])
  }

  lemma MoveRecent(cfg: Config, s: State, t: State)
    requires Recent(s) && Moves(cfg, s, t)
    ensures Recent(t)
  {
    forall c | c in t.last ensures LastEnded(t.world.history, c, t.last[c]) {
      if t.world.history != s.world.history && LastObs(t).Ended? && LastObs(t).command == c {
        assert EndsLast(t.world.history, c, t.last[c], |t.world.history| - 1);
      } else {
        var j :| 0 <= j < |s.world.history| && EndsLast(s.world.history, c, s.last[c], j);
        assert EndsLast(t.world.history, c, t.last[c], j);
      }
    }
  }

  lemma {:induction false} RunRecent(cfg: Config, script: seq<Input>)
    ensures Recent(Run(cfg, Init(), script))
  {
    if script != [] {
      var rest := script[..|script| - 1];
      RunRecent(cfg, rest);
      RunAlternates(cfg, rest);
      StepMoves(cfg, Run(cfg, Init(), rest), script[|script| - 1]);
      MoveRecent(cfg, Run(cfg, Init(), rest), Run(cfg, Init(), script));
    }
  }

  /** A cooldown lasts no longer than it must: a command waits only after an earlier run of it, and then until its
      `min_interval` after the end of the last one. */
  lemma {:induction false} CoolsNoLonger(cfg: Config, script: seq<Input>)
    requires Run(cfg, Init(), script).loc.Cooling?
    ensures var s := Run(cfg, Init(), script);
            s.loc.command in cfg && exists at :: LastEnded(s.world.history, s.loc.command, at)
                                                && s.loc.runAt <= at + cfg[s.loc.command]
  {
    RunTimely(cfg, script);
    RunRecent(cfg, script);
    RunWaitsFor(cfg, script);
    var s := Run(cfg, Init(), script);
    assert LastEnded(s.world.history, s.loc.command, s.last[s.loc.command]);
  }

  lemma {:induction false} RunWaitsFor(cfg: Config, script: seq<Input>)
    ensures var s := Run(cfg, Init(), script); s.loc.Cooling? ==> s.loc.command in s.last && s.loc.command in cfg
  {
    if script != [] {
      var rest, i := script[..|script| - 1], script[|script| - 1];
      RunWaitsFor(cfg, rest);
      RunAlternates(cfg, rest);
      StepMoves(cfg, Run(cfg, Init(), rest), i);
      StepWaitsFor(cfg, Run(cfg, Init(), rest), i);
    }
  }

  lemma StepWaitsFor(cfg: Config, s: State, i: Input)
    requires s.loc.Cooling? ==> s.loc.command in s.last && s.loc.command in cfg
    ensures var t := Step(cfg, s, i); t.loc.Cooling? ==> t.loc.command in t.last && t.loc.command in cfg
  {
    if i.Act? {
      match s.loc {
        case Idle =>
        case Choosing =>
        case Cooling(_, _, _) =>
        case Running(_, _) =>
        case Draining =>
        case Stopped =>
      }
    }
  }

  // ---------- Coalescing ----------

  function Starts(h: seq<Obs>, c: Command): nat {
    if h == [] then 0
    else Starts(h[..|h| - 1], c) + if h[|h| - 1].Began? && h[|h| - 1].command == c then 1 else 0
  }

  function Requests(asked: seq<Command>, n: nat, c: Command): nat
    requires n <= |asked|
  {
    if n == 0 then 0 else Requests(asked, n - 1, c) + if asked[n - 1] == c then 1 else 0
  }

  /** How often request `id` was served by a run. */
  function Servings(h: seq<Obs>, id: nat): nat {
    if h == [] then 0
    else Servings(h[..|h| - 1], id) + if h[|h| - 1].Began? && id in h[|h| - 1].served then 1 else 0
  }

  lemma {:induction false} RequestsPrefix(a: seq<Command>, b: seq<Command>, n: nat, c: Command)
    requires n <= |a|
    ensures Requests(a + b, n, c) == Requests(a, n, c)
  {
    if n > 0 { RequestsPrefix(a, b, n - 1, c); }
  }

  /** One owed run for each command somebody waits for. */
  ghost function Owed(s: State, c: Command): nat {
    if c in s.pending.waiters || (s.loc.Cooling? && s.loc.command == c) then 1 else 0
  }

  ghost predicate CountsOk(s: State, c: Command) {
    && s.world.received <= |s.world.asked|
    && Starts(s.world.history, c) + Owed(s, c) <= Requests(s.world.asked, s.world.received, c)
  }

  lemma TakeInKeepsCounts(s: State, c: Command)
    requires CountsOk(s, c) && s.world.HasRequest()
    ensures CountsOk(TakeIn(s), c)
  {
  }

  lemma BeginKeepsCounts(s: State, t: State, c: Command)
    requires CountsOk(s, c) && !s.loc.Running?
    requires t.loc.Running? && t.loc.command !in t.pending.waiters && Owed(s, t.loc.command) == 1
    requires t.world.asked == s.world.asked && t.world.received == s.world.received
    requires t.world.history != [] && LastObs(t).Began? && LastObs(t).command == t.loc.command
    requires t.world.history == s.world.history + [LastObs(t)]
    requires forall d :: d in t.pending.waiters ==> d in s.pending.waiters
    ensures CountsOk(t, c)
  {
    assert t.world.history[..|s.world.history|] == s.world.history;
  }

  lemma ChoosingKeepsCounts(cfg: Config, s: State, c: Command)
    requires Inv(cfg, s) && CountsOk(s, c) && s.loc.Choosing?
    ensures CountsOk(ActChoosing(cfg, s), c)
  {
    PopTakeKeepsConsistent(s.pending);
    var t := ActChoosing(cfg, s);
    if t.loc.Running? {
      BeginKeepsCounts(s, t, c);
    }
  }

  lemma CoolingKeepsCounts(cfg: Config, s: State, choice: Choice, c: Command)
    requires Inv(cfg, s) && CountsOk(s, c) && s.loc.Cooling?
    ensures CountsOk(ActCooling(s, choice), c)
  {
    var t := ActCooling(s, choice);
    if t.loc.Running? {
      BeginKeepsCounts(s, t, c);
    }
  }

  lemma AmbientKeepsCounts(s: State, i: Input, c: Command)
    requires CountsOk(s, c)
    ensures CountsOk(s.(world := Ambient(s.world, i, s.loc.Stopped?)), c)
  {
    if i.Send? {
      RequestsPrefix(s.world.asked, [i.command], s.world.received, c);
    }
  }

  lemma RunningKeepsCounts(s: State, choice: Choice, c: Command)
    requires CountsOk(s, c) && s.loc.Running?
    ensures CountsOk(ActRunning(s, choice), c)
  {
    var t := ActRunning(s, choice);
    if choice.Completes? {
      assert t.world.history[..|s.world.history|] == s.world.history;
    }
  }

  lemma IdleKeepsCounts(s: State, choice: Choice, c: Command)
    requires CountsOk(s, c) && s.loc.Idle?
    ensures CountsOk(ActIdle(s, choice), c)
  {
    if s.world.HasRequest() {
      TakeInKeepsCounts(s, c);
    }
  }

  lemma StepKeepsCounts(cfg: Config, s: State, i: Input, c: Command)
    requires Inv(cfg, s) && CountsOk(s, c)
    ensures CountsOk(Step(cfg, s, i), c)
  {
    if !i.Act? {
      AmbientKeepsCounts(s, i, c);
    } else {
      match s.loc {
        case Idle => IdleKeepsCounts(s, i.choice, c);
        case Choosing => ChoosingKeepsCounts(cfg, s, c);
        case Cooling(_, _, _) => CoolingKeepsCounts(cfg, s, i.choice, c);
        case Running(_, _) => RunningKeepsCounts(s, i.choice, c);
        case Draining =>
          if s.world.HasRequest() {
            TakeInKeepsCounts(s, c);
          }
        case Stopped =>
      }
    }
  }

  /** A command never runs more often than it was asked for. */
  lemma {:induction false} RunsAtMostRequests(cfg: Config, script: seq<Input>, c: Command)
    ensures var s := Run(cfg, Init(), script);
            && s.world.received <= |s.world.asked|
            && Starts(s.world.history, c) <= Requests(s.world.asked, s.world.received, c)
  {
    RunKeepsCounts(cfg, script, c);
  }

  lemma {:induction false} RunKeepsCounts(cfg: Config, script: seq<Input>, c: Command)
    ensures CountsOk(Run(cfg, Init(), script), c)
  {
    if script != [] {
      RunKeepsCounts(cfg, script[..|script| - 1], c);
      RunAlternates(cfg, script[..|script| - 1]);
      StepKeepsCounts(cfg, Run(cfg, Init(), script[..|script| - 1]), script[|script| - 1], c);
    }
  }

  ghost predicate ServesOwn(w: World, b: Obs) {
    b.Began? ==> b.served != [] && b.sent <= |w.asked| &&
                 forall id {:trigger id in b.served} :: id in b.served ==> id < b.sent && w.asked[id] == b.command
  }

  ghost predicate ServingsOk(w: World, id: nat)
    requires id < |w.inbox|
  {
    Servings(w.history, id) == if Started in w.inbox[id] then 1 else 0
  }

  ghost predicate Served(w: World) {
    && |w.inbox| == |w.asked|
    && (forall k :: 0 <= k < |w.history| ==> ServesOwn(w, w.history[k]))
    && (forall id :: 0 <= id < |w.inbox| ==> ServingsOk(w, id))
  }

  lemma MoveServed(cfg: Config, s: State, t: State)
    requires Inv(cfg, s) && Inv(cfg, t) && Moves(cfg, s, t) && Served(s.world)
    ensures Served(t.world)
  {
    var n := |s.world.history|;
    forall k | 0 <= k < |t.world.history| ensures ServesOwn(t.world, t.world.history[k]) {
      if k < n {
        assert ServesOwn(s.world, s.world.history[k]);
      }
    }
    if !Quiet(cfg, s, t) {
      assert t.world.history[..n] == s.world.history;
    }
    forall id | 0 <= id < |t.world.inbox| ensures ServingsOk(t.world, id) {
      if id < |s.world.inbox| {
        assert ServingsOk(s.world, id);
        assert LifecycleOk(cfg, s, id);
        assert LifecycleOk(cfg, t, id);
      } else {
        forall k | 0 <= k < n && s.world.history[k].Began? ensures id !in s.world.history[k].served {
          assert ServesOwn(s.world, s.world.history[k]);
        }
        UnsentUnserved(s.world.history, id);
      }
    }
  }

  /** No run is without a request and none is stale: every request a run serves was sent before it began
      and asks for its command, and a request that hears Started is served by exactly one run. */
  lemma {:induction false} NeverStale(cfg: Config, script: seq<Input>)
    ensures Served(Run(cfg, Init(), script).world)
  {
    if script != [] {
      var s := Run(cfg, Init(), script[..|script| - 1]);
      NeverStale(cfg, script[..|script| - 1]);
      RunAlternates(cfg, script[..|script| - 1]);
      RunAlternates(cfg, script);
      StepMoves(cfg, s, script[|script| - 1]);
      MoveServed(cfg, s, Run(cfg, Init(), script));
    }
  }

  lemma {:induction false} UnsentUnserved(h: seq<Obs>, id: nat)
    requires forall k :: 0 <= k < |h| ==> h[k].Began? ==> id !in h[k].served
    ensures Servings(h, id) == 0
  {
    if h != [] { UnsentUnserved(h[..|h| - 1], id); }
  }
}
