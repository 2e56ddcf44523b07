/** What a request hears at the end is what the run that served it came to. */
module LaneOutcome {
  import opened Lane
  import opened LaneFairness
  import opened LaneLifecycle
  import opened LaneOrder

  /** Entry `k` begins the run that serves request `id`, and the next one ends it with this report. */
  ghost predicate RunOf(w: World, k: nat, id: nat, report: Report) {
    && k + 1 < |w.history|
    && w.history[k].Began? && id in w.history[k].served
    && w.history[k + 1].Ended? && w.history[k + 1].command == w.history[k].command
    && w.history[k + 1].report == report
  }

  ghost predicate HasRun(w: World, id: nat, report: Report) {
    exists k :: 0 <= k < |w.history| && RunOf(w, k, id, report)
  }

  /** Whoever has heard Started and Finished was served by a run that ended so. */
  ghost predicate Traced(w: World) {
    forall id :: 0 <= id < |w.inbox| && |w.inbox[id]| == 2 && w.inbox[id][1].Finished? ==>
      HasRun(w, id, w.inbox[id][1].report)
  }

  lemma RunStays(w: World, v: World, id: nat, report: Report)
    requires HasRun(w, id, report) && w.history <= v.history
    ensures HasRun(v, id, report)
  {
    var k :| 0 <= k < |w.history| && RunOf(w, k, id, report);
    assert RunOf(v, k, id, report);
  }

  lemma QuietKeepsPairs(cfg: Config, s: State, t: State, id: nat)
    requires Inv(cfg, s) && Inv(cfg, t) && Quiet(cfg, s, t)
    requires id < |t.world.inbox| && |t.world.inbox[id]| == 2
    requires id < |s.world.inbox| ==> s.world.inbox[id] <= t.world.inbox[id]
    ensures id < |s.world.inbox| && s.world.inbox[id] == t.world.inbox[id]
  {
    assert LifecycleOk(cfg, t, id);
    assert Started in t.world.inbox[id] by {
      assert t.world.inbox[id][0] == Started;
    }
    assert LifecycleOk(cfg, s, id);
  }

  lemma EndTraces(s: State, t: State, e: Obs, id: nat)
    requires Alternates(s) && Ends(s, t, e) && |s.world.inbox| == |t.world.inbox|
    requires id < |t.world.inbox| && id in s.loc.ids && |t.world.inbox[id]| == 2 && t.world.inbox[id][1].Finished?
    ensures HasRun(t.world, id, t.world.inbox[id][1].report)
  {
    var k := |s.world.history| - 1;
    assert t.world.history[k] == LastObs(s) && t.world.history[k + 1] == e;
    assert t.world.inbox[id] == s.world.inbox[id] + [Finished(e.report)];
    assert RunOf(t.world, k, id, e.report);
  }

  /** A step that makes lifecycles longer and is one of the lane's moves keeps every complete one traced to its run. */
  lemma MoveTraces(cfg: Config, s: State, t: State)
    requires Inv(cfg, s) && Inv(cfg, t) && Alternates(s) && Moves(cfg, s, t) && Traced(s.world)
    requires |s.world.inbox| <= |t.world.inbox| && s.world.history <= t.world.history
    requires forall id :: 0 <= id < |s.world.inbox| ==> s.world.inbox[id] <= t.world.inbox[id]
    ensures Traced(t.world)
  {
    forall id | 0 <= id < |t.world.inbox| && |t.world.inbox[id]| == 2 && t.world.inbox[id][1].Finished?
      ensures HasRun(t.world, id, t.world.inbox[id][1].report)
    {
      if Quiet(cfg, s, t) {
        QuietKeepsPairs(cfg, s, t, id);
        RunStays(s.world, t.world, id, t.world.inbox[id][1].report);
      } else if Ends(s, t, LastObs(t)) && id in s.loc.ids {
        EndTraces(s, t, LastObs(t), id);
      } else {
        assert LifecycleOk(cfg, s, id) && LifecycleOk(cfg, t, id);
        RunStays(s.world, t.world, id, t.world.inbox[id][1].report);
      }
    }
  }

  // ---------- What the executor said ----------

  /** The report says what the executor said: success or failure of a command that ran, or the error of one that did not. */
  ghost predicate Tells(report: Report, result: RunResult) {
    && (forall b :: report == Outcome(b) <==> result == Ran(b))
    && (forall e :: report == Error(e) <==> result == CouldNotRun(e))
    && !report.Cancelled?
  }

  /** A step that ends a run is the end of the executor's work on it, and reports what the executor said. */
  lemma StepEnds(cfg: Config, s: State, i: Input)
    requires Inv(cfg, s)
    requires var t := Step(cfg, s, i); |t.world.history| > |s.world.history| && LastObs(t).Ended?
    ensures s.loc.Running? && i.Act? && i.choice.Completes?
    ensures var t := Step(cfg, s, i);
            LastObs(t).command == s.loc.command && LastObs(t).at == s.world.now && Tells(LastObs(t).report, i.choice.result)
  {
    StepMoves(cfg, s, i);
  }

  /** With input `n` the executor ended the run that entry `k` records, and said so. */
  ghost predicate EndedBy(cfg: Config, script: seq<Input>, n: nat, w: World, k: nat)
    requires n < |script| && k < |w.history|
  {
    var s := Run(cfg, Init(), script[..n]);
    && s.loc.Running? && |s.world.history| == k && s.world.now == w.history[k].at
    && script[n].Act? && script[n].choice.Completes?
    && w.history[k].Ended? && w.history[k].command == s.loc.command && Tells(w.history[k].report, script[n].choice.result)
  }

  lemma EndedByPrefix(cfg: Config, script: seq<Input>, n: nat, v: World, w: World, k: nat)
    requires n + 1 < |script| && k < |v.history| && v.history <= w.history
    requires EndedBy(cfg, script[..|script| - 1], n, v, k)
    ensures EndedBy(cfg, script, n, w, k)
  {
    assert script[..|script| - 1][..n] == script[..n];
  }

  /** Over every run: each entry that ends a run was made by the end of the executor's work, and its report is a success or
      a failure exactly as the executor's result, or its error. */
  lemma {:induction false} ReportsAreResults(cfg: Config, script: seq<Input>, k: nat) returns (n: nat)
    requires k < |Run(cfg, Init(), script).world.history| && Run(cfg, Init(), script).world.history[k].Ended?
    ensures n < |script| && EndedBy(cfg, script, n, Run(cfg, Init(), script).world, k)
  {
    var rest, i := script[..|script| - 1], script[|script| - 1];
    var s, t := Run(cfg, Init(), rest), Run(cfg, Init(), script);
    RunAlternates(cfg, rest);
    StepMoves(cfg, s, i);
    if k < |s.world.history| {
      n := ReportsAreResults(cfg, rest, k);
      EndedByPrefix(cfg, script, n, s.world, t.world, k);
    } else {
      StepEnds(cfg, s, i);
      n := |script| - 1;
    }
  }

  lemma {:induction false} RunTraced(cfg: Config, script: seq<Input>)
    ensures Traced(Run(cfg, Init(), script).world)
  {
    if script != [] {
      var rest, i := script[..|script| - 1], script[|script| - 1];
      var s, t := Run(cfg, Init(), rest), Run(cfg, Init(), script);
      RunTraced(cfg, rest);
      RunAlternates(cfg, rest);
      RunAlternates(cfg, script);
      StepMoves(cfg, s, i);
      StepGrows(cfg, s, i);
      MoveTraces(cfg, s, t);
    }
  }

  /** What a waiter hears at the end is what the executor said of the run that served it. */
  lemma {:induction false} HeardIsResult(cfg: Config, script: seq<Input>, id: nat) returns (k: nat, n: nat)
    requires var w := Run(cfg, Init(), script).world;
             id < |w.inbox| && |w.inbox[id]| == 2 && w.inbox[id][1].Finished?
    ensures var w := Run(cfg, Init(), script).world;
            && RunOf(w, k, id, w.inbox[id][1].report)
            && n < |script| && EndedBy(cfg, script, n, w, k + 1) && Tells(w.inbox[id][1].report, script[n].choice.result)
  {
    var w := Run(cfg, Init(), script).world;
    RunTraced(cfg, script);
    assert HasRun(w, id, w.inbox[id][1].report);
    k :| 0 <= k < |w.history| && RunOf(w, k, id, w.inbox[id][1].report);
    n := ReportsAreResults(cfg, script, k + 1);
  }
}
