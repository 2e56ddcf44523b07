/** The daemon's health bookkeeping: one entry for each watcher and each command lane. */
module RuntimeStates {
  import opened Options

  datatype WatcherPhase = Starting | Connecting | Idling | Reconnecting | Stopped | Crashed

  datatype RunnerPhase = RunnerStarting | Idle | Debouncing | CoolingDown | Running | RunnerStopped | RunnerCrashed

  datatype WatcherStatus = WatcherStatus(phase: WatcherPhase, lastProgress: nat)

  datatype RunnerStatus = RunnerStatus(phase: RunnerPhase, lastProgress: nat, commandStarted: Option<nat>)

  datatype Inner = Inner(watchers: map<string, WatcherStatus>, runners: map<string, RunnerStatus>)

  /** What the tasks report. */
  datatype Mark =
    | Watcher(id: string, watcherPhase: WatcherPhase)
    | Progress(id: string)
    | Runner(id: string, runnerPhase: RunnerPhase)
    | Started(id: string)
    | Finished(id: string)

  /** What a report at the instant `now` does to the entries. */
  function Marked(inner: Inner, mark: Mark, now: nat): Inner {
    match mark
    case Watcher(id, phase) => inner.(watchers := inner.watchers[id := WatcherStatus(phase, now)])
    case Progress(id) =>
      if id in inner.watchers && !inner.watchers[id].phase.Crashed? && !inner.watchers[id].phase.Stopped?
      then inner.(watchers := inner.watchers[id := inner.watchers[id].(lastProgress := now)])
      else inner
    case Runner(id, phase) =>
      var started := if phase.Running? && id in inner.runners then inner.runners[id].commandStarted else None;
      inner.(runners := inner.runners[id := RunnerStatus(phase, now, started)])
    case Started(id) => inner.(runners := inner.runners[id := RunnerStatus(Running, now, Some(now))])
    case Finished(id) => inner.(runners := inner.runners[id := RunnerStatus(Idle, now, None)])
  }

  datatype Report = Report(mark: Mark, at: nat)

  /** What is told to the state, in any order: registrations, and reports of the tasks. */
  datatype Tell =
    | RegisterSource(id: string, at: nat)
    | RegisterLane(id: string, at: nat)
    | Reports(report: Report)

  function Heard(inner: Inner, tell: Tell): Inner {
    match tell
    case RegisterSource(id, at) => inner.(watchers := inner.watchers[id := WatcherStatus(Starting, at)])
    case RegisterLane(id, at) => inner.(runners := inner.runners[id := RunnerStatus(RunnerStarting, at, None)])
    case Reports(report) => Marked(inner, report.mark, report.at)
  }

  function Told(told: seq<Tell>): Inner {
    if told == [] then Inner(map[], map[]) else Heard(Told(told[..|told| - 1]), told[|told| - 1])
  }

  datatype HealthProblem =
    | WatcherCount(found: nat, expected: nat)
    | WatcherDown(id: string)
    | WatcherStale(id: string)
    | RunnerCount(found: nat, expected: nat)
    | RunnerDown(id: string)
    | RunnerOverdue(id: string)

  /** Time since an instant, which is never negative. */
  function Elapsed(since: nat, now: nat): nat {
    if now > since then now - since else 0
  }

  predicate WatcherWell(status: WatcherStatus, stale: nat, now: nat) {
    !status.phase.Crashed? && !status.phase.Stopped? && Elapsed(status.lastProgress, now) <= stale
  }

  predicate RunnerWell(status: RunnerStatus, timeout: nat, now: nat) {
    && !status.phase.RunnerCrashed? && !status.phase.RunnerStopped?
    && (status.commandStarted.Some? ==> Elapsed(status.commandStarted.value, now) <= timeout)
  }

  /** The problem is one that the entries have. */
  predicate Has(inner: Inner, problem: HealthProblem, totalSources: nat, totalLanes: nat, stale: nat, timeout: nat, now: nat) {
    match problem
    case WatcherCount(found, expected) => found == |inner.watchers| && expected == totalSources && found != expected
    case WatcherDown(id) => id in inner.watchers && (inner.watchers[id].phase.Crashed? || inner.watchers[id].phase.Stopped?)
    case WatcherStale(id) => id in inner.watchers && Elapsed(inner.watchers[id].lastProgress, now) > stale
    case RunnerCount(found, expected) => found == |inner.runners| && expected == totalLanes && found != expected
    case RunnerDown(id) =>
      id in inner.runners && (inner.runners[id].phase.RunnerCrashed? || inner.runners[id].phase.RunnerStopped?)
    case RunnerOverdue(id) =>
      id in inner.runners && inner.runners[id].commandStarted.Some?
      && Elapsed(inner.runners[id].commandStarted.value, now) > timeout
  }

  // ---------- What the entries remember ----------

  /** What was told is about the entry of this lane. */
  predicate OnRunner(tell: Tell, id: string) {
    match tell
    case RegisterLane(lane, _) => lane == id
    case RegisterSource(_, _) => false
    case Reports(Report(mark, _)) => (mark.Runner? || mark.Started? || mark.Finished?) && mark.id == id
  }

  /** A source's entry was registered, or given a phase. */
  predicate SetsWatcher(tell: Tell, id: string) {
    match tell
    case RegisterSource(source, _) => source == id
    case RegisterLane(_, _) => false
    case Reports(Report(mark, _)) => mark.Watcher? && mark.id == id
  }

  predicate OnWatcher(tell: Tell, id: string) {
    SetsWatcher(tell, id) || (tell.Reports? && tell.report.mark == Progress(id))
  }

  function TimeOf(tell: Tell): nat {
    if tell.Reports? then tell.report.at else tell.at
  }

  /** At entry `k` the lane's command started, and nothing was told of the lane since but that it is running. */
  ghost predicate RunsSince(told: seq<Tell>, id: string, k: nat) {
    && k < |told| && told[k].Reports? && told[k].report.mark == Started(id)
    && forall j :: k < j < |told| && OnRunner(told[j], id) ==> told[j].Reports? && told[j].report.mark == Runner(id, Running)
  }

  /** A command that has started and not ended is found overdue once its timeout is over, and not before. */
  lemma {:induction false} StartedIsOverdueInTime(told: seq<Tell>, id: string, k: nat, timeout: nat, now: nat)
    requires RunsSince(told, id, k)
    ensures var inner := Told(told);
            && id in inner.runners && inner.runners[id].phase.Running?
            && inner.runners[id].commandStarted == Some(told[k].report.at)
            && (RunnerWell(inner.runners[id], timeout, now) <==> now <= told[k].report.at + timeout)
  {
    if k < |told| - 1 {
      assert RunsSince(told[..|told| - 1], id, k);
      StartedIsOverdueInTime(told[..|told| - 1], id, k, timeout, now);
    }
  }

  /** Otherwise a lane is judged by the last that was told of it: one that was registered, whose command ended, or that got
      another phase than running is well unless it crashed or stopped. */
  lemma {:induction false} LastWordOnRunner(told: seq<Tell>, id: string, k: nat, timeout: nat, now: nat)
    requires k < |told| && OnRunner(told[k], id) && forall j :: k < j < |told| ==> !OnRunner(told[j], id)
    ensures var inner := Told(told);
            && id in inner.runners
            && (told[k].RegisterLane? || told[k].report.mark.Finished? ==> RunnerWell(inner.runners[id], timeout, now))
            && (told[k].Reports? && told[k].report.mark.Runner? && !told[k].report.mark.runnerPhase.Running? ==>
                  var phase := told[k].report.mark.runnerPhase;
                  RunnerWell(inner.runners[id], timeout, now) <==> phase != RunnerCrashed && phase != RunnerStopped)
  {
    if k < |told| - 1 {
      LastWordOnRunner(told[..|told| - 1], id, k, timeout, now);
    }
  }

  /** A source is judged by the last phase it was given, at entry `k`, and the last sign of life, at entry `m`: one that crashed or
      stopped stays so, whatever progress it reports; any other is well exactly while that sign is not too old. */
  lemma {:induction false} LastWordOnWatcher(told: seq<Tell>, id: string, k: nat, m: nat, stale: nat, now: nat)
    requires k <= m < |told| && SetsWatcher(told[k], id) && OnWatcher(told[m], id)
    requires forall j :: k < j < |told| ==> !SetsWatcher(told[j], id)
    requires forall j :: m < j < |told| ==> !OnWatcher(told[j], id)
    ensures var inner := Told(told);
            var phase := if told[k].Reports? then told[k].report.mark.watcherPhase else Starting;
            && id in inner.watchers && inner.watchers[id].phase == phase
            && (phase == Crashed || phase == Stopped ==>
                  !WatcherWell(inner.watchers[id], stale, now) && inner.watchers[id].lastProgress == TimeOf(told[k]))
            && (phase != Crashed && phase != Stopped ==>
                  (WatcherWell(inner.watchers[id], stale, now) <==> now <= TimeOf(told[m]) + stale))
  {
    var rest := told[..|told| - 1];
    if m < |told| - 1 {
      LastWordOnWatcher(rest, id, k, m, stale, now);
    } else if k < m {
      var n := LastOnWatcher(rest, id, k);
      LastWordOnWatcher(rest, id, k, n, stale, now);
    }
  }

  lemma {:induction false} LastOnWatcher(told: seq<Tell>, id: string, k: nat) returns (m: nat)
    requires k < |told| && OnWatcher(told[k], id)
    ensures k <= m < |told| && OnWatcher(told[m], id) && forall j :: m < j < |told| ==> !OnWatcher(told[j], id)
  {
    m := |told| - 1;
    if !OnWatcher(told[m], id) {
      m := LastOnWatcher(told[..m], id, k);
    }
  }

  class RuntimeState {
    const totalSources: nat
    const totalLanes: nat
    const watcherStale: nat
    const commandTimeout: nat
    var watchers: map<string, WatcherStatus>
    var runners: map<string, RunnerStatus>
    /** Everything the state was told, in order. */
    ghost var told: seq<Tell>

    constructor (totalSources: nat, totalLanes: nat, watcherStale: nat, commandTimeout: nat)
      ensures this.totalSources == totalSources && this.totalLanes == totalLanes
      ensures this.watcherStale == watcherStale && this.commandTimeout == commandTimeout
      ensures Valid() && told == [] && View() == Inner(map[], map[])
    {
      this.totalSources, this.totalLanes := totalSources, totalLanes;
      this.watcherStale, this.commandTimeout := watcherStale, commandTimeout;
      watchers, runners, told := map[], map[], [];
    }

    ghost function View(): Inner
      reads this
    {
      Inner(watchers, runners)
    }

    /** The entries are what was told. */
    ghost predicate Valid()
      reads this
    {
      View() == Told(told)
    }

    /** Adds to what was told, once the entries show it. */
    ghost method Hear(tell: Tell)
      requires View() == Heard(Told(told), tell)
      modifies this`told
      ensures Valid() && told == old(told) + [tell]
    {
      told := told + [tell];
      assert told[..|told| - 1] == old(told);
    }

    method RegisterWatcher(id: string, now: nat)
      requires Valid()
      modifies this
      ensures Valid() && told == old(told) + [RegisterSource(id, now)]
      ensures View() == old(View()).(watchers := old(watchers)[id := WatcherStatus(Starting, now)])
    {
      watchers := watchers[id := WatcherStatus(Starting, now)];
      Hear(RegisterSource(id, now));
    }

    method RegisterCommandRunner(id: string, now: nat)
      requires Valid()
      modifies this
      ensures Valid() && told == old(told) + [RegisterLane(id, now)]
      ensures View() == old(View()).(runners := old(runners)[id := RunnerStatus(RunnerStarting, now, None)])
    {
      runners := runners[id := RunnerStatus(RunnerStarting, now, None)];
      Hear(RegisterLane(id, now));
    }

    method MarkWatcher(id: string, phase: WatcherPhase, now: nat)
      requires Valid()
      modifies this
      ensures Valid() && told == old(told) + [Reports(Report(Watcher(id, phase), now))]
      ensures View() == Marked(old(View()), Watcher(id, phase), now)
    {
      var entry := if id in watchers then watchers[id] else WatcherStatus(Starting, now);
      entry := entry.(phase := phase);
      entry := entry.(lastProgress := now);
      watchers := watchers[id := entry];
      Hear(Reports(Report(Watcher(id, phase), now)));
    }

    method MarkWatcherProgress(id: string, now: nat)
      requires Valid()
      modifies this
      ensures Valid() && told == old(told) + [Reports(Report(Progress(id), now))]
      ensures View() == Marked(old(View()), Progress(id), now)
    {
      if id !in watchers {
        Hear(Reports(Report(Progress(id), now)));
        return;
      }
      var entry := watchers[id];
      if entry.phase.Crashed? || entry.phase.Stopped? {
        Hear(Reports(Report(Progress(id), now)));
        return;
      }
      watchers := watchers[id := entry.(lastProgress := now)];
      Hear(Reports(Report(Progress(id), now)));
    }

    method MarkCommandRunner(id: string, phase: RunnerPhase, now: nat)
      requires Valid()
      modifies this
      ensures Valid() && told == old(told) + [Reports(Report(Runner(id, phase), now))]
      ensures View() == Marked(old(View()), Runner(id, phase), now)
    {
      var entry := if id in runners then runners[id] else RunnerStatus(RunnerStarting, now, None);
      entry := entry.(phase := phase, lastProgress := now);
      if !phase.Running? {
        entry := entry.(commandStarted := None);
      }
      runners := runners[id := entry];
      Hear(Reports(Report(Runner(id, phase), now)));
    }

    method MarkCommandStarted(id: string, now: nat)
      requires Valid()
      modifies this
      ensures Valid() && told == old(told) + [Reports(Report(Started(id), now))]
      ensures View() == Marked(old(View()), Started(id), now)
    {
      var entry := if id in runners then runners[id] else RunnerStatus(RunnerStarting, now, None);
      entry := entry.(phase := Running, lastProgress := now, commandStarted := Some(now));
      runners := runners[id := entry];
      Hear(Reports(Report(Started(id), now)));
    }

    method MarkCommandFinished(id: string, now: nat)
      requires Valid()
      modifies this
      ensures Valid() && told == old(told) + [Reports(Report(Finished(id), now))]
      ensures View() == Marked(old(View()), Finished(id), now)
    {
      var entry := if id in runners then runners[id] else RunnerStatus(RunnerStarting, now, None);
      entry := entry.(phase := Idle, lastProgress := now, commandStarted := None);
      runners := runners[id := entry];
      Hear(Reports(Report(Finished(id), now)));
    }

    /** `watchers_health_problem`. */
    method WatchersHealthProblem(now: nat) returns (problem: Option<HealthProblem>)
      ensures problem.None? <==>
                |watchers| == totalSources && forall id :: id in watchers ==> WatcherWell(watchers[id], watcherStale, now)
      ensures problem.Some? && problem.value.WatcherCount? <==> |watchers| != totalSources
      ensures problem.Some? ==> Has(View(), problem.value, totalSources, totalLanes, watcherStale, commandTimeout, now)
      ensures problem.Some? ==> !problem.value.RunnerCount?
    {
      if |watchers| != totalSources {
        return Some(WatcherCount(|watchers|, totalSources));
      }
      var todo := watchers.Keys;
      while todo != {}
        invariant todo <= watchers.Keys
        invariant forall id :: id in watchers && id !in todo ==> WatcherWell(watchers[id], watcherStale, now)
        decreases |todo|
      {
        var id :| id in todo;
        if watchers[id].phase.Crashed? || watchers[id].phase.Stopped? {
          return Some(WatcherDown(id));
        }
        if Elapsed(watchers[id].lastProgress, now) > watcherStale {
          return Some(WatcherStale(id));
        }
        todo := todo - {id};
      }
      problem := None;
    }

    /** `command_runners_health_problem`. */
    method CommandRunnersHealthProblem(now: nat) returns (problem: Option<HealthProblem>)
      ensures problem.None? <==>
                |runners| == totalLanes && forall id :: id in runners ==> RunnerWell(runners[id], commandTimeout, now)
      ensures problem.Some? && problem.value.RunnerCount? <==> |runners| != totalLanes
      ensures problem.Some? ==> Has(View(), problem.value, totalSources, totalLanes, watcherStale, commandTimeout, now)
      ensures problem.Some? ==> !problem.value.WatcherCount?
    {
      if |runners| != totalLanes {
        return Some(RunnerCount(|runners|, totalLanes));
      }
      var todo := runners.Keys;
      while todo != {}
        invariant todo <= runners.Keys
        invariant forall id :: id in runners && id !in todo ==> RunnerWell(runners[id], commandTimeout, now)
        decreases |todo|
      {
        var id :| id in todo;
        if runners[id].phase.RunnerCrashed? || runners[id].phase.RunnerStopped? {
          return Some(RunnerDown(id));
        }
        if runners[id].commandStarted.Some? && Elapsed(runners[id].commandStarted.value, now) > commandTimeout {
          return Some(RunnerOverdue(id));
        }
        todo := todo - {id};
      }
      problem := None;
    }

    /** `health_problem`. */
    method FindHealthProblem(now: nat) returns (problem: Option<HealthProblem>)
      ensures problem.None? <==>
                && |watchers| == totalSources && |runners| == totalLanes
                && (forall id :: id in watchers ==> WatcherWell(watchers[id], watcherStale, now))
                && (forall id :: id in runners ==> RunnerWell(runners[id], commandTimeout, now))
      ensures problem.Some? ==> Has(View(), problem.value, totalSources, totalLanes, watcherStale, commandTimeout, now)
      ensures |watchers| == totalSources && |runners| == totalLanes && problem.Some? ==>
                !problem.value.WatcherCount? && !problem.value.RunnerCount?
      ensures Valid() ==> forall id, k: nat :: RunsSince(told, id, k) && now > told[k].report.at + commandTimeout ==> problem.Some?
    {
      if Valid() {
        forall id, k: nat | RunsSince(told, id, k)
          ensures id in runners && (RunnerWell(runners[id], commandTimeout, now) <==> now <= told[k].report.at + commandTimeout)
        {
          StartedIsOverdueInTime(told, id, k, commandTimeout, now);
        }
      }
      problem := WatchersHealthProblem(now);
      if problem.None? {
        problem := CommandRunnersHealthProblem(now);
      }
    }
  }

  // ---------- Every run of reports ----------

  function Reported(inner: Inner, reports: seq<Report>): Inner {
    if reports == [] then inner
    else
      var last := reports[|reports| - 1];
      Marked(Reported(inner, reports[..|reports| - 1]), last.mark, last.at)
  }

  /** The reports that can create an entry name one that there is. */
  ghost predicate Registered(inner: Inner, mark: Mark) {
    match mark
    case Watcher(id, _) => id in inner.watchers
    case Progress(_) => true
    case Runner(id, _) => id in inner.runners
    case Started(id) => id in inner.runners
    case Finished(id) => id in inner.runners
  }

  ghost predicate AllRegistered(inner: Inner, reports: seq<Report>) {
    forall k :: 0 <= k < |reports| ==> Registered(inner, reports[k].mark)
  }

  lemma EntriesStay(inner: Inner, mark: Mark, now: nat)
    ensures var after := Marked(inner, mark, now);
            && inner.watchers.Keys <= after.watchers.Keys && inner.runners.Keys <= after.runners.Keys
            && (Registered(inner, mark) <==>
                  after.watchers.Keys == inner.watchers.Keys && after.runners.Keys == inner.runners.Keys)
  {
    var after := Marked(inner, mark, now);
    if Registered(inner, mark) {
      assert after.watchers.Keys == inner.watchers.Keys && after.runners.Keys == inner.runners.Keys;
    } else {
      assert mark.id in after.watchers.Keys - inner.watchers.Keys || mark.id in after.runners.Keys - inner.runners.Keys;
    }
  }

  lemma {:induction false} EntriesNeverLeave(inner: Inner, reports: seq<Report>)
    ensures inner.watchers.Keys <= Reported(inner, reports).watchers.Keys
    ensures inner.runners.Keys <= Reported(inner, reports).runners.Keys
    ensures AllRegistered(inner, reports) <==>
              && Reported(inner, reports).watchers.Keys == inner.watchers.Keys
              && Reported(inner, reports).runners.Keys == inner.runners.Keys
  {
    if reports != [] {
      var rest, last := reports[..|reports| - 1], reports[|reports| - 1];
      EntriesNeverLeave(inner, rest);
      EntriesStay(Reported(inner, rest), last.mark, last.at);
      assert AllRegistered(inner, reports) <==> AllRegistered(inner, rest) && Registered(inner, last.mark);
    }
  }

  lemma SubsetCount(a: set<string>, b: set<string>)
    requires a <= b
    ensures |a| <= |b| && (|a| == |b| <==> a == b)
  {
    assert b == a + (b - a);
    assert |b| == |a| + |b - a|;
  }

  /** Whatever tasks report, the counts stay what they were exactly if no report names an entry that was not there. */
  lemma CountsStayExactlyIfRegistered(inner: Inner, reports: seq<Report>)
    ensures var after := Reported(inner, reports);
            |after.watchers| == |inner.watchers| && |after.runners| == |inner.runners| <==> AllRegistered(inner, reports)
  {
    var after := Reported(inner, reports);
    EntriesNeverLeave(inner, reports);
    SubsetCount(inner.watchers.Keys, after.watchers.Keys);
    SubsetCount(inner.runners.Keys, after.runners.Keys);
    assert |inner.watchers| == |inner.watchers.Keys| && |after.watchers| == |after.watchers.Keys|;
    assert |inner.runners| == |inner.runners.Keys| && |after.runners| == |after.runners.Keys|;
  }

  // ---------- Registrations among reports ----------

  function WatchersRegistered(told: seq<Tell>): set<string> {
    if told == [] then {}
    else
      var last := told[|told| - 1];
      WatchersRegistered(told[..|told| - 1]) + if last.RegisterSource? then {last.id} else {}
  }

  function RunnersRegistered(told: seq<Tell>): set<string> {
    if told == [] then {}
    else
      var last := told[|told| - 1];
      RunnersRegistered(told[..|told| - 1]) + if last.RegisterLane? then {last.id} else {}
  }

  /** The report names an entry that was registered before. */
  predicate ComesFrom(watchers: set<string>, runners: set<string>, mark: Mark) {
    match mark
    case Watcher(id, _) => id in watchers
    case Progress(_) => true
    case Runner(id, _) => id in runners
    case Started(id) => id in runners
    case Finished(id) => id in runners
  }

  /** A task reports only after its entry was registered. */
  ghost predicate OnlyRegisteredReport(told: seq<Tell>) {
    forall k :: 0 <= k < |told| && told[k].Reports? ==>
      ComesFrom(WatchersRegistered(told[..k]), RunnersRegistered(told[..k]), told[k].report.mark)
  }

  /** Then the entries are exactly those registered, in every interleaving of registrations and reports. */
  lemma {:induction false} EntriesAreRegistrations(told: seq<Tell>)
    requires OnlyRegisteredReport(told)
    ensures Told(told).watchers.Keys == WatchersRegistered(told)
    ensures Told(told).runners.Keys == RunnersRegistered(told)
  {
    if told != [] {
      var rest, last := told[..|told| - 1], told[|told| - 1];
      forall k | 0 <= k < |rest| ensures rest[..k] == told[..k] {
      }
      EntriesAreRegistrations(rest);
      if last.Reports? {
        EntriesStay(Told(rest), last.report.mark, last.report.at);
      }
    }
  }

  /** A report of a registered task keeps it so, and registers nothing. */
  lemma ReportComesFrom(told: seq<Tell>, report: Report)
    requires OnlyRegisteredReport(told)
    requires ComesFrom(WatchersRegistered(told), RunnersRegistered(told), report.mark)
    ensures var more := told + [Reports(report)];
            && OnlyRegisteredReport(more)
            && WatchersRegistered(more) == WatchersRegistered(told) && RunnersRegistered(more) == RunnersRegistered(told)
  {
    var more := told + [Reports(report)];
    assert more[..|told|] == told;
    forall k | 0 <= k < |more| && more[k].Reports?
      ensures ComesFrom(WatchersRegistered(more[..k]), RunnersRegistered(more[..k]), more[k].report.mark)
    {
      if k < |told| {
        assert more[..k] == told[..k];
      }
    }
  }

  /** Nothing but registrations has been told. */
  ghost predicate OnlyRegistrations(told: seq<Tell>) {
    forall k :: 0 <= k < |told| ==> !told[k].Reports?
  }
}
