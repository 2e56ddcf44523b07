/** What holds in every run of the filesystem-state runner. */
module FsStateProps {
  import opened Options
  import opened FsState

  // ---------- Events are served ----------

  /** The runner owes something for entry `k`: an event outside the own-command window, or a failed
      change-triggered command. */
  ghost predicate Obliges(h: seq<Obs>, k: nat)
    requires k < |h|
  {
    || (h[k].Seen? && !h[k].suppressed)
    || (h[k].RunFailed? && h[k].sub < |h| && h[h[k].sub].Submitted? && !h[h[k].sub].startup)
  }

  /** No event outside the own-command window was received during the comparing read that ends at entry `j`. */
  ghost predicate Undisturbed(h: seq<Obs>, j: nat)
    requires j < |h| && h[j].Compared?
  {
    forall i :: h[j].began < i < j ==> !(h[i].Seen? && !h[i].suppressed)
  }

  /** Entry `j` settles what is owed for an earlier entry `k`: the end of a comparing read that began later and found the
      known baseline, or failed undisturbed; or the success of a command that was submitted later. */
  ghost predicate Settles(h: seq<Obs>, k: nat, j: nat)
    requires k < |h| && j < |h|
  {
    && k < j
    && (|| (h[j].Compared? && h[j].began > k
            && (if h[j].read.Some? then h[j].base == Some(Known(h[j].read.value)) else Undisturbed(h, j)))
        || (h[j].RunOk? && h[j].sub > k))
  }

  ghost predicate Unserved(h: seq<Obs>, k: nat)
    requires k < |h|
  {
    Obliges(h, k) && forall j :: k < j < |h| ==> !Settles(h, k, j)
  }

  /** What is still owed in each location. */
  ghost predicate Owes(s: State, k: nat)
    requires k < |s.world.history|
  {
    match s.loc
    case StartupRead => false
    case AwaitWork => false
    case Settling(_, _) => true
    case Checking(_, _) => true
    case Submitting(startup, dirty, sub) => if k < sub then !startup else dirty.first.Some?
    case AwaitingRun(startup, dirty, sub, _) => if k < sub then !startup else dirty.first.Some?
    case OwnSettling(dirty, _, _) => dirty.first.Some?
    case Rebaselining(dirty, _) => dirty.first.Some?
    case Stopped => true
  }

  ghost predicate Serves(s: State) {
    forall k :: 0 <= k < |s.world.history| && Unserved(s.world.history, k) ==> Owes(s, k)
  }

  // ---------- The batch that is being collected ----------

  /** A comparing read or a submission, which leaves what came before it behind. */
  predicate Opens(e: Obs) {
    e.CheckBegan? || e.Submitted?
  }

  /** Entry `k` obliges, and no read or submission has begun since. */
  ghost predicate Waiting(h: seq<Obs>, k: nat)
    requires k < |h|
  {
    Obliges(h, k) && forall j :: k < j < |h| ==> !Opens(h[j])
  }

  /** `first` is the time of the oldest entry that is waiting, and there is none without it. */
  ghost predicate OldestWaiting(h: seq<Obs>, first: Option<nat>) {
    && (forall k :: 0 <= k < |h| && Waiting(h, k) ==> first.Some? && first.value <= h[k].at)
    && (first.Some? ==> exists k :: 0 <= k < |h| && Waiting(h, k) && h[k].at == first.value)
  }

  /** `last` is the time of the newest entry that is waiting, and there is none without it. */
  ghost predicate NewestWaiting(h: seq<Obs>, last: Option<nat>) {
    && (forall k :: 0 <= k < |h| && Waiting(h, k) ==> last.Some? && h[k].at <= last.value)
    && (last.Some? ==> exists k :: 0 <= k < |h| && Waiting(h, k) && h[k].at == last.value)
  }

  /** The tracker holds the times of the oldest and of the newest entry that is waiting. */
  ghost predicate Tracks(h: seq<Obs>, d: Dirty) {
    OldestWaiting(h, d.first) && NewestWaiting(h, d.last)
  }

  predicate Ordered(d: Dirty, now: nat) {
    && (d.first.Some? <==> d.last.Some?)
    && (d.first.Some? ==> d.first.value <= d.last.value <= now)
  }

  // ---------- Provenance, time and the baseline ----------

  /** The baseline that the first entries of a history leave. */
  function BaseOf(cfg: Config, h: seq<Obs>): Option<Baseline> {
    if h == [] then (if cfg.hasReader then Some(Unknown) else None)
    else if h[|h| - 1].Based? then Some(Known(h[|h| - 1].state))
    else BaseOf(cfg, h[..|h| - 1])
  }

  ghost predicate EventsBy(h: seq<Obs>, n: nat, time: nat)
    requires n <= |h|
  {
    forall k :: 0 <= k < n && h[k].Seen? && !h[k].suppressed ==> h[k].at <= time
  }

  /** A comparing read that found another state than the known baseline. */
  predicate Differs(e: Obs) {
    e.Compared? && e.read.Some? && e.base != Some(Known(e.read.value))
  }

  /** The submission that a differing read must lead to. */
  predicate Answers(compared: Obs, e: Obs)
    requires compared.Compared?
  {
    e == Submitted(false, compared.at, compared.read, compared.base)
  }

  /** Every differing read is followed at once by its submission. */
  ghost predicate ActsOnDifference(h: seq<Obs>) {
    forall j :: 0 <= j < |h| && Differs(h[j]) ==> j + 1 < |h| && Answers(h[j], h[j + 1])
  }

  /** Entry `j` directly follows the end of a batch, at the same time. */
  predicate FollowsBatch(h: seq<Obs>, j: nat, at: nat)
    requires j < |h|
  {
    j > 0 && h[j - 1].Checked? && h[j - 1].at == at
  }

  /** Entry `j` follows from the entries it names. */
  ghost predicate LinkOk(cfg: Config, h: seq<Obs>, j: nat)
    requires j < |h|
  {
    match h[j]
    case Seen(_, _) => true
    case CheckBegan(at) => cfg.hasReader && FollowsBatch(h, j, at)
    case Compared(began, _, _, base) => began < j && h[began].CheckBegan? && base == BaseOf(cfg, h[..j])
    case Submitted(startup, at, read, base) =>
      && base == BaseOf(cfg, h[..j])
      && (cfg.hasReader && !startup ==> j > 0 && Differs(h[j - 1]) && Answers(h[j - 1], h[j]))
      && (!cfg.hasReader && !startup ==> FollowsBatch(h, j, at))
    case RunOk(sub, _) => sub < j && h[sub].Submitted?
    case RunFailed(sub, _) => sub < j && h[sub].Submitted?
    case RebaseBegan(ok, at) => ok < j && h[ok].RunOk? && at >= h[ok].at + cfg.selfSettle
    case Based(_, origin) => if origin.Startup? then j == 0 else origin.began < j && h[origin.began].RebaseBegan?
    case Checked(first, last, at) =>
      && first <= last <= at && at >= Due(cfg, first, last)
      && EventsBy(h, j, last) && Tracks(h[..j], Dirty(Some(first), Some(last)))
  }

  ghost predicate Linked(cfg: Config, s: State) {
    && (forall j :: 0 <= j < |s.world.history| ==> LinkOk(cfg, s.world.history, j))
    && EventsBy(s.world.history, |s.world.history|, s.world.now)
  }

  ghost predicate BaselineOk(cfg: Config, s: State) {
    s.baseline == BaseOf(cfg, s.world.history)
  }

  /** A dirty tracker holds two times in order: those of the oldest and the newest entry waiting, the latter no earlier than
      any event. */
  ghost predicate DirtyOk(w: World, d: Dirty) {
    && Ordered(d, w.now)
    && (d.first.Some? ==> EventsBy(w.history, |w.history|, d.last.value))
    && Tracks(w.history, d)
  }

  ghost predicate LocOk(cfg: Config, s: State) {
    var h := s.world.history;
    match s.loc
    case StartupRead => h == []
    case AwaitWork => Tracks(h, CLEAN)
    case Settling(first, last) =>
      first <= last <= s.world.now && EventsBy(h, |h|, last) && Tracks(h, Dirty(Some(first), Some(last)))
    case Checking(dirty, began) =>
      && cfg.hasReader && began < |h| && h[began].CheckBegan? && DirtyOk(s.world, dirty)
      && (forall j :: began < j < |h| ==> !Opens(h[j]))
    case Submitting(startup, dirty, sub) =>
      sub < |h| && h[sub].Submitted? && h[sub].startup == startup && DirtyOk(s.world, dirty)
    case AwaitingRun(startup, dirty, sub, _) =>
      sub < |h| && h[sub].Submitted? && h[sub].startup == startup && DirtyOk(s.world, dirty)
    case OwnSettling(dirty, until, ok) =>
      ok < |h| && h[ok].RunOk? && until == h[ok].at + cfg.selfSettle && DirtyOk(s.world, dirty)
    case Rebaselining(dirty, began) => began < |h| && h[began].RebaseBegan? && DirtyOk(s.world, dirty)
    case Stopped => true
  }

  ghost predicate Ready(cfg: Config, s: State) {
    Linked(cfg, s) && BaselineOk(cfg, s) && ActsOnDifference(s.world.history)
  }

  ghost predicate Inv(cfg: Config, s: State) {
    && Linked(cfg, s) && LocOk(cfg, s) && Serves(s) && ActsOnDifference(s.world.history)
    && (if s.loc.StartupRead? then cfg.hasReader && s.baseline == None
        else BaselineOk(cfg, s) || (s.loc.Stopped? && s.baseline == None && s.world.history == []))
  }

  // ---------- Recording keeps what is known ----------

  lemma BaseOfAppend(cfg: Config, h: seq<Obs>, e: Obs)
    ensures BaseOf(cfg, h + [e]) == if e.Based? then Some(Known(e.state)) else BaseOf(cfg, h)
  {
    assert (h + [e])[..|h|] == h;
  }

  lemma RecordLinks(cfg: Config, s: State, e: Obs)
    requires Linked(cfg, s)
    requires LinkOk(cfg, s.world.history + [e], |s.world.history|)
    requires e.Seen? && !e.suppressed ==> e.at <= s.world.now
    ensures Linked(cfg, s.(world := Record(s.world, e)))
  {
    var h := s.world.history;
    forall j | 0 <= j < |h| + 1 ensures LinkOk(cfg, h + [e], j) {
      if j < |h| {
        assert LinkOk(cfg, h, j);
        assert (h + [e])[..j] == h[..j];
      }
    }
  }

  lemma RecordActs(h: seq<Obs>, e: Obs)
    requires ActsOnDifference(h) && !Differs(e)
    ensures ActsOnDifference(h + [e])
  {
    forall j | 0 <= j < |h + [e]| && Differs((h + [e])[j]) ensures j + 1 < |h + [e]| && Answers((h + [e])[j], (h + [e])[j + 1]) {
      assert Differs(h[j]);
    }
  }

  lemma RecordReady(cfg: Config, s: State, e: Obs)
    requires Ready(cfg, s) && !e.Based? && !Differs(e)
    requires LinkOk(cfg, s.world.history + [e], |s.world.history|)
    requires e.Seen? && !e.suppressed ==> e.at <= s.world.now
    ensures Ready(cfg, s.(world := Record(s.world, e)))
  {
    RecordLinks(cfg, s, e);
    RecordActs(s.world.history, e);
    BaseOfAppend(cfg, s.world.history, e);
  }

  /** A new entry leaves the earlier ones as obliging as they were. */
  lemma ObligesStays(cfg: Config, h: seq<Obs>, e: Obs, k: nat)
    requires forall j :: 0 <= j < |h| ==> LinkOk(cfg, h, j)
    requires k < |h|
    ensures Obliges(h + [e], k) <==> Obliges(h, k)
  {
    assert LinkOk(cfg, h, k);
  }

  lemma SettlesStays(h: seq<Obs>, e: Obs, k: nat, j: nat)
    requires k < |h| && j < |h|
    ensures Settles(h + [e], k, j) <==> Settles(h, k, j)
  {
    if h[j].Compared? {
      var g := h + [e];
      assert Undisturbed(g, j) <==> Undisturbed(h, j) by {
        forall i | h[j].began < i < j ensures g[i] == h[i] {}
      }
    }
  }

  /** A new entry leaves owed only what was owed, and itself if it obliges. */
  lemma RecordServes(cfg: Config, h: seq<Obs>, e: Obs, k: nat)
    requires forall j :: 0 <= j < |h| ==> LinkOk(cfg, h, j)
    requires k < |h| + 1 && Unserved(h + [e], k)
    ensures k < |h| ==> Unserved(h, k) && !Settles(h + [e], k, |h|)
    ensures k == |h| ==> Obliges(h + [e], k)
  {
    if k < |h| {
      ObligesStays(cfg, h, e, k);
      forall j | k < j < |h| ensures !Settles(h, k, j) {
        SettlesStays(h, e, k, j);
      }
    }
  }

  lemma WaitingAppend(cfg: Config, h: seq<Obs>, e: Obs, k: nat)
    requires forall j :: 0 <= j < |h| ==> LinkOk(cfg, h, j)
    requires k < |h|
    ensures Waiting(h + [e], k) <==> Waiting(h, k) && !Opens(e)
  {
    ObligesStays(cfg, h, e, k);
    var g := h + [e];
    if Waiting(g, k) {
      assert !Opens(g[|h|]);
      forall j | k < j < |h| ensures !Opens(h[j]) {
        assert g[j] == h[j];
      }
    }
  }

  lemma TracksLater(h: seq<Obs>, e: Obs, d: Dirty)
    requires !e.Based? && Tracks(h, d) && Ordered(d, e.at) && !Opens(e) && Obliges(h + [e], |h|)
    requires forall k :: 0 <= k < |h| ==> (Waiting(h + [e], k) <==> Waiting(h, k))
    ensures Tracks(h + [e], d.NoteNow(e.at))
  {
    var g := h + [e];
    assert Waiting(g, |h|);
    if d.first.Some? {
      var k :| 0 <= k < |h| && Waiting(h, k) && h[k].at == d.first.value;
      assert Waiting(g, k) && g[k].at == d.first.value;
    }
    forall k | 0 <= k < |g| && Waiting(g, k) ensures d.NoteNow(e.at).first.value <= g[k].at <= e.at {
      assert k < |h| ==> Waiting(h, k);
    }
  }

  lemma TracksStill(h: seq<Obs>, e: Obs, d: Dirty)
    requires Tracks(h, d) && !Waiting(h + [e], |h|)
    requires forall k :: 0 <= k < |h| ==> (Waiting(h + [e], k) <==> Waiting(h, k))
    ensures Tracks(h + [e], d)
  {
    var g := h + [e];
    if d.first.Some? {
      var k :| 0 <= k < |h| && Waiting(h, k) && h[k].at == d.first.value;
      assert Waiting(g, k) && g[k].at == d.first.value;
    }
    if d.last.Some? {
      var k :| 0 <= k < |h| && Waiting(h, k) && h[k].at == d.last.value;
      assert Waiting(g, k) && g[k].at == d.last.value;
    }
    forall k | 0 <= k < |g| && Waiting(g, k) ensures k < |h| && Waiting(h, k) {}
  }

  /** What a new entry does to the batch: a read or submission empties it, an obliging entry joins it, no other matters. */
  lemma RecordWaiting(cfg: Config, h: seq<Obs>, e: Obs, d: Dirty)
    requires forall j :: 0 <= j < |h| ==> LinkOk(cfg, h, j)
    requires Tracks(h, d) && (!e.Based? ==> Ordered(d, e.at))
    ensures Opens(e) ==> Tracks(h + [e], CLEAN)
    ensures !Opens(e) ==>
              Tracks(h + [e], if Obliges(h + [e], |h|) then d.NoteNow(e.at) else d)
  {
    var g := h + [e];
    forall k | 0 <= k < |h| ensures Waiting(g, k) <==> Waiting(h, k) && !Opens(e) {
      WaitingAppend(cfg, h, e, k);
    }
    assert Waiting(g, |h|) <==> Obliges(g, |h|);
    if !Opens(e) {
      if Obliges(g, |h|) {
        TracksLater(h, e, d);
      } else {
        TracksStill(h, e, d);
      }
    }
  }

  // ---------- The code between two awaits ----------

  /** What is owed is at most what `dirty` stands for. */
  ghost predicate OwedToDirty(s: State, dirty: Dirty) {
    forall k :: 0 <= k < |s.world.history| && Unserved(s.world.history, k) ==> dirty.first.Some?
  }

  lemma SubmitKeeps(cfg: Config, s: State, startup: bool, read: Option<string>, dirty: Dirty)
    requires Linked(cfg, s) && BaselineOk(cfg, s)
    requires Tracks(s.world.history, dirty) && Ordered(dirty, s.world.now)
    requires ActsOnDifference(s.world.history + [Submitted(startup, s.world.now, read, s.baseline)])
    requires cfg.hasReader && !startup ==>
               var h := s.world.history;
               h != [] && Differs(h[|h| - 1]) && Answers(h[|h| - 1], Submitted(startup, s.world.now, read, s.baseline))
    requires !cfg.hasReader && !startup ==>
               FollowsBatch(s.world.history + [Submitted(startup, s.world.now, read, s.baseline)], |s.world.history|, s.world.now)
    requires startup ==> OwedToDirty(s, CLEAN)
    ensures Inv(cfg, Submit(s, startup, read))
  {
    var e := Submitted(startup, s.world.now, read, s.baseline);
    var h := s.world.history;
    assert (h + [e])[..|h|] == h;
    RecordLinks(cfg, s, e);
    BaseOfAppend(cfg, h, e);
    RecordWaiting(cfg, h, e, dirty);
    var t := Submit(s, startup, read);
    forall k | 0 <= k < |t.world.history| && Unserved(t.world.history, k) ensures Owes(t, k) {
      RecordServes(cfg, h, e, k);
    }
  }

  lemma AwaitKeeps(cfg: Config, s: State)
    requires Ready(cfg, s) && OwedToDirty(s, CLEAN) && Tracks(s.world.history, CLEAN)
    ensures Inv(cfg, Await(s))
  {
    if s.world.armed && s.world.signal {
      RecordActs(s.world.history, Submitted(true, s.world.now, None, s.baseline));
      SubmitKeeps(cfg, s.(world := s.world.(armed := false)), true, None, CLEAN);
    }
  }

  lemma CheckKeeps(cfg: Config, s: State, dirty: Dirty)
    requires Ready(cfg, s) && Tracks(s.world.history, dirty) && Ordered(dirty, s.world.now)
    requires s.world.history != [] && var e := s.world.history[|s.world.history| - 1]; e.Checked? && e.at == s.world.now
    ensures Inv(cfg, Check(cfg, s))
  {
    if cfg.hasReader {
      var e := CheckBegan(s.world.now);
      RecordReady(cfg, s, e);
      RecordWaiting(cfg, s.world.history, e, dirty);
    } else {
      RecordActs(s.world.history, Submitted(false, s.world.now, None, s.baseline));
      SubmitKeeps(cfg, s, false, None, dirty);
    }
  }

  lemma SettleKeeps(cfg: Config, s: State, first: nat, last: nat)
    requires Ready(cfg, s)
    requires first <= last <= s.world.now && EventsBy(s.world.history, |s.world.history|, last)
    requires Tracks(s.world.history, Dirty(Some(first), Some(last)))
    ensures Inv(cfg, Settle(cfg, s, first, last))
  {
    if s.world.now >= Due(cfg, first, last) {
      var e := Checked(first, last, s.world.now);
      assert (s.world.history + [e])[..|s.world.history|] == s.world.history;
      RecordReady(cfg, s, e);
      RecordWaiting(cfg, s.world.history, e, Dirty(Some(first), Some(last)));
      CheckKeeps(cfg, s.(world := Record(s.world, e)), Dirty(Some(first), Some(last)));
    }
  }

  lemma ConcludeKeeps(cfg: Config, s: State, dirty: Dirty)
    requires Ready(cfg, s) && DirtyOk(s.world, dirty) && OwedToDirty(s, dirty)
    ensures Inv(cfg, Conclude(cfg, s, dirty))
  {
    if dirty.first.None? {
      AwaitKeeps(cfg, s);
    } else {
      SettleKeeps(cfg, s, dirty.first.value, dirty.last.value);
    }
  }

  lemma FailKeeps(cfg: Config, s: State, startup: bool, dirty: Dirty, sub: nat)
    requires Inv(cfg, s)
    requires s.loc == Submitting(startup, dirty, sub)
             || (s.loc.AwaitingRun? && s.loc == AwaitingRun(startup, dirty, sub, s.loc.started))
    ensures Inv(cfg, Fail(cfg, s, startup, dirty, sub))
  {
    var e := RunFailed(sub, s.world.now);
    RecordReady(cfg, s, e);
    RecordWaiting(cfg, s.world.history, e, dirty);
    var t := s.(world := Record(s.world, e));
    var d := if startup then dirty else dirty.NoteNow(s.world.now);
    forall k | 0 <= k < |t.world.history| && Unserved(t.world.history, k) ensures d.first.Some? {
      RecordServes(cfg, s.world.history, e, k);
    }
    ConcludeKeeps(cfg, t, d);
  }

  lemma RebaselineKeeps(cfg: Config, s: State, dirty: Dirty, ok: nat)
    requires Ready(cfg, s) && DirtyOk(s.world, dirty) && OwedToDirty(s, dirty)
    requires ok < |s.world.history| && s.world.history[ok].RunOk? && s.world.now >= s.world.history[ok].at + cfg.selfSettle
    ensures Inv(cfg, Rebaseline(cfg, s, dirty, ok))
  {
    if cfg.hasReader {
      var e := RebaseBegan(ok, s.world.now);
      RecordReady(cfg, s, e);
      RecordWaiting(cfg, s.world.history, e, dirty);
      var t := Rebaseline(cfg, s, dirty, ok);
      forall k | 0 <= k < |t.world.history| && Unserved(t.world.history, k) ensures Owes(t, k) {
        RecordServes(cfg, s.world.history, e, k);
      }
    } else {
      ConcludeKeeps(cfg, s, dirty);
    }
  }

  lemma SucceedKeeps(cfg: Config, s: State, dirty: Dirty, sub: nat)
    requires Inv(cfg, s) && s.loc.AwaitingRun? && s.loc.dirty == dirty && s.loc.sub == sub
    ensures Inv(cfg, Succeed(cfg, s, dirty, sub))
  {
    var e := RunOk(sub, s.world.now);
    RecordReady(cfg, s, e);
    RecordWaiting(cfg, s.world.history, e, dirty);
    var t := s.(world := Record(s.world, e));
    forall k | 0 <= k < |t.world.history| && Unserved(t.world.history, k) ensures dirty.first.Some? {
      RecordServes(cfg, s.world.history, e, k);
    }
    if cfg.selfSettle == 0 {
      RebaselineKeeps(cfg, t, dirty, |s.world.history|);
    }
  }

  lemma ReceiveReady(cfg: Config, s: State, suppressed: bool)
    requires Ready(cfg, s)
    ensures Ready(cfg, Receive(s, suppressed))
  {
    RecordReady(cfg, s, Seen(s.world.now, suppressed));
  }

  /** A suppressed event leaves the tracker as it must be. */
  lemma SuppressDirty(cfg: Config, s: State, dirty: Dirty)
    requires Linked(cfg, s) && DirtyOk(s.world, dirty)
    ensures DirtyOk(Receive(s, true).world, dirty)
  {
    RecordWaiting(cfg, s.world.history, Seen(s.world.now, true), dirty);
  }

  lemma SuppressServes(cfg: Config, s: State)
    requires Linked(cfg, s) && Serves(s)
    ensures Serves(Receive(s, true).(loc := s.loc))
  {
    var t := Receive(s, true);
    forall k | 0 <= k < |t.world.history| && Unserved(t.world.history, k) ensures Owes(t, k) {
      RecordServes(cfg, s.world.history, Seen(s.world.now, true), k);
      assert Owes(s, k);
    }
  }

  /** A suppressed event is owed nothing, and is recorded without effect. */
  lemma SuppressKeeps(cfg: Config, s: State)
    requires Inv(cfg, s) && (s.loc.AwaitingRun? || s.loc.OwnSettling? || s.loc.Rebaselining?)
    ensures Inv(cfg, Receive(s, true))
  {
    ReceiveReady(cfg, s, true);
    SuppressDirty(cfg, s, s.loc.dirty);
    SuppressServes(cfg, s);
  }

  /** An event noted in the tracker of the location. */
  lemma NoteKeeps(cfg: Config, s: State, t: State)
    requires Inv(cfg, s) && (s.loc.Checking? || s.loc.Submitting? || s.loc.AwaitingRun?)
    requires t == Receive(s, false).(loc := t.loc)
    requires match s.loc
             case Checking(d, b) => t.loc == Checking(d.NoteNow(s.world.now), b)
             case Submitting(st, d, sub) => t.loc == Submitting(st, d.NoteNow(s.world.now), sub)
             case AwaitingRun(st, d, sub, started) => t.loc == AwaitingRun(st, d.NoteNow(s.world.now), sub, started)
             case _ => false
    ensures Inv(cfg, t)
  {
    ReceiveReady(cfg, s, false);
    RecordWaiting(cfg, s.world.history, Seen(s.world.now, false), s.loc.dirty);
    forall k | 0 <= k < |t.world.history| && Unserved(t.world.history, k) ensures Owes(t, k) {
      RecordServes(cfg, s.world.history, Seen(s.world.now, false), k);
      if k < |s.world.history| {
        assert Owes(s, k);
      }
    }
  }

  // ---------- One step ----------

  lemma ReceiveSettles(cfg: Config, s: State, dirty: Dirty)
    requires Ready(cfg, s) && Tracks(s.world.history, dirty) && Ordered(dirty, s.world.now)
    ensures Inv(cfg, Settle(cfg, Receive(s, false), if dirty.first.Some? then dirty.first.value else s.world.now, s.world.now))
  {
    ReceiveReady(cfg, s, false);
    RecordWaiting(cfg, s.world.history, Seen(s.world.now, false), dirty);
    SettleKeeps(cfg, Receive(s, false), if dirty.first.Some? then dirty.first.value else s.world.now, s.world.now);
  }

  lemma AwaitStepKeeps(cfg: Config, s: State, i: Input)
    requires Inv(cfg, s) && s.loc.AwaitWork?
    ensures Inv(cfg, AwaitStep(cfg, s, i))
  {
    match i {
      case Event => ReceiveSettles(cfg, s, CLEAN);
      case WatchChanged(_) => AwaitKeeps(cfg, s);
      case StartupChanged(_) =>
        AwaitKeeps(cfg, s);
        AwaitKeeps(cfg, s.(world := s.world.(armed := false)));
      case _ =>
    }
  }

  lemma SettlingStepKeeps(cfg: Config, s: State, i: Input)
    requires Inv(cfg, s) && s.loc.Settling?
    ensures Inv(cfg, SettlingStep(cfg, s, i))
  {
    match i {
      case Event => ReceiveSettles(cfg, s, Dirty(Some(s.loc.first), Some(s.loc.last)));
      case TimerFires => SettleKeeps(cfg, s, s.loc.first, s.loc.last);
      case WatchChanged(_) => SettleKeeps(cfg, s, s.loc.first, s.loc.last);
      case _ =>
    }
  }

  /** The end of a comparing read that does not differ: what came before it began is settled, unless it failed while
      events came. */
  lemma ComparedKeeps(cfg: Config, s: State, read: Option<string>)
    requires Inv(cfg, s) && s.loc.Checking? && (read.Some? ==> s.baseline == Some(Known(read.value)))
    ensures Inv(cfg, Conclude(cfg, Compare(s, s.loc.began, read), s.loc.dirty))
  {
    var Checking(dirty, began) := s.loc;
    var h := s.world.history;
    var e := Compared(began, s.world.now, read, s.baseline);
    assert (h + [e])[..|h|] == h;
    RecordReady(cfg, s, e);
    RecordWaiting(cfg, h, e, dirty);
    var t := Compare(s, began, read);
    forall k | 0 <= k < |t.world.history| && Unserved(t.world.history, k) ensures dirty.first.Some? {
      RecordServes(cfg, h, e, k);
      UndisturbedIfClean(cfg, s, e);
      if k > began {
        assert Waiting(h, k);
      }
    }
    ConcludeKeeps(cfg, t, dirty);
  }

  /** With a clean tracker nothing has come during the read. */
  lemma UndisturbedIfClean(cfg: Config, s: State, e: Obs)
    requires Inv(cfg, s) && s.loc.Checking? && e.Compared? && e.began == s.loc.began
    ensures s.loc.dirty.first.None? ==> Undisturbed(s.world.history + [e], |s.world.history|)
  {
    var h := s.world.history;
    if s.loc.dirty.first.None? {
      forall i | e.began < i < |h| ensures !(h[i].Seen? && !h[i].suppressed) {
        assert !Waiting(h, i);
      }
    }
  }

  lemma DifferingKeeps(cfg: Config, s: State, state: string)
    requires Inv(cfg, s) && s.loc.Checking? && s.baseline != Some(Known(state))
    ensures Inv(cfg, Submit(Compare(s, s.loc.began, Some(state)), false, Some(state)))
  {
    var h := s.world.history;
    var e := Compared(s.loc.began, s.world.now, Some(state), s.baseline);
    var sub := Submitted(false, s.world.now, Some(state), s.baseline);
    assert (h + [e])[..|h|] == h;
    RecordLinks(cfg, s, e);
    BaseOfAppend(cfg, h, e);
    RecordWaiting(cfg, h, e, s.loc.dirty);
    var g := h + [e] + [sub];
    forall j | 0 <= j < |g| && Differs(g[j]) ensures j + 1 < |g| && Answers(g[j], g[j + 1]) {
      if j < |h| {
        assert Differs(h[j]);
      }
    }
    SubmitKeeps(cfg, Compare(s, s.loc.began, Some(state)), false, Some(state), s.loc.dirty);
  }

  lemma CheckingStepKeeps(cfg: Config, s: State, i: Input)
    requires Inv(cfg, s) && s.loc.Checking?
    ensures Inv(cfg, CheckingStep(cfg, s, i))
  {
    match i {
      case ReadEnds(ReadOk(state)) =>
        if s.baseline == Some(Known(state)) {
          ComparedKeeps(cfg, s, Some(state));
        } else {
          DifferingKeeps(cfg, s, state);
        }
      case ReadEnds(ReadFailed) => ComparedKeeps(cfg, s, None);
      case Event => NoteKeeps(cfg, s, CheckingStep(cfg, s, i));
      case _ =>
    }
  }

  lemma SubmittingStepKeeps(cfg: Config, s: State, i: Input)
    requires Inv(cfg, s) && s.loc.Submitting?
    ensures Inv(cfg, SubmittingStep(cfg, s, i))
  {
    var Submitting(startup, dirty, sub) := s.loc;
    match i {
      case StartEnds(ok) =>
        if ok {
          var t := SubmittingStep(cfg, s, i);
          forall k | 0 <= k < |t.world.history| && Unserved(t.world.history, k) ensures Owes(t, k) {
            assert Owes(s, k);
          }
        } else {
          FailKeeps(cfg, s, startup, dirty, sub);
        }
      case Event => NoteKeeps(cfg, s, SubmittingStep(cfg, s, i));
      case _ =>
    }
  }

  lemma AwaitingRunStepKeeps(cfg: Config, s: State, i: Input)
    requires Inv(cfg, s) && s.loc.AwaitingRun?
    ensures Inv(cfg, AwaitingRunStep(cfg, s, i))
  {
    var AwaitingRun(startup, dirty, sub, started) := s.loc;
    match i {
      case Hears(Started) =>
        var t := AwaitingRunStep(cfg, s, i);
        forall k | 0 <= k < |t.world.history| && Unserved(t.world.history, k) ensures Owes(t, k) {
          assert Owes(s, k);
        }
      case Hears(Finished(success)) =>
        if success {
          SucceedKeeps(cfg, s, dirty, sub);
        } else {
          FailKeeps(cfg, s, startup, dirty, sub);
        }
      case Hears(Lost) => FailKeeps(cfg, s, startup, dirty, sub);
      case Event =>
        if started {
          SuppressKeeps(cfg, s);
        } else {
          NoteKeeps(cfg, s, AwaitingRunStep(cfg, s, i));
        }
      case _ =>
    }
  }

  lemma OwnSettlingStepKeeps(cfg: Config, s: State, i: Input)
    requires Inv(cfg, s) && s.loc.OwnSettling?
    ensures Inv(cfg, OwnSettlingStep(cfg, s, i))
  {
    match i {
      case TimerFires =>
        if s.world.now >= s.loc.until {
          RebaselineKeeps(cfg, s, s.loc.dirty, s.loc.ok);
        }
      case Event => SuppressKeeps(cfg, s);
      case _ =>
    }
  }

  lemma BaseKeeps(cfg: Config, s: State, state: string)
    requires Inv(cfg, s) && s.loc.Rebaselining?
    ensures Inv(cfg, Conclude(cfg, Base(s, state, AfterRun(s.loc.began)), s.loc.dirty))
  {
    var e := Based(state, AfterRun(s.loc.began));
    RecordLinks(cfg, s, e);
    RecordActs(s.world.history, e);
    BaseOfAppend(cfg, s.world.history, e);
    RecordWaiting(cfg, s.world.history, e, s.loc.dirty);
    var t := Base(s, state, AfterRun(s.loc.began));
    forall k | 0 <= k < |t.world.history| && Unserved(t.world.history, k) ensures s.loc.dirty.first.Some? {
      RecordServes(cfg, s.world.history, e, k);
    }
    ConcludeKeeps(cfg, t, s.loc.dirty);
  }

  lemma RebaseliningStepKeeps(cfg: Config, s: State, i: Input)
    requires Inv(cfg, s) && s.loc.Rebaselining?
    ensures Inv(cfg, RebaseliningStep(cfg, s, i))
  {
    match i {
      case ReadEnds(ReadOk(state)) => BaseKeeps(cfg, s, state);
      case ReadEnds(ReadFailed) => ConcludeKeeps(cfg, s, s.loc.dirty);
      case Event => SuppressKeeps(cfg, s);
      case _ =>
    }
  }

  lemma StartupReadStepKeeps(cfg: Config, s: State, i: Input)
    requires Inv(cfg, s) && s.loc.StartupRead?
    ensures Inv(cfg, StartupReadStep(cfg, s, i))
  {
    match i {
      case ReadEnds(ReadOk(state)) =>
        var e := Based(state, Startup);
        RecordLinks(cfg, s, e);
        BaseOfAppend(cfg, s.world.history, e);
        AwaitKeeps(cfg, Base(s, state, Startup));
      case ReadEnds(ReadFailed) =>
        if !cfg.mustBeReady {
          AwaitKeeps(cfg, s.(baseline := Some(Unknown)));
        }
      case _ =>
    }
  }

  lemma QuietStepKeeps(cfg: Config, s: State, i: Input)
    requires Inv(cfg, s) && !i.Elapse? && !i.GiveSignal?
    requires s.loc.StartupRead? || s.loc.AwaitWork? || s.loc.Settling? || s.loc.Checking? || s.loc.Stopped?
    ensures Inv(cfg, Step(cfg, s, i))
  {
    if s.loc.StartupRead? {
      StartupReadStepKeeps(cfg, s, i);
    } else if s.loc.AwaitWork? {
      AwaitStepKeeps(cfg, s, i);
    } else if s.loc.Settling? {
      SettlingStepKeeps(cfg, s, i);
    } else if s.loc.Checking? {
      CheckingStepKeeps(cfg, s, i);
    }
  }

  lemma CommandStepKeeps(cfg: Config, s: State, i: Input)
    requires Inv(cfg, s) && !i.Elapse? && !i.GiveSignal?
    requires s.loc.Submitting? || s.loc.AwaitingRun? || s.loc.OwnSettling? || s.loc.Rebaselining?
    ensures Inv(cfg, Step(cfg, s, i))
  {
    if s.loc.Submitting? {
      SubmittingStepKeeps(cfg, s, i);
    } else if s.loc.AwaitingRun? {
      AwaitingRunStepKeeps(cfg, s, i);
    } else if s.loc.OwnSettling? {
      OwnSettlingStepKeeps(cfg, s, i);
    } else {
      RebaseliningStepKeeps(cfg, s, i);
    }
  }

  lemma StepKeepsInv(cfg: Config, s: State, i: Input)
    requires Inv(cfg, s)
    ensures Inv(cfg, Step(cfg, s, i))
  {
    if i.Elapse? || i.GiveSignal? {
      ClockKeeps(cfg, s, Step(cfg, s, i));
    } else if s.loc.Submitting? || s.loc.AwaitingRun? || s.loc.OwnSettling? || s.loc.Rebaselining? {
      CommandStepKeeps(cfg, s, i);
    } else {
      QuietStepKeeps(cfg, s, i);
    }
  }

  lemma ClockKeeps(cfg: Config, s: State, t: State)
    requires Inv(cfg, s)
    requires t == s.(world := t.world) && t.world.history == s.world.history && t.world.now >= s.world.now
    ensures Inv(cfg, t)
  {
    forall k | 0 <= k < |t.world.history| && Unserved(t.world.history, k) ensures Owes(t, k) {
      assert Owes(s, k);
    }
  }

  lemma {:induction false} RunKeepsInv(cfg: Config, armed: bool, script: seq<Input>)
    ensures Inv(cfg, Run(cfg, Init(cfg, armed), script))
  {
    if script != [] {
      RunKeepsInv(cfg, armed, script[..|script| - 1]);
      StepKeepsInv(cfg, Run(cfg, Init(cfg, armed), script[..|script| - 1]), script[|script| - 1]);
    }
  }

  // ---------- Why the runner stops ----------

  /** Input `i` ends the task in state `s`: shutdown, the end of the events while they are waited for, or a state read that
      was cancelled, which happens on shutdown. */
  predicate EndsTask(s: State, i: Input) {
    || (i == WatchChanged(true) && !s.loc.StartupRead?)
    || (i.EventsClosed? && (s.loc.AwaitWork? || s.loc.Settling?))
    || (i == ReadEnds(ReadCancelled) && (s.loc.StartupRead? || s.loc.Checking? || s.loc.Rebaselining?))
  }

  /** A startup read that has to succeed and fails. */
  predicate FailsToStart(cfg: Config, s: State, i: Input) {
    s.loc.StartupRead? && cfg.mustBeReady && i == ReadEnds(ReadFailed)
  }

  lemma StepStopsWhy(cfg: Config, s: State, i: Input)
    requires !s.loc.Stopped?
    ensures Step(cfg, s, i).loc.Stopped? <==> EndsTask(s, i) || FailsToStart(cfg, s, i)
  {
  }

  /** Somewhere in the schedule shutdown or the end of the events ended the task. */
  ghost predicate ToldToStop(cfg: Config, armed: bool, script: seq<Input>) {
    exists n :: 0 <= n < |script| && EndsAt(cfg, armed, script, n)
  }

  ghost predicate EndsAt(cfg: Config, armed: bool, script: seq<Input>, n: nat)
    requires n < |script|
  {
    var s := Run(cfg, Init(cfg, armed), script[..n]);
    !s.loc.Stopped? && EndsTask(s, script[n])
  }

  lemma ToldToStopNext(cfg: Config, armed: bool, script: seq<Input>)
    requires script != []
    requires ToldToStop(cfg, armed, script[..|script| - 1]) || EndsAt(cfg, armed, script, |script| - 1)
    ensures ToldToStop(cfg, armed, script)
  {
    var rest := script[..|script| - 1];
    if ToldToStop(cfg, armed, rest) {
      var n :| 0 <= n < |rest| && EndsAt(cfg, armed, rest, n);
      assert rest[..n] == script[..n] && EndsAt(cfg, armed, script, n);
    }
  }

  /** The runner stops exactly when it is told to, or when it cannot start, before it has done anything. */
  lemma {:induction false} StopsOnlyWhenTold(cfg: Config, armed: bool, script: seq<Input>)
    ensures var s := Run(cfg, Init(cfg, armed), script);
            && (s.loc.Stopped? ==> ToldToStop(cfg, armed, script) || (cfg.hasReader && cfg.mustBeReady && s.world.history == []))
            && (ToldToStop(cfg, armed, script) ==> s.loc.Stopped?)
  {
    if script != [] {
      var rest, i := script[..|script| - 1], script[|script| - 1];
      var s := Run(cfg, Init(cfg, armed), rest);
      StopsOnlyWhenTold(cfg, armed, rest);
      RunKeepsInv(cfg, armed, rest);
      if !s.loc.Stopped? {
        StepStopsWhy(cfg, s, i);
      }
      if ToldToStop(cfg, armed, rest) || EndsAt(cfg, armed, script, |script| - 1) {
        ToldToStopNext(cfg, armed, script);
      } else if ToldToStop(cfg, armed, script) {
        var n :| 0 <= n < |script| && EndsAt(cfg, armed, script, n);
        assert n < |rest|;
        assert rest[..n] == script[..n] && EndsAt(cfg, armed, rest, n);
      }
    }
  }

  // ---------- Main results ----------

  /** Something the runner holds is still to be served. */
  ghost predicate InFlight(s: State) {
    match s.loc
    case Settling(_, _) => true
    case Checking(_, _) => true
    case Submitting(startup, dirty, _) => !startup || dirty.first.Some?
    case AwaitingRun(startup, dirty, _, _) => !startup || dirty.first.Some?
    case OwnSettling(dirty, _, _) => dirty.first.Some?
    case Rebaselining(dirty, _) => dirty.first.Some?
    case _ => false
  }

  /** No received event is lost, and no failed change-triggered command is forgotten: whatever the schedule, each is
      followed by a comparing read that began after it and found the known baseline, or failed with no event during it,
      or by the success of a command submitted after it; or the runner is not at rest; or shutdown or the end of the events
      ended it. */
  lemma {:induction false} NoEventLost(cfg: Config, armed: bool, script: seq<Input>, k: nat)
    requires k < |Run(cfg, Init(cfg, armed), script).world.history|
    requires Obliges(Run(cfg, Init(cfg, armed), script).world.history, k)
    ensures var s := Run(cfg, Init(cfg, armed), script);
            || (exists j :: k < j < |s.world.history| && Settles(s.world.history, k, j))
            || InFlight(s)
            || ToldToStop(cfg, armed, script)
  {
    var s := Run(cfg, Init(cfg, armed), script);
    RunKeepsInv(cfg, armed, script);
    StopsOnlyWhenTold(cfg, armed, script);
    if Unserved(s.world.history, k) {
      assert Owes(s, k);
    }
  }

  /** Whenever the runner waits for work, every event and every failed change-triggered command has been served so. */
  lemma {:induction false} ServedAtRest(cfg: Config, armed: bool, script: seq<Input>, k: nat)
    requires k < |Run(cfg, Init(cfg, armed), script).world.history|
    requires Obliges(Run(cfg, Init(cfg, armed), script).world.history, k)
    requires Run(cfg, Init(cfg, armed), script).loc.AwaitWork?
    ensures var h := Run(cfg, Init(cfg, armed), script).world.history;
            exists j :: k < j < |h| && Settles(h, k, j)
  {
    NoEventLost(cfg, armed, script, k);
    StopsOnlyWhenTold(cfg, armed, script);
  }

  /** A failed change-triggered command is retried: the runner is never back at rest before a later read has found the known
      baseline or failed undisturbed, or a later submission has succeeded. */
  lemma {:induction false} FailedChangeIsRetried(cfg: Config, armed: bool, script: seq<Input>, k: nat)
    requires k < |Run(cfg, Init(cfg, armed), script).world.history|
    requires var h := Run(cfg, Init(cfg, armed), script).world.history;
             h[k].RunFailed? && h[k].sub < |h| && h[h[k].sub].Submitted? && !h[h[k].sub].startup
    requires Run(cfg, Init(cfg, armed), script).loc.AwaitWork?
    ensures var h := Run(cfg, Init(cfg, armed), script).world.history;
            exists j :: k < j < |h| && Settles(h, k, j)
  {
    NoEventLost(cfg, armed, script, k);
    StopsOnlyWhenTold(cfg, armed, script);
  }

  /** A change is acted on, and nothing else is: with a reader, a comparing read is followed at once by the submission of the
      command if and only if it succeeded and its state differs from the known baseline, or the baseline is unknown; and
      every change-triggered submission follows such a read. */
  lemma {:induction false} SubmitsExactlyOnDifference(cfg: Config, armed: bool, script: seq<Input>, j: nat)
    requires cfg.hasReader
    requires j < |Run(cfg, Init(cfg, armed), script).world.history|
    ensures var h := Run(cfg, Init(cfg, armed), script).world.history;
            && (h[j].Compared? ==>
                  && h[j].began < j && h[h[j].began].CheckBegan? && h[j].base == BaseOf(cfg, h[..j])
                  && (h[j].read.Some? && h[j].base != Some(Known(h[j].read.value)) <==>
                        j + 1 < |h| && h[j + 1] == Submitted(false, h[j].at, h[j].read, h[j].base)))
            && (h[j].Submitted? && !h[j].startup ==>
                  j > 0 && Differs(h[j - 1]) && h[j] == Submitted(false, h[j - 1].at, h[j - 1].read, h[j - 1].base))
  {
    RunKeepsInv(cfg, armed, script);
    var h := Run(cfg, Init(cfg, armed), script).world.history;
    assert LinkOk(cfg, h, j);
    if j + 1 < |h| {
      assert LinkOk(cfg, h, j + 1);
    }
  }

  /** The baseline is known exactly when some read was accepted, and is then the last accepted one; an accepted read
      is the startup read, or was begun at least the settle time after an own command succeeded. Nothing else,
      in particular no failed, timed-out, cancelled or unsubmitted command, changes it. */
  lemma {:induction false} BaselineIsSound(cfg: Config, armed: bool, script: seq<Input>, j: nat)
    requires j < |Run(cfg, Init(cfg, armed), script).world.history|
    ensures var s := Run(cfg, Init(cfg, armed), script);
            var h := s.world.history;
            && s.baseline == BaseOf(cfg, h)
            && (h[j].Based? && h[j].origin.Startup? ==> j == 0)
            && (h[j].Based? && h[j].origin.AfterRun? ==>
                  var b := h[j].origin.began;
                  b < j && h[b].RebaseBegan? && h[b].ok < b && h[h[b].ok].RunOk?
                  && h[b].at >= h[h[b].ok].at + cfg.selfSettle)
  {
    RunKeepsInv(cfg, armed, script);
    var h := Run(cfg, Init(cfg, armed), script).world.history;
    assert LinkOk(cfg, h, j);
    if h[j].Based? && h[j].origin.AfterRun? {
      assert LinkOk(cfg, h, h[j].origin.began);
    }
  }

  predicate EndsWait(i: Input) {
    i.Event? || i.TimerFires? || i == WatchChanged(false)
  }

  /** Settling is bounded: while a batch settles, its oldest entry, an event or a failed command, came at `first`, and the
      batch is due at most `max_debounce` after that, whatever events arrive; once that time has come any event, timer or
      other resolution of the wait but shutdown and the end of the events lets the check begin. */
  lemma {:induction false} SettleBound(cfg: Config, armed: bool, script: seq<Input>, i: Input)
    requires Run(cfg, Init(cfg, armed), script).loc.Settling?
    ensures var s := Run(cfg, Init(cfg, armed), script);
            && (exists k :: 0 <= k < |s.world.history| && Waiting(s.world.history, k)
                            && Due(cfg, s.loc.first, s.loc.last) <= s.world.history[k].at + cfg.maxDebounce)
            && (forall k :: 0 <= k < |s.world.history| && Waiting(s.world.history, k) ==>
                  && Due(cfg, s.loc.first, s.loc.last) <= s.world.history[k].at + cfg.maxDebounce
                  && (s.world.now >= s.world.history[k].at + cfg.maxDebounce && EndsWait(i) ==>
                        Step(cfg, s, i).loc.Checking? || Step(cfg, s, i).loc.Submitting?))
  {
    RunKeepsInv(cfg, armed, script);
  }

  /** And it ends in quiet: the batch is due at most `debounce` after its newest entry, and once that time has come without a
      further one, the timer, or a watch change that is no shutdown, lets the check begin. */
  lemma {:induction false} SettlesWhenQuiet(cfg: Config, armed: bool, script: seq<Input>, i: Input) returns (k: nat)
    requires Run(cfg, Init(cfg, armed), script).loc.Settling?
    ensures var s := Run(cfg, Init(cfg, armed), script);
            var h := s.world.history;
            && k < |h| && Waiting(h, k) && (forall j :: 0 <= j < |h| && Waiting(h, j) ==> h[j].at <= h[k].at)
            && Due(cfg, s.loc.first, s.loc.last) <= h[k].at + cfg.debounce
            && (s.world.now >= h[k].at + cfg.debounce && (i.TimerFires? || i == WatchChanged(false)) ==>
                  Step(cfg, s, i).loc.Checking? || Step(cfg, s, i).loc.Submitting?)
  {
    RunKeepsInv(cfg, armed, script);
    var s := Run(cfg, Init(cfg, armed), script);
    k :| 0 <= k < |s.world.history| && Waiting(s.world.history, k) && s.world.history[k].at == s.loc.last;
  }

  /** Only a batch that has settled is checked: a comparing read, or without a reader a change-triggered submission, directly
      follows the end of a batch. */
  lemma {:induction false} ChecksOnlyBatches(cfg: Config, armed: bool, script: seq<Input>, j: nat)
    requires j < |Run(cfg, Init(cfg, armed), script).world.history|
    requires var e := Run(cfg, Init(cfg, armed), script).world.history[j];
             e.CheckBegan? || (e.Submitted? && !e.startup && !cfg.hasReader)
    ensures var h := Run(cfg, Init(cfg, armed), script).world.history;
            j > 0 && h[j - 1].Checked? && h[j - 1].at == h[j].at && (h[j].CheckBegan? ==> cfg.hasReader)
  {
    RunKeepsInv(cfg, armed, script);
    assert LinkOk(cfg, Run(cfg, Init(cfg, armed), script).world.history, j);
  }

  /** A batch is checked no sooner than it is due: when its oldest entry is `max_debounce` old, or earlier only when no event
      outside the own-command window was received in the last `debounce`. */
  lemma {:induction false} CheckedWhenDue(cfg: Config, armed: bool, script: seq<Input>, j: nat, k: nat)
    requires k < j < |Run(cfg, Init(cfg, armed), script).world.history|
    requires var h := Run(cfg, Init(cfg, armed), script).world.history; h[j].Checked?
    ensures var h := Run(cfg, Init(cfg, armed), script).world.history;
            && h[j].first <= h[j].last <= h[j].at
            && (exists o :: 0 <= o < j && Waiting(h[..j], o) && h[o].at == h[j].first)
            && (Waiting(h[..j], k) ==> h[j].first <= h[k].at)
            && (h[j].at < h[j].first + cfg.maxDebounce && h[k].Seen? && !h[k].suppressed ==>
                  h[k].at + cfg.debounce <= h[j].at)
  {
    RunKeepsInv(cfg, armed, script);
    var h := Run(cfg, Init(cfg, armed), script).world.history;
    assert LinkOk(cfg, h, j);
    var o :| 0 <= o < j && Waiting(h[..j], o) && h[..j][o].at == h[j].first;
    assert h[o].at == h[j].first;
  }

  // ---------- No self-trigger loop ----------

  ghost predicate ReadsOnly(script: seq<Input>, state: string) {
    forall k :: 0 <= k < |script| && script[k].ReadEnds? && script[k].result.ReadOk? ==> script[k].result.state == state
  }

  /** The baseline is `state` and no change-triggered command is out. */
  ghost predicate Reconciled(s: State, state: string) {
    && s.baseline == Some(Known(state))
    && !s.loc.StartupRead?
    && (s.loc.Submitting? || s.loc.AwaitingRun? ==> s.loc.startup)
  }

  ghost predicate NoChangeSubmitted(h: seq<Obs>, from: nat) {
    forall k :: from <= k < |h| && h[k].Submitted? ==> h[k].startup
  }

  ghost predicate Calm(s: State, state: string, from: nat) {
    s.baseline == Some(Known(state)) && NoChangeSubmitted(s.world.history, from)
  }

  lemma ConcludeReconciled(cfg: Config, s: State, dirty: Dirty, state: string, from: nat)
    requires cfg.hasReader && Calm(s, state, from)
    ensures Reconciled(Conclude(cfg, s, dirty), state) && Calm(Conclude(cfg, s, dirty), state, from)
  {
  }

  lemma FailReconciled(cfg: Config, s: State, startup: bool, dirty: Dirty, sub: nat, state: string, from: nat)
    requires cfg.hasReader && Calm(s, state, from)
    ensures Reconciled(Fail(cfg, s, startup, dirty, sub), state) && Calm(Fail(cfg, s, startup, dirty, sub), state, from)
  {
    var t := s.(world := Record(s.world, RunFailed(sub, s.world.now)));
    ConcludeReconciled(cfg, t, if startup then dirty else dirty.NoteNow(s.world.now), state, from);
  }

  lemma SettleReconciled(cfg: Config, s: State, first: nat, last: nat, state: string, from: nat)
    requires cfg.hasReader && Calm(s, state, from)
    ensures Reconciled(Settle(cfg, s, first, last), state) && Calm(Settle(cfg, s, first, last), state, from)
  {
  }

  lemma CheckingReconciled(cfg: Config, s: State, i: Input, state: string, from: nat)
    requires cfg.hasReader && s.loc.Checking? && Calm(s, state, from)
    requires i.ReadEnds? && i.result.ReadOk? ==> i.result.state == state
    ensures Reconciled(CheckingStep(cfg, s, i), state) && Calm(CheckingStep(cfg, s, i), state, from)
  {
    ConcludeReconciled(cfg, Compare(s, s.loc.began, Some(state)), s.loc.dirty, state, from);
    ConcludeReconciled(cfg, Compare(s, s.loc.began, None), s.loc.dirty, state, from);
  }

  lemma CommandReconciled(cfg: Config, s: State, i: Input, state: string, from: nat)
    requires cfg.hasReader && Reconciled(s, state) && Calm(s, state, from) && (s.loc.Submitting? || s.loc.AwaitingRun?)
    ensures s.loc.Submitting? ==>
              Reconciled(SubmittingStep(cfg, s, i), state) && Calm(SubmittingStep(cfg, s, i), state, from)
    ensures s.loc.AwaitingRun? ==>
              Reconciled(AwaitingRunStep(cfg, s, i), state) && Calm(AwaitingRunStep(cfg, s, i), state, from)
  {
    FailReconciled(cfg, s, s.loc.startup, s.loc.dirty, s.loc.sub, state, from);
  }

  lemma RebaseliningReconciled(cfg: Config, s: State, i: Input, state: string, from: nat)
    requires cfg.hasReader && s.loc.Rebaselining? && Calm(s, state, from)
    requires i.ReadEnds? && i.result.ReadOk? ==> i.result.state == state
    ensures Reconciled(RebaseliningStep(cfg, s, i), state) && Calm(RebaseliningStep(cfg, s, i), state, from)
  {
    ConcludeReconciled(cfg, s, s.loc.dirty, state, from);
    ConcludeReconciled(cfg, Base(s, state, AfterRun(s.loc.began)), s.loc.dirty, state, from);
  }

  lemma SettlingReconciled(cfg: Config, s: State, i: Input, state: string, from: nat)
    requires cfg.hasReader && s.loc.Settling? && Calm(s, state, from)
    ensures Reconciled(SettlingStep(cfg, s, i), state) && Calm(SettlingStep(cfg, s, i), state, from)
  {
    SettleReconciled(cfg, s, s.loc.first, s.loc.last, state, from);
    SettleReconciled(cfg, Receive(s, false), s.loc.first, s.world.now, state, from);
  }

  lemma {:induction false} StepReconciled(cfg: Config, s: State, i: Input, state: string, from: nat)
    requires cfg.hasReader && Reconciled(s, state) && Calm(s, state, from)
    requires i.ReadEnds? && i.result.ReadOk? ==> i.result.state == state
    ensures Reconciled(Step(cfg, s, i), state) && Calm(Step(cfg, s, i), state, from)
  {
    if !i.Elapse? && !i.GiveSignal? {
      match s.loc {
        case StartupRead =>
        case AwaitWork => SettleReconciled(cfg, Receive(s, false), s.world.now, s.world.now, state, from);
        case Settling(_, _) => SettlingReconciled(cfg, s, i, state, from);
        case Checking(_, _) => CheckingReconciled(cfg, s, i, state, from);
        case Submitting(_, _, _) => CommandReconciled(cfg, s, i, state, from);
        case AwaitingRun(_, _, _, _) => CommandReconciled(cfg, s, i, state, from);
        case OwnSettling(_, _, _) =>
        case Rebaselining(_, _) => RebaseliningReconciled(cfg, s, i, state, from);
        case Stopped =>
      }
    }
  }

  /** No self-trigger loop: once the baseline is `state` and no command is out, no number of events, failures or
      startup runs makes a change submit the command while the reads that succeed return `state`. */
  lemma {:induction false} NoSelfTriggerLoop(cfg: Config, s: State, more: seq<Input>, state: string)
    requires cfg.hasReader && Reconciled(s, state) && ReadsOnly(more, state)
    ensures var t := Run(cfg, s, more);
            Reconciled(t, state) && NoChangeSubmitted(t.world.history, |s.world.history|)
  {
    if more != [] {
      NoSelfTriggerLoop(cfg, s, more[..|more| - 1], state);
      StepReconciled(cfg, Run(cfg, s, more[..|more| - 1]), more[|more| - 1], state, |s.world.history|);
    }
  }

  /** A successful rebaseline leads to such a state. */
  lemma RebaselineReconciles(cfg: Config, s: State, state: string)
    requires cfg.hasReader && s.loc.Rebaselining?
    ensures Reconciled(Step(cfg, s, ReadEnds(ReadOk(state))), state)
  {
  }

  // ---------- What is not retried ----------

  /** The runner waits for work, or has just begun the startup run it was waiting for. */
  ghost predicate AtRest(s: State) {
    s.loc.AwaitWork? || (s.loc.Submitting? && s.loc.startup)
  }

  /** A failed state read puts the runner to rest exactly if no event came during the read; a command that failed or could
      not be submitted or followed exactly if it was the startup run and no event is still to be served. Neither touches
      the baseline. */
  lemma RestsAfterFailureExactly(cfg: Config, s: State, i: Input)
    requires (s.loc.Checking? && i == ReadEnds(ReadFailed))
             || (s.loc.AwaitingRun? && (i == Hears(Finished(false)) || i == Hears(Lost)))
             || (s.loc.Submitting? && i == StartEnds(false))
    ensures AtRest(Step(cfg, s, i)) <==> s.loc.dirty.first.None? && (s.loc.Checking? || s.loc.startup)
    ensures Step(cfg, s, i).baseline == s.baseline
  {
  }

  const PROMPT := Config(1, 10, 1, true, false)

  /** So an event can be forgotten: here one is received, the read it causes fails, and the runner is at rest. */
  lemma {:induction false} EventOfFailedReadIsForgotten()
    ensures var script := [ReadEnds(ReadOk("a")), Event, Elapse(1), TimerFires, ReadEnds(ReadFailed)];
            var s := Run(PROMPT, Init(PROMPT, false), script);
            && s.loc.AwaitWork? && s.baseline == Some(Known("a"))
            && s.world.history == [Based("a", Startup), Seen(0, false), Checked(0, 0, 1), CheckBegan(1),
                                   Compared(3, 1, None, Some(Known("a")))]
  {
    var script := [ReadEnds(ReadOk("a")), Event, Elapse(1), TimerFires, ReadEnds(ReadFailed)];
    RunStep(PROMPT, Init(PROMPT, false), script, 0);
    RunStep(PROMPT, Init(PROMPT, false), script, 1);
    RunStep(PROMPT, Init(PROMPT, false), script, 2);
    RunStep(PROMPT, Init(PROMPT, false), script, 3);
    RunStep(PROMPT, Init(PROMPT, false), script, 4);
    assert script[..0] == [] && script[..5] == script;
  }

  /** So a startup run that fails is not tried again: here the runner is at rest after one, and nothing follows it. */
  lemma {:induction false} StartupFailureIsNotRetried(cfg: Config)
    requires cfg.hasReader
    ensures var script := [ReadEnds(ReadOk("a")), GiveSignal, StartupChanged(false), StartEnds(true), Hears(Finished(false))];
            var s := Run(cfg, Init(cfg, true), script);
            && s.loc.AwaitWork?
            && s.world.history == [Based("a", Startup), Submitted(true, 0, None, Some(Known("a"))), RunFailed(1, 0)]
  {
    var script := [ReadEnds(ReadOk("a")), GiveSignal, StartupChanged(false), StartEnds(true), Hears(Finished(false))];
    RunStep(cfg, Init(cfg, true), script, 0);
    RunStep(cfg, Init(cfg, true), script, 1);
    RunStep(cfg, Init(cfg, true), script, 2);
    RunStep(cfg, Init(cfg, true), script, 3);
    RunStep(cfg, Init(cfg, true), script, 4);
    assert script[..0] == [] && script[..5] == script;
  }
}
