/** System-resume events: one broadcast for each resume however many listeners report it. */
module Resume {
  import opened Basics
  import opened Options

  const RECENT_RESUME_EVENTS := 64

  datatype Signal = Suspending | Resumed

  /** A D-Bus signal is identified by its sender and its serial number. */
  datatype EventId = EventId(sender: Option<string>, serial: nat)

  datatype Event = Event(signal: Signal, id: EventId)

  /** What `broadcast` makes of the retained history. */
  function Remember(recent: seq<EventId>, id: EventId): seq<EventId> {
    if id in recent then recent
    else (if |recent| == RECENT_RESUME_EVENTS then recent[1..] else recent) + [id]
  }

  function Last(all: seq<EventId>, n: nat): seq<EventId> {
    if |all| <= n then all else all[|all| - n..]
  }

  class ResumeBroadcaster {
    var recent: seq<EventId>
    /** Every id that was sent to the IMAP watchers, in order. */
    ghost var sent: seq<EventId>

    /** The bounded history is the end of the unbounded one, and holds no id twice. */
    ghost predicate Valid()
      reads this
    {
      recent == Last(sent, RECENT_RESUME_EVENTS) && NoDup(recent)
    }

    constructor ()
      ensures Valid() && sent == []
    {
      recent, sent := [], [];
    }

    method Broadcast(event: Event)
      requires Valid()
      modifies this
      ensures Valid()
      ensures sent == old(sent) + if event.signal.Resumed? && event.id !in old(recent) then [event.id] else []
      ensures recent == if event.signal.Resumed? then Remember(old(recent), event.id) else old(recent)
    {
      if event.signal != Resumed {
        return;
      }
      if event.id in recent {
        return;
      }
      RememberKeepsLast(sent, event.id);
      if |recent| == RECENT_RESUME_EVENTS {
        recent := recent[1..];
      }
      recent := recent + [event.id];
      sent := sent + [event.id];
    }
  }

  // ---------- The history is the end of what was broadcast ----------

  /** What is broadcast when ids are reported in this order. */
  function Sent(reports: seq<EventId>): seq<EventId> {
    if reports == [] then []
    else
      var before := Sent(reports[..|reports| - 1]);
      var id := reports[|reports| - 1];
      if id in Recent(reports[..|reports| - 1]) then before else before + [id]
  }

  function Recent(reports: seq<EventId>): seq<EventId> {
    if reports == [] then []
    else Remember(Recent(reports[..|reports| - 1]), reports[|reports| - 1])
  }

  lemma RememberKeepsLast(all: seq<EventId>, id: EventId)
    requires NoDup(Last(all, RECENT_RESUME_EVENTS)) && id !in Last(all, RECENT_RESUME_EVENTS)
    ensures var recent := Last(all, RECENT_RESUME_EVENTS);
            Remember(recent, id) == Last(all + [id], RECENT_RESUME_EVENTS) && NoDup(Remember(recent, id))
  {
  }

  /** The history is duplicate-free and is the last min(64, k) of the k broadcasts. */
  lemma {:induction false} HistoryIsTheRecentPast(reports: seq<EventId>)
    ensures Recent(reports) == Last(Sent(reports), 64) && NoDup(Recent(reports))
  {
    if reports != [] {
      HistoryIsTheRecentPast(reports[..|reports| - 1]);
      var id := reports[|reports| - 1];
      if id !in Recent(reports[..|reports| - 1]) {
        RememberKeepsLast(Sent(reports[..|reports| - 1]), id);
      }
    }
  }

  /** An id is broadcast again only after 64 pairwise distinct other ids were broadcast in between. */
  lemma {:induction false} RebroadcastNeeds64Others(reports: seq<EventId>, i: nat, j: nat)
    requires i < j < |Sent(reports)| && Sent(reports)[i] == Sent(reports)[j]
    ensures var sent := Sent(reports);
            && j - i > 64
            && var between := sent[j - 64..j];
               NoDup(between) && sent[j] !in between
  {
    if reports != [] {
      var rest := reports[..|reports| - 1];
      if j < |Sent(rest)| {
        RebroadcastNeeds64Others(rest, i, j);
        assert Sent(reports)[j - RECENT_RESUME_EVENTS..j] == Sent(rest)[j - RECENT_RESUME_EVENTS..j];
      } else {
        HistoryIsTheRecentPast(rest);
        var recent := Recent(rest);
        assert j == |Sent(rest)| && Sent(rest)[i] == Sent(reports)[j] && Sent(reports)[j] !in recent;
        forall k | j - |recent| <= k < j ensures Sent(rest)[k] in recent {
          assert recent[k - (j - |recent|)] == Sent(rest)[k];
        }
        assert recent == Sent(reports)[j - RECENT_RESUME_EVENTS..j];
      }
    }
  }

  // ---------- Several listeners of one bus ----------

  /** All listeners see the bus's resumes in one order; `at[l]` is how many listener `l` has reported. */
  datatype Listeners = Listeners(at: seq<nat>, recent: seq<EventId>, sent: seq<EventId>)

  function Start(count: nat): Listeners {
    Listeners(seq(count, _ => 0), [], [])
  }

  /** Listener `l` reports its next resume, if there is one. */
  function Report(bus: seq<EventId>, s: Listeners, l: nat): Listeners {
    if l >= |s.at| || s.at[l] >= |bus| then s
    else
      var id := bus[s.at[l]];
      Listeners(s.at[l := s.at[l] + 1], Remember(s.recent, id), if id in s.recent then s.sent else s.sent + [id])
  }

  function Run(bus: seq<EventId>, count: nat, order: seq<nat>): Listeners {
    if order == [] then Start(count)
    else Report(bus, Run(bus, count, order[..|order| - 1]), order[|order| - 1])
  }

  /** When listener `l` reports, at most 64 broadcasts have been made that it has not reported itself. */
  ghost predicate KeepsUp(bus: seq<EventId>, s: Listeners, l: nat) {
    l < |s.at| && s.at[l] < |bus| ==> |s.sent| - s.at[l] <= RECENT_RESUME_EVENTS
  }

  ghost predicate AllKeepUp(bus: seq<EventId>, count: nat, order: seq<nat>) {
    order == []
    || (AllKeepUp(bus, count, order[..|order| - 1])
        && KeepsUp(bus, Run(bus, count, order[..|order| - 1]), order[|order| - 1]))
  }

  ghost predicate Inv(bus: seq<EventId>, s: Listeners) {
    && |s.sent| <= |bus| && s.sent == bus[..|s.sent|]
    && s.recent == Last(s.sent, RECENT_RESUME_EVENTS)
    && forall l :: 0 <= l < |s.at| ==> s.at[l] <= |s.sent|
  }

  lemma NoDupSlice(s: seq<EventId>, lo: nat, hi: nat)
    requires NoDup(s) && lo <= hi <= |s|
    ensures NoDup(s[lo..hi])
  {
  }

  /** A resume that was broadcast not more than 64 broadcasts ago is still remembered. */
  lemma ReportedIsRecent(bus: seq<EventId>, s: Listeners, at: nat)
    requires Inv(bus, s) && at < |s.sent| && |s.sent| - at <= RECENT_RESUME_EVENTS
    ensures bus[at] in s.recent
  {
    assert s.recent[at - (|s.sent| - |s.recent|)] == s.sent[at];
  }

  /** The next resume of the bus is not remembered, and is sent. */
  lemma NextIsSent(bus: seq<EventId>, s: Listeners)
    requires NoDup(bus) && Inv(bus, s) && |s.sent| < |bus|
    ensures var id := bus[|s.sent|];
            && id !in s.recent && s.sent + [id] == bus[..|s.sent| + 1]
            && Remember(s.recent, id) == Last(s.sent + [id], RECENT_RESUME_EVENTS)
  {
    var id := bus[|s.sent|];
    var from := |s.sent| - |s.recent|;
    assert s.recent == bus[from..|s.sent|];
    NoDupSlice(bus, from, |s.sent|);
    forall k | 0 <= k < |s.recent| ensures s.recent[k] != id {
      assert s.recent[k] == bus[from + k];
    }
    RememberKeepsLast(s.sent, id);
  }

  /** A report by a listener that keeps up is sent exactly if it is the first of its resume. */
  lemma ReportKeepsInv(bus: seq<EventId>, s: Listeners, l: nat)
    requires NoDup(bus) && Inv(bus, s) && KeepsUp(bus, s, l)
    ensures Inv(bus, Report(bus, s, l))
  {
    if l < |s.at| && s.at[l] < |bus| {
      if s.at[l] < |s.sent| {
        ReportedIsRecent(bus, s, s.at[l]);
      } else {
        NextIsSent(bus, s);
      }
    }
  }

  /** A report by a listener further behind sends its resume a second time. */
  lemma LateReportRepeats(bus: seq<EventId>, s: Listeners, l: nat)
    requires NoDup(bus) && Inv(bus, s) && !KeepsUp(bus, s, l)
    ensures !NoDup(Report(bus, s, l).sent)
  {
    var id := bus[s.at[l]];
    var t := Report(bus, s, l);
    forall k | 0 <= k < |s.recent| ensures s.recent[k] != id {
      assert s.recent[k] == bus[k + |s.sent| - |s.recent|];
    }
    assert t.sent[s.at[l]] == id && t.sent[|s.sent|] == id;
  }

  /** Each resume is broadcast exactly once, in order, in exactly those interleavings of the listeners in which a
      reporting listener is never more than 64 broadcasts behind. */
  lemma {:induction false} OnceEachIffListenersKeepUp(bus: seq<EventId>, count: nat, order: seq<nat>)
    requires NoDup(bus)
    ensures var s := Run(bus, count, order);
            && (NoDup(s.sent) <==> AllKeepUp(bus, count, order))
            && (AllKeepUp(bus, count, order) ==> Inv(bus, s))
  {
    if order != [] {
      var before := Run(bus, count, order[..|order| - 1]);
      var l := order[|order| - 1];
      OnceEachIffListenersKeepUp(bus, count, order[..|order| - 1]);
      var s := Run(bus, count, order);
      if AllKeepUp(bus, count, order[..|order| - 1]) {
        if KeepsUp(bus, before, l) {
          ReportKeepsInv(bus, before, l);
          NoDupSlice(bus, 0, |s.sent|);
        } else {
          LateReportRepeats(bus, before, l);
        }
      } else {
        var i, j :| 0 <= i < j < |before.sent| && before.sent[i] == before.sent[j];
        assert s.sent[i] == s.sent[j];
      }
    }
  }

  // ---------- A listener that does not keep up ----------

  const BUS: seq<EventId> := seq(66, (i: int) requires 0 <= i < 66 => EventId(None, i))

  /** The first of two listeners makes `n` reports. */
  function FirstReports(n: nat): seq<nat> {
    if n == 0 then [] else FirstReports(n - 1) + [0]
  }

  /** A listener that reports alone is never behind. */
  lemma FirstReportsNext(bus: seq<EventId>, s: Listeners)
    requires NoDup(bus) && Inv(bus, s) && |s.at| == 2 && s.at[0] == |s.sent| < |bus|
    ensures var t := Report(bus, s, 0);
            && KeepsUp(bus, s, 0) && Inv(bus, t)
            && t.at == s.at[0 := s.at[0] + 1] && t.sent == bus[..|s.sent| + 1]
  {
    NextIsSent(bus, s);
    ReportKeepsInv(bus, s, 0);
  }

  lemma {:induction false} FirstAlone(bus: seq<EventId>, n: nat)
    requires NoDup(bus) && n <= |bus|
    ensures AllKeepUp(bus, 2, FirstReports(n))
    ensures Inv(bus, Run(bus, 2, FirstReports(n)))
    ensures Run(bus, 2, FirstReports(n)).at == [n, 0] && Run(bus, 2, FirstReports(n)).sent == bus[..n]
  {
    if n > 0 {
      FirstAlone(bus, n - 1);
      var order := FirstReports(n);
      assert order[..|order| - 1] == FirstReports(n - 1) && order[|order| - 1] == 0;
      FirstReportsNext(bus, Run(bus, 2, FirstReports(n - 1)));
    }
  }

  lemma BusHasNoDup()
    ensures NoDup(BUS)
  {
    forall i, j | 0 <= i < j < |BUS| ensures BUS[i] != BUS[j] {
      assert BUS[i].serial == i && BUS[j].serial == j;
    }
  }

  /** Such an order: one listener reports 65 resumes of 66, then the other reports its first, and that resume is broadcast a
      second time. */
  lemma LateListenerRepeats()
    ensures NoDup(BUS)
    ensures var order := FirstReports(65) + [1];
            && !AllKeepUp(BUS, 2, order)
            && |Run(BUS, 2, order).sent| == 66
            && Run(BUS, 2, order).sent[0] == Run(BUS, 2, order).sent[65] == EventId(None, 0)
  {
    var order := FirstReports(65) + [1];
    BusHasNoDup();
    FirstAlone(BUS, 65);
    assert order[..|order| - 1] == FirstReports(65) && order[|order| - 1] == 1;
    LateReportOf(BUS, Run(BUS, 2, FirstReports(65)));
  }

  /** The second listener's first report, more than 64 broadcasts late. */
  lemma LateReportOf(bus: seq<EventId>, s: Listeners)
    requires NoDup(bus) && Inv(bus, s) && |s.at| == 2 && s.at[1] == 0 && |s.sent| > RECENT_RESUME_EVENTS
    ensures !KeepsUp(bus, s, 1) && Report(bus, s, 1).sent == s.sent + [bus[0]]
  {
    forall k | 0 <= k < |s.recent| ensures s.recent[k] != bus[0] {
      assert s.recent[k] == bus[k + |s.sent| - |s.recent|];
    }
  }
}
