/** The Gmail poller's cursor: the history intervals it accepts leave no gap. */
module Gmail {
  import opened Options
  import opened SourceTask

  /** One answer of `history.list`: the record ids of a page and whether a next page token came with it. */
  datatype Page = Page(ids: seq<string>, more: bool) | StalePage | FailedPage

  datatype LabelAnswer = Has | HasNot | LabelStale | LabelFailed

  datatype RelevantHistory = Changed | NoChange | Stale | Failed

  /** Everything the server says in one poll: whether the token helper worked, the profile's history id if one could be
      read, and the pages listed for each configured label. `seen` and `listed` are how many records the mailbox's history
      held when the profile and then the lists were read. */
  datatype Answers = Answers(token: bool, profile: Option<nat>, listings: seq<seq<Page>>, seen: nat, listed: nat)

  datatype Delivery = Queued | AlreadyFull | QueueClosed

  /** A poll: what the server says, and what the queue says to an event offered at its end. */
  datatype Poll = Poll(answers: Answers, delivery: Delivery)

  /** An accepted interval `(from, to]`, and what became of its event if it called for one. */
  datatype Accepted = Accepted(from: nat, to: nat, event: Option<Delivery>)

  datatype State = State(last: nat, accepted: seq<Accepted>)

  /** `history_page_has_changes`. */
  predicate HasChanges(ids: seq<string>) {
    exists k :: 0 <= k < |ids| && ids[k] != ""
  }

  // ---------- Paging ----------

  function LabelHasHistory(pages: seq<Page>): LabelAnswer {
    if pages == [] then LabelFailed
    else match pages[0]
      case StalePage => LabelStale
      case FailedPage => LabelFailed
      case Page(ids, more) => if HasChanges(ids) then Has else if more then LabelHasHistory(pages[1..]) else HasNot
  }

  /** `label_has_history`, page by page. */
  method ListLabel(pages: seq<Page>) returns (answer: LabelAnswer)
    ensures answer == LabelHasHistory(pages)
  {
    var k := 0;
    while k < |pages|
      invariant k <= |pages| && LabelHasHistory(pages) == LabelHasHistory(pages[k..])
    {
      assert pages[k..][1..] == pages[k + 1..];
      match pages[k] {
        case StalePage => return LabelStale;
        case FailedPage => return LabelFailed;
        case Page(ids, more) =>
          if HasChanges(ids) {
            return Has;
          }
          if !more {
            return HasNot;
          }
      }
      k := k + 1;
    }
    answer := LabelFailed;
  }

  /** A listing that was read to its end. */
  ghost predicate Complete(pages: seq<Page>) {
    && pages != []
    && (forall k :: 0 <= k < |pages| ==> pages[k].Page? && (pages[k].more <==> k < |pages| - 1))
  }

  /** Some record of the page has an id. */
  predicate HoldsRecord(page: Page) {
    page.Page? && exists i :: 0 <= i < |page.ids| && page.ids[i] != ""
  }

  ghost predicate AnyRecord(pages: seq<Page>) {
    exists k :: 0 <= k < |pages| && HoldsRecord(pages[k])
  }

  /** Over a complete listing paging answers whether any page holds a record; and only a complete listing without one
      is answered in the negative. */
  lemma {:induction false} PagingIsAnyRecord(pages: seq<Page>)
    ensures Complete(pages) ==> LabelHasHistory(pages) == if AnyRecord(pages) then Has else HasNot
    ensures LabelHasHistory(pages) == Has ==> AnyRecord(pages)
    ensures LabelHasHistory(pages) == HasNot ==>
              exists n :: 0 < n <= |pages| && Complete(pages[..n]) && !AnyRecord(pages[..n])
  {
    if pages != [] && pages[0].Page? && !HoldsRecord(pages[0]) {
      var rest := pages[1..];
      PagingIsAnyRecord(rest);
      if Complete(pages) && pages[0].more {
        forall k | 0 <= k < |rest| ensures rest[k].Page? && (rest[k].more <==> k < |rest| - 1) {
          assert rest[k] == pages[k + 1];
        }
      }
      if AnyRecord(pages) {
        var k :| 0 <= k < |pages| && HoldsRecord(pages[k]);
        assert rest[k - 1] == pages[k];
      }
      if pages[0].more && LabelHasHistory(rest) == HasNot {
        var n :| 0 < n <= |rest| && Complete(rest[..n]) && !AnyRecord(rest[..n]);
        var read := pages[..n + 1];
        forall k | 0 <= k < |read| ensures read[k].Page? && (read[k].more <==> k < |read| - 1) && !HoldsRecord(read[k]) {
          if k > 0 {
            assert read[k] == rest[..n][k - 1];
          }
        }
        assert Complete(read) && !AnyRecord(read);
      } else if !pages[0].more {
        assert Complete(pages[..1]) && !AnyRecord(pages[..1]);
      }
    }
  }

  /** The first `n` pages hold nothing, and each leads to the next. */
  ghost predicate PassedOver(pages: seq<Page>, n: nat)
    requires n <= |pages|
  {
    forall k :: 0 <= k < n ==> pages[k].Page? && pages[k].more && !HoldsRecord(pages[k])
  }

  /** A record was found before anything went wrong. */
  ghost predicate Found(pages: seq<Page>) {
    exists n :: 0 <= n < |pages| && PassedOver(pages, n) && HoldsRecord(pages[n])
  }

  /** The listing was read to its end without one. */
  ghost predicate Silent(pages: seq<Page>) {
    exists n :: 0 <= n < |pages| && PassedOver(pages, n) && pages[n].Page? && !pages[n].more && !HoldsRecord(pages[n])
  }

  /** The server no longer knew the interval before a record was found. */
  ghost predicate WentStale(pages: seq<Page>) {
    exists n :: 0 <= n < |pages| && PassedOver(pages, n) && pages[n].StalePage?
  }

  lemma PassedOverTail(pages: seq<Page>, n: nat)
    requires pages != [] && n < |pages|
    ensures PassedOver(pages, n + 1) <==> PassedOver(pages, 1) && PassedOver(pages[1..], n)
  {
    var rest := pages[1..];
    if PassedOver(pages, 1) && PassedOver(rest, n) {
      forall k | 0 <= k < n + 1 ensures pages[k].Page? && pages[k].more && !HoldsRecord(pages[k]) {
        assert k > 0 ==> pages[k] == rest[k - 1];
      }
    }
    if PassedOver(pages, n + 1) {
      forall k | 0 <= k < n ensures rest[k].Page? && rest[k].more && !HoldsRecord(rest[k]) {
        assert rest[k] == pages[k + 1];
      }
    }
  }

  /** A first page that is passed over leaves the answer to the others. */
  lemma RestDecides(pages: seq<Page>)
    requires pages != [] && PassedOver(pages, 1)
    ensures Found(pages) <==> Found(pages[1..])
    ensures Silent(pages) <==> Silent(pages[1..])
    ensures WentStale(pages) <==> WentStale(pages[1..])
  {
    var rest := pages[1..];
    forall n | 0 <= n < |rest| ensures rest[n] == pages[n + 1] && (PassedOver(rest, n) <==> PassedOver(pages, n + 1)) {
      PassedOverTail(pages, n);
    }
    if Found(pages) {
      var n :| 0 <= n < |pages| && PassedOver(pages, n) && HoldsRecord(pages[n]);
      assert PassedOver(rest, n - 1) && HoldsRecord(rest[n - 1]);
    }
    if Silent(pages) {
      var n :| 0 <= n < |pages| && PassedOver(pages, n) && pages[n].Page? && !pages[n].more && !HoldsRecord(pages[n]);
      assert PassedOver(rest, n - 1) && !rest[n - 1].more;
    }
    if WentStale(pages) {
      var n :| 0 <= n < |pages| && PassedOver(pages, n) && pages[n].StalePage?;
      assert PassedOver(rest, n - 1) && rest[n - 1].StalePage?;
    }
    if Found(rest) {
      var n :| 0 <= n < |rest| && PassedOver(rest, n) && HoldsRecord(rest[n]);
      assert PassedOver(pages, n + 1) && HoldsRecord(pages[n + 1]);
    }
    if Silent(rest) {
      var n :| 0 <= n < |rest| && PassedOver(rest, n) && rest[n].Page? && !rest[n].more && !HoldsRecord(rest[n]);
      assert PassedOver(pages, n + 1) && !pages[n + 1].more;
    }
    if WentStale(rest) {
      var n :| 0 <= n < |rest| && PassedOver(rest, n) && rest[n].StalePage?;
      assert PassedOver(pages, n + 1) && pages[n + 1].StalePage?;
    }
  }

  /** Any listing is answered by its first page that is not passed over. */
  lemma {:induction false} ListingIsDecided(pages: seq<Page>)
    ensures LabelHasHistory(pages) == Has <==> Found(pages)
    ensures LabelHasHistory(pages) == HasNot <==> Silent(pages)
    ensures LabelHasHistory(pages) == LabelStale <==> WentStale(pages)
  {
    if pages != [] {
      if PassedOver(pages, 1) {
        RestDecides(pages);
        ListingIsDecided(pages[1..]);
      } else {
        assert forall n :: 0 < n < |pages| ==> !PassedOver(pages, n);
        assert PassedOver(pages, 0);
      }
    }
  }

  // ---------- Labels ----------

  function HasRelevantHistory(listings: seq<seq<Page>>): RelevantHistory {
    if listings == [] then NoChange
    else match LabelHasHistory(listings[0])
      case Has => Changed
      case HasNot => HasRelevantHistory(listings[1..])
      case LabelStale => Stale
      case LabelFailed => Failed
  }

  /** `has_relevant_history`, label by label. */
  method CheckLabels(listings: seq<seq<Page>>) returns (answer: RelevantHistory)
    ensures answer == HasRelevantHistory(listings)
  {
    var k := 0;
    while k < |listings|
      invariant k <= |listings| && HasRelevantHistory(listings) == HasRelevantHistory(listings[k..])
    {
      assert listings[k..][1..] == listings[k + 1..];
      var found := ListLabel(listings[k]);
      match found {
        case Has => return Changed;
        case HasNot =>
        case LabelStale => return Stale;
        case LabelFailed => return Failed;
      }
      k := k + 1;
    }
    answer := NoChange;
  }

  lemma {:induction false} NoChangeMeansNoLabel(listings: seq<seq<Page>>, k: nat)
    requires HasRelevantHistory(listings) == NoChange && k < |listings|
    ensures LabelHasHistory(listings[k]) == HasNot
  {
    if k > 0 {
      NoChangeMeansNoLabel(listings[1..], k - 1);
    }
  }

  /** The first label whose listing is not silent, if any, decides. */
  ghost predicate DecidedBy(listings: seq<seq<Page>>, k: nat)
    requires k < |listings|
  {
    !Silent(listings[k]) && forall j :: 0 <= j < k ==> Silent(listings[j])
  }

  lemma DecidedByTail(listings: seq<seq<Page>>, k: nat)
    requires listings != [] && Silent(listings[0]) && k + 1 < |listings|
    ensures DecidedBy(listings, k + 1) <==> DecidedBy(listings[1..], k)
  {
    var rest := listings[1..];
    if DecidedBy(rest, k) {
      forall j | 0 <= j < k + 1 ensures Silent(listings[j]) {
        assert j > 0 ==> listings[j] == rest[j - 1];
      }
    }
    if DecidedBy(listings, k + 1) {
      forall j | 0 <= j < k ensures Silent(rest[j]) {
        assert rest[j] == listings[j + 1];
      }
    }
  }

  /** The answer over all labels is that of the first listing that is not silent; there is no change exactly when all are. */
  lemma {:induction false} LabelsAreDecided(listings: seq<seq<Page>>) returns (k: nat)
    ensures HasRelevantHistory(listings) == NoChange <==> forall j :: 0 <= j < |listings| ==> Silent(listings[j])
    ensures HasRelevantHistory(listings) != NoChange ==>
              && k < |listings| && DecidedBy(listings, k)
              && (HasRelevantHistory(listings) == Changed <==> Found(listings[k]))
              && (HasRelevantHistory(listings) == Stale <==> WentStale(listings[k]))
  {
    k := 0;
    if listings != [] {
      ListingIsDecided(listings[0]);
      if Silent(listings[0]) {
        var rest := listings[1..];
        var m := LabelsAreDecided(rest);
        if HasRelevantHistory(rest) == NoChange {
          forall j | 0 <= j < |listings| ensures Silent(listings[j]) {
            assert j > 0 ==> listings[j] == rest[j - 1];
          }
        } else {
          k := m + 1;
          DecidedByTail(listings, m);
        }
      } else {
        assert DecidedBy(listings, 0);
      }
    }
  }

  // ---------- One poll ----------

  /** What a poll does to the cursor; an error changes nothing. */
  function PollStep(s: State, labels: nat, poll: Poll): State {
    var answers := poll.answers;
    if !answers.token || answers.profile.None? || answers.profile.value <= s.last then s
    else
      var to := answers.profile.value;
      var relevant := if labels == 0 then Changed else HasRelevantHistory(answers.listings);
      if relevant.Failed? then s
      else State(to, s.accepted + [Accepted(s.last, to, if relevant.NoChange? then None else Some(poll.delivery))])
  }

  /** A poll calls for an event: every one that advances when no labels are configured; otherwise one where a record was
      found, or the interval was no longer known, for the first label whose listing is not silent. */
  ghost predicate CallsForEvent(labels: nat, listings: seq<seq<Page>>) {
    labels == 0
    || exists k :: 0 <= k < |listings| && DecidedBy(listings, k) && (Found(listings[k]) || WentStale(listings[k]))
  }

  ghost predicate AllSilent(labels: nat, listings: seq<seq<Page>>) {
    labels != 0 && forall k :: 0 <= k < |listings| ==> Silent(listings[k])
  }

  lemma OnlyOneDecides(listings: seq<seq<Page>>, j: nat, k: nat)
    requires j < |listings| && k < |listings| && DecidedBy(listings, j) && DecidedBy(listings, k)
    ensures j == k
  {
  }

  /** What a poll does, from what the server says: the cursor moves exactly when a higher id was read and the labels, if
      any, were all silent or called for an event; and the event is offered exactly in the latter case. */
  lemma {:induction false} PollIsDecided(s: State, labels: nat, poll: Poll)
    ensures var t, a := PollStep(s, labels, poll), poll.answers;
            var moves := a.token && a.profile.Some? && a.profile.value > s.last;
            && (t == s <==> !moves || !(AllSilent(labels, a.listings) || CallsForEvent(labels, a.listings)))
            && (t != s ==>
                  && t.last == a.profile.value
                  && t.accepted == s.accepted + [Accepted(s.last, t.last, t.accepted[|s.accepted|].event)]
                  && (t.accepted[|s.accepted|].event == Some(poll.delivery) <==> CallsForEvent(labels, a.listings))
                  && (t.accepted[|s.accepted|].event == None <==> AllSilent(labels, a.listings)))
  {
    var listings := poll.answers.listings;
    var k := LabelsAreDecided(listings);
    if labels != 0 && CallsForEvent(labels, listings) {
      var j :| 0 <= j < |listings| && DecidedBy(listings, j) && (Found(listings[j]) || WentStale(listings[j]));
      if HasRelevantHistory(listings) != NoChange {
        OnlyOneDecides(listings, j, k);
      }
    }
  }

  /** The poll ends without an error. */
  predicate Answered(last: nat, labels: nat, answers: Answers) {
    && answers.token && answers.profile.Some?
    && (answers.profile.value <= last || labels == 0 || !HasRelevantHistory(answers.listings).Failed?)
  }

  datatype Decision = Unchanged | Advanced(from: nat, to: nat) | NoBaseline

  class GmailHistoryTracker {
    var last: Option<nat>

    constructor ()
      ensures last == None
    {
      last := None;
    }

    method Baseline(id: nat)
      modifies this
      ensures last == Some(id)
    {
      last := Some(id);
    }

    method Compare(latest: nat) returns (decision: Decision)
      ensures decision.NoBaseline? <==> last.None?
      ensures decision.Advanced? ==> last == Some(decision.from) && decision.from < decision.to == latest
      ensures decision.Unchanged? ==> last.Some? && latest <= last.value
    {
      if last.None? {
        return NoBaseline;
      }
      decision := if latest > last.value then Advanced(last.value, latest) else Unchanged;
    }

    method Accept(id: nat)
      modifies this
      ensures last == Some(id)
    {
      last := Some(id);
    }
  }

  /** The bounded event queue of a source. */
  class EventQueue {
    var queued: nat
    var closed: bool

    constructor ()
      ensures queued == 0 && !closed
    {
      queued, closed := 0, false;
    }

    /** What `try_send` answers now. */
    function NextDelivery(): Delivery
      reads this
    {
      if closed then QueueClosed else if queued < QUEUE_CAPACITY then Queued else AlreadyFull
    }

    /** `queue_source_event`: an event that finds the queue full is dropped. */
    method QueueSourceEvent() returns (delivery: Delivery)
      modifies this
      ensures closed == old(closed) && delivery == old(NextDelivery())
      ensures queued == old(queued) + if delivery.Queued? then 1 else 0
      ensures delivery.AlreadyFull? ==> queued >= QUEUE_CAPACITY
    {
      if closed {
        return QueueClosed;
      }
      if queued < QUEUE_CAPACITY {
        queued := queued + 1;
        return Queued;
      }
      delivery := AlreadyFull;
    }

    /** The other end of the queue: the debounce runner takes events, and may end. */
    method Consumed(taken: nat, ends: bool)
      modifies this
    {
      queued := if taken < queued then queued - taken else 0;
      closed := closed || ends;
    }
  }

  /** `poll_once` on a tracker that has a baseline. `accepted` is what it adds to the record of accepted intervals. */
  method PollOnce(tracker: GmailHistoryTracker, events: EventQueue, labels: nat, answers: Answers)
    returns (ok: bool, accepted: seq<Accepted>)
    requires tracker.last.Some?
    modifies tracker, events
    ensures tracker.last.Some?
    ensures PollStep(State(old(tracker.last).value, []), labels, Poll(answers, old(events.NextDelivery())))
            == State(tracker.last.value, accepted)
    ensures ok <==> Answered(old(tracker.last).value, labels, answers)
    ensures events.queued == old(events.queued) + if accepted != [] && accepted[0].event == Some(Queued) then 1 else 0
    ensures events.closed == old(events.closed)
    ensures AllSilent(labels, answers.listings) ==> events.queued == old(events.queued)
  {
    PollIsDecided(State(tracker.last.value, []), labels, Poll(answers, events.NextDelivery()));
    ok, accepted := true, [];
    if !answers.token || answers.profile.None? {
      ok := false;
      return;
    }
    var decision := tracker.Compare(answers.profile.value);
    if !decision.Advanced? {
      return;
    }
    var relevant := Changed;
    if labels != 0 {
      relevant := CheckLabels(answers.listings);
    }
    if relevant.Failed? {
      ok := false;
      return;
    }
    tracker.Accept(decision.to);
    var event := None;
    if !relevant.NoChange? {
      var delivery := events.QueueSourceEvent();
      event := Some(delivery);
    }
    accepted := [Accepted(decision.from, decision.to, event)];
  }

  /** One turn of the poller's loop, as the task sees it: the shutdown flag, the answers to a baseline, whether the
      interval was slept to its end, what the queue's other end did meanwhile, the answers to the poll, whether a failure
      is permanent, and whether the wait after a failure was slept to its end. */
  datatype Turn = Turn(flag: bool, baseline: Answers, slept: bool, taken: nat, ends: bool, answers: Answers,
                       permanent: bool, retries: bool)

  function ReadBaseline(answers: Answers): (id: Option<nat>)
    ensures id.Some? <==> answers.token && answers.profile.Some?
    ensures id.Some? ==> id == answers.profile
  {
    if answers.token then answers.profile else None
  }

  /** `polls` are the turns from `first` on, each on the cursor that the ones before it left, from `first`'s baseline. */
  ghost predicate Following(turns: seq<Turn>, labels: nat, first: nat, now: State, polls: seq<Poll>) {
    && first < |turns| && first + |polls| <= |turns|
    && ReadBaseline(turns[first].baseline).Some?
    && Polls(State(ReadBaseline(turns[first].baseline).value, []), labels, polls) == now
    && (forall k :: 0 <= k < |polls| ==> polls[k].answers == turns[first + k].answers && Polled(turns[first + k]))
  }

  /** The turn gets as far as its poll. */
  predicate Polled(turn: Turn) {
    !turn.flag && turn.slept
  }

  /** Poll `k` succeeded on the cursor it found, or is tried again. */
  ghost predicate GoesOn(turns: seq<Turn>, labels: nat, first: nat, polls: seq<Poll>, k: nat)
    requires first + |polls| <= |turns| && first < |turns| && ReadBaseline(turns[first].baseline).Some?
    requires k < |polls|
  {
    || Answered(Polls(State(ReadBaseline(turns[first].baseline).value, []), labels, polls[..k]).last, labels,
                turns[first + k].answers)
    || (!turns[first + k].permanent && turns[first + k].retries)
  }

  /** The first `n` polls were each followed by another turn. */
  ghost predicate AllGoOn(turns: seq<Turn>, labels: nat, first: nat, polls: seq<Poll>, n: nat)
    requires first + |polls| <= |turns| && first < |turns| && ReadBaseline(turns[first].baseline).Some?
    requires n <= |polls|
  {
    forall k :: 0 <= k < n ==> GoesOn(turns, labels, first, polls, k)
  }

  /** The turns before `first` read no baseline and are tried again. */
  ghost predicate Fruitless(turns: seq<Turn>, first: nat)
    requires first <= |turns|
  {
    forall j :: 0 <= j < first ==>
      && !turns[j].flag && !turns[j].permanent && turns[j].retries
      && !(turns[j].baseline.token && turns[j].baseline.profile.Some?)
  }

  lemma FollowNext(turns: seq<Turn>, labels: nat, first: nat, now: State, polls: seq<Poll>, poll: Poll)
    requires Following(turns, labels, first, now, polls)
    requires first + |polls| < |turns| && poll.answers == turns[first + |polls|].answers && Polled(turns[first + |polls|])
    ensures var alone := PollStep(State(now.last, []), labels, poll);
            Following(turns, labels, first, State(alone.last, now.accepted + alone.accepted), polls + [poll])
  {
    var more := polls + [poll];
    PollAppends(now, labels, poll);
    assert more[..|polls|] == polls;
    forall k | 0 <= k < |more| ensures more[k].answers == turns[first + k].answers && Polled(turns[first + k]) {
      if k < |polls| {
        assert more[k] == polls[k];
      } else {
        assert more[k] == poll && first + k == first + |polls|;
      }
    }
  }

  lemma GoesOnNext(turns: seq<Turn>, labels: nat, first: nat, now: State, polls: seq<Poll>, poll: Poll)
    requires Following(turns, labels, first, now, polls) && first + |polls| < |turns|
    requires AllGoOn(turns, labels, first, polls, |polls|)
    ensures AllGoOn(turns, labels, first, polls + [poll], |polls|)
    ensures GoesOn(turns, labels, first, polls + [poll], |polls|) <==>
              || Answered(now.last, labels, turns[first + |polls|].answers)
              || (!turns[first + |polls|].permanent && turns[first + |polls|].retries)
    ensures GoesOn(turns, labels, first, polls + [poll], |polls|) ==>
              AllGoOn(turns, labels, first, polls + [poll], |polls| + 1)
  {
    var more := polls + [poll];
    forall k | 0 <= k < |polls| ensures GoesOn(turns, labels, first, more, k) {
      assert more[..k] == polls[..k];
      assert GoesOn(turns, labels, first, polls, k);
    }
    assert more[..|polls|] == polls;
  }

  /** One poll, after whatever the queue's other end did meanwhile. */
  method PollTurn(tracker: GmailHistoryTracker, events: EventQueue, labels: nat, turn: Turn)
    returns (ok: bool, accepted: seq<Accepted>, poll: Poll)
    requires tracker.last.Some?
    modifies tracker, events
    ensures tracker.last.Some? && poll.answers == turn.answers
    ensures ok <==> Answered(old(tracker.last).value, labels, turn.answers)
    ensures PollStep(State(old(tracker.last).value, []), labels, poll) == State(tracker.last.value, accepted)
  {
    events.Consumed(turn.taken, turn.ends);
    poll := Poll(turn.answers, events.NextDelivery());
    ok, accepted := PollOnce(tracker, events, labels, turn.answers);
  }

  /** `watch_gmail_api_poll_forever`, to the end of the task or of the schedule. `first` is the turn that reads the
      baseline; from there every turn is one poll on the cursor that the polls before it left. */
  method WatchForever(turns: seq<Turn>, labels: nat, events: EventQueue)
    returns (first: nat, cursor: Option<nat>, accepted: seq<Accepted>, polls: seq<Poll>)
    modifies events
    ensures first <= |turns| && Fruitless(turns, first)
    ensures cursor.None? ==>
              && accepted == [] && polls == []
              && (first < |turns| ==>
                    || turns[first].flag
                    || (!(turns[first].baseline.token && turns[first].baseline.profile.Some?)
                        && (turns[first].permanent || !turns[first].retries)))
    ensures cursor.Some? ==>
              && Following(turns, labels, first, State(cursor.value, accepted), polls)
              && (polls != [] ==> AllGoOn(turns, labels, first, polls, |polls| - 1))
              && (first + |polls| < |turns| ==>
                    || !Polled(turns[first + |polls|])
                    || (polls != [] && !GoesOn(turns, labels, first, polls, |polls| - 1)))
  {
    var tracker := new GmailHistoryTracker();
    first, accepted, polls := 0, [], [];
    var k := 0;
    while k < |turns|
      invariant fresh(tracker) && first <= k <= |turns|
      invariant Fruitless(turns, first)
      invariant tracker.last.None? ==> accepted == [] && polls == [] && first == k
      invariant tracker.last.Some? ==>
                  && k == first + |polls| && Following(turns, labels, first, State(tracker.last.value, accepted), polls)
                  && AllGoOn(turns, labels, first, polls, |polls|)
    {
      var turn := turns[k];
      if turn.flag {
        break;
      }
      if tracker.last.None? {
        var id := ReadBaseline(turn.baseline);
        if id.None? {
          if turn.permanent || !turn.retries {
            break;
          }
          k, first := k + 1, k + 1;
          continue;
        }
        tracker.Baseline(id.value);
      }
      if !turn.slept {
        break;
      }
      ghost var before := State(tracker.last.value, accepted);
      var ok, more, poll := PollTurn(tracker, events, labels, turn);
      FollowNext(turns, labels, first, before, polls, poll);
      GoesOnNext(turns, labels, first, before, polls, poll);
      accepted, polls := accepted + more, polls + [poll];
      k := k + 1;
      if !ok && (turn.permanent || !turn.retries) {
        break;
      }
    }
    cursor := tracker.last;
  }

  lemma PollAppends(s: State, labels: nat, poll: Poll)
    ensures PollStep(s, labels, poll) ==
              var alone := PollStep(State(s.last, []), labels, poll); State(alone.last, s.accepted + alone.accepted)
  {
  }

  // ---------- Every run of polls ----------

  function Polls(s: State, labels: nat, polls: seq<Poll>): State {
    if polls == [] then s else PollStep(Polls(s, labels, polls[..|polls| - 1]), labels, polls[|polls| - 1])
  }

  /** Where the next interval begins once `k` have been accepted. */
  function Reach(baseline: nat, accepted: seq<Accepted>, k: nat): nat
    requires k <= |accepted|
  {
    if k == 0 then baseline else accepted[k - 1].to
  }

  /** The accepted intervals chain from the baseline to the cursor, each going strictly up. */
  ghost predicate Chained(baseline: nat, s: State) {
    && (forall k :: 0 <= k < |s.accepted| ==> Reach(baseline, s.accepted, k) == s.accepted[k].from < s.accepted[k].to)
    && s.last == Reach(baseline, s.accepted, |s.accepted|)
  }

  lemma AppendKeepsChain(baseline: nat, s: State, a: Accepted)
    requires Chained(baseline, s) && a.from == s.last < a.to
    ensures Chained(baseline, State(a.to, s.accepted + [a]))
  {
    var more := s.accepted + [a];
    forall k | 0 <= k < |more| ensures Reach(baseline, more, k) == more[k].from < more[k].to {
      assert Reach(baseline, more, k) == Reach(baseline, s.accepted, k);
    }
  }

  lemma PollKeepsChain(baseline: nat, s: State, labels: nat, poll: Poll)
    requires Chained(baseline, s)
    ensures Chained(baseline, PollStep(s, labels, poll))
  {
    var t := PollStep(s, labels, poll);
    if t != s {
      var a := t.accepted[|s.accepted|];
      assert t == State(a.to, s.accepted + [a]) && a.from == s.last < a.to;
      AppendKeepsChain(baseline, s, a);
    }
  }

  lemma {:induction false} IntervalsChain(baseline: nat, labels: nat, polls: seq<Poll>)
    ensures Chained(baseline, Polls(State(baseline, []), labels, polls))
  {
    if polls != [] {
      IntervalsChain(baseline, labels, polls[..|polls| - 1]);
      PollKeepsChain(baseline, Polls(State(baseline, []), labels, polls[..|polls| - 1]), labels, polls[|polls| - 1]);
    }
  }

  /** The mailbox's history: records in the order of their ids, only ever appended to. */
  datatype Record = Record(id: nat, labels: set<string>)

  ghost predicate Concerns(labels: seq<string>, r: Record) {
    labels == [] || exists k :: 0 <= k < |labels| && labels[k] in r.labels
  }

  /** The server answers truthfully about a history that is only appended to: the profile's id separates the records that
      were there from those to come, and a complete listing since `from` holds a record if one with that label was there. */
  ghost predicate Truthful(history: seq<Record>, labels: seq<string>, from: nat, answers: Answers) {
    && |answers.listings| == |labels|
    && answers.seen <= answers.listed <= |history|
    && (answers.profile.Some? ==>
          && (forall i :: 0 <= i < answers.seen ==> history[i].id <= answers.profile.value)
          && (forall i :: answers.seen <= i < |history| ==> history[i].id > answers.profile.value))
    && (forall k :: 0 <= k < |labels| ==> TruthfulListing(history[..answers.listed], labels[k], from, answers.listings[k]))
  }

  ghost predicate TruthfulListing(history: seq<Record>, name: string, from: nat, pages: seq<Page>) {
    forall n :: 0 < n <= |pages| && Complete(pages[..n]) && !AnyRecord(pages[..n]) ==>
      forall i :: 0 <= i < |history| && history[i].id > from ==> name !in history[i].labels
  }

  ghost predicate AllTruthful(history: seq<Record>, labels: seq<string>, baseline: nat, polls: seq<Poll>) {
    polls == []
    || (AllTruthful(history, labels, baseline, polls[..|polls| - 1])
        && Truthful(history, labels, Polls(State(baseline, []), |labels|, polls[..|polls| - 1]).last, polls[|polls| - 1].answers))
  }

  /** The record fell in an accepted interval whose poll called for an event. */
  ghost predicate Reported(s: State, r: Record) {
    exists k :: 0 <= k < |s.accepted| && s.accepted[k].from < r.id <= s.accepted[k].to && s.accepted[k].event.Some?
  }

  lemma SilentLabel(history: seq<Record>, labels: seq<string>, from: nat, answers: Answers, k: nat, i: nat)
    requires Truthful(history, labels, from, answers)
    requires HasRelevantHistory(answers.listings) == NoChange
    requires k < |labels| && i < answers.listed && history[i].id > from
    ensures labels[k] !in history[i].labels
  {
    var pages := answers.listings[k];
    NoChangeMeansNoLabel(answers.listings, k);
    PagingIsAnyRecord(pages);
    var n :| 0 < n <= |pages| && Complete(pages[..n]) && !AnyRecord(pages[..n]);
    assert TruthfulListing(history[..answers.listed], labels[k], from, pages);
    assert history[..answers.listed][i] == history[i];
  }

  lemma PollReports(history: seq<Record>, labels: seq<string>, s: State, poll: Poll, i: nat)
    requires Truthful(history, labels, s.last, poll.answers)
    requires i < |history| && Concerns(labels, history[i])
    requires s.last < history[i].id <= PollStep(s, |labels|, poll).last
    ensures Reported(PollStep(s, |labels|, poll), history[i])
  {
    var t := PollStep(s, |labels|, poll);
    assert i < poll.answers.seen;
    if labels != [] {
      var k :| 0 <= k < |labels| && labels[k] in history[i].labels;
      if HasRelevantHistory(poll.answers.listings) == NoChange {
        SilentLabel(history, labels, s.last, poll.answers, k, i);
      }
    }
    assert t.accepted[|s.accepted|].event.Some?;
  }

  /** No gaps: whatever polls fail, every record that concerns the source and lies between the baseline and the cursor
      fell in a poll that offered the queue an event (`QueueSourceEvent` queues it or finds the queue full or closed). */
  lemma {:induction false} HistoryHasNoGaps(history: seq<Record>, labels: seq<string>, baseline: nat, polls: seq<Poll>, i: nat)
    requires AllTruthful(history, labels, baseline, polls)
    requires i < |history| && Concerns(labels, history[i])
    requires baseline < history[i].id <= Polls(State(baseline, []), |labels|, polls).last
    ensures Reported(Polls(State(baseline, []), |labels|, polls), history[i])
  {
    IntervalsChain(baseline, |labels|, polls);
    var rest := polls[..|polls| - 1];
    var s := Polls(State(baseline, []), |labels|, rest);
    var t := Polls(State(baseline, []), |labels|, polls);
    if history[i].id <= s.last {
      HistoryHasNoGaps(history, labels, baseline, rest, i);
      var k :| 0 <= k < |s.accepted| && s.accepted[k].from < history[i].id <= s.accepted[k].to && s.accepted[k].event.Some?;
      assert t.accepted[k] == s.accepted[k];
    } else {
      PollReports(history, labels, s, polls[|polls| - 1], i);
    }
  }

  /** Every accepted interval is that of one poll, made on the cursor it begins at, and its event was offered exactly if the
      answers to that poll called for one. */
  lemma {:induction false} EveryIntervalIsAPoll(baseline: nat, labels: nat, polls: seq<Poll>, k: nat) returns (n: nat)
    requires k < |Polls(State(baseline, []), labels, polls).accepted|
    ensures n < |polls|
    ensures var a, p := Polls(State(baseline, []), labels, polls).accepted[k], polls[n];
            && a.from == Polls(State(baseline, []), labels, polls[..n]).last && Some(a.to) == p.answers.profile
            && (if a.event.Some? then a.event == Some(p.delivery) && CallsForEvent(labels, p.answers.listings)
                else AllSilent(labels, p.answers.listings))
  {
    var rest := polls[..|polls| - 1];
    var s, t := Polls(State(baseline, []), labels, rest), Polls(State(baseline, []), labels, polls);
    PollIsDecided(s, labels, polls[|polls| - 1]);
    if k < |s.accepted| {
      n := EveryIntervalIsAPoll(baseline, labels, rest, k);
      assert rest[..n] == polls[..n] && t.accepted[k] == s.accepted[k];
    } else {
      n := |polls| - 1;
    }
  }

  /** The server invents nothing: a listing since `from` holds a record only if one with that label was there. */
  ghost predicate Genuine(history: seq<Record>, labels: seq<string>, from: nat, answers: Answers) {
    && |answers.listings| == |labels| && answers.listed <= |history|
    && forall k :: 0 <= k < |labels| && AnyRecord(answers.listings[k]) ==>
         exists i :: 0 <= i < answers.listed && history[i].id > from && labels[k] in history[i].labels
  }

  ghost predicate AllGenuine(history: seq<Record>, labels: seq<string>, baseline: nat, polls: seq<Poll>) {
    forall n :: 0 <= n < |polls| ==>
      Genuine(history, labels, Polls(State(baseline, []), |labels|, polls[..n]).last, polls[n].answers)
  }

  /** No needless events: with labels configured, an interval whose event was offered has a record of a configured label
      beyond its beginning; or the server no longer knew the interval. */
  lemma {:induction false} EventsAreCalledFor(history: seq<Record>, labels: seq<string>, baseline: nat, polls: seq<Poll>, k: nat)
    returns (n: nat)
    requires labels != [] && AllGenuine(history, labels, baseline, polls)
    requires k < |Polls(State(baseline, []), |labels|, polls).accepted|
    requires Polls(State(baseline, []), |labels|, polls).accepted[k].event.Some?
    ensures n < |polls|
    ensures var a, answers := Polls(State(baseline, []), |labels|, polls).accepted[k], polls[n].answers;
            && Some(a.to) == answers.profile && answers.listed <= |history|
            && (|| (exists i :: 0 <= i < answers.listed && history[i].id > a.from && Concerns(labels, history[i]))
                || (exists j :: 0 <= j < |answers.listings| && WentStale(answers.listings[j])))
  {
    n := EveryIntervalIsAPoll(baseline, |labels|, polls, k);
    var a, answers := Polls(State(baseline, []), |labels|, polls).accepted[k], polls[n].answers;
    assert Genuine(history, labels, a.from, answers);
    var j :| 0 <= j < |answers.listings| && DecidedBy(answers.listings, j)
             && (Found(answers.listings[j]) || WentStale(answers.listings[j]));
    if Found(answers.listings[j]) {
      assert AnyRecord(answers.listings[j]);
      var i :| 0 <= i < answers.listed && history[i].id > a.from && labels[j] in history[i].labels;
      assert Concerns(labels, history[i]);
    }
  }

  /** A poll that is answered takes the cursor at least to the id that it read. */
  lemma AnsweredMovesCursor(s: State, labels: nat, poll: Poll)
    requires Answered(s.last, labels, poll.answers)
    ensures PollStep(s, labels, poll).last ==
              if poll.answers.profile.value > s.last then poll.answers.profile.value else s.last
  {
  }

  /** After a poll that is answered nothing that was in the mailbox when it began is left: every record that concerns the
      source and was added since the baseline has been reported, whatever polls failed before. */
  lemma {:induction false} AnsweredPollReportsAll(history: seq<Record>, labels: seq<string>, baseline: nat, polls: seq<Poll>,
                                                  i: nat)
    requires polls != [] && AllTruthful(history, labels, baseline, polls)
    requires var before := Polls(State(baseline, []), |labels|, polls[..|polls| - 1]);
             Answered(before.last, |labels|, polls[|polls| - 1].answers)
    requires i < polls[|polls| - 1].answers.seen && i < |history|
    requires Concerns(labels, history[i]) && baseline < history[i].id
    ensures Reported(Polls(State(baseline, []), |labels|, polls), history[i])
  {
    var before := Polls(State(baseline, []), |labels|, polls[..|polls| - 1]);
    AnsweredMovesCursor(before, |labels|, polls[|polls| - 1]);
    HistoryHasNoGaps(history, labels, baseline, polls, i);
  }
}
