/** The life of one IMAP watcher over all its sessions: catch-up after a reconnect, and backoff. */
module ImapSession {
  import opened Options
  import opened Backoff
  import opened ImapText
  import opened ImapIdle

  // ---------- One session ----------

  /** How a part of the loop ends: it goes on, the session ends, or it is dropped during it. */
  datatype Outcome = GoesOnIdling | Ends(end: RunEnd) | IsDropped

  /** `idle_forever` as it is written, driven by what it sees: it goes through exactly the states of the machine. */
  class IdleSession {
    const notifyOnConnect: bool
    ghost const used: nat
    const script: seq<Input>
    const tags: Tags
    var pos: nat
    var established: bool
    var catchUps: nat
    var changes: nat
    ghost var phase: Phase

    ghost function View(): State
      reads this, tags
    {
      State(tags.next, phase, established, catchUps, changes)
    }

    ghost predicate Valid()
      reads this, tags
    {
      pos <= |script| && View() == Run(notifyOnConnect, Init(used), script[..pos])
    }

    /** The next input would lead to `next`. */
    ghost predicate LeadsTo(next: State)
      reads this
    {
      pos < |script| && Step(notifyOnConnect, Run(notifyOnConnect, Init(used), script[..pos]), script[pos]) == next
    }

    /** The first IDLE has been given its tag. */
    constructor (notifyOnConnect: bool, tags: Tags, script: seq<Input>)
      modifies tags
      ensures this.notifyOnConnect == notifyOnConnect && this.used == old(tags.next) && this.script == script
      ensures this.tags == tags && Valid() && pos == 0 && phase.Continuing?
    {
      this.notifyOnConnect, this.used, this.script, this.tags := notifyOnConnect, tags.next, script, tags;
      pos, established, catchUps, changes, phase := 0, false, 0, 0, Continuing;
      new;
      var tag := tags.Next();
    }

    /** What `outcome` says of a part that is not to go on. */
    ghost predicate OutcomeOk(outcome: Outcome)
      reads this, tags
    {
      match outcome
      case GoesOnIdling => true
      case Ends(end) => Valid() && phase == Ended(end)
      case IsDropped => Valid() && pos == |script| && !phase.Ended?
    }

    /** Ends the handling of one input. */
    method Commit(ghost next: Phase)
      requires LeadsTo(View().(phase := next))
      modifies this`pos, this`phase
      ensures Valid() && pos == old(pos) + 1 && phase == next
    {
      RunStep(notifyOnConnect, Init(used), script, pos);
      pos := pos + 1;
      phase := next;
    }

    /** `wait_idle_continuation`; the continuation itself is left to the caller to act on. */
    method WaitIdleContinuation(tag: string) returns (outcome: Outcome)
      requires Valid() && phase.Continuing? && tag == TagOf(tags.next)
      modifies this
      ensures pos >= old(pos) && established == old(established) && catchUps == old(catchUps) && changes == old(changes)
      ensures outcome.GoesOnIdling? ==> phase.Continuing? && Valid() && LeadsTo(Accepted(notifyOnConnect, View()))
      ensures OutcomeOk(outcome)
    {
      while pos < |script|
        invariant Valid() && pos >= old(pos) && phase.Continuing?
        invariant established == old(established) && catchUps == old(catchUps) && changes == old(changes)
        decreases |script| - pos
      {
        if script[pos].Line? && IsContinuation(script[pos].text) {
          return GoesOnIdling;
        }
        if script[pos].Fails? || (script[pos].Line? && IsTaggedCompletion(script[pos].text, tag)) {
          Commit(Ended(ByError));
          return Ends(ByError);
        }
        Commit(Continuing);
      }
      outcome := IsDropped;
    }

    /** `queue_mailbox_event` for a change. */
    method QueueChange()
      modifies this`changes
      ensures changes == old(changes) + 1
    {
      changes := changes + 1;
    }

    /** `finish_idle`: reads up to the answer to DONE, and queues at most one event on the way. What ends it is left to the
        caller to act on. */
    method FinishIdle(tag: string) returns (ok: bool, suspended: bool)
      requires Valid() && phase.Finishing? && changes == phase.before && tag == TagOf(tags.next)
      modifies this
      ensures Valid() && pos >= old(pos) && phase == old(phase) && established && catchUps == old(catchUps)
      ensures suspended ==> pos == |script|
      ensures !suspended ==>
                && pos < |script|
                && LeadsTo(if ok && !phase.stopping then SendIdle(View())
                           else View().(phase := Ended(if phase.stopping then ByShutdown else ByError)))
    {
      RunKeepsInv(notifyOnConnect, used, script[..pos]);
      var eventQueued := false;
      ok, suspended := false, false;
      while pos < |script|
        invariant Valid() && pos >= old(pos) && phase == old(phase) && established && catchUps == old(catchUps)
        invariant changes == phase.before + if eventQueued then 1 else 0
        decreases |script| - pos
      {
        if script[pos].Fails? {
          return;
        }
        if script[pos].Line? {
          match ClassifyIdleResponse(script[pos].text, tag) {
            case Completed =>
              ok := true;
              return;
            case MailboxChange =>
              if !eventQueued {
                QueueChange();
                eventQueued := true;
              }
            case Other =>
            case _ =>
              return;
          }
        }
        Commit(phase);
      }
      suspended := true;
    }

    /** The inner loop of `idle_forever`. */
    method IdleOnce(tag: string) returns (outcome: Outcome)
      requires Valid() && phase.Idling? && established && tag == TagOf(tags.next)
      modifies this
      ensures pos >= old(pos) && established && catchUps == old(catchUps)
      ensures outcome.GoesOnIdling? ==> LeadsTo(SendIdle(View()))
      ensures OutcomeOk(outcome)
    {
      while pos < |script|
        invariant Valid() && pos >= old(pos) && phase.Idling? && established && catchUps == old(catchUps)
        decreases |script| - pos
      {
        var input := script[pos];
        match input {
          case ShutdownSeen =>
            Commit(Finishing(true, changes));
            var ok, suspended := FinishIdle(tag);
            if suspended {
              return IsDropped;
            }
            Commit(Ended(ByShutdown));
            return Ends(ByShutdown);
          case RefreshDue =>
            Commit(Finishing(false, changes));
            var ok, suspended := FinishIdle(tag);
            if suspended {
              return IsDropped;
            }
            if !ok {
              Commit(Ended(ByError));
              return Ends(ByError);
            }
            return GoesOnIdling;
          case Fails =>
            Commit(Ended(ByError));
            return Ends(ByError);
          case Line(text) =>
            match ClassifyIdleResponse(text, tag) {
              case Completed =>
                return GoesOnIdling;
              case MailboxChange =>
                QueueChange();
                Commit(Idling);
              case Other =>
                Commit(Idling);
              case _ =>
                Commit(Ended(ByError));
                return Ends(ByError);
            }
        }
      }
      outcome := IsDropped;
    }

    /** `idle_forever`. Every state it goes through is the machine's, to the end of the session. */
    method IdleForever() returns (end: Option<RunEnd>)
      requires Valid() && pos == 0 && phase.Continuing?
      modifies this, tags
      ensures Valid()
      ensures end == if phase.Ended? then Some(phase.end) else None
      ensures end.None? ==> pos == |script|
    {
      while true
        invariant Valid() && phase.Continuing?
        decreases |script| - pos
      {
        var tag := TagOf(tags.next);
        var outcome := WaitIdleContinuation(tag);
        if !outcome.GoesOnIdling? {
          return if outcome.Ends? then Some(outcome.end) else None;
        }
        if !established {
          established := true;
          if notifyOnConnect {
            catchUps := catchUps + 1;
          }
        }
        Commit(Idling);
        outcome := IdleOnce(tag);
        if !outcome.GoesOnIdling? {
          return if outcome.Ends? then Some(outcome.end) else None;
        }
        var next := tags.Next();
        Commit(Continuing);
      }
    }
  }

  // ---------- All sessions ----------

  /** How connecting, authenticating and opening the mailbox go. */
  datatype SetUp = Ready | SetUpFails | AuthFails | DroppedByResume

  datatype SessionEnd = Stopped | Dropped | AuthFailure | Failed

  datatype WaitEnd = Slept | ShutdownInWait | ResumeInWait

  /** One turn of `watch_mailbox_forever`: the shutdown flag at its top, the set-up, the tags it used, what the IDLE loop
      sees until the session ends or a resume drops it, and how the wait after an error ends. */
  datatype Session = Session(flag: bool, setUp: SetUp, used: nat, idle: seq<Input>, wait: WaitEnd)

  /** The state in which the IDLE loop of the session is left, if it gets that far. */
  function IdleState(s: Session, notify: bool): State {
    Run(notify, Init(s.used), if s.setUp.Ready? then s.idle else [])
  }

  /** The session reaches IDLE. */
  predicate Reached(s: Session) {
    IdleState(s, false).established
  }

  function EndOf(s: Session): SessionEnd {
    match s.setUp
    case AuthFails => AuthFailure
    case SetUpFails => Failed
    case DroppedByResume => Dropped
    case Ready =>
      var phase := IdleState(s, false).phase;
      if phase == Ended(ByShutdown) then Stopped else if phase == Ended(ByError) then Failed else Dropped
  }

  /** The turn is followed by another session. */
  predicate GoesOn(s: Session) {
    EndOf(s).Dropped? || (EndOf(s).Failed? && !s.wait.ShutdownInWait?)
  }

  /** The waits completed since the last reset when session `i` begins: the start, a session that reached IDLE and a
      resume are resets. */
  function WaitsBefore(sessions: seq<Session>, i: nat): nat
    requires i <= |sessions|
    decreases i, 0
  {
    if i == 0 then 0
    else
      var s := sessions[i - 1];
      if EndOf(s).Failed? && s.wait.Slept? then WaitsAt(sessions, i - 1) + 1 else 0
  }

  /** The same when the wait after session `i` begins. */
  function WaitsAt(sessions: seq<Session>, i: nat): nat
    requires i < |sessions|
    decreases i, 1
  {
    if Reached(sessions[i]) then 0 else WaitsBefore(sessions, i)
  }

  ghost predicate ReachedBefore(sessions: seq<Session>, i: nat)
    requires i <= |sessions|
  {
    exists j :: 0 <= j < i && Reached(sessions[j])
  }

  /** The events queued in a session: those that catch up, and those for changes. */
  datatype Queued = Queued(catchUps: nat, changes: nat)

  /** What session `i` must have queued and waited: its one catch-up event exactly when it reaches IDLE and an earlier
      session did, an event for its changes, and after an error the delay that its count of waits gives. */
  ghost predicate TurnOk(sessions: seq<Session>, queued: Queued, delay: Option<nat>, i: nat)
    requires i < |sessions|
  {
    && queued.catchUps == (if Reached(sessions[i]) && ReachedBefore(sessions, i) then 1 else 0)
    && queued.changes == IdleState(sessions[i], false).changes
    && delay == (if EndOf(sessions[i]).Failed? then Some(Delay(WaitsAt(sessions, i))) else None)
    && !sessions[i].flag
  }

  predicate FailedAndSlept(s: Session) {
    EndOf(s).Failed? && s.wait.Slept?
  }

  /** Session `i` ends a streak: the `k` sessions before it failed and each was followed by a whole wait, none after the first of
      them reached IDLE, and the streak goes no further back. */
  ghost predicate Streak(sessions: seq<Session>, i: nat, k: nat)
    requires i < |sessions|
  {
    && k <= i
    && (forall j :: i - k <= j < i ==> FailedAndSlept(sessions[j]))
    && (forall j :: i - k < j <= i ==> !Reached(sessions[j]))
    && (k == i || Reached(sessions[i - k]) || !FailedAndSlept(sessions[i - k - 1]))
  }

  /** The wait after a session that fails at the end of a streak of `k` is two to the power of `k` seconds, at most 300. */
  lemma {:induction false} BackoffDoubles(sessions: seq<Session>, i: nat, k: nat)
    requires i < |sessions| && Streak(sessions, i, k)
    ensures WaitsAt(sessions, i) == k && Delay(WaitsAt(sessions, i)) == if Pow2(k) <= 300 then Pow2(k) else 300
  {
    if k > 0 {
      BackoffDoubles(sessions, i - 1, k - 1);
    }
  }

  /** The watcher gives up exactly when it is told to stop, during IDLE or in a wait, or when the server refuses the login; after
      any other end of a session another follows. */
  lemma GivesUpExactly(s: Session)
    ensures var phase := Run(false, Init(s.used), s.idle).phase;
            !GoesOn(s) <==>
            || s.setUp.AuthFails?
            || (s.setUp.Ready? && phase == Ended(ByShutdown))
            || ((s.setUp.SetUpFails? || (s.setUp.Ready? && phase == Ended(ByError))) && s.wait.ShutdownInWait?)
  {
  }

  /** `run_mailbox_once`, from the set-up on. */
  method RunMailboxOnce(session: Session, notifyOnConnect: bool)
    returns (established: bool, queued: Queued, end: SessionEnd)
    ensures established <==> Reached(session)
    ensures queued.catchUps == if notifyOnConnect && Reached(session) then 1 else 0
    ensures queued.changes == IdleState(session, false).changes
    ensures end == EndOf(session)
  {
    if !session.setUp.Ready? {
      end := match session.setUp
        case AuthFails => AuthFailure
        case SetUpFails => Failed
        case _ => Dropped;
      return false, Queued(0, 0), end;
    }
    var tags := new Tags();
    tags.next := session.used;
    var idle := new IdleSession(notifyOnConnect, tags, session.idle);
    var ended := idle.IdleForever();
    IdleStateOf(session, notifyOnConnect, idle.pos);
    established, queued := idle.established, Queued(idle.catchUps, idle.changes);
    end := if ended == Some(ByShutdown) then Stopped else if ended == Some(ByError) then Failed else Dropped;
  }

  /** Where the loop ended is where the whole of what it could see leads. */
  lemma IdleStateOf(session: Session, notifyOnConnect: bool, n: nat)
    requires session.setUp.Ready? && n <= |session.idle|
    requires var s := Run(notifyOnConnect, Init(session.used), session.idle[..n]); s.phase.Ended? || n == |session.idle|
    ensures var s := Run(notifyOnConnect, Init(session.used), session.idle[..n]);
            && s.established == Reached(session) && s.changes == IdleState(session, false).changes
            && s.phase == IdleState(session, false).phase
            && s.catchUps == if notifyOnConnect && Reached(session) then 1 else 0
  {
    if n < |session.idle| {
      EndedStays(notifyOnConnect, session.used, session.idle, n);
    } else {
      assert session.idle[..n] == session.idle;
    }
    NotifyOnlyCatchesUp(session.used, session.idle);
    CatchUpOnce(notifyOnConnect, session.used, session.idle);
  }

  /** One turn of the loop, after `waits` completed waits since the last reset. */
  method RunSession(session: Session, connectedOnce: bool, backoff: nat, ghost waits: nat)
    returns (established: bool, queued: Queued, delay: Option<nat>, next: nat, goOn: bool)
    requires backoff == Delay(waits)
    ensures established <==> Reached(session)
    ensures queued.catchUps == if connectedOnce && Reached(session) then 1 else 0
    ensures queued.changes == IdleState(session, false).changes
    ensures var at := if Reached(session) then 0 else waits;
            && delay == (if EndOf(session).Failed? then Some(Delay(at)) else None)
            && (goOn ==> next == if EndOf(session).Failed? && session.wait.Slept? then Delay(at + 1) else Delay(0))
    ensures goOn <==> GoesOn(session)
  {
    var end;
    established, queued, end := RunMailboxOnce(session, connectedOnce);
    delay, next, goOn := None, backoff, true;
    match end {
      case Stopped =>
        goOn := false;
      case Dropped =>
        next := INITIAL_BACKOFF;
      case AuthFailure =>
        goOn := false;
      case Failed =>
        if established {
          next := INITIAL_BACKOFF;
        }
        delay := Some(next);
        match session.wait {
          case ShutdownInWait =>
            goOn := false;
          case ResumeInWait =>
            next := INITIAL_BACKOFF;
          case Slept =>
            DoubledDelay(if established then 0 else waits);
            next := Capped(next * 2);
        }
    }
  }

  /** `watch_mailbox_forever`, to the end of the task or of the schedule. `delays[i]` is the delay of the wait after session
      `i`, when there is one. */
  method WatchMailbox(sessions: seq<Session>) returns (queued: seq<Queued>, delays: seq<Option<nat>>)
    ensures |queued| == |delays| <= |sessions|
    ensures forall i :: 0 <= i < |queued| ==> TurnOk(sessions, queued[i], delays[i], i)
    ensures forall i :: 0 <= i < |queued| - 1 ==> GoesOn(sessions[i])
    ensures |queued| < |sessions| ==>
              sessions[|queued|].flag || (|queued| > 0 && !GoesOn(sessions[|queued| - 1]))
  {
    queued, delays := [], [];
    var backoff := INITIAL_BACKOFF;
    var connectedOnce := false;
    while |queued| < |sessions|
      invariant |queued| == |delays| <= |sessions|
      invariant forall i :: 0 <= i < |queued| ==> TurnOk(sessions, queued[i], delays[i], i)
      invariant forall i :: 0 <= i < |queued| ==> GoesOn(sessions[i])
      invariant backoff == Delay(WaitsBefore(sessions, |queued|))
      invariant connectedOnce <==> ReachedBefore(sessions, |queued|)
    {
      var k := |queued|;
      if sessions[k].flag {
        return;
      }
      var established, events, delay, next, goOn :=
        RunSession(sessions[k], connectedOnce, backoff, WaitsBefore(sessions, k));
      assert TurnOk(sessions, events, delay, k);
      queued, delays := queued + [events], delays + [delay];
      connectedOnce := connectedOnce || established;
      backoff := next;
      if !goOn {
        return;
      }
    }
  }
}
