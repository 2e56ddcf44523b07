/** The IDLE loop of one IMAP session as a machine, line by line. */
module ImapIdle {
  import opened ImapGrammar
  import opened ImapText

  /** What the task sees: a response line, a failure (an I/O error, a timeout, the end of the stream), the shutdown flag, the
      end of the refresh time. */
  datatype Input = Line(text: string) | Fails | ShutdownSeen | RefreshDue

  datatype RunEnd = ByShutdown | ByError

  datatype Phase =
    | Continuing                              // IDLE is sent, its continuation is awaited
    | Idling
    | Finishing(stopping: bool, before: nat)  // DONE is sent; `before` events had been queued for changes by then
    | Ended(end: RunEnd)

  /** `tag` numbers the current IDLE command; `catchUps` and `changes` count the events queued. */
  datatype State = State(tag: nat, phase: Phase, established: bool, catchUps: nat, changes: nat)

  /** A session whose earlier commands have used the tags up to `used` sends its first IDLE. */
  function Init(used: nat): State {
    State(used + 1, Continuing, false, 0, 0)
  }

  /** The server accepts an IDLE; the first time in a session after an earlier one this catches up. */
  function Accepted(notify: bool, s: State): State {
    State(s.tag, Idling, true, s.catchUps + if !s.established && notify then 1 else 0, s.changes)
  }

  function SendIdle(s: State): State {
    s.(tag := s.tag + 1, phase := Continuing)
  }

  predicate IsContinuation(line: string) {
    line != "" && line[0] == '+'
  }

  /** `wait_idle_continuation`: other lines are skipped. */
  function ContinuingStep(notify: bool, s: State, i: Input): State {
    match i
    case Line(text) =>
      if IsContinuation(text) then Accepted(notify, s)
      else if IsTaggedCompletion(text, TagOf(s.tag)) then s.(phase := Ended(ByError))
      else s
    case Fails => s.(phase := Ended(ByError))
    case _ => s
  }

  function IdlingStep(s: State, i: Input): State {
    match i
    case Line(text) =>
      (match ClassifyIdleResponse(text, TagOf(s.tag))
       case Completed => SendIdle(s)
       case MailboxChange => s.(changes := s.changes + 1)
       case Other => s
       case _ => s.(phase := Ended(ByError)))
    case Fails => s.(phase := Ended(ByError))
    case ShutdownSeen => s.(phase := Finishing(true, s.changes))
    case RefreshDue => s.(phase := Finishing(false, s.changes))
  }

  /** `finish_idle` and `wait_idle_completion`: one event for all the changes between DONE and its answer. When the task is
      to stop, it stops however this ends. */
  function FinishingStep(s: State, i: Input): State
    requires s.phase.Finishing?
  {
    var failed := s.(phase := Ended(if s.phase.stopping then ByShutdown else ByError));
    match i
    case Line(text) =>
      (match ClassifyIdleResponse(text, TagOf(s.tag))
       case Completed => if s.phase.stopping then s.(phase := Ended(ByShutdown)) else SendIdle(s)
       case MailboxChange => if s.changes == s.phase.before then s.(changes := s.changes + 1) else s
       case Other => s
       case _ => failed)
    case Fails => failed
    case _ => s
  }

  function Step(notify: bool, s: State, i: Input): State {
    match s.phase
    case Continuing => ContinuingStep(notify, s, i)
    case Idling => IdlingStep(s, i)
    case Finishing(_, _) => FinishingStep(s, i)
    case Ended(_) => s
  }

  function Run(notify: bool, s: State, script: seq<Input>): State {
    if script == [] then s
    else Step(notify, Run(notify, s, script[..|script| - 1]), script[|script| - 1])
  }

  lemma RunStep(notify: bool, s: State, script: seq<Input>, n: nat)
    requires n < |script|
    ensures Run(notify, s, script[..n + 1]) == Step(notify, Run(notify, s, script[..n]), script[n])
  {
    assert script[..n + 1][..n] == script[..n];
  }

  // ---------- What holds in every session ----------

  /** The server accepted an IDLE with line `k`. */
  ghost predicate AcceptedAt(notify: bool, used: nat, script: seq<Input>, k: nat)
    requires k < |script|
  {
    Run(notify, Init(used), script[..k]).phase.Continuing? && script[k].Line? && IsContinuation(script[k].text)
  }

  lemma AcceptedNext(notify: bool, used: nat, script: seq<Input>, n: nat)
    requires n < |script|
    ensures AcceptedBy(notify, used, script, n + 1) <==>
              AcceptedBy(notify, used, script, n) || AcceptedAt(notify, used, script, n)
  {
  }

  ghost predicate Inv(notify: bool, s: State) {
    && s.catchUps == (if notify && s.established then 1 else 0)
    && (s.phase.Idling? || s.phase.Finishing? ==> s.established)
    && (s.phase.Finishing? ==> s.phase.before <= s.changes <= s.phase.before + 1)
  }

  lemma {:induction false} RunKeepsInv(notify: bool, used: nat, script: seq<Input>)
    ensures Inv(notify, Run(notify, Init(used), script))
  {
    if script != [] {
      RunKeepsInv(notify, used, script[..|script| - 1]);
    }
  }

  lemma StepEstablishes(notify: bool, s: State, i: Input)
    ensures Step(notify, s, i).established <==>
              s.established || (s.phase.Continuing? && i.Line? && IsContinuation(i.text))
  {
  }

  lemma EstablishedNext(notify: bool, used: nat, script: seq<Input>, n: nat)
    requires n < |script|
    ensures Run(notify, Init(used), script[..n + 1]).established <==>
              Run(notify, Init(used), script[..n]).established || AcceptedAt(notify, used, script, n)
  {
    RunStep(notify, Init(used), script, n);
    StepEstablishes(notify, Run(notify, Init(used), script[..n]), script[n]);
  }

  ghost predicate AcceptedBy(notify: bool, used: nat, script: seq<Input>, n: nat)
    requires n <= |script|
  {
    exists k :: 0 <= k < n && AcceptedAt(notify, used, script, k)
  }

  /** A session is established by the first IDLE the server accepts, and by nothing else. */
  lemma {:induction false} EstablishedByContinuation(notify: bool, used: nat, script: seq<Input>, n: nat)
    requires n <= |script|
    ensures Run(notify, Init(used), script[..n]).established <==> AcceptedBy(notify, used, script, n)
  {
    if n > 0 {
      EstablishedByContinuation(notify, used, script, n - 1);
      EstablishedNext(notify, used, script, n - 1);
      AcceptedNext(notify, used, script, n - 1);
    }
  }

  /** Exactly one catch-up event in a session that is to catch up and reaches IDLE, however often IDLE is entered again; none
      in any other. */
  lemma {:induction false} CatchUpOnce(notify: bool, used: nat, script: seq<Input>)
    ensures var s := Run(notify, Init(used), script);
            s.catchUps == if notify && s.established then 1 else 0
  {
    RunKeepsInv(notify, used, script);
  }

  /** No change is lost once the server has accepted the IDLE: a line that announces one, in any letter case, queues an event
      of its own while idling, and between DONE and its answer such lines have together queued exactly one. */
  lemma {:induction false} EveryChangeQueues(notify: bool, used: nat, script: seq<Input>, n: nat)
    requires n < |script| && script[n].Line? && Announces(script[n].text)
    requires var s := Run(notify, Init(used), script[..n]); s.phase.Idling? || s.phase.Finishing?
    ensures var s := Run(notify, Init(used), script[..n]);
            var t := Run(notify, Init(used), script[..n + 1]);
            && t.phase == s.phase
            && t.changes == (if s.phase.Idling? then s.changes else s.phase.before) + 1
  {
    RunKeepsInv(notify, used, script[..n]);
    RunStep(notify, Init(used), script, n);
    AnnouncedIsChange(script[n].text, Run(notify, Init(used), script[..n]).tag);
  }

  /** And no event is queued for nothing: a step that queues one for a change has read an untagged line, not a BYE, that names
      a change. */
  lemma EventsAreForChanges(notify: bool, s: State, i: Input)
    requires Step(notify, s, i).changes != s.changes
    ensures i.Line? && "* " <= i.text && !Starts(i.text, "* BYE") && exists k | 0 <= k <= |i.text| :: NamesChange(i.text, k)
  {
    ChangeIsAnnounced(i.text, s.tag);
  }

  /** Neither BYE nor tagged nor an untagged line that names a change. */
  predicate Unheeded(line: string, tag: string) {
    && !Starts(line, "* BYE") && !(tag + " " <= line)
    && (!("* " <= line) || forall k | 0 <= k <= |line| :: !NamesChange(line, k))
  }

  /** What the lines of the server do to a session that idles, or has sent DONE: its OK to the current command lets the session
      send the next IDLE, or end when it was to stop; its NO, BAD or BYE fails the session, which ends; a line that is none of
      these and names no change does nothing. */
  lemma LinesDecide(notify: bool, s: State, line: string)
    requires s.phase.Idling? || s.phase.Finishing?
    ensures var t := Step(notify, s, Line(line));
            var stopping := s.phase.Finishing? && s.phase.stopping;
            && (Answers(line, TagOf(s.tag), "OK") ==>
                  t == if stopping then s.(phase := Ended(ByShutdown)) else s.(tag := s.tag + 1, phase := Continuing))
            && (Answers(line, TagOf(s.tag), "NO") || Answers(line, TagOf(s.tag), "BAD") || Starts(line, "* BYE") ==>
                  t == s.(phase := Ended(if stopping then ByShutdown else ByError)))
            && (Unheeded(line, TagOf(s.tag)) ==> t == s)
  {
    if Answers(line, TagOf(s.tag), "OK") {
      AnswerIsCompletion(line, s.tag, "OK");
    }
    if Answers(line, TagOf(s.tag), "NO") {
      AnswerIsCompletion(line, s.tag, "NO");
    }
    if Answers(line, TagOf(s.tag), "BAD") {
      AnswerIsCompletion(line, s.tag, "BAD");
    }
    if Starts(line, "* BYE") {
      ByeIsClosing(line, s.tag);
    }
    if Unheeded(line, TagOf(s.tag)) {
      OthersArePassedOver(line, s.tag);
    }
  }

  /** And what else the task sees: while idling a due refresh and a shutdown have it send DONE, with the changes counted so far as
      those before; a failure ends the session, as shutdown if it was to stop; once DONE is sent only its answer matters. */
  lemma SignalsDecide(notify: bool, s: State, i: Input)
    requires (s.phase.Idling? || s.phase.Finishing?) && !i.Line?
    ensures var t := Step(notify, s, i);
            && (i.Fails? ==> t == s.(phase := Ended(if s.phase.Finishing? && s.phase.stopping then ByShutdown else ByError)))
            && (s.phase.Idling? && !i.Fails? ==> t == s.(phase := Finishing(i.ShutdownSeen?, s.changes)))
            && (s.phase.Finishing? && !i.Fails? ==> t == s)
  {
  }

  /** Before the server accepts the IDLE, only its continuation, its tagged refusal and a failure matter. */
  lemma ContinuationDecides(notify: bool, s: State, i: Input)
    requires s.phase.Continuing?
    ensures var t := Step(notify, s, i);
            var accepts := i.Line? && i.text != "" && i.text[0] == '+';
            var refuses := i.Line? && TagOf(s.tag) + " " <= i.text;
            && (t.phase.Idling? <==> accepts)
            && (t == s.(phase := Ended(ByError)) <==> i.Fails? || refuses)
            && (t == s <==> !accepts && !i.Fails? && !refuses)
  {
    assert TagOf(s.tag)[0] == 'A';
    if i.Line? {
      assert TagOf(s.tag) + " " <= i.text <==> IsTaggedCompletion(i.text, TagOf(s.tag)) by {
        PrefixAndSpace(i.text, TagOf(s.tag));
      }
    }
  }

  lemma PrefixAndSpace(line: string, tag: string)
    ensures tag + " " <= line <==> IsTaggedCompletion(line, tag)
  {
    if tag + " " <= line {
      assert line[|tag|] == (tag + " ")[|tag|];
      assert forall k :: 0 <= k < |tag| ==> tag[k] == (tag + " ")[k];
    }
  }

  /** A refresh sends DONE, waits for the answer, and idles again under the next tag, with no event queued for it; shutdown sends
      DONE and ends the session with the answer. */
  lemma RefreshIdlesAgain(notify: bool, used: nat, script: seq<Input>, line: string, more: string)
    requires var s := Run(notify, Init(used), script); s.phase.Idling? && Answers(line, TagOf(s.tag), "OK")
    requires more != "" && more[0] == '+'
    ensures var s := Run(notify, Init(used), script);
            && Run(notify, s, [RefreshDue, Line(line), Line(more)]) == s.(tag := s.tag + 1)
            && Run(notify, s, [ShutdownSeen, Line(line)]) == s.(phase := Ended(ByShutdown))
  {
    var s := Run(notify, Init(used), script);
    RunKeepsInv(notify, used, script);
    AnswerIsCompletion(line, s.tag, "OK");
    var refresh, stop := [RefreshDue, Line(line), Line(more)], [ShutdownSeen, Line(line)];
    RunStep(notify, s, stop, 0);
    RunStep(notify, s, stop, 1);
    assert stop[..0] == [] && stop[..2] == stop;
    RunStep(notify, s, refresh, 0);
    RunStep(notify, s, refresh, 1);
    RunStep(notify, s, refresh, 2);
    assert refresh[..0] == [] && refresh[..3] == refresh;
  }

  /** The answer to another command, such as one left over from an earlier IDLE, is never taken for the answer to the current
      one, nor for anything else. */
  lemma OtherAnswersAreIgnored(notify: bool, s: State, line: string, m: nat)
    requires IsTaggedCompletion(line, TagOf(m)) && m != s.tag
    ensures Step(notify, s, Line(line)) == s
  {
    if IsTaggedCompletion(line, TagOf(s.tag)) {
      OneLineCompletesOneTag(line, m, s.tag);
    }
    assert line[0] == 'A';
    assert Uppercase(line)[0] == 'A';
  }

  /** An ended session stays as it is. */
  lemma {:induction false} EndedStays(notify: bool, used: nat, script: seq<Input>, n: nat)
    requires n <= |script| && Run(notify, Init(used), script[..n]).phase.Ended?
    ensures Run(notify, Init(used), script) == Run(notify, Init(used), script[..n])
    decreases |script| - n
  {
    if n < |script| {
      RunStep(notify, Init(used), script, n);
      EndedStays(notify, used, script, n + 1);
    } else {
      assert script[..n] == script;
    }
  }

  lemma StepIgnoresNotify(s: State, catchUps: nat, i: Input)
    ensures Step(true, s.(catchUps := catchUps), i)
         == Step(false, s, i).(catchUps := Step(true, s.(catchUps := catchUps), i).catchUps)
  {
  }

  /** Whether a session is to catch up changes nothing else about it. */
  lemma {:induction false} NotifyOnlyCatchesUp(used: nat, script: seq<Input>)
    ensures Run(true, Init(used), script)
         == Run(false, Init(used), script).(catchUps := Run(true, Init(used), script).catchUps)
  {
    if script != [] {
      var rest, last := script[..|script| - 1], script[|script| - 1];
      NotifyOnlyCatchesUp(used, rest);
      StepIgnoresNotify(Run(false, Init(used), rest), Run(true, Init(used), rest).catchUps, last);
    }
  }
}
