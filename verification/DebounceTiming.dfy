/** When a debounce runner submits: after its delay and after its cooldown, whatever arrives meanwhile. */
module DebounceTiming {
  import opened SourceTask
  import opened Watching
  import opened Debounce
  import opened Options

  /** A batch begins: its first event is taken while waiting, or events were found after a run. */
  predicate BatchBegins(cfg: Config, s: State, t: State) {
    t.loc == DebounceFrom(cfg, s.world.now) && (s.loc.Waiting? || (s.loc.Draining? && s.loc.drain == AfterRun(true)))
  }

  /** When the last batch of the schedule began. */
  function BatchStart(cfg: Config, script: seq<Input>): nat {
    if script == [] then 0
    else
      var s := Run(cfg, Init(), script[..|script| - 1]);
      if BatchBegins(cfg, s, Run(cfg, Init(), script)) then s.world.now
      else BatchStart(cfg, script[..|script| - 1])
  }

  /** The wait for a command ends: it was reported, could not be submitted, or is no longer waited for. */
  predicate CommandEnds(s: State, t: State) {
    (s.loc.Submitting? || s.loc.Awaiting?) && !t.loc.Submitting? && !t.loc.Awaiting? && !t.loc.Stopped?
  }

  /** When the last command of the schedule ended. */
  function LastFinish(cfg: Config, script: seq<Input>): Option<nat> {
    if script == [] then None
    else
      var s := Run(cfg, Init(), script[..|script| - 1]);
      if CommandEnds(s, Run(cfg, Init(), script)) then Some(s.world.now)
      else LastFinish(cfg, script[..|script| - 1])
  }

  ghost predicate ShutsDownOnly(script: seq<Input>) {
    forall k :: 0 <= k < |script| ==> script[k] != SetShutdown(false) && script[k] != DropShutdown
  }

  /** The debounce delay since `start` is over. */
  predicate Debounced(cfg: Config, s: State, start: nat) {
    s.world.now >= start + cfg.debounce
  }

  predicate CooledDown(cfg: Config, s: State, finish: Option<nat>) {
    finish.Some? ==> s.world.now >= finish.value + cfg.cooldown
  }

  ghost predicate Inv(cfg: Config, s: State, start: nat, finish: Option<nat>) {
    && Monotone(s.world.watch)
    && start <= s.world.now
    && s.last == finish
    && (finish.Some? ==> finish.value <= s.world.now)
    && (s.loc.Sleeping? ==> s.loc.until == start + cfg.debounce)
    && (s.loc == Draining(BeforeCooldown) || s.loc.Cooling? ==> Debounced(cfg, s, start))
    && (s.loc == Draining(AfterCooldown) || s.loc.Submitting? ==> Debounced(cfg, s, start))
    && (s.loc.Cooling? ==> finish.Some? && s.loc.until == finish.value + cfg.cooldown)
    && (s.loc == Draining(AfterCooldown) || s.loc.Submitting? ==> CooledDown(cfg, s, finish))
  }

  lemma StepKeepsInv(cfg: Config, s: State, i: Input, start: nat, finish: Option<nat>)
    requires Inv(cfg, s, start, finish) && i != SetShutdown(false) && i != DropShutdown
    ensures var t := Step(cfg, s, i);
            Inv(cfg, t, if BatchBegins(cfg, s, t) then s.world.now else start,
                if CommandEnds(s, t) then Some(s.world.now) else finish)
  {
    if i.Act? {
      match s.loc {
        case Waiting =>
        case Sleeping(_) =>
        case Draining(_) =>
        case Cooling(_) =>
        case Submitting =>
        case Awaiting =>
        case Stopped =>
      }
    }
  }

  lemma {:induction false} RunKeepsInv(cfg: Config, script: seq<Input>)
    requires ShutsDownOnly(script)
    ensures Inv(cfg, Run(cfg, Init(), script), BatchStart(cfg, script), LastFinish(cfg, script))
  {
    if script != [] {
      var rest := script[..|script| - 1];
      RunKeepsInv(cfg, rest);
      StepKeepsInv(cfg, Run(cfg, Init(), rest), script[|script| - 1], BatchStart(cfg, rest), LastFinish(cfg, rest));
    }
  }

  /** In every run a batch is submitted no sooner than `debounce` after it began and `cooldown` after the last command
      ended, however many events arrive meanwhile. */
  lemma {:induction false} SubmitsInTime(cfg: Config, script: seq<Input>)
    requires ShutsDownOnly(script) && Run(cfg, Init(), script).loc.Submitting?
    ensures var s := Run(cfg, Init(), script);
            && s.world.now >= BatchStart(cfg, script) + cfg.debounce
            && (LastFinish(cfg, script).Some? ==> s.world.now >= LastFinish(cfg, script).value + cfg.cooldown)
  {
    RunKeepsInv(cfg, script);
  }

  /** While the delay is slept, it ends `debounce` after the batch began, whatever events arrive. */
  lemma {:induction false} DelayIsFixed(cfg: Config, script: seq<Input>)
    requires ShutsDownOnly(script) && Run(cfg, Init(), script).loc.Sleeping?
    ensures Run(cfg, Init(), script).loc.until == BatchStart(cfg, script) + cfg.debounce
  {
    RunKeepsInv(cfg, script);
  }

  /** And a cooldown is waited for only after a command, and ends `cooldown` after that command ended. */
  lemma {:induction false} CooldownIsFixed(cfg: Config, script: seq<Input>)
    requires ShutsDownOnly(script) && Run(cfg, Init(), script).loc.Cooling?
    ensures LastFinish(cfg, script).Some?
            && Run(cfg, Init(), script).loc.until == LastFinish(cfg, script).value + cfg.cooldown
  {
    RunKeepsInv(cfg, script);
  }

  /** How many stages a batch is from its submission. */
  function Stage(s: State): nat {
    match s.loc
    case Sleeping(_) => 4
    case Draining(BeforeCooldown) => 3
    case Cooling(_) => 2
    case Draining(AfterCooldown) => 1
    case _ => 0
  }

  /** The task can act: a timer is due, or there is nothing to wait for. */
  predicate Enabled(s: State, choice: Choice) {
    match s.loc
    case Sleeping(until) => choice.TimerFires? && s.world.now >= until
    case Cooling(until) => choice.TimerFires? && s.world.now >= until
    case Draining(_) => true
    case _ => false
  }

  /** A batch only moves on towards its submission: every action of the task that does anything takes it a stage further, or
      takes an event off the queue, or stops it on shutdown; and unless a timer is not due yet there is such an action. */
  lemma {:induction false} BatchMovesOn(cfg: Config, script: seq<Input>, choice: Choice)
    requires ShutsDownOnly(script) && Stage(Run(cfg, Init(), script)) > 0
    ensures var s := Run(cfg, Init(), script);
            var t := ActStep(cfg, s, choice);
            && (t == s || t.loc.Stopped? || Stage(t) < Stage(s) || (Stage(t) == Stage(s) && t.world.queued < s.world.queued))
            && (Stage(t) == 0 ==> t.loc.Submitting? || t.loc.Stopped?)
            && (t.loc.Stopped? ==> s.world.watch.value)
            && (Enabled(s, choice) ==> t != s)
  {
    RunKeepsInv(cfg, script);
  }

  // ---------- Every submission answers an event ----------

  /** An event is taken from the queue. */
  predicate Takes(s: State, t: State) {
    t.world.queued < s.world.queued
  }

  predicate BeginsSubmitting(s: State, t: State) {
    t.loc.Submitting? && !s.loc.Submitting?
  }

  /** Input `n` takes an event. */
  predicate TakesAt(cfg: Config, script: seq<Input>, n: nat)
    requires n < |script|
  {
    Takes(Run(cfg, Init(), script[..n]), Run(cfg, Init(), script[..n + 1]))
  }

  predicate SubmitsAt(cfg: Config, script: seq<Input>, n: nat)
    requires n < |script|
  {
    BeginsSubmitting(Run(cfg, Init(), script[..n]), Run(cfg, Init(), script[..n + 1]))
  }

  /** With input `n` an event is taken, and nothing has been submitted since. */
  ghost predicate TakenSince(cfg: Config, script: seq<Input>, n: nat)
    requires n < |script|
  {
    TakesAt(cfg, script, n) && forall m :: n < m < |script| ==> !SubmitsAt(cfg, script, m)
  }

  ghost predicate Answers(cfg: Config, script: seq<Input>) {
    exists n :: 0 <= n < |script| && TakenSince(cfg, script, n)
  }

  lemma SameAt(cfg: Config, script: seq<Input>, n: nat)
    requires n + 1 < |script|
    ensures TakesAt(cfg, script[..|script| - 1], n) == TakesAt(cfg, script, n)
    ensures SubmitsAt(cfg, script[..|script| - 1], n) == SubmitsAt(cfg, script, n)
  {
    var rest := script[..|script| - 1];
    assert rest[..n] == script[..n] && rest[..n + 1] == script[..n + 1];
  }

  lemma AnswersNext(cfg: Config, script: seq<Input>)
    requires script != []
    requires TakesAt(cfg, script, |script| - 1)
             || (Answers(cfg, script[..|script| - 1]) && !SubmitsAt(cfg, script, |script| - 1))
    ensures Answers(cfg, script)
  {
    var rest := script[..|script| - 1];
    if TakesAt(cfg, script, |script| - 1) {
      assert TakenSince(cfg, script, |script| - 1);
    } else {
      var n :| 0 <= n < |rest| && TakenSince(cfg, rest, n);
      SameAt(cfg, script, n);
      forall m | n < m < |script| ensures !SubmitsAt(cfg, script, m) {
        if m < |rest| {
          SameAt(cfg, script, m);
        }
      }
      assert TakenSince(cfg, script, n);
    }
  }

  /** A batch is going on, before its submission. */
  predicate InBatch(s: State) {
    Stage(s) > 0 || s.loc == Draining(AfterRun(true))
  }

  lemma StepInBatch(cfg: Config, s: State, i: Input)
    ensures var t := Step(cfg, s, i);
            && (InBatch(t) ==> Takes(s, t) || (InBatch(s) && !BeginsSubmitting(s, t)))
            && (BeginsSubmitting(s, t) ==> InBatch(s) && !Takes(s, t))
  {
  }

  lemma {:induction false} BatchAnswers(cfg: Config, script: seq<Input>)
    requires InBatch(Run(cfg, Init(), script))
    ensures Answers(cfg, script)
  {
    var rest := script[..|script| - 1];
    var s, t := Run(cfg, Init(), rest), Run(cfg, Init(), script);
    StepInBatch(cfg, s, script[|script| - 1]);
    assert script[..|script|] == script;
    if !Takes(s, t) {
      BatchAnswers(cfg, rest);
    }
    AnswersNext(cfg, script);
  }

  /** In every run each submission follows an event that was taken since the submission before: no event, no command. */
  lemma {:induction false} NoSubmissionWithoutEvent(cfg: Config, script: seq<Input>, i: Input)
    requires BeginsSubmitting(Run(cfg, Init(), script), Step(cfg, Run(cfg, Init(), script), i))
    ensures Answers(cfg, script)
  {
    StepInBatch(cfg, Run(cfg, Init(), script), i);
    BatchAnswers(cfg, script);
  }

  /** A batch is complete: when a submission begins the queue is empty, so no event offered before is left for another one. */
  lemma {:induction false} SubmitsWholeBatch(cfg: Config, script: seq<Input>, i: Input)
    requires BeginsSubmitting(Run(cfg, Init(), script), Step(cfg, Run(cfg, Init(), script), i))
    ensures Run(cfg, Init(), script).world.queued == 0 && Step(cfg, Run(cfg, Init(), script), i).world.queued == 0
  {
    OnlyDrainSubmits(cfg, Run(cfg, Init(), script), i);
  }

  lemma OnlyDrainSubmits(cfg: Config, s: State, i: Input)
    requires BeginsSubmitting(s, Step(cfg, s, i))
    ensures s.loc.Draining? && s.world.queued == 0 && i.Act? && Step(cfg, s, i).world == s.world
  {
  }

  /** The queue holds 64 events: never more, and one that is offered is queued exactly if fewer are and the queue is open. */
  lemma {:induction false} QueueHolds64(cfg: Config, script: seq<Input>)
    ensures var w := Run(cfg, Init(), script).world;
            && w.queued <= 64
            && Ambient(w, Produce).queued == w.queued + if w.queued < 64 && !w.closed then 1 else 0
  {
    if script != [] {
      QueueHolds64(cfg, script[..|script| - 1]);
      QueueShrinks(cfg, Run(cfg, Init(), script[..|script| - 1]), script[|script| - 1]);
    }
  }

  lemma QueueShrinks(cfg: Config, s: State, i: Input)
    ensures i != Produce ==> Step(cfg, s, i).world.queued <= s.world.queued
  {
  }

  /** The task takes a watch change with the flag up, or finds its queue closed and empty. */
  predicate EndsTask(s: State, i: Input) {
    || (i == Act(TakeWatch) && s.world.watch.unseen && s.world.watch.value && !s.loc.Draining?)
    || (i == Act(Receive) && s.loc.Waiting? && s.world.queued == 0 && s.world.closed)
  }

  /** A wait is over: its time has come, the lane has taken, refused or finished the command, or the watch has something to
      tell, which every wait takes for its end. */
  predicate WaitIsOver(s: State, i: Input) {
    i.Act?
    && match s.loc
       case Sleeping(until) => WatchTells(s, i.choice) || (i.choice.TimerFires? && s.world.now >= until)
       case Cooling(until) => WatchTells(s, i.choice) || (i.choice.TimerFires? && s.world.now >= until)
       case Submitting => WatchTells(s, i.choice) || i.choice.Submitted? || i.choice.SubmitFailed?
       case Awaiting => WatchTells(s, i.choice) || i.choice.Reported?
       case _ => false
  }

  predicate WatchTells(s: State, choice: Choice) {
    choice.TakeWatch? && (s.world.watch.unseen || !s.world.watch.open)
  }

  /** The waits of a batch end exactly then; unless the task ends, a delay and a cooldown are followed by emptying the queue, and
      a command that was taken by the wait for its end, and one that was not, or has ended, by emptying the queue. */
  lemma WaitsEndExactly(cfg: Config, s: State, i: Input)
    requires s.loc.Sleeping? || s.loc.Cooling? || s.loc.Submitting? || s.loc.Awaiting?
    ensures var t := Step(cfg, s, i);
            && (t.loc != s.loc <==> WaitIsOver(s, i))
            && (WaitIsOver(s, i) && !EndsTask(s, i) ==>
                  t.loc == if s.loc.Sleeping? then Draining(BeforeCooldown)
                           else if s.loc.Cooling? then Draining(AfterCooldown)
                           else if i == Act(Submitted) then Awaiting
                           else Draining(AfterRun(false)))
  {
  }

  /** The runner stops exactly then. */
  lemma StopsExactly(cfg: Config, s: State, i: Input)
    requires !s.loc.Stopped?
    ensures Step(cfg, s, i).loc.Stopped? <==> EndsTask(s, i)
  {
  }
}
