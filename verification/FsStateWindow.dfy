/** Which events the filesystem runner suppresses: exactly those its own command may have caused. */
module FsStateWindow {
  import opened FsState

  /** The runner deals with its own command, or with what follows it. */
  predicate OnOwnCommand(s: State) {
    s.loc.AwaitingRun? || s.loc.OwnSettling? || s.loc.Rebaselining?
  }

  /** Events are suppressed now. */
  predicate Suppressing(s: State) {
    (s.loc.AwaitingRun? && s.loc.started) || s.loc.OwnSettling? || s.loc.Rebaselining?
  }

  /** The runner takes events from its queue. */
  predicate Listening(s: State) {
    !s.loc.StartupRead? && !s.loc.Stopped?
  }

  function At(cfg: Config, armed: bool, script: seq<Input>, n: nat): State
    requires n <= |script|
  {
    Run(cfg, Init(cfg, armed), script[..n])
  }

  /** With input `m` the runner hears that its command has started or succeeded. */
  ghost predicate HeardOfCommand(cfg: Config, armed: bool, script: seq<Input>, m: nat)
    requires m < |script|
  {
    At(cfg, armed, script, m).loc.AwaitingRun? && (script[m] == Hears(Started) || script[m] == Hears(Finished(true)))
  }

  ghost predicate OnOwnCommandSince(cfg: Config, armed: bool, script: seq<Input>, m: nat, n: nat)
    requires n <= |script|
  {
    forall j :: m < j <= n ==> OnOwnCommand(At(cfg, armed, script, j))
  }

  ghost predicate InWindow(cfg: Config, armed: bool, script: seq<Input>, n: nat)
    requires n <= |script|
  {
    exists m :: 0 <= m < n && HeardOfCommand(cfg, armed, script, m) && OnOwnCommandSince(cfg, armed, script, m, n)
  }

  lemma StepSuppresses(cfg: Config, s: State, i: Input)
    ensures var t := Step(cfg, s, i);
            Suppressing(t) <==>
            OnOwnCommand(t)
            && (Suppressing(s) || (s.loc.AwaitingRun? && (i == Hears(Started) || i == Hears(Finished(true)))))
  {
  }

  lemma WindowNext(cfg: Config, armed: bool, script: seq<Input>, n: nat)
    requires n < |script|
    ensures InWindow(cfg, armed, script, n + 1) <==>
              OnOwnCommand(At(cfg, armed, script, n + 1))
              && (InWindow(cfg, armed, script, n) || HeardOfCommand(cfg, armed, script, n))
  {
    if InWindow(cfg, armed, script, n + 1) {
      var m :| 0 <= m < n + 1 && HeardOfCommand(cfg, armed, script, m) && OnOwnCommandSince(cfg, armed, script, m, n + 1);
      assert m < n ==> OnOwnCommandSince(cfg, armed, script, m, n);
    }
    if OnOwnCommand(At(cfg, armed, script, n + 1)) {
      if HeardOfCommand(cfg, armed, script, n) {
        assert OnOwnCommandSince(cfg, armed, script, n, n + 1);
      } else if InWindow(cfg, armed, script, n) {
        var m :| 0 <= m < n && HeardOfCommand(cfg, armed, script, m) && OnOwnCommandSince(cfg, armed, script, m, n);
        assert OnOwnCommandSince(cfg, armed, script, m, n + 1);
      }
    }
  }

  /** The runner is suppressing exactly since it heard of its own command, until it is done with it. */
  lemma {:induction false} SuppressingIsTheWindow(cfg: Config, armed: bool, script: seq<Input>, n: nat)
    requires n <= |script|
    ensures Suppressing(At(cfg, armed, script, n)) <==> InWindow(cfg, armed, script, n)
  {
    if n > 0 {
      SuppressingIsTheWindow(cfg, armed, script, n - 1);
      WindowNext(cfg, armed, script, n - 1);
      RunStep(cfg, Init(cfg, armed), script, n - 1);
      StepSuppresses(cfg, At(cfg, armed, script, n - 1), script[n - 1]);
    }
  }

  lemma StepRecordsEvent(cfg: Config, s: State)
    ensures var t := Step(cfg, s, Event);
            && s.world.history <= t.world.history
            && (Listening(s) ==>
                  |t.world.history| > |s.world.history|
                  && t.world.history[|s.world.history|] == Seen(s.world.now, Suppressing(s)))
            && (!Listening(s) ==> t == s)
  {
  }

  /** Every event that reaches a listening runner is recorded, and is suppressed if and only if the runner has heard that its
      own command started or succeeded and has not been done with that command since. */
  lemma {:induction false} SuppressedExactlyInWindow(cfg: Config, armed: bool, script: seq<Input>, n: nat)
    requires n < |script| && script[n] == Event && Listening(At(cfg, armed, script, n))
    ensures var h := At(cfg, armed, script, n).world.history;
            var after := At(cfg, armed, script, n + 1).world.history;
            && h <= after && |after| > |h|
            && after[|h|] == Seen(At(cfg, armed, script, n).world.now, InWindow(cfg, armed, script, n))
  {
    SuppressingIsTheWindow(cfg, armed, script, n);
    RunStep(cfg, Init(cfg, armed), script, n);
    StepRecordsEvent(cfg, At(cfg, armed, script, n));
  }
}
