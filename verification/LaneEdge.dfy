/** A run in which the sender of the shutdown flag goes away during a cooldown. */
module LaneEdge {
  import opened Watching
  import opened PendingQueue
  import opened Lane

  const CFG: Config := map["c" := 10]

  const SCRIPT := [
    Send("c"), Act(Receive), Act(Proceed), Act(Completes(Ran(true))),   // a first run
    Send("c"), Act(Proceed), Act(Proceed), Act(Proceed),                // the next request waits out the cooldown
    DropShutdown, Act(TakeWatch)]

  const ONE: Pending := Pending(["c"], map["c" := [0]])
  const TWO: Pending := Pending(["c"], map["c" := [1]])
  const BEGAN := Began("c", 0, [0], false, 1)
  const ENDED := Ended("c", 0, Outcome(true))
  const HEARD: seq<Note> := [Started, Finished(Outcome(true))]

  function After(received: nat, watch: Watch): World {
    World(0, ["c", "c"], received, false, [HEARD, []], watch, [BEGAN, ENDED])
  }

  /** The states the run goes through. */
  function At(k: nat): State
    requires k <= 9
  {
    if k == 0 then Init()
    else if k == 1 then State(World(0, ["c"], 0, false, [[]], NOT_SHUT_DOWN, []), EMPTY, map[], Idle)
    else if k == 2 then State(World(0, ["c"], 1, false, [[]], NOT_SHUT_DOWN, []), ONE, map[], Choosing)
    else if k == 3 then State(World(0, ["c"], 1, false, [[Started]], NOT_SHUT_DOWN, [BEGAN]), EMPTY, map[], Running("c", [0]))
    else if k == 4 then State(World(0, ["c"], 1, false, [HEARD], NOT_SHUT_DOWN, [BEGAN, ENDED]), EMPTY, map["c" := 0], Draining)
    else if k == 5 then State(After(1, NOT_SHUT_DOWN), EMPTY, map["c" := 0], Draining)
    else if k == 6 then State(After(2, NOT_SHUT_DOWN), TWO, map["c" := 0], Draining)
    else if k == 7 then State(After(2, NOT_SHUT_DOWN), TWO, map["c" := 0], Choosing)
    else if k == 8 then State(After(2, NOT_SHUT_DOWN), EMPTY, map["c" := 0], Cooling("c", [1], 10))
    else State(After(2, Watch(false, false, false)), EMPTY, map["c" := 0], Cooling("c", [1], 10))
  }

  lemma DeliverOne(notes: seq<Note>, note: Note)
    ensures Deliver([notes], [0], note) == [notes + [note]]
  {
    var ids: seq<nat> := [0];
    assert ids[0] == 0;
  }

  lemma FirstRun(k: nat)
    requires k < 4
    ensures Step(CFG, At(k), SCRIPT[k]) == At(k + 1)
  {
    if k == 2 {
      var p := PopNext(ONE).1;
      assert p == Pending([], map["c" := [0]]) && Without(p, "c") == EMPTY;
      DeliverOne([], Started);
      assert [] + [Started] == [Started] && [] + [BEGAN] == [BEGAN];
    } else if k == 3 {
      DeliverOne([Started], Finished(Outcome(true)));
      assert [Started] + [Finished(Outcome(true))] == HEARD && [BEGAN] + [ENDED] == [BEGAN, ENDED];
    }
  }

  lemma IntoCooldown(k: nat)
    requires 4 <= k < 9
    ensures Step(CFG, At(k), SCRIPT[k]) == At(k + 1)
  {
    if k == 7 {
      var p := PopNext(TWO).1;
      assert p == Pending([], map["c" := [1]]) && Without(p, "c") == EMPTY;
    }
  }

  lemma {:induction false} Reached(k: nat)
    requires k <= 9
    ensures Run(CFG, Init(), SCRIPT[..k]) == At(k)
  {
    if k > 0 {
      Reached(k - 1);
      RunStep(CFG, Init(), SCRIPT, k - 1);
      if k <= 4 {
        FirstRun(k - 1);
      } else {
        IntoCooldown(k - 1);
      }
    }
  }

  /** The command begins again the instant it finished, its interval of 10 notwithstanding. */
  lemma CooldownCutShort()
    ensures var h := Run(CFG, Init(), SCRIPT).world.history;
            |h| == 3 && h[1] == ENDED && h[2].Began? && h[2].command == "c" && h[2].at == h[1].at && h[2].cut
  {
    Reached(9);
    RunStep(CFG, Init(), SCRIPT, 9);
    assert SCRIPT[..10] == SCRIPT;
    var s := At(9);
    assert ActCooling(s, TakeWatch) == Begin(s, "c", [1], true);
  }
}
