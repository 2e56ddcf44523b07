/** The lane's FIFO of distinct commands and the requests that wait on each of them. */
module PendingQueue {
  import opened Basics
  import opened Options

  type Command = string

  /** A request is named by a number; the number stands for its lifecycle sender. */
  datatype Pending = Pending(order: seq<Command>, waiters: map<Command, seq<nat>>)

  const EMPTY := Pending([], map[])

  function Pushed(p: Pending, c: Command, id: nat): Pending {
    if c in p.waiters then p.(waiters := p.waiters[c := p.waiters[c] + [id]])
    else Pending(p.order + [c], p.waiters[c := [id]])
  }

  function PopNext(p: Pending): (Option<Command>, Pending)
    decreases |p.order|
  {
    if p.order == [] then (None, p)
    else if p.order[0] in p.waiters then (Some(p.order[0]), p.(order := p.order[1..]))
    else PopNext(p.(order := p.order[1..]))
  }

  function Waiting(p: Pending, c: Command): seq<nat> {
    if c in p.waiters then p.waiters[c] else []
  }

  function Without(p: Pending, c: Command): Pending {
    p.(waiters := p.waiters - {c})
  }

  /** The representation invariant: the queue holds exactly the commands that have waiters, each once. */
  ghost predicate Consistent(p: Pending) {
    && NoDup(p.order)
    && (forall c :: c in p.order <==> c in p.waiters)
    && (forall c :: c in p.waiters ==> p.waiters[c] != [] && NoDup(p.waiters[c]))
  }

  /** The same between `pop_next_command` and `take_waiters`, when `c` has left the queue but not the map. */
  ghost predicate ConsistentBut(p: Pending, c: Command) {
    && NoDup(p.order)
    && c !in p.order
    && c in p.waiters
    && (forall d :: d in p.waiters <==> d in p.order || d == c)
    && (forall d :: d in p.waiters ==> p.waiters[d] != [] && NoDup(p.waiters[d]))
  }

  lemma PushKeepsConsistent(p: Pending, c: Command, id: nat)
    requires Consistent(p)
    requires forall d :: d in p.waiters ==> id !in p.waiters[d]
    ensures Consistent(Pushed(p, c, id))
  {
    var q := Pushed(p, c, id);
    forall d ensures d in q.order <==> d in q.waiters {
    }
    forall d | d in q.waiters ensures q.waiters[d] != [] && NoDup(q.waiters[d]) {
      if d == c && c in p.waiters {
        assert q.waiters[d] == p.waiters[c] + [id];
        assert NoDup(p.waiters[c]);
      }
    }
  }

  /** Popping yields the oldest waiting command, and taking its waiters restores the invariant. */
  lemma PopTakeKeepsConsistent(p: Pending)
    requires Consistent(p)
    ensures PopNext(p).0 == None <==> p.order == []
    ensures p.order == [] ==> p.waiters == map[] && PopNext(p).1 == p
    ensures p.order != [] ==>
              var (c, q) := PopNext(p);
              && c == Some(p.order[0]) && q == p.(order := p.order[1..])
              && ConsistentBut(q, c.value)
              && Consistent(Without(q, c.value))
  {
    if p.order == [] {
      assert forall c :: c !in p.waiters;
    } else {
      var c := p.order[0];
      assert c in p.waiters;
      var q := p.(order := p.order[1..]);
      forall d ensures d in p.order <==> d == c || d in q.order {
        if d in p.order {
          var i :| 0 <= i < |p.order| && p.order[i] == d;
          if i > 0 { assert q.order[i - 1] == d; }
        }
        if d in q.order {
          var i :| 0 <= i < |q.order| && q.order[i] == d;
          assert p.order[i + 1] == d;
        }
      }
      assert c !in q.order;
    }
  }

  /** `PendingRequests`: the two collections, updated in place. */
  class PendingRequests {
    var order: seq<Command>
    var waiters: map<Command, seq<nat>>

    ghost function View(): Pending
      reads this
    {
      Pending(order, waiters)
    }

    constructor ()
      ensures View() == EMPTY
    {
      order, waiters := [], map[];
    }

    method IsEmpty() returns (empty: bool)
      ensures Consistent(View()) ==> (empty <==> order == [])
      ensures empty <==> waiters == map[]
    {
      empty := |waiters| == 0;
      if Consistent(View()) && order != [] {
        assert order[0] in waiters;
      }
      if Consistent(View()) && order == [] {
        PopTakeKeepsConsistent(View());
      }
    }

    method Push(command: Command, id: nat)
      modifies this
      ensures View() == Pushed(old(View()), command, id)
    {
      if command in waiters {
        waiters := waiters[command := waiters[command] + [id]];
      } else {
        order := order + [command];
        waiters := waiters[command := [id]];
      }
    }

    method PopNextCommand() returns (next: Option<Command>)
      modifies this
      ensures (next, View()) == PopNext(old(View()))
    {
      while order != []
        invariant PopNext(View()) == PopNext(old(View()))
        decreases |order|
      {
        var command := order[0];
        order := order[1..];
        if command in waiters {
          return Some(command);
        }
      }
      next := None;
    }

    method TakeWaiters(command: Command) returns (taken: seq<nat>)
      modifies this
      ensures taken == Waiting(old(View()), command)
      ensures View() == Without(old(View()), command)
    {
      taken := if command in waiters then waiters[command] else [];
      waiters := waiters - {command};
    }
  }
}
