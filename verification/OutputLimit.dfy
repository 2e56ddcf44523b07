/** Two pipe readers that capture the output of one child share one byte budget, in any interleaving. */
module OutputLimit {
  import opened Basics
  import opened Options

  type Byte = bv8

  const BUFFER_SIZE := 8192

  datatype Which = Stdout | Stderr

  /** `Ended` at end of file, `Exceeded` when the budget cut a read short, `Broken` by an I/O error. */
  datatype Status = Reading | Ended | Exceeded | Broken

  /** One reader: what its pipe will carry, how far it has read and what it has kept. */
  datatype Reader = Reader(pipe: seq<Byte>, read: nat, captured: seq<Byte>, status: Status)

  datatype Readers = Readers(limit: Option<nat>, used: nat, stdout: Reader, stderr: Reader)

  /** The next read of a pipe returns up to `bytes` bytes, or fails. */
  datatype Turn = Turn(which: Which, bytes: nat, fails: bool)

  function Init(limit: Option<nat>, stdout: seq<Byte>, stderr: seq<Byte>): Readers {
    Readers(limit, 0, Reader(stdout, 0, [], Reading), Reader(stderr, 0, [], Reading))
  }

  /** How many bytes a read returns: none at end of file, otherwise at least one and at most a buffer. */
  function Returned(r: Reader, bytes: nat): nat
    requires r.read <= |r.pipe|
  {
    var rest := |r.pipe| - r.read;
    if rest == 0 then 0 else Min(if bytes == 0 then 1 else bytes, Min(BUFFER_SIZE, rest))
  }

  function Allowed(limit: Option<nat>, used: nat, requested: nat): nat {
    if limit.None? then requested
    else if used >= limit.value then 0
    else Min(limit.value - used, requested)
  }

  function ReadOnce(limit: Option<nat>, used: nat, r: Reader, t: Turn): (Reader, nat)
    requires r.read <= |r.pipe|
  {
    if !r.status.Reading? then (r, used)
    else if t.fails then (r.(status := Broken), used)
    else
      var bytes := Returned(r, t.bytes);
      if bytes == 0 then (r.(status := Ended), used)
      else
        var allowed := Allowed(limit, used, bytes);
        (Reader(r.pipe, r.read + bytes, r.captured + r.pipe[r.read..r.read + allowed],
                if allowed < bytes then Exceeded else Reading),
         if limit.None? then used else used + allowed)
  }

  ghost predicate ReaderOk(r: Reader) {
    && r.read <= |r.pipe| && |r.captured| <= r.read
    && r.captured == r.pipe[..|r.captured|]
    && (r.status.Reading? || r.status.Ended? ==> |r.captured| == r.read)
    && (r.status.Ended? ==> r.captured == r.pipe)
    && (r.status.Exceeded? ==> |r.captured| < |r.pipe|)
  }

  /** The budget: what is used is what was captured, and a reader was cut short only when it was all used. */
  ghost predicate Inv(s: Readers) {
    && ReaderOk(s.stdout) && ReaderOk(s.stderr)
    && (s.limit.Some? ==> s.used == |s.stdout.captured| + |s.stderr.captured| <= s.limit.value)
    && (s.stdout.status.Exceeded? || s.stderr.status.Exceeded? ==> s.limit.Some? && s.used == s.limit.value)
  }

  function Step(s: Readers, t: Turn): Readers
    requires s.stdout.read <= |s.stdout.pipe| && s.stderr.read <= |s.stderr.pipe|
  {
    if t.which.Stdout? then
      var (r, used) := ReadOnce(s.limit, s.used, s.stdout, t); s.(stdout := r, used := used)
    else
      var (r, used) := ReadOnce(s.limit, s.used, s.stderr, t); s.(stderr := r, used := used)
  }

  lemma ReadKeepsReader(limit: Option<nat>, used: nat, r: Reader, t: Turn)
    requires ReaderOk(r)
    ensures ReaderOk(ReadOnce(limit, used, r, t).0)
  {
    if r.status.Reading? && !t.fails && Returned(r, t.bytes) > 0 {
      var allowed := Allowed(limit, used, Returned(r, t.bytes));
      assert r.pipe[..r.read] + r.pipe[r.read..r.read + allowed] == r.pipe[..r.read + allowed];
    }
  }

  lemma StepKeepsInv(s: Readers, t: Turn)
    requires Inv(s)
    ensures Inv(Step(s, t))
  {
    ReadKeepsReader(s.limit, s.used, if t.which.Stdout? then s.stdout else s.stderr, t);
  }

  ghost function Run(s: Readers, turns: seq<Turn>): (r: Readers)
    requires Inv(s)
    ensures Inv(r) && r.limit == s.limit && r.stdout.pipe == s.stdout.pipe && r.stderr.pipe == s.stderr.pipe
  {
    if turns == [] then s
    else
      var m := Run(s, turns[..|turns| - 1]);
      StepKeepsInv(m, turns[|turns| - 1]);
      Step(m, turns[|turns| - 1])
  }

  /** For every interleaving: the captures together never exceed the limit and each is a prefix of its stream. */
  lemma {:induction false} SharedBudget(limit: Option<nat>, stdout: seq<Byte>, stderr: seq<Byte>, turns: seq<Turn>)
    ensures var s := Run(Init(limit, stdout, stderr), turns);
            && s.stdout.captured <= stdout && s.stderr.captured <= stderr
            && (limit.Some? ==> |s.stdout.captured| + |s.stderr.captured| <= limit.value)
  {
    var s := Run(Init(limit, stdout, stderr), turns);
    assert s.stdout.captured <= stdout && s.stderr.captured <= stderr;
  }

  /** Once a reader was cut short the budget is exactly used up, and stays so whatever is read later. */
  lemma {:induction false} ExceededMeansFull(s: Readers, turns: seq<Turn>)
    requires Inv(s) && (s.stdout.status.Exceeded? || s.stderr.status.Exceeded?)
    ensures var t := Run(s, turns);
            && t.limit.Some? && |t.stdout.captured| + |t.stderr.captured| == t.limit.value
            && t.stdout.captured == s.stdout.captured && t.stderr.captured == s.stderr.captured
  {
    if turns != [] {
      ExceededMeansFull(s, turns[..|turns| - 1]);
      var m := Run(s, turns[..|turns| - 1]);
      var t := turns[|turns| - 1];
      var r := if t.which.Stdout? then m.stdout else m.stderr;
      if r.status.Reading? && !t.fails && Returned(r, t.bytes) > 0 {
        assert r.pipe[r.read..r.read + 0] == [];
      }
    }
  }

  ghost predicate Finished(s: Readers) {
    && (s.stdout.status.Ended? || s.stdout.status.Exceeded?)
    && (s.stderr.status.Ended? || s.stderr.status.Exceeded?)
  }

  ghost predicate Truncated(s: Readers) {
    s.stdout.status.Exceeded? || s.stderr.status.Exceeded?
  }

  ghost predicate OverLimit(limit: Option<nat>, stdout: seq<Byte>, stderr: seq<Byte>) {
    limit.Some? && |stdout| + |stderr| > limit.value
  }

  /** Whatever the interleaving, once both readers are through without I/O error the verdict is the same:
      something was cut exactly when the two streams together exceed the limit; otherwise both are whole. */
  lemma {:induction false} VerdictIsScheduleFree(limit: Option<nat>, stdout: seq<Byte>, stderr: seq<Byte>, turns: seq<Turn>)
    requires Finished(Run(Init(limit, stdout, stderr), turns))
    ensures var s := Run(Init(limit, stdout, stderr), turns);
            && (Truncated(s) <==> OverLimit(limit, stdout, stderr))
            && (!Truncated(s) <==> s.stdout.captured == stdout && s.stderr.captured == stderr)
  {
  }

  /** `SharedOutputLimit`: the budget both reader tasks hold. */
  class SharedOutputLimit {
    const limit: nat
    var used: nat

    constructor (limit: nat)
      ensures this.limit == limit && used == 0
    {
      this.limit, used := limit, 0;
    }

    method Reserve(requested: nat) returns (allowed: nat)
      modifies this
      ensures allowed == Allowed(Some(limit), old(used), requested)
      ensures used == old(used) + allowed
      ensures old(used) <= limit ==> used <= limit && (allowed < requested ==> used == limit)
    {
      var remaining := if used <= limit then limit - used else 0;
      allowed := Min(remaining, requested);
      used := used + allowed;
    }
  }

  /** The task of `read_pipe`. */
  class PipeReader {
    const pipe: seq<Byte>
    const limit: SharedOutputLimit?
    var position: nat
    var output: seq<Byte>
    var status: Status

    ghost function View(): Reader
      reads this
    {
      Reader(pipe, position, output, status)
    }

    constructor (pipe: seq<Byte>, limit: SharedOutputLimit?)
      ensures this.pipe == pipe && this.limit == limit
      ensures View() == Reader(pipe, 0, [], Reading)
    {
      this.pipe, this.limit := pipe, limit;
      position, output, status := 0, [], Reading;
    }

    /** One turn of its loop. */
    method ReadChunk(turn: Turn)
      requires position <= |pipe|
      modifies this, if limit == null then {} else {limit}
      ensures (View(), if limit == null then 0 else limit.used)
           == ReadOnce(if limit == null then None else Some(limit.limit), if limit == null then 0 else old(limit.used),
                       old(View()), turn)
    {
      if !status.Reading? {
        return;
      }
      if turn.fails {
        status := Broken;
        return;
      }
      var bytes := Returned(Reader(pipe, position, output, status), turn.bytes);
      if bytes == 0 {
        status := Ended;
        return;
      }
      var allowed := bytes;
      if limit != null {
        allowed := limit.Reserve(bytes);
      }
      output := output + pipe[position..position + allowed];
      position := position + bytes;
      if allowed < bytes {
        status := Exceeded;
      }
    }
  }

  /** The two reader tasks of a child and the budget they share. */
  class Capture {
    const limit: SharedOutputLimit?
    const stdout: PipeReader
    const stderr: PipeReader

    ghost predicate Valid()
      reads this, stdout, stderr, limit
    {
      && stdout != stderr && stdout.limit == limit && stderr.limit == limit
      && Inv(View())
    }

    ghost function View(): Readers
      reads this, stdout, stderr, limit
    {
      Readers(if limit == null then None else Some(limit.limit), if limit == null then 0 else limit.used,
              stdout.View(), stderr.View())
    }

    constructor (bytes: Option<nat>, out: seq<Byte>, err: seq<Byte>)
      ensures Valid() && View() == Init(bytes, out, err)
      ensures fresh(stdout) && fresh(stderr) && (limit != null ==> fresh(limit))
    {
      var shared: SharedOutputLimit? := null;
      if bytes.Some? {
        shared := new SharedOutputLimit(bytes.value);
      }
      limit := shared;
      stdout := new PipeReader(out, shared);
      stderr := new PipeReader(err, shared);
    }

    /** One of the tasks runs for one turn of its loop. */
    method TakeTurn(turn: Turn)
      requires Valid()
      modifies stdout, stderr, if limit == null then {} else {limit}
      ensures Valid() && View() == Step(old(View()), turn)
    {
      StepKeepsInv(View(), turn);
      if turn.which.Stdout? {
        stdout.ReadChunk(turn);
      } else {
        stderr.ReadChunk(turn);
      }
    }

    /** The tasks in any order. */
    method RunTurns(turns: seq<Turn>)
      requires Valid()
      modifies stdout, stderr, if limit == null then {} else {limit}
      ensures Valid() && View() == Run(old(View()), turns)
    {
      var k := 0;
      while k < |turns|
        invariant k <= |turns| && Valid() && View() == Run(old(View()), turns[..k])
      {
        assert turns[..k + 1][..k] == turns[..k];
        TakeTurn(turns[k]);
        k := k + 1;
      }
      assert turns[..k] == turns;
    }
  }
}
