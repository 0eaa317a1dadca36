/**
 * The block reader between its lock operations (wire/block_reader.go:22-118): any number of
 * goroutines that enqueue or close, one that reads, the mutex closedMu, and a channel of 128 blocks.
 * A move is what a goroutine does between two points where another can intervene.
 */
module Locks {
  import opened Base
  import Readers
  import opened Blocks
  import opened Streams

  datatype Job = Put(data: bytes) | Shut

  /** An Enqueue or an internalClose: waiting for the lock, holding it, past the closed test, releasing. */
  datatype Worker = Rest | Wants(job: Job) | Holds(job: Job) | Acts(job: Job) | Frees

  /** A Read (`waits`) or a TryRead into `n` bytes. */
  datatype Reading =
    | Away
    | Asks(n: nat, waits: bool)
    | Looks(n: nat, waits: bool)
    | Receives(n: nat, waits: bool)
    | Copies(n: nat)

  datatype Thread = Work(i: nat) | Reader

  /**
   * `closed` is the flag, `shut` the channel itself being closed. `accepted` and `returned` are the
   * bytes sent on the channel and handed to readers so far; `panicked` a send on, or a second close
   * of, a closed channel.
   */
  datatype Lot = Lot(holder: Option<Thread>, closed: bool, shut: bool, blocks: seq<bytes>, buf: bytes,
                     workers: seq<Worker>, reading: Reading, accepted: bytes, returned: bytes, panicked: bool)

  function Fresh(n: nat): Lot {
    Lot(None, false, false, [], [], seq(n, _ => Rest), Away, [], [], false)
  }

  datatype Step = Begin(i: nat, job: Job) | BeginRead(n: nat, waits: bool) | Go(t: Thread)

  predicate CanWork(c: Lot, w: Worker) {
    match w
    case Rest => false
    case Wants(_) => c.holder == None
    case Acts(Put(_)) => c.shut || |c.blocks| < CHANNEL
    case _ => true
  }

  predicate CanRead(c: Lot) {
    match c.reading
    case Away => false
    case Asks(_, _) => c.holder == None
    case Receives(_, waits) => c.blocks != [] || c.shut || !waits
    case _ => true
  }

  predicate CanGo(c: Lot, t: Thread) {
    if t.Reader? then CanRead(c) else t.i < |c.workers| && CanWork(c, c.workers[t.i])
  }

  function WorkerMoves(c: Lot, i: nat): Lot
    requires CanGo(c, Work(i))
  {
    var at := (w: Worker) => c.(workers := c.workers[i := w]);
    match c.workers[i]
    case Wants(job) => at(Holds(job)).(holder := Some(Work(i)))
    case Holds(job) =>
      if c.closed then at(Frees)
      else at(Acts(job)).(closed := job.Shut?)
    case Acts(Put(data)) =>
      if c.shut then c.(panicked := true)
      else at(Frees).(blocks := c.blocks + [data], accepted := c.accepted + data)
    case Acts(Shut) =>
      if c.shut then c.(panicked := true) else at(Frees).(shut := true)
    case Frees => at(Rest).(holder := None)
  }

  function ReaderMoves(c: Lot): Lot
    requires CanGo(c, Reader)
  {
    match c.reading
    case Asks(n, waits) => c.(reading := Looks(n, waits), holder := Some(Reader))
    case Looks(n, waits) => c.(reading := if c.closed then Away else Receives(n, waits), holder := None)
    case Receives(n, waits) =>
      if c.blocks == [] then c.(reading := Away)
      else c.(buf := c.blocks[0], blocks := c.blocks[1..], reading := Copies(n))
    case Copies(n) =>
      var k := Min(n, |c.buf|);
      c.(returned := c.returned + c.buf[..k], buf := c.buf[k..], reading := Away)
  }

  predicate Enabled(c: Lot, s: Step) {
    && !c.panicked
    && match s
      case Begin(i, _) => i < |c.workers| && c.workers[i].Rest?
      case BeginRead(_, _) => c.reading.Away?
      case Go(t) => CanGo(c, t)
  }

  function After(c: Lot, s: Step): Lot
    requires Enabled(c, s)
  {
    match s
    case Begin(i, job) =>
      if job == Put([]) then c else c.(workers := c.workers[i := Wants(job)])
    case BeginRead(n, waits) =>
      c.(reading := if c.buf == [] then Asks(n, waits) else Copies(n))
    case Go(Reader) => ReaderMoves(c)
    case Go(Work(i)) => WorkerMoves(c, i)
  }

  function Run(c: Lot, steps: seq<Step>): Lot
    decreases |steps|
  {
    if steps == [] then c
    else Run(if Enabled(c, steps[0]) then After(c, steps[0]) else c, steps[1..])
  }

  // Invariants.

  predicate InLock(w: Worker) { w.Holds? || w.Acts? || w.Frees? }

  predicate Exclusive(c: Lot) {
    && (forall i :: 0 <= i < |c.workers| ==> (InLock(c.workers[i]) <==> c.holder == Some(Work(i))))
    && (c.reading.Looks? <==> c.holder == Some(Reader))
    && (c.holder.Some? && c.holder.value.Work? ==> c.holder.value.i < |c.workers|)
  }

  /** What the lock protects: whoever is past the closed test still sees what it tested. */
  predicate Guarded(c: Lot) {
    && !c.panicked
    && (c.shut ==> c.closed)
    && (forall i :: 0 <= i < |c.workers| && c.workers[i].Acts? ==> !c.shut && (c.closed <==> c.workers[i].job.Shut?))
  }

  predicate Carries(w: Worker) { (w.Wants? || w.Holds? || w.Acts?) ==> w.job != Put([]) }

  predicate Buffered(c: Lot) {
    && NonEmpty(c.blocks) && |c.blocks| <= CHANNEL
    && (forall i :: 0 <= i < |c.workers| ==> Carries(c.workers[i]))
    && (c.reading.Asks? || c.reading.Looks? || c.reading.Receives? ==> c.buf == [])
    && (c.reading.Copies? ==> c.buf != [])
  }

  predicate Conserved(c: Lot) { c.returned + (c.buf + Flat(c.blocks)) == c.accepted }

  predicate Inv(c: Lot) { Exclusive(c) && Guarded(c) && Buffered(c) && Conserved(c) }

  lemma WorkerKeepsLocks(c: Lot, i: nat)
    requires Exclusive(c) && Guarded(c) && CanGo(c, Work(i))
    ensures Exclusive(WorkerMoves(c, i)) && Guarded(WorkerMoves(c, i))
  {
    var d := WorkerMoves(c, i);
    assert forall j :: 0 <= j < |c.workers| && j != i ==> d.workers[j] == c.workers[j];
  }

  lemma WorkerKeepsBytes(c: Lot, i: nat)
    requires Exclusive(c) && Guarded(c) && Buffered(c) && Conserved(c) && CanGo(c, Work(i))
    ensures Buffered(WorkerMoves(c, i)) && Conserved(WorkerMoves(c, i))
  {
    var d := WorkerMoves(c, i);
    assert forall j :: 0 <= j < |c.workers| && j != i ==> d.workers[j] == c.workers[j];
    var w := c.workers[i];
    assert Carries(w);
    if w.Acts? && w.job.Put? {
      FlatSnoc(c.blocks, w.job.data);
      hide Flat;
    }
  }

  lemma FlatSnoc(blocks: seq<bytes>, data: bytes)
    ensures Flat(blocks + [data]) == Flat(blocks) + data
  {
    FlatConcat(blocks, [data]);
    FlatOne(data);
  }

  lemma ReaderKeepsLocks(c: Lot)
    requires Exclusive(c) && Guarded(c) && CanGo(c, Reader)
    ensures Exclusive(ReaderMoves(c)) && Guarded(ReaderMoves(c))
  {
  }

  lemma ReaderKeepsBytes(c: Lot)
    requires Buffered(c) && Conserved(c) && CanGo(c, Reader)
    ensures Buffered(ReaderMoves(c)) && Conserved(ReaderMoves(c))
  {
    hide Carries;
    if c.reading.Copies? {
      var k := Min(c.reading.n, |c.buf|);
      Split(c.returned, c.buf, k, Flat(c.blocks));
    } else if c.reading.Receives? && c.blocks != [] {
      assert Flat(c.blocks) == c.blocks[0] + Flat(c.blocks[1..]);
    }
    hide Flat;
  }

  lemma Split(a: bytes, b: bytes, k: nat, rest: bytes)
    requires k <= |b|
    ensures (a + b[..k]) + (b[k..] + rest) == a + (b + rest)
  {
    assert b == b[..k] + b[k..];
  }

  lemma BeginKeeps(c: Lot, i: nat, job: Job)
    requires Inv(c) && Enabled(c, Begin(i, job))
    ensures Inv(After(c, Begin(i, job)))
  {
    var d := After(c, Begin(i, job));
    assert forall j :: 0 <= j < |c.workers| && j != i ==> d.workers[j] == c.workers[j];
  }

  lemma StepKeeps(c: Lot, s: Step)
    requires Inv(c) && Enabled(c, s)
    ensures Inv(After(c, s))
  {
    match s
    case Begin(i, job) => BeginKeeps(c, i, job);
    case BeginRead(n, waits) =>
    case Go(Reader) =>
      ReaderKeepsLocks(c);
      ReaderKeepsBytes(c);
    case Go(Work(i)) =>
      WorkerKeepsLocks(c, i);
      WorkerKeepsBytes(c, i);
  }

  lemma {:induction false} RunKeeps(c: Lot, steps: seq<Step>)
    requires Inv(c)
    ensures Inv(Run(c, steps))
    decreases |steps|
  {
    hide Inv, After, Enabled;
    if steps != [] {
      if Enabled(c, steps[0]) {
        StepKeeps(c, steps[0]);
      }
      RunKeeps(if Enabled(c, steps[0]) then After(c, steps[0]) else c, steps[1..]);
    }
  }

  lemma FreshInv(n: nat)
    ensures Inv(Fresh(n))
  {
  }

  /**
   * However any number of Enqueues, closes and reads interleave at their locks, nothing is sent on
   * and nothing re-closes a closed channel, and the bytes returned, buffered and queued are the
   * bytes accepted, in order.
   */
  lemma SafeAndConserving(n: nat, steps: seq<Step>)
    ensures var c := Run(Fresh(n), steps);
      !c.panicked && c.returned + (c.buf + Flat(c.blocks)) == c.accepted && |c.blocks| <= CHANNEL
  {
    hide Run;
    FreshInv(n);
    RunKeeps(Fresh(n), steps);
  }

  function View(c: Lot): Queue { Queue(c.blocks, c.buf, c.closed) }

  /**
   * Each Enqueue or close takes effect on the queue in a single move, under the lock - the rest of
   * its moves leave the queue alone - and what that move does is the whole call: the atomic calls
   * of Blocks describe the locked code.
   */
  lemma WorkTakesEffectOnce(c: Lot, i: nat)
    requires Inv(c) && CanGo(c, Work(i))
    ensures var w, q := c.workers[i], View(WorkerMoves(c, i));
      match w
      case Holds(Put(data)) => q == View(c) && (c.closed ==> q == Enqueued(View(c), data))
      case Holds(Shut) => q == View(c).(closed := true)
      case Acts(Put(data)) => q == Enqueued(View(c), data) && |q.blocks| == |c.blocks| + 1
      case _ => q == View(c)
  {
    assert Carries(c.workers[i]);
  }

  // Reads.

  /** What the read under way returns, when its next move is its last. */
  function Returns(c: Lot): Option<Outcome> {
    match c.reading
    case Looks(_, _) => if c.closed then Some(Fail(Readers.EOF)) else None
    case Receives(_, waits) =>
      if c.blocks != [] then None
      else if c.shut then Some(Fail(Readers.EOF))
      else if waits then None
      else Some(Waits)
    case Copies(n) => Some(Got(c.buf[..Min(n, |c.buf|)]))
    case _ => None
  }

  /** The bytes handed over. */
  function Given(o: Outcome): bytes { if o.Got? then o.bs else [] }

  lemma ReturnsLast(c: Lot)
    requires CanGo(c, Reader)
    ensures ReaderMoves(c).reading.Away? <==> Returns(c).Some?
    ensures var r := Returns(c);
      ReaderMoves(c).returned == c.returned + (if r.Some? then Given(r.value) else [])
  {
    assert c.returned + [] == c.returned;
  }

  function Size(r: Reading): nat { if r.Away? then 0 else r.n }

  function Front(blocks: seq<bytes>): Option<bytes> { if blocks == [] then None else Some(blocks[0]) }

  /** An open queue with nothing buffered and the front block, if any, of `c`. */
  predicate Stood(q: Queue, c: Lot) { !q.closed && q.buf == [] && Front(q.blocks) == Front(c.blocks) }

  /** A queue whose atomic read hands over what the copying read is about to. */
  predicate Served(q: Queue, c: Lot)
    requires c.reading.Copies?
  {
    TakeOutcome(q, c.reading.n) == Got(c.buf[..Min(c.reading.n, |c.buf|)])
  }

  /** The moments since the read began include one at which an atomic read would have done as it does. */
  ghost predicate Explained(c: Lot, seen: seq<Queue>) {
    && (c.reading.Asks? || c.reading.Looks? || c.reading.Receives? ==> c.buf == [])
    && (c.reading.Receives? ==> exists i :: 0 <= i < |seen| && Stood(seen[i], c))
    && (c.reading.Copies? ==> exists i :: 0 <= i < |seen| && Served(seen[i], c))
  }

  /** The queue at the start of the run and after each of its steps. */
  function Moments(c: Lot, steps: seq<Step>): (r: seq<Queue>)
    ensures |r| == |steps| + 1
  {
    seq(|steps| + 1, k requires 0 <= k <= |steps| => View(Run(c, steps[..k])))
  }

  lemma ExplainedMore(c: Lot, seen: seq<Queue>, q: Queue)
    requires Explained(c, seen)
    ensures Explained(c, seen + [q])
  {
    hide Stood, TakeOutcome;
    var s := seen + [q];
    assert forall i :: 0 <= i < |seen| ==> s[i] == seen[i];
  }

  lemma StoodTakes(q: Queue, c: Lot, n: nat)
    requires Stood(q, c) && c.blocks != []
    ensures TakeOutcome(q, n) == if c.blocks[0] == [] then Waits else Got(c.blocks[0][..Min(n, |c.blocks[0]|)])
  {
  }

  lemma ReaderExplained(c: Lot, seen: seq<Queue>)
    requires Inv(c) && CanGo(c, Reader) && Explained(c, seen) && seen != [] && seen[|seen| - 1] == View(c)
    ensures Explained(ReaderMoves(c), seen + [View(ReaderMoves(c))])
  {
    var d := ReaderMoves(c);
    var s := seen + [View(d)];
    assert s[|seen|] == View(d) && s[|seen| - 1] == View(c);
    match c.reading
    case Asks(_, _) =>
    case Looks(_, _) =>
      if !c.closed {
        assert Stood(s[|seen|], d);
      }
    case Receives(n, _) =>
      if c.blocks != [] {
        var i :| 0 <= i < |seen| && Stood(seen[i], c);
        StoodTakes(seen[i], c, n);
        assert s[i] == seen[i];
      }
    case Copies(_) =>
  }

  lemma WorkerExplained(c: Lot, j: nat, seen: seq<Queue>)
    requires Inv(c) && CanGo(c, Work(j)) && Explained(c, seen)
    ensures Explained(WorkerMoves(c, j), seen + [View(WorkerMoves(c, j))])
  {
    var d := WorkerMoves(c, j);
    var s := seen + [View(d)];
    WorkTakesEffectOnce(c, j);
    assert d.reading == c.reading && d.buf == c.buf;
    assert forall i :: 0 <= i < |seen| ==> s[i] == seen[i];
    if c.reading.Receives? {
      var i :| 0 <= i < |seen| && Stood(seen[i], c);
      if Front(d.blocks) == Front(c.blocks) {
        assert Stood(s[i], d);
      } else {
        assert Stood(s[|seen|], d);
      }
    }
    hide TakeOutcome, WorkerMoves;
  }

  /** Throughout the run a read - and so the same read - is under way. */
  predicate Underway(c: Lot, steps: seq<Step>) {
    forall k :: 0 <= k <= |steps| ==> !Run(c, steps[..k]).reading.Away?
  }

  lemma StepExplained(c: Lot, s: Step, seen: seq<Queue>)
    requires Inv(c) && Enabled(c, s) && !c.reading.Away? && Explained(c, seen)
    requires seen != [] && seen[|seen| - 1] == View(c)
    ensures Explained(After(c, s), seen + [View(After(c, s))])
    ensures !After(c, s).reading.Away? ==> Size(After(c, s).reading) == Size(c.reading)
  {
    if s.Begin? {
      ExplainedMore(After(c, s), seen, View(After(c, s)));
    } else {
      match s.t
      case Reader => ReaderExplained(c, seen);
      case Work(i) => WorkerExplained(c, i, seen);
    }
  }

  lemma {:induction false} RunSnoc(c: Lot, steps: seq<Step>, s: Step)
    ensures var d := Run(c, steps);
      Run(c, steps + [s]) == if Enabled(d, s) then After(d, s) else d
    decreases |steps|
  {
    hide After, Enabled;
    if steps == [] {
      assert [s][1..] == [];
    } else {
      assert (steps + [s])[1..] == steps[1..] + [s];
      RunSnoc(if Enabled(c, steps[0]) then After(c, steps[0]) else c, steps[1..], s);
    }
  }

  lemma MomentsSnoc(c: Lot, steps: seq<Step>, s: Step)
    ensures Moments(c, steps + [s]) == Moments(c, steps) + [View(Run(c, steps + [s]))]
    ensures Moments(c, steps)[|steps|] == View(Run(c, steps))
  {
    hide Run, View;
    var all := steps + [s];
    assert steps[..|steps|] == steps && all[..|all|] == all;
    assert forall k :: 0 <= k <= |steps| ==> all[..k] == steps[..k];
  }

  lemma {:induction false} RunExplained(c: Lot, steps: seq<Step>)
    requires Inv(c) && Underway(c, steps) && Explained(c, [View(c)])
    ensures Inv(Run(c, steps)) && Explained(Run(c, steps), Moments(c, steps))
    ensures Size(Run(c, steps).reading) == Size(c.reading)
    decreases |steps|
  {
    hide Inv, Explained, After, Enabled, View;
    if steps == [] {
      assert Moments(c, []) == [View(c)] by { assert steps[..0] == []; }
    } else {
      var n := |steps| - 1;
      var before, s := steps[..n], steps[n];
      assert steps == before + [s];
      assert Underway(c, before) by {
        assert forall k :: 0 <= k <= n ==> before[..k] == steps[..k];
      }
      RunExplained(c, before);
      var b, d := Run(c, before), Run(c, steps);
      RunSnoc(c, before, s);
      MomentsSnoc(c, before, s);
      assert before[..n] == before && steps[..n + 1] == steps;
      hide Run;
      if Enabled(b, s) {
        StepKeeps(b, s);
        StepExplained(b, s, Moments(c, before));
      } else {
        ExplainedMore(b, Moments(c, before), View(b));
      }
    }
  }

  lemma ReturnsExplained(c: Lot, seen: seq<Queue>)
    requires Inv(c) && Explained(c, seen) && Returns(c).Some? && seen != [] && seen[|seen| - 1] == View(c)
    ensures exists k :: 0 <= k < |seen| && TakeOutcome(seen[k], Size(c.reading)) == Returns(c).value
  {
    if c.reading.Copies? {
      var k :| 0 <= k < |seen| && Served(seen[k], c);
      assert TakeOutcome(seen[k], Size(c.reading)) == Returns(c).value;
    } else if c.closed && c.blocks == [] && c.reading.Receives? && !c.shut {
      var k :| 0 <= k < |seen| && Stood(seen[k], c);
      assert TakeOutcome(seen[k], Size(c.reading)) == Waits;
    } else {
      assert TakeOutcome(seen[|seen| - 1], Size(c.reading)) == Returns(c).value;
    }
  }

  /**
   * A locked read tests the closed flag in one move and receives in another. Even so, whatever
   * Enqueues and closes come in between, it returns what the atomic read of Blocks would have
   * returned at some moment between its first move and its last.
   */
  lemma ReadsAreAtomicSomewhere(n: nat, before: seq<Step>, size: nat, waits: bool, steps: seq<Step>)
    requires Enabled(Run(Fresh(n), before), BeginRead(size, waits))
    requires Underway(After(Run(Fresh(n), before), BeginRead(size, waits)), steps)
    requires var c := Run(After(Run(Fresh(n), before), BeginRead(size, waits)), steps);
      CanGo(c, Reader) && ReaderMoves(c).reading.Away?
    ensures var c := After(Run(Fresh(n), before), BeginRead(size, waits));
      var last := Run(c, steps);
      exists k :: 0 <= k <= |steps| && Returns(last) == Some(TakeOutcome(Moments(c, steps)[k], size))
        && ReaderMoves(last).returned == last.returned + Given(TakeOutcome(Moments(c, steps)[k], size))
  {
    hide Run, Inv, Explained, Underway, Returns, TakeOutcome, Moments, CanGo, ReaderMoves;
    FreshInv(n);
    RunKeeps(Fresh(n), before);
    var c0 := Run(Fresh(n), before);
    StepKeeps(c0, BeginRead(size, waits));
    BeginExplained(c0, size, waits);
    var c := After(c0, BeginRead(size, waits));
    assert Size(c.reading) == size;
    RunExplained(c, steps);
    MomentsSnoc(c, steps, BeginRead(0, false));
    ReturnsLast(Run(c, steps));
    ReturnsExplained(Run(c, steps), Moments(c, steps));
  }

  lemma BeginExplained(c: Lot, size: nat, waits: bool)
    requires Inv(c) && Enabled(c, BeginRead(size, waits))
    ensures var d := After(c, BeginRead(size, waits));
      Explained(d, [View(d)])
  {
    var d := After(c, BeginRead(size, waits));
    if d.reading.Copies? {
      assert Served([View(d)][0], d);
    }
  }

  // Deadlock.

  predicate Enqueues(w: Worker) { !w.Rest? && (w.Frees? || w.job.Put?) }

  /** Some Enqueue and a read have begun and are not done. */
  predicate Pending(c: Lot) {
    !c.reading.Away? && exists i :: 0 <= i < |c.workers| && Enqueues(c.workers[i])
  }

  ghost predicate NothingMoves(c: Lot) { forall t: Thread :: !CanGo(c, t) }

  /** An Enqueue holds the lock before a full channel, and the reader, with nothing buffered, waits for that lock. */
  predicate Jammed(c: Lot) {
    && |c.blocks| == CHANNEL && c.reading.Asks? && c.buf == []
    && exists i :: 0 <= i < |c.workers| && c.workers[i].Acts? && c.workers[i].job.Put? && c.holder == Some(Work(i))
  }

  lemma JammedIsStuck(c: Lot)
    requires Inv(c) && Jammed(c)
    ensures NothingMoves(c) && Pending(c)
  {
    var i :| 0 <= i < |c.workers| && c.workers[i].Acts? && c.workers[i].job.Put? && c.holder == Some(Work(i));
    assert Enqueues(c.workers[i]);
    forall t: Thread
      ensures !CanGo(c, t)
    {
      if t.Work? && t.i < |c.workers| && t.i != i {
        assert !InLock(c.workers[t.i]);
      }
    }
  }

  lemma StuckIsJammed(c: Lot)
    requires Inv(c) && Pending(c) && NothingMoves(c)
    ensures Jammed(c)
  {
    assert !CanGo(c, Reader);
    var i :| 0 <= i < |c.workers| && Enqueues(c.workers[i]);
    assert !CanGo(c, Work(i));
    assert c.holder.Some?;
    assert c.holder.value != Reader;
    var h := c.holder.value.i;
    assert InLock(c.workers[h]);
    assert !CanGo(c, Work(h));
    assert c.workers[h].Acts? && c.workers[h].job.Put?;
  }

  /** With an Enqueue and a read both under way, no goroutine can move in exactly that situation. */
  lemma StuckExactly(n: nat, steps: seq<Step>)
    requires Pending(Run(Fresh(n), steps))
    ensures var c := Run(Fresh(n), steps);
      NothingMoves(c) <==> Jammed(c)
  {
    hide Run, Inv, Pending, NothingMoves, Jammed;
    FreshInv(n);
    RunKeeps(Fresh(n), steps);
    var c := Run(Fresh(n), steps);
    if Jammed(c) {
      JammedIsStuck(c);
    }
    if NothingMoves(c) {
      StuckIsJammed(c);
    }
  }

  lemma JamStep(c: Lot, s: Step)
    requires Inv(c) && Jammed(c) && Enabled(c, s)
    ensures Jammed(After(c, s)) && After(c, s).returned == c.returned && After(c, s).blocks == c.blocks
  {
    JammedIsStuck(c);
    var i :| 0 <= i < |c.workers| && c.workers[i].Acts? && c.workers[i].job.Put? && c.holder == Some(Work(i));
    match s
    case Begin(_, _) => assert After(c, s).workers[i] == c.workers[i];
    case BeginRead(_, _) =>
    case Go(_) =>
  }

  /** And it never ends: no later call, close or read frees it, and no byte is returned again. */
  lemma {:induction false} JamIsForever(c: Lot, steps: seq<Step>)
    requires Inv(c) && Jammed(c)
    ensures Jammed(Run(c, steps)) && Run(c, steps).returned == c.returned
    decreases |steps|
  {
    hide Inv, Jammed, After, Enabled;
    if steps != [] {
      if Enabled(c, steps[0]) {
        JamStep(c, steps[0]);
        StepKeeps(c, steps[0]);
      }
      JamIsForever(if Enabled(c, steps[0]) then After(c, steps[0]) else c, steps[1..]);
    }
  }

  // It can happen, with a single enqueuer and a single read.

  /** The enqueuer is at rest, `k` one-byte blocks are queued, and nothing was read. */
  predicate Filled(c: Lot, k: nat) {
    && c.workers == [Rest] && c.reading.Away? && c.holder == None && !c.closed && !c.shut && !c.panicked
    && |c.blocks| == k && c.buf == []
  }

  const OnePut: seq<Step> := [Begin(0, Put([0])), Go(Work(0)), Go(Work(0)), Go(Work(0)), Go(Work(0))]

  function Puts(k: nat): seq<Step> { if k == 0 then [] else OnePut + Puts(k - 1) }

  lemma Take1(c: Lot, s: Step, rest: seq<Step>)
    requires Enabled(c, s)
    ensures Run(c, [s] + rest) == Run(After(c, s), rest)
  {
    assert ([s] + rest)[1..] == rest;
  }

  lemma Take3(c: Lot, a: Step, b: Step, d: Step, rest: seq<Step>)
    requires Enabled(c, a) && Enabled(After(c, a), b) && Enabled(After(After(c, a), b), d)
    ensures Run(c, [a, b, d] + rest) == Run(After(After(After(c, a), b), d), rest)
  {
    hide After, Enabled, Run;
    Take1(c, a, [b, d] + rest);
    Take1(After(c, a), b, [d] + rest);
    Take1(After(After(c, a), b), d, rest);
    assert [a, b, d] + rest == [a] + ([b, d] + rest) && [b, d] + rest == [b] + ([d] + rest);
  }

  /** Up to the send: the enqueuer holds the lock and has seen the channel open. */
  predicate Poised(c: Lot, k: nat) {
    && c.workers == [Acts(Put([0]))] && c.reading.Away? && c.holder == Some(Work(0))
    && !c.closed && !c.shut && !c.panicked && |c.blocks| == k && c.buf == []
  }

  lemma Poise(c: Lot, k: nat)
    requires Filled(c, k)
    ensures var p, g := Begin(0, Put([0])), Go(Work(0));
      && Enabled(c, p) && Enabled(After(c, p), g) && Enabled(After(After(c, p), g), g)
      && Poised(After(After(After(c, p), g), g), k)
  {
    var p, g := Begin(0, Put([0])), Go(Work(0));
    assert After(c, p).workers == [Wants(Put([0]))];
    assert After(After(c, p), g).workers == [Holds(Put([0]))];
  }

  lemma PutOne(c: Lot, k: nat, rest: seq<Step>)
    requires Filled(c, k) && k < CHANNEL
    ensures exists d :: Filled(d, k + 1) && Run(c, OnePut + rest) == Run(d, rest)
  {
    var p, g := Begin(0, Put([0])), Go(Work(0));
    Poise(c, k);
    var d := After(After(After(c, p), g), g);
    var e := After(d, g);
    assert e.workers == [Frees];
    assert Filled(After(e, g), k + 1);
    hide After, Enabled, Run;
    Take3(c, p, g, g, [g, g] + rest);
    Take1(d, g, [g] + rest);
    Take1(e, g, rest);
    assert OnePut + rest == [p, g, g] + ([g, g] + rest) && [g, g] + rest == [g] + ([g] + rest);
  }

  lemma {:induction false} PutMany(c: Lot, k: nat, m: nat, rest: seq<Step>)
    requires Filled(c, k) && k + m <= CHANNEL
    ensures exists d :: Filled(d, k + m) && Run(c, Puts(m) + rest) == Run(d, rest)
    decreases m
  {
    hide Run, Filled;
    if m == 0 {
      assert Puts(m) + rest == rest;
      assert Filled(c, k + m) && Run(c, Puts(m) + rest) == Run(c, rest);
    } else {
      PutOne(c, k, Puts(m - 1) + rest);
      var d :| Filled(d, k + 1) && Run(c, OnePut + (Puts(m - 1) + rest)) == Run(d, Puts(m - 1) + rest);
      PutMany(d, k + 1, m - 1, rest);
      assert Puts(m) + rest == OnePut + (Puts(m - 1) + rest);
    }
  }

  /** 128 blocks unread, one more Enqueue past its closed test, and a read that starts then. */
  function Jam(n: nat): seq<Step> {
    Puts(CHANNEL) + [Begin(0, Put([0])), Go(Work(0)), Go(Work(0)), BeginRead(n, true)]
  }

  lemma JamHappens(n: nat)
    ensures Jammed(Run(Fresh(1), Jam(n)))
  {
    var p, g := Begin(0, Put([0])), Go(Work(0));
    assert Fresh(1).workers == [Rest];
    assert Filled(Fresh(1), 0);
    PutMany(Fresh(1), 0, CHANNEL, [p, g, g, BeginRead(n, true)]);
    var d :| Filled(d, CHANNEL) && Run(Fresh(1), Jam(n)) == Run(d, [p, g, g, BeginRead(n, true)]);
    Poise(d, CHANNEL);
    Take3(d, p, g, g, [BeginRead(n, true)]);
    assert [p, g, g, BeginRead(n, true)] == [p, g, g] + [BeginRead(n, true)];
    hide Run;
    var e := After(After(After(d, p), g), g);
    LastRead(e, n);
  }

  lemma LastRead(e: Lot, n: nat)
    requires Poised(e, CHANNEL)
    ensures Jammed(Run(e, [BeginRead(n, true)]))
  {
    Take1(e, BeginRead(n, true), []);
    assert [BeginRead(n, true)] + [] == [BeginRead(n, true)];
    assert After(e, BeginRead(n, true)).workers[0].Acts?;
  }
}
