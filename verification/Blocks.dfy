/** The FIFO of byte blocks between the connection and a stream's reader (wire/block_reader.go). */
module Blocks {
  import opened Base
  import opened Readers
  import opened Values
  import opened Codec
  import opened Decoder

  /** The channel of blocks, the block being read (empty for nil) and the closed flag. */
  datatype Queue = Queue(blocks: seq<bytes>, buf: bytes, closed: bool)

  /** What a read does: hand over bytes, fail, or wait for a block. */
  datatype Outcome = Got(bs: bytes) | Fail(error: Error) | Waits

  predicate NonEmpty(blocks: seq<bytes>) {
    forall i :: 0 <= i < |blocks| ==> blocks[i] != []
  }

  /** Everything accepted and not yet handed over. */
  function Held(q: Queue): bytes { q.buf + Flat(q.blocks) }

  function Enqueued(q: Queue, data: bytes): Queue {
    if data == [] || q.closed then q else q.(blocks := q.blocks + [data])
  }

  /** The block a read works on, once it has one. */
  function Loaded(q: Queue): Queue {
    if q.buf == [] && !q.closed && q.blocks != [] then Queue(q.blocks[1..], q.blocks[0], false) else q
  }

  function TakeOutcome(q: Queue, n: nat): Outcome {
    var l := Loaded(q);
    if l.buf != [] then Got(l.buf[..Min(n, |l.buf|)]) else if q.closed then Fail(EOF) else Waits
  }

  function Take(q: Queue, n: nat): Queue {
    var l := Loaded(q);
    l.(buf := l.buf[Min(n, |l.buf|)..])
  }

  /** A read hands over the front of what is held, nothing is lost, and it waits only when nothing is held. */
  lemma TakeConserves(q: Queue, n: nat)
    requires NonEmpty(q.blocks)
    ensures NonEmpty(Take(q, n).blocks) && Take(q, n).closed == q.closed
    ensures TakeOutcome(q, n).Got? ==> TakeOutcome(q, n).bs + Held(Take(q, n)) == Held(q)
    ensures !TakeOutcome(q, n).Got? ==> Take(q, n) == q
    ensures TakeOutcome(q, n).Waits? <==> !q.closed && Held(q) == []
    ensures TakeOutcome(q, n).Got? && n > 0 ==> TakeOutcome(q, n).bs != []
    ensures TakeOutcome(q, n).Fail? <==> q.closed && q.buf == []
  {
    var l := Loaded(q);
    assert Held(l) == Held(q);
    var k := Min(n, |l.buf|);
    assert l.buf[..k] + (l.buf[k..] + Flat(l.blocks)) == l.buf + Flat(l.blocks);
  }

  lemma EnqueueAppends(q: Queue, data: bytes)
    requires NonEmpty(q.blocks)
    ensures NonEmpty(Enqueued(q, data).blocks)
    ensures Held(Enqueued(q, data)) == if q.closed then Held(q) else Held(q) + data
  {
    FlatConcat(q.blocks, [data]);
    FlatOne(data);
  }

  // The queue as an input of the decoder.

  /** Where the blocks end, the first one starting at `pos`. */
  function Ends(pos: nat, blocks: seq<bytes>): set<nat>
    decreases |blocks|
  {
    if blocks == [] then {} else {pos + |blocks[0]|} + Ends(pos + |blocks[0]|, blocks[1..])
  }

  function FromBlocks(blocks: seq<bytes>, tail: Error, known: set<bytes>): Input {
    Input(Flat(blocks), Ends(0, blocks), tail, known)
  }

  /** What is left of the blocks after `n` bytes. */
  function Drop(blocks: seq<bytes>, n: nat): seq<bytes>
    decreases |blocks|
  {
    if blocks == [] then []
    else if n < |blocks[0]| then [blocks[0][n..]] + blocks[1..]
    else Drop(blocks[1..], n - |blocks[0]|)
  }

  lemma {:induction false} EndsBeyond(pos: nat, blocks: seq<bytes>, c: nat)
    requires blocks != [] && c in Ends(pos, blocks)
    ensures c >= pos + |blocks[0]|
    decreases |blocks|
  {
    if c != pos + |blocks[0]| {
      EndsBeyond(pos + |blocks[0]|, blocks[1..], c);
    }
  }

  /** The data from `o` on is `blocks`, and so are the cuts behind `o`. */
  ghost predicate Holding(inp: Input, o: nat, blocks: seq<bytes>) {
    && o <= |inp.data| && inp.data[o..] == Flat(blocks)
    && forall c :: c > o ==> (c in inp.cuts <==> c in Ends(o, blocks))
  }

  lemma HoldingTail(inp: Input, o: nat, blocks: seq<bytes>)
    requires blocks != [] && NonEmpty(blocks) && Holding(inp, o, blocks)
    ensures Holding(inp, o + |blocks[0]|, blocks[1..])
  {
    var b := |blocks[0]|;
    assert inp.data[o + b..] == inp.data[o..][b..] == Flat(blocks[1..]);
  }

  /** Offset `p` lies in the first block that is left there, and that block ends where the cuts say. */
  lemma {:induction false} BlockAt(inp: Input, o: nat, blocks: seq<bytes>, p: nat)
    requires NonEmpty(blocks) && Holding(inp, o, blocks) && o <= p < |inp.data|
    ensures Drop(blocks, p - o) != []
    ensures var e := BlockEnd(inp, p);
      inp.data[p..e] == Drop(blocks, p - o)[0]
    decreases |blocks|
  {
    assert |Flat(blocks)| == |inp.data| - o;
    var b := |blocks[0]|;
    if p - o < b {
      FirstBlockEnd(inp, o, blocks, p);
      assert inp.data[p..o + b] == inp.data[o..][p - o..b];
      assert Flat(blocks)[p - o..b] == blocks[0][p - o..];
    } else {
      HoldingTail(inp, o, blocks);
      BlockAt(inp, o + b, blocks[1..], p);
    }
  }

  lemma FirstBlockEnd(inp: Input, o: nat, blocks: seq<bytes>, p: nat)
    requires blocks != [] && Holding(inp, o, blocks) && o <= p < o + |blocks[0]| <= |inp.data|
    ensures BlockEnd(inp, p) == o + |blocks[0]|
  {
    var e, f := BlockEnd(inp, p), o + |blocks[0]|;
    assert f in Ends(o, blocks);
    if e < f {
      EndsBeyond(o, blocks, e);
    }
  }

  lemma {:induction false} DropNonEmpty(blocks: seq<bytes>, n: nat)
    requires NonEmpty(blocks)
    ensures NonEmpty(Drop(blocks, n))
    decreases |blocks|
  {
    if blocks != [] {
      if n >= |blocks[0]| {
        DropNonEmpty(blocks[1..], n - |blocks[0]|);
      }
    }
  }

  lemma {:induction false} DropMore(blocks: seq<bytes>, n: nat, k: nat)
    requires NonEmpty(blocks) && Drop(blocks, n) != [] && k <= |Drop(blocks, n)[0]|
    ensures var l := Drop(blocks, n);
      Drop(blocks, n + k) == (if k < |l[0]| then [l[0][k..]] else []) + l[1..]
    decreases |blocks|
  {
    var l := Drop(blocks, n);
    if n >= |blocks[0]| {
      DropMore(blocks[1..], n - |blocks[0]|, k);
    } else if k < |l[0]| {
    } else {
      DropNone(blocks[1..]);
    }
  }

  lemma DropNone(blocks: seq<bytes>)
    requires NonEmpty(blocks)
    ensures Drop(blocks, 0) == blocks
  {
    if blocks != [] {
        assert blocks == [blocks[0]] + blocks[1..];
    }
  }

  lemma {:induction false} FlatDrop(blocks: seq<bytes>, n: nat)
    requires n <= |Flat(blocks)|
    ensures Flat(Drop(blocks, n)) == Flat(blocks)[n..]
    decreases |blocks|
  {
    if blocks != [] {
      if n < |blocks[0]| {
        assert ([blocks[0][n..]] + blocks[1..])[1..] == blocks[1..];
      } else {
        FlatDrop(blocks[1..], n - |blocks[0]|);
      }
    }
  }

  lemma {:induction false} DropAppend(a: seq<bytes>, b: seq<bytes>, n: nat)
    requires NonEmpty(a) && NonEmpty(b) && n <= |Flat(a)|
    ensures Drop(a + b, n) == Drop(a, n) + b
    decreases |a|
  {
    if a == [] {
      assert a + b == b;
      DropNone(b);
    } else {
      assert (a + b)[1..] == a[1..] + b;
      if n >= |a[0]| {
        assert |Flat(a)| == |a[0]| + |Flat(a[1..])|;
        hide Flat;
        DropAppend(a[1..], b, n - |a[0]|);
      } else {
        hide Flat;
        assert [a[0][n..]] + (a[1..] + b) == ([a[0][n..]] + a[1..]) + b;
      }
    }
  }

  /** What is buffered and queued is `blocks` without its first `p` bytes. */
  ghost predicate Remains(q: Queue, blocks: seq<bytes>, p: nat) {
    (if q.buf == [] then [] else [q.buf]) + q.blocks == Drop(blocks, p)
  }

  /** The queue after `p` bytes of `blocks` have been read. */
  ghost predicate Stands(q: Queue, blocks: seq<bytes>, p: nat) { !q.closed && Remains(q, blocks, p) }

  /**
   * A read of the queue and a read of the corresponding input agree, byte for byte and
   * step for step: the decoder's laws are about this queue.
   */
  lemma QueueIsInput(q: Queue, blocks: seq<bytes>, p: nat, n: nat, tail: Error, known: set<bytes>)
    requires NonEmpty(blocks) && p <= |Flat(blocks)| && Stands(q, blocks, p)
    ensures var inp := FromBlocks(blocks, tail, known);
      match TakeOutcome(q, n)
      case Got(bs) => Read(inp, p, NoLimit(inp), n) == Ok(bs, p + |bs|) && Stands(Take(q, n), blocks, p + |bs|)
      case Fail(_) => false
      case Waits => p == |inp.data| && Read(inp, p, NoLimit(inp), n) == Err(tail, p)
  {
    var inp := FromBlocks(blocks, tail, known);
    var l := Drop(blocks, p);
    DropNonEmpty(blocks, p);
    FlatDrop(blocks, p);
    if p < |inp.data| {
      assert inp.data[0..] == inp.data;
      BlockAt(inp, 0, blocks, p);
      LoadedHead(q, l);
      var k, e := Min(n, |l[0]|), BlockEnd(inp, p);
      SlicePrefix(inp.data, p, e - p, k);
      DropMore(blocks, p, k);
      assert l[0][k..] == [] <==> k == |l[0]|;
    } else {
      FlatEmpty(l);
    }
  }

  lemma LoadedHead(q: Queue, l: seq<bytes>)
    requires NonEmpty(l) && l != [] && !q.closed
    requires (if q.buf == [] then [] else [q.buf]) + q.blocks == l
    ensures Loaded(q) == Queue(l[1..], l[0], false) && l[0] != []
  {
    if q.buf == [] {
      assert q.blocks == l;
    } else {
      assert l[1..] == q.blocks;
    }
  }

  lemma FlatEmpty(l: seq<bytes>)
    requires NonEmpty(l) && Flat(l) == []
    ensures l == []
  {
  }

  /** A read of some bytes that does not empty the buffer ends strictly inside a block. */
  lemma TakeInside(q: Queue, blocks: seq<bytes>, p: nat, n: nat)
    requires NonEmpty(blocks) && p <= |Flat(blocks)| && Stands(q, blocks, p) && n > 0
    ensures var o := TakeOutcome(q, n);
      o.Got? ==> Take(q, n).buf == [] || (p + |o.bs| > 0 && p + |o.bs| !in Ends(0, blocks))
  {
    var inp := FromBlocks(blocks, EOF, {});
    var l := Drop(blocks, p);
    DropNonEmpty(blocks, p);
    FlatDrop(blocks, p);
    if p < |inp.data| {
      assert inp.data[0..] == inp.data;
      BlockAt(inp, 0, blocks, p);
      LoadedHead(q, l);
      hide Drop, Flat, Ends;
    } else {
      FlatEmpty(l);
    }
  }

  /** A read leaves what remains, closed or not. */
  lemma TakeRemains(q: Queue, blocks: seq<bytes>, p: nat, n: nat)
    requires NonEmpty(blocks) && p <= |Flat(blocks)| && Remains(q, blocks, p)
    ensures var o := TakeOutcome(q, n);
      var k := if o.Got? then |o.bs| else 0;
      Remains(Take(q, n), blocks, p + k) && p + k <= |Flat(blocks)| && (o.Got? ==> o.bs == Flat(blocks)[p..p + k])
  {
    hide Flat, Drop;
    if !q.closed || q.buf != [] {
      var open := q.(closed := false);
      assert TakeOutcome(q, n) == TakeOutcome(open, n) && Take(q, n).(closed := false) == Take(open, n);
      RemainsNonEmpty(q, blocks, p);
      TakeConserves(q, n);
      hide Take, TakeOutcome;
      QueueIsInput(open, blocks, p, n, EOF, {});
    }
  }

  lemma RemainsNonEmpty(q: Queue, blocks: seq<bytes>, p: nat)
    requires NonEmpty(blocks) && Remains(q, blocks, p)
    ensures NonEmpty(q.blocks)
  {
    hide Drop;
    DropNonEmpty(blocks, p);
    var l, front := Drop(blocks, p), if q.buf == [] then [] else [q.buf];
    assert forall i :: 0 <= i < |q.blocks| ==> q.blocks[i] == l[|front| + i];
  }

  /** One more block accepted. */
  lemma MoreRemains(q: Queue, blocks: seq<bytes>, p: nat, data: bytes)
    requires NonEmpty(blocks) && p <= |Flat(blocks)| && Remains(q, blocks, p) && data != []
    ensures Remains(q.(blocks := q.blocks + [data]), blocks + [data], p)
    ensures NonEmpty(blocks + [data]) && p <= |Flat(blocks + [data])|
  {
    hide Flat, Drop;
    DropAppend(blocks, [data], p);
    FlatConcat(blocks, [data]);
    assert (if q.buf == [] then [] else [q.buf]) + (q.blocks + [data]) == Drop(blocks, p) + [data];
  }

  /** The reader itself, used by one goroutine at a time; a full channel is Locks' concern. */
  class BlockReader {
    var blocks: seq<bytes>
    var buf: bytes
    var closed: bool
    // History: every block accepted, and how many of their bytes have been handed over.
    var taken: seq<bytes>
    var handed: nat

    function View(): Queue
      reads this
    {
      Queue(blocks, buf, closed)
    }

    ghost predicate Valid()
      reads this
    {
      && NonEmpty(blocks) && NonEmpty(taken) && handed <= |Flat(taken)|
      && Remains(View(), taken, handed)
    }

    constructor ()
      ensures Valid() && View() == Queue([], [], false) && taken == [] && handed == 0
    {
      blocks, buf, closed, taken, handed := [], [], false, [], 0;
    }

    method InternalClose()
      requires Valid()
      modifies this
      ensures Valid() && View() == old(View()).(closed := true)
      ensures taken == old(taken) && handed == old(handed)
    {
      if closed {
        return;
      }
      closed := true;
    }

    method Enqueue(data: bytes)
      requires Valid()
      modifies this
      ensures Valid() && View() == Enqueued(old(View()), data) && handed == old(handed)
      ensures taken == if data == [] || closed then old(taken) else old(taken) + [data]
    {
      if |data| == 0 || closed {
        return;
      }
      MoreRemains(View(), taken, handed, data);
      blocks := blocks + [data];
      taken := taken + [data];
    }

    /** wire/block_reader.go:56-88; `ok` is false when no block is ready. */
    method TryRead(into: array<byte>) returns (ok: bool, n: nat, err: Option<Error>)
      requires Valid()
      modifies this, into
      ensures Valid() && View() == Take(old(View()), into.Length)
      ensures taken == old(taken) && handed == old(handed) + n
      ensures n <= into.Length && into[n..] == old(into[n..])
      ensures match TakeOutcome(old(View()), into.Length)
        case Got(bs) => ok && err == None && into[..n] == bs
        case Fail(e) => ok && err == Some(e) && n == 0
        case Waits => !ok && err == None && n == 0
    {
      hide Flat, Drop;
      TakeRemains(View(), taken, handed, into.Length);
      if buf == [] {
        if closed {
          return true, 0, Some(EOF);
        }
        if |blocks| == 0 {
          return false, 0, None;
        }
        buf, blocks := blocks[0], blocks[1..];
      }
      n := Min(into.Length, |buf|);
      forall i | 0 <= i < n {
        into[i] := buf[i];
      }
      assert into[..n] == buf[..n];
      buf, handed := buf[n..], handed + n;
      return true, n, None;
    }
  }

  /**
   * However an encoding and what follows it are split into blocks, as long as no block ends
   * strictly inside a string or bytes body, decoding from the blocks gives the value and leaves
   * the bytes that decoding from one contiguous buffer does.
   */
  lemma SplitIndependence(v: Value, suffix: bytes, blocks: seq<bytes>, tail: Error, known: set<bytes>)
    requires Sendable(v, known)
    requires NonEmpty(blocks) && Flat(blocks) == Enc(v) + suffix
    requires WholeBodies(Ends(0, blocks), 0, Pieces(v))
    ensures var split, joined := FromBlocks(blocks, tail, known), Input(Enc(v) + suffix, {}, tail, known);
      && DecodeAny(split, 0, NoLimit(split)) == DecodeAny(joined, 0, NoLimit(joined)) == Ok(Norm(v), |Enc(v)|)
      && Flat(Drop(blocks, |Enc(v)|)) == suffix
  {
    hide Sendable, Pieces, Join, DecodeAny, Norm, WholeBodies, Ends, Drop, Flat;
    var split := FromBlocks(blocks, tail, known);
    assert split.data[0..|Enc(v)|] == Enc(v);
    RoundTrip(v, split, 0, NoLimit(split));
    ContiguousRoundTrip(v, suffix, tail, known);
    FlatDrop(blocks, |Enc(v)|);
  }
}
