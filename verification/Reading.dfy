/** Reading a stream to its end with any decoder, and when the cutting into chunks shows. */
module Reading {
  import opened Json
  import opened Text
  import opened Sse

  /** What a decoder makes of a block, and whether the block ends the round. */
  type Step<!D> = (D, Bytes) -> (D, bool)

  function DecodeAll<D>(step: Step<D>, d: D, blocks: seq<Bytes>): D
    decreases blocks
  {
    if blocks == [] then d else DecodeAll(step, step(d, blocks[0]).0, blocks[1..])
  }

  lemma {:induction false} DecodeAllAppends<D>(step: Step<D>, d: D, a: seq<Bytes>, b: seq<Bytes>)
    ensures DecodeAll(step, d, a + b) == DecodeAll(step, DecodeAll(step, d, a), b)
    decreases a
  {
    if a == [] {
      assert a + b == b;
    } else {
      assert (a + b)[1..] == a[1..] + b;
      DecodeAllAppends(step, step(d, a[0]).0, a[1..], b);
    }
  }

  /** Some block ends the round. */
  predicate Ended<D>(step: Step<D>, d: D, blocks: seq<Bytes>)
    decreases blocks
  {
    blocks != [] && (step(d, blocks[0]).1 || Ended(step, step(d, blocks[0]).0, blocks[1..]))
  }

  lemma {:induction false} EndedAppends<D>(step: Step<D>, d: D, a: seq<Bytes>, b: seq<Bytes>)
    ensures Ended(step, d, a + b) <==> Ended(step, d, a) || Ended(step, DecodeAll(step, d, a), b)
    decreases a
  {
    if a == [] {
      assert a + b == b;
    } else {
      assert (a + b)[1..] == a[1..] + b;
      EndedAppends(step, step(d, a[0]).0, a[1..], b);
    }
  }

  /** An unterminated last block is an event too. */
  function Tail(rest: Bytes): seq<Bytes> {
    if rest == "" then [] else [rest]
  }

  datatype Upstream = Chunk(bytes: Bytes) | Broken(detail: string)

  /** The connection does not break. */
  predicate Unbroken(upstream: seq<Upstream>) {
    forall i | 0 <= i < |upstream| :: upstream[i].Chunk?
  }

  /** The bytes to come, up to a break. */
  function BytesOf(upstream: seq<Upstream>): Bytes {
    if upstream == [] || upstream[0].Broken? then "" else upstream[0].bytes + BytesOf(upstream[1..])
  }

  /** What a decoder comes to when a stream is read to its end, its start being in the buffer:
      reading stops after the chunk in which the round ends, or at a break. */
  function ReadOut<D>(step: Step<D>, d: D, buffer: Bytes, upstream: seq<Upstream>): D
    decreases upstream
  {
    if upstream == [] then DecodeAll(step, d, Tail(buffer))
    else if upstream[0].Broken? then d
    else
      var (blocks, rest) := Split(buffer + upstream[0].bytes);
      var next := DecodeAll(step, d, blocks);
      if Ended(step, d, blocks) then next else ReadOut(step, next, rest, upstream[1..])
  }

  /** `end` is what the first `k` blocks come to if they end the round, and what all of them
      and the tail come to if none does. */
  ghost predicate Reads<D>(step: Step<D>, d: D, blocks: seq<Bytes>, tail: seq<Bytes>, k: nat, end: D) {
    && k <= |blocks|
    && if Ended(step, d, blocks[..k]) then end == DecodeAll(step, d, blocks[..k])
       else !Ended(step, d, blocks) && end == DecodeAll(step, d, blocks + tail)
  }

  lemma ReadsFirst<D>(step: Step<D>, d: D, blocks: seq<Bytes>, more: seq<Bytes>, tail: seq<Bytes>)
    requires Ended(step, d, blocks)
    ensures Reads(step, d, blocks + more, tail, |blocks|, DecodeAll(step, d, blocks))
  {
    assert (blocks + more)[..|blocks|] == blocks;
  }

  lemma ReadsOn<D>(step: Step<D>, d: D, blocks: seq<Bytes>, more: seq<Bytes>, tail: seq<Bytes>, k: nat, end: D)
    requires !Ended(step, d, blocks) && Reads(step, DecodeAll(step, d, blocks), more, tail, k, end)
    ensures Reads(step, d, blocks + more, tail, |blocks| + k, end)
  {
    assert (blocks + more)[..|blocks| + k] == blocks + more[..k];
    EndedAppends(step, d, blocks, more[..k]);
    if Ended(step, DecodeAll(step, d, blocks), more[..k]) {
      DecodeAllAppends(step, d, blocks, more[..k]);
    } else {
      EndedAppends(step, d, blocks, more);
      DecodeAllAppends(step, d, blocks, more + tail);
      assert blocks + more + tail == blocks + (more + tail);
    }
  }

  lemma SplitOfChunk(buffer: Bytes, upstream: seq<Upstream>)
    requires upstream != [] && upstream[0].Chunk?
    ensures var (blocks, rest) := Split(buffer + upstream[0].bytes);
      var (more, last) := Split(rest + BytesOf(upstream[1..]));
      Split(buffer + BytesOf(upstream)) == (blocks + more, last) && Boundary(rest) == None
  {
    SplitMeaning(buffer + upstream[0].bytes);
    SplitAppends(buffer + upstream[0].bytes, BytesOf(upstream[1..]));
    Associates(buffer, upstream[0].bytes, BytesOf(upstream[1..]));
  }

  /** The blocks of an unbroken stream that are read: all of them, or those of the chunks up to
      the one in which the round ends. */
  lemma {:induction false} ReadOutReads<D>(step: Step<D>, d: D, buffer: Bytes, upstream: seq<Upstream>,
                                        blocks: seq<Bytes>, rest: Bytes)
    returns (k: nat)
    requires Unbroken(upstream) && Boundary(buffer) == None
    requires (blocks, rest) == Split(buffer + BytesOf(upstream))
    ensures Reads(step, d, blocks, Tail(rest), k, ReadOut(step, d, buffer, upstream))
    decreases upstream
  {
    if upstream == [] {
      assert buffer + "" == buffer && [] + Tail(buffer) == Tail(buffer);
      k := 0;
    } else {
      SplitOfChunk(buffer, upstream);
      var (first, kept) := Split(buffer + upstream[0].bytes);
      var (more, last) := Split(kept + BytesOf(upstream[1..]));
      if Ended(step, d, first) {
        ReadsFirst(step, d, first, more, Tail(last));
        k := |first|;
      } else {
        var j := ReadOutReads(step, DecodeAll(step, d, first), kept, upstream[1..], more, last);
        ReadsOn(step, d, first, more, Tail(last), j, ReadOut(step, d, buffer, upstream));
        k := |first| + j;
      }
    }
  }

  /** Blocks that follow the end of the round, and may or may not be read, change nothing. */
  ghost predicate Settled<D>(step: Step<D>, d: D, blocks: seq<Bytes>) {
    forall k | 0 <= k <= |blocks| && Ended(step, d, blocks[..k]) ::
      DecodeAll(step, d, blocks[..k]) == DecodeAll(step, d, blocks)
  }

  lemma SettledReads<D>(step: Step<D>, d: D, blocks: seq<Bytes>, tail: seq<Bytes>, k: nat, end: D)
    requires Settled(step, d, blocks) && Reads(step, d, blocks, tail, k, end)
    ensures end == DecodeAll(step, d, if Ended(step, d, blocks) then blocks else blocks + tail)
  {
    assert blocks[..k] + blocks[k..] == blocks;
    EndedAppends(step, d, blocks[..k], blocks[k..]);
  }

  lemma SettledReadOut<D>(step: Step<D>, d: D, upstream: seq<Upstream>, blocks: seq<Bytes>, rest: Bytes)
    requires Unbroken(upstream) && (blocks, rest) == Split(BytesOf(upstream)) && Settled(step, d, blocks)
    ensures ReadOut(step, d, "", upstream)
         == DecodeAll(step, d, if Ended(step, d, blocks) then blocks else blocks + Tail(rest))
  {
    assert "" + BytesOf(upstream) == BytesOf(upstream);
    var k := ReadOutReads(step, d, "", upstream, blocks, rest);
    SettledReads(step, d, blocks, Tail(rest), k, ReadOut(step, d, "", upstream));
  }

  lemma SettledReadsAlike<D>(step: Step<D>, d: D, a: seq<Upstream>, b: seq<Upstream>)
    requires Unbroken(a) && Unbroken(b) && BytesOf(a) == BytesOf(b) && Settled(step, d, Split(BytesOf(a)).0)
    ensures ReadOut(step, d, "", a) == ReadOut(step, d, "", b)
  {
    var (blocks, rest) := Split(BytesOf(a));
    SettledReadOut(step, d, a, blocks, rest);
    SettledReadOut(step, d, b, blocks, rest);
  }

  /** The bytes cut once, after block `k`. */
  function CutAfter(bytes: Bytes, k: nat): seq<Upstream>
    requires k <= |Split(bytes).0|
  {
    var n := |Flatten(Split(bytes).0[..k])|;
    if n <= |bytes| then [Chunk(bytes[..n]), Chunk(bytes[n..])] else []
  }

  lemma HeadOf(bytes: Bytes, k: nat)
    requires k <= |Split(bytes).0|
    ensures var head := Flatten(Split(bytes).0[..k]);
      head <= bytes && Split(head) == (Split(bytes).0[..k], "")
  {
    var (blocks, rest) := Split(bytes);
    var head := Flatten(blocks[..k]);
    SplitMeaning(bytes);
    FlattenAppends(blocks[..k], blocks[k..]);
    assert blocks[..k] + blocks[k..] == blocks;
    Associates(head, Flatten(blocks[k..]), rest);
    SplitIsUnique(blocks[..k], "");
    assert head + "" == head;
  }

  lemma CutStopsAt<D>(step: Step<D>, d: D, bytes: Bytes, k: nat)
    requires k <= |Split(bytes).0| && Ended(step, d, Split(bytes).0[..k])
    ensures Unbroken(CutAfter(bytes, k)) && BytesOf(CutAfter(bytes, k)) == bytes
    ensures ReadOut(step, d, "", CutAfter(bytes, k)) == DecodeAll(step, d, Split(bytes).0[..k])
  {
    HeadOf(bytes, k);
    var head := Flatten(Split(bytes).0[..k]);
    var b := bytes[|head|..];
    assert bytes[..|head|] == head && head + b == bytes;
    TwoChunks(head, b);
    FirstChunkEnds(step, d, head, b);
  }

  lemma FirstChunkEnds<D>(step: Step<D>, d: D, a: Bytes, b: Bytes)
    requires Ended(step, d, Split(a).0)
    ensures ReadOut(step, d, "", [Chunk(a), Chunk(b)]) == DecodeAll(step, d, Split(a).0)
  {
    assert "" + a == a;
  }

  lemma TwoChunks(a: Bytes, b: Bytes)
    ensures BytesOf([Chunk(a), Chunk(b)]) == a + b
  {
    var us := [Chunk(a), Chunk(b)];
    assert us[1..] == [us[1]] && us[1..][1..] == [];
    assert BytesOf(us[1..]) == b + "" == b;
  }

  /** Chunking is irrelevant to what is decoded exactly when the blocks after the end of the
      round, if there are any, change nothing. */
  lemma CutsAgreeIffSettled<D>(step: Step<D>, d: D, bytes: Bytes)
    ensures (forall a, b | Unbroken(a) && Unbroken(b) && BytesOf(a) == bytes && BytesOf(b) == bytes ::
               ReadOut(step, d, "", a) == ReadOut(step, d, "", b))
       <==> Settled(step, d, Split(bytes).0)
  {
    var blocks := Split(bytes).0;
    if Settled(step, d, blocks) {
      forall a, b | Unbroken(a) && Unbroken(b) && BytesOf(a) == bytes && BytesOf(b) == bytes
        ensures ReadOut(step, d, "", a) == ReadOut(step, d, "", b)
      {
        SettledReadsAlike(step, d, a, b);
      }
    } else {
      var k :| 0 <= k <= |blocks| && Ended(step, d, blocks[..k])
               && DecodeAll(step, d, blocks[..k]) != DecodeAll(step, d, blocks);
      var whole := |blocks|;
      assert blocks[..k] + blocks[k..] == blocks && blocks[..whole] == blocks;
      EndedAppends(step, d, blocks[..k], blocks[k..]);
      CutStopsAt(step, d, bytes, k);
      CutStopsAt(step, d, bytes, whole);
      assert ReadOut(step, d, "", CutAfter(bytes, k)) != ReadOut(step, d, "", CutAfter(bytes, whole));
    }
  }

  /** A block that ends the round, and one more: read if it is in the same chunk. */
  lemma EndThenMore<D>(step: Step<D>, d: D, a: Bytes, b: Bytes)
    requires IsBlock(a) && IsBlock(b) && step(d, a).1
    ensures ReadOut(step, d, "", [Chunk(a), Chunk(b)]) == step(d, a).0
    ensures ReadOut(step, d, "", [Chunk(a + b)]) == step(step(d, a).0, b).0
  {
    SplitBlocks(a, b);
    assert [a][1..] == [] && [a, b][1..] == [b] && [b][1..] == [];
    FirstChunkEnds(step, d, a, b);
    OnlyChunkEnds(step, d, a + b);
    assert DecodeAll(step, d, [a, b]) == DecodeAll(step, step(d, a).0, [b]);
  }

  lemma SplitBlocks(a: Bytes, b: Bytes)
    requires IsBlock(a) && IsBlock(b)
    ensures Split(a) == ([a], "") && Split(a + b) == ([a, b], "")
  {
    assert [a][1..] == [] && [a, b][1..] == [b] && [b][1..] == [];
    assert Flatten([a]) + "" == a && Flatten([a, b]) + "" == a + b;
    SplitIsUnique([a], "");
    SplitIsUnique([a, b], "");
  }

  lemma OnlyChunkEnds<D>(step: Step<D>, d: D, a: Bytes)
    requires Ended(step, d, Split(a).0)
    ensures ReadOut(step, d, "", [Chunk(a)]) == DecodeAll(step, d, Split(a).0)
  {
    assert "" + a == a;
  }
}
