/** The watch's transcript chunker: what one forward scan computes, what the preparation pass
    accepts, and why the later send pass cuts at exactly the same places. */
module WatchCodec {
  import opened Unicode
  import opened Greedy

  /** The scan of one chunk, `len` bytes of which have been taken already.  It looks one code
      point past the chunk, and answers 0 if any code point it meets is malformed. */
  function NextLenFrom(t: seq<Byte>, len: nat, cap: nat): (n: nat)
    requires len <= |t|
    ensures n <= |t|
    decreases |t| - len
  {
    if len == |t| then len
    else
      var size := CodepointSize(t[len..]);
      if size == 0 then 0
      else if len + size > cap then len
      else NextLenFrom(t, len + size, cap)
  }

  function NextLen(t: seq<Byte>, cap: nat): (n: nat)
    ensures n <= |t|
  {
    NextLenFrom(t, 0, cap)
  }

  /** All the chunks of `t`, or `None` if some scan answers 0. */
  function Chunks(t: seq<Byte>, cap: nat): (r: Option<seq<seq<Byte>>>)
    ensures r.Some? ==> |r.value| <= |t|
  {
    if t == [] then Some([])
    else
      var n := NextLen(t, cap);
      if n == 0 then None
      else
        match Chunks(t[n..], cap)
        case None => None
        case Some(rest) => Some([t[..n]] + rest)
  }

  // ---- The scan is the greedy cut ----

  lemma {:induction false} ScanIsFit(t: seq<Byte>, len: nat, cap: nat, vs: seq<Scalar>)
    requires len <= |t| && len <= cap && t[len..] == Utf8All(vs)
    ensures NextLenFrom(t, len, cap) == len + Bytes(vs[..Fit(vs, cap - len)])
    decreases |vs|
  {
    hide Utf8, CodepointSize, HeadScalar;
    if vs != [] {
      ClassifierIsRfc3629(vs[0], t[len..]);
      var size := Size(vs[0]);
      if len + size <= cap {
        assert t[len + size..] == t[len..][size..] == Utf8All(vs[1..]);
        ScanIsFit(t, len + size, cap, vs[1..]);
        var k := Fit(vs[1..], cap - len - size);
        assert vs[..k + 1][1..] == vs[1..][..k];
      }
    }
  }

  lemma DecodeCons(v: Scalar, rest: seq<Byte>)
    requires Decode8(rest).Some?
    ensures Decode8(Utf8(v) + rest) == Some([v] + Decode8(rest).value)
  {
    Decode8Encode([v] + Decode8(rest).value);
  }

  lemma DecodeHead(t: seq<Byte>, rest: seq<Byte>)
    requires CodepointSize(t) > 0 && Decode8(rest).Some?
    ensures Decode8(t[..CodepointSize(t)] + rest) == Some([HeadScalar(t)] + Decode8(rest).value)
    ensures Size(HeadScalar(t)) == CodepointSize(t)
  {
    hide Utf8, CodepointSize, HeadScalar;
    DecodeCons(HeadScalar(t), rest);
  }

  ghost predicate FitsDecoded(t: seq<Byte>, cap: nat) {
    Decode8(t).Some? && AllFit(Decode8(t).value, cap)
  }

  lemma FitsCons(t: seq<Byte>, len: nat, n: nat, cap: nat)
    requires len <= |t| && CodepointSize(t[len..]) > 0
    requires len + CodepointSize(t[len..]) <= n <= |t| && CodepointSize(t[len..]) <= cap
    requires FitsDecoded(t[len + CodepointSize(t[len..])..n], cap)
    ensures FitsDecoded(t[len..n], cap)
  {
    hide CodepointSize, HeadScalar, Utf8;
    var size := CodepointSize(t[len..]);
    DecodeHead(t[len..], t[len + size..n]);
    assert t[len..n] == t[len..][..size] + t[len + size..n];
  }

  lemma {:induction false} ScanIsWellFormed(t: seq<Byte>, len: nat, cap: nat)
    requires len <= |t| && NextLenFrom(t, len, cap) > 0
    ensures NextLenFrom(t, len, cap) >= len && FitsDecoded(t[len..NextLenFrom(t, len, cap)], cap)
    decreases |t| - len
  {
    hide CodepointSize, HeadScalar, Utf8;
    var n := NextLenFrom(t, len, cap);
    var size := CodepointSize(t[len..]);
    if len == |t| || len + size > cap {
      assert t[len..n] == [];
    } else {
      ScanIsWellFormed(t, len + size, cap);
      FitsCons(t, len, n, cap);
    }
  }

  /** On well-formed text whose code points all fit, the chunks are the greedy partition. */
  lemma {:induction false} ChunksAreGreedy(vs: seq<Scalar>, cap: nat)
    requires AllFit(vs, cap)
    ensures Chunks(Utf8All(vs), cap) == Some(EachUtf8(Partition(vs, cap)))
    decreases |vs|
  {
    hide Utf8, CodepointSize, HeadScalar;
    if vs != [] {
      var t := Utf8All(vs);
      var k := Fit(vs, cap);
      ScanIsFit(t, 0, cap, vs);
      assert vs == vs[..k] + vs[k..];
      Utf8AllConcat(vs[..k], vs[k..]);
      var n := NextLen(t, cap);
      assert vs[..k][0] == vs[0];
      assert n == Bytes(vs[..k]) >= Size(vs[0]);
      assert t[..n] == Utf8All(vs[..k]) && t[n..] == Utf8All(vs[k..]);
      ChunksAreGreedy(vs[k..], cap);
    }
  }

  /** Conversely, text that is malformed or has a code point larger than a chunk is refused. */
  lemma {:induction false} ChunkedIsWellFormed(t: seq<Byte>, cap: nat)
    requires Chunks(t, cap).Some?
    ensures Decode8(t).Some? && AllFit(Decode8(t).value, cap)
    decreases |t|
  {
    hide Utf8, CodepointSize, HeadScalar, NextLenFrom;
    if t != [] {
      var n := NextLen(t, cap);
      ScanIsWellFormed(t, 0, cap);
      ChunkedIsWellFormed(t[n..], cap);
      assert t == t[..n] + t[n..];
      assert t[0..n] == t[..n];
      Decode8Concat(t[..n], t[n..]);
    }
  }

  // ---- The preparation pass ----

  /** Serialized size of a dictionary: one header byte, seven bytes a tuple. */
  function DictSize(values: seq<nat>): nat {
    if values == [] then 1 else 7 + values[0] + DictSize(values[1..])
  }

  const REQUEST_ID_LENGTH := 8

  /** Version, type, request identifier, index, count, total, and a text of `n` bytes with its
      terminator. */
  function ChunkMessageSize(n: nat): nat {
    DictSize([4, 4, REQUEST_ID_LENGTH + 1, 4, 4, 4, n + 1])
  }

  const OVERHEAD: nat := ChunkMessageSize(0)
  const MAX_CAPACITY: nat := 0xFFFF - 1

  function Capacity(outboxSize: nat): nat
    requires OVERHEAD < outboxSize
  {
    if outboxSize - OVERHEAD > MAX_CAPACITY then MAX_CAPACITY else outboxSize - OVERHEAD
  }

  datatype Plan = Plan(capacity: nat, chunks: seq<seq<Byte>>)

  function Prepare(t: seq<Byte>, outboxSize: nat): Option<Plan> {
    if t == [] || |t| > UINT32_MAX || OVERHEAD >= outboxSize then None
    else
      match Chunks(t, Capacity(outboxSize))
      case None => None
      case Some(cs) => Some(Plan(Capacity(outboxSize), cs))
  }

  /** Preparation succeeds on exactly these transcripts, and then plans the greedy partition. */
  lemma PrepareAccepts(t: seq<Byte>, outboxSize: nat)
    ensures Prepare(t, outboxSize).Some? <==>
              && OVERHEAD < outboxSize
              && 0 < |t| <= UINT32_MAX
              && Decode8(t).Some?
              && AllFit(Decode8(t).value, Capacity(outboxSize))
    ensures Prepare(t, outboxSize).Some? ==>
              var plan := Prepare(t, outboxSize).value;
              && plan.capacity == Capacity(outboxSize)
              && plan.chunks == EachUtf8(Partition(Decode8(t).value, plan.capacity))
  {
    hide Chunks, Decode8, Partition;
    if OVERHEAD < outboxSize && 0 < |t| <= UINT32_MAX {
      var cap := Capacity(outboxSize);
      if Chunks(t, cap).Some? {
        ChunkedIsWellFormed(t, cap);
      }
      if Decode8(t).Some? && AllFit(Decode8(t).value, cap) {
        ChunksAreGreedy(Decode8(t).value, cap);
      }
    }
  }

  /** A planned chunk always fits the open outbox together with its metadata. */
  lemma ChunkFitsOutbox(t: seq<Byte>, outboxSize: nat, i: nat)
    requires Prepare(t, outboxSize).Some? && i < |Prepare(t, outboxSize).value.chunks|
    ensures ChunkMessageSize(|Prepare(t, outboxSize).value.chunks[i]|) <= outboxSize
  {
    PrepareAccepts(t, outboxSize);
    var vs := Decode8(t).value;
    PartitionIsPartition(vs, Capacity(outboxSize));
    DictSizeOfText(|Prepare(t, outboxSize).value.chunks[i]|);
  }

  /** The capacity is the largest number of text bytes that fit the outbox together with the metadata
      and, with their terminator, a tuple. */
  lemma CapacityIsLargest(outboxSize: nat, n: nat)
    requires OVERHEAD < outboxSize
    ensures n <= Capacity(outboxSize) <==> ChunkMessageSize(n) <= outboxSize && n + 1 <= 0xFFFF
  {
    DictSizeOfText(n);
  }

  lemma DictSizeOfText(n: nat)
    ensures ChunkMessageSize(n) == OVERHEAD + n
  {
    var shared: seq<nat> := [4, 4, REQUEST_ID_LENGTH + 1, 4, 4, 4];
    DictSizeAppend(shared, n + 1);
    DictSizeAppend(shared, 1);
    assert shared + [n + 1] == [4, 4, REQUEST_ID_LENGTH + 1, 4, 4, 4, n + 1];
    assert shared + [1] == [4, 4, REQUEST_ID_LENGTH + 1, 4, 4, 4, 0 + 1];
  }

  lemma {:induction false} DictSizeAppend(values: seq<nat>, last: nat)
    ensures DictSize(values + [last]) == DictSize(values) + 7 + last
  {
    if values != [] {
      assert (values + [last])[1..] == values[1..] + [last];
      DictSizeAppend(values[1..], last);
    }
  }

  // ---- The send pass ----

  /** Where chunk `i` starts. */
  function Offset(cs: seq<seq<Byte>>, i: nat): nat
    requires i <= |cs|
  {
    |Flatten(cs[..i])|
  }

  /** The chunks left after the first `i` are the chunks of what is left of the text. */
  lemma {:induction false} ChunksOfRest(t: seq<Byte>, cap: nat, i: nat)
    requires Chunks(t, cap).Some? && i <= |Chunks(t, cap).value|
    ensures var cs := Chunks(t, cap).value;
            && Offset(cs, i) <= |t|
            && t[..Offset(cs, i)] == Flatten(cs[..i])
            && Chunks(t[Offset(cs, i)..], cap) == Some(cs[i..])
    decreases |t|
  {
    hide NextLen;
    var cs := Chunks(t, cap).value;
    if i == 0 {
      assert t[0..] == t && cs[0..] == cs;
    } else {
      var n := NextLen(t, cap);
      ChunksOfRest(t[n..], cap, i - 1);
      assert cs[..i] == [t[..n]] + cs[1..][..i - 1];
      assert Flatten(cs[..i]) == t[..n] + Flatten(cs[1..][..i - 1]);
      assert t[Offset(cs, i)..] == t[n..][Offset(cs[1..], i - 1)..];
      assert cs[i..] == cs[1..][i - 1..];
    }
  }

  /** Rescanning at the offset reached after `i` acknowledged chunks finds chunk `i` again,
      never empty; after the last one the offset is the end of the transcript. */
  lemma SendPassAgrees(t: seq<Byte>, cap: nat, i: nat)
    requires Chunks(t, cap).Some? && i <= |Chunks(t, cap).value|
    ensures var cs := Chunks(t, cap).value;
            && Offset(cs, i) <= |t|
            && t[..Offset(cs, i)] == Flatten(cs[..i])
            && (i == |cs| <==> Offset(cs, i) == |t|)
            && (i < |cs| ==>
                  && var n := NextLen(t[Offset(cs, i)..], cap);
                  && n == |cs[i]| > 0
                  && t[Offset(cs, i)..Offset(cs, i) + n] == cs[i]
                  && Offset(cs, i + 1) == Offset(cs, i) + n)
  {
    var cs := Chunks(t, cap).value;
    ChunksOfRest(t, cap, i);
    if i < |cs| {
      assert cs[i..][0] == cs[i];
      FlattenConcat(cs[..i], [cs[i]]);
      assert cs[..i + 1] == cs[..i] + [cs[i]];
      assert Flatten([cs[i]]) == cs[i] + Flatten([]);
    }
  }

  // ---- C strings ----

  /** The bytes a C string function reads from `t`. */
  function CString(t: seq<Byte>): (s: seq<Byte>)
    ensures |s| <= |t| && s == t[..|s|] && 0 !in s
    ensures |s| < |t| ==> t[|s|] == 0
  {
    if t == [] || t[0] == 0 then [] else [t[0]] + CString(t[1..])
  }

  lemma {:induction false} CStringStops(a: seq<Byte>, b: seq<Byte>)
    requires 0 !in a
    ensures CString(a + [0] + b) == a
    ensures CString(a) == a
  {
    if a != [] {
      assert (a + [0] + b)[1..] == a[1..] + [0] + b;
      CStringStops(a[1..], b);
    }
  }
}
