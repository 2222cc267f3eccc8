/** Watch to phone: the planned chunks as the phone reads and reassembles them. */
module TranscriptTransfer {
  import opened Unicode
  import opened Greedy
  import opened Messages
  import opened WatchCodec
  import opened WatchProofs
  import opened Protocol
  import opened ResultTransfer

  /** Facts about a planned transcript that the phone relies on. */
  lemma PlanIsReadable(t: seq<Byte>, outboxSize: nat)
    requires Plannable(t, outboxSize)
    ensures var cs := ChunksOf(t, outboxSize);
            && Decode8(t).Some?
            && 1 <= |cs| <= |t| <= UINT32_MAX
            && Flatten(cs) == t
            && forall i | 0 <= i < |cs| :: cs[i] != [] && Decode8(cs[i]).Some?
  {
    hide Chunks, Decode8;
    PrepareAccepts(t, outboxSize);
    var cs := ChunksOf(t, outboxSize);
    var vs := Decode8(t).value;
    var parts := Partition(vs, Capacity(outboxSize));
    PartitionIsPartition(vs, Capacity(outboxSize));
    EncodeFlatten(parts, |parts|);
    assert cs[..|cs|] == cs && parts[..|parts|] == parts;
    forall i | 0 <= i < |cs| ensures cs[i] != [] && Decode8(cs[i]).Some? {
      Decode8Encode(parts[i]);
      assert Utf8All(parts[i])[0] == Utf8(parts[i][0])[0];
    }
  }

  /** The phone reads a chunk message back as sent, its text transcoded. */
  lemma ChunkReadsBack(id: seq<Byte>, t: seq<Byte>, outboxSize: nat, i: nat)
    requires IsWatchId(id) && Plannable(t, outboxSize) && i < |ChunksOf(t, outboxSize)|
    ensures var cs := ChunksOf(t, outboxSize);
            && Decode8(cs[i]).Some?
            && ParseWatchMessage(Some(ToJs(ChunkMsg(id, i, |cs|, |t|, cs[i])))) == Some(Chunk(id, i, |cs|, |t|, ToJsText(cs[i])))
  {
    hide Prepare, Decode8, ChunksOf, Decode16, ToJsText;
    PlanIsReadable(t, outboxSize);
    AsciiIsItself(id);
    var cs := ChunksOf(t, outboxSize);
    ToJsTextWellFormed(cs[i]);
    assert ToJsText(id) == id by { IdText(id); }
    var p := ToJs(ChunkMsg(id, i, |cs|, |t|, cs[i]));
    assert p[RequestId] == JsString(id) && p[ChunkText] == JsString(ToJsText(cs[i]));
  }

  lemma IdText(id: seq<Byte>)
    requires IsWatchId(id)
    ensures Decode8(id).Some? && ToJsText(id) == id && IsRequestId(id)
  {
    AsciiIsItself(id);
  }

  lemma OthersReadBack(id: seq<Byte>, status: nat)
    requires IsWatchId(id)
    ensures ParseWatchMessage(Some(ToJs(BeginMsg(id)))) == Some(Begin(id))
    ensures status <= STATUS_RESULT_TRANSFER_TIMEOUT ==> ParseWatchMessage(Some(ToJs(EndMsg(id, status)))) == Some(End(id, status))
  {
    hide Decode8, ToJsText;
    IdText(id);
    var p, q := ToJs(BeginMsg(id)), ToJs(EndMsg(id, status));
    assert p[RequestId] == JsString(id) && q[RequestId] == JsString(id);
  }

  // ---- Reassembly ----

  /** The assembler after the first `k` chunks of a planned transcript. */
  ghost function Assembled(id: seq<Unit>, t: seq<Byte>, cs: seq<seq<Byte>>, k: nat): Assembler
    requires k <= |cs| && forall i | 0 <= i < |cs| :: Decode8(cs[i]).Some?
  {
    if k == 0 then NewAssembler(id)
    else Assembler(id, Some(|cs|), Some(|t|), k, seq(k, i requires 0 <= i < k => ToJsText(cs[i])))
  }

  lemma {:induction false} FlattenJs(cs: seq<seq<Byte>>, k: nat)
    requires k <= |cs| && forall i | 0 <= i < |cs| :: Decode8(cs[i]).Some?
    ensures var js := seq(k, i requires 0 <= i < k => ToJsText(cs[i]));
            && Decode8(Flatten(cs[..k])).Some?
            && Flatten(js) == ToJsText(Flatten(cs[..k]))
  {
    hide Decode8;
    var js := seq(k, i requires 0 <= i < k => ToJsText(cs[i]));
    if k == 0 {
      Decode8Encode([]);
      assert Utf8All([]) == [] && Utf16All([]) == [];
    } else {
      FlattenJs(cs, k - 1);
      var before := seq(k - 1, i requires 0 <= i < k - 1 => ToJsText(cs[i]));
      assert js == before + [ToJsText(cs[k - 1])];
      assert cs[..k] == cs[..k - 1] + [cs[k - 1]];
      FlattenConcat(before, [ToJsText(cs[k - 1])]);
      FlattenConcat(cs[..k - 1], [cs[k - 1]]);
      FlattenOne(cs[k - 1]);
      FlattenOne(ToJsText(cs[k - 1]));
      Decode8Concat(Flatten(cs[..k - 1]), cs[k - 1]);
      Utf16AllConcat(Decode8(Flatten(cs[..k - 1])).value, Decode8(cs[k - 1]).value);
    }
  }

  lemma FlattenOne<T>(s: seq<T>)
    ensures Flatten([s]) == s
  {
    assert Flatten([s]) == s + Flatten([]);
  }

  lemma ByteTotal(t: seq<Byte>)
    requires Decode8(t).Some?
    ensures Utf8Length(ToJsText(t)) == Some(|t|)
  {
    ToJsTextWellFormed(t);
  }

  /** Chunk `k` is accepted, and completes the transcript exactly when it is the last. */
  lemma AddsNext(id: seq<Byte>, t: seq<Byte>, outboxSize: nat, k: nat)
    requires Plannable(t, outboxSize) && k < |ChunksOf(t, outboxSize)|
    ensures var cs := ChunksOf(t, outboxSize);
            && (forall i | 0 <= i < |cs| :: Decode8(cs[i]).Some?)
            && Decode8(t).Some?
            && Add(Assembled(id, t, cs, k), Chunk(id, k, |cs|, |t|, ToJsText(cs[k])))
               == (Assembled(id, t, cs, k + 1), if k + 1 < |cs| then Incomplete else Complete(ToJsText(t)))
  {
    hide Prepare, Decode8, ChunksOf, ToJsText, Utf8Length;
    PlanIsReadable(t, outboxSize);
    var cs := ChunksOf(t, outboxSize);
    ByteTotal(cs[k]);
    ByteTotal(t);
    FlattenJs(cs, k + 1);
    if k + 1 == |cs| {
      assert cs[..k + 1] == cs;
    }
    var a := Assembled(id, t, cs, k);
    assert a.chunks + [ToJsText(cs[k])] == Assembled(id, t, cs, k + 1).chunks;
  }

  function AddAll(a: Assembler, ms: seq<Message>): (r: (Assembler, seq<Added>))
    ensures |r.1| == |ms|
    decreases |ms|
  {
    if ms == [] then (a, [])
    else
      var (b, x) := Add(a, ms[0]);
      var (c, xs) := AddAll(b, ms[1..]);
      (c, [x] + xs)
  }

  /** What the phone receives for the planned transcript. */
  ghost function ReadMessages(id: seq<Byte>, t: seq<Byte>, outboxSize: nat): (r: seq<Message>)
    requires IsWatchId(id) && Plannable(t, outboxSize)
    ensures |r| == |ChunksOf(t, outboxSize)|
  {
    var cs := ChunksOf(t, outboxSize);
    seq(|cs|, i requires 0 <= i < |cs| =>
      ChunkReadsBack(id, t, outboxSize, i);
      ParseWatchMessage(Some(ToJs(ChunkMsg(id, i, |cs|, |t|, cs[i])))).value)
  }

  /** Complete on the last of `left` chunks, and no earlier. */
  ghost function Verdicts(left: nat, transcript: seq<Unit>): seq<Added> {
    if left == 0 then [] else [if left > 1 then Incomplete else Complete(transcript)] + Verdicts(left - 1, transcript)
  }

  lemma {:induction false} AddAllFrom(id: seq<Byte>, t: seq<Byte>, outboxSize: nat, k: nat)
    requires IsWatchId(id) && Plannable(t, outboxSize) && k <= |ChunksOf(t, outboxSize)|
    ensures var cs := ChunksOf(t, outboxSize);
            && (forall i | 0 <= i < |cs| :: Decode8(cs[i]).Some?)
            && Decode8(t).Some?
            && AddAll(Assembled(id, t, cs, k), ReadMessages(id, t, outboxSize)[k..])
               == (Assembled(id, t, cs, |cs|), Verdicts(|cs| - k, ToJsText(t)))
    decreases |ChunksOf(t, outboxSize)| - k
  {
    hide Prepare, Decode8, ChunksOf, ToJsText, Add, Assembled, ParseWatchMessage;
    PlanIsReadable(t, outboxSize);
    var cs := ChunksOf(t, outboxSize);
    if k < |cs| {
      var ms := ReadMessages(id, t, outboxSize);
      ChunkReadsBack(id, t, outboxSize, k);
      AddsNext(id, t, outboxSize, k);
      AddAllFrom(id, t, outboxSize, k + 1);
      assert ms[k..][0] == ms[k] && ms[k..][1..] == ms[k + 1..];
    }
  }

  /** Transcript round trip.  For every transcript the watch plans, the phone accepts every chunk
      message in turn, completes on the last one and no earlier, and what it has then is the
      transcript, whose counted bytes are the watch's byte total. */
  lemma TranscriptRoundTrip(id: seq<Byte>, t: seq<Byte>, outboxSize: nat)
    requires IsWatchId(id) && Plannable(t, outboxSize)
    ensures var n := |ChunksOf(t, outboxSize)|;
            && Decode8(t).Some?
            && Utf8Length(ToJsText(t)) == Some(|t|)
            && ToCText(ToJsText(t)) == t
            && AddAll(NewAssembler(id), ReadMessages(id, t, outboxSize)).1 == Verdicts(n, ToJsText(t))
  {
    hide Prepare, Decode8, ChunksOf, Add;
    AddAllFrom(id, t, outboxSize, 0);
    var ms := ReadMessages(id, t, outboxSize);
    assert ms[0..] == ms;
    ByteTotal(t);
    ToJsTextWellFormed(t);
  }

  // ---- What completes, and what is parsed ----

  /** The message is chunk `index` of `count`, well formed, with this byte total. */
  predicate Fits(m: Message, id: seq<Unit>, index: nat, count: nat, total: nat) {
    m.Chunk? && m.id == id && m.index == index && m.count == count && m.total == total && Utf8Length(m.text).Some?
  }

  function Texts(ms: seq<Message>): (r: seq<seq<Unit>>)
    ensures |r| == |ms|
  {
    if ms == [] then [] else [if ms[0].Chunk? then ms[0].text else []] + Texts(ms[1..])
  }

  /** All messages from here on are the remaining chunks in order, and the whole adds up to `text`. */
  ghost predicate Finishes(a: Assembler, ms: seq<Message>, text: seq<Unit>)
    requires a.chunkCount.Some? && a.totalBytes.Some?
  {
    && a.nextIndex + |ms| == a.chunkCount.value
    && (forall i | 0 <= i < |ms| :: Fits(ms[i], a.id, a.nextIndex + i, a.chunkCount.value, a.totalBytes.value))
    && text == Flatten(a.chunks + Texts(ms))
    && Utf8Length(text) == Some(a.totalBytes.value)
  }

  lemma LastChunkFinishes(a: Assembler, m: Message, text: seq<Unit>)
    requires a.chunkCount.Some? && a.totalBytes.Some? && a.nextIndex < a.chunkCount.value
    ensures Add(a, m).1 == Complete(text) <==> Finishes(a, [m], text)
  {
    hide Utf8Length, Flatten;
    assert Texts([m]) == [if m.Chunk? then m.text else []] + Texts([]);
    FirstFits(a, [m], text);
    if Fits(m, a.id, a.nextIndex, a.chunkCount.value, a.totalBytes.value) && a.nextIndex + 1 == a.chunkCount.value {
      assert a.chunks + Texts([m]) == a.chunks + [m.text];
      assert Add(a, m).1 == if Utf8Length(Flatten(a.chunks + [m.text])) != Some(m.total) then Threw else Complete(Flatten(a.chunks + [m.text]));
      assert forall i | 0 <= i < 1 :: Fits([m][i], a.id, a.nextIndex + i, a.chunkCount.value, a.totalBytes.value);
    }
  }

  lemma FirstFits(a: Assembler, ms: seq<Message>, text: seq<Unit>)
    requires a.chunkCount.Some? && a.totalBytes.Some? && ms != []
    ensures Finishes(a, ms, text) ==>
              Fits(ms[0], a.id, a.nextIndex, a.chunkCount.value, a.totalBytes.value) && a.nextIndex + |ms| == a.chunkCount.value
  {
    hide Fits, Flatten, Utf8Length;
    if Finishes(a, ms, text) {
      assert Fits(ms[0], a.id, a.nextIndex + 0, a.chunkCount.value, a.totalBytes.value);
    }
  }

  lemma NextChunkContinues(a: Assembler, ms: seq<Message>, text: seq<Unit>)
    requires a.chunkCount.Some? && a.totalBytes.Some? && a.nextIndex < a.chunkCount.value && |ms| >= 2
    ensures var (b, added) := Add(a, ms[0]);
            Finishes(a, ms, text) <==> added == Incomplete && Finishes(b, ms[1..], text)
  {
    hide Utf8Length, Flatten;
    var (b, added) := Add(a, ms[0]);
    var n, t := a.chunkCount.value, a.totalBytes.value;
    assert ms == [ms[0]] + ms[1..];
    if Fits(ms[0], a.id, a.nextIndex, n, t) && a.nextIndex + 1 < n {
      assert b == a.(chunks := a.chunks + [ms[0].text], nextIndex := a.nextIndex + 1) && added == Incomplete;
      assert a.chunks + Texts(ms) == b.chunks + Texts(ms[1..]);
      if Finishes(b, ms[1..], text) {
        forall i | 0 <= i < |ms| ensures Fits(ms[i], a.id, a.nextIndex + i, n, t) {
          if i > 0 {
            assert Fits(ms[1..][i - 1], b.id, b.nextIndex + (i - 1), n, t);
          }
        }
      }
      if Finishes(a, ms, text) {
        forall i | 0 <= i < |ms[1..]| ensures Fits(ms[1..][i], b.id, b.nextIndex + i, n, t) {
          assert Fits(ms[i + 1], a.id, a.nextIndex + (i + 1), n, t);
        }
      }
    } else {
      FirstFits(a, ms, text);
    }
  }

  lemma {:induction false} CompletesFrom(a: Assembler, ms: seq<Message>, text: seq<Unit>)
    requires a.chunkCount.Some? && a.totalBytes.Some? && a.nextIndex < a.chunkCount.value && ms != []
    ensures AddAll(a, ms).1 == Verdicts(|ms|, text) <==> Finishes(a, ms, text)
    decreases |ms|
  {
    hide Add, Finishes;
    var (b, added) := Add(a, ms[0]);
    var rest := AddAll(b, ms[1..]).1;
    assert AddAll(a, ms).1 == [added] + rest;
    if |ms| == 1 {
      assert ms == [ms[0]] && ms[1..] == [];
      LastChunkFinishes(a, ms[0], text);
      assert Verdicts(1, text) == [Complete(text)] + [];
      assert ([added] + rest)[0] == added;
    } else {
      NextChunkContinues(a, ms, text);
      assert Verdicts(|ms|, text) == [Incomplete] + Verdicts(|ms| - 1, text);
      ConsInjective(added, rest, Incomplete, Verdicts(|ms| - 1, text));
      if added == Incomplete {
        AddedKeeps(a, ms[0]);
        CompletesFrom(b, ms[1..], text);
      }
    }
  }

  lemma ConsInjective<T>(x: T, xs: seq<T>, y: T, ys: seq<T>)
    ensures [x] + xs == [y] + ys <==> x == y && xs == ys
  {
    if [x] + xs == [y] + ys {
      assert ([x] + xs)[0] == ([y] + ys)[0];
      assert ([x] + xs)[1..] == xs && ([y] + ys)[1..] == ys;
    }
  }

  lemma AddedKeeps(a: Assembler, m: Message)
    requires Add(a, m).1 == Incomplete
    ensures var b := Add(a, m).0; b.chunkCount.Some? && b.totalBytes.Some? && b.nextIndex < b.chunkCount.value
  {
    hide Utf8Length, Flatten;
  }

  lemma FirstChunkSetsMetadata(id: seq<Unit>, m: Message)
    requires m.Chunk? && m.id == id
    ensures Add(NewAssembler(id), m) == Add(Assembler(id, Some(m.count), Some(m.total), 0, []), m)
  {
    hide Utf8Length, Flatten;
  }

  /** Reassembly is exact.  A run of parsed messages completes with a text, on its last message and
      no earlier, if and only if it is chunk 0, 1, 2, ... of one transcript: same identifier, count and
      total throughout, as many messages as the count says, each well formed, and the text is
      their concatenation and has the announced number of bytes. */
  lemma CompletesIff(id: seq<Unit>, ms: seq<Message>, text: seq<Unit>)
    requires ms != [] && (ms[0].Chunk? ==> ms[0].count > 0)
    ensures AddAll(NewAssembler(id), ms).1 == Verdicts(|ms|, text)
            <==> && ms[0].Chunk?
                 && (forall i | 0 <= i < |ms| :: Fits(ms[i], id, i, |ms|, ms[0].total))
                 && text == Flatten(Texts(ms))
                 && Utf8Length(text) == Some(ms[0].total)
  {
    hide Utf8Length, Flatten, Add;
    var verdicts := AddAll(NewAssembler(id), ms).1;
    if ms[0].Chunk? && ms[0].id == id {
      var a := Assembler(id, Some(ms[0].count), Some(ms[0].total), 0, []);
      FirstChunkSetsMetadata(id, ms[0]);
      assert AddAll(NewAssembler(id), ms) == AddAll(a, ms);
      CompletesFrom(a, ms, text);
      assert a.chunks + Texts(ms) == Texts(ms);
      if forall i | 0 <= i < |ms| :: Fits(ms[i], id, i, |ms|, ms[0].total) {
        assert Fits(ms[0], id, 0, |ms|, ms[0].total);
        assert forall i | 0 <= i < |ms| :: Fits(ms[i], id, 0 + i, ms[0].count, ms[0].total);
      }
      if Finishes(a, ms, text) {
        forall i | 0 <= i < |ms| ensures Fits(ms[i], id, i, |ms|, ms[0].total) {
          assert Fits(ms[i], a.id, a.nextIndex + i, a.chunkCount.value, a.totalBytes.value);
        }
      }
    } else {
      WrongFirst(id, ms[0]);
      assert verdicts[0] == Threw;
      if ms[0].Chunk? {
        assert !Fits(ms[0], id, 0, |ms|, ms[0].total);
      }
    }
  }

  lemma WrongFirst(id: seq<Unit>, m: Message)
    requires !(m.Chunk? && m.id == id)
    ensures Add(NewAssembler(id), m).1 == Threw
  {
    hide Utf8Length, Flatten;
  }

  /** After a run of chunks that were taken without completing, all of them are stored in order. */
  lemma {:induction false} AfterIncomplete(a: Assembler, ms: seq<Message>)
    requires a.chunkCount.Some? && a.totalBytes.Some? && a.nextIndex < a.chunkCount.value
    requires forall i | 0 <= i < |ms| :: AddAll(a, ms).1[i] == Incomplete
    ensures AddAll(a, ms).0 == a.(nextIndex := a.nextIndex + |ms|, chunks := a.chunks + Texts(ms))
    ensures a.nextIndex + |ms| < a.chunkCount.value
    decreases |ms|
  {
    hide Add;
    if ms == [] {
      assert a.chunks + Texts([]) == a.chunks;
    } else {
      var (b, added) := Add(a, ms[0]);
      TakenIsStored(a, ms[0]);
      var rest := AddAll(b, ms[1..]).1;
      assert AddAll(a, ms).1 == [added] + rest;
      assert AddAll(a, ms).1[0] == added;
      assert forall i | 0 <= i < |rest| :: rest[i] == AddAll(a, ms).1[i + 1];
      AddedKeeps(a, ms[0]);
      AfterIncomplete(b, ms[1..]);
      assert a.chunks + Texts(ms) == b.chunks + Texts(ms[1..]);
    }
  }

  lemma TakenIsStored(a: Assembler, m: Message)
    requires a.chunkCount.Some? && a.totalBytes.Some?
    ensures Add(a, m).1 == Incomplete ==> m.Chunk? && Add(a, m).0 == a.(nextIndex := a.nextIndex + 1, chunks := a.chunks + [m.text])
  {
    hide Utf8Length, Flatten;
  }

  /** Rejection is exact, too.  After chunks 0 to k-1 have been taken, a message is refused if and only
      if it is not chunk k of the same transcript, well formed, or it is the last and the whole does
      not have the announced number of bytes. */
  lemma ThrowsIff(id: seq<Unit>, ms: seq<Message>, m: Message)
    requires forall i | 0 <= i < |ms| :: AddAll(NewAssembler(id), ms).1[i] == Incomplete
    requires m.Chunk? ==> m.count > 0
    ensures var first := if ms == [] then m else ms[0];
            first.Chunk? && first.count > 0
            ==> (Add(AddAll(NewAssembler(id), ms).0, m).1 == Threw
                 <==> !(&& Fits(m, id, |ms|, first.count, first.total)
                        && (|ms| + 1 < first.count || Utf8Length(Flatten(Texts(ms + [m]))) == Some(first.total))))
    ensures ms != [] ==> ms[0].Chunk? && ms[0].count > 0
    ensures ms == [] && !m.Chunk? ==> Add(AddAll(NewAssembler(id), ms).0, m).1 == Threw
  {
    hide Utf8Length, Flatten, Add;
    if ms == [] {
      assert Texts([] + [m]) == Texts([m]) by { assert [] + [m] == [m]; }
      if m.Chunk? {
        FirstThrowsIff(id, m);
      } else {
        WrongFirst(id, m);
      }
    } else {
      var verdicts := AddAll(NewAssembler(id), ms).1;
      assert verdicts[0] == Add(NewAssembler(id), ms[0]).1;
      if !(ms[0].Chunk? && ms[0].id == id) {
        WrongFirst(id, ms[0]);
      }
      FirstIsCounted(id, ms[0]);
      var a := Assembler(id, Some(ms[0].count), Some(ms[0].total), 0, []);
      FirstChunkSetsMetadata(id, ms[0]);
      assert AddAll(NewAssembler(id), ms) == AddAll(a, ms);
      AfterIncomplete(a, ms);
      TextsSnoc(ms, m);
      NextThrowsIff(AddAll(a, ms).0, m);
      assert [] + Texts(ms) == Texts(ms);
    }
  }

  lemma FirstIsCounted(id: seq<Unit>, m: Message)
    requires Add(NewAssembler(id), m).1 == Incomplete
    ensures m.Chunk? && m.count > 0
  {
    hide Utf8Length, Flatten;
  }

  lemma {:induction false} TextsSnoc(ms: seq<Message>, m: Message)
    ensures Texts(ms + [m]) == Texts(ms) + [if m.Chunk? then m.text else []]
  {
    if ms == [] {
      assert [] + [m] == [m];
    } else {
      TextsSnoc(ms[1..], m);
      assert (ms + [m])[0] == ms[0] && (ms + [m])[1..] == ms[1..] + [m];
    }
  }

  lemma FirstThrowsIff(id: seq<Unit>, m: Message)
    requires m.Chunk? && m.count > 0
    ensures Add(NewAssembler(id), m).1 == Threw
            <==> !(Fits(m, id, 0, m.count, m.total) && (1 < m.count || Utf8Length(Flatten(Texts([m]))) == Some(m.total)))
  {
    hide Utf8Length, Flatten;
    assert Texts([m]) == [m.text] + Texts([]) == [m.text];
    assert [] + [m.text] == [m.text];
  }

  lemma NextThrowsIff(a: Assembler, m: Message)
    requires a.chunkCount.Some? && a.totalBytes.Some? && a.nextIndex < a.chunkCount.value
    ensures Add(a, m).1 == Threw
            <==> !(&& Fits(m, a.id, a.nextIndex, a.chunkCount.value, a.totalBytes.value)
                   && (|| a.nextIndex + 1 < a.chunkCount.value
                       || Utf8Length(Flatten(a.chunks + [if m.Chunk? then m.text else []])) == Some(a.totalBytes.value)))
  {
    hide Utf8Length, Flatten;
  }

  /** Some watch of this protocol could send the message. */
  predicate CouldBeSent(m: Message) {
    && IsRequestId(m.id)
    && match m
       case Begin(_) => true
       case End(_, status) => status <= STATUS_RESULT_TRANSFER_TIMEOUT
       case Chunk(_, index, count, total, text) =>
         index < count <= UINT32_MAX && 0 < total <= UINT32_MAX && text != [] && Decode16(text).Some?
  }

  function AsSent(m: Message): WatchMsg
    requires CouldBeSent(m)
  {
    match m
    case Begin(id) => BeginMsg(id)
    case End(id, status) => EndMsg(id, status)
    case Chunk(id, index, count, total, text) => ChunkMsg(id, index, count, total, ToCText(text))
  }

  /** The payload has all the fields of that message, with the same values. */
  ghost predicate CarriesMessage(p: JsPayload, m: Message)
    requires CouldBeSent(m)
  {
    forall k | k in ToJs(AsSent(m)) :: k in p && p[k] == ToJs(AsSent(m))[k]
  }

  lemma SentFields(m: Message)
    requires CouldBeSent(m)
    ensures var p := ToJs(AsSent(m));
            && p[ProtocolVersion] == JsNumber(PROTOCOL_VERSION) && p[RequestId] == JsString(m.id)
            && match m
               case Begin(_) => p.Keys == {ProtocolVersion, RequestId, MessageType} && p[MessageType] == JsNumber(SESSION_BEGIN)
               case End(_, status) =>
                 && p.Keys == {ProtocolVersion, RequestId, MessageType, StatusCode}
                 && p[MessageType] == JsNumber(SESSION_END) && p[StatusCode] == JsNumber(status)
               case Chunk(_, index, count, total, text) =>
                 && p.Keys == {ProtocolVersion, RequestId, MessageType, ChunkIndex, ChunkCount, TotalBytes, ChunkText}
                 && p[MessageType] == JsNumber(TRANSCRIPT_CHUNK) && p[ChunkIndex] == JsNumber(index) && p[ChunkCount] == JsNumber(count)
                 && p[TotalBytes] == JsNumber(total) && p[ChunkText] == JsString(text)
  {
    hide Decode16, Decode8, Utf8All, Utf16All;
    AsciiIsItself(m.id);
    if m.Chunk? {
      Decode8Encode(Decode16(m.text).value);
    }
  }

  /** The phone reads a payload as a message exactly when it carries what a watch sends for it. */
  lemma ParsedIffSent(p: JsPayload, m: Message)
    ensures ParseWatchMessage(Some(p)) == Some(m) <==> CouldBeSent(m) && CarriesMessage(p, m)
  {
    hide Decode16, Utf8All, ToJs, AsSent, IsRequestId;
    if ParseWatchMessage(Some(p)) == Some(m) {
      SentFields(m);
      assert forall k | k in ToJs(AsSent(m)) :: Field(p, k) == ToJs(AsSent(m))[k];
    }
    if CouldBeSent(m) && CarriesMessage(p, m) {
      SentFields(m);
      assert forall k | k in ToJs(AsSent(m)) :: Field(p, k) == ToJs(AsSent(m))[k];
      assert Field(p, ProtocolVersion) == JsNumber(PROTOCOL_VERSION);
      assert Field(p, RequestId) == JsString(m.id);
      if m.Chunk? {
        assert Field(p, ChunkIndex) == JsNumber(m.index) && Field(p, ChunkCount) == JsNumber(m.count);
        assert Field(p, TotalBytes) == JsNumber(m.total) && Field(p, ChunkText) == JsString(m.text);
      }
    }
  }
}
