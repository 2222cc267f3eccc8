/** The phone's half of the codec: UTF-16 length and splitting, transcript reassembly, and the
    validation of watch messages and server frames. */
module Protocol {
  import opened Unicode
  import opened Greedy
  import opened Messages

  // ---- UTF-8 length of UTF-16 text ----

  /** `None` is a thrown ProtocolError. */
  function Utf8Length(text: seq<Unit>): Option<nat> {
    match Decode16(text)
    case None => None
    case Some(vs) => Some(Bytes(vs))
  }

  method Utf8ByteLength(text: seq<Unit>) returns (r: Option<nat>)
    ensures r == match Decode16(text) case None => None case Some(vs) => Some(|Utf8All(vs)|)
  {
    var bytes := 0;
    var i := 0;
    while i < |text|
      invariant 0 <= i <= |text|
      invariant match Decode16(text[i..])
                case None => Decode16(text).None?
                case Some(vs) => Decode16(text).Some? && Bytes(Decode16(text).value) == bytes + Bytes(vs)
    {
      var code := text[i];
      if code <= 0x7F {
        bytes := bytes + 1;
      } else if code <= 0x7FF {
        bytes := bytes + 2;
      } else if 0xD800 <= code <= 0xDBFF {
        if i + 1 >= |text| {
          return None;
        }
        var low := text[i + 1];
        if low < 0xDC00 || low > 0xDFFF {
          return None;
        }
        assert text[i..][2..] == text[i + 2..];
        bytes := bytes + 4;
        i := i + 1;
      } else if 0xDC00 <= code <= 0xDFFF {
        return None;
      } else {
        bytes := bytes + 3;
      }
      i := i + 1;
    }
    return Some(bytes);
  }

  /** The byte total of the whole is the sum over well-formed pieces, so comparing totals after
      reassembly compares what the sender counted. */
  lemma Utf8LengthIsAdditive(a: seq<Unit>, b: seq<Unit>)
    requires Utf8Length(a).Some? && Utf8Length(b).Some?
    ensures Utf8Length(a + b) == Some(Utf8Length(a).value + Utf8Length(b).value)
  {
    hide Decode16, Utf8All;
    Decode16Concat(a, b);
    Utf8AllConcat(Decode16(a).value, Decode16(b).value);
  }

  // ---- Splitting a response ----

  /** `None` is a thrown ProtocolError. */
  function Split(text: seq<Unit>, maxChunkBytes: int): Option<seq<seq<Unit>>> {
    match Decode16(text)
    case None => None
    case Some(vs) =>
      if Bytes(vs) > MAX_RESPONSE_BYTES || !(0 < maxChunkBytes <= UINT32_MAX) || !AllFit(vs, maxChunkBytes) then None
      else if vs == [] then Some([[]])
      else Some(EachUtf16(Partition(vs, maxChunkBytes)))
  }

  /** What the splitting loop still has to produce when `cur` is the open chunk. */
  ghost function Continue(cur: seq<Scalar>, rest: seq<Scalar>, cap: nat): seq<seq<Scalar>>
    decreases |rest|
  {
    if rest == [] then [cur]
    else if cur != [] && Bytes(cur) + Size(rest[0]) > cap then [cur] + Continue([rest[0]], rest[1..], cap)
    else Continue(cur + [rest[0]], rest[1..], cap)
  }

  lemma FitHead(rest: seq<Scalar>, room: nat)
    requires rest != [] && Size(rest[0]) <= room
    ensures var n := Fit(rest, room); var m := Fit(rest[1..], room - Size(rest[0]));
            n == m + 1 && rest[..n] == [rest[0]] + rest[1..][..m] && rest[n..] == rest[1..][m..]
  {
    hide Size;
    var tail := rest[1..];
    var m := Fit(tail, room - Size(rest[0]));
    assert Fit(rest, room) == m + 1;
    assert rest == [rest[0]] + tail;
    assert rest[..m + 1] == [rest[0]] + tail[..m] && rest[m + 1..] == tail[m..];
  }

  ghost predicate CompletesGreedily(cur: seq<Scalar>, rest: seq<Scalar>, cap: nat)
    requires Bytes(cur) <= cap && AllFit(rest, cap)
  {
    var n := Fit(rest, cap - Bytes(cur));
    Continue(cur, rest, cap) == [cur + rest[..n]] + Partition(rest[n..], cap)
  }

  lemma CloseCompletes(cur: seq<Scalar>, rest: seq<Scalar>, cap: nat)
    requires Bytes(cur) <= cap && AllFit(rest, cap) && cur != [] && rest != []
    requires Bytes(cur) + Size(rest[0]) > cap
    requires Bytes([rest[0]]) == Size(rest[0]) && CompletesGreedily([rest[0]], rest[1..], cap)
    ensures CompletesGreedily(cur, rest, cap)
  {
    hide Utf8, Size;
    FitHead(rest, cap);
    var n := Fit(rest, cap);
    assert Continue([rest[0]], rest[1..], cap) == [rest[..n]] + Partition(rest[n..], cap) == Partition(rest, cap);
    assert Fit(rest, cap - Bytes(cur)) == 0;
    assert cur + rest[..0] == cur && rest[0..] == rest;
    assert Continue(cur, rest, cap) == [cur] + Partition(rest, cap);
  }

  lemma ExtendCompletes(cur: seq<Scalar>, rest: seq<Scalar>, cap: nat)
    requires AllFit(rest, cap) && rest != []
    requires Bytes(cur + [rest[0]]) == Bytes(cur) + Size(rest[0]) <= cap
    requires CompletesGreedily(cur + [rest[0]], rest[1..], cap)
    requires Continue(cur, rest, cap) == Continue(cur + [rest[0]], rest[1..], cap)
    ensures CompletesGreedily(cur, rest, cap)
  {
    hide Utf8, Size;
    FitHead(rest, cap - Bytes(cur));
    var m := Fit(rest[1..], cap - Bytes(cur + [rest[0]]));
    assert cur + [rest[0]] + rest[1..][..m] == cur + ([rest[0]] + rest[1..][..m]);
  }

  /** The open chunk is completed by as much as fits; what follows is split greedily. */
  lemma {:induction false} ContinueIsGreedy(cur: seq<Scalar>, rest: seq<Scalar>, cap: nat)
    requires Bytes(cur) <= cap && AllFit(rest, cap) && (cur != [] || rest != [])
    ensures CompletesGreedily(cur, rest, cap)
    decreases |rest|
  {
    hide Utf8;
    if rest == [] {
      assert cur + rest[..0] == cur;
    } else {
      var tail := rest[1..];
      assert forall i | 0 <= i < |tail| :: tail[i] == rest[i + 1];
      BytesOfOne(rest[0]);
      Utf8AllConcat(cur, [rest[0]]);
      if cur != [] && Bytes(cur) + Size(rest[0]) > cap {
        ContinueIsGreedy([rest[0]], tail, cap);
        CloseCompletes(cur, rest, cap);
      } else {
        ContinueIsGreedy(cur + [rest[0]], tail, cap);
        ExtendCompletes(cur, rest, cap);
      }
    }
  }

  lemma BytesOfOne(v: Scalar)
    ensures Bytes([v]) == Size(v)
  {
    assert Utf8All([v]) == Utf8(v) + Utf8All([]);
  }

  /** One character of well-formed text. */
  lemma HeadCharacter(text: seq<Unit>)
    requires text != [] && Decode16(text).Some?
    ensures var n := if IsHigh(text[0]) then 2 else 1;
            && n <= |text|
            && Decode16(text[..n]) == Some([Decode16(text).value[0]])
            && Decode16(text[n..]) == Some(Decode16(text).value[1..])
            && text[..n] == Utf16(Decode16(text).value[0])
  {
    var n := if IsHigh(text[0]) then 2 else 1;
    var v := Decode16(text).value[0];
    assert text[..n] == Utf16(v);
    Decode16Encode([v]);
    assert Utf16All([v]) == Utf16(v) + Utf16All([]) == Utf16(v);
  }

  lemma CharacterAt(text: seq<Unit>, i: nat, rest: seq<Scalar>)
    requires i < |text| && Decode16(text[i..]) == Some(rest)
    ensures var end := i + if IsHigh(text[i]) then 2 else 1;
            && rest != []
            && end <= |text|
            && text[i..end] == Utf16(rest[0])
            && Utf8Length(text[i..end]) == Some(Size(rest[0]))
            && Decode16(text[end..]) == Some(rest[1..])
  {
    var n := if IsHigh(text[i]) then 2 else 1;
    HeadCharacter(text[i..]);
    assert text[i..][..n] == text[i..i + n];
    assert text[i..][n..] == text[i + n..];
    BytesOfOne(rest[0]);
  }

  /** State of the splitting loop: `before` and `cur` are the scalars of the closed chunks and
      of the open one, `rest` those still to come. */
  ghost predicate Splitting(vs: seq<Scalar>, before: seq<seq<Scalar>>, cur: seq<Scalar>, rest: seq<Scalar>, cap: nat) {
    && Bytes(cur) <= cap
    && (AllFit(vs, cap) <==> AllFit(rest, cap))
    && before + Continue(cur, rest, cap) == Continue([], vs, cap)
  }

  lemma CloseChunk(vs: seq<Scalar>, before: seq<seq<Scalar>>, cur: seq<Scalar>, rest: seq<Scalar>, cap: nat)
    requires Splitting(vs, before, cur, rest, cap)
    requires rest != [] && cur != [] && Bytes(cur) + Size(rest[0]) > cap
    ensures Splitting(vs, before + [cur], [], rest, cap)
  {
    assert Continue([], rest, cap) == Continue([] + [rest[0]], rest[1..], cap);
    assert [] + [rest[0]] == [rest[0]];
    assert (before + [cur]) + Continue([], rest, cap) == before + Continue(cur, rest, cap);
  }

  lemma ExtendChunk(vs: seq<Scalar>, before: seq<seq<Scalar>>, cur: seq<Scalar>, rest: seq<Scalar>, cap: nat)
    requires Splitting(vs, before, cur, rest, cap)
    requires rest != [] && Bytes(cur) + Size(rest[0]) <= cap
    ensures Splitting(vs, before, cur + [rest[0]], rest[1..], cap)
    ensures Utf16All(cur + [rest[0]]) == Utf16All(cur) + Utf16(rest[0])
    ensures Bytes(cur + [rest[0]]) == Bytes(cur) + Size(rest[0])
  {
    hide Utf8, Utf16, Size;
    BytesOfOne(rest[0]);
    Utf8AllConcat(cur, [rest[0]]);
    Utf16AllConcat(cur, [rest[0]]);
    assert Utf16All([rest[0]]) == Utf16(rest[0]) + Utf16All([]) == Utf16(rest[0]);
    assert rest == [rest[0]] + rest[1..];
  }

  lemma SplitDone(vs: seq<Scalar>, before: seq<seq<Scalar>>, cur: seq<Scalar>, cap: nat)
    requires Splitting(vs, before, cur, [], cap)
    ensures AllFit(vs, cap)
    ensures before + [cur] == if vs == [] then [[]] else Partition(vs, cap)
  {
    if vs != [] {
      ContinueIsGreedy([], vs, cap);
      assert [] + vs[..Fit(vs, cap)] == vs[..Fit(vs, cap)];
    }
  }

  lemma SnocUtf16(parts: seq<seq<Scalar>>, last: seq<Scalar>)
    ensures EachUtf16(parts + [last]) == EachUtf16(parts) + [Utf16All(last)]
  {
  }

  /** The loop's variables hold the encoding of that state, up to unit `i` of the text. */
  ghost predicate SplitLoop(text: seq<Unit>, i: int, chunks: seq<seq<Unit>>, chunk: seq<Unit>, chunkBytes: int,
                            before: seq<seq<Scalar>>, cur: seq<Scalar>, rest: seq<Scalar>, cap: nat)
  {
    && 0 <= i <= |text|
    && Decode16(text).Some?
    && Decode16(text[i..]) == Some(rest)
    && chunks == EachUtf16(before)
    && chunk == Utf16All(cur)
    && chunkBytes == Bytes(cur)
    && Splitting(Decode16(text).value, before, cur, rest, cap)
  }

  lemma LoopStarts(text: seq<Unit>, cap: nat)
    requires Decode16(text).Some?
    ensures SplitLoop(text, 0, [], [], 0, [], [], Decode16(text).value, cap)
  {
    assert text[0..] == text;
  }

  lemma LoopCloses(text: seq<Unit>, i: int, chunks: seq<seq<Unit>>, chunk: seq<Unit>, chunkBytes: int,
                   before: seq<seq<Scalar>>, cur: seq<Scalar>, rest: seq<Scalar>, cap: nat)
    requires SplitLoop(text, i, chunks, chunk, chunkBytes, before, cur, rest, cap)
    requires rest != [] && chunkBytes > 0 && chunkBytes + Size(rest[0]) > cap
    ensures SplitLoop(text, i, chunks + [chunk], [], 0, before + [cur], [], rest, cap)
  {
    CloseChunk(Decode16(text).value, before, cur, rest, cap);
    SnocUtf16(before, cur);
  }

  lemma LoopExtends(text: seq<Unit>, i: int, end: int, chunks: seq<seq<Unit>>, chunk: seq<Unit>, chunkBytes: int,
                    before: seq<seq<Scalar>>, cur: seq<Scalar>, rest: seq<Scalar>, cap: nat)
    requires SplitLoop(text, i, chunks, chunk, chunkBytes, before, cur, rest, cap)
    requires i < |text| && end == i + if IsHigh(text[i]) then 2 else 1
    requires rest != [] && end <= |text| && chunkBytes + Size(rest[0]) <= cap
    ensures SplitLoop(text, end, chunks, chunk + text[i..end], chunkBytes + Size(rest[0]),
                      before, cur + [rest[0]], rest[1..], cap)
  {
    CharacterAt(text, i, rest);
    ExtendChunk(Decode16(text).value, before, cur, rest, cap);
  }

  lemma LoopEnds(text: seq<Unit>, chunks: seq<seq<Unit>>, chunk: seq<Unit>, chunkBytes: int,
                 before: seq<seq<Scalar>>, cur: seq<Scalar>, rest: seq<Scalar>, cap: int)
    requires 0 < cap <= UINT32_MAX
    requires SplitLoop(text, |text|, chunks, chunk, chunkBytes, before, cur, rest, cap)
    requires Bytes(Decode16(text).value) <= MAX_RESPONSE_BYTES
    ensures Split(text, cap) == Some(chunks + [chunk])
  {
    SplitDone(Decode16(text).value, before, cur, cap);
    SnocUtf16(before, cur);
  }

  method SplitUtf8(text: seq<Unit>, maxChunkBytes: int) returns (r: Option<seq<seq<Unit>>>)
    ensures r == Split(text, maxChunkBytes)
  {
    var totalBytes := Utf8ByteLength(text);
    if totalBytes.None? || totalBytes.value > MAX_RESPONSE_BYTES {
      return None;
    }
    if !(0 < maxChunkBytes <= UINT32_MAX) {
      return None;
    }
    LoopStarts(text, maxChunkBytes);
    ghost var before: seq<seq<Scalar>>, cur: seq<Scalar>, rest: seq<Scalar> := [], [], Decode16(text).value;
    var chunks: seq<seq<Unit>>, chunk: seq<Unit>, chunkBytes := [], [], 0;
    var i := 0;
    while i < |text|
      invariant SplitLoop(text, i, chunks, chunk, chunkBytes, before, cur, rest, maxChunkBytes)
      decreases |text| - i
    {
      var end := i + 1;
      var code := text[i];
      if 0xD800 <= code <= 0xDBFF {
        end := end + 1;
      }
      CharacterAt(text, i, rest);
      var character := text[i..end];
      var characterBytes := Utf8ByteLength(character);
      if characterBytes.value > maxChunkBytes {
        return None;
      }
      if chunkBytes > 0 && chunkBytes + characterBytes.value > maxChunkBytes {
        LoopCloses(text, i, chunks, chunk, chunkBytes, before, cur, rest, maxChunkBytes);
        before, cur := before + [cur], [];
        chunks := chunks + [chunk];
        chunk := [];
        chunkBytes := 0;
      }
      LoopExtends(text, i, end, chunks, chunk, chunkBytes, before, cur, rest, maxChunkBytes);
      chunk := chunk + character;
      chunkBytes := chunkBytes + characterBytes.value;
      cur, rest := cur + [rest[0]], rest[1..];
      i := end;
    }
    LoopEnds(text, chunks, chunk, chunkBytes, before, cur, rest, maxChunkBytes);
    chunks := chunks + [chunk];
    return Some(chunks);
  }

  // ---- Server result payloads ----

  /** `None` is a thrown ProtocolError. */
  function ResultPayloads(id: seq<Unit>, success: bool, response: seq<Unit>): Option<seq<PhoneMsg>> {
    if !IsRequestId(id) then None
    else
      match (Utf8Length(response), Split(response, RESPONSE_CHUNK_BYTES))
      case (Some(total), Some(chunks)) =>
        Some(seq(|chunks|, i requires 0 <= i < |chunks| => ResultMsg(id, i, |chunks|, total, chunks[i], success)))
      case _ => None
  }

  method BuildServerResultChunks(id: seq<Unit>, success: bool, response: seq<Unit>) returns (r: Option<seq<PhoneMsg>>)
    ensures r == ResultPayloads(id, success, response)
  {
    hide Split, Decode16, Utf8All;
    if !IsRequestId(id) {
      return None;
    }
    var totalBytes := Utf8ByteLength(response);
    if totalBytes.None? {
      return None;
    }
    var chunks := SplitUtf8(response, RESPONSE_CHUNK_BYTES);
    if chunks.None? {
      return None;
    }
    var payloads := [];
    for i := 0 to |chunks.value|
      invariant payloads == seq(i, k requires 0 <= k < i => ResultMsg(id, k, |chunks.value|, totalBytes.value, chunks.value[k], success))
    {
      payloads := payloads + [ResultMsg(id, i, |chunks.value|, totalBytes.value, chunks.value[i], success)];
    }
    return Some(payloads);
  }

  /** A response as scalar pieces; the empty response is one empty piece. */
  function ResponseParts(vs: seq<Scalar>): seq<seq<Scalar>> {
    if vs == [] || !AllFit(vs, RESPONSE_CHUNK_BYTES) then [vs] else Partition(vs, RESPONSE_CHUNK_BYTES)
  }

  ghost predicate IsResponse(response: seq<Unit>) {
    Decode16(response).Some? && Bytes(Decode16(response).value) <= MAX_RESPONSE_BYTES
  }

  lemma ResponsePartsAreBounded(vs: seq<Scalar>)
    requires Bytes(vs) <= MAX_RESPONSE_BYTES
    ensures AllFit(vs, RESPONSE_CHUNK_BYTES)
    ensures 1 <= |ResponseParts(vs)| <= 5 && IsPartition(ResponseParts(vs), vs, RESPONSE_CHUNK_BYTES)
    ensures vs != [] ==> forall i | 0 <= i < |ResponseParts(vs)| :: ResponseParts(vs)[i] != []
  {
    if vs == [] {
      assert Flatten([vs]) == vs + Flatten([]);
    } else {
      PiecesAreNearlyFull(vs, RESPONSE_CHUNK_BYTES);
      PartitionIsPartition(vs, RESPONSE_CHUNK_BYTES);
    }
  }

  lemma SplitIsResponseParts(response: seq<Unit>)
    requires IsResponse(response)
    ensures Split(response, RESPONSE_CHUNK_BYTES) == Some(EachUtf16(ResponseParts(Decode16(response).value)))
  {
    var vs := Decode16(response).value;
    ResponsePartsAreBounded(vs);
    if vs == [] {
      assert EachUtf16([vs]) == [Utf16All(vs)];
    }
  }

  /** Every acceptable response is carried by between one and five payloads, numbered in order
      with the same metadata; their texts are nonempty unless the response is empty, at most
      256 bytes each, and reassemble to the response.  So "cannot hold one character" is never
      thrown for a response. */
  lemma ResultPayloadsAreComplete(id: seq<Unit>, success: bool, response: seq<Unit>)
    requires IsRequestId(id)
    ensures ResultPayloads(id, success, response).Some? <==> IsResponse(response)
    ensures IsResponse(response) ==>
              var ps := ResultPayloads(id, success, response).value;
              var vs := Decode16(response).value;
              var parts := ResponseParts(vs);
              && 1 <= |ps| == |parts| <= 5
              && IsPartition(parts, vs, RESPONSE_CHUNK_BYTES)
              && (vs != [] ==> forall i | 0 <= i < |parts| :: parts[i] != [])
              && (forall i | 0 <= i < |ps| :: ps[i] == ResultMsg(id, i, |ps|, Bytes(vs), Utf16All(parts[i]), success))
  {
    if IsResponse(response) {
      ResponsePartsAreBounded(Decode16(response).value);
      SplitIsResponseParts(response);
    }
  }

  // ---- Watch messages ----

  datatype Message =
    | Begin(id: seq<Unit>)
    | Chunk(id: seq<Unit>, index: nat, count: nat, total: nat, text: seq<Unit>)
    | End(id: seq<Unit>, status: nat)

  function Field(payload: JsPayload, key: Key): Js {
    if key in payload then payload[key] else JsNull
  }

  predicate IsUint32(v: Js) { v.JsNumber? && 0 <= v.n <= UINT32_MAX }

  /** `None` is a thrown ProtocolError. */
  function ParseWatchMessage(payload: Option<JsPayload>): Option<Message> {
    if payload.None? then None
    else
      var version, kind, id := Field(payload.value, ProtocolVersion), Field(payload.value, MessageType), Field(payload.value, RequestId);
      if !IsUint32(version) || !IsUint32(kind) || version.n != PROTOCOL_VERSION || !id.JsString? || !IsRequestId(id.text) then None
      else if kind.n == TRANSCRIPT_CHUNK then
        var index, count, total, text :=
          Field(payload.value, ChunkIndex), Field(payload.value, ChunkCount), Field(payload.value, TotalBytes), Field(payload.value, ChunkText);
        if !IsUint32(index) || !IsUint32(count) || !IsUint32(total) || count.n == 0 || total.n == 0 || index.n >= count.n
           || !text.JsString? || text.text == [] || Utf8Length(text.text).None? then None
        else Some(Chunk(id.text, index.n, count.n, total.n, text.text))
      else if kind.n == SESSION_END then
        var status := Field(payload.value, StatusCode);
        if !IsUint32(status) || status.n > STATUS_RESULT_TRANSFER_TIMEOUT then None
        else Some(End(id.text, status.n))
      else if kind.n == SESSION_BEGIN then Some(Begin(id.text))
      else None
  }

  // ---- Transcript reassembly ----

  datatype Assembler = Assembler(
    id: seq<Unit>, chunkCount: Option<nat>, totalBytes: Option<nat>, nextIndex: nat, chunks: seq<seq<Unit>>)

  function NewAssembler(id: seq<Unit>): Assembler { Assembler(id, None, None, 0, []) }

  datatype Added = Threw | Incomplete | Complete(transcript: seq<Unit>)

  /** One `add`; an exception may leave the metadata or the last chunk recorded. */
  function Add(a: Assembler, m: Message): (Assembler, Added) {
    if !m.Chunk? || m.id != a.id then (a, Threw)
    else if a.chunkCount.Some? && (a.chunkCount != Some(m.count) || a.totalBytes != Some(m.total)) then (a, Threw)
    else
      var b := a.(chunkCount := Some(m.count), totalBytes := Some(m.total));
      if m.index != b.nextIndex || Utf8Length(m.text).None? then (b, Threw)
      else
        var c := b.(chunks := b.chunks + [m.text], nextIndex := b.nextIndex + 1);
        if c.nextIndex < m.count then (c, Incomplete)
        else
          var transcript := Flatten(c.chunks);
          if Utf8Length(transcript) != Some(m.total) then (c, Threw) else (c, Complete(transcript))
  }

  class TranscriptAssembler {
    const requestId: seq<Unit>
    var chunkCount: Option<nat>
    var totalBytes: Option<nat>
    var nextIndex: nat
    var chunks: seq<seq<Unit>>

    ghost function State(): Assembler
      reads this
    {
      Assembler(requestId, chunkCount, totalBytes, nextIndex, chunks)
    }

    /** `null` is a thrown ProtocolError. */
    static method Create(id: seq<Unit>) returns (r: TranscriptAssembler?)
      ensures r == null <==> !IsRequestId(id)
      ensures r != null ==> fresh(r) && r.State() == NewAssembler(id)
    {
      r := null;
      if IsRequestId(id) {
        r := new TranscriptAssembler(id);
      }
    }

    constructor (id: seq<Unit>)
      ensures State() == NewAssembler(id)
    {
      requestId, chunkCount, totalBytes, nextIndex, chunks := id, None, None, 0, [];
    }

    method AddChunk(m: Message) returns (r: Added)
      modifies this
      ensures (State(), r) == Add(old(State()), m)
    {
      if !m.Chunk? || m.id != requestId {
        return Threw;
      }
      if chunkCount.None? {
        chunkCount := Some(m.count);
        totalBytes := Some(m.total);
      } else if Some(m.count) != chunkCount || Some(m.total) != totalBytes {
        return Threw;
      }
      if m.index != nextIndex {
        return Threw;
      }
      var length := Utf8ByteLength(m.text);
      if length.None? {
        return Threw;
      }
      chunks := chunks + [m.text];
      nextIndex := nextIndex + 1;
      if nextIndex < chunkCount.value {
        return Incomplete;
      }
      var transcript := Flatten(chunks);
      var total := Utf8ByteLength(transcript);
      if total != totalBytes {
        return Threw;
      }
      return Complete(transcript);
    }

    method Clear()
      modifies this
      ensures State() == NewAssembler(requestId)
    {
      chunks := [];
      chunkCount := None;
      totalBytes := None;
      nextIndex := 0;
    }
  }

  // ---- Requests and server frames ----

  datatype JsonField = Version | Type | Id | Transcript | Success | Response | Code

  type JsonObject = map<JsonField, Js>

  /** A WebSocket message: binary, text that is not JSON, JSON that is not an object, an object. */
  datatype Frame = Binary | NotJson | NotObject | Object(fields: JsonObject)

  function Ascii(s: string): seq<Unit> {
    seq(|s|, i requires 0 <= i < |s| => s[i] as int % 0x80)
  }

  const DICTATION: seq<Unit> := Ascii("dictation")
  const RESULT: seq<Unit> := Ascii("result")
  const ERROR: seq<Unit> := Ascii("error")

  /** `None` is a thrown ProtocolError. */
  function BuildRequest(id: seq<Unit>, transcript: seq<Unit>): Option<JsonObject> {
    if !IsRequestId(id) || Utf8Length(transcript).None? then None
    else Some(map[Version := JsNumber(PROTOCOL_VERSION), Type := JsString(DICTATION), Id := JsString(id), Transcript := JsString(transcript)])
  }

  datatype Parsed = Unrelated | ProtocolError | ServerError(code: seq<Unit>) | Result(success: bool, response: seq<Unit>)

  function Get(fields: JsonObject, f: JsonField): Js {
    if f in fields then fields[f] else JsNull
  }

  function ParseServerFrame(data: Frame, id: seq<Unit>): Parsed {
    if !data.Object? || !IsRequestId(id) || Get(data.fields, Id) != JsString(id) then Unrelated
    else
      var kind, code := Get(data.fields, Type), Get(data.fields, Code);
      if Get(data.fields, Version) != JsNumber(PROTOCOL_VERSION) then ProtocolError
      else if kind == JsString(ERROR) && code.JsString? && code.text != [] then ServerError(code.text)
      else if kind == JsString(RESULT) then
        var success, response := Get(data.fields, Success), Get(data.fields, Response);
        if !success.JsBool? || !response.JsString? then ProtocolError
        else
          match Utf8Length(response.text)
          case None => ProtocolError
          case Some(n) => if n > MAX_RESPONSE_BYTES then ProtocolError else Result(success.b, response.text)
      else ProtocolError
  }
}
