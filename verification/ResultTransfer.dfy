/** Phone to watch: the payloads built for a response, fed to the watch one by one. */
module ResultTransfer {
  import opened Unicode
  import opened Greedy
  import opened Messages
  import opened WatchCodec
  import opened WatchModel
  import opened WatchProofs
  import opened Protocol
  import WF = WatchFrames

  // ---- How a payload looks to the watch ----

  lemma {:induction false} NulBytes(vs: seq<Scalar>)
    ensures 0 in Utf8All(vs) <==> 0 in vs
  {
    if vs != [] {
      NulBytes(vs[1..]);
      assert 0 in Utf8(vs[0]) <==> vs[0] == 0;
      assert vs == [vs[0]] + vs[1..];
    }
  }

  lemma {:induction false} CStringOfTerminated(t: seq<Byte>)
    ensures CString(t + [0]) == t <==> 0 !in t
    ensures |CString(t + [0])| == |t| <==> 0 !in t
  {
    if 0 !in t {
      CStringStops(t, []);
      assert t + [0] + [] == t + [0];
    }
  }

  ghost predicate IsResult(m: PhoneMsg) {
    m.ResultMsg? && m.index < m.count && m.total <= MAX_RESPONSE_BYTES && Decode16(m.text).Some?
  }

  /** The watch reads back exactly what was sent, unless the text contains U+0000: a C string
      ends there, and the length check refuses it. */
  lemma ReadBack(m: PhoneMsg)
    requires IsResult(m)
    ensures ReadResultChunk(ToDict(m)) ==
              if 0 in Decode16(m.text).value then None
              else Some(ResultChunk(m.index, m.count, m.total, m.success, ToCText(m.text)))
  {
    hide Decode16, Decode8, CString;
    var t := ToCText(m.text);
    CStringOfTerminated(t);
    NulBytes(Decode16(m.text).value);
    Decode8Encode(Decode16(m.text).value);
    var d := ToDict(m);
    assert d[ChunkText] == CStringTuple(t + [0]);
    assert d[ChunkIndex] == Number(m.index) && d[ChunkCount] == Number(m.count) && d[TotalBytes] == Number(m.total);
    assert d[ServerSuccess] == Number(if m.success then 1 else 0);
  }

  /** The watch accepts a chunk exactly when its four numbers are readable, consistent and bounded
      and its text is a terminated, NUL-free, well-formed string. */
  lemma ChunkIsReadIff(d: Dict, c: ResultChunk)
    ensures ReadResultChunk(d) == Some(c)
            <==> && c.index < c.count && c.total <= MAX_RESPONSE_BYTES && 0 !in c.text && Decode8(c.text).Some?
                 && ToUint32(d, ChunkIndex) == Some(c.index) && ToUint32(d, ChunkCount) == Some(c.count)
                 && ToUint32(d, TotalBytes) == Some(c.total) && ToUint32(d, ServerSuccess) == Some(if c.success then 1 else 0)
                 && ChunkText in d && d[ChunkText] == CStringTuple(c.text + [0])
  {
    hide Decode8, ToUint32, CString;
    CStringOfTerminated(c.text);
    if ChunkText in d && d[ChunkText].CStringTuple? && d[ChunkText].data != [] {
      var data := d[ChunkText].data;
      var text := CString(data);
      if |text| == |data| - 1 {
        assert data == text + [0];
      }
      if data == c.text + [0] {
        assert |data| == |c.text| + 1;
      }
    }
  }

  predicate IsWatchId(id: seq<Byte>) {
    |id| == REQUEST_ID_LENGTH && forall i | 0 <= i < |id| :: 0x20 <= id[i] <= 0x7E
  }

  lemma HeaderReadsBack(s: Watch, m: PhoneMsg)
    requires IsWatchId(s.id) && IsRequestId(m.id)
    ensures IdMatches(s, ToDict(m)) <==> m.id == s.id
    ensures ToUint32(ToDict(m), ProtocolVersion) == Some(PROTOCOL_VERSION)
    ensures ToUint32(ToDict(m), MessageType) ==
              Some(match m case SendStartedMsg(_) => SEND_STARTED case FailureMsg(_, _) => FAILURE case ResultMsg(_, _, _, _, _, _) => SERVER_RESULT_CHUNK)
    ensures RequestId in ToDict(m)
  {
    hide ToDict, CTuple;
    HeaderTuples(m);
    IdTupleMatches(s.id, m.id);
  }

  lemma HeaderTuples(m: PhoneMsg)
    ensures var d := ToDict(m);
            && RequestId in d && d[RequestId] == CTuple(m.id)
            && ProtocolVersion in d && d[ProtocolVersion] == Number(PROTOCOL_VERSION)
            && MessageType in d
            && d[MessageType] == Number(match m case SendStartedMsg(_) => SEND_STARTED case FailureMsg(_, _) => FAILURE
                                        case ResultMsg(_, _, _, _, _, _) => SERVER_RESULT_CHUNK)
  {
    hide CTuple;
    match m
    case SendStartedMsg(_) =>
    case FailureMsg(_, _) =>
    case ResultMsg(_, _, _, _, _, _) =>
  }

  /** An identifier tuple is the watch's own exactly when the identifiers are the same. */
  lemma IdTupleMatches(own: seq<Byte>, id: seq<Unit>)
    requires IsWatchId(own) && IsRequestId(id)
    ensures CTuple(id) == CStringTuple(own + [0]) <==> id == own
  {
    hide Decode8, Decode16, Utf8All, Utf16All;
    AsciiIsItself(id);
    AsciiIsItself(own);
    assert (Utf8All(id) + [0] == own + [0]) <==> Utf8All(id) == own by {
      assert (Utf8All(id) + [0])[..|Utf8All(id)|] == Utf8All(id);
      assert (own + [0])[..|own|] == own;
    }
    Decode8Encode(id);
    Decode8Encode(own);
  }

  // ---- Reassembly ----

  predicate Cooperative(env: Env) {
    env.memory && env.timerArmed && env.resultShown && env.resultTimerArmed
  }

  /** The watch expects payload `k` of `n`, having stored `got`. */
  ghost predicate Expects(s: Watch, got: seq<Byte>, k: nat, n: nat, total: nat, success: bool) {
    && s.app == Bridging && s.linkError == NoLinkError
    && if k == 0 then got == [] && s.link == AwaitingResult && s.inc == NO_INCOMING
       else s.link == ReceivingResult && s.inc == Incoming(Some(got), n, k, total, success)
  }

  ghost predicate Shows(s: Watch, response: seq<Byte>, success: bool) {
    s.app == DisplayingResult && s.inc.buffer == Some(response) && s.inc.success == success
  }

  lemma StepsInto(s: Watch, m: PhoneMsg, env: Env)
    requires IsWatchId(s.id) && m.id == s.id && m.ResultMsg? && s.app == Bridging
    ensures InboxReceived(s, ToDict(m), env) ==
              var (t, accepted) := ReceiveResultChunk(s, ToDict(m), env);
              if accepted then t else LinkFail(t, if t.linkError == NoLinkError then LinkProtocol else t.linkError, env)
  {
    hide ReceiveResultChunk, LinkFail, ToUint32, ToDict, IdMatches;
    HeaderReadsBack(s, m);
  }

  lemma StoresNext(s: Watch, got: seq<Byte>, m: PhoneMsg, env: Env)
    requires IsResult(m) && 0 !in Decode16(m.text).value && Cooperative(env)
    requires Expects(s, got, m.index, m.count, m.total, m.success)
    requires var bytes := got + ToCText(m.text);
             if m.index + 1 == m.count then |bytes| == m.total else |bytes| < m.total
    ensures var (t, accepted) := ReceiveResultChunk(s, ToDict(m), env);
            && accepted
            && if m.index + 1 == m.count then Shows(t, got + ToCText(m.text), m.success)
               else Expects(t, got + ToCText(m.text), m.index + 1, m.count, m.total, m.success) && t.id == s.id
  {
    hide ReadResultChunk, ToDict, ToCText, Decode16;
    ReadBack(m);
    var c := ResultChunk(m.index, m.count, m.total, m.success, ToCText(m.text));
    assert ReadResultChunk(ToDict(m)) == Some(c);
    var (t, begun) := OpenResult(s, c, env);
    assert begun && t.inc == Incoming(Some(got), m.count, m.index, m.total, m.success) && t.id == s.id;
    assert |got| + |c.text| == |got + c.text|;
  }

  lemma RefusesNul(s: Watch, m: PhoneMsg, env: Env)
    requires IsResult(m) && 0 in Decode16(m.text).value && s.app == Bridging && s.linkError == NoLinkError
    ensures ReceiveResultChunk(s, ToDict(m), env) == (s, false)
    ensures LinkFail(s, LinkProtocol, env).app == Error && LinkFail(s, LinkProtocol, env).status == STATUS_PROTOCOL
  {
    hide ReadResultChunk, ToDict, Decode16, LinkFail;
    ReadBack(m);
    WF.LinkFailFrame(s, LinkProtocol, env);
  }

  function Feed(s: Watch, ms: seq<PhoneMsg>, env: Env): Watch
    decreases |ms|
  {
    if ms == [] then s else Feed(InboxReceived(s, ToDict(ms[0]), env), ms[1..], env)
  }

  lemma {:induction false} FeedAfterError(s: Watch, ms: seq<PhoneMsg>, env: Env)
    requires s.app == Error
    ensures Feed(s, ms, env) == s
    decreases |ms|
  {
    if ms != [] {
      FeedAfterError(s, ms[1..], env);
    }
  }

  /** What reassembly needs of a run of payloads. */
  ghost predicate Payloads(ms: seq<PhoneMsg>, id: seq<Unit>, parts: seq<seq<Scalar>>, vs: seq<Scalar>, success: bool) {
    && |ms| == |parts| >= 1
    && Flatten(parts) == vs && Bytes(vs) <= MAX_RESPONSE_BYTES
    && (vs != [] ==> forall i | 0 <= i < |parts| :: parts[i] != [])
    && (vs == [] ==> |parts| == 1)
    && forall i | 0 <= i < |ms| :: ms[i] == ResultMsg(id, i, |ms|, Bytes(vs), Utf16All(parts[i]), success)
  }

  lemma PiecesSoFar(parts: seq<seq<Scalar>>, vs: seq<Scalar>, k: nat)
    requires Flatten(parts) == vs && k < |parts|
    requires vs != [] ==> forall i | 0 <= i < |parts| :: parts[i] != []
    requires vs == [] ==> |parts| == 1
    ensures var got := Utf8All(Flatten(parts[..k])) + Utf8All(parts[k]);
            && got == Utf8All(Flatten(parts[..k + 1]))
            && (k + 1 == |parts| ==> |got| == Bytes(vs))
            && (k + 1 < |parts| ==> |got| < Bytes(vs))
  {
    hide Utf8;
    assert parts[..k + 1] == parts[..k] + [parts[k]];
    FlattenConcat(parts[..k], [parts[k]]);
    assert Flatten([parts[k]]) == parts[k] + Flatten([]) == parts[k];
    Utf8AllConcat(Flatten(parts[..k]), parts[k]);
    assert parts == parts[..k + 1] + parts[k + 1..];
    FlattenConcat(parts[..k + 1], parts[k + 1..]);
    Utf8AllConcat(Flatten(parts[..k + 1]), Flatten(parts[k + 1..]));
    if k + 1 < |parts| {
      var tail := parts[k + 1..];
      assert Flatten(tail)[0] == tail[0][0];
      assert Bytes(Flatten(tail)) >= Size(Flatten(tail)[0]);
    } else {
      assert parts[..k + 1] == parts;
    }
  }

  /** From payload `k` on, the result is shown if and only if no remaining piece has a NUL. */
  lemma {:induction false} FeedFrom(s: Watch, ms: seq<PhoneMsg>, k: nat, parts: seq<seq<Scalar>>, vs: seq<Scalar>, success: bool, env: Env)
    requires IsWatchId(s.id) && Cooperative(env) && k < |ms|
    requires Payloads(ms, s.id, parts, vs, success)
    requires Expects(s, Utf8All(Flatten(parts[..k])), k, |ms|, Bytes(vs), success)
    ensures var t := Feed(s, ms[k..], env);
            if 0 in Flatten(parts[k..]) then t.app == Error && t.status == STATUS_PROTOCOL
            else Shows(t, Utf8All(vs), success)
    decreases |ms| - k
  {
    hide Utf8All, Utf16All, InboxReceived, ReceiveResultChunk, LinkFail, Decode16, ToDict;
    var m := ms[k];
    Decode16Encode(parts[k]);
    PiecesSoFar(parts, vs, k);
    StepsInto(s, m, env);
    assert ms[k..][0] == m && ms[k..][1..] == ms[k + 1..];
    assert parts[k..] == [parts[k]] + parts[k + 1..];
    assert Flatten(parts[k..]) == parts[k] + Flatten(parts[k + 1..]);
    var t := InboxReceived(s, ToDict(m), env);
    if 0 in parts[k] {
      RefusesNul(s, m, env);
      FeedAfterError(t, ms[k + 1..], env);
    } else {
      StoresNext(s, Utf8All(Flatten(parts[..k])), m, env);
      if k + 1 < |ms| {
        FeedFrom(t, ms, k + 1, parts, vs, success, env);
      } else {
        assert parts[..k + 1] == parts && parts[k + 1..] == [] && ms[k + 1..] == [];
      }
    }
  }

  /** Result round trip.  Every response the phone accepts reaches the watch byte for byte in
      UTF-8, with its success flag, if and only if it contains no U+0000; otherwise the watch
      reports a protocol error. */
  lemma ResultRoundTrip(s: Watch, success: bool, response: seq<Unit>, env: Env)
    requires IsWatchId(s.id) && WatchInv(s) && s.app == Bridging && s.link == AwaitingResult && Cooperative(env)
    requires IsResponse(response)
    ensures IsRequestId(s.id) && ResultPayloads(s.id, success, response).Some?
    ensures var t := Feed(s, ResultPayloads(s.id, success, response).value, env);
            && (t.app == DisplayingResult <==> 0 !in Decode16(response).value)
            && (t.app == DisplayingResult ==> Shows(t, ToCText(response), success))
            && (t.app != DisplayingResult ==> t.app == Error && t.status == STATUS_PROTOCOL)
  {
    hide Feed, Prepare, Split;
    ResultPayloadsAreComplete(s.id, success, response);
    var ms := ResultPayloads(s.id, success, response).value;
    var vs := Decode16(response).value;
    var parts := ResponseParts(vs);
    assert parts[..0] == [] && parts[0..] == parts && ms[0..] == ms;
    FeedFrom(s, ms, 0, parts, vs, success, env);
  }
}
