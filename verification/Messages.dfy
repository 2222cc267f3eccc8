/** The AppMessage protocol: keys, constants, and how each end's values look to the other. */
module Messages {
  import opened Unicode

  const PROTOCOL_VERSION := 2
  const MAX_RESPONSE_BYTES := 1024
  const RESPONSE_CHUNK_BYTES := 256

  const SESSION_BEGIN := 1
  const TRANSCRIPT_CHUNK := 2
  const SESSION_END := 3
  const SEND_STARTED := 10
  const FAILURE := 12
  const SERVER_RESULT_CHUNK := 13

  const STATUS_NORMAL := 0
  const STATUS_CANCELLED := 1
  const STATUS_DICTATION := 2
  const STATUS_NO_SPEECH := 3
  const STATUS_PHONE_CONNECTIVITY := 4
  const STATUS_PROTOCOL := 5
  const STATUS_TRANSFER := 6
  const STATUS_SERVER := 7
  const STATUS_SERVER_RESULT_TIMEOUT := 8
  const STATUS_TRANSCRIPT_DELIVERY_TIMEOUT := 9
  const STATUS_WS_REQUEST_TIMEOUT := 10
  const STATUS_RESULT_TRANSFER_TIMEOUT := 11

  datatype Key =
    | ProtocolVersion | MessageType | RequestId | ChunkIndex | ChunkCount
    | TotalBytes | ChunkText | StatusCode | ServerSuccess

  /** A JavaScript value.  `JsOther` is any value the code treats uniformly as truthy and of the
      wrong type: an object, an array, a number that is not an integer. */
  datatype Js = JsNumber(n: int) | JsString(text: seq<Unit>) | JsBool(b: bool) | JsNull | JsOther

  type JsPayload = map<Key, Js>

  /** A Pebble dictionary tuple.  `data` of a string tuple includes its terminator, if it has one. */
  datatype Tuple =
    | UIntTuple(width: nat, unsigned: nat)
    | IntTuple(width: nat, signed: int)
    | CStringTuple(data: seq<Byte>)
    | OtherTuple

  type Dict = map<Key, Tuple>

  /** Printable, nonempty ASCII: a request identifier, identical in both encodings. */
  predicate IsRequestId(id: seq<Unit>) {
    id != [] && forall i | 0 <= i < |id| :: 0x20 <= id[i] <= 0x7E
  }

  lemma {:induction false} AsciiIsItself(id: seq<Byte>)
    requires forall i | 0 <= i < |id| :: id[i] <= 0x7E
    ensures Decode8(id) == Some(id) && Utf16All(id) == id && Decode16(id) == Some(id)
  {
    if id != [] {
      AsciiIsItself(id[1..]);
      assert [id[0]] + id[1..] == id;
      assert HeadScalar(id) == id[0] by {
        assert Utf8(id[0]) <= id;
        ClassifierIsRfc3629(id[0], id);
      }
    }
  }

  // ---- Watch to phone ----

  datatype WatchMsg =
    | BeginMsg(id: seq<Byte>)
    | ChunkMsg(id: seq<Byte>, index: nat, count: nat, total: nat, text: seq<Byte>)
    | EndMsg(id: seq<Byte>, status: nat)

  function JsText(t: seq<Byte>): Js {
    if Decode8(t).Some? then JsString(ToJsText(t)) else JsOther
  }

  /** The object PebbleKit JS hands to the `appmessage` listener. */
  function ToJs(m: WatchMsg): JsPayload {
    var common := map[ProtocolVersion := JsNumber(PROTOCOL_VERSION), RequestId := JsText(m.id)];
    match m
    case BeginMsg(_) => common[MessageType := JsNumber(SESSION_BEGIN)]
    case EndMsg(_, status) =>
      common[MessageType := JsNumber(SESSION_END)][StatusCode := JsNumber(status)]
    case ChunkMsg(_, index, count, total, text) =>
      common[MessageType := JsNumber(TRANSCRIPT_CHUNK)][ChunkIndex := JsNumber(index)]
        [ChunkCount := JsNumber(count)][TotalBytes := JsNumber(total)][ChunkText := JsText(text)]
  }

  // ---- Phone to watch ----

  datatype PhoneMsg =
    | SendStartedMsg(id: seq<Unit>)
    | FailureMsg(id: seq<Unit>, status: nat)
    | ResultMsg(id: seq<Unit>, index: nat, count: nat, total: nat, text: seq<Unit>, success: bool)

  function CTuple(text: seq<Unit>): Tuple {
    if Decode16(text).Some? then CStringTuple(ToCText(text) + [0]) else OtherTuple
  }

  function Number(n: int): Tuple { IntTuple(4, n) }

  /** The dictionary the watch receives for a payload given to `sendAppMessage`. */
  function ToDict(m: PhoneMsg): Dict {
    var common := map[ProtocolVersion := Number(PROTOCOL_VERSION), RequestId := CTuple(m.id)];
    match m
    case SendStartedMsg(_) => common[MessageType := Number(SEND_STARTED)]
    case FailureMsg(_, status) =>
      common[MessageType := Number(FAILURE)][StatusCode := Number(status)]
    case ResultMsg(_, index, count, total, text, success) =>
      common[MessageType := Number(SERVER_RESULT_CHUNK)][ChunkIndex := Number(index)]
        [ChunkCount := Number(count)][TotalBytes := Number(total)][ChunkText := CTuple(text)]
        [ServerSuccess := Number(if success then 1 else 0)]
  }
}
