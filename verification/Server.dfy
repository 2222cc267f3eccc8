/** The dictation server: request parsing, result validation, at most one reply per request, and how its
    frames look to the phone.  A Python string is a sequence of code points, surrogates included. */
module Server {
  import opened Unicode
  import opened Messages
  import opened Protocol

  type CodePoint = c: int | 0 <= c < 0x11_0000

  predicate IsSurrogate(c: CodePoint) { 0xD800 <= c < 0xE000 }

  /** A decoded JSON value.  `PyOther` is a float, a list or an object. */
  datatype Py = PyInt(n: int) | PyBool(b: bool) | PyStr(text: seq<CodePoint>) | PyNone | PyOther

  type PyDict = map<JsonField, Py>

  /** A WebSocket message as the server sees it. */
  datatype ServerFrame = BinaryFrame | Undecodable | NotDict | DictFrame(fields: PyDict)

  function GetPy(fields: PyDict, f: JsonField): Py {
    if f in fields then fields[f] else PyNone
  }

  predicate IsServerRequestId(v: Py) {
    v.PyStr? && v.text != [] && forall i | 0 <= i < |v.text| :: 0x20 <= v.text[i] <= 0x7E
  }

  predicate IsErrorCode(text: seq<CodePoint>) {
    text != [] && forall i | 0 <= i < |text| :: 0x21 <= text[i] <= 0x7E
  }

  datatype DictationMessage = DictationMessage(id: seq<CodePoint>, transcript: seq<CodePoint>)

  // ---- Requests ----

  const UNSUPPORTED_FRAME: seq<CodePoint> := Ascii("unsupported_frame")
  const INVALID_JSON: seq<CodePoint> := Ascii("invalid_json")
  const INVALID_MESSAGE: seq<CodePoint> := Ascii("invalid_message")
  const UNSUPPORTED_VERSION: seq<CodePoint> := Ascii("unsupported_version")
  const INVALID_TYPE: seq<CodePoint> := Ascii("invalid_type")
  const INVALID_REQUEST_ID: seq<CodePoint> := Ascii("invalid_request_id")
  const INVALID_TRANSCRIPT: seq<CodePoint> := Ascii("invalid_transcript")
  const HANDLER_ERROR: seq<CodePoint> := Ascii("handler_error")
  const INVALID_HANDLER_RESULT: seq<CodePoint> := Ascii("invalid_handler_result")

  datatype ParsedRequest = Rejected(code: seq<CodePoint>, id: Option<seq<CodePoint>>) | Accepted(message: DictationMessage)

  function ParseDictationMessage(frame: ServerFrame): ParsedRequest {
    match frame
    case BinaryFrame => Rejected(UNSUPPORTED_FRAME, None)
    case Undecodable => Rejected(INVALID_JSON, None)
    case NotDict => Rejected(INVALID_MESSAGE, None)
    case DictFrame(fields) =>
      var raw := GetPy(fields, Id);
      var id := if IsServerRequestId(raw) then Some(raw.text) else None;
      if GetPy(fields, Version) != PyInt(PROTOCOL_VERSION) then Rejected(UNSUPPORTED_VERSION, id)
      else if GetPy(fields, Type) != PyStr(DICTATION) then Rejected(INVALID_TYPE, id)
      else if id.None? then Rejected(INVALID_REQUEST_ID, None)
      else
        var transcript := GetPy(fields, Transcript);
        if !transcript.PyStr? || transcript.text == [] then Rejected(INVALID_TRANSCRIPT, id)
        else Accepted(DictationMessage(id.value, transcript.text))
  }

  // ---- Results ----

  /** How the application's handler ends: it raises an `Exception`, or returns something.  `Escaped`
      is a `BaseException` that is no `Exception`, such as a cancellation; `Unfinished` is an awaitable
      that is still pending. */
  datatype HandlerOutcome = Raised | ReturnedOther | ReturnedResult(success: Py, response: Py) | Escaped | Unfinished

  /** The handler is done in a way that the bridge notices. */
  predicate Settles(outcome: HandlerOutcome) {
    outcome.Raised? || outcome.ReturnedOther? || outcome.ReturnedResult?
  }

  /** Whether `encode("utf-8")` succeeds. */
  predicate Encodable(text: seq<CodePoint>) {
    forall i | 0 <= i < |text| :: !IsSurrogate(text[i])
  }

  function Scalars(text: seq<CodePoint>): (vs: seq<Scalar>)
    requires Encodable(text)
    ensures vs == text
  {
    if text == [] then []
    else
      assert Encodable(text[1..]) by {
        assert forall i | 0 <= i < |text[1..]| :: text[1..][i] == text[i + 1];
      }
      [text[0]] + Scalars(text[1..])
  }

  predicate IsValidResult(outcome: HandlerOutcome) {
    && outcome.ReturnedResult?
    && outcome.success.PyBool?
    && outcome.response.PyStr?
    && Encodable(outcome.response.text)
    && Bytes(Scalars(outcome.response.text)) <= MAX_RESPONSE_BYTES
  }

  /** `None` is a raised ValueError or TypeError. */
  function ResultPayload(id: seq<CodePoint>, outcome: HandlerOutcome): Option<PyDict> {
    if !IsServerRequestId(PyStr(id)) || !IsValidResult(outcome) then None
    else Some(map[Version := PyInt(PROTOCOL_VERSION), Type := PyStr(RESULT), Id := PyStr(id),
                  Success := outcome.success, Response := outcome.response])
  }

  function ErrorPayload(id: seq<CodePoint>, code: seq<CodePoint>): Option<PyDict> {
    if !IsServerRequestId(PyStr(id)) || !IsErrorCode(code) then None
    else Some(map[Version := PyInt(PROTOCOL_VERSION), Type := PyStr(ERROR), Id := PyStr(id), Code := PyStr(code)])
  }

  // ---- One connection ----

  datatype ServerState = Received | Dispatching | SendingResult | Complete | Failed

  datatype BridgeError = NoBridgeError | ProtocolBridgeError | SendBridgeError | HandlerBridgeError | HandlerResultError

  /** State and most recent error for one validated request. */
  class BridgeSession {
    const message: DictationMessage
    var state: ServerState
    var error: BridgeError

    constructor (message: DictationMessage)
      ensures this.message == message && state == Received && error == NoBridgeError
    {
      this.message := message;
      state, error := Received, NoBridgeError;
    }
  }

  /** What becomes of one `connection.send`: done, refused because the connection is closed, or
      ended by a cancellation. */
  datatype SendOutcome = Delivered | ConnectionClosed | Interrupted

  /** How a bridge method ends: it returns, an exception leaves it, or it still waits. */
  datatype Ending = Returned(ok: bool) | Propagated | Suspended

  /** The reply that one accepted request causes when its handler is done. */
  function ReplyTo(message: DictationMessage, outcome: HandlerOutcome): PyDict
    requires IsServerRequestId(PyStr(message.id))
  {
    if outcome.Raised? then ErrorReply(message.id, HANDLER_ERROR)
    else
      match ResultPayload(message.id, outcome)
      case Some(payload) => payload
      case None => ErrorReply(message.id, INVALID_HANDLER_RESULT)
  }

  function ErrorReply(id: seq<CodePoint>, code: seq<CodePoint>): PyDict {
    map[Version := PyInt(PROTOCOL_VERSION), Type := PyStr(ERROR), Id := PyStr(id), Code := PyStr(code)]
  }

  /** Every attempted reply of one frame, in order. */
  function RepliesTo(frame: ServerFrame, outcome: HandlerOutcome): seq<PyDict> {
    match ParseDictationMessage(frame)
    case Accepted(message) => if Settles(outcome) then [ReplyTo(message, outcome)] else []
    case Rejected(code, Some(id)) => [ErrorReply(id, code)]
    case Rejected(_, None) => []
  }

  predicate IsWord(s: string) {
    s != [] && forall i | 0 <= i < |s| :: '!' <= s[i] <= '~'
  }

  lemma WordIsCode(s: string)
    requires IsWord(s)
    ensures IsErrorCode(Ascii(s))
  {
    assert forall i | 0 <= i < |s| :: Ascii(s)[i] == s[i] as int;
  }

  lemma CodesAreWords()
    ensures IsWord("unsupported_frame") && IsWord("invalid_json") && IsWord("invalid_message")
    ensures IsWord("unsupported_version") && IsWord("invalid_type") && IsWord("invalid_request_id")
    ensures IsWord("invalid_transcript") && IsWord("handler_error") && IsWord("invalid_handler_result")
  {
  }

  lemma CodesAreValid()
    ensures IsErrorCode(UNSUPPORTED_FRAME) && IsErrorCode(INVALID_JSON) && IsErrorCode(INVALID_MESSAGE)
    ensures IsErrorCode(UNSUPPORTED_VERSION) && IsErrorCode(INVALID_TYPE) && IsErrorCode(INVALID_REQUEST_ID)
    ensures IsErrorCode(INVALID_TRANSCRIPT) && IsErrorCode(HANDLER_ERROR) && IsErrorCode(INVALID_HANDLER_RESULT)
  {
    hide IsWord, IsErrorCode, Ascii;
    CodesAreWords();
    WordIsCode("unsupported_frame");
    WordIsCode("invalid_json");
    WordIsCode("invalid_message");
    WordIsCode("unsupported_version");
    WordIsCode("invalid_type");
    WordIsCode("invalid_request_id");
    WordIsCode("invalid_transcript");
    WordIsCode("handler_error");
    WordIsCode("invalid_handler_result");
  }

  lemma ParsedIsNamed(frame: ServerFrame)
    ensures match ParseDictationMessage(frame)
            case Accepted(message) => IsServerRequestId(PyStr(message.id)) && message.transcript != []
            case Rejected(code, id) => IsErrorCode(code) && (id.Some? ==> IsServerRequestId(PyStr(id.value)))
  {
    hide IsErrorCode;
    CodesAreValid();
  }

  /** `attempts` is every payload given to the connection's `send`, `closes` every close code. */
  class DictationWebSocketBridge {
    var lastError: BridgeError
    var lastSession: BridgeSession?
    var attempts: seq<PyDict>
    var closes: seq<nat>

    constructor ()
      ensures lastError == NoBridgeError && lastSession == null && attempts == [] && closes == []
    {
      lastError, lastSession, attempts, closes := NoBridgeError, null, [], [];
    }

    method Send(payload: PyDict, sending: SendOutcome) returns (end: Ending)
      modifies this`attempts
      ensures attempts == old(attempts) + [payload]
      ensures end == match sending case Delivered => Returned(true) case ConnectionClosed => Returned(false) case Interrupted => Propagated
    {
      attempts := attempts + [payload];
      match sending
      case Delivered => return Returned(true);
      case ConnectionClosed => return Returned(false);
      case Interrupted => return Propagated;
    }

    /** A frame that names no request closes the connection; any other causes at most one reply,
        exactly one unless it is a request whose handler is not done or was cancelled. */
    method HandleFrame(frame: ServerFrame, outcome: HandlerOutcome, sending: SendOutcome) returns (end: Ending)
      modifies this
      ensures attempts == old(attempts) + RepliesTo(frame, outcome)
      ensures var parsed := ParseDictationMessage(frame);
              closes == old(closes) + if parsed.Rejected? && parsed.id.None? then [1008] else []
      ensures end == Returned(true) <==> RepliesTo(frame, outcome) != [] && sending == Delivered
      ensures match ParseDictationMessage(frame)
              case Rejected(_, id) =>
                && lastError == ProtocolBridgeError && lastSession == old(lastSession)
                && (id.None? ==> end == Returned(false))
              case Accepted(message) =>
                && lastSession != null && fresh(lastSession) && lastSession.message == message
                && Ended(lastSession, old(lastError), outcome, sending)
                && (end.Suspended? <==> outcome.Unfinished?)
                && (end.Propagated? <==> outcome.Escaped? || (Settles(outcome) && sending == Interrupted))
    {
      ParsedIsNamed(frame);
      match ParseDictationMessage(frame)
      case Rejected(code, id) =>
        lastError := ProtocolBridgeError;
        if id.None? {
          closes := closes + [1008];
          return Returned(false);
        }
        var payload := ErrorPayload(id.value, code);
        end := Send(payload.value, sending);
      case Accepted(message) =>
        var session := new BridgeSession(message);
        lastSession := session;
        end := Dispatch(session, outcome, sending);
    }

    /** Where a dispatched session ends up: complete exactly when a valid result was sent, still
        dispatching exactly when the handler is not done or was cancelled, and failed, with the error
        recorded, when the handler raised, returned something else, or found nobody to send to. */
    ghost predicate Ended(session: BridgeSession, before: BridgeError, outcome: HandlerOutcome, sending: SendOutcome)
      reads this`lastError, session
    {
      && (session.state == ServerState.Complete <==> IsValidResult(outcome) && sending == Delivered)
      && (session.state == Dispatching <==> !Settles(outcome))
      && (session.state == SendingResult <==> IsValidResult(outcome) && sending == Interrupted)
      && session.state != Received
      && session.error == (if session.state != Failed then NoBridgeError
                           else if outcome.Raised? then HandlerBridgeError
                           else if IsValidResult(outcome) then SendBridgeError
                           else HandlerResultError)
      && lastError == if session.state == Failed then session.error else before
    }

    method Dispatch(session: BridgeSession, outcome: HandlerOutcome, sending: SendOutcome) returns (end: Ending)
      requires IsServerRequestId(PyStr(session.message.id)) && session.error == NoBridgeError
      modifies this`attempts, this`lastError, session
      ensures attempts == old(attempts) + if Settles(outcome) then [ReplyTo(session.message, outcome)] else []
      ensures Ended(session, old(lastError), outcome, sending)
      ensures end.Suspended? <==> outcome.Unfinished?
      ensures end.Propagated? <==> outcome.Escaped? || (Settles(outcome) && sending == Interrupted)
      ensures end == Returned(true) <==> Settles(outcome) && sending == Delivered
    {
      CodesAreValid();
      session.state := Dispatching;
      if outcome.Unfinished? {
        return Suspended;
      }
      if outcome.Escaped? {
        return Propagated;
      }
      if outcome.Raised? {
        session.state := Failed;
        session.error := HandlerBridgeError;
        lastError := session.error;
        var error := ErrorPayload(session.message.id, HANDLER_ERROR);
        end := Send(error.value, sending);
        return;
      }
      var payload := ResultPayload(session.message.id, outcome);
      if payload.None? {
        session.state := Failed;
        session.error := HandlerResultError;
        lastError := session.error;
        var error := ErrorPayload(session.message.id, INVALID_HANDLER_RESULT);
        end := Send(error.value, sending);
        return;
      }
      session.state := SendingResult;
      end := Send(payload.value, sending);
      match end
      case Returned(true) => session.state := ServerState.Complete;
      case Returned(false) =>
        session.state := Failed;
        session.error := SendBridgeError;
        lastError := session.error;
      case _ =>
    }
  }

  // ---- JSON between phone and server ----

  /** A JavaScript string as Python reads it: pairs joined, lone surrogates kept. */
  function PyText(text: seq<Unit>): seq<CodePoint> {
    if text == [] then []
    else if IsHigh(text[0]) && |text| >= 2 && IsLow(text[1]) then [PairScalar(text[0], text[1])] + PyText(text[2..])
    else [text[0]] + PyText(text[1..])
  }

  function JsToPy(v: Js): Py {
    match v
    case JsNumber(n) => PyInt(n)
    case JsBool(b) => PyBool(b)
    case JsString(text) => PyStr(PyText(text))
    case JsNull => PyNone
    case JsOther => PyOther
  }

  function PyToJs(v: Py): Js {
    match v
    case PyInt(n) => JsNumber(n)
    case PyBool(b) => JsBool(b)
    case PyStr(text) => if Encodable(text) then JsString(Utf16All(Scalars(text))) else JsOther
    case PyNone => JsNull
    case PyOther => JsOther
  }

  function ToServer(request: JsonObject): ServerFrame {
    DictFrame(map f | f in request :: JsToPy(request[f]))
  }

  function ToPhone(reply: PyDict): Frame {
    Object(map f | f in reply :: PyToJs(reply[f]))
  }

  lemma {:induction false} PyTextIsDecoding(text: seq<Unit>)
    requires Decode16(text).Some?
    ensures PyText(text) == Decode16(text).value
  {
    if text != [] {
      if IsHigh(text[0]) {
        PyTextIsDecoding(text[2..]);
      } else {
        PyTextIsDecoding(text[1..]);
      }
    }
  }

  lemma {:induction false} AsciiText(text: seq<Unit>)
    requires forall i | 0 <= i < |text| :: text[i] <= 0x7E
    ensures PyText(text) == text && Encodable(text) && Utf16All(Scalars(text)) == text
  {
    if text != [] {
      var tail := text[1..];
      assert forall i | 0 <= i < |tail| :: tail[i] == text[i + 1];
      AsciiText(tail);
      assert [text[0]] + tail == text;
    }
  }

  lemma WordsAreAscii()
    ensures forall word | word in {DICTATION, RESULT, ERROR} :: forall i | 0 <= i < |word| :: word[i] <= 0x7E
  {
  }

  /** ASCII text is the same at both ends. */
  lemma TextCrosses(text: seq<Unit>)
    requires forall i | 0 <= i < |text| :: text[i] <= 0x7E
    ensures JsToPy(JsString(text)) == PyStr(text) && PyToJs(PyStr(text)) == JsString(text)
  {
    hide PyText, Utf16All, Encodable, Scalars;
    AsciiText(text);
  }

  lemma WordsCross()
    ensures JsToPy(JsString(DICTATION)) == PyStr(DICTATION)
    ensures PyToJs(PyStr(RESULT)) == JsString(RESULT) && PyToJs(PyStr(ERROR)) == JsString(ERROR)
  {
    hide DICTATION, RESULT, ERROR, JsToPy, PyToJs;
    WordsAreAscii();
    TextCrosses(DICTATION);
    TextCrosses(RESULT);
    TextCrosses(ERROR);
  }

  lemma ServerField(request: JsonObject, f: JsonField)
    ensures GetPy(ToServer(request).fields, f) == if f in request then JsToPy(request[f]) else PyNone
  {
    hide JsToPy;
  }

  lemma PhoneField(reply: PyDict, f: JsonField)
    ensures ToPhone(reply).Object? && Get(ToPhone(reply).fields, f) == if f in reply then PyToJs(reply[f]) else JsNull
  {
    hide PyToJs;
  }

  lemma RequestFields(id: seq<Unit>, transcript: seq<Unit>)
    requires BuildRequest(id, transcript).Some?
    ensures Decode16(transcript).Some? && IsServerRequestId(PyStr(id))
    ensures var fields := ToServer(BuildRequest(id, transcript).value).fields;
            && GetPy(fields, Version) == PyInt(PROTOCOL_VERSION) && GetPy(fields, Type) == PyStr(DICTATION)
            && GetPy(fields, Id) == PyStr(id) && GetPy(fields, Transcript) == PyStr(Decode16(transcript).value)
  {
    hide Decode16, DICTATION, PyText, Encodable, Utf16All, Utf8All, GetPy, ToServer;
    WordsCross();
    TextCrosses(id);
    PyTextIsDecoding(transcript);
    var request := BuildRequest(id, transcript).value;
    ServerField(request, Version);
    ServerField(request, Type);
    ServerField(request, Id);
    ServerField(request, Transcript);
  }

  /** Whatever the phone can send is accepted, and names the same request and the same text,
      unless the transcript is empty. */
  lemma RequestIsAccepted(id: seq<Unit>, transcript: seq<Unit>)
    requires BuildRequest(id, transcript).Some?
    ensures Decode16(transcript).Some?
    ensures ParseDictationMessage(ToServer(BuildRequest(id, transcript).value)) ==
              if transcript == [] then Rejected(INVALID_TRANSCRIPT, Some(id))
              else Accepted(DictationMessage(id, Decode16(transcript).value))
  {
    hide Decode16, DICTATION, INVALID_TRANSCRIPT, INVALID_TYPE, INVALID_REQUEST_ID, UNSUPPORTED_VERSION, BuildRequest, GetPy, IsServerRequestId;
    RequestFields(id, transcript);
    NonEmptyText(transcript);
  }

  lemma NonEmptyText(text: seq<Unit>)
    requires Decode16(text).Some?
    ensures Decode16(text).value == [] <==> text == []
  {
  }

  lemma NumberCrosses(n: int)
    ensures PyToJs(PyInt(n)) == JsNumber(n)
  {
  }

  lemma ResponseCrosses(success: Py, response: Py)
    ensures success.PyBool? ==> PyToJs(success) == JsBool(success.b)
    ensures response.PyStr? && Encodable(response.text) ==> PyToJs(response) == JsString(Utf16All(Scalars(response.text)))
  {
    hide Encodable, Scalars, Utf16All;
  }

  lemma ErrorFields(id: seq<CodePoint>, code: seq<CodePoint>)
    requires IsServerRequestId(PyStr(id)) && IsErrorCode(code)
    ensures var data := ToPhone(ErrorReply(id, code));
            && data.Object?
            && Get(data.fields, Version) == JsNumber(PROTOCOL_VERSION) && Get(data.fields, Type) == JsString(ERROR)
            && Get(data.fields, Id) == JsString(id) && Get(data.fields, Code) == JsString(code)
  {
    hide ERROR, Get, ToPhone, PyToJs, IsServerRequestId, IsErrorCode;
    WordsCross();
    IdCrosses(id);
    CodeCrosses(code);
    NumberCrosses(PROTOCOL_VERSION);
    var reply := ErrorReply(id, code);
    PhoneField(reply, Version);
    PhoneField(reply, Type);
    PhoneField(reply, Id);
    PhoneField(reply, Code);
  }

  /** A reply with an error code reaches the phone as a server error of that request. */
  lemma ErrorIsServerError(id: seq<CodePoint>, code: seq<CodePoint>)
    requires IsServerRequestId(PyStr(id)) && IsErrorCode(code)
    ensures Encodable(code) && ParseServerFrame(ToPhone(ErrorReply(id, code)), id) == ServerError(Utf16All(Scalars(code)))
  {
    hide Utf16All, ERROR, RESULT, Decode16, Encodable, Get, ToPhone, ErrorReply;
    AsciiText(code);
    ErrorFields(id, code);
  }

  lemma ResultValues(id: seq<CodePoint>, outcome: HandlerOutcome)
    requires IsServerRequestId(PyStr(id)) && IsValidResult(outcome)
    ensures ResultPayload(id, outcome).Some?
    ensures var data := ToPhone(ResultPayload(id, outcome).value);
            && data.Object?
            && Get(data.fields, Version) == JsNumber(PROTOCOL_VERSION) && Get(data.fields, Type) == JsString(RESULT)
            && Get(data.fields, Id) == JsString(id) && Get(data.fields, Success) == JsBool(outcome.success.b)
            && Get(data.fields, Response) == JsString(Utf16All(Scalars(outcome.response.text))) && Get(data.fields, Code) == JsNull
  {
    hide Utf16All, RESULT, Encodable, Scalars, Get, ToPhone, PyToJs, IsServerRequestId;
    WordsCross();
    IdCrosses(id);
    NumberCrosses(PROTOCOL_VERSION);
    ResponseCrosses(outcome.success, outcome.response);
    var reply := ResultPayload(id, outcome).value;
    PhoneField(reply, Version);
    PhoneField(reply, Type);
    PhoneField(reply, Id);
    PhoneField(reply, Code);
    PhoneField(reply, Success);
    PhoneField(reply, Response);
  }

  lemma CodeCrosses(code: seq<CodePoint>)
    requires IsErrorCode(code)
    ensures PyToJs(PyStr(code)) == JsString(code)
  {
    hide PyToJs;
    TextCrosses(code);
  }

  lemma IdCrosses(id: seq<CodePoint>)
    requires IsServerRequestId(PyStr(id))
    ensures PyToJs(PyStr(id)) == JsString(id)
  {
    hide PyToJs;
    TextCrosses(id);
  }

  lemma ResultIsResult(id: seq<CodePoint>, outcome: HandlerOutcome)
    requires IsServerRequestId(PyStr(id)) && IsValidResult(outcome)
    ensures ParseServerFrame(ToPhone(ResultPayload(id, outcome).value), id)
            == Result(outcome.success.b, Utf16All(Scalars(outcome.response.text)))
  {
    hide Utf16All, Utf8All, Decode16, ERROR, RESULT, Encodable, Scalars, Get, ToPhone, ResultPayload;
    Decode16Encode(Scalars(outcome.response.text));
    ResultValues(id, outcome);
    ResultDiffersFromError();
  }

  lemma ResultDiffersFromError()
    ensures RESULT != ERROR
  {
    assert |RESULT| == 6 && |ERROR| == 5;
  }

  /** Server and phone agree.  A frame causes one reply, unless it names no request or its handler is
      not done or was cancelled, and then none.  To the phone the reply is a result - exactly when
      the handler returned a valid one, and then with its flag and its text - or a server error;
      never a protocol error and never unrelated. */
  lemma ReplyIsUnderstood(frame: ServerFrame, outcome: HandlerOutcome)
    ensures match ParseDictationMessage(frame)
            case Rejected(_, None) => RepliesTo(frame, outcome) == []
            case Rejected(_, Some(id)) =>
              |RepliesTo(frame, outcome)| == 1 && ParseServerFrame(ToPhone(RepliesTo(frame, outcome)[0]), id).ServerError?
            case Accepted(message) =>
              if !Settles(outcome) then RepliesTo(frame, outcome) == []
              else
                && |RepliesTo(frame, outcome)| == 1
                && var parsed := ParseServerFrame(ToPhone(RepliesTo(frame, outcome)[0]), message.id);
                if IsValidResult(outcome) then parsed == Result(outcome.success.b, Utf16All(Scalars(outcome.response.text)))
                else parsed.ServerError?
  {
    hide ToPhone, ParseServerFrame, IsServerRequestId, IsErrorCode, ErrorReply;
    ParsedIsNamed(frame);
    CodesAreValid();
    match ParseDictationMessage(frame)
    case Rejected(code, id) =>
      if id.Some? {
        ErrorIsServerError(id.value, code);
      }
    case Accepted(message) =>
      if outcome.Raised? {
        ErrorIsServerError(message.id, HANDLER_ERROR);
      } else if IsValidResult(outcome) {
        ResultIsResult(message.id, outcome);
      } else if Settles(outcome) {
        ErrorIsServerError(message.id, INVALID_HANDLER_RESULT);
      }
  }

  /** Why a frame gets an error instead of its handler's result, in the words of the protocol. */
  function ErrorWord(frame: ServerFrame, outcome: HandlerOutcome): Option<string> {
    match frame
    case BinaryFrame => Some("unsupported_frame")
    case Undecodable => Some("invalid_json")
    case NotDict => Some("invalid_message")
    case DictFrame(fields) =>
      if Version !in fields || fields[Version] != PyInt(PROTOCOL_VERSION) then Some("unsupported_version")
      else if Type !in fields || fields[Type] != PyStr(DICTATION) then Some("invalid_type")
      else if Id !in fields || !IsServerRequestId(fields[Id]) then Some("invalid_request_id")
      else if Transcript !in fields || !fields[Transcript].PyStr? || fields[Transcript].text == [] then Some("invalid_transcript")
      else if outcome == Raised then Some("handler_error")
      else if !IsValidResult(outcome) then Some("invalid_handler_result")
      else None
  }

  /** A frame that is not accepted is rejected for the first thing wrong with it, and whatever error the
      phone hears is the one that names its cause. */
  lemma ErrorsNameTheirCause(frame: ServerFrame, outcome: HandlerOutcome)
    ensures ParseDictationMessage(frame).Rejected? ==>
              ErrorWord(frame, outcome).Some? && ParseDictationMessage(frame).code == Ascii(ErrorWord(frame, outcome).value)
    ensures RepliesTo(frame, outcome) != [] && ErrorWord(frame, outcome).Some? ==>
              var id := match ParseDictationMessage(frame) case Accepted(message) => message.id case Rejected(_, Some(id)) => id case _ => [];
              && IsRequestId(id)
              && ParseServerFrame(ToPhone(RepliesTo(frame, outcome)[0]), id) == ServerError(Ascii(ErrorWord(frame, outcome).value))
    ensures RepliesTo(frame, outcome) != [] && ErrorWord(frame, outcome).None? ==> IsValidResult(outcome)
  {
    hide ToPhone, ParseServerFrame, Ascii, ErrorReply, IsErrorCode, ParseDictationMessage, IsValidResult;
    ParsedIsNamed(frame);
    CodesAreValid();
    RejectedWord(frame, outcome);
    match ParseDictationMessage(frame)
    case Rejected(code, id) =>
      if id.Some? {
        ErrorIsHeard(id.value, code);
      }
    case Accepted(message) =>
      if outcome.Raised? {
        ErrorIsHeard(message.id, HANDLER_ERROR);
      } else if Settles(outcome) && !IsValidResult(outcome) {
        InvalidPayload(message.id, outcome);
        ErrorIsHeard(message.id, INVALID_HANDLER_RESULT);
      }
  }

  lemma InvalidPayload(id: seq<CodePoint>, outcome: HandlerOutcome)
    requires !IsValidResult(outcome)
    ensures ResultPayload(id, outcome) == None
  {
    hide IsValidResult;
  }

  lemma RejectedWord(frame: ServerFrame, outcome: HandlerOutcome)
    ensures match ParseDictationMessage(frame)
            case Rejected(code, _) => ErrorWord(frame, outcome).Some? && code == Ascii(ErrorWord(frame, outcome).value)
            case Accepted(_) =>
              ErrorWord(frame, outcome) == if outcome == Raised then Some("handler_error")
                                           else if !IsValidResult(outcome) then Some("invalid_handler_result") else None
  {
    hide Ascii, IsValidResult;
    match frame
    case BinaryFrame => assert UNSUPPORTED_FRAME == Ascii("unsupported_frame");
    case Undecodable => assert INVALID_JSON == Ascii("invalid_json");
    case NotDict => assert INVALID_MESSAGE == Ascii("invalid_message");
    case DictFrame(fields) =>
      if GetPy(fields, Version) != PyInt(PROTOCOL_VERSION) {
        assert UNSUPPORTED_VERSION == Ascii("unsupported_version");
      } else if GetPy(fields, Type) != PyStr(DICTATION) {
        assert INVALID_TYPE == Ascii("invalid_type");
      } else if !IsServerRequestId(GetPy(fields, Id)) {
        assert INVALID_REQUEST_ID == Ascii("invalid_request_id");
      } else {
        assert INVALID_TRANSCRIPT == Ascii("invalid_transcript");
      }
  }

  lemma ErrorIsHeard(id: seq<CodePoint>, code: seq<CodePoint>)
    requires IsServerRequestId(PyStr(id)) && IsErrorCode(code)
    ensures IsRequestId(id) && ParseServerFrame(ToPhone(ErrorReply(id, code)), id) == ServerError(code)
  {
    hide ToPhone, ParseServerFrame, ErrorReply, Utf16All, Scalars, Encodable;
    ErrorIsServerError(id, code);
    AsciiText(code);
  }

  /** The two ends measure a response alike: the server lets a string through exactly when the
      phone would accept it as a response. */
  lemma LimitsCoincide(text: seq<CodePoint>, success: bool)
    ensures IsValidResult(ReturnedResult(PyBool(success), PyStr(text))) <==> Encodable(text) && IsResponse(Utf16All(Scalars(text)))
  {
    hide Utf16All, Utf8All, Decode16;
    if Encodable(text) {
      Decode16Encode(Scalars(text));
    }
  }

  // ---- Each end accepts exactly what the other builds ----

  /** The fields of `part` are all present, with the same values. */
  ghost predicate Carries<V>(whole: map<JsonField, V>, part: map<JsonField, V>) {
    forall f | f in part :: f in whole && whole[f] == part[f]
  }

  /** The fields of the result that the server builds for a flag and a text. */
  function ResultFields(id: seq<CodePoint>, success: bool, vs: seq<Scalar>): JsonObject
    requires IsServerRequestId(PyStr(id)) && Bytes(vs) <= MAX_RESPONSE_BYTES
  {
    ScalarsAreEncodable(vs);
    ToPhone(ResultPayload(id, ReturnedResult(PyBool(success), PyStr(vs))).value).fields
  }

  lemma ScalarsAreEncodable(vs: seq<Scalar>)
    ensures Encodable(vs) && Scalars(vs) == vs
  {
  }

  lemma ResultFieldsAre(id: seq<CodePoint>, success: bool, vs: seq<Scalar>)
    requires IsServerRequestId(PyStr(id)) && Bytes(vs) <= MAX_RESPONSE_BYTES
    ensures ResultFields(id, success, vs) == map[Version := JsNumber(PROTOCOL_VERSION), Type := JsString(RESULT), Id := JsString(id),
                                                 Success := JsBool(success), Response := JsString(Utf16All(vs))]
  {
    hide Utf16All, Utf8All, RESULT, Encodable, Scalars, PyToJs, IsServerRequestId;
    ScalarsAreEncodable(vs);
    WordsCross();
    IdCrosses(id);
    NumberCrosses(PROTOCOL_VERSION);
    ResponseCrosses(PyBool(success), PyStr(vs));
  }

  /** The phone takes a frame as a result exactly when it carries the fields of a result that the
      server could have built. */
  lemma ResultFramesAreServerResults(data: Frame, id: seq<CodePoint>, success: bool, vs: seq<Scalar>)
    requires IsServerRequestId(PyStr(id)) && Bytes(vs) <= MAX_RESPONSE_BYTES
    ensures ParseServerFrame(data, id) == Result(success, Utf16All(vs)) <==> data.Object? && Carries(data.fields, ResultFields(id, success, vs))
  {
    hide Utf16All, Utf8All, Decode16, RESULT, ERROR, ResultFields;
    ResultFieldsAre(id, success, vs);
    ResultDiffersFromError();
    Decode16Encode(vs);
    var part := ResultFields(id, success, vs);
    if data.Object? && Carries(data.fields, part) {
      assert forall f | f in part :: Get(data.fields, f) == part[f];
    }
    if ParseServerFrame(data, id) == Result(success, Utf16All(vs)) {
      assert forall f | f in part :: Get(data.fields, f) == part[f];
    }
  }

  /** A response with U+0000 is a result to the phone, which forwards it although the watch will refuse it. */
  lemma NulIsAResult(id: seq<CodePoint>, success: bool)
    requires IsServerRequestId(PyStr(id))
    ensures Bytes([0]) <= MAX_RESPONSE_BYTES
    ensures ParseServerFrame(Object(ResultFields(id, success, [0])), id) == Result(success, [0])
  {
    hide ResultFields;
    ResultFramesAreServerResults(Object(ResultFields(id, success, [0])), id, success, [0]);
    assert Utf16All([0]) == Utf16(0) + Utf16All([]);
  }

  /** The fields are those of a request that the phone could have built. */
  ghost predicate FromPhone(fields: PyDict) {
    exists id, text :: BuildRequest(id, text).Some? && Carries(fields, ToServer(BuildRequest(id, text).value).fields)
  }

  lemma RequestFieldsCarried(fields: PyDict, id: seq<Unit>, text: seq<Unit>)
    requires BuildRequest(id, text).Some? && Decode16(text).Some?
    ensures Carries(fields, ToServer(BuildRequest(id, text).value).fields)
            <==> && GetPy(fields, Version) == PyInt(PROTOCOL_VERSION) && GetPy(fields, Type) == PyStr(DICTATION)
                 && GetPy(fields, Id) == PyStr(id) && GetPy(fields, Transcript) == PyStr(Decode16(text).value)
  {
    hide Decode16, DICTATION, Utf16All, Utf8All;
    RequestFields(id, text);
    var part := ToServer(BuildRequest(id, text).value).fields;
    assert forall f | f in part :: part[f] == GetPy(part, f) && f in {Version, Type, Id, Transcript};
    if Carries(fields, part) {
      assert forall f | f in part :: GetPy(fields, f) == part[f];
    }
  }

  lemma EncodableIsBuilt(message: DictationMessage)
    requires IsServerRequestId(PyStr(message.id)) && message.transcript != [] && Encodable(message.transcript)
    ensures var text := Utf16All(Scalars(message.transcript));
            BuildRequest(message.id, text).Some? && Decode16(text) == Some(Scalars(message.transcript))
  {
    hide Utf16All, Utf8All, Decode16;
    Decode16Encode(Scalars(message.transcript));
  }

  /** Of the requests that the server accepts, exactly those with an encodable transcript are ones
      that the phone could have built. */
  lemma AcceptedIsFromPhoneIff(fields: PyDict)
    requires ParseDictationMessage(DictFrame(fields)).Accepted?
    ensures FromPhone(fields) <==> Encodable(ParseDictationMessage(DictFrame(fields)).message.transcript)
  {
    hide Utf16All, Utf8All, Decode16, DICTATION, INVALID_TRANSCRIPT, INVALID_TYPE, INVALID_REQUEST_ID, UNSUPPORTED_VERSION, BuildRequest,
         Carries, Encodable;
    var message := ParseDictationMessage(DictFrame(fields)).message;
    ParsedIsNamed(DictFrame(fields));
    if Encodable(message.transcript) {
      var text := Utf16All(Scalars(message.transcript));
      EncodableIsBuilt(message);
      RequestFieldsCarried(fields, message.id, text);
    }
    if FromPhone(fields) {
      var id, text :| BuildRequest(id, text).Some? && Carries(fields, ToServer(BuildRequest(id, text).value).fields);
      RequestFields(id, text);
      RequestFieldsCarried(fields, id, text);
      ScalarsAreEncodable(Decode16(text).value);
    }
  }

  /** "The server accepts only what the phone can send" is false: a lone surrogate. */
  lemma LoneSurrogateIsAccepted()
    ensures var fields := LETTER_REQUEST.fields[Transcript := PyStr([0xD800])];
            && ParseDictationMessage(DictFrame(fields)) == Accepted(DictationMessage([0x61], [0xD800]))
            && !FromPhone(fields)
  {
    var fields := LETTER_REQUEST.fields[Transcript := PyStr([0xD800])];
    AcceptedIsFromPhoneIff(fields);
    assert IsSurrogate([0xD800][0]);
  }

  /** The converse: what the phone could have built is accepted, unless its transcript is empty. */
  lemma FromPhoneIsAccepted(fields: PyDict, id: seq<Unit>, text: seq<Unit>)
    requires BuildRequest(id, text).Some? && Carries(fields, ToServer(BuildRequest(id, text).value).fields) && text != []
    ensures Decode16(text).Some?
    ensures ParseDictationMessage(DictFrame(fields)) == Accepted(DictationMessage(id, Decode16(text).value))
  {
    hide Decode16, DICTATION, INVALID_TRANSCRIPT, INVALID_TYPE, INVALID_REQUEST_ID, UNSUPPORTED_VERSION, BuildRequest, Carries, ToServer,
         GetPy, IsServerRequestId;
    RequestFields(id, text);
    RequestFieldsCarried(fields, id, text);
    NonEmptyText(text);
  }

  const LETTER_REQUEST := DictFrame(map[Version := PyInt(PROTOCOL_VERSION), Type := PyStr(DICTATION), Id := PyStr([0x61]),
                                        Transcript := PyStr([0x61])])

  // ---- One application response per exchange ----

  datatype Future = Pending | Resolved(success: Py, response: Py) | CancelledFuture

  class DictationExchange {
    const message: DictationMessage
    var response: Future

    constructor (message: DictationMessage)
      ensures this.message == message && response == Pending
    {
      this.message := message;
      response := Pending;
    }

    /** False is a raised RuntimeError. */
    method Respond(success: Py, text: Py) returns (ok: bool)
      modifies this
      ensures ok == (old(response) == Pending)
      ensures response == AfterCall(old(response), RespondCall(success, text))
    {
      if response != Pending {
        return false;
      }
      response := Resolved(success, text);
      return true;
    }

    method Cancel()
      modifies this
      ensures response == AfterCall(old(response), CancelCall)
    {
      if response == Pending {
        response := CancelledFuture;
      }
    }
  }

  datatype ExchangeCall = RespondCall(success: Py, response: Py) | CancelCall

  function AfterCall(f: Future, call: ExchangeCall): Future {
    if f != Pending then f
    else match call case CancelCall => CancelledFuture case RespondCall(success, response) => Resolved(success, response)
  }

  function AfterCalls(f: Future, calls: seq<ExchangeCall>): Future
    decreases |calls|
  {
    if calls == [] then f else AfterCalls(AfterCall(f, calls[0]), calls[1..])
  }

  /** Whatever the application does, its first call decides the exchange. */
  lemma {:induction false} FirstCallDecides(f: Future, calls: seq<ExchangeCall>)
    ensures AfterCalls(f, calls) == if calls == [] then f else AfterCall(f, calls[0])
    decreases |calls|
  {
    if calls != [] {
      FirstCallDecides(AfterCall(f, calls[0]), calls[1..]);
    }
  }

  /** How a handler ends that waits for its exchange. */
  function OutcomeOf(f: Future): HandlerOutcome {
    match f
    case Pending => Unfinished
    case Resolved(success, response) => ReturnedResult(success, response)
    case CancelledFuture => Escaped
  }

  /** A request that an exchange answers causes a reply if and only if the application's first call
      is `respond`, and then one reply, which is the one to the arguments of that call, whatever
      is called later.  A first call that cancels leaves the request without any reply. */
  lemma ExchangeRepliesIff(frame: ServerFrame, calls: seq<ExchangeCall>)
    requires ParseDictationMessage(frame).Accepted?
    ensures var message := ParseDictationMessage(frame).message;
            && IsServerRequestId(PyStr(message.id))
            && RepliesTo(frame, OutcomeOf(AfterCalls(Pending, calls)))
               == if calls != [] && calls[0].RespondCall? then [ReplyTo(message, ReturnedResult(calls[0].success, calls[0].response))] else []
  {
    hide ParseDictationMessage, ReplyTo, IsServerRequestId;
    ParsedIsNamed(frame);
    FirstCallDecides(Pending, calls);
  }

  /** "Each accepted request gets one reply" is false: the iteration over the exchanges is closed
      while this request is pending, the exception leaves the bridge, and nothing is sent. */
  method CancelledExchange() returns (bridge: DictationWebSocketBridge, exchange: DictationExchange, end: Ending)
    ensures fresh(bridge) && fresh(exchange)
    ensures ParseDictationMessage(LETTER_REQUEST) == Accepted(exchange.message)
    ensures exchange.response == CancelledFuture && end == Propagated
    ensures bridge.attempts == [] && bridge.closes == [] && bridge.lastError == NoBridgeError
    ensures bridge.lastSession != null && bridge.lastSession.message == exchange.message && bridge.lastSession.state == Dispatching
  {
    bridge := new DictationWebSocketBridge();
    exchange := new DictationExchange(DictationMessage([0x61], [0x61]));
    exchange.Cancel();
    end := bridge.HandleFrame(LETTER_REQUEST, OutcomeOf(exchange.response), Delivered);
  }
}
