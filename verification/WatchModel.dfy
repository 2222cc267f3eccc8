/** The watch application as a state machine: one function per callback, each a transition of
    the single application record.  `captured` and `log` are history: the transcript once it
    is planned, and every message handed to the outbox. */
module WatchModel {
  import opened Unicode
  import opened Messages
  import opened WatchCodec

  datatype AppState = Initializing | Dictating | Bridging | DisplayingResult | Error

  datatype LinkState =
    | Idle | SessionBeginPending | Ready | Transferring | AwaitingSendStart
    | AwaitingResult | ReceivingResult | Complete | Failed

  datatype LinkError = NoLinkError | Connectivity | LinkProtocol | LinkTransfer | SendStartTimeout | ResultTransferTimeout

  datatype ServerState = ServerIdle | Preparing | ServerAwaitingResult | ServerComplete | ServerFailed

  datatype ServerLinkError = NoServerError | ServerProtocol | ServerReported | ServerResultTimeout | ServerRequestTimeout

  datatype Outbox = OutboxNone | OutboxSessionBegin | OutboxTranscriptChunk | OutboxSessionEnd

  /** Which watchdog timers are armed. */
  datatype Timers = Timers(sendStart: bool, resultChunk: bool, request: bool)

  const DISARMED := Timers(false, false, false)

  /** The transcript buffer (empty when freed) and the progress through it. */
  datatype Outgoing = Outgoing(text: seq<Byte>, capacity: nat, count: nat, index: nat, offset: nat, inFlight: nat)

  const NO_OUTGOING := Outgoing([], 0, 0, 0, 0, 0)

  /** The response buffer (`None` when freed), as far as it is filled, and its metadata. */
  datatype Incoming = Incoming(buffer: Option<seq<Byte>>, count: nat, next: nat, total: nat, success: bool)

  const NO_INCOMING := Incoming(None, 0, 0, 0, false)

  datatype Watch = Watch(
    id: seq<Byte>, outboxSize: nat,
    app: AppState, status: nat,
    link: LinkState, linkError: LinkError, server: ServerState, serverError: ServerLinkError,
    timers: Timers, exitTimer: bool, statusPending: bool, exited: bool,
    outbox: Outbox, out: Outgoing, inc: Incoming,
    ready: bool, beginDelivered: bool, endPending: bool, dictationActive: bool,
    captured: Option<seq<Byte>>, log: seq<WatchMsg>)

  datatype SendResult = Sent | NotConnected | Refused

  /** What the platform answers while one callback runs. */
  datatype Env = Env(
    send: SendResult,       // the outbox accepts a session begin or a transcript chunk
    sendEnd: bool,          // the outbox accepts a session end
    memory: bool,           // malloc succeeds
    timerArmed: bool,       // a watchdog timer can be registered
    exitTimerArmed: bool,   // the exit timer of an error display can be registered
    resultShown: bool,      // the dialog can show the result
    resultTimerArmed: bool, // the exit timer of a displayed result can be registered
    statusAtOnce: bool)     // a status becomes visible within the call instead of after an animation

  // ---- Failure ----

  function LinkStatus(error: LinkError): nat {
    match error
    case Connectivity => STATUS_PHONE_CONNECTIVITY
    case LinkProtocol => STATUS_PROTOCOL
    case SendStartTimeout => STATUS_TRANSCRIPT_DELIVERY_TIMEOUT
    case ResultTransferTimeout => STATUS_RESULT_TRANSFER_TIMEOUT
    case _ => STATUS_TRANSFER
  }

  function ServerStatus(error: ServerLinkError): nat {
    match error
    case ServerProtocol => STATUS_PROTOCOL
    case ServerResultTimeout => STATUS_SERVER_RESULT_TIMEOUT
    case ServerRequestTimeout => STATUS_WS_REQUEST_TIMEOUT
    case _ => STATUS_SERVER
  }

  function TrySendEnd(s: Watch, env: Env): Watch {
    if !s.endPending || !s.ready || s.outbox != OutboxNone then s
    else if !env.sendEnd then s.(endPending := false)
    else s.(endPending := false, outbox := OutboxSessionEnd, log := s.log + [EndMsg(s.id, s.status)])
  }

  /** The error status is on screen: the exit timer starts, or the application leaves at once. */
  function StatusVisible(s: Watch, env: Env): Watch {
    if s.app != Error then s
    else if env.exitTimerArmed then s.(exitTimer := true)
    else s.(exitTimer := false, exited := true)
  }

  function ShowErrorStatus(s: Watch, env: Env): Watch {
    if env.statusAtOnce then StatusVisible(s.(statusPending := false), env) else s.(statusPending := true)
  }

  /** An animation that is stopped before its end drops the completion that was pending. */
  function DropStatus(s: Watch): Watch { s.(statusPending := false) }

  /** A progress status replaces whatever is shown, and the completion that was pending with it. */
  function ShowProgress(s: Watch): Watch { s.(statusPending := false) }

  function Fail(s: Watch, status: nat, env: Env): Watch {
    if s.app == Error || s.app == DisplayingResult then s
    else
      var t := s.(app := Error, status := status, timers := DISARMED, dictationActive := false,
                  out := NO_OUTGOING, inc := NO_INCOMING, endPending := true);
      ShowErrorStatus(TrySendEnd(t, env), env)
  }

  function LinkFail(s: Watch, error: LinkError, env: Env): Watch {
    Fail(s.(link := Failed, linkError := error), LinkStatus(error), env)
  }

  function ServerFail(s: Watch, error: ServerLinkError, env: Env): Watch {
    Fail(s.(server := ServerFailed, serverError := error), ServerStatus(error), env)
  }

  // ---- Sending the transcript ----

  /** What is left of the transcript from the current offset. */
  function Rest(o: Outgoing): seq<Byte> {
    if o.offset <= |o.text| then o.text[o.offset..] else []
  }

  function SendNextChunk(s: Watch, env: Env): Watch {
    if s.app != Bridging || s.link != Transferring || !s.beginDelivered || s.outbox != OutboxNone then s
    else
      var n := NextLen(Rest(s.out), s.out.capacity);
      if n == 0 then Fail(s, STATUS_TRANSFER, env)
      else if !s.ready then LinkFail(s, LinkTransfer, env)
      else
        match env.send
        case NotConnected => LinkFail(s, Connectivity, env)
        case Refused => LinkFail(s, LinkTransfer, env)
        case Sent =>
          s.(out := s.out.(inFlight := n), outbox := OutboxTranscriptChunk,
             log := s.log + [ChunkMsg(s.id, s.out.index, s.out.count, |s.out.text|, CString(Rest(s.out)[..n]))])
  }

  datatype DictationStatus = Success | Rejected | NoSpeech | ConnectivityError | OtherFailure

  function DictationFailure(status: DictationStatus): nat {
    match status
    case Rejected => STATUS_CANCELLED
    case NoSpeech => STATUS_NO_SPEECH
    case ConnectivityError => STATUS_PHONE_CONNECTIVITY
    case _ => STATUS_DICTATION
  }

  function DictationEnded(s0: Watch, status: DictationStatus, transcription: Option<seq<Byte>>, env: Env): Watch {
    var s := s0.(dictationActive := false);
    if s.app != Dictating then s
    else if status != Success then Fail(s, DictationFailure(status), env)
    else if transcription.None? || CString(transcription.value) == [] then Fail(s, STATUS_NO_SPEECH, env)
    else if !env.memory then Fail(s, STATUS_TRANSFER, env)
    else
      var text := CString(transcription.value);
      match Prepare(text, s.outboxSize)
      case None => Fail(s, STATUS_TRANSFER, env)
      case Some(plan) =>
        var t := s.(out := Outgoing(text, plan.capacity, |plan.chunks|, 0, 0, 0), captured := Some(text),
                    app := Bridging, link := Transferring);
        SendNextChunk(ShowProgress(t), env)
  }

  function OutboxSent(s0: Watch, env: Env): Watch {
    var s := s0.(outbox := OutboxNone);
    if s.app == Error then TrySendEnd(s, env)
    else
      match s0.outbox
      case OutboxSessionBegin =>
        SendNextChunk(s.(beginDelivered := true, link := if s.link == SessionBeginPending then Ready else s.link), env)
      case OutboxTranscriptChunk =>
        if s.app != Bridging || s.link != Transferring then LinkFail(s, LinkProtocol, env)
        else
          var o := s.out.(offset := s.out.offset + s.out.inFlight, index := s.out.index + 1, inFlight := 0);
          if o.index < o.count then SendNextChunk(s.(out := o), env)
          else
            var t := s.(out := NO_OUTGOING, link := AwaitingSendStart);
            if env.timerArmed then t.(timers := t.timers.(sendStart := true)) else LinkFail(t, LinkTransfer, env)
      case _ => s
  }

  function OutboxFailed(s0: Watch, notConnected: bool, env: Env): Watch {
    var s := s0.(outbox := OutboxNone);
    if s.app == Error then
      if s0.outbox != OutboxSessionEnd then TrySendEnd(s, env) else s
    else LinkFail(s, if notConnected then Connectivity else LinkTransfer, env)
  }

  // ---- Receiving ----

  function ToUint32(d: Dict, key: Key): Option<nat> {
    if key !in d then None
    else
      match d[key]
      case UIntTuple(width, v) => if width == 1 || width == 2 || width == 4 then Some(v) else None
      case IntTuple(width, v) => if (width == 1 || width == 2 || width == 4) && v >= 0 then Some(v) else None
      case _ => None
  }

  /** The request identifier tuple is the watch's own, terminator included. */
  predicate IdMatches(s: Watch, d: Dict) {
    RequestId in d && d[RequestId] == CStringTuple(s.id + [0])
  }

  datatype ResultChunk = ResultChunk(index: nat, count: nat, total: nat, success: bool, text: seq<Byte>)

  /** Validation of one result chunk on its own. */
  function ReadResultChunk(d: Dict): (r: Option<ResultChunk>)
    ensures r.Some? ==>
              r.value.index < r.value.count && r.value.total <= MAX_RESPONSE_BYTES && Decode8(r.value.text).Some?
  {
    match (ToUint32(d, ChunkIndex), ToUint32(d, ChunkCount), ToUint32(d, TotalBytes), ToUint32(d, ServerSuccess))
    case (Some(index), Some(count), Some(total), Some(success)) =>
      if ChunkText !in d || !d[ChunkText].CStringTuple? || d[ChunkText].data == []
         || count == 0 || index >= count || success > 1 || total > MAX_RESPONSE_BYTES then None
      else
        var text := CString(d[ChunkText].data);
        if |text| != |d[ChunkText].data| - 1 || Decode8(text).None? then None
        else Some(ResultChunk(index, count, total, success == 1, text))
    case _ => None
  }

  /** The first chunk fixes the metadata; every later one must repeat it. */
  function OpenResult(s: Watch, c: ResultChunk, env: Env): (Watch, bool) {
    if s.link == AwaitingResult then
      if c.index != 0 then (s, false)
      else if !env.memory then (s.(linkError := LinkTransfer), false)
      else
        (s.(inc := Incoming(Some([]), c.count, s.inc.next, c.total, c.success),
            link := ReceivingResult, server := ServerComplete, timers := s.timers.(request := false)), true)
    else (s, c.count == s.inc.count && c.total == s.inc.total && c.success == s.inc.success)
  }

  function ShowResult(s: Watch, env: Env): (Watch, bool) {
    if !env.resultShown || !env.resultTimerArmed then (s, false)
    else (s.(exitTimer := true, app := DisplayingResult), true)
  }

  function FinishResult(s: Watch, env: Env): (Watch, bool) {
    var (t, shown) := ShowResult(s.(link := Complete, timers := s.timers.(resultChunk := false)), env);
    if shown then (t, true) else (t.(linkError := LinkTransfer), false)
  }

  function AwaitMoreResult(s: Watch, env: Env): (Watch, bool) {
    if env.timerArmed then (s.(timers := s.timers.(resultChunk := true)), true)
    else (s.(timers := s.timers.(resultChunk := false), linkError := LinkTransfer), false)
  }

  function StoreChunk(s: Watch, c: ResultChunk, env: Env): (Watch, bool) {
    var have := if s.inc.buffer.Some? then s.inc.buffer.value else [];
    if c.index != s.inc.next || |have| + |c.text| > s.inc.total then (s, false)
    else
      var inc := s.inc.(buffer := Some(have + c.text), next := s.inc.next + 1);
      var t := s.(inc := inc);
      if inc.next == inc.count then
        if |have + c.text| != inc.total then (t, false) else FinishResult(t, env)
      else if |have + c.text| >= inc.total then (t, false)
      else AwaitMoreResult(t, env)
  }

  function ReceiveResultChunk(s: Watch, d: Dict, env: Env): (Watch, bool) {
    if s.app != Bridging || (s.link != AwaitingResult && s.link != ReceivingResult) then (s, false)
    else
      match ReadResultChunk(d)
      case None => (s, false)
      case Some(c) =>
        var (t, begun) := OpenResult(s, c, env);
        if begun then StoreChunk(t, c, env) else (t, false)
  }

  function ReceiveSendStarted(s: Watch, env: Env): Watch {
    if s.app != Bridging || s.link != AwaitingSendStart || s.server != Preparing then LinkFail(s, LinkProtocol, env)
    else
      var t := s.(timers := s.timers.(sendStart := false), link := AwaitingResult, server := ServerAwaitingResult);
      // The failure is followed by the progress status as well: nothing returns in between.
      ShowProgress(if env.timerArmed then t.(timers := t.timers.(request := true)) else LinkFail(t, LinkTransfer, env))
  }

  function ReceiveFailure(s: Watch, d: Dict, env: Env): Watch {
    match ToUint32(d, StatusCode)
    case None => LinkFail(s, LinkProtocol, env)
    case Some(status) =>
      if status == STATUS_SERVER then ServerFail(s, ServerReported, env)
      else if status == STATUS_SERVER_RESULT_TIMEOUT then ServerFail(s, ServerResultTimeout, env)
      else if status == STATUS_PHONE_CONNECTIVITY then LinkFail(s, Connectivity, env)
      else if status == STATUS_PROTOCOL then
        if s.server == ServerAwaitingResult then ServerFail(s, ServerProtocol, env) else LinkFail(s, LinkProtocol, env)
      else if status == STATUS_TRANSFER then LinkFail(s, LinkTransfer, env)
      else LinkFail(s, LinkProtocol, env)
  }

  function InboxReceived(s: Watch, d: Dict, env: Env): Watch {
    if s.app == Error || s.app == DisplayingResult then s
    else if RequestId !in d then Fail(s, STATUS_PROTOCOL, env)
    else if !IdMatches(s, d) then s
    else if ToUint32(d, ProtocolVersion) != Some(PROTOCOL_VERSION) || ToUint32(d, MessageType).None? then
      Fail(s, STATUS_PROTOCOL, env)
    else
      var kind := ToUint32(d, MessageType).value;
      if kind == SEND_STARTED then ReceiveSendStarted(s, env)
      else if kind == SERVER_RESULT_CHUNK then
        var (t, accepted) := ReceiveResultChunk(s, d, env);
        if accepted then t else LinkFail(t, if t.linkError == NoLinkError then LinkProtocol else t.linkError, env)
      else if kind == FAILURE then ReceiveFailure(s, d, env)
      else LinkFail(s, LinkProtocol, env)
  }

  // ---- Timers and buttons ----

  function TranscriptDeliveryTimeout(s: Watch, env: Env): Watch {
    LinkFail(s.(timers := s.timers.(sendStart := false)), SendStartTimeout, env)
  }

  function WsRequestTimeout(s: Watch, env: Env): Watch {
    ServerFail(s.(timers := s.timers.(request := false)), ServerRequestTimeout, env)
  }

  function ResultChunkTimeout(s: Watch, env: Env): Watch {
    LinkFail(s.(timers := s.timers.(resultChunk := false)), ResultTransferTimeout, env)
  }

  function ExitAfterError(s: Watch): Watch { s.(exitTimer := false, exited := true) }

  function BackClick(s: Watch, env: Env): Watch {
    if s.app != Error && s.app != DisplayingResult then Fail(s, STATUS_CANCELLED, env) else s
  }

  function CancelResultTimeout(s: Watch): Watch {
    if s.app == DisplayingResult then s.(exitTimer := false) else s
  }

  function ResultBackClick(s: Watch): Watch {
    if s.app == DisplayingResult then CancelResultTimeout(s).(exited := true) else s
  }

  // ---- Events ----

  datatype Event =
    | Dictation(result: DictationStatus, transcription: Option<seq<Byte>>)
    | OutboxSentEvent
    | OutboxFailedEvent(notConnected: bool)
    | Inbox(dict: Dict)
    | InboxDropped
    | SendStartExpired
    | RequestExpired
    | ResultChunkExpired
    | StatusShown
    | StatusDropped
    | ExitExpired
    | Back
    | ResultButton
    | ResultBack

  /** A callback runs only if what it reports is outstanding. */
  predicate Enabled(s: Watch, e: Event) {
    && !s.exited
    && match e
       case Dictation(_, _) => s.dictationActive
       case OutboxSentEvent => s.outbox != OutboxNone
       case OutboxFailedEvent(_) => s.outbox != OutboxNone
       case SendStartExpired => s.timers.sendStart
       case RequestExpired => s.timers.request
       case ResultChunkExpired => s.timers.resultChunk
       case StatusShown => s.statusPending
       case StatusDropped => s.statusPending
       case ExitExpired => s.exitTimer
       case _ => true
  }

  function Step(s: Watch, e: Event, env: Env): Watch {
    match e
    case Dictation(result, transcription) => DictationEnded(s, result, transcription, env)
    case OutboxSentEvent => OutboxSent(s, env)
    case OutboxFailedEvent(notConnected) => OutboxFailed(s, notConnected, env)
    case Inbox(d) => InboxReceived(s, d, env)
    case InboxDropped => LinkFail(s, LinkTransfer, env)
    case SendStartExpired => TranscriptDeliveryTimeout(s, env)
    case RequestExpired => WsRequestTimeout(s, env)
    case ResultChunkExpired => ResultChunkTimeout(s, env)
    case StatusShown => StatusVisible(s.(statusPending := false), env)
    case StatusDropped => DropStatus(s)
    case ExitExpired => ExitAfterError(s)
    case Back => BackClick(s, env)
    case ResultButton => CancelResultTimeout(s)
    case ResultBack => ResultBackClick(s)
  }

  /** What the platform answers during initialization, beyond the window itself. */
  datatype Launch = Launch(open: SendResult, dictationCreated: bool, dictationStarted: bool, env: Env)

  function Blank(id: seq<Byte>): Watch {
    Watch(id, 0, Initializing, STATUS_NORMAL, Idle, NoLinkError, ServerIdle, NoServerError,
          DISARMED, false, false, false, OutboxNone, NO_OUTGOING, NO_INCOMING,
          false, false, false, false, None, [])
  }

  function Init(id: seq<Byte>, outboxSize: nat, launch: Launch): Watch {
    var s := Blank(id).(outboxSize := outboxSize);
    if launch.open == NotConnected then Fail(s, STATUS_PHONE_CONNECTIVITY, launch.env)
    else if launch.open == Refused then Fail(s, STATUS_TRANSFER, launch.env)
    else
      var ready := s.(ready := true);
      if !launch.dictationCreated then Fail(ready, STATUS_DICTATION, launch.env)
      else
        var t := ready.(app := Dictating, link := SessionBeginPending, server := Preparing);
        match launch.env.send
        case NotConnected => Fail(t, STATUS_PHONE_CONNECTIVITY, launch.env)
        case Refused => Fail(t, STATUS_TRANSFER, launch.env)
        case Sent =>
          var u := t.(outbox := OutboxSessionBegin, log := [BeginMsg(id)]);
          if !launch.dictationStarted then Fail(u, STATUS_DICTATION, launch.env)
          else u.(dictationActive := true)
  }
}
