/** PebbleKit JS as a state machine: the AppMessage transport, every request session with its
    two bridges, and the dispatcher.  Callbacks are data (`Done`, session indices), so a call
    that re-enters the transport or a session is an ordinary nested call here. */
module PhoneModel {
  import opened Unicode
  import opened Messages
  import opened Protocol

  // ---- One session: watch bridge, socket bridge, coordinator ----

  datatype WatchSide = ReceivingTranscript | TranscriptReady | ForwardingResult | WatchComplete | WatchFailed | WatchClosed

  datatype SocketSide = SocketIdle | Connecting | SocketReady | Sending | AwaitingFrame | SocketComplete | SocketFailed | SocketClosed

  datatype SocketError = ServerFailure | ProtocolFailure | SendFailure | HandoffTimeout | ResultTimeout

  datatype SocketEvent = SendStarted | ResultEvent(success: bool, response: seq<Unit>) | FailureEvent(error: SocketError)

  datatype SessionState = Receiving | WaitingToSend | AwaitingResult | ForwardingTerminal | Closed

  /** History: how the session ended, as the coordinator decided it. */
  datatype Outcome = NoOutcome | FailedWith(status: nat) | Forwarded(success: bool, response: seq<Unit>)

  /** `socket` is the ready state of the attached WebSocket.  `sends` (arguments of `socket.send`),
      `emitted` (events of the socket bridge), `accepted` (the frame taken as the result) and
      `outcome` are history. */
  datatype Session = Session(
    id: seq<Unit>, state: SessionState, terminal: bool,
    watch: WatchSide, assembler: Assembler,
    side: SocketSide, socket: Option<nat>, transcript: Option<seq<Unit>>, pending: seq<Frame>,
    handoffTimer: bool, resultTimer: bool,
    sends: seq<JsonObject>, emitted: seq<SocketEvent>, accepted: Option<Frame>, outcome: Outcome)

  // ---- The transport ----

  /** What `done` does when the message has been delivered, beyond reporting a failure. */
  datatype Done = NoDone | ThenClose | ThenNext(payloads: seq<PhoneMsg>, index: nat)

  datatype Entry = Entry(owner: nat, payload: PhoneMsg, done: Done, ticket: nat)

  /** `sent` (every entry handed to `sendAppMessage`), `results` (what `done` was told, in the same
      order), `next` and `cancelled` (tickets) are history. */
  datatype Transport = Transport(queue: seq<Entry>, busy: bool, sent: seq<Entry>, results: seq<bool>, next: nat, cancelled: set<nat>)

  /** `refusals` says which of the coming calls to `sendAppMessage` throw. */
  datatype Phone = Phone(t: Transport, sessions: seq<Session>, active: Option<nat>, refusals: seq<bool>)

  const IDLE_PHONE := Phone(Transport([], false, [], [], 0, {}), [], None, [])

  function Keep(q: seq<Entry>, owner: nat): seq<Entry> {
    if q == [] then []
    else if q[0].owner != owner then [q[0]] + Keep(q[1..], owner)
    else Keep(q[1..], owner)
  }

  function Tickets(es: seq<Entry>): set<nat> { set e | e in es :: e.ticket }

  function Cancel(t: Transport, owner: nat): Transport {
    t.(queue := Keep(t.queue, owner), cancelled := t.cancelled + (Tickets(t.queue) - Tickets(Keep(t.queue, owner))))
  }

  function Append(t: Transport, owner: nat, payload: PhoneMsg, done: Done): Transport {
    t.(queue := t.queue + [Entry(owner, payload, done, t.next)], next := t.next + 1)
  }

  /** Hands the head of the queue to `sendAppMessage`. */
  function Take(t: Transport): Transport
    requires t.queue != []
  {
    t.(queue := t.queue[1..], busy := true, sent := t.sent + [t.queue[0]])
  }

  function Resolve(t: Transport, ok: bool): Transport {
    t.(busy := false, results := t.results + [ok])
  }

  /** The entry whose callback is outstanding. */
  function Current(t: Transport): Option<Entry> {
    if t.busy && |t.results| < |t.sent| then Some(t.sent[|t.results|]) else None
  }

  // ---- Closing ----

  function CloseSocket(s: Session): Session {
    if s.side == SocketClosed then s
    else s.(handoffTimer := false, resultTimer := false, socket := None, transcript := None, pending := [], side := SocketClosed)
  }

  function SetSession(p: Phone, i: nat, s: Session): Phone
    requires i < |p.sessions|
  {
    p.(sessions := p.sessions[i := s])
  }

  function CloseSession(p: Phone, i: nat): Phone {
    if i >= |p.sessions| || p.sessions[i].state == Closed then p
    else
      var s := CloseSocket(p.sessions[i]);
      var t := if s.watch == WatchClosed then p.t else Cancel(p.t, i);
      var s' := s.(watch := WatchClosed, assembler := if s.watch == WatchClosed then s.assembler else NewAssembler(s.assembler.id), state := Closed);
      SetSession(p, i, s').(t := t, active := if p.active == Some(i) then None else p.active)
  }

  // ---- Delivery ----

  /** `done(false)`: the watch bridge fails and the session closes. */
  function DeliveryFailed(p: Phone, e: Entry): Phone {
    if e.owner >= |p.sessions| || p.sessions[e.owner].watch == WatchClosed then p
    else CloseSession(SetSession(p, e.owner, p.sessions[e.owner].(watch := WatchFailed)), e.owner)
  }

  /** Sends queued entries until one is accepted for delivery; a throwing `sendAppMessage` fails
      its entry at once. */
  function Pump(p: Phone): (q: Phone)
    ensures q.t.busy || q.t.queue == []
    decreases |p.t.queue|
  {
    if p.t.busy || p.t.queue == [] then p
    else
      var e := p.t.queue[0];
      var taken := p.(t := Take(p.t), refusals := if p.refusals == [] then [] else p.refusals[1..]);
      if p.refusals == [] || !p.refusals[0] then taken
      else
        var failed := DeliveryFailed(taken.(t := Resolve(taken.t, false)), e);
        CloseShrinks(taken.(t := Resolve(taken.t, false)), e);
        Pump(failed)
  }

  lemma KeepShrinks(q: seq<Entry>, owner: nat)
    ensures |Keep(q, owner)| <= |q|
  {
  }

  lemma CloseShrinks(p: Phone, e: Entry)
    ensures |DeliveryFailed(p, e).t.queue| <= |p.t.queue|
  {
    KeepShrinks(p.t.queue, e.owner);
  }

  function Enqueue(p: Phone, owner: nat, payload: PhoneMsg, done: Done): Phone {
    Pump(p.(t := Append(p.t, owner, payload, done)))
  }

  /** `done(true)` */
  function DeliverySucceeded(p: Phone, e: Entry): Phone {
    if e.owner >= |p.sessions| || p.sessions[e.owner].watch == WatchClosed then p
    else
      match e.done
      case NoDone => p
      case ThenClose => CloseSession(p, e.owner)
      case ThenNext(payloads, index) =>
        if index + 1 < |payloads| then Enqueue(p, e.owner, payloads[index + 1], ThenNext(payloads, index + 1))
        else CloseSession(SetSession(p, e.owner, p.sessions[e.owner].(watch := WatchComplete)), e.owner)
  }

  /** The callback of `sendAppMessage`: release, report, and pump again. */
  function Finish(p: Phone, ok: bool): Phone {
    match Current(p.t)
    case None => p
    case Some(e) =>
      var released := p.(t := Resolve(p.t, ok));
      Pump(if ok then DeliverySucceeded(released, e) else DeliveryFailed(released, e))
  }

  // ---- Watch bridge ----

  function SendStatus(p: Phone, i: nat, payload: PhoneMsg, done: Done): Phone
    requires i < |p.sessions|
  {
    if p.sessions[i].watch == WatchClosed then p else Enqueue(p, i, payload, done)
  }

  function SendResult(p: Phone, i: nat, success: bool, response: seq<Unit>): Phone
    requires i < |p.sessions|
  {
    var s := p.sessions[i];
    if s.watch == WatchClosed then p
    else
      match ResultPayloads(s.id, success, response)
      case None => CloseSession(SetSession(p, i, s.(watch := WatchFailed)), i)
      case Some(ps) =>
        var q := SetSession(p, i, s.(watch := ForwardingResult));
        if ps == [] then q else Enqueue(q, i, ps[0], ThenNext(ps, 0))
  }

  // ---- Coordinator ----

  function StatusForServerError(error: SocketError): nat {
    match error
    case ResultTimeout => STATUS_SERVER_RESULT_TIMEOUT
    case ProtocolFailure => STATUS_PROTOCOL
    case ServerFailure => STATUS_SERVER
    case _ => STATUS_TRANSFER
  }

  function FailSession(p: Phone, i: nat, status: nat): Phone
    requires i < |p.sessions|
  {
    var s := p.sessions[i];
    if s.state == Closed || s.terminal then p
    else
      var s' := CloseSocket(s).(terminal := true, state := ForwardingTerminal, outcome := FailedWith(status));
      SendStatus(SetSession(p, i, s'), i, FailureMsg(s.id, status), ThenClose)
  }

  function HandleServerEvent(p: Phone, i: nat, event: SocketEvent): Phone
    requires i < |p.sessions|
  {
    var s := p.sessions[i];
    if s.state == Closed || s.terminal then p
    else
      match event
      case SendStarted => SendStatus(SetSession(p, i, s.(state := AwaitingResult)), i, SendStartedMsg(s.id), NoDone)
      case ResultEvent(success, response) =>
        var s' := CloseSocket(s).(terminal := true, state := ForwardingTerminal, outcome := Forwarded(success, response));
        SendResult(SetSession(p, i, s'), i, success, response)
      case FailureEvent(error) => FailSession(p, i, StatusForServerError(error))
  }

  // ---- Socket bridge ----

  function FailSocket(p: Phone, i: nat, error: SocketError): Phone
    requires i < |p.sessions|
  {
    var s := p.sessions[i];
    if s.side in {SocketFailed, SocketClosed, SocketComplete} then p
    else
      var s' := s.(side := SocketFailed, handoffTimer := false, resultTimer := false, socket := None,
                   emitted := s.emitted + [FailureEvent(error)]);
      HandleServerEvent(SetSession(p, i, s'), i, FailureEvent(error))
  }

  function HandleFrame(p: Phone, i: nat, data: Frame): Phone
    requires i < |p.sessions|
  {
    var s := p.sessions[i];
    if s.side != AwaitingFrame then p
    else
      match ParseServerFrame(data, s.id)
      case Result(success, response) =>
        var s' := s.(resultTimer := false, side := SocketComplete, accepted := Some(data),
                     emitted := s.emitted + [ResultEvent(success, response)]);
        HandleServerEvent(SetSession(p, i, s'), i, ResultEvent(success, response))
      case ServerError(_) => FailSocket(p, i, ServerFailure)
      case ProtocolError => FailSocket(p, i, ProtocolFailure)
      case Unrelated => p
  }

  function Replay(p: Phone, i: nat, frames: seq<Frame>): Phone
    requires i < |p.sessions|
    decreases |frames|
  {
    if frames == [] then p
    else
      var q := HandleFrame(p, i, frames[0]);
      if i < |q.sessions| then Replay(q, i, frames[1..]) else q
  }

  /** What the network does inside one `socket.send`. */
  datatype SendCall = SendCall(throws: bool, frames: seq<Frame>)

  predicate CanSend(s: Session) {
    s.transcript.Some? && s.socket == Some(1) && s.side in {SocketIdle, Connecting, SocketReady}
  }

  function TrySend(p: Phone, i: nat, call: SendCall): Phone
    requires i < |p.sessions|
  {
    var s := p.sessions[i];
    if !CanSend(s) then p
    else
      match BuildRequest(s.id, s.transcript.value)
      case None => FailSocket(p, i, SendFailure)
      case Some(request) =>
        // Frames that arrive while sending are held back.
        var sending := s.(side := Sending, sends := s.sends + [request], pending := s.pending + call.frames);
        if call.throws then FailSocket(SetSession(p, i, sending), i, SendFailure)
        else
          var started := sending.(handoffTimer := false, side := AwaitingFrame, resultTimer := true,
                                  emitted := sending.emitted + [SendStarted]);
          var q := HandleServerEvent(SetSession(p, i, started), i, SendStarted);
          if i >= |q.sessions| then q
          else Replay(SetSession(q, i, q.sessions[i].(pending := [])), i, q.sessions[i].pending)
  }

  function SetTranscript(p: Phone, i: nat, transcript: seq<Unit>, call: SendCall): Phone
    requires i < |p.sessions|
  {
    var s := p.sessions[i];
    if s.transcript.Some? || s.side == SocketClosed || s.side == SocketFailed then FailSocket(p, i, SendFailure)
    else TrySend(SetSession(p, i, s.(transcript := Some(transcript), handoffTimer := true)), i, call)
  }

  // ---- Messages from the watch ----

  function HandleWatchMessage(p: Phone, i: nat, m: Message, call: SendCall): Phone
    requires i < |p.sessions|
  {
    var s := p.sessions[i];
    if s.state == Closed || s.terminal then p
    else if m.End? then CloseSession(p, i)
    else if !m.Chunk? || s.state != Receiving then FailSession(p, i, STATUS_PROTOCOL)
    else if s.watch != ReceivingTranscript then FailSession(p, i, STATUS_PROTOCOL)
    else
      var (a, added) := Add(s.assembler, m);
      match added
      case Threw => FailSession(SetSession(p, i, s.(assembler := a)), i, STATUS_PROTOCOL)
      case Incomplete => SetSession(p, i, s.(assembler := a))
      case Complete(transcript) =>
        SetTranscript(SetSession(p, i, s.(assembler := a, watch := TranscriptReady, state := WaitingToSend)), i, transcript, call)
  }

  function NewSession(id: seq<Unit>): Session {
    Session(id, Receiving, false, ReceivingTranscript, NewAssembler(id), SocketIdle, None, None, [],
            false, false, [], [], None, NoOutcome)
  }

  function OpenSocket(p: Phone, i: nat, constructed: bool): Phone
    requires i < |p.sessions|
  {
    var s := p.sessions[i];
    if s.side != SocketIdle then p
    else if !constructed then FailSocket(SetSession(p, i, s.(side := Connecting)), i, ServerFailure)
    else SetSession(p, i, s.(side := Connecting, socket := Some(0)))
  }

  /** The new session becomes active even if it closed while it was being constructed. */
  function StartSession(p: Phone, id: seq<Unit>, constructed: bool): Phone {
    var q := if p.active.Some? then CloseSession(p, p.active.value) else p;
    var i := |q.sessions|;
    var r := OpenSocket(q.(sessions := q.sessions + [NewSession(id)]), i, constructed);
    r.(active := Some(i))
  }

  predicate Falsy(v: Js) {
    v == JsNull || v == JsString([]) || v == JsNumber(0) || v == JsBool(false)
  }

  /** What happens outside while one event is handled. */
  datatype PhoneEnv = PhoneEnv(refusals: seq<bool>, constructed: bool, call: SendCall)

  function OnAppMessage(p: Phone, payload: Option<JsPayload>, env: PhoneEnv): Phone {
    match ParseWatchMessage(payload)
    case None =>
      var raw := if payload.Some? then Field(payload.value, RequestId) else JsNull;
      if p.active.Some? && p.active.value < |p.sessions|
         && (Falsy(raw) || raw == JsString(p.sessions[p.active.value].id)) then
        FailSession(p, p.active.value, STATUS_PROTOCOL)
      else p
    case Some(m) =>
      if m.Begin? then StartSession(p, m.id, env.constructed)
      else if p.active.Some? && p.active.value < |p.sessions| && m.id == p.sessions[p.active.value].id then
        HandleWatchMessage(p, p.active.value, m, env.call)
      else p
  }

  // ---- Events ----

  datatype PhoneEvent =
    | AppMessage(payload: Option<JsPayload>)
    | Delivered(ok: bool)
    | ReadyState(i: nat, value: nat)
    | SocketOpen(i: nat)
    | SocketErrorEvent(i: nat)
    | SocketCloseEvent(i: nat)
    | SocketMessage(i: nat, data: Frame)
    | HandoffExpired(i: nat)
    | ResultExpired(i: nat)

  predicate Enabled(p: Phone, e: PhoneEvent) {
    match e
    case AppMessage(_) => true
    case Delivered(_) => p.t.busy
    case HandoffExpired(i) => i < |p.sessions| && p.sessions[i].handoffTimer
    case ResultExpired(i) => i < |p.sessions| && p.sessions[i].resultTimer
    case _ => e.i < |p.sessions| && p.sessions[e.i].socket.Some?
  }

  function Step(p0: Phone, e: PhoneEvent, env: PhoneEnv): Phone
    requires Enabled(p0, e)
  {
    var p := p0.(refusals := env.refusals);
    match e
    case AppMessage(payload) => OnAppMessage(p, payload, env)
    case Delivered(ok) => Finish(p, ok)
    case ReadyState(i, value) => SetSession(p, i, p.sessions[i].(socket := Some(value)))
    case SocketOpen(i) =>
      if p.sessions[i].side != Connecting then p
      else TrySend(SetSession(p, i, p.sessions[i].(side := SocketReady)), i, env.call)
    case SocketErrorEvent(i) => FailSocket(p, i, ServerFailure)
    case SocketCloseEvent(i) => FailSocket(p, i, ServerFailure)
    case SocketMessage(i, data) => HandleFrame(p, i, data)
    case HandoffExpired(i) => FailSocket(SetSession(p, i, p.sessions[i].(handoffTimer := false)), i, HandoffTimeout)
    case ResultExpired(i) => FailSocket(SetSession(p, i, p.sessions[i].(resultTimer := false)), i, ResultTimeout)
  }
}
