/** What each event does to the session it is about, and that it does nothing else: failures are
    reported, frames and messages are sorted, sessions end and are replaced, deliveries go on. */
module PhoneLaws {
  import opened Unicode
  import opened Messages
  import opened Protocol
  import opened PhoneModel
  import opened PhoneProofs
  import opened PhoneSteps
  import opened PhoneFrames
  import opened PhoneRuns
  import S = Server

  // ---- One live session, and what it holds ----

  /** Only the active session can be open. */
  ghost predicate OnlyActive(p: Phone) {
    forall j | 0 <= j < |p.sessions| && p.sessions[j].state != Closed :: p.active == Some(j)
  }

  /** The transcript at hand can be sent. */
  predicate HoldsText(s: Session) { s.transcript.Some? ==> Utf8Length(s.transcript.value).Some? }

  ghost predicate Lawful(p: Phone) {
    OnlyActive(p) && forall j | 0 <= j < |p.sessions| :: HoldsText(p.sessions[j])
  }

  lemma MildIsLawful(p: Phone, q: Phone)
    requires Lawful(p) && MildPhone(p, q) && SameActive(p, q) && |q.sessions| == |p.sessions|
    ensures Lawful(q)
  {
    hide Mild, HoldsText, Utf8Length;
    forall j | 0 <= j < |q.sessions| ensures HoldsText(q.sessions[j]) && (q.sessions[j].state != Closed ==> q.active == Some(j)) {
      MildHolds(p.sessions[j], q.sessions[j]);
    }
  }

  lemma MildHolds(s: Session, t: Session)
    requires Mild(s, t) && HoldsText(s)
    ensures HoldsText(t) && (s.state == Closed ==> t.state == Closed)
  {
    hide BuildRequest, Utf8Length;
  }

  lemma CalmIsLawful(p: Phone, q: Phone)
    requires Lawful(p) && Calm(p, q)
    ensures Lawful(q)
  {
    hide Tame, Mild, Lawful, SameActive;
    CalmIsMild(p, q);
    MildIsLawful(p, q);
  }

  lemma GivenHolds(s: Session, m: Message)
    requires HoldsText(s)
    ensures HoldsText(GivenChunk(s, m)) && (GivenChunk(s, m).state == Closed ==> s.state == Closed)
  {
    AssembledIsText(s.assembler, m);
  }

  lemma AssembledIsText(a: Assembler, m: Message)
    ensures Add(a, m).1.Complete? ==> Utf8Length(Add(a, m).1.transcript).Some?
  {
    hide Utf8Length;
  }

  lemma StartIsLawful(p: Phone, id: seq<Unit>, constructed: bool)
    requires Lawful(p) && (p.active.Some? ==> p.active.value < |p.sessions|)
    ensures var q := StartSession(p, id, constructed);
            && Lawful(q) && |q.sessions| == |p.sessions| + 1 && q.active == Some(|p.sessions|)
            && forall j | 0 <= j < |p.sessions| :: q.sessions[j].state == Closed
  {
    hide OpenSocket, CloseSession, Tame, Mild, HoldsText;
    var q := if p.active.Some? then CloseSession(p, p.active.value) else p;
    CalmItself(p);
    if p.active.Some? {
      CloseCalm(p, p.active.value);
      CloseCloses(p, p.active.value);
    }
    CalmIsLawful(p, q);
    var i := |q.sessions|;
    var bare := q.(sessions := q.sessions + [NewSession(id)]);
    var r := OpenSocket(bare, i, constructed);
    OpenSocketCalm(bare, i, constructed);
    CalmIsMild(bare, r);
    forall j | 0 <= j < |r.sessions| ensures HoldsText(r.sessions[j]) && (j < |p.sessions| ==> r.sessions[j].state == Closed) {
      if j < |p.sessions| {
        assert Tame(p.sessions[j], q.sessions[j]);
        if p.active != Some(j) {
          TameCloses(p.sessions[j], q.sessions[j]);
        }
        assert bare.sessions[j] == q.sessions[j] && q.sessions[j].state == Closed;
      } else {
        NewHolds(id);
      }
      MildHolds(bare.sessions[j], r.sessions[j]);
    }
  }

  lemma CloseCloses(p: Phone, i: nat)
    requires i < |p.sessions|
    ensures |CloseSession(p, i).sessions| == |p.sessions| && CloseSession(p, i).sessions[i].state == Closed
  {
  }

  lemma TameCloses(s: Session, t: Session)
    requires Tame(s, t) && s.state == Closed
    ensures t.state == Closed
  {
  }

  lemma NewHolds(id: seq<Unit>)
    ensures HoldsText(NewSession(id))
  {
  }

  lemma StepIsLawful(p: Phone, e: PhoneEvent, env: PhoneEnv)
    requires Inv(p) && Lawful(p) && Enabled(p, e)
    ensures Lawful(Step(p, e, env))
  {
    hide Inv, OnAppMessage, Tame, MildPhone, SameActive, TakesFrom, OnlyActive, HoldsText;
    var r := p.(refusals := env.refusals);
    RefusalsKeepInv(p, env.refusals);
    match e
    case AppMessage(payload) =>
      RefusalsAreLawful(p, env.refusals);
      MessageIsLawful(r, payload, env);
    case _ =>
      StepMild(p, e, env);
      MildIsLawful(p, Step(p, e, env));
  }

  lemma RefusalsAreLawful(p: Phone, refusals: seq<bool>)
    requires Lawful(p)
    ensures Lawful(p.(refusals := refusals))
  {
    hide HoldsText;
  }

  lemma MessageIsLawful(p: Phone, payload: Option<JsPayload>, env: PhoneEnv)
    requires Inv(p) && Lawful(p)
    ensures Lawful(OnAppMessage(p, payload, env))
  {
    hide Inv, Lawful, Calm, ParseWatchMessage, HandleWatchMessage, FailSession, StartSession;
    ActiveExists(p);
    if p.active.Some? && p.active.value < |p.sessions| {
      FailSessionCalm(p, p.active.value, STATUS_PROTOCOL);
      CalmIsLawful(p, FailSession(p, p.active.value, STATUS_PROTOCOL));
    }
    if ParseWatchMessage(payload).Some? {
      var m := ParseWatchMessage(payload).value;
      StartIsLawful(p, m.id, env.constructed);
      if p.active.Some? && p.active.value < |p.sessions| {
        WatchMessageIsLawful(p, p.active.value, m, env.call);
      }
    }
  }

  lemma ActiveExists(p: Phone)
    requires Inv(p)
    ensures p.active.Some? ==> p.active.value < |p.sessions|
  {
    hide OwnerInv, Conserves, EntriesOk, Acknowledged, FailuresClosed;
  }

  lemma WatchMessageIsLawful(p: Phone, i: nat, m: Message, call: SendCall)
    requires Inv(p) && Lawful(p) && i < |p.sessions|
    ensures Lawful(HandleWatchMessage(p, i, m, call))
  {
    hide Inv, Lawful, Calm, MildPhone, SameActive, HandleWatchMessage, GivenChunk, Takes;
    var q := HandleWatchMessage(p, i, m, call);
    if m.Chunk? && p.sessions[i].state == Receiving && p.sessions[i].watch == ReceivingTranscript {
      ReceivingIsFresh(p, i);
      ChunkMild(p, i, m, call);
      GivenIsLawful(p, i, m);
      GivenActive(p, i, m, q);
      MildIsLawful(SetSession(p, i, GivenChunk(p.sessions[i], m)), q);
    } else {
      OtherMessageCalm(p, i, m, call);
      CalmIsLawful(p, q);
    }
  }

  lemma GivenIsLawful(p: Phone, i: nat, m: Message)
    requires Lawful(p) && i < |p.sessions| && p.sessions[i].state == Receiving
    ensures Lawful(SetSession(p, i, GivenChunk(p.sessions[i], m)))
  {
    hide HoldsText, GivenChunk;
    GivenHolds(p.sessions[i], m);
  }

  lemma GivenActive(p: Phone, i: nat, m: Message, q: Phone)
    requires i < |p.sessions| && SameActive(p, q) && p.sessions[i].state == Receiving
    ensures SameActive(SetSession(p, i, GivenChunk(p.sessions[i], m)), q)
  {
    hide Add;
  }

  lemma {:induction false} RunIsLawful(p: Phone, actions: seq<PhoneAction>)
    requires RunInv(p) && Lawful(p) && Possible(p, actions)
    ensures Lawful(Run(p, actions))
    decreases |actions|
  {
    hide Inv, Lawful, Step, Enabled;
    if actions != [] {
      var e, env := actions[0].event, actions[0].env;
      StepKeepsInv(p, e, env);
      StepIsQuiet(p, e, env);
      StepIsLawful(p, e, env);
      RunIsLawful(Step(p, e, env), actions[1..]);
    }
  }

  lemma ReachableIsLawful(p: Phone)
    requires Reachable(p)
    ensures Lawful(p)
  {
    hide Inv, Run, Possible;
    var actions :| Possible(IDLE_PHONE, actions) && p == Run(IDLE_PHONE, actions);
    IdleIsInv();
    RunIsLawful(IDLE_PHONE, actions);
  }

  /** In every reachable state at most one session is open, and it is the active one. */
  lemma OneOpenSession(p: Phone, j: nat)
    requires Reachable(p) && j < |p.sessions| && p.sessions[j].state != SessionState.Closed
    ensures p.active == Some(j)
    ensures forall k | 0 <= k < |p.sessions| && k != j :: p.sessions[k].state == SessionState.Closed
  {
    hide Reachable, HoldsText;
    ReachableIsLawful(p);
  }

  // ---- One more message ----

  /** The next call to `sendAppMessage` is made at once, and throws. */
  predicate Refused(p: Phone) { !p.t.busy && p.refusals != [] && p.refusals[0] }

  /** One more message has been enqueued or handed over, the last of all. */
  ghost predicate Says(p: Phone, q: Phone, i: nat, payload: PhoneMsg) {
    && |Trail(q.t)| == |Trail(p.t)| + 1 && Trail(p.t) <= Trail(q.t)
    && Trail(q.t)[|Trail(p.t)|].owner == i && Trail(q.t)[|Trail(p.t)|].payload == payload
  }

  /** Nothing has happened to any session but `i`. */
  ghost predicate Spares(p: Phone, q: Phone, i: nat) {
    |q.sessions| == |p.sessions| && forall j | 0 <= j < |p.sessions| && j != i :: q.sessions[j] == p.sessions[j]
  }

  lemma SaysLast(p: Phone, q: Phone, i: nat, payload: PhoneMsg)
    requires Says(p, q, i, payload)
    ensures Of(Trail(q.t), i) == Of(Trail(p.t), i) + [payload]
    ensures forall j | j != i :: Of(Trail(q.t), j) == Of(Trail(p.t), j)
  {
    hide Trail;
    var e := Trail(q.t)[|Trail(p.t)|];
    assert Trail(q.t) == Trail(p.t) + [e];
    forall j {
      OfSnoc(Trail(p.t), e, j);
    }
  }

  /** The session is over: no timer, socket, transcript or frame is left of it. */
  ghost predicate Gone(s: Session) {
    s.socket == None && s.transcript == None && s.pending == [] && !s.handoffTimer && !s.resultTimer
  }

  lemma EnqueueSays(p: Phone, i: nat, payload: PhoneMsg, done: Done)
    requires Quiet(p.t) && i < |p.sessions| && p.sessions[i].state != Closed && p.sessions[i].watch != WatchClosed
    ensures var q := Enqueue(p, i, payload, done); var s := p.sessions[i];
            && Says(p, q, i, payload) && Spares(p, q, i)
            && q.t.sent == (if p.t.busy then p.t.sent else Trail(q.t))
            && if Refused(p) then
                 var t := CloseSocket(s);
                 q.sessions[i] == t.(watch := WatchClosed, assembler := NewAssembler(s.assembler.id), state := Closed)
               else q.sessions[i] == s && q.active == p.active
  {
    hide Pump, Keep;
    var e := Entry(i, payload, done, p.t.next);
    var said := p.(t := Append(p.t, i, payload, done));
    if p.t.busy {
      BusyPump(said);
      assert Trail(said.t) == Trail(p.t) + [e];
    } else {
      assert said.t.queue == [e];
      FreePumpOnce(said);
      EmptyKeep(i);
      assert [e][1..] == [];
      assert Trail(p.t) == p.t.sent;
    }
  }

  lemma EmptyKeep(owner: nat)
    ensures Keep([], owner) == []
  {
  }

  // ---- Failures are reported ----

  /** The session fails now: it is over, its outcome is this status, and the failure message with
      this status is the last thing said, to which nothing else is added.  Only if that message is
      refused on the spot the session is closed already. */
  ghost predicate FailsNow(p: Phone, q: Phone, i: nat, status: nat)
    requires i < |p.sessions|
  {
    && Spares(p, q, i)
    && Says(p, q, i, FailureMsg(p.sessions[i].id, status))
    && var s, t := p.sessions[i], q.sessions[i];
    && t.id == s.id && t.terminal && t.outcome == FailedWith(status) && Gone(t)
    && t.sends == s.sends && t.accepted == s.accepted
    && t.state == if Refused(p) then SessionState.Closed else ForwardingTerminal
  }

  predicate Live(s: Session) { s.state in {Receiving, WaitingToSend, AwaitingResult} }

  lemma FailSessionFails(p: Phone, i: nat, status: nat)
    requires Quiet(p.t) && i < |p.sessions|
    requires var s := p.sessions[i]; s.state != Closed && !s.terminal && s.watch != WatchClosed && s.side != SocketClosed
    ensures FailsNow(p, FailSession(p, i, status), i, status)
  {
    hide Enqueue, Trail;
    var s := p.sessions[i];
    var t := CloseSocket(s).(terminal := true, state := ForwardingTerminal, outcome := FailedWith(status));
    EnqueueSays(SetSession(p, i, t), i, FailureMsg(s.id, status), ThenClose);
  }

  /** Before it fails, only its own bookkeeping has changed. */
  lemma FailsLater(p: Phone, s: Session, q: Phone, i: nat, status: nat)
    requires i < |p.sessions| && FailsNow(SetSession(p, i, s), q, i, status)
    requires s.id == p.sessions[i].id && s.accepted == p.sessions[i].accepted && s.sends == p.sessions[i].sends
    ensures FailsNow(p, q, i, status)
  {
    hide Trail;
  }

  lemma FailSocketFails(p: Phone, i: nat, error: SocketError)
    requires Quiet(p.t) && i < |p.sessions|
    requires var s := p.sessions[i]; s.state != Closed && !s.terminal && s.watch != WatchClosed
    requires p.sessions[i].side !in {SocketFailed, SocketClosed, SocketComplete}
    ensures FailsNow(p, FailSocket(p, i, error), i, StatusForServerError(error))
  {
    hide FailSession, FailsNow;
    var s := p.sessions[i];
    var t := s.(side := SocketFailed, handoffTimer := false, resultTimer := false, socket := None,
                emitted := s.emitted + [FailureEvent(error)]);
    FailSessionFails(SetSession(p, i, t), i, StatusForServerError(error));
    FailsLater(p, t, FailSession(SetSession(p, i, t), i, StatusForServerError(error)), i, StatusForServerError(error));
  }

  lemma LivePhase(p: Phone, i: nat)
    requires Inv(p) && i < |p.sessions| && Live(p.sessions[i])
    ensures var s := p.sessions[i];
            && s.state != Closed && !s.terminal && s.outcome == NoOutcome && s.watch in {ReceivingTranscript, TranscriptReady}
            && s.side in {Connecting, SocketReady, AwaitingFrame} && (s.side == AwaitingFrame <==> s.state == AwaitingResult)
            && s.socket.Some? && s.pending == [] && IsRequestId(s.id)
            && (s.handoffTimer <==> s.state == WaitingToSend) && (s.resultTimer <==> s.state == AwaitingResult)
            && (s.transcript.Some? <==> s.state != Receiving)
            && s.emitted == if s.state == AwaitingResult then [SendStarted] else []
  {
    hide Carrier, WireInv;
    assert OwnerInv(p, i);
  }

  // ---- Server frames ----

  /** The frame is an object that carries this session's identifier. */
  predicate Addressed(d: Frame, id: seq<Unit>) {
    d.Object? && Id in d.fields && d.fields[Id] == JsString(id)
  }

  /** It has the protocol's version, the type of an error, and a nonempty code. */
  predicate IsError(d: Frame)
    requires d.Object?
  {
    && Get(d.fields, Version) == JsNumber(PROTOCOL_VERSION) && Get(d.fields, Type) == JsString(ERROR)
    && Get(d.fields, Code).JsString? && Get(d.fields, Code).text != []
  }

  /** It has all the fields of the result that the server builds for this flag and this text. */
  ghost predicate IsResultOf(d: Frame, id: seq<Unit>, success: bool, vs: seq<Scalar>)
    requires d.Object? && IsRequestId(id)
  {
    Bytes(vs) <= MAX_RESPONSE_BYTES && S.Carries(d.fields, S.ResultFields(id, success, vs))
  }

  ghost predicate IsAnyResult(d: Frame, id: seq<Unit>)
    requires d.Object? && IsRequestId(id)
  {
    exists success, vs :: IsResultOf(d, id, success, vs)
  }

  lemma AnyResultIff(d: Frame, id: seq<Unit>)
    requires d.Object? && IsRequestId(id)
    ensures IsAnyResult(d, id) <==> ParseServerFrame(d, id).Result?
  {
    hide S.ResultFields, S.Carries, Utf16All, Utf8All;
    if ParseServerFrame(d, id).Result? {
      var r := ParseServerFrame(d, id);
      ResultIsWellFormed(d, id);
      var vs := Decode16(r.response).value;
      ResultIs(d, id, r.success, vs);
      assert IsResultOf(d, id, r.success, vs);
    }
    if IsAnyResult(d, id) {
      var success, vs :| IsResultOf(d, id, success, vs);
      ResultIs(d, id, success, vs);
    }
  }

  lemma ResultIsWellFormed(d: Frame, id: seq<Unit>)
    requires ParseServerFrame(d, id).Result?
    ensures var r := ParseServerFrame(d, id).response;
            Decode16(r).Some? && Utf16All(Decode16(r).value) == r && Bytes(Decode16(r).value) <= MAX_RESPONSE_BYTES
  {
    hide Decode16;
  }

  lemma ResultIs(d: Frame, id: seq<Unit>, success: bool, vs: seq<Scalar>)
    requires d.Object? && IsRequestId(id) && Bytes(vs) <= MAX_RESPONSE_BYTES
    ensures IsResultOf(d, id, success, vs) <==> ParseServerFrame(d, id) == Result(success, Utf16All(vs))
  {
    hide S.ResultFields, S.Carries, Utf16All, Utf8All, ParseServerFrame;
    S.ResultFramesAreServerResults(d, id, success, vs);
  }

  lemma ErrorIs(d: Frame, id: seq<Unit>)
    requires Addressed(d, id) && IsRequestId(id)
    ensures IsError(d) <==> ParseServerFrame(d, id).ServerError?
    ensures ParseServerFrame(d, id) != Unrelated
  {
    hide ERROR, RESULT, Decode16;
  }

  lemma UnaddressedIs(d: Frame, id: seq<Unit>)
    requires !Addressed(d, id)
    ensures ParseServerFrame(d, id) == Unrelated
  {
  }

  /** A session takes this frame as its result now: it is over, the result is its outcome, and the
      first payload of the response is the last thing said. */
  ghost predicate Accepts(p: Phone, q: Phone, i: nat, d: Frame, success: bool, response: seq<Unit>)
    requires i < |p.sessions|
  {
    && Spares(p, q, i)
    && ResultPayloads(p.sessions[i].id, success, response).Some? && ResultPayloads(p.sessions[i].id, success, response).value != []
    && Says(p, q, i, ResultPayloads(p.sessions[i].id, success, response).value[0])
    && var s, t := p.sessions[i], q.sessions[i];
    && t.id == s.id && t.terminal && t.outcome == Forwarded(success, response) && Gone(t)
    && t.sends == s.sends && t.accepted == Some(d)
    && t.state == if Refused(p) then SessionState.Closed else ForwardingTerminal
  }

  lemma ResultAccepts(p: Phone, i: nat, d: Frame, success: bool, response: seq<Unit>)
    requires Quiet(p.t) && i < |p.sessions| && IsRequestId(p.sessions[i].id) && IsResponse(response)
    requires var s := p.sessions[i]; s.state != Closed && !s.terminal && s.watch != WatchClosed && s.side == AwaitingFrame
    ensures var s := p.sessions[i];
            var t := s.(resultTimer := false, side := SocketComplete, accepted := Some(d), emitted := s.emitted + [ResultEvent(success, response)]);
            Accepts(p, HandleServerEvent(SetSession(p, i, t), i, ResultEvent(success, response)), i, d, success, response)
  {
    hide Enqueue, HandleServerEvent, ResultPayloads, Trail, IsResponse, IsRequestId;
    var s := p.sessions[i];
    var t := s.(resultTimer := false, side := SocketComplete, accepted := Some(d), emitted := s.emitted + [ResultEvent(success, response)]);
    var b := SetSession(p, i, t);
    ResultIsQueued(b, i, success, response);
    var ps := ResultPayloads(s.id, success, response).value;
    EnqueueSays(SetSession(b, i, ForwardingSession(t, success, response)), i, ps[0], ThenNext(ps, 0));
  }

  /** A frame for a session that waits for its result changes nothing at all if it is not an object
      with the session's identifier.  Otherwise it is accepted if and only if it has the fields of a
      result that the server could have built, ends the session as a server failure if it is an
      error with a code, and as a protocol failure in every other case. */
  lemma FrameLaw(p: Phone, i: nat, d: Frame, env: PhoneEnv)
    requires Reachable(p) && i < |p.sessions| && p.sessions[i].state == AwaitingResult
    ensures Enabled(p, SocketMessage(i, d)) && IsRequestId(p.sessions[i].id)
    ensures var id := p.sessions[i].id; var p' := p.(refusals := env.refusals); var q := Step(p, SocketMessage(i, d), env);
            if !Addressed(d, id) then q == p'
            else if IsAnyResult(d, id) then
              forall success, vs :: IsResultOf(d, id, success, vs) ==> Accepts(p', q, i, d, success, Utf16All(vs))
            else FailsNow(p', q, i, if IsError(d) then STATUS_SERVER else STATUS_PROTOCOL)
  {
    hide Inv, Accepts, FailsNow, Addressed, IsError, IsResultOf, ParseServerFrame, HandleServerEvent, FailSocket, IsRequestId;
    ReachableInv(p);
    LivePhase(p, i);
    var s := p.sessions[i];
    var r := p.(refusals := env.refusals);
    if !Addressed(d, s.id) {
      UnaddressedIs(d, s.id);
    } else {
      AddressedObject(d, s.id);
      ErrorIs(d, s.id);
      AnyResultIff(d, s.id);
      if IsAnyResult(d, s.id) {
        var parsed := ParseServerFrame(d, s.id);
        ParsedIsResponse(d, s.id);
        ResultAccepts(r, i, d, parsed.success, parsed.response);
        forall success, vs | IsResultOf(d, s.id, success, vs)
          ensures Accepts(r, Step(p, SocketMessage(i, d), env), i, d, success, Utf16All(vs)) {
          BoundOf(d, s.id, success, vs);
          ResultIs(d, s.id, success, vs);
        }
      } else {
        FailSocketFails(r, i, ServerFailure);
        FailSocketFails(r, i, ProtocolFailure);
      }
    }
  }

  lemma AddressedObject(d: Frame, id: seq<Unit>)
    requires Addressed(d, id)
    ensures d.Object?
  {
  }

  lemma BoundOf(d: Frame, id: seq<Unit>, success: bool, vs: seq<Scalar>)
    requires d.Object? && IsRequestId(id) && IsResultOf(d, id, success, vs)
    ensures Bytes(vs) <= MAX_RESPONSE_BYTES
  {
  }

  /** In any other phase frames are ignored. */
  lemma OtherFramesAreIgnored(p: Phone, i: nat, d: Frame, env: PhoneEnv)
    requires Reachable(p) && i < |p.sessions| && p.sessions[i].state != AwaitingResult && Enabled(p, SocketMessage(i, d))
    ensures Step(p, SocketMessage(i, d), env) == p.(refusals := env.refusals)
  {
    hide Inv, Reachable;
    ReachableInv(p);
    PhaseOf(p, i);
  }

  lemma PhaseOf(p: Phone, i: nat)
    requires Inv(p) && i < |p.sessions|
    ensures p.sessions[i].side == AwaitingFrame <==> p.sessions[i].state == AwaitingResult
    ensures Live(p.sessions[i]) || Gone(p.sessions[i])
    ensures p.sessions[i].state == ForwardingTerminal ==> p.sessions[i].terminal
    ensures p.sessions[i].state == SessionState.Closed ==> Of(p.t.queue, i) == []
  {
    hide Carrier, Sound;
    assert OwnerInv(p, i);
  }

  // ---- Socket and timer events ----

  /** The status that an event of its socket or timers makes a live session report. */
  function EventStatus(e: PhoneEvent): nat {
    match e
    case HandoffExpired(_) => STATUS_TRANSFER
    case ResultExpired(_) => STATUS_SERVER_RESULT_TIMEOUT
    case _ => STATUS_SERVER
  }

  /** Whenever a socket breaks or closes or a timer runs out, before or after the request was sent,
      the session fails with the status of that event, and says so. */
  lemma FailureIsReported(p: Phone, e: PhoneEvent, env: PhoneEnv)
    requires Reachable(p) && Enabled(p, e)
    requires e.SocketErrorEvent? || e.SocketCloseEvent? || e.HandoffExpired? || e.ResultExpired?
    ensures Live(p.sessions[e.i])
    ensures var q := Step(p, e, env);
            && FailsNow(p.(refusals := env.refusals), q, e.i, EventStatus(e))
            && Of(Trail(q.t), e.i) == Of(Trail(p.t), e.i) + [FailureMsg(p.sessions[e.i].id, EventStatus(e))]
  {
    hide Inv, FailsNow, FailSocket, Trail;
    ReachableInv(p);
    PhaseOf(p, e.i);
    LivePhase(p, e.i);
    var s, i := p.sessions[e.i], e.i;
    var r := p.(refusals := env.refusals);
    FailSocketFails(r, i, ServerFailure);
    var late, overdue := s.(handoffTimer := false), s.(resultTimer := false);
    FailSocketFails(SetSession(r, i, late), i, HandoffTimeout);
    FailsLater(r, late, FailSocket(SetSession(r, i, late), i, HandoffTimeout), i, STATUS_TRANSFER);
    FailSocketFails(SetSession(r, i, overdue), i, ResultTimeout);
    FailsLater(r, overdue, FailSocket(SetSession(r, i, overdue), i, ResultTimeout), i, STATUS_SERVER_RESULT_TIMEOUT);
    assert FailsNow(r, Step(p, e, env), i, EventStatus(e));
    FailsSays(r, Step(p, e, env), i, EventStatus(e));
  }

  lemma FailsSays(p: Phone, q: Phone, i: nat, status: nat)
    requires i < |p.sessions| && FailsNow(p, q, i, status)
    ensures Of(Trail(q.t), i) == Of(Trail(p.t), i) + [FailureMsg(p.sessions[i].id, status)]
  {
    hide Trail;
    SaysLast(p, q, i, FailureMsg(p.sessions[i].id, status));
  }

  // ---- Sending ----

  /** The session sends now: the request is handed to `send`, and if that returns without bringing in
      a frame, the session waits for its result and `SEND_STARTED` is the last thing said; a send
      that throws fails the session. */
  ghost predicate SendsNow(p: Phone, q: Phone, i: nat, text: seq<Unit>, call: SendCall)
    requires i < |p.sessions|
  {
    var s := p.sessions[i];
    && Spares(p, q, i)
    && BuildRequest(s.id, text).Some? && q.sessions[i].sends == [BuildRequest(s.id, text).value]
    && if call.throws then
         && Says(p, q, i, FailureMsg(s.id, STATUS_TRANSFER))
         && q.sessions[i].outcome == FailedWith(STATUS_TRANSFER) && q.sessions[i].terminal && Gone(q.sessions[i])
       else call.frames == [] ==>
         && Says(p, q, i, SendStartedMsg(s.id))
         && if Refused(p) then q.sessions[i].state == SessionState.Closed && Gone(q.sessions[i])
            else
              && q.sessions[i].state == AwaitingResult && q.sessions[i].resultTimer && !q.sessions[i].handoffTimer
              && q.sessions[i].socket == s.socket
  }

  /** What `TrySend` does with a transcript and an open socket. */
  lemma TrySendSends(p: Phone, i: nat, call: SendCall)
    requires Quiet(p.t) && i < |p.sessions| && CanSend(p.sessions[i])
    requires var s := p.sessions[i];
             && s.state != Closed && !s.terminal && s.watch != WatchClosed && s.sends == [] && s.pending == []
             && BuildRequest(s.id, s.transcript.value).Some?
    requires call.throws || call.frames == []
    ensures SendsNow(p, TrySend(p, i, call), i, p.sessions[i].transcript.value, call)
  {
    hide BuildRequest, Enqueue, FailSocket, FailsNow, Trail, HandleServerEvent;
    var s := p.sessions[i];
    var request := BuildRequest(s.id, s.transcript.value).value;
    assert [] + [request] == [request] && s.pending + call.frames == call.frames;
    var sending := s.(side := Sending, sends := [request], pending := call.frames);
    if call.throws {
      FailSocketFails(SetSession(p, i, sending), i, SendFailure);
      ThrownSends(p, i, sending, FailSocket(SetSession(p, i, sending), i, SendFailure));
    } else {
      StartSends(p, i, request);
    }
  }

  lemma ThrownSends(p: Phone, i: nat, sending: Session, q: Phone)
    requires i < |p.sessions| && sending.id == p.sessions[i].id && FailsNow(SetSession(p, i, sending), q, i, STATUS_TRANSFER)
    ensures Spares(p, q, i) && Says(p, q, i, FailureMsg(sending.id, STATUS_TRANSFER))
    ensures var t := q.sessions[i]; t.outcome == FailedWith(STATUS_TRANSFER) && t.terminal && Gone(t) && t.sends == sending.sends
  {
    hide Trail;
  }

  lemma StartSends(p: Phone, i: nat, request: JsonObject)
    requires Quiet(p.t) && i < |p.sessions| && p.sessions[i].pending == []
    requires var s := p.sessions[i]; s.state != Closed && !s.terminal && s.watch != WatchClosed && s.side != SocketClosed
    ensures var s := p.sessions[i];
            var started := s.(side := AwaitingFrame, sends := [request], handoffTimer := false, resultTimer := true,
                              emitted := s.emitted + [SendStarted]);
            var r := HandleServerEvent(SetSession(p, i, started), i, SendStarted);
            && i < |r.sessions|
            && var q := Replay(SetSession(r, i, r.sessions[i].(pending := [])), i, r.sessions[i].pending);
            && Spares(p, q, i) && Says(p, q, i, SendStartedMsg(s.id)) && q.sessions[i].sends == [request]
            && if Refused(p) then q.sessions[i].state == SessionState.Closed && Gone(q.sessions[i])
               else q.sessions[i].state == AwaitingResult && q.sessions[i].resultTimer && !q.sessions[i].handoffTimer
                    && q.sessions[i].socket == s.socket
  {
    hide Enqueue, Trail;
    var s := p.sessions[i];
    var started := s.(side := AwaitingFrame, sends := [request], handoffTimer := false, resultTimer := true,
                      emitted := s.emitted + [SendStarted]);
    var t := started.(state := AwaitingResult);
    var b := SetSession(SetSession(p, i, started), i, t);
    assert b == SetSession(p, i, t);
    EnqueueSays(b, i, SendStartedMsg(s.id), NoDone);
    var r := Enqueue(b, i, SendStartedMsg(s.id), NoDone);
    assert r.sessions[i].pending == [];
    assert SetSession(r, i, r.sessions[i].(pending := [])).sessions == r.sessions;
  }

  /** The socket opens.  A session that still receives only notes it; one that waits with its transcript
      sends the request if and only if the socket's ready state is open, too. */
  lemma SocketOpenLaw(p: Phone, i: nat, env: PhoneEnv)
    requires Reachable(p) && Enabled(p, SocketOpen(i)) && p.sessions[i].side == Connecting
    ensures var s := p.sessions[i]; var p' := p.(refusals := env.refusals); var q := Step(p, SocketOpen(i), env);
            if s.state == WaitingToSend && s.socket == Some(1) then
              s.transcript.Some? && (env.call.throws || env.call.frames == [] ==> SendsNow(p', q, i, s.transcript.value, env.call))
            else q == SetSession(p', i, s.(side := SocketReady))
  {
    hide Inv, TrySend, BuildRequest, SendsNow;
    ReachableInv(p);
    PhaseOf(p, i);
    SocketPhase(p, i);
    LivePhase(p, i);
    var s := p.sessions[i];
    var r := p.(refusals := env.refusals);
    var ready := s.(side := SocketReady);
    if s.state == WaitingToSend && s.socket == Some(1) {
      WaitingPhase(p, i);
      HeldBuilds(p, i);
      if env.call.throws || env.call.frames == [] {
        TrySendSends(SetSession(r, i, ready), i, env.call);
        SendsLater(r, ready, TrySend(SetSession(r, i, ready), i, env.call), i, s.transcript.value, env.call);
      }
    } else {
      ClosedSendsNothing(SetSession(r, i, ready), i, env.call);
    }
  }

  lemma SocketPhase(p: Phone, i: nat)
    requires Inv(p) && i < |p.sessions| && p.sessions[i].side == Connecting
    ensures Live(p.sessions[i])
  {
    hide Carrier, Sound, WireInv;
    assert OwnerInv(p, i);
  }

  lemma SendsLater(p: Phone, s: Session, q: Phone, i: nat, text: seq<Unit>, call: SendCall)
    requires i < |p.sessions| && SendsNow(SetSession(p, i, s), q, i, text, call)
    requires s.id == p.sessions[i].id && s.socket == p.sessions[i].socket
    ensures SendsNow(p, q, i, text, call)
  {
    hide Trail, BuildRequest;
  }

  lemma HeldBuilds(p: Phone, i: nat)
    requires Reachable(p) && i < |p.sessions| && p.sessions[i].transcript.Some? && IsRequestId(p.sessions[i].id)
    ensures BuildRequest(p.sessions[i].id, p.sessions[i].transcript.value).Some?
  {
    hide Reachable, OnlyActive, Utf8Length;
    ReachableIsLawful(p);
    assert HoldsText(p.sessions[i]);
  }

  // ---- Messages from the watch ----

  /** Everything of session `i` ends, and nothing else changes: it is closed, its socket detached, its
      timers stopped, and what it has waiting is cancelled; what is in flight stays in flight. */
  ghost predicate ClosesNow(p: Phone, q: Phone, i: nat)
    requires i < |p.sessions|
  {
    && Spares(p, q, i)
    && q.sessions[i].id == p.sessions[i].id && q.sessions[i].state == SessionState.Closed && Gone(q.sessions[i])
    && q.t.sent == p.t.sent && q.t.results == p.t.results && q.t.busy == p.t.busy && q.t.next == p.t.next
    && Of(q.t.queue, i) == []
    && (forall j | j != i :: Of(q.t.queue, j) == Of(p.t.queue, j))
  }

  lemma CloseSessionCloses(p: Phone, i: nat)
    requires Inv(p) && i < |p.sessions| && p.sessions[i].state != Closed
    ensures ClosesNow(p, CloseSession(p, i), i)
  {
    hide Inv, Of, Keep, Conserves;
    OwnerFacts(p, i);
    PhaseOf(p, i);
    forall j ensures Of(CloseSession(p, i).t.queue, j) == if j == i then [] else Of(p.t.queue, j) {
      KeepSparesOthers(p.t.queue, i, j);
    }
  }

  /** `SESSION_END` with the active session's identifier ends that session, whatever it was doing,
      unless its outcome is decided already. */
  lemma EndLaw(p: Phone, i: nat, status: nat, payload: Option<JsPayload>, env: PhoneEnv)
    requires Reachable(p) && p.active == Some(i) && i < |p.sessions|
    requires ParseWatchMessage(payload) == Some(End(p.sessions[i].id, status))
    ensures var p' := p.(refusals := env.refusals); var q := Step(p, AppMessage(payload), env);
            if Live(p.sessions[i]) then ClosesNow(p', q, i) && q.active == None else q == p'
  {
    hide Inv, ParseWatchMessage, CloseSession, ClosesNow;
    ReachableInv(p);
    RefusalsKeepInv(p, env.refusals);
    PhaseOf(p, i);
    var r := p.(refusals := env.refusals);
    if Live(p.sessions[i]) {
      LivePhase(p, i);
      CloseSessionCloses(r, i);
      ClosedIsInactive(r, i);
    }
  }

  lemma ClosedIsInactive(p: Phone, i: nat)
    requires i < |p.sessions| && p.sessions[i].state != Closed && p.active == Some(i)
    ensures CloseSession(p, i).active == None
  {
  }

  /** The message is none that the active session could take: another kind than a chunk, a chunk when
      the transcript is complete, or a chunk that does not continue it. */
  predicate Unwanted(s: Session, m: Message) {
    !m.Chunk? || s.state != Receiving || Add(s.assembler, m).1 == Threw
  }

  /** A message with the active session's identifier that it cannot take fails the session with a
      protocol error, and says so; once its outcome is decided, nothing does. */
  lemma UnwantedFails(p: Phone, i: nat, m: Message, payload: Option<JsPayload>, env: PhoneEnv)
    requires Reachable(p) && p.active == Some(i) && i < |p.sessions|
    requires ParseWatchMessage(payload) == Some(m) && m.id == p.sessions[i].id && !m.Begin? && !m.End? && Unwanted(p.sessions[i], m)
    ensures var p' := p.(refusals := env.refusals); var q := Step(p, AppMessage(payload), env);
            if Live(p.sessions[i]) then FailsNow(p', q, i, STATUS_PROTOCOL) else q == p'
  {
    hide Inv, ParseWatchMessage, FailSession, FailsNow, Add;
    ReachableInv(p);
    PhaseOf(p, i);
    var s := p.sessions[i];
    var r := p.(refusals := env.refusals);
    if Live(s) {
      LivePhase(p, i);
      if s.state == Receiving {
        ReceivingWatch(p, i);
      }
      FailSessionFails(r, i, STATUS_PROTOCOL);
      var t := s.(assembler := Add(s.assembler, m).0);
      FailSessionFails(SetSession(r, i, t), i, STATUS_PROTOCOL);
      FailsLater(r, t, FailSession(SetSession(r, i, t), i, STATUS_PROTOCOL), i, STATUS_PROTOCOL);
    }
  }

  lemma ReceivingWatch(p: Phone, i: nat)
    requires Inv(p) && i < |p.sessions| && p.sessions[i].state == Receiving
    ensures p.sessions[i].watch == ReceivingTranscript
  {
    hide Carrier, Sound, WireInv;
    assert OwnerInv(p, i);
  }

  /** A payload that is no message at all fails the active session if it names it or names nobody. */
  lemma MalformedFails(p: Phone, i: nat, payload: Option<JsPayload>, env: PhoneEnv)
    requires Reachable(p) && p.active == Some(i) && i < |p.sessions| && ParseWatchMessage(payload) == None
    ensures var p' := p.(refusals := env.refusals); var q := Step(p, AppMessage(payload), env);
            var names := if payload.Some? && RequestId in payload.value then payload.value[RequestId] else JsNull;
            if Live(p.sessions[i]) && (names in {JsNull, JsString([]), JsNumber(0), JsBool(false), JsString(p.sessions[i].id)})
            then FailsNow(p', q, i, STATUS_PROTOCOL) else q == p'
  {
    hide Inv, ParseWatchMessage, FailSession, FailsNow;
    ReachableInv(p);
    PhaseOf(p, i);
    var r := p.(refusals := env.refusals);
    if Live(p.sessions[i]) {
      LivePhase(p, i);
      FailSessionFails(r, i, STATUS_PROTOCOL);
    } else {
      EndedIgnores(r, i);
    }
  }

  lemma EndedIgnores(p: Phone, i: nat)
    requires i < |p.sessions| && (p.sessions[i].state == Closed || p.sessions[i].terminal)
    ensures FailSession(p, i, STATUS_PROTOCOL) == p
  {
  }

  /** A message of another session - none is active, or the identifiers differ - that starts nothing
      changes nothing. */
  lemma ForeignIsIgnored(p: Phone, m: Message, payload: Option<JsPayload>, env: PhoneEnv)
    requires Reachable(p) && ParseWatchMessage(payload) == Some(m) && !m.Begin?
    requires p.active.Some? && p.active.value < |p.sessions| ==> m.id != p.sessions[p.active.value].id
    ensures Step(p, AppMessage(payload), env) == p.(refusals := env.refusals)
  {
    hide Reachable, ParseWatchMessage;
  }

  /** A chunk that continues the transcript is stored, and nothing else happens. */
  lemma ChunkIsStored(p: Phone, i: nat, m: Message, payload: Option<JsPayload>, env: PhoneEnv)
    requires Reachable(p) && p.active == Some(i) && i < |p.sessions| && p.sessions[i].state == Receiving
    requires ParseWatchMessage(payload) == Some(m) && m.Chunk? && m.id == p.sessions[i].id && Add(p.sessions[i].assembler, m).1 == Incomplete
    ensures var s := p.sessions[i];
            Step(p, AppMessage(payload), env)
            == SetSession(p.(refusals := env.refusals), i, s.(assembler := Add(s.assembler, m).0))
  {
    hide Inv, ParseWatchMessage, Add;
    ReachableInv(p);
    ReceivingIsFresh(p, i);
  }

  /** The chunk that completes it makes the session send, if its socket is open. */
  lemma LastChunkSends(p: Phone, i: nat, m: Message, payload: Option<JsPayload>, env: PhoneEnv)
    requires Reachable(p) && p.active == Some(i) && i < |p.sessions| && p.sessions[i].state == Receiving && p.sessions[i].socket == Some(1)
    requires ParseWatchMessage(payload) == Some(m) && m.Chunk? && m.id == p.sessions[i].id && Add(p.sessions[i].assembler, m).1.Complete?
    requires env.call.throws || env.call.frames == []
    ensures SendsNow(p.(refusals := env.refusals), Step(p, AppMessage(payload), env), i, Add(p.sessions[i].assembler, m).1.transcript, env.call)
  {
    hide Inv, ParseWatchMessage, Add, TrySend, BuildRequest, SendsNow;
    ReachableInv(p);
    ReceivingIsFresh(p, i);
    ReceivingSide(p, i);
    LivePhase(p, i);
    var s := p.sessions[i];
    var r := p.(refusals := env.refusals);
    var t := GivenChunk(s, m);
    AssembledBuilds(s.assembler, m);
    assert SetSession(SetSession(r, i, t.(transcript := None, handoffTimer := s.handoffTimer)), i, t) == SetSession(r, i, t);
    assert Step(p, AppMessage(payload), env) == TrySend(SetSession(r, i, t), i, env.call);
    TrySendSends(SetSession(r, i, t), i, env.call);
    SendsLater(r, t, TrySend(SetSession(r, i, t), i, env.call), i, Add(s.assembler, m).1.transcript, env.call);
  }

  // ---- A new session ----

  lemma NothingSaidYet(p: Phone, n: nat)
    requires Inv(p) && n >= |p.sessions|
    ensures Of(Trail(p.t), n) == []
  {
    hide Conserves, OwnerInv, Acknowledged, FailuresClosed;
    forall k | 0 <= k < |Trail(p.t)| ensures Trail(p.t)[k].owner != n {
      assert Trail(p.t)[k] in Trail(p.t);
    }
    OfNone(Trail(p.t), n);
  }

  /** The new session, once the others are closed. */
  lemma OpenIsNew(p: Phone, id: seq<Unit>, constructed: bool)
    requires Inv(p) && Quiet(p.t)
    ensures var n := |p.sessions|; var q := OpenSocket(p.(sessions := p.sessions + [NewSession(id)]), n, constructed);
            && |q.sessions| == n + 1 && q.sessions[..n] == p.sessions
            && p.t.sent <= q.t.sent && (forall j | 0 <= j < n :: Of(q.t.sent, j) == Of(p.t.sent, j))
            && q.sessions[n].id == id && q.sessions[n].sends == []
            && Of(Trail(q.t), n) == (if constructed then [] else [FailureMsg(id, STATUS_SERVER)])
            && if constructed then
                 q.sessions[n].state == Receiving && q.sessions[n].socket == Some(0) && q.sessions[n].assembler == NewAssembler(id)
               else q.sessions[n].outcome == FailedWith(STATUS_SERVER) && q.sessions[n].terminal && Gone(q.sessions[n])
  {
    hide Inv, Enqueue, Says, Pump;
    var n := |p.sessions|;
    NothingSaidYet(p, n);
    if !constructed {
      var f := NewSession(id).(side := SocketFailed, emitted := [FailureEvent(ServerFailure)]);
      var t := CloseSocket(f).(terminal := true, state := ForwardingTerminal, outcome := FailedWith(STATUS_SERVER));
      var b := p.(sessions := p.sessions + [t]);
      FailingSession(p, id);
      EnqueueIs(b, n, FailureMsg(id, STATUS_SERVER), ThenClose);
      EnqueueSays(b, n, FailureMsg(id, STATUS_SERVER), ThenClose);
      var q := Enqueue(b, n, FailureMsg(id, STATUS_SERVER), ThenClose);
      SaysLast(b, q, n, FailureMsg(id, STATUS_SERVER));
      SaidKeepsSent(b, q, n, FailureMsg(id, STATUS_SERVER));
      assert q.sessions[..n] == p.sessions;
    }
  }

  lemma EnqueueIs(p: Phone, owner: nat, payload: PhoneMsg, done: Done)
    ensures Enqueue(p, owner, payload, done) == Pump(p.(t := Append(p.t, owner, payload, done)))
  {
    hide Pump;
  }

  lemma SaidKeepsSent(p: Phone, q: Phone, i: nat, payload: PhoneMsg)
    requires Quiet(p.t) && Says(p, q, i, payload) && q.t.sent == if p.t.busy then p.t.sent else Trail(q.t)
    ensures p.t.sent <= q.t.sent && forall j | j != i :: Of(q.t.sent, j) == Of(p.t.sent, j)
  {
    SaysLast(p, q, i, payload);
    if !p.t.busy {
      assert Trail(p.t) == p.t.sent;
    }
  }

  lemma StartIsNew(p: Phone, id: seq<Unit>, constructed: bool)
    requires Inv(p) && Quiet(p.t)
    ensures var q := StartSession(p, id, constructed); var n := |p.sessions|;
            && |q.sessions| == n + 1 && (forall j | 0 <= j < n :: q.sessions[j].id == p.sessions[j].id)
            && p.t.sent <= q.t.sent && (forall j | 0 <= j < n :: Of(q.t.sent, j) == Of(p.t.sent, j))
            && q.sessions[n].id == id && q.sessions[n].sends == []
            && Of(Trail(q.t), n) == (if constructed then [] else [FailureMsg(id, STATUS_SERVER)])
            && if constructed then
                 q.sessions[n].state == Receiving && q.sessions[n].socket == Some(0) && q.sessions[n].assembler == NewAssembler(id)
               else q.sessions[n].outcome == FailedWith(STATUS_SERVER) && q.sessions[n].terminal && Gone(q.sessions[n])
  {
    hide Inv, OpenSocket, CloseSession, Gone, Of, Trail;
    ActiveExists(p);
    var c := if p.active.Some? then CloseSession(p, p.active.value) else p;
    if p.active.Some? {
      SomeCloseKeepsInv(p, p.active.value);
      CloseKeepsSent(p, p.active.value);
    }
    OpenIsNew(c, id, constructed);
    var r := OpenSocket(c.(sessions := c.sessions + [NewSession(id)]), |c.sessions|, constructed);
    assert forall j | 0 <= j < |p.sessions| :: r.sessions[j] == r.sessions[..|p.sessions|][j];
  }

  lemma CloseKeepsSent(p: Phone, i: nat)
    requires i < |p.sessions| && Quiet(p.t)
    ensures var q := CloseSession(p, i);
            && q.t.sent == p.t.sent && Quiet(q.t) && |q.sessions| == |p.sessions|
            && forall j | 0 <= j < |p.sessions| :: q.sessions[j].id == p.sessions[j].id
  {
    EmptyKeep(i);
  }

  /** `SESSION_BEGIN` ends every session there was - closed, socket detached, timers stopped, nothing
      left waiting, though what was handed over stays so - and starts a new one, which connects; if
      its socket cannot be constructed it fails as a server failure, and says so. */
  lemma StartLaw(p: Phone, id: seq<Unit>, payload: Option<JsPayload>, env: PhoneEnv)
    requires Reachable(p) && ParseWatchMessage(payload) == Some(Begin(id))
    ensures var q := Step(p, AppMessage(payload), env); var n := |p.sessions|;
            && |q.sessions| == n + 1 && q.active == Some(n)
            && (forall j | 0 <= j < n :: q.sessions[j].id == p.sessions[j].id && q.sessions[j].state == SessionState.Closed
                                         && Gone(q.sessions[j]) && Of(q.t.queue, j) == [])
            && p.t.sent <= q.t.sent && (forall j | 0 <= j < n :: Of(q.t.sent, j) == Of(p.t.sent, j))
            && q.sessions[n].id == id && q.sessions[n].sends == []
            && Of(Trail(q.t), n) == (if env.constructed then [] else [FailureMsg(id, STATUS_SERVER)])
            && if env.constructed then
                 q.sessions[n].state == Receiving && q.sessions[n].socket == Some(0) && q.sessions[n].assembler == NewAssembler(id)
               else q.sessions[n].outcome == FailedWith(STATUS_SERVER) && q.sessions[n].terminal && Gone(q.sessions[n])
  {
    hide Inv, ParseWatchMessage, StartSession, Lawful, Live, Gone, Trail;
    ReachableInv(p);
    ReachableIsLawful(p);
    RefusalsKeepInv(p, env.refusals);
    RefusalsAreLawful(p, env.refusals);
    var r := p.(refusals := env.refusals);
    ActiveExists(p);
    StartIsLawful(r, id, env.constructed);
    StepKeepsInv(p, AppMessage(payload), env);
    var q := StartSession(r, id, env.constructed);
    StartIsNew(r, id, env.constructed);
    forall j | 0 <= j < |p.sessions| ensures Gone(q.sessions[j]) && Of(q.t.queue, j) == [] {
      PhaseOf(q, j);
      ClosedIsNotLive(q.sessions[j]);
    }
  }

  lemma ClosedIsNotLive(s: Session)
    ensures s.state == SessionState.Closed ==> !Live(s)
  {
  }

  // ---- Deliveries ----

  /** Pumping hands on and may cancel, but an owner that has at most one message waiting keeps its word. */
  lemma {:induction false} PumpKeepsWord(p: Phone, owner: nat)
    requires |Of(p.t.queue, owner)| <= 1
    ensures Of(Trail(Pump(p).t), owner) == Of(Trail(p.t), owner)
    decreases |p.t.queue|
  {
    hide DeliveryFailed, Keep;
    if !p.t.busy && p.t.queue != [] {
      var e := p.t.queue[0];
      var taken := p.(t := Take(p.t), refusals := if p.refusals == [] then [] else p.refusals[1..]);
      assert Trail(taken.t) == Trail(p.t) by { assert p.t.queue == [e] + p.t.queue[1..]; }
      if p.refusals != [] && p.refusals[0] {
        var free := taken.(t := Resolve(taken.t, false));
        var failed := DeliveryFailed(free, e);
        CloseShrinks(free, e);
        FailedKeepsWord(free, e, owner);
        PumpKeepsWord(failed, owner);
      }
    }
  }

  lemma FailedKeepsWord(p: Phone, e: Entry, owner: nat)
    requires e.owner == owner ==> Of(p.t.queue, owner) == []
    ensures var q := DeliveryFailed(p, e);
            Of(Trail(q.t), owner) == Of(Trail(p.t), owner) && |Of(q.t.queue, owner)| <= |Of(p.t.queue, owner)|
  {
    hide DeliveryFailed, Cancel, Of;
    FailedTransport(p, e);
    CancelKeepsWord(p.t, e.owner, owner);
  }

  lemma FailedTransport(p: Phone, e: Entry)
    ensures DeliveryFailed(p, e).t == p.t || DeliveryFailed(p, e).t == Cancel(p.t, e.owner)
  {
    hide Cancel, CloseSocket;
  }

  lemma CancelKeepsWord(t: Transport, owner: nat, other: nat)
    requires owner == other ==> Of(t.queue, other) == []
    ensures Of(Trail(Cancel(t, owner)), other) == Of(Trail(t), other) && Of(Cancel(t, owner).queue, other) == Of(t.queue, other)
  {
    hide Keep, Of;
    KeepSparesOthers(t.queue, owner, other);
    OfConcat(t.sent, t.queue, other);
    OfConcat(t.sent, Keep(t.queue, owner), other);
  }

  /** What follows the acknowledgement of a message of a session that is not closed. */
  datatype Sequel = NothingMore | SessionCloses | NextIs(payload: PhoneMsg)

  /** `SEND_STARTED` calls for nothing, a result payload for the next one of the accepted result, and
      the last one, like a failure, for the end of the session. */
  function SequelOf(payload: PhoneMsg, outcome: Outcome): Sequel {
    match payload
    case SendStartedMsg(_) => NothingMore
    case FailureMsg(_, _) => SessionCloses
    case ResultMsg(id, index, _, _, _, _) =>
      if !outcome.Forwarded? then SessionCloses
      else
        match ResultPayloads(id, outcome.success, outcome.response)
        case None => SessionCloses
        case Some(ps) => if index + 1 < |ps| then NextIs(ps[index + 1]) else SessionCloses
  }

  lemma ReportIsNoted(p: Phone, ok: bool)
    requires Current(p.t).Some?
    ensures p.t.results + [ok] <= Finish(p, ok).t.results && |Finish(p, ok).sessions| == |p.sessions|
  {
    hide Tame, SameActive, Pump, DeliverySucceeded, DeliveryFailed;
    var e := Current(p.t).value;
    var r := p.(t := Resolve(p.t, ok));
    SucceededCalm(r, e);
    FailedCalm(r, e);
    var q := if ok then DeliverySucceeded(r, e) else DeliveryFailed(r, e);
    PumpCalm(q);
  }

  lemma PumpStaysClosed(p: Phone, i: nat)
    requires i < |p.sessions| && p.sessions[i].state == SessionState.Closed
    ensures |Pump(p).sessions| == |p.sessions| && Pump(p).sessions[i].state == SessionState.Closed
  {
    hide Pump, Tame;
    PumpCalm(p);
    TameCloses(p.sessions[i], Pump(p).sessions[i]);
  }

  lemma FailedCloses(p: Phone)
    requires Inv(p) && p.t.busy && Current(p.t).Some? && Current(p.t).value.owner < |p.sessions|
    ensures |Finish(p, false).sessions| == |p.sessions| && Finish(p, false).sessions[Current(p.t).value.owner].state == SessionState.Closed
  {
    hide Inv, Pump, CloseSession;
    var e := Current(p.t).value;
    LiveIsOpen(p, e.owner);
    var r := p.(t := Resolve(p.t, false));
    if p.sessions[e.owner].state != SessionState.Closed {
      CloseCloses(SetSession(r, e.owner, r.sessions[e.owner].(watch := WatchFailed)), e.owner);
    }
    PumpStaysClosed(DeliveryFailed(r, e), e.owner);
  }

  lemma SucceededCloses(p: Phone, e: Entry)
    requires e.owner < |p.sessions| && p.sessions[e.owner].watch != WatchClosed
    requires e.done == ThenClose || (e.done.ThenNext? && e.done.index + 1 >= |e.done.payloads|)
    ensures var q := DeliverySucceeded(p, e); |q.sessions| == |p.sessions| && q.sessions[e.owner].state == SessionState.Closed
  {
    hide CloseSession;
    CloseCloses(p, e.owner);
    CloseCloses(SetSession(p, e.owner, p.sessions[e.owner].(watch := WatchComplete)), e.owner);
  }

  /** While `SEND_STARTED` is in flight its session has at most one message waiting. */
  lemma OneWaits(p: Phone)
    requires Inv(p) && p.t.busy && |p.t.results| < |p.t.sent|
    requires var e := p.t.sent[|p.t.results|];
             e.payload.SendStartedMsg? && e.owner < |p.sessions| && p.sessions[e.owner].state != Closed
    ensures |Of(p.t.queue, p.t.sent[|p.t.results|].owner)| <= 1
  {
    hide Carrier, ResultPayloads, ParseServerFrame, IsRequestId;
    CurrentIsOk(p);
    var n := |p.t.results|;
    var i := p.t.sent[n].owner;
    var s := p.sessions[i];
    assert OwnerInv(p, i);
    OfAt(p.t.sent, n, i);
    OfConcat(p.t.sent, p.t.queue, i);
    if s.state == ForwardingTerminal {
      StartedIsFirst(p);
    }
  }

  lemma NextFollows(p: Phone)
    requires Inv(p) && p.t.busy && |p.t.results| < |p.t.sent|
    requires var e := p.t.sent[|p.t.results|];
             && e.done.ThenNext? && e.owner < |p.sessions| && p.sessions[e.owner].state != Closed && e.done.index + 1 < |e.done.payloads|
    ensures var e := p.t.sent[|p.t.results|];
            Of(Trail(Finish(p, true).t), e.owner) == Of(Trail(p.t), e.owner) + [e.done.payloads[e.done.index + 1]]
  {
    hide Inv, Carrier, Of, Pump, SessionInv, ResultPayloads, EntryOk;
    var e := p.t.sent[|p.t.results|];
    var i, ps, k := e.owner, e.done.payloads, e.done.index + 1;
    CurrentIsOk(p);
    LiveIsOpen(p, i);
    AllSent(p);
    var r := p.(t := Resolve(p.t, true));
    var a := r.(t := Append(r.t, i, ps[k], ThenNext(ps, k)));
    AppendWire(r.t, i, ps[k], ThenNext(ps, k));
    OfSnoc(r.t.queue, Entry(i, ps[k], ThenNext(ps, k), r.t.next), i);
    PumpKeepsWord(a, i);
    PumpedIsQuiet(a);
    assert Trail(r.t) == Trail(p.t);
    assert DeliverySucceeded(r, e) == Pump(a);
  }

  lemma PumpedIsQuiet(p: Phone)
    ensures Pump(Pump(p)) == Pump(p)
  {
  }

  /** When a result payload is in flight nothing of its session waits. */
  lemma AllSent(p: Phone)
    requires Inv(p) && p.t.busy && |p.t.results| < |p.t.sent|
    requires var e := p.t.sent[|p.t.results|]; e.done.ThenNext? && e.owner < |p.sessions| && p.sessions[e.owner].state != Closed
    ensures Of(p.t.queue, p.t.sent[|p.t.results|].owner) == []
  {
    hide Inv, EntryOk;
    var n := |p.t.results|;
    var i := p.t.sent[n].owner;
    AcknowledgedIsLast(p);
    OfConcat(p.t.sent, p.t.queue, i);
    assert p.t.sent == p.t.sent[..n + 1] + p.t.sent[n + 1..];
    OfConcat(p.t.sent[..n + 1], p.t.sent[n + 1..], i);
  }

  lemma SequelIs(p: Phone)
    requires Inv(p) && p.t.busy && Current(p.t).Some? && Current(p.t).value.owner < |p.sessions|
    requires p.sessions[Current(p.t).value.owner].state != SessionState.Closed
    ensures var e := Current(p.t).value; var s := p.sessions[e.owner];
            match e.done
            case NoDone => SequelOf(e.payload, s.outcome) == NothingMore && e.payload.SendStartedMsg?
            case ThenClose => SequelOf(e.payload, s.outcome) == SessionCloses
            case ThenNext(ps, index) =>
              SequelOf(e.payload, s.outcome) == if index + 1 < |ps| then NextIs(ps[index + 1]) else SessionCloses
  {
    hide Inv, ResultPayloads;
    CurrentIsOk(p);
  }

  lemma SucceededFollows(p: Phone)
    requires Inv(p) && p.t.busy && Current(p.t).Some? && Current(p.t).value.owner < |p.sessions|
    requires p.sessions[Current(p.t).value.owner].state != SessionState.Closed
    ensures var e := Current(p.t).value; var s := p.sessions[e.owner]; var q := Finish(p, true);
            && |q.sessions| == |p.sessions|
            && match SequelOf(e.payload, s.outcome)
               case SessionCloses => q.sessions[e.owner].state == SessionState.Closed
               case NothingMore => Of(Trail(q.t), e.owner) == Of(Trail(p.t), e.owner)
               case NextIs(payload) => Of(Trail(q.t), e.owner) == Of(Trail(p.t), e.owner) + [payload]
  {
    hide Inv, Of, Pump, SequelOf, CloseSession, Enqueue, EntryOk;
    var e := Current(p.t).value;
    CurrentIsOk(p);
    SequelIs(p);
    LiveIsOpen(p, e.owner);
    ReportIsNoted(p, true);
    var r := p.(t := Resolve(p.t, true));
    match e.done
    case NoDone =>
      OneWaits(p);
      PumpKeepsWord(r, e.owner);
      assert Trail(r.t) == Trail(p.t);
    case ThenClose =>
      SucceededCloses(r, e);
      PumpStaysClosed(DeliverySucceeded(r, e), e.owner);
    case ThenNext(ps, index) =>
      if index + 1 < |ps| {
        NextFollows(p);
      } else {
        SucceededCloses(r, e);
        PumpStaysClosed(DeliverySucceeded(r, e), e.owner);
      }
  }

  /** A delivery report is about the message in flight.  A failed delivery closes its session; a
      successful one is followed by exactly what is due. */
  lemma DeliveryLaw(p: Phone, ok: bool, env: PhoneEnv)
    requires Reachable(p) && p.t.busy
    ensures Current(p.t).Some? && Current(p.t).value.owner < |p.sessions|
    ensures var e := Current(p.t).value; var s := p.sessions[e.owner]; var q := Step(p, Delivered(ok), env);
            && |q.sessions| == |p.sessions|
            && p.t.results + [ok] <= q.t.results
            && (s.state == SessionState.Closed || !ok ==> q.sessions[e.owner].state == SessionState.Closed)
            && (s.state != SessionState.Closed && ok ==>
                  match SequelOf(e.payload, s.outcome)
                  case SessionCloses => q.sessions[e.owner].state == SessionState.Closed
                  case NothingMore => Of(Trail(q.t), e.owner) == Of(Trail(p.t), e.owner)
                  case NextIs(payload) => Of(Trail(q.t), e.owner) == Of(Trail(p.t), e.owner) + [payload])
  {
    hide Inv, Finish, Of, SequelOf;
    ReachableInv(p);
    RefusalsKeepInv(p, env.refusals);
    var r := p.(refusals := env.refusals);
    CurrentIsOk(r);
    OwnerExists(Current(p.t).value, r.sessions);
    var e := Current(p.t).value;
    FinishCalm(r, ok);
    var q := Finish(r, ok);
    if p.sessions[e.owner].state == SessionState.Closed {
      assert Tame(r.sessions[e.owner], q.sessions[e.owner]);
    } else if !ok {
      FailedCloses(r);
    } else {
      SucceededFollows(r);
    }
    ReportIsNoted(r, ok);
  }

  /** A delivery that failed, at once or later, has closed its session. */
  lemma FailedDeliveryCloses(p: Phone, k: nat)
    requires Reachable(p) && k < |p.t.results| && !p.t.results[k]
    ensures k < |p.t.sent| && p.t.sent[k].owner < |p.sessions| && p.sessions[p.t.sent[k].owner].state == SessionState.Closed
  {
    hide Reachable, OwnerInv, EntriesOk, Acknowledged;
    ReachableInv(p);
  }

  /** What each session has said or has waiting to be said is complete for its phase: nothing before
      the request is sent, and `SEND_STARTED` from then on; with a decided outcome, that and the
      failure, or that and the first payloads of the result, at least one. */
  lemma WordSoFar(p: Phone, i: nat)
    requires Reachable(p) && i < |p.sessions|
    ensures var s := p.sessions[i]; var w := Of(Trail(p.t), i);
            && (s.state in {Receiving, WaitingToSend} ==> w == [])
            && (s.state == AwaitingResult ==> w == [SendStartedMsg(s.id)])
            && (s.state == ForwardingTerminal ==>
                  match s.outcome
                  case NoOutcome => false
                  case FailedWith(status) => w == [FailureMsg(s.id, status)] || w == [SendStartedMsg(s.id), FailureMsg(s.id, status)]
                  case Forwarded(success, response) =>
                    match ResultPayloads(s.id, success, response)
                    case None => false
                    case Some(ps) => |w| >= 2 && w <= [SendStartedMsg(s.id)] + ps)
  {
    hide Carrier, ResultPayloads, ParseServerFrame, IsRequestId, IsResponse, Reachable;
    ReachableInv(p);
    assert OwnerInv(p, i);
    var s := p.sessions[i];
    if s.outcome.Forwarded? {
      ParsedIsResponse(s.accepted.value, s.id);
      ResultPayloadsAreComplete(s.id, s.outcome.success, s.outcome.response);
    }
  }

  // ---- What is left ----

  /** The socket's ready state is only noted, and an `onopen` that comes again is ignored. */
  lemma ReadyStateLaw(p: Phone, i: nat, value: nat, env: PhoneEnv)
    requires Reachable(p) && i < |p.sessions| && p.sessions[i].socket.Some?
    ensures Step(p, ReadyState(i, value), env) == SetSession(p.(refusals := env.refusals), i, p.sessions[i].(socket := Some(value)))
    ensures p.sessions[i].side != Connecting ==> Step(p, SocketOpen(i), env) == p.(refusals := env.refusals)
  {
    hide Reachable;
  }

  /** With no session active a message that starts none changes nothing. */
  lemma NobodyListens(p: Phone, payload: Option<JsPayload>, env: PhoneEnv)
    requires Reachable(p) && p.active == None && !Starts(AppMessage(payload))
    ensures Step(p, AppMessage(payload), env) == p.(refusals := env.refusals)
  {
    hide Reachable, ParseWatchMessage;
  }

  // ---- Frames that come in while sending ----

  /** The frames arrive one after the other on the socket, while it is attached. */
  function Hears(p: Phone, i: nat, frames: seq<Frame>): Phone
    decreases |frames|
  {
    if frames == [] then p
    else
      var e, env := SocketMessage(i, frames[0]), PhoneEnv(p.refusals, true, SendCall(false, []));
      Hears(if Enabled(p, e) then Step(p, e, env) else p, i, frames[1..])
  }

  lemma {:induction false} ReplayHears(p: Phone, i: nat, frames: seq<Frame>)
    requires Inv(p) && i < |p.sessions|
    ensures Replay(p, i, frames) == Hears(p, i, frames)
    decreases |frames|
  {
    hide Inv, HandleFrame;
    if frames != [] {
      FrameKeepsInv(p, i, frames[0]);
      PhaseOf(p, i);
      if p.sessions[i].side == AwaitingFrame {
        LivePhase(p, i);
      } else {
        DetachedIgnores(p, i, frames[0]);
      }
      assert p.(refusals := p.refusals) == p;
      ReplayHears(HandleFrame(p, i, frames[0]), i, frames[1..]);
    }
  }

  lemma DetachedIgnores(p: Phone, i: nat, d: Frame)
    requires i < |p.sessions| && p.sessions[i].side != AwaitingFrame
    ensures HandleFrame(p, i, d) == p
  {
  }

  lemma SentThenHeard(p: Phone, i: nat, frames: seq<Frame>)
    requires Inv(p) && i < |p.sessions| && CanSend(p.sessions[i])
    requires BuildRequest(p.sessions[i].id, p.sessions[i].transcript.value).Some?
    ensures TrySend(p, i, SendCall(false, frames)) == Hears(TrySend(p, i, SendCall(false, [])), i, frames)
  {
    hide Inv, TrySend, HandleServerEvent, BuildRequest, Hears, Replay;
    var request := BuildRequest(p.sessions[i].id, p.sessions[i].transcript.value).value;
    SentThenReplayed(p, i, request, []);
    SentThenReplayed(p, i, request, frames);
    StartedKeepsInv(p, i, request);
    var q := HandleServerEvent(SetSession(p, i, StartedSession(p.sessions[i], request)), i, SendStarted);
    NothingReplayed(q, i);
    ReplayHears(q, i, frames);
  }

  lemma NothingReplayed(p: Phone, i: nat)
    requires i < |p.sessions|
    ensures Replay(p, i, []) == p
  {
  }

  /** Frames that arrive while the socket opens and the request is sent are heard as if they arrived,
      one after the other, just after that. */
  lemma FramesWhileOpening(p: Phone, i: nat, frames: seq<Frame>, env: PhoneEnv)
    requires Reachable(p) && Enabled(p, SocketOpen(i)) && p.sessions[i].side == Connecting
    requires p.sessions[i].state == WaitingToSend && p.sessions[i].socket == Some(1)
    ensures Step(p, SocketOpen(i), env.(call := SendCall(false, frames)))
            == Hears(Step(p, SocketOpen(i), env.(call := SendCall(false, []))), i, frames)
  {
    hide Inv, TrySend, BuildRequest, Hears;
    ReachableInv(p);
    LivePhase(p, i);
    HeldBuilds(p, i);
    RefusalsKeepInv(p, env.refusals);
    var r := p.(refusals := env.refusals);
    var ready := p.sessions[i].(side := SocketReady);
    SocketRecordKeepsInv(r, i, ready);
    SentThenHeard(SetSession(r, i, ready), i, frames);
  }

  /** The same for frames that arrive while the last chunk makes the session send. */
  lemma FramesWhileCompleting(p: Phone, i: nat, m: Message, payload: Option<JsPayload>, frames: seq<Frame>, env: PhoneEnv)
    requires Reachable(p) && p.active == Some(i) && i < |p.sessions| && p.sessions[i].state == Receiving && p.sessions[i].socket == Some(1)
    requires ParseWatchMessage(payload) == Some(m) && m.Chunk? && m.id == p.sessions[i].id && Add(p.sessions[i].assembler, m).1.Complete?
    ensures Step(p, AppMessage(payload), env.(call := SendCall(false, frames)))
            == Hears(Step(p, AppMessage(payload), env.(call := SendCall(false, []))), i, frames)
  {
    hide Inv, ParseWatchMessage, TrySend, BuildRequest, Hears, Add;
    ReachableInv(p);
    ReceivingIsFresh(p, i);
    ReceivingSide(p, i);
    RefusalsKeepInv(p, env.refusals);
    var s := p.sessions[i];
    var r := p.(refusals := env.refusals);
    var t := GivenChunk(s, m);
    AssembledBuilds(s.assembler, m);
    assert SetSession(SetSession(r, i, t.(transcript := None, handoffTimer := s.handoffTimer)), i, t) == SetSession(r, i, t);
    CompletedKeepsInv(r, i, m);
    SentThenHeard(SetSession(r, i, t), i, frames);
  }

  lemma CompletedKeepsInv(p: Phone, i: nat, m: Message)
    requires Inv(p) && i < |p.sessions| && p.sessions[i].state == Receiving && Add(p.sessions[i].assembler, m).1.Complete?
    ensures Inv(SetSession(p, i, GivenChunk(p.sessions[i], m)))
  {
    hide Inv, Carrier, Others, ResultPayloads, ParseServerFrame, Utf8Length;
    InvIsActive(p, i);
    SwapKeepsInv(p, i, GivenChunk(p.sessions[i], m));
  }
}
