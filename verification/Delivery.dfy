/** Safety is not vacuous: for every transcript the watch can plan and every response it can show
    there is a run of the composed system that delivers the one and displays the other. */
module Delivery {
  import opened Unicode
  import opened Greedy
  import opened Messages
  import opened Protocol
  import opened WatchCodec
  import opened ResultTransfer
  import opened TranscriptTransfer
  import opened System
  import W = WatchModel
  import WP = WatchProofs
  import P = PhoneModel
  import PS = PhoneSteps
  import PR = PhoneRuns
  import SP = SystemProofs

  // ---- A cooperative world ----

  const WILLING := W.Env(W.Sent, true, true, true, true, true, true, true)
  const LAUNCH := W.Launch(W.Sent, true, true, WILLING)
  const OPEN := P.PhoneEnv([], true, P.SendCall(false, []))

  // ---- Runs ----

  /** The one request and the one frame of a run. */
  datatype Talk = Talk(request: Option<JsonObject>, frame: Frame)

  /** No frame comes in but this one, and only after session 0 has sent the request and nothing else. */
  ghost predicate Plain(s: System, step: SystemStep, x: Talk)
    requires CanHappen(s, step)
  {
    match step
    case PhoneHears(_, env) => env == OPEN
    case PhoneActs(e, env) =>
      env == OPEN && (e.SocketMessage? ==> e == P.SocketMessage(0, x.frame) && x.request.Some? && s.phone.sessions[0].sends == [x.request.value])
    case _ => true
  }

  ghost predicate PlainRun(s: System, steps: seq<SystemStep>, x: Talk)
    decreases |steps|
  {
    steps == [] || (CanHappen(s, steps[0]) && Plain(s, steps[0], x) && PlainRun(Next(s, steps[0]), steps[1..], x))
  }

  ghost predicate Leads(s: System, t: System, x: Talk) {
    exists steps :: Possible(s, steps) && PlainRun(s, steps, x) && Run(s, steps) == t
  }

  lemma {:induction false} RunConcat(s: System, a: seq<SystemStep>, b: seq<SystemStep>, x: Talk)
    requires Possible(s, a) && Possible(Run(s, a), b) && PlainRun(s, a, x) && PlainRun(Run(s, a), b, x)
    ensures Possible(s, a + b) && PlainRun(s, a + b, x) && Run(s, a + b) == Run(Run(s, a), b)
    decreases |a|
  {
    hide CanHappen, Next, Plain;
    if a == [] {
      assert a + b == b;
    } else {
      assert (a + b)[0] == a[0] && (a + b)[1..] == a[1..] + b;
      RunConcat(Next(s, a[0]), a[1..], b, x);
    }
  }

  lemma LeadsThrough(s: System, t: System, u: System, x: Talk)
    requires Leads(s, t, x) && Leads(t, u, x)
    ensures Leads(s, u, x)
  {
    hide Possible, Run, PlainRun;
    var a :| Possible(s, a) && PlainRun(s, a, x) && Run(s, a) == t;
    var b :| Possible(t, b) && PlainRun(t, b, x) && Run(t, b) == u;
    RunConcat(s, a, b, x);
  }

  lemma LeadsBy(s: System, step: SystemStep, x: Talk)
    requires CanHappen(s, step) && Plain(s, step, x)
    ensures Leads(s, Next(s, step), x)
  {
    hide CanHappen, Next, Plain;
    var t := Next(s, step);
    var one := [step];
    assert one[0] == step && one[1..] == [];
    assert Possible(t, []) && Run(t, []) == t && PlainRun(t, [], x);
    assert Possible(s, one);
    assert PlainRun(s, one, x);
    assert Run(s, one) == t;
  }

  // ---- The phone, step by step ----

  function Idle(): P.Transport { P.Transport([], false, [], [], 0, {}) }

  /** Connected, and having assembled `a`. */
  ghost predicate Listening(p: P.Phone, id: seq<Unit>, a: Assembler) {
    && p.t == Idle() && p.active == Some(0) && p.refusals == []
    && p.sessions == [P.NewSession(id).(side := P.SocketReady, socket := Some(1), assembler := a)]
  }

  /** The request is sent, `SEND_STARTED` is on its way or (if `free`) acknowledged. */
  ghost predicate Waiting(p: P.Phone, id: seq<Unit>, request: JsonObject, free: bool) {
    && |p.sessions| == 1 && p.refusals == []
    && var s := p.sessions[0];
    && s.sends == [request]
    && s.id == id && s.state == P.AwaitingResult && !s.terminal && s.watch == P.TranscriptReady && s.side == P.AwaitingFrame && s.socket.Some?
    && p.t.queue == [] && p.t.busy == !free
    && p.t.sent == [P.Entry(0, SendStartedMsg(id), P.NoDone, 0)] && p.t.results == if free then [true] else []
  }

  /** The request was answered with this frame; result payload `k` is on its way. */
  ghost predicate Forwarding(p: P.Phone, id: seq<Unit>, request: JsonObject, frame: Frame, ps: seq<PhoneMsg>, k: nat) {
    && Answered(p, id, request, frame)
    && p.sessions[0].watch == P.ForwardingResult && p.refusals == []
    && k < |ps| && p.t.queue == [] && p.t.busy && |p.t.results| == k + 1 && |p.t.sent| == k + 2
    && p.t.sent[k + 1].owner == 0 && p.t.sent[k + 1].payload == ps[k] && p.t.sent[k + 1].done == P.ThenNext(ps, k)
  }

  /** The one session has sent this one request and accepted this frame as its result. */
  ghost predicate Answered(p: P.Phone, id: seq<Unit>, request: JsonObject, frame: Frame) {
    && |p.sessions| == 1 && p.sessions[0].id == id
    && p.sessions[0].sends == [request] && p.sessions[0].accepted == Some(frame)
  }

  lemma OpensSession(id: seq<Unit>)
    ensures var p := P.StartSession(P.IDLE_PHONE, id, true);
            var q := P.Step(p, P.ReadyState(0, 1), OPEN);
            && P.Enabled(p, P.ReadyState(0, 1)) && P.Enabled(q, P.SocketOpen(0))
            && Listening(P.Step(q, P.SocketOpen(0), OPEN), id, NewAssembler(id))
  {
    var bare := P.IDLE_PHONE.(sessions := [] + [P.NewSession(id)]);
    var s := P.NewSession(id).(side := P.Connecting, socket := Some(0));
    assert P.OpenSocket(bare, 0, true).sessions == [s];
    var p := P.StartSession(P.IDLE_PHONE, id, true);
    assert p == P.Phone(Idle(), [s], Some(0), []);
    var q := P.Step(p, P.ReadyState(0, 1), OPEN);
    assert q.sessions == [s.(socket := Some(1))];
    assert P.SetSession(q, 0, s.(socket := Some(1), side := P.SocketReady)).sessions == [s.(socket := Some(1), side := P.SocketReady)];
  }

  lemma TakesOnly(p: P.Phone, owner: nat, payload: PhoneMsg, done: P.Done)
    requires !p.t.busy && p.t.queue == [] && p.refusals == []
    ensures var e := P.Entry(owner, payload, done, p.t.next);
            P.Enqueue(p, owner, payload, done) == p.(t := p.t.(busy := true, sent := p.t.sent + [e], next := p.t.next + 1))
  {
    var q := p.(t := P.Append(p.t, owner, payload, done));
    assert q.t.queue == [P.Entry(owner, payload, done, p.t.next)];
    assert q.t.queue[1..] == [];
  }

  lemma TakesChunk(p: P.Phone, id: seq<Unit>, a: Assembler, m: Message, b: Assembler)
    requires Listening(p, id, a) && m.Chunk? && Add(a, m) == (b, Incomplete)
    ensures Listening(P.HandleWatchMessage(p, 0, m, OPEN.call), id, b)
  {
    hide Add;
  }

  /** A send that returns at once and brings nothing in. */
  lemma PlainSend(q: P.Phone, request: JsonObject)
    requires |q.sessions| == 1 && P.CanSend(q.sessions[0]) && q.sessions[0].pending == [] && q.sessions[0].state != P.SessionState.Closed
    requires !q.sessions[0].terminal && q.sessions[0].watch != P.WatchClosed
    requires BuildRequest(q.sessions[0].id, q.sessions[0].transcript.value) == Some(request)
    ensures var t := PS.StartedSession(q.sessions[0], request).(state := P.AwaitingResult);
            var r := P.Enqueue(P.SetSession(q, 0, t), 0, SendStartedMsg(t.id), P.NoDone);
            r.sessions == [t] ==> P.TrySend(q, 0, OPEN.call) == r
  {
    hide P.Enqueue, BuildRequest;
    var s := q.sessions[0];
    var started := PS.StartedSession(s, request);
    assert s.pending + [] == [];
    var b := P.SetSession(q, 0, started);
    var t := started.(state := P.AwaitingResult);
    assert P.SetSession(b, 0, t) == P.SetSession(q, 0, t);
    var r := P.HandleServerEvent(b, 0, P.SendStarted);
    if r.sessions == [t] {
      assert P.SetSession(r, 0, t).sessions == [t];
    }
  }

  lemma SendsRequest(p: P.Phone, id: seq<Unit>, a: Assembler, m: Message, b: Assembler, text: seq<Unit>)
    requires Listening(p, id, a) && m.Chunk? && Add(a, m) == (b, Complete(text)) && BuildRequest(id, text).Some?
    ensures Waiting(P.HandleWatchMessage(p, 0, m, OPEN.call), id, BuildRequest(id, text).value, false)
  {
    hide Add, BuildRequest, P.Enqueue, P.TrySend;
    var s := p.sessions[0].(assembler := b, watch := P.TranscriptReady, state := P.WaitingToSend, transcript := Some(text), handoffTimer := true);
    var q := P.SetSession(p, 0, s);
    assert P.SetSession(P.SetSession(p, 0, s.(transcript := None, handoffTimer := false)), 0, s) == q;
    assert P.HandleWatchMessage(p, 0, m, OPEN.call) == P.TrySend(q, 0, OPEN.call);
    PlainSend(q, BuildRequest(id, text).value);
    var t := PS.StartedSession(s, BuildRequest(id, text).value).(state := P.AwaitingResult);
    TakesOnly(P.SetSession(q, 0, t), 0, SendStartedMsg(id), P.NoDone);
    assert P.SetSession(q, 0, t).sessions == [t];
    assert t.sends == [] + [BuildRequest(id, text).value] == [BuildRequest(id, text).value];
  }

  lemma StartAcknowledged(p: P.Phone, id: seq<Unit>, request: JsonObject)
    requires Waiting(p, id, request, false)
    ensures P.Enabled(p, P.Delivered(true)) && Waiting(P.Step(p, P.Delivered(true), OPEN), id, request, true)
  {
  }

  lemma WaitingSent(p: P.Phone, id: seq<Unit>, request: JsonObject)
    requires Waiting(p, id, request, true)
    ensures |p.sessions| == 1 && p.sessions[0].sends == [request]
  {
  }

  lemma ForwardsResult(p: P.Phone, id: seq<Unit>, request: JsonObject, frame: Frame, success: bool, response: seq<Unit>)
    requires Waiting(p, id, request, true) && ParseServerFrame(frame, id) == Result(success, response)
    ensures var ps := ResultPayloads(id, success, response);
            && P.Enabled(p, P.SocketMessage(0, frame)) && ps.Some?
            && var q := P.Step(p, P.SocketMessage(0, frame), OPEN);
            && Forwarding(q, id, request, frame, ps.value, 0) && p.t.sent <= q.t.sent
  {
    hide ParseServerFrame, ResultPayloads, IsResponse, IsRequestId, P.Enqueue, P.CloseSocket;
    PS.ParsedIsResponse(frame, id);
    var s := p.sessions[0];
    var t := s.(resultTimer := false, side := P.SocketComplete, accepted := Some(frame),
                emitted := s.emitted + [P.ResultEvent(success, response)]);
    var q := P.SetSession(p, 0, t);
    PS.ResultIsQueued(q, 0, success, response);
    var ps := ResultPayloads(id, success, response).value;
    TakesOnly(P.SetSession(q, 0, PS.ForwardingSession(t, success, response)), 0, ps[0], P.ThenNext(ps, 0));
    PS.CloseSocketKeeps(t);
    ClosingKeepsTraffic(t);
  }

  lemma ClosingKeepsTraffic(s: P.Session)
    ensures P.CloseSocket(s).sends == s.sends && P.CloseSocket(s).accepted == s.accepted && P.CloseSocket(s).id == s.id
  {
  }

  lemma ForwardsNext(p: P.Phone, id: seq<Unit>, request: JsonObject, frame: Frame, ps: seq<PhoneMsg>, k: nat)
    requires Forwarding(p, id, request, frame, ps, k) && k + 1 < |ps|
    ensures P.Enabled(p, P.Delivered(true)) && Forwarding(P.Step(p, P.Delivered(true), OPEN), id, request, frame, ps, k + 1)
  {
    hide P.Enqueue;
    var r := p.(t := P.Resolve(p.t, true));
    TakesOnly(r, 0, ps[k + 1], P.ThenNext(ps, k + 1));
  }

  // ---- The watch, step by step ----

  /** Chunk `k` of the transcript is in the outbox. */
  ghost predicate InFlight(w: W.Watch, id: seq<Byte>, outboxSize: nat, t: seq<Byte>, k: nat) {
    && WP.WatchInv(w) && w.id == id && w.outboxSize == outboxSize && !w.exited
    && w.app == W.Bridging && w.link == W.Transferring && w.beginDelivered
    && w.captured == Some(t) && w.out.index == k
  }

  lemma AtChunkSends(w: W.Watch, k: nat)
    requires WP.AtChunk(w) && w.out.index == k
    ensures InFlight(W.SendNextChunk(w, WILLING), w.id, w.outboxSize, w.captured.value, k)
  {
    hide W.SendNextChunk, WP.WatchInv, WP.PlannedChunks, WP.ScriptOf;
    WP.SendNextKeepsInv(w, WILLING);
  }

  lemma Launched(id: seq<Byte>, outboxSize: nat)
    ensures var w := W.Init(id, outboxSize, LAUNCH);
            && W.Enabled(w, W.OutboxSentEvent) && w.log == [BeginMsg(id)]
            && W.Step(w, W.OutboxSentEvent, WILLING) == w.(outbox := W.OutboxNone, beginDelivered := true, link := W.Ready)
  {
  }

  lemma Dictated(id: seq<Byte>, outboxSize: nat, t: seq<Byte>)
    requires WP.Plannable(t, outboxSize)
    ensures var w := W.Init(id, outboxSize, LAUNCH).(outbox := W.OutboxNone, beginDelivered := true, link := W.Ready);
            var e := W.Dictation(W.DictationStatus.Success, Some(t));
            W.Enabled(w, e) && InFlight(W.Step(w, e, WILLING), id, outboxSize, t, 0)
  {
    hide Prepare, W.SendNextChunk, CString, InFlight, WP.AtChunk;
    CStringStops(t, []);
    PlanIsReadable(t, outboxSize);
    var w := W.Init(id, outboxSize, LAUNCH).(outbox := W.OutboxNone, beginDelivered := true, link := W.Ready);
    var plan := Prepare(t, outboxSize).value;
    var u := w.(dictationActive := false, out := W.Outgoing(t, plan.capacity, |plan.chunks|, 0, 0, 0), captured := Some(t),
                app := W.Bridging, link := W.Transferring);
    PlannedIsAtChunk(u, t);
    AtChunkSends(u, 0);
  }

  lemma PlannedIsAtChunk(u: W.Watch, t: seq<Byte>)
    requires WP.Plannable(t, u.outboxSize) && u.captured == Some(t)
    requires u.app == W.Bridging && u.link == W.Transferring && WP.Undisturbed(u) && !u.dictationActive
    requires u.timers == W.DISARMED && u.inc == W.NO_INCOMING && u.server == W.Preparing && u.beginDelivered && u.outbox == W.OutboxNone
    requires u.log == [BeginMsg(u.id)]
    requires var plan := Prepare(t, u.outboxSize).value; u.out == W.Outgoing(t, plan.capacity, |plan.chunks|, 0, 0, 0)
    ensures WP.AtChunk(u)
  {
    PlanIsReadable(t, u.outboxSize);
    assert u.log == WP.ScriptOf(u)[..1];
  }

  /** In flight: what has been said, and what an acknowledgement does. */
  lemma Acknowledged(w: W.Watch, id: seq<Byte>, outboxSize: nat, t: seq<Byte>, k: nat)
    requires InFlight(w, id, outboxSize, t, k)
    ensures WP.Plannable(t, outboxSize) && k < |WP.ChunksOf(t, outboxSize)|
    ensures var cs := WP.ChunksOf(t, outboxSize);
            |w.log| == k + 2 && w.log[k + 1] == ChunkMsg(id, k, |cs|, |t|, cs[k])
    ensures W.Enabled(w, W.OutboxSentEvent)
    ensures k + 1 < |WP.ChunksOf(t, outboxSize)| ==> InFlight(W.Step(w, W.OutboxSentEvent, WILLING), id, outboxSize, t, k + 1)
    ensures k + 1 == |WP.ChunksOf(t, outboxSize)| ==>
              var v := W.Step(w, W.OutboxSentEvent, WILLING);
              WP.WatchInv(v) && v.id == id && v.captured == Some(t) && !v.exited && v.app == W.Bridging && v.link == W.AwaitingSendStart
  {
    hide W.Fail, NextLen, Prepare, Chunks, WP.Script, W.SendNextChunk;
    WP.PlanIsChunks(w);
    SendPassAgrees(w.captured.value, w.out.capacity, k);
    ScriptLine(id, t, outboxSize, k);
    if k + 1 < |WP.ChunksOf(t, outboxSize)| {
      var v := w.(outbox := W.OutboxNone, out := w.out.(offset := w.out.offset + w.out.inFlight, index := k + 1, inFlight := 0));
      assert WP.AtChunk(v);
      AtChunkSends(v, k + 1);
    } else {
      WP.LastChunkSent(w, WILLING);
    }
  }

  lemma ScriptLine(id: seq<Byte>, t: seq<Byte>, outboxSize: nat, k: nat)
    requires WP.Plannable(t, outboxSize) && k < |WP.ChunksOf(t, outboxSize)|
    ensures var cs := WP.ChunksOf(t, outboxSize); var script := WP.Script(id, Some(t), outboxSize);
            |script| == |cs| + 1 && script[k + 1] == ChunkMsg(id, k, |cs|, |t|, cs[k])
  {
    hide WP.ChunksOf;
  }

  lemma StartIsDispatched(w: W.Watch)
    requires IsWatchId(w.id) && w.app == W.Bridging
    ensures W.InboxReceived(w, ToDict(SendStartedMsg(w.id)), WILLING) == W.ReceiveSendStarted(w, WILLING)
  {
    hide ToDict, W.IdMatches, W.ToUint32, W.ReceiveSendStarted, W.ReceiveResultChunk, W.ReceiveFailure, W.LinkFail, W.Fail;
    IdText(w.id);
    HeaderReadsBack(w, SendStartedMsg(w.id));
  }

  lemma HearsStart(w: W.Watch)
    requires WP.WatchInv(w) && IsWatchId(w.id) && !w.exited && w.app == W.Bridging && w.link == W.AwaitingSendStart
    ensures var v := W.Step(w, W.Inbox(ToDict(SendStartedMsg(w.id))), WILLING);
            && v.id == w.id && v.captured == w.captured && !v.exited
            && v.app == W.Bridging && v.linkError == W.NoLinkError && v.link == W.AwaitingResult && v.inc == W.NO_INCOMING
  {
    hide ToDict, W.InboxReceived, W.LinkFail, WP.Planned, WP.ScriptOf;
    StartIsDispatched(w);
  }

  /** One more piece, or the whole response on display. */
  lemma HearsPiece(w: W.Watch, ms: seq<PhoneMsg>, k: nat, parts: seq<seq<Scalar>>, vs: seq<Scalar>, success: bool)
    requires IsWatchId(w.id) && k < |ms| && Payloads(ms, w.id, parts, vs, success) && 0 !in vs
    requires Expects(w, Utf8All(Flatten(parts[..k])), k, |ms|, Bytes(vs), success) && !w.exited
    ensures var v := W.Step(w, W.Inbox(ToDict(ms[k])), WILLING);
            && v.id == w.id && v.captured == w.captured && !v.exited
            && if k + 1 == |ms| then Shows(v, Utf8All(vs), success)
               else Expects(v, Utf8All(Flatten(parts[..k + 1])), k + 1, |ms|, Bytes(vs), success)
  {
    hide Utf8All, Utf16All, W.InboxReceived, W.ReceiveResultChunk, W.LinkFail, Decode16, ToDict;
    Decode16Encode(parts[k]);
    PiecesSoFar(parts, vs, k);
    StepsInto(w, ms[k], WILLING);
    PieceHasNoNul(parts, vs, k);
    StoresNext(w, Utf8All(Flatten(parts[..k])), ms[k], WILLING);
    WP.ReceiveFrame(w, ToDict(ms[k]), WILLING);
    if k + 1 == |ms| {
      assert parts[..k + 1] == parts;
    }
  }

  lemma PieceHasNoNul(parts: seq<seq<Scalar>>, vs: seq<Scalar>, k: nat)
    requires Flatten(parts) == vs && 0 !in vs && k < |parts|
    ensures 0 !in parts[k]
  {
    assert parts == parts[..k] + parts[k..];
    FlattenConcat(parts[..k], parts[k..]);
    assert Flatten(parts[k..]) == parts[k] + Flatten(parts[k..][1..]);
    assert forall v :: v in parts[k] ==> v in Flatten(parts[k..]);
    assert forall v :: v in Flatten(parts[k..]) ==> v in Flatten(parts);
  }

  // ---- The composed run ----

  ghost predicate Transferring(s: System, id: seq<Byte>, outboxSize: nat, t: seq<Byte>, k: nat) {
    && IsWatchId(id) && WP.Plannable(t, outboxSize) && k < |WP.ChunksOf(t, outboxSize)|
    && (forall i | 0 <= i < |WP.ChunksOf(t, outboxSize)| :: Decode8(WP.ChunksOf(t, outboxSize)[i]).Some?)
    && s.session == Some(0)
    && InFlight(s.watch, id, outboxSize, t, k)
    && Listening(s.phone, id, Assembled(id, t, WP.ChunksOf(t, outboxSize), k))
  }

  /** Everything is delivered; the phone has sent the request for the whole transcript. */
  ghost predicate Requested(s: System, id: seq<Byte>, t: seq<Byte>, request: JsonObject) {
    && IsWatchId(id) && WP.WatchInv(s.watch) && s.watch.id == id && s.watch.captured == Some(t) && !s.watch.exited
    && s.watch.app == W.Bridging && s.watch.link == W.AwaitingSendStart
    && s.session == Some(0) && Waiting(s.phone, id, request, false)
  }

  lemma BeginHeard(id: seq<Byte>, outboxSize: nat, x: Talk) returns (s: System)
    requires IsWatchId(id)
    ensures Leads(Start(id, outboxSize, LAUNCH, P.IDLE_PHONE), s, x)
    ensures s.session == Some(0) && Listening(s.phone, id, NewAssembler(id)) && s.watch == W.Init(id, outboxSize, LAUNCH)
  {
    hide Listening, W.Init, ParseWatchMessage, ToJs, P.StartSession, Leads, P.TrySend;
    var s0 := Start(id, outboxSize, LAUNCH, P.IDLE_PHONE);
    Launched(id, outboxSize);
    OthersReadBack(id, 0);
    var s1 := Next(s0, PhoneHears(0, OPEN));
    LeadsBy(s0, PhoneHears(0, OPEN), x);
    assert s1.phone == P.StartSession(P.IDLE_PHONE, id, true);
    OpensSession(id);
    var s2 := Next(s1, PhoneActs(P.ReadyState(0, 1), OPEN));
    LeadsBy(s1, PhoneActs(P.ReadyState(0, 1), OPEN), x);
    s := Next(s2, PhoneActs(P.SocketOpen(0), OPEN));
    LeadsBy(s2, PhoneActs(P.SocketOpen(0), OPEN), x);
    LeadsThrough(s0, s1, s2, x);
    LeadsThrough(s0, s2, s, x);
  }

  lemma TransferStarts(id: seq<Byte>, outboxSize: nat, t: seq<Byte>, x: Talk) returns (s: System)
    requires IsWatchId(id) && WP.Plannable(t, outboxSize)
    ensures Leads(Start(id, outboxSize, LAUNCH, P.IDLE_PHONE), s, x) && Transferring(s, id, outboxSize, t, 0)
  {
    hide Listening, InFlight, W.Init, Leads, W.Step, W.Enabled, Prepare;
    PlanIsReadable(t, outboxSize);
    var s0 := BeginHeard(id, outboxSize, x);
    Launched(id, outboxSize);
    var s1 := Next(s0, WatchActs(W.OutboxSentEvent, WILLING));
    LeadsBy(s0, WatchActs(W.OutboxSentEvent, WILLING), x);
    Dictated(id, outboxSize, t);
    var e := W.Dictation(W.DictationStatus.Success, Some(t));
    s := Next(s1, WatchActs(e, WILLING));
    LeadsBy(s1, WatchActs(e, WILLING), x);
    LeadsThrough(s0, s1, s, x);
    LeadsThrough(Start(id, outboxSize, LAUNCH, P.IDLE_PHONE), s0, s, x);
  }

  /** The phone hears the chunk in flight. */
  lemma ChunkHeard(s: System, id: seq<Byte>, outboxSize: nat, t: seq<Byte>, k: nat, x: Talk) returns (u: System)
    requires Transferring(s, id, outboxSize, t, k)
    ensures Leads(s, u, x) && u.watch == s.watch && u.session == s.session
    ensures if k + 1 < |WP.ChunksOf(t, outboxSize)| then Listening(u.phone, id, Assembled(id, t, WP.ChunksOf(t, outboxSize), k + 1))
            else RequestFor(id, t).Some? && Waiting(u.phone, id, RequestFor(id, t).value, false)
  {
    hide Listening, Waiting, InFlight, ParseWatchMessage, ToJs, ToJsText, P.HandleWatchMessage, Leads, Add, Assembled, WP.ChunksOf,
         Decode8, BuildRequest, Prepare, WP.Plannable, RequestFor;
    var cs := WP.ChunksOf(t, outboxSize);
    Acknowledged(s.watch, id, outboxSize, t, k);
    ChunkReadsBack(id, t, outboxSize, k);
    AddsNext(id, t, outboxSize, k);
    var m := Chunk(id, k, |cs|, |t|, ToJsText(cs[k]));
    var a, b := Assembled(id, t, cs, k), Assembled(id, t, cs, k + 1);
    u := Next(s, PhoneHears(k + 1, OPEN));
    LeadsBy(s, PhoneHears(k + 1, OPEN), x);
    ListensFor(s.phone, id, a, m);
    assert u.phone == P.HandleWatchMessage(s.phone, 0, m, OPEN.call);
    if k + 1 < |cs| {
      TakesChunk(s.phone, id, a, m, b);
    } else {
      TranscriptBuilds(id, t);
      SendsRequest(s.phone, id, a, m, b, ToJsText(t));
    }
  }

  /** The request for a whole transcript. */
  function RequestFor(id: seq<Byte>, t: seq<Byte>): Option<JsonObject> {
    if Decode8(t).Some? then BuildRequest(id, ToJsText(t)) else None
  }

  lemma TranscriptBuilds(id: seq<Byte>, t: seq<Byte>)
    requires IsWatchId(id) && Decode8(t).Some?
    ensures RequestFor(id, t).Some? && RequestFor(id, t) == BuildRequest(id, ToJsText(t))
  {
    hide Decode8;
    IdText(id);
    ToJsTextWellFormed(t);
  }

  lemma ListensFor(p: P.Phone, id: seq<Unit>, a: Assembler, m: Message)
    requires Listening(p, id, a) && m.Chunk? && m.id == id
    ensures p.active == Some(0) && |p.sessions| == 1 && p.sessions[0].id == id && p.refusals == []
  {
  }

  lemma {:induction false} TransferCompletes(s: System, id: seq<Byte>, outboxSize: nat, t: seq<Byte>, k: nat, x: Talk) returns (u: System)
    requires Transferring(s, id, outboxSize, t, k)
    ensures RequestFor(id, t).Some? && Leads(s, u, x) && Requested(u, id, t, RequestFor(id, t).value)
    decreases |WP.ChunksOf(t, outboxSize)| - k
  {
    hide Listening, Waiting, InFlight, Leads, WP.WatchInv, W.Step, W.Enabled, WP.ChunksOf, WP.Plannable, Assembled, RequestFor;
    var s1 := ChunkHeard(s, id, outboxSize, t, k, x);
    Acknowledged(s.watch, id, outboxSize, t, k);
    var s2 := Next(s1, WatchActs(W.OutboxSentEvent, WILLING));
    LeadsBy(s1, WatchActs(W.OutboxSentEvent, WILLING), x);
    LeadsThrough(s, s1, s2, x);
    if k + 1 < |WP.ChunksOf(t, outboxSize)| {
      u := TransferCompletes(s2, id, outboxSize, t, k + 1, x);
      LeadsThrough(s, s2, u, x);
    } else {
      u := s2;
    }
  }

  /** Payload `k` of the result is on its way, and the watch expects it. */
  ghost predicate Returning(s: System, t: seq<Byte>, request: JsonObject, frame: Frame, ms: seq<PhoneMsg>, k: nat, parts: seq<seq<Scalar>>,
                            vs: seq<Scalar>, success: bool) {
    && IsWatchId(s.watch.id) && s.watch.captured == Some(t) && !s.watch.exited && k < |ms|
    && Payloads(ms, s.watch.id, parts, vs, success)
    && Expects(s.watch, Utf8All(Flatten(parts[..k])), k, |ms|, Bytes(vs), success)
    && s.session == Some(0) && Forwarding(s.phone, s.watch.id, request, frame, ms, k)
  }

  lemma StartHeard(s: System, id: seq<Byte>, t: seq<Byte>, request: JsonObject, x: Talk) returns (u: System)
    requires Requested(s, id, t, request)
    ensures Leads(s, u, x) && u.session == Some(0) && Waiting(u.phone, id, request, true)
    ensures u.watch.id == id && u.watch.captured == Some(t) && !u.watch.exited
    ensures u.watch.app == W.Bridging && u.watch.linkError == W.NoLinkError && u.watch.link == W.AwaitingResult && u.watch.inc == W.NO_INCOMING
  {
    hide Leads, WP.WatchInv, W.Step, P.Step, ToDict;
    var s1 := Next(s, WatchHears(0, WILLING));
    LeadsBy(s, WatchHears(0, WILLING), x);
    HearsStart(s.watch);
    StartAcknowledged(s.phone, id, request);
    u := Next(s1, PhoneActs(P.Delivered(true), OPEN));
    LeadsBy(s1, PhoneActs(P.Delivered(true), OPEN), x);
    LeadsThrough(s, s1, u, x);
  }

  lemma ResultStarts(s: System, id: seq<Byte>, t: seq<Byte>, request: JsonObject, frame: Frame, success: bool, response: seq<Unit>, x: Talk)
    returns (u: System)
    requires Requested(s, id, t, request) && ParseServerFrame(frame, id) == Result(success, response) && x == Talk(Some(request), frame)
    ensures Leads(s, u, x) && u.watch.id == id
    ensures Decode16(response).Some? && ResultPayloads(id, success, response).Some?
    ensures var vs := Decode16(response).value;
            Returning(u, t, request, frame, ResultPayloads(id, success, response).value, 0, ResponseParts(vs), vs, success)
  {
    hide Leads, WP.WatchInv, P.Step, ParseServerFrame, ResultPayloads, Waiting, Forwarding, IsRequestId, Requested, ResponseParts, Decode16, Utf8All, Utf16All;
    var s1 := StartHeard(s, id, t, request, x);
    RequestedId(s, id, t, request);
    ForwardsResult(s1.phone, id, request, frame, success, response);
    WaitingSent(s1.phone, id, request);
    PS.ParsedIsResponse(frame, id);
    ResultPayloadsAreComplete(id, success, response);
    u := Next(s1, PhoneActs(P.SocketMessage(0, frame), OPEN));
    LeadsBy(s1, PhoneActs(P.SocketMessage(0, frame), OPEN), x);
    LeadsThrough(s, s1, u, x);
    var parts := ResponseParts(Decode16(response).value);
    NothingYet(parts);
    EmptyIsOne(Decode16(response).value);
  }

  lemma RequestedId(s: System, id: seq<Byte>, t: seq<Byte>, request: JsonObject)
    requires Requested(s, id, t, request)
    ensures IsWatchId(id)
  {
  }

  lemma NothingYet(parts: seq<seq<Scalar>>)
    ensures Utf8All(Flatten(parts[..0])) == []
  {
    assert parts[..0] == [];
  }

  lemma EmptyIsOne(vs: seq<Scalar>)
    ensures vs == [] ==> |ResponseParts(vs)| == 1
  {
  }

  /** The watch holds this transcript, its own session has sent this one request and accepted this
      frame as the result. */
  ghost predicate Exchanged(s: System, id: seq<Byte>, t: seq<Byte>, request: JsonObject, frame: Frame) {
    && s.watch.id == id && s.watch.captured == Some(t) && !s.watch.exited
    && s.session == Some(0) && Answered(s.phone, id, request, frame)
  }

  lemma {:induction false} ResultCompletes(s: System, t: seq<Byte>, request: JsonObject, frame: Frame, ms: seq<PhoneMsg>, k: nat,
                                           parts: seq<seq<Scalar>>, vs: seq<Scalar>, success: bool, x: Talk)
    returns (u: System)
    requires Returning(s, t, request, frame, ms, k, parts, vs, success) && 0 !in vs
    ensures Leads(s, u, x) && Shows(u.watch, Utf8All(vs), success)
    ensures Exchanged(u, s.watch.id, t, request, frame)
    decreases |ms| - k
  {
    hide Leads, W.Step, P.Step, ToDict, Expects, Payloads, Flatten, Utf8All, Answered, Shows;
    HearsPiece(s.watch, ms, k, parts, vs, success);
    var s1 := Next(s, WatchHears(k + 1, WILLING));
    LeadsBy(s, WatchHears(k + 1, WILLING), x);
    if k + 1 < |ms| {
      ForwardsNext(s.phone, s.watch.id, request, frame, ms, k);
      var s2 := Next(s1, PhoneActs(P.Delivered(true), OPEN));
      LeadsBy(s1, PhoneActs(P.Delivered(true), OPEN), x);
      LeadsThrough(s, s1, s2, x);
      u := ResultCompletes(s2, t, request, frame, ms, k + 1, parts, vs, success, x);
      LeadsThrough(s, s2, u, x);
    } else {
      u := s1;
    }
  }

  /** Delivery is possible.  Any transcript the watch can plan can be brought to the server, in exactly
      one request that carries the whole of it, and any result frame whose response has no U+0000
      can be brought back in answer, as the only frame of the run, and displayed with its flag. */
  lemma CanBeDelivered(id: seq<Byte>, outboxSize: nat, t: seq<Byte>, frame: Frame) returns (u: System)
    requires IsWatchId(id) && WP.Plannable(t, outboxSize)
    requires ParseServerFrame(frame, id).Result?
    requires Decode16(ParseServerFrame(frame, id).response).Some? ==> 0 !in Decode16(ParseServerFrame(frame, id).response).value
    ensures Leads(Start(id, outboxSize, LAUNCH, P.IDLE_PHONE), u, Talk(RequestFor(id, t), frame))
    ensures u.watch.id == id && u.watch.captured == Some(t) && !u.watch.exited
    ensures u.session == Some(0) && |u.phone.sessions| == 1 && u.phone.sessions[0].id == id
    ensures RequestFor(id, t).Some? && u.phone.sessions[0].sends == [RequestFor(id, t).value]
    ensures u.phone.sessions[0].accepted == Some(frame)
    ensures Decode16(ParseServerFrame(frame, id).response).Some?
    ensures Shows(u.watch, ToCText(ParseServerFrame(frame, id).response), ParseServerFrame(frame, id).success)
  {
    hide Leads, Transferring, Requested, ParseServerFrame, Decode16, Returning, Shows, WP.Plannable, RequestFor;
    var s0, x := Start(id, outboxSize, LAUNCH, P.IDLE_PHONE), Talk(RequestFor(id, t), frame);
    var r := ParseServerFrame(frame, id);
    var s1 := TransferStarts(id, outboxSize, t, x);
    var s2 := TransferCompletes(s1, id, outboxSize, t, 0, x);
    var request := RequestFor(id, t).value;
    var s3 := ResultStarts(s2, id, t, request, frame, r.success, r.response, x);
    var vs := Decode16(r.response).value;
    u := ResultCompletes(s3, t, request, frame, ResultPayloads(id, r.success, r.response).value, 0, ResponseParts(vs), vs, r.success, x);
    LeadsThrough(s0, s1, s2, x);
    LeadsThrough(s0, s2, s3, x);
    LeadsThrough(s0, s3, u, x);
  }

  /** "A displayed result means that the watch bridge is complete" is false: a message dropped after it. */
  lemma DisplayWithFailedLink(id: seq<Byte>, outboxSize: nat, t: seq<Byte>, frame: Frame) returns (u: System)
    requires IsWatchId(id) && WP.Plannable(t, outboxSize)
    requires ParseServerFrame(frame, id).Result?
    requires Decode16(ParseServerFrame(frame, id).response).Some? ==> 0 !in Decode16(ParseServerFrame(frame, id).response).value
    ensures Leads(Start(id, outboxSize, LAUNCH, P.IDLE_PHONE), u, Talk(RequestFor(id, t), frame))
    ensures u.watch.app == W.DisplayingResult && u.watch.link == W.LinkState.Failed
  {
    hide Leads, ParseServerFrame, Decode16, WP.Plannable, RequestFor;
    var s := CanBeDelivered(id, outboxSize, t, frame);
    var x := Talk(RequestFor(id, t), frame);
    u := Next(s, WatchActs(W.InboxDropped, WILLING));
    LeadsBy(s, WatchActs(W.InboxDropped, WILLING), x);
    LeadsThrough(Start(id, outboxSize, LAUNCH, P.IDLE_PHONE), s, u, x);
  }

  /** From a cooperative start there is a run in which the transcript is sent, this frame is accepted
      as its result, and the response is displayed. */
  ghost predicate CanShow(id: seq<Byte>, outboxSize: nat, t: seq<Byte>, frame: Frame, response: seq<Byte>, success: bool)
    requires RequestFor(id, t).Some?
  {
    exists u ::
      && Leads(Start(id, outboxSize, LAUNCH, P.IDLE_PHONE), u, Talk(RequestFor(id, t), frame))
      && Exchanged(u, id, t, RequestFor(id, t).value, frame)
      && Shows(u.watch, response, success)
  }

  lemma LedIsReachable(id: seq<Byte>, outboxSize: nat, u: System, x: Talk)
    requires IsWatchId(id) && Leads(Start(id, outboxSize, LAUNCH, P.IDLE_PHONE), u, x)
    ensures SP.Reachable(u)
  {
    hide Run, Possible, PlainRun, PR.Reachable;
    var steps :| Possible(Start(id, outboxSize, LAUNCH, P.IDLE_PHONE), steps) && Run(Start(id, outboxSize, LAUNCH, P.IDLE_PHONE), steps) == u;
    PR.IdleIsReachable();
  }

  lemma PlannableBuilds(id: seq<Byte>, outboxSize: nat, t: seq<Byte>)
    requires IsWatchId(id) && WP.Plannable(t, outboxSize)
    ensures RequestFor(id, t).Some?
  {
    hide Prepare, RequestFor, Decode8;
    PlanIsReadable(t, outboxSize);
    TranscriptBuilds(id, t);
  }

  /** The exact condition.  A transcript that can be planned can be sent and a frame that the phone
      takes for its result can come to be displayed if and only if the response has no U+0000. */
  lemma ShownIff(id: seq<Byte>, outboxSize: nat, t: seq<Byte>, frame: Frame)
    requires IsWatchId(id) && WP.Plannable(t, outboxSize) && ParseServerFrame(frame, id).Result?
    ensures RequestFor(id, t).Some? && Decode16(ParseServerFrame(frame, id).response).Some?
    ensures var r := ParseServerFrame(frame, id);
            CanShow(id, outboxSize, t, frame, ToCText(r.response), r.success) <==> 0 !in Decode16(r.response).value
  {
    hide Leads, ParseServerFrame, Decode16, WP.Plannable, SP.Reachable, Utf8All, IsResponse, IsRequestId, SP.IsRequest, RequestFor;
    var r := ParseServerFrame(frame, id);
    PlannableBuilds(id, outboxSize, t);
    PS.ParsedIsResponse(frame, id);
    ResponseDecodes(r.response);
    if 0 !in Decode16(r.response).value {
      var u := CanBeDelivered(id, outboxSize, t, frame);
      assert Exchanged(u, id, t, RequestFor(id, t).value, frame);
    }
    if CanShow(id, outboxSize, t, frame, ToCText(r.response), r.success) {
      var u :| && Leads(Start(id, outboxSize, LAUNCH, P.IDLE_PHONE), u, Talk(RequestFor(id, t), frame))
               && Exchanged(u, id, t, RequestFor(id, t).value, frame)
               && Shows(u.watch, ToCText(r.response), r.success);
      LedIsReachable(id, outboxSize, u, Talk(RequestFor(id, t), frame));
      SP.ResultSafety(u);
    }
  }

  lemma ResponseDecodes(response: seq<Unit>)
    requires IsResponse(response)
    ensures Decode16(response).Some?
  {
  }
}
