/** What the phone's operations leave alone in every session they do not drive, however
    deliveries re-enter: the frame of each operation. */
module PhoneFrames {
  import opened Unicode
  import opened Messages
  import opened Protocol
  import opened PhoneModel

  /** `t` is `s` later on, without a new transcript, request, chunk or frame: a terminal outcome is
      never revised, and a closed session stays closed. */
  ghost predicate Tame(s: Session, t: Session) {
    && t.id == s.id && t.sends == s.sends && t.accepted == s.accepted
    && (t.pending == s.pending || t.pending == [])
    && (t.transcript == s.transcript || t.transcript == None)
    && (t.assembler == s.assembler || t.state == Closed)
    && (s.terminal ==> t.terminal && t.outcome == s.outcome)
    && (s.state == Closed ==> t.state == Closed)
    && (t.state == Receiving ==> s.state == Receiving)
  }

  /** Nothing waits while the transport is free. */
  ghost predicate Quiet(t: Transport) { t.busy || t.queue == [] }

  /** History is only ever extended. */
  ghost predicate Grows(t: Transport, u: Transport) {
    t.sent <= u.sent && t.results <= u.results && t.next <= u.next && t.cancelled <= u.cancelled
  }

  /** The active session is closed. */
  predicate ActiveClosed(p: Phone) {
    p.active.Some? && p.active.value < |p.sessions| && p.sessions[p.active.value].state == Closed
  }

  /** The active session stays active unless it closes, and it is closed only if it was before. */
  ghost predicate SameActive(p: Phone, q: Phone) {
    && (ActiveClosed(q) <==> ActiveClosed(p))
    && (|| q.active == p.active
        || (q.active == None && (p.active.value < |q.sessions| ==> q.sessions[p.active.value].state == Closed)))
  }

  ghost predicate Calm(p: Phone, q: Phone) {
    && |q.sessions| == |p.sessions|
    && (forall j | 0 <= j < |p.sessions| :: Tame(p.sessions[j], q.sessions[j]))
    && Grows(p.t, q.t)
    && (Quiet(p.t) ==> Quiet(q.t))
    && SameActive(p, q)
  }

  lemma CalmTrans(p: Phone, q: Phone, r: Phone)
    requires Calm(p, q) && Calm(q, r)
    ensures Calm(p, r)
  {
    hide Tame, SameActive;
    ActiveTrans(p, q, r);
    forall j | 0 <= j < |p.sessions| ensures Tame(p.sessions[j], r.sessions[j]) {
      TameTrans(p.sessions[j], q.sessions[j], r.sessions[j]);
    }
  }

  lemma ActiveTrans(p: Phone, q: Phone, r: Phone)
    requires SameActive(p, q) && SameActive(q, r) && |r.sessions| == |q.sessions|
    requires forall j | 0 <= j < |q.sessions| :: Tame(q.sessions[j], r.sessions[j])
    ensures SameActive(p, r)
  {
    if q.active == None && p.active.Some? && p.active.value < |r.sessions| {
      assert Tame(q.sessions[p.active.value], r.sessions[p.active.value]);
    }
  }

  lemma TameTrans(s: Session, t: Session, u: Session)
    requires Tame(s, t) && Tame(t, u)
    ensures Tame(s, u)
  {
  }

  lemma SetCalm(p: Phone, i: nat, s: Session)
    requires i < |p.sessions| && Tame(p.sessions[i], s) && (s.state == Closed <==> p.sessions[i].state == Closed)
    ensures Calm(p, SetSession(p, i, s))
  {
  }

  lemma CloseCalm(p: Phone, i: nat)
    ensures Calm(p, CloseSession(p, i))
  {
    if i < |p.sessions| && p.sessions[i].state != Closed {
      var q := CloseSession(p, i);
      assert Tame(p.sessions[i], q.sessions[i]);
    }
  }

  lemma FailedCalm(p: Phone, e: Entry)
    ensures Calm(p, DeliveryFailed(p, e))
  {
    hide Tame, CloseSession;
    CalmItself(p);
    if e.owner < |p.sessions| && p.sessions[e.owner].watch != WatchClosed {
      var s := p.sessions[e.owner].(watch := WatchFailed);
      TameWatch(p.sessions[e.owner], WatchFailed);
      SetCalm(p, e.owner, s);
      CloseCalm(SetSession(p, e.owner, s), e.owner);
      CalmTrans(p, SetSession(p, e.owner, s), CloseSession(SetSession(p, e.owner, s), e.owner));
    }
  }

  lemma TameWatch(s: Session, watch: WatchSide)
    ensures Tame(s, s.(watch := watch))
  {
  }

  lemma {:induction false} PumpCalm(p: Phone)
    ensures Calm(p, Pump(p))
    decreases |p.t.queue|
  {
    hide Tame, DeliveryFailed;
    CalmItself(p);
    if !p.t.busy && p.t.queue != [] {
      var e := p.t.queue[0];
      var taken := p.(t := Take(p.t), refusals := if p.refusals == [] then [] else p.refusals[1..]);
      if p.refusals != [] && p.refusals[0] {
        var free := taken.(t := Resolve(taken.t, false));
        var failed := DeliveryFailed(free, e);
        CloseShrinks(free, e);
        FailedCalm(free, e);
        PumpCalm(failed);
        CalmTrans(free, failed, Pump(failed));
      }
    }
  }

  lemma CalmItself(p: Phone)
    ensures Calm(p, p)
  {
  }

  lemma EnqueueCalm(p: Phone, owner: nat, payload: PhoneMsg, done: Done)
    ensures Calm(p, Enqueue(p, owner, payload, done))
  {
    hide Tame, Pump;
    PumpCalm(p.(t := Append(p.t, owner, payload, done)));
  }

  lemma SucceededCalm(p: Phone, e: Entry)
    ensures Calm(p, DeliverySucceeded(p, e))
  {
    hide Tame, Enqueue, CloseSession;
    CalmItself(p);
    if e.owner < |p.sessions| && p.sessions[e.owner].watch != WatchClosed {
      CloseCalm(p, e.owner);
      var s := p.sessions[e.owner].(watch := WatchComplete);
      TameWatch(p.sessions[e.owner], WatchComplete);
      SetCalm(p, e.owner, s);
      CloseCalm(SetSession(p, e.owner, s), e.owner);
      CalmTrans(p, SetSession(p, e.owner, s), CloseSession(SetSession(p, e.owner, s), e.owner));
      if e.done.ThenNext? && e.done.index + 1 < |e.done.payloads| {
        EnqueueCalm(p, e.owner, e.done.payloads[e.done.index + 1], ThenNext(e.done.payloads, e.done.index + 1));
      }
    }
  }

  lemma FinishCalm(p: Phone, ok: bool)
    ensures Calm(p, Finish(p, ok))
  {
    hide Tame, Pump, DeliverySucceeded, DeliveryFailed;
    CalmItself(p);
    if Current(p.t).Some? {
      var e := Current(p.t).value;
      var r := p.(t := Resolve(p.t, ok));
      SucceededCalm(r, e);
      FailedCalm(r, e);
      var q := if ok then DeliverySucceeded(r, e) else DeliveryFailed(r, e);
      PumpCalm(q);
      CalmTrans(r, q, Pump(q));
      assert Quiet(Pump(q).t);
    }
  }

  lemma SendStatusCalm(p: Phone, i: nat, payload: PhoneMsg, done: Done)
    requires i < |p.sessions|
    ensures Calm(p, SendStatus(p, i, payload, done))
  {
    hide Enqueue, Calm;
    CalmItself(p);
    EnqueueCalm(p, i, payload, done);
  }

  lemma SendResultCalm(p: Phone, i: nat, success: bool, response: seq<Unit>)
    requires i < |p.sessions|
    ensures Calm(p, SendResult(p, i, success, response))
  {
    hide Enqueue, CloseSession, Calm, ResultPayloads;
    var s := p.sessions[i];
    CalmItself(p);
    TameWatch(s, WatchFailed);
    TameWatch(s, ForwardingResult);
    var q, r := SetSession(p, i, s.(watch := ForwardingResult)), SetSession(p, i, s.(watch := WatchFailed));
    SetCalm(p, i, s.(watch := WatchFailed));
    SetCalm(p, i, s.(watch := ForwardingResult));
    CloseCalm(r, i);
    CalmTrans(p, r, CloseSession(r, i));
    var ps := ResultPayloads(s.id, success, response);
    if ps.Some? && ps.value != [] {
      EnqueueCalm(q, i, ps.value[0], ThenNext(ps.value, 0));
      CalmTrans(p, q, Enqueue(q, i, ps.value[0], ThenNext(ps.value, 0)));
    }
  }

  lemma TerminalIsTame(s: Session, outcome: Outcome)
    requires !s.terminal && s.state != Closed
    ensures Tame(s, CloseSocket(s).(terminal := true, state := ForwardingTerminal, outcome := outcome))
  {
    if s.side != SocketClosed {
    }
  }

  lemma FailSessionCalm(p: Phone, i: nat, status: nat)
    requires i < |p.sessions|
    ensures Calm(p, FailSession(p, i, status))
  {
    hide SendStatus, Calm, Tame, CloseSocket;
    var s := p.sessions[i];
    CalmItself(p);
    if s.state != Closed && !s.terminal {
      var s' := CloseSocket(s).(terminal := true, state := ForwardingTerminal, outcome := FailedWith(status));
      TerminalIsTame(s, FailedWith(status));
      SetCalm(p, i, s');
      SetLength(p, i, s');
      SendStatusCalm(SetSession(p, i, s'), i, FailureMsg(s.id, status), ThenClose);
      CalmTrans(p, SetSession(p, i, s'), SendStatus(SetSession(p, i, s'), i, FailureMsg(s.id, status), ThenClose));
    }
  }

  lemma SetLength(p: Phone, i: nat, s: Session)
    requires i < |p.sessions|
    ensures |SetSession(p, i, s).sessions| == |p.sessions|
  {
  }

  lemma ServerEventCalm(p: Phone, i: nat, event: SocketEvent)
    requires i < |p.sessions|
    ensures Calm(p, HandleServerEvent(p, i, event))
  {
    hide SendStatus, SendResult, FailSession, Calm, Tame, CloseSocket;
    var s := p.sessions[i];
    CalmItself(p);
    if s.state != Closed && !s.terminal {
      match event
      case SendStarted =>
        var q := SetSession(p, i, s.(state := AwaitingResult));
        assert Tame(s, s.(state := AwaitingResult)) by { AwaitIsTame(s); }
        SetCalm(p, i, s.(state := AwaitingResult));
        SendStatusCalm(q, i, SendStartedMsg(s.id), NoDone);
        CalmTrans(p, q, SendStatus(q, i, SendStartedMsg(s.id), NoDone));
      case ResultEvent(success, response) =>
        var s' := CloseSocket(s).(terminal := true, state := ForwardingTerminal, outcome := Forwarded(success, response));
        TerminalIsTame(s, Forwarded(success, response));
        SetCalm(p, i, s');
        SendResultCalm(SetSession(p, i, s'), i, success, response);
        CalmTrans(p, SetSession(p, i, s'), SendResult(SetSession(p, i, s'), i, success, response));
      case FailureEvent(error) => FailSessionCalm(p, i, StatusForServerError(error));
    }
  }

  lemma AwaitIsTame(s: Session)
    requires s.state != Closed
    ensures Tame(s, s.(state := AwaitingResult))
  {
  }

  /** The socket bridge's own bookkeeping. */
  lemma BookkeepingIsTame(s: Session, t: Session)
    requires t == s.(side := t.side, socket := t.socket, pending := t.pending, handoffTimer := t.handoffTimer,
                     resultTimer := t.resultTimer, emitted := t.emitted)
    requires t.pending == s.pending || t.pending == []
    ensures Tame(s, t)
  {
  }

  lemma FailSocketCalm(p: Phone, i: nat, error: SocketError)
    requires i < |p.sessions|
    ensures Calm(p, FailSocket(p, i, error))
  {
    hide HandleServerEvent, Calm, Tame;
    var s := p.sessions[i];
    CalmItself(p);
    if s.side !in {SocketFailed, SocketClosed, SocketComplete} {
      var s' := s.(side := SocketFailed, handoffTimer := false, resultTimer := false, socket := None,
                   emitted := s.emitted + [FailureEvent(error)]);
      BookkeepingIsTame(s, s');
      SetCalm(p, i, s');
      ServerEventCalm(SetSession(p, i, s'), i, FailureEvent(error));
      CalmTrans(p, SetSession(p, i, s'), HandleServerEvent(SetSession(p, i, s'), i, FailureEvent(error)));
    }
  }

  // ---- Frames ----

  /** What a session has received and sent on its socket, as `t` has it. */
  function Traffic(s: Session, t: Session): Session {
    s.(sends := t.sends, accepted := t.accepted, pending := t.pending)
  }

  function WithTraffic(p: Phone, i: nat, t: Session): Phone
    requires i < |p.sessions|
  {
    SetSession(p, i, Traffic(p.sessions[i], t))
  }

  lemma TrafficIsTame(s: Session, t: Session, u: Session)
    requires Tame(s, t)
    ensures Tame(Traffic(s, u), Traffic(t, u))
  {
  }

  lemma CalmTraffic(p: Phone, q: Phone, i: nat, u: Session)
    requires Calm(p, q) && i < |p.sessions|
    ensures i < |q.sessions| && Calm(WithTraffic(p, i, u), WithTraffic(q, i, u))
  {
    hide Tame;
    TrafficIsTame(p.sessions[i], q.sessions[i], u);
  }

  lemma OwnTraffic(p: Phone, i: nat)
    requires i < |p.sessions|
    ensures WithTraffic(p, i, p.sessions[i]) == p
  {
  }

  lemma LaterTraffic(p: Phone, i: nat, t: Session, u: Session)
    requires i < |p.sessions|
    ensures i < |WithTraffic(p, i, t).sessions| && WithTraffic(WithTraffic(p, i, t), i, u) == WithTraffic(p, i, u)
    ensures WithTraffic(p, i, t).sessions[i] == Traffic(p.sessions[i], t)
  {
  }

  /** Calm but for the traffic of session `i`. */
  ghost predicate CalmBut(p: Phone, q: Phone, i: nat)
    requires i < |p.sessions|
  {
    i < |q.sessions| && Calm(WithTraffic(p, i, q.sessions[i]), q)
  }

  lemma CalmIsCalmBut(p: Phone, q: Phone, i: nat)
    requires Calm(p, q) && i < |p.sessions|
    ensures CalmBut(p, q, i) && q.sessions[i].sends == p.sessions[i].sends && q.sessions[i].accepted == p.sessions[i].accepted
  {
    hide Tame;
    CalmTraffic(p, q, i, q.sessions[i]);
    OwnTraffic(q, i);
    CalmAt(p, q, i);
  }

  lemma CalmButTrans(p: Phone, q: Phone, r: Phone, i: nat)
    requires i < |p.sessions| && CalmBut(p, q, i) && CalmBut(q, r, i)
    ensures CalmBut(p, r, i)
  {
    hide Calm;
    LaterTraffic(p, i, q.sessions[i], r.sessions[i]);
    CalmTraffic(WithTraffic(p, i, q.sessions[i]), q, i, r.sessions[i]);
    CalmTrans(WithTraffic(p, i, r.sessions[i]), WithTraffic(q, i, r.sessions[i]), r);
  }

  /** Session `i` has accepted nothing new but, perhaps, one of these frames. */
  ghost predicate Took(s: Session, t: Session, frames: seq<Frame>) {
    t.accepted == s.accepted || exists k | 0 <= k < |frames| :: t.accepted == Some(frames[k])
  }

  lemma HandleFrameFrame(p: Phone, i: nat, data: Frame)
    requires i < |p.sessions|
    ensures var q := HandleFrame(p, i, data);
            && CalmBut(p, q, i)
            && q.sessions[i].sends == p.sessions[i].sends && Took(p.sessions[i], q.sessions[i], [data])
  {
    hide HandleServerEvent, FailSocket, ParseServerFrame, Calm, Tame;
    var s := p.sessions[i];
    CalmItself(p);
    CalmIsCalmBut(p, p, i);
    FailSocketCalm(p, i, ServerFailure);
    CalmIsCalmBut(p, FailSocket(p, i, ServerFailure), i);
    FailSocketCalm(p, i, ProtocolFailure);
    CalmIsCalmBut(p, FailSocket(p, i, ProtocolFailure), i);
    match ParseServerFrame(data, s.id)
    case Result(success, response) =>
      ResultFrame(p, i, data, success, response);
      assert [data][0] == data;
    case _ =>
  }

  lemma ResultFrame(p: Phone, i: nat, data: Frame, success: bool, response: seq<Unit>)
    requires i < |p.sessions|
    ensures var s := p.sessions[i];
            var s' := s.(resultTimer := false, side := SocketComplete, accepted := Some(data),
                         emitted := s.emitted + [ResultEvent(success, response)]);
            var q := HandleServerEvent(SetSession(p, i, s'), i, ResultEvent(success, response));
            CalmBut(p, q, i) && q.sessions[i].sends == s.sends && q.sessions[i].accepted == Some(data)
  {
    hide HandleServerEvent, Calm, Tame;
    var s := p.sessions[i];
    var taken := s.(accepted := Some(data));
    var s' := taken.(resultTimer := false, side := SocketComplete, emitted := s.emitted + [ResultEvent(success, response)]);
    var q := HandleServerEvent(SetSession(p, i, s'), i, ResultEvent(success, response));
    SaidThen(p, i, taken, s');
    ServerEventCalm(SetSession(p, i, s'), i, ResultEvent(success, response));
    CalmIsCalmBut(SetSession(p, i, s'), q, i);
    CalmButTrans(p, SetSession(p, i, s'), q, i);
  }

  /** New traffic, then bookkeeping. */
  lemma SaidThen(p: Phone, i: nat, said: Session, t: Session)
    requires i < |p.sessions| && said == Traffic(p.sessions[i], said)
    requires t == said.(side := t.side, socket := t.socket, handoffTimer := t.handoffTimer, resultTimer := t.resultTimer, emitted := t.emitted)
    ensures |SetSession(p, i, t).sessions| == |p.sessions| && SetSession(p, i, t).sessions[i] == t
    ensures CalmBut(p, SetSession(p, i, t), i)
  {
    hide Calm, Tame;
    var a := SetSession(p, i, said);
    BookkeepingIsTame(said, t);
    SetCalm(a, i, t);
    assert SetSession(a, i, t) == SetSession(p, i, t);
    assert WithTraffic(p, i, t) == a;
  }

  lemma {:induction false} ReplayFrame(p: Phone, i: nat, frames: seq<Frame>)
    requires i < |p.sessions|
    ensures var q := Replay(p, i, frames);
            && CalmBut(p, q, i)
            && q.sessions[i].sends == p.sessions[i].sends && Took(p.sessions[i], q.sessions[i], frames)
    decreases |frames|
  {
    hide HandleFrame, Calm, CalmBut;
    CalmItself(p);
    CalmIsCalmBut(p, p, i);
    if frames != [] {
      var q := HandleFrame(p, i, frames[0]);
      HandleFrameFrame(p, i, frames[0]);
      assert i < |q.sessions| by { StillThere(p, q, i); }
      ReplayFrame(q, i, frames[1..]);
      StillThere(q, Replay(q, i, frames[1..]), i);
      CalmButTrans(p, q, Replay(q, i, frames[1..]), i);
      TookFirst(p.sessions[i], q.sessions[i], Replay(q, i, frames[1..]).sessions[i], frames);
    }
  }

  lemma StillThere(p: Phone, q: Phone, i: nat)
    requires i < |p.sessions| && CalmBut(p, q, i)
    ensures |q.sessions| == |p.sessions|
  {
  }

  lemma TookFirst(s: Session, t: Session, u: Session, frames: seq<Frame>)
    requires frames != [] && Took(s, t, [frames[0]]) && Took(t, u, frames[1..])
    ensures Took(s, u, frames)
  {
    if u.accepted != t.accepted {
      var k :| 0 <= k < |frames[1..]| && u.accepted == Some(frames[1..][k]);
      assert frames[k + 1] == frames[1..][k];
    } else if t.accepted != s.accepted {
      assert t.accepted == Some([frames[0]][0]);
    }
  }

  // ---- The one operation that sends ----

  lemma CalmAt(p: Phone, q: Phone, i: nat)
    requires Calm(p, q) && i < |p.sessions|
    ensures i < |q.sessions| && Tame(p.sessions[i], q.sessions[i])
    ensures q.sessions[i].sends == p.sessions[i].sends && q.sessions[i].accepted == p.sessions[i].accepted
    ensures q.sessions[i].pending == p.sessions[i].pending || q.sessions[i].pending == []
  {
  }

  /** `TrySend` is calm but for its one request, sent exactly if the socket is open, and a frame that
      it brings in. */
  lemma TrySendFrame(p: Phone, i: nat, call: SendCall)
    requires i < |p.sessions|
    ensures var q := TrySend(p, i, call); var s := p.sessions[i];
            && CalmBut(p, q, i)
            && if CanSend(s) && BuildRequest(s.id, s.transcript.value).Some? then
                 && q.sessions[i].sends == s.sends + [BuildRequest(s.id, s.transcript.value).value]
                 && Took(s, q.sessions[i], s.pending + call.frames)
               else q.sessions[i].sends == s.sends && q.sessions[i].accepted == s.accepted
  {
    hide HandleServerEvent, FailSocket, Replay, BuildRequest, Calm, Tame, CalmBut, Took;
    var s := p.sessions[i];
    CalmItself(p);
    CalmIsCalmBut(p, p, i);
    if CanSend(s) {
      match BuildRequest(s.id, s.transcript.value)
      case None =>
        FailSocketCalm(p, i, SendFailure);
        CalmIsCalmBut(p, FailSocket(p, i, SendFailure), i);
      case Some(request) =>
        var said := s.(sends := s.sends + [request], pending := s.pending + call.frames);
        if call.throws {
          ThrownFrame(p, i, said, said.(side := Sending));
        } else {
          StartedFrame(p, i, said, said.(side := AwaitingFrame, handoffTimer := false, resultTimer := true, emitted := s.emitted + [SendStarted]));
        }
    }
  }

  lemma ThrownFrame(p: Phone, i: nat, said: Session, sending: Session)
    requires i < |p.sessions| && said == Traffic(p.sessions[i], said) && sending == said.(side := sending.side)
    requires said.accepted == p.sessions[i].accepted
    ensures var q := FailSocket(SetSession(p, i, sending), i, SendFailure);
            CalmBut(p, q, i) && q.sessions[i].sends == said.sends && Took(p.sessions[i], q.sessions[i], said.pending)
  {
    hide FailSocket, Calm, Tame;
    SaidThen(p, i, said, sending);
    var a := SetSession(p, i, sending);
    FailSocketCalm(a, i, SendFailure);
    CalmIsCalmBut(a, FailSocket(a, i, SendFailure), i);
    CalmButTrans(p, a, FailSocket(a, i, SendFailure), i);
  }

  lemma StartedFrame(p: Phone, i: nat, said: Session, started: Session)
    requires i < |p.sessions| && said == Traffic(p.sessions[i], said)
    requires started == said.(side := started.side, handoffTimer := started.handoffTimer, resultTimer := started.resultTimer, emitted := started.emitted)
    requires said.accepted == p.sessions[i].accepted
    ensures var q := HandleServerEvent(SetSession(p, i, started), i, SendStarted);
            && i < |q.sessions|
            && var r := Replay(SetSession(q, i, q.sessions[i].(pending := [])), i, q.sessions[i].pending);
            && CalmBut(p, r, i) && r.sessions[i].sends == said.sends && Took(p.sessions[i], r.sessions[i], said.pending)
  {
    hide HandleServerEvent, Replay, Calm, Tame, CalmBut;
    SaidThen(p, i, said, started);
    var b := SetSession(p, i, started);
    var q := HandleServerEvent(b, i, SendStarted);
    ServerEventCalm(b, i, SendStarted);
    CalmAt(b, q, i);
    var r := SetSession(q, i, q.sessions[i].(pending := []));
    BookkeepingIsTame(q.sessions[i], q.sessions[i].(pending := []));
    SetCalm(q, i, q.sessions[i].(pending := []));
    CalmTrans(b, q, r);
    CalmIsCalmBut(b, r, i);
    ReplayFrame(r, i, q.sessions[i].pending);
    CalmButTrans(p, b, r, i);
    CalmButTrans(p, r, Replay(r, i, q.sessions[i].pending), i);
  }

  // ---- Events ----

  /** Like `Tame`, but the transcript at hand may have been sent, and a frame accepted. */
  ghost predicate Mild(s: Session, t: Session) {
    && Tame(Traffic(s, t), t)
    && (|| t.sends == s.sends
        || (&& s.transcript.Some? && BuildRequest(s.id, s.transcript.value).Some?
            && t.sends == s.sends + [BuildRequest(s.id, s.transcript.value).value]))
  }

  ghost predicate MildPhone(p: Phone, q: Phone) {
    && |p.sessions| <= |q.sessions|
    && (forall j | 0 <= j < |p.sessions| :: Mild(p.sessions[j], q.sessions[j]))
    && Grows(p.t, q.t)
    && (Quiet(p.t) ==> Quiet(q.t))
  }

  lemma CalmIsMild(p: Phone, q: Phone)
    requires Calm(p, q)
    ensures MildPhone(p, q)
  {
    hide Tame, BuildRequest;
    forall j | 0 <= j < |p.sessions| ensures Mild(p.sessions[j], q.sessions[j]) {
      TameIsMild(p.sessions[j], q.sessions[j]);
    }
  }

  lemma TameIsMild(s: Session, t: Session)
    requires Tame(s, t)
    ensures Mild(s, t) && t.accepted == s.accepted
  {
  }

  /** A calm step before a mild one. */
  lemma CalmMild(p: Phone, q: Phone, r: Phone)
    requires Calm(p, q) && MildPhone(q, r)
    requires forall j | 0 <= j < |p.sessions| :: q.sessions[j].transcript == p.sessions[j].transcript
    ensures MildPhone(p, r)
  {
    hide BuildRequest;
  }

  /** What the sessions have accepted since `p` came in while they were sending. */
  ghost predicate Takes(p: Phone, q: Phone, frames: seq<Frame>) {
    && |p.sessions| <= |q.sessions|
    && forall j | 0 <= j < |p.sessions| ::
         || q.sessions[j].accepted == p.sessions[j].accepted
         || (q.sessions[j].sends != p.sessions[j].sends && Took(p.sessions[j], q.sessions[j], frames))
  }

  lemma CalmTakes(p: Phone, q: Phone, frames: seq<Frame>)
    requires Calm(p, q)
    ensures Takes(p, q, frames) && |q.sessions| == |p.sessions| && SameActive(p, q)
  {
  }

  lemma CalmButMild(p: Phone, q: Phone, i: nat)
    requires i < |p.sessions| && CalmBut(p, q, i)
    requires var s, t := p.sessions[i], q.sessions[i];
             || t.sends == s.sends
             || (&& s.transcript.Some? && BuildRequest(s.id, s.transcript.value).Some?
                 && t.sends == s.sends + [BuildRequest(s.id, s.transcript.value).value])
    ensures MildPhone(p, q) && |q.sessions| == |p.sessions| && SameActive(p, q)
    ensures forall j | 0 <= j < |p.sessions| && j != i :: q.sessions[j].sends == p.sessions[j].sends && q.sessions[j].accepted == p.sessions[j].accepted
  {
    hide Tame, BuildRequest, Mild;
    var r := WithTraffic(p, i, q.sessions[i]);
    forall j | 0 <= j < |p.sessions| ensures Mild(p.sessions[j], q.sessions[j]) {
      assert Tame(r.sessions[j], q.sessions[j]);
      if j != i {
        TameIsMild(p.sessions[j], q.sessions[j]);
      } else {
        TrafficIsMild(p.sessions[j], q.sessions[j]);
      }
    }
    forall j | 0 <= j < |p.sessions| && j != i
      ensures q.sessions[j].sends == p.sessions[j].sends && q.sessions[j].accepted == p.sessions[j].accepted {
      CalmAt(r, q, j);
    }
  }

  lemma TrafficIsMild(s: Session, t: Session)
    requires Tame(Traffic(s, t), t)
    requires || t.sends == s.sends
             || (&& s.transcript.Some? && BuildRequest(s.id, s.transcript.value).Some?
                 && t.sends == s.sends + [BuildRequest(s.id, s.transcript.value).value])
    ensures Mild(s, t)
  {
  }

  lemma TrySendMild(p: Phone, i: nat, call: SendCall)
    requires i < |p.sessions|
    ensures var q := TrySend(p, i, call);
            && MildPhone(p, q) && |q.sessions| == |p.sessions|
            && SameActive(p, q)
            && (p.sessions[i].pending == [] ==> Takes(p, q, call.frames))
  {
    hide TrySend, Calm, CalmBut, BuildRequest, MildPhone, Took;
    TrySendFrame(p, i, call);
    CalmButMild(p, TrySend(p, i, call), i);
    if p.sessions[i].pending == [] {
      assert [] + call.frames == call.frames;
    }
  }

  lemma SocketEventMild(p: Phone, i: nat, s: Session, call: SendCall)
    requires i < |p.sessions| && s == p.sessions[i].(side := s.side)
    ensures var q := TrySend(SetSession(p, i, s), i, call);
            && MildPhone(p, q) && |q.sessions| == |p.sessions|
            && SameActive(p, q)
            && (s.pending == [] ==> Takes(p, q, call.frames))
  {
    hide TrySend, Tame, BuildRequest, MildPhone;
    BookkeepingIsTame(p.sessions[i], s);
    SetCalm(p, i, s);
    TrySendMild(SetSession(p, i, s), i, call);
    CalmMild(p, SetSession(p, i, s), TrySend(SetSession(p, i, s), i, call));
  }

  lemma TimerEventCalm(p: Phone, i: nat, s: Session, error: SocketError)
    requires i < |p.sessions| && s == p.sessions[i].(handoffTimer := s.handoffTimer, resultTimer := s.resultTimer)
    ensures Calm(p, FailSocket(SetSession(p, i, s), i, error))
  {
    hide FailSocket, Tame, Calm;
    BookkeepingIsTame(p.sessions[i], s);
    SetCalm(p, i, s);
    SetLength(p, i, s);
    FailSocketCalm(SetSession(p, i, s), i, error);
    CalmTrans(p, SetSession(p, i, s), FailSocket(SetSession(p, i, s), i, error));
  }

  /** What a session has accepted since came in with this event. */
  ghost predicate TakesFrom(p: Phone, q: Phone, e: PhoneEvent, frames: seq<Frame>) {
    && |p.sessions| <= |q.sessions|
    && forall j | 0 <= j < |p.sessions| ::
         || q.sessions[j].accepted == p.sessions[j].accepted
         || (e.SocketMessage? && e.i == j && q.sessions[j].accepted == Some(e.data) && q.sessions[j].sends == p.sessions[j].sends)
         || (q.sessions[j].sends != p.sessions[j].sends && Took(p.sessions[j], q.sessions[j], frames))
  }

  /** Every event but a message from the watch. */
  lemma StepMild(p0: Phone, e: PhoneEvent, env: PhoneEnv)
    requires Enabled(p0, e) && !e.AppMessage?
    ensures var q := Step(p0, e, env);
            && MildPhone(p0, q) && |q.sessions| == |p0.sessions|
            && SameActive(p0, q)
            && ((e.SocketOpen? ==> p0.sessions[e.i].pending == []) ==> TakesFrom(p0, q, e, env.call.frames))
  {
    hide Calm, MildPhone, Tame, Finish, FailSocket, HandleFrame, TrySend, Took;
    var p := p0.(refusals := env.refusals);
    var q := Step(p0, e, env);
    match e
    case SocketOpen(i) =>
      if p.sessions[i].side == Connecting {
        SocketEventMild(p, i, p.sessions[i].(side := SocketReady), env.call);
      } else {
        CalmItself(p);
        CalmIsMild(p, q);
      }
      MildForgets(p0, p, q);
    case SocketMessage(i, data) =>
      HandleFrameFrame(p, i, data);
      CalmButMild(p, q, i);
      TookOne(p.sessions[i], q.sessions[i], data);
      MildForgets(p0, p, q);
    case _ =>
      NonSendingStepCalm(p, e);
      CalmIsMild(p, q);
      MildForgets(p0, p, q);
      CalmTakes(p, q, env.call.frames);
  }

  lemma TookOne(s: Session, t: Session, data: Frame)
    requires Took(s, t, [data])
    ensures t.accepted == s.accepted || t.accepted == Some(data)
  {
  }

  lemma CalmLength(p: Phone, q: Phone)
    requires Calm(p, q)
    ensures |q.sessions| == |p.sessions|
  {
  }

  lemma MildForgets(p0: Phone, p: Phone, q: Phone)
    requires p == p0.(refusals := p.refusals) && MildPhone(p, q)
    ensures MildPhone(p0, q)
  {
  }

  lemma NonSendingStepCalm(p: Phone, e: PhoneEvent)
    requires Enabled(p, e) && !e.AppMessage? && !e.SocketOpen? && !e.SocketMessage?
    ensures match e
            case Delivered(ok) => Calm(p, Finish(p, ok))
            case ReadyState(i, value) => Calm(p, SetSession(p, i, p.sessions[i].(socket := Some(value))))
            case SocketErrorEvent(i) => Calm(p, FailSocket(p, i, ServerFailure))
            case SocketCloseEvent(i) => Calm(p, FailSocket(p, i, ServerFailure))
            case HandoffExpired(i) => Calm(p, FailSocket(SetSession(p, i, p.sessions[i].(handoffTimer := false)), i, HandoffTimeout))
            case ResultExpired(i) => Calm(p, FailSocket(SetSession(p, i, p.sessions[i].(resultTimer := false)), i, ResultTimeout))
            case _ => true
  {
    hide Calm, Tame, Finish, FailSocket, HandleFrame;
    match e
    case Delivered(ok) => FinishCalm(p, ok);
    case ReadyState(i, value) =>
      BookkeepingIsTame(p.sessions[i], p.sessions[i].(socket := Some(value)));
      SetCalm(p, i, p.sessions[i].(socket := Some(value)));
    case SocketErrorEvent(i) => FailSocketCalm(p, i, ServerFailure);
    case SocketCloseEvent(i) => FailSocketCalm(p, i, ServerFailure);
    case HandoffExpired(i) => TimerEventCalm(p, i, p.sessions[i].(handoffTimer := false), HandoffTimeout);
    case ResultExpired(i) => TimerEventCalm(p, i, p.sessions[i].(resultTimer := false), ResultTimeout);
    case _ =>
  }

  // ---- Messages from the watch ----

  /** Failing a session makes it terminal for good. */
  lemma FailSessionIsTerminal(p: Phone, i: nat, status: nat)
    requires i < |p.sessions| && p.sessions[i].state != Closed
    ensures |FailSession(p, i, status).sessions| == |p.sessions| && FailSession(p, i, status).sessions[i].terminal
  {
    hide SendStatus, CloseSocket;
    var s := p.sessions[i];
    if !s.terminal {
      var s' := CloseSocket(s).(terminal := true, state := ForwardingTerminal, outcome := FailedWith(status));
      SetLength(p, i, s');
      SendStatusCalm(SetSession(p, i, s'), i, FailureMsg(s.id, status), ThenClose);
    }
  }

  /** Anything but a chunk for a session that is still receiving. */
  lemma OtherMessageCalm(p: Phone, i: nat, m: Message, call: SendCall)
    requires i < |p.sessions| && !(m.Chunk? && p.sessions[i].state == Receiving && p.sessions[i].watch == ReceivingTranscript)
    ensures Calm(p, HandleWatchMessage(p, i, m, call))
  {
    hide Calm, FailSession, CloseSession, SetTranscript, Add;
    CalmItself(p);
    CloseCalm(p, i);
    FailSessionCalm(p, i, STATUS_PROTOCOL);
  }

  /** The record of a session that has just been given a chunk. */
  function GivenChunk(s: Session, m: Message): Session {
    var (a, added) := Add(s.assembler, m);
    match added
    case Complete(transcript) =>
      s.(assembler := a, watch := TranscriptReady, state := WaitingToSend, transcript := Some(transcript), handoffTimer := true)
    case _ => s.(assembler := a)
  }

  lemma GivenTakesNothing(p: Phone, i: nat, m: Message, r: Phone, frames: seq<Frame>)
    requires i < |p.sessions|
    ensures var q := SetSession(p, i, GivenChunk(p.sessions[i], m)); Takes(q, r, frames) ==> Takes(p, r, frames)
  {
    hide Add, Took;
    var q := SetSession(p, i, GivenChunk(p.sessions[i], m));
    if Takes(q, r, frames) {
      forall j | 0 <= j < |p.sessions|
        ensures || r.sessions[j].accepted == p.sessions[j].accepted
                || (r.sessions[j].sends != p.sessions[j].sends && Took(p.sessions[j], r.sessions[j], frames)) {
        TookSame(p.sessions[j], q.sessions[j], r.sessions[j], frames);
      }
    }
  }

  lemma TookSame(s: Session, t: Session, u: Session, frames: seq<Frame>)
    requires t.accepted == s.accepted
    ensures Took(t, u, frames) <==> Took(s, u, frames)
  {
  }

  lemma ChunkMild(p: Phone, i: nat, m: Message, call: SendCall)
    requires i < |p.sessions| && m.Chunk?
    requires var s := p.sessions[i];
             s.state == Receiving && s.watch == ReceivingTranscript && !s.terminal && s.transcript == None
             && s.side !in {SocketClosed, SocketFailed}
    ensures var q := HandleWatchMessage(p, i, m, call);
            && |q.sessions| == |p.sessions|
            && MildPhone(SetSession(p, i, GivenChunk(p.sessions[i], m)), q)
            && SameActive(p, q)
            && (p.sessions[i].pending == [] ==> Takes(p, q, call.frames))
            && (Add(p.sessions[i].assembler, m).1.Threw? ==> q.sessions[i].terminal)
  {
    hide Calm, MildPhone, FailSession, TrySend, Add, Takes;
    var s := p.sessions[i];
    var t := GivenChunk(s, m);
    var q := SetSession(p, i, t);
    SetLength(p, i, t);
    assert SameActive(p, q);
    GivenTakesNothing(p, i, m, HandleWatchMessage(p, i, m, call), call.frames);
    match Add(s.assembler, m).1
    case Threw =>
      FailSessionCalm(q, i, STATUS_PROTOCOL);
      CalmIsMild(q, FailSession(q, i, STATUS_PROTOCOL));
      CalmTakes(q, FailSession(q, i, STATUS_PROTOCOL), call.frames);
      FailSessionIsTerminal(q, i, STATUS_PROTOCOL);
    case Incomplete =>
      CalmItself(q);
      CalmIsMild(q, q);
      CalmTakes(q, q, call.frames);
    case Complete(transcript) =>
      TrySendMild(q, i, call);
      assert SetSession(SetSession(p, i, t.(transcript := None, handoffTimer := s.handoffTimer)), i, t) == q;
  }

  lemma OpenSocketCalm(p: Phone, i: nat, constructed: bool)
    requires i < |p.sessions|
    ensures Calm(p, OpenSocket(p, i, constructed))
  {
    hide Calm, FailSocket, Tame;
    var s := p.sessions[i];
    CalmItself(p);
    if s.side == SocketIdle {
      var t := if constructed then s.(side := Connecting, socket := Some(0)) else s.(side := Connecting);
      BookkeepingIsTame(s, t);
      SetCalm(p, i, t);
      SetLength(p, i, t);
      FailSocketCalm(SetSession(p, i, t), i, ServerFailure);
      CalmTrans(p, SetSession(p, i, t), FailSocket(SetSession(p, i, t), i, ServerFailure));
    }
  }

  /** Starting a session closes the active one and leaves the rest alone. */
  lemma StartFrame(p: Phone, id: seq<Unit>, constructed: bool)
    ensures var q := StartSession(p, id, constructed);
            && |q.sessions| == |p.sessions| + 1
            && MildPhone(p, q)
            && (forall j | 0 <= j < |p.sessions| :: q.sessions[j].accepted == p.sessions[j].accepted)
            && Tame(NewSession(id), q.sessions[|p.sessions|])
  {
    hide OpenSocket, CloseSession, Tame;
    CalmItself(p);
    var q := if p.active.Some? then CloseSession(p, p.active.value) else p;
    if p.active.Some? {
      CloseCalm(p, p.active.value);
    }
    var i := |q.sessions|;
    var bare := q.(sessions := q.sessions + [NewSession(id)]);
    var r := OpenSocket(bare, i, constructed);
    OpenSocketCalm(bare, i, constructed);
    assert Tame(bare.sessions[i], r.sessions[i]);
    forall j | 0 <= j < |p.sessions| ensures Mild(p.sessions[j], r.sessions[j]) && r.sessions[j].accepted == p.sessions[j].accepted {
      assert Tame(bare.sessions[j], r.sessions[j]);
      TameTrans(p.sessions[j], q.sessions[j], r.sessions[j]);
      TameIsMild(p.sessions[j], r.sessions[j]);
    }
  }
}
