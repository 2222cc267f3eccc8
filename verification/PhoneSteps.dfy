/** Every event of the phone keeps the invariant. */
module PhoneSteps {
  import opened Unicode
  import opened Messages
  import opened Protocol
  import opened PhoneModel
  import opened PhoneProofs

  // ---- Acknowledged deliveries ----

  lemma OfAt(es: seq<Entry>, n: nat, i: nat)
    requires n < |es| && es[n].owner == i
    ensures Of(es[..n + 1], i) == Of(es[..n], i) + [es[n].payload]
    ensures var c := |Of(es[..n], i)|; c < |Of(es, i)| && Of(es, i)[c] == es[n].payload
  {
    assert es[..n + 1] == es[..n] + [es[n]];
    OfSnoc(es[..n], es[n], i);
    assert es == es[..n + 1] + es[n + 1..];
    OfConcat(es[..n + 1], es[n + 1..], i);
  }

  lemma PayloadsAreNumbered(id: seq<Unit>, success: bool, response: seq<Unit>)
    ensures var ps := ResultPayloads(id, success, response);
            ps.Some? ==> forall k | 0 <= k < |ps.value| :: ps.value[k].ResultMsg? && ps.value[k].index == k && ps.value[k].id == id
  {
    hide Utf8Length, Split;
  }

  /** An acknowledged result payload of a live session is the last thing the session has said. */
  lemma AcknowledgedIsLast(p: Phone)
    requires Inv(p) && p.t.busy && |p.t.results| < |p.t.sent|
    requires var e := p.t.sent[|p.t.results|];
             e.done.ThenNext? && e.owner < |p.sessions| && p.sessions[e.owner].state != Closed
    ensures var e := p.t.sent[|p.t.results|]; var s := p.sessions[e.owner];
            && EntryOk(e, p.sessions)
            && s.state == ForwardingTerminal && s.outcome.Forwarded?
            && e.done.index < |e.done.payloads|
            && Started(s) == [SendStartedMsg(s.id)]
            && Of(Trail(p.t), e.owner) == Started(s) + e.done.payloads[..e.done.index + 1]
            && |Of(p.t.sent[..|p.t.results| + 1], e.owner)| == e.done.index + 2
  {
    hide Carrier, ResultPayloads, ParseServerFrame, IsRequestId;
    CurrentIsOk(p);
    var n := |p.t.results|;
    var e := p.t.sent[n];
    var s := p.sessions[e.owner];
    assert OwnerInv(p, e.owner);
    PayloadsAreNumbered(s.id, s.outcome.success, s.outcome.response);
    var ps := e.done.payloads;
    OfAt(p.t.sent, n, e.owner);
    OfConcat(p.t.sent, p.t.queue, e.owner);
    var w := Of(Trail(p.t), e.owner);
    var c := |Of(p.t.sent[..n], e.owner)|;
    assert w[c] == e.payload && Word(s)[c] == e.payload;
    assert Word(s) == Started(s) + ps;
    assert c == e.done.index + 1;
    assert |w| == c + 1;
    assert w == Word(s)[..c + 1];
  }

  lemma AppendWire(t: Transport, i: nat, payload: PhoneMsg, done: Done)
    ensures Of(Trail(Append(t, i, payload, done)), i) == Of(Trail(t), i) + [payload]
  {
    var e := Entry(i, payload, done, t.next);
    assert Trail(Append(t, i, payload, done)) == Trail(t) + [e];
    OfSnoc(Trail(t), e, i);
  }

  lemma NextPieceKeepsInv(p: Phone)
    requires Inv(p) && p.t.busy && |p.t.results| < |p.t.sent|
    requires var e := p.t.sent[|p.t.results|];
             && e.done.ThenNext? && e.owner < |p.sessions| && p.sessions[e.owner].state != Closed
             && e.done.index + 1 < |e.done.payloads|
    ensures var e := p.t.sent[|p.t.results|]; var k := e.done.index + 1;
            var q := Enqueue(p.(t := Resolve(p.t, true)), e.owner, e.done.payloads[k], ThenNext(e.done.payloads, k));
            Inv(q) && |q.sessions| == |p.sessions|
  {
    hide Inv, Carrier, Enqueue, SessionInv, ResultPayloads;
    var e := p.t.sent[|p.t.results|];
    var s, ps, k := p.sessions[e.owner], e.done.payloads, e.done.index + 1;
    AcknowledgedIsLast(p);
    ReleasedOthers(p);
    var r := p.(t := Resolve(p.t, true));
    AppendWire(r.t, e.owner, ps[k], ThenNext(ps, k));
    PayloadsAreNumbered(s.id, s.outcome.success, s.outcome.response);
    assert Trail(r.t) == Trail(p.t);
    assert Started(s) + ps[..k] + [ps[k]] == (Started(s) + ps)[..k + 2];
    EnqueueKeepsInv(r, e.owner, ps[k], ThenNext(ps, k));
  }

  lemma ReleasedOthers(p: Phone)
    requires Inv(p) && p.t.busy && |p.t.results| < |p.t.sent|
    requires var e := p.t.sent[|p.t.results|]; e.owner < |p.sessions| && p.sessions[e.owner].state != Closed
    ensures var r := p.(t := Resolve(p.t, true)); var i := p.t.sent[|p.t.results|].owner;
            Others(r, i) && Carrier(r, -1) && SessionInv(r.sessions[i])
  {
    hide Conserves, Word, EntryOk, OwnerInv, WireInv;
    ResolvedOthers(p, true);
    OwnerFacts(p, p.t.sent[|p.t.results|].owner);
  }

  /** Only `SEND_STARTED` has nothing to do once delivered; it is the first thing its session says. */
  lemma StartedIsFirst(p: Phone)
    requires Inv(p) && p.t.busy && |p.t.results| < |p.t.sent|
    requires var e := p.t.sent[|p.t.results|]; e.done.NoDone? && e.owner < |p.sessions| && p.sessions[e.owner].state == ForwardingTerminal
    ensures var n := |p.t.results|; var e := p.t.sent[n];
            |Started(p.sessions[e.owner])| == 1 && |Of(p.t.sent[..n], e.owner)| == 0 && |Of(p.t.sent[..n + 1], e.owner)| == 1
  {
    hide Carrier, ResultPayloads, ParseServerFrame, IsRequestId;
    CurrentIsOk(p);
    var n := |p.t.results|;
    var e := p.t.sent[n];
    var s := p.sessions[e.owner];
    assert OwnerInv(p, e.owner);
    OfAt(p.t.sent, n, e.owner);
    OfConcat(p.t.sent, p.t.queue, e.owner);
    var c := |Of(p.t.sent[..n], e.owner)|;
    assert Of(Trail(p.t), e.owner)[c] == e.payload && Word(s)[c] == e.payload;
    if s.outcome.Forwarded? {
      PayloadsAreNumbered(s.id, s.outcome.success, s.outcome.response);
    }
  }

  lemma StartedWire(t: Transport, i: nat, s: Session)
    requires WireInv(t, i, s) && t.busy && |t.results| < |t.sent| && s.state != Closed
    requires s.state == ForwardingTerminal ==>
               |Started(s)| == 1 && |Of(t.sent[..|t.results|], i)| == 0 && |Of(t.sent[..|t.results| + 1], i)| == 1
    ensures WireInv(Resolve(t, true), i, s)
  {
    hide Word, Started;
  }

  lemma StartedReleased(p: Phone)
    requires Inv(p) && p.t.busy && |p.t.results| < |p.t.sent|
    requires var e := p.t.sent[|p.t.results|]; e.done.NoDone? && e.owner < |p.sessions| && p.sessions[e.owner].state != Closed
    ensures Inv(p.(t := Resolve(p.t, true)))
  {
    hide Carrier, WireInv, SessionInv, Started;
    ResolvedOthers(p, true);
    var i := p.t.sent[|p.t.results|].owner;
    assert OwnerInv(p, i);
    if p.sessions[i].state == ForwardingTerminal {
      StartedIsFirst(p);
    }
    StartedWire(p.t, i, p.sessions[i]);
    assert OwnerInv(p.(t := Resolve(p.t, true)), i);
  }

  lemma LastPieceKeepsInv(p: Phone, i: nat)
    requires Others(p, i) && Carrier(p, -1)
    ensures var q := CloseSession(SetSession(p, i, p.sessions[i].(watch := WatchComplete)), i);
            Inv(q) && |q.sessions| == |p.sessions|
  {
    hide Conserves, ResultPayloads, ParseServerFrame, CloseSession, EntriesOk, Acknowledged;
    SwapKeepsCarrier(p, i, p.sessions[i].(watch := WatchComplete));
    CloseKeepsInv(SetSession(p, i, p.sessions[i].(watch := WatchComplete)), i);
  }

  /** A live session has had no failed delivery, so replacing its record keeps that too. */
  lemma SwapKeepsCarrier(p: Phone, i: nat, s: Session)
    requires i < |p.sessions| && Carrier(p, -1) && p.sessions[i].state != Closed
    requires forall j | 0 <= j < |p.sessions| && j != i :: OwnerInv(p, j)
    requires s.id == p.sessions[i].id && (p.sessions[i].outcome == NoOutcome || s.outcome == p.sessions[i].outcome)
    ensures Carrier(SetSession(p, i, s), -1) && Carrier(SetSession(p, i, s), i)
    ensures forall j | 0 <= j < |p.sessions| && j != i :: OwnerInv(SetSession(p, i, s), j)
  {
    hide Conserves, EntryOk, OwnerInv, Acknowledged;
    assert Carrier(p, i);
    SwapKeepsOthers(p, i, s);
  }

  lemma SucceededKeepsInv(p: Phone)
    requires Inv(p) && p.t.busy && |p.t.results| < |p.t.sent|
    ensures var q := DeliverySucceeded(p.(t := Resolve(p.t, true)), p.t.sent[|p.t.results|]);
            Inv(q) && |q.sessions| == |p.sessions|
  {
    hide Inv, Carrier, Others, Enqueue, CloseSession, SessionInv, ResultPayloads, Resolve, WireInv;
    CurrentIsOk(p);
    var e := p.t.sent[|p.t.results|];
    var r := p.(t := Resolve(p.t, true));
    LiveIsOpen(p, e.owner);
    if p.sessions[e.owner].watch == WatchClosed {
      ClosedAbsorbs(p, true);
    } else {
      ReleasedOthers(p);
      match e.done
      case NoDone => StartedReleased(p);
      case ThenClose => CloseKeepsInv(r, e.owner);
      case ThenNext(payloads, index) =>
        if index + 1 < |payloads| {
          NextPieceKeepsInv(p);
        } else {
          LastPieceKeepsInv(r, e.owner);
        }
    }
  }

  lemma LiveIsOpen(p: Phone, i: nat)
    requires Inv(p) && i < |p.sessions|
    ensures p.sessions[i].watch != WatchClosed <==> p.sessions[i].state != Closed
  {
    hide Carrier, WireInv, Sound;
    assert OwnerInv(p, i);
  }

  lemma FinishKeepsInv(p: Phone, ok: bool)
    requires Inv(p) && p.t.busy
    ensures Inv(Finish(p, ok)) && |Finish(p, ok).sessions| == |p.sessions|
  {
    hide Inv, Pump, DeliverySucceeded, DeliveryFailed, Resolve, EntryOk;
    CurrentIsOk(p);
    var e := p.t.sent[|p.t.results|];
    if ok {
      SucceededKeepsInv(p);
      PumpKeepsInv(DeliverySucceeded(p.(t := Resolve(p.t, true)), e));
    } else {
      FailedDeliveryKeepsInv(p);
      PumpKeepsInv(DeliveryFailed(p.(t := Resolve(p.t, false)), e));
    }
  }

  // ---- A live session speaks ----

  /** The session may still end in any way: no terminal outcome has been decided. */
  ghost predicate Active(p: Phone, i: nat) {
    && i < |p.sessions| && Others(p, i) && Carrier(p, -1)
    && var s := p.sessions[i];
    && !s.terminal && s.outcome == NoOutcome && s.watch in {ReceivingTranscript, TranscriptReady}
    && Of(Trail(p.t), i) == Started(s)
  }

  lemma AcknowledgedIsSaid(t: Transport, i: nat)
    ensures |t.results| <= |t.sent| ==> |Of(t.sent[..|t.results|], i)| <= |Of(Trail(t), i)|
  {
    if |t.results| <= |t.sent| {
      assert t.sent == t.sent[..|t.results|] + t.sent[|t.results|..];
      OfConcat(t.sent[..|t.results|], t.sent[|t.results|..], i);
      OfConcat(t.sent, t.queue, i);
    }
  }

  lemma SayKeepsInv(p: Phone, i: nat, s: Session, payload: PhoneMsg, done: Done)
    requires Others(p, i) && Carrier(p, -1) && p.sessions[i].outcome == NoOutcome
    requires SessionInv(s) && s.id == p.sessions[i].id && s.state != Closed
    requires EntryOk(Entry(i, payload, done, p.t.next), p.sessions[i := s])
    requires WireInv(Append(p.t, i, payload, done), i, s)
    ensures Inv(Enqueue(SetSession(p, i, s), i, payload, done))
    ensures |Enqueue(SetSession(p, i, s), i, payload, done).sessions| == |p.sessions|
  {
    hide Carrier, Enqueue, ResultPayloads, EntryOk, Word, Sound;
    var q := SetSession(p, i, s);
    SwapKeepsCarrier(p, i, s);
    AppendWire(p.t, i, payload, done);
    var w := Of(Trail(p.t), i);
    assert w <= w + [payload] <= Word(s);
    EnqueueKeepsInv(q, i, payload, done);
  }

  lemma FailSessionKeepsInv(p: Phone, i: nat, status: nat)
    requires Active(p, i)
    ensures Inv(FailSession(p, i, status)) && |FailSession(p, i, status).sessions| == |p.sessions|
  {
    hide Carrier, Enqueue, ResultPayloads, Inv, CloseSocket, SessionInv, WireInv, Sound;
    var s := p.sessions[i];
    var s' := CloseSocket(s).(terminal := true, state := ForwardingTerminal, outcome := FailedWith(status));
    FailedIsSound(s, status);
    FailureWire(p.t, i, s, status);
    SayKeepsInv(p, i, s', FailureMsg(s.id, status), ThenClose);
  }

  lemma FailedIsSound(s: Session, status: nat)
    requires Sound(s) && !s.terminal && s.outcome == NoOutcome && s.watch in {ReceivingTranscript, TranscriptReady}
    ensures var t := CloseSocket(s).(terminal := true, state := ForwardingTerminal, outcome := FailedWith(status));
            && SessionInv(t) && t.id == s.id && t.watch == s.watch && Started(t) == Started(s) && Word(t) == Started(s) + [FailureMsg(s.id, status)]
  {
    hide ParseServerFrame, IsRequestId, EmittedOk;
    if s.side != SocketClosed {
    }
  }

  /** The failure message continues the word of a session that fails. */
  lemma FailureWire(t: Transport, i: nat, s: Session, status: nat)
    requires Of(Trail(t), i) == Started(s)
    ensures var s' := CloseSocket(s).(terminal := true, state := ForwardingTerminal, outcome := FailedWith(status));
            Started(s') == Started(s) && Word(s') == Started(s) + [FailureMsg(s.id, status)] ==>
              WireInv(Append(t, i, FailureMsg(s.id, status), ThenClose), i, s')
  {
    hide CloseSocket, Word, Started;
    AppendWire(t, i, FailureMsg(s.id, status), ThenClose);
    AcknowledgedIsSaid(t, i);
  }

  lemma SendStartedKeepsInv(p: Phone, i: nat)
    requires Others(p, i) && Carrier(p, -1) && Of(Trail(p.t), i) == []
    requires var s := p.sessions[i];
             && !s.terminal && s.outcome == NoOutcome && s.watch == TranscriptReady
             && s.side == AwaitingFrame && s.socket.Some? && s.transcript.Some?
             && !s.handoffTimer && s.resultTimer && s.pending == [] && |s.sends| == 1 && s.emitted == [SendStarted]
    ensures Inv(HandleServerEvent(p, i, SendStarted)) && |HandleServerEvent(p, i, SendStarted).sessions| == |p.sessions|
  {
    hide Carrier, Enqueue, ResultPayloads, Inv;
    var s := p.sessions[i];
    AppendWire(p.t, i, SendStartedMsg(s.id), NoDone);
    SayKeepsInv(p, i, s.(state := AwaitingResult), SendStartedMsg(s.id), NoDone);
  }

  lemma ParsedIsResponse(data: Frame, id: seq<Unit>)
    requires ParseServerFrame(data, id).Result?
    ensures IsRequestId(id) && IsResponse(ParseServerFrame(data, id).response)
  {
  }

  /** A result of a live session becomes its terminal outcome, and its first payload is queued. */
  lemma ResultIsQueued(p: Phone, i: nat, success: bool, response: seq<Unit>)
    requires i < |p.sessions| && IsRequestId(p.sessions[i].id) && IsResponse(response)
    requires var s := p.sessions[i]; s.state != Closed && !s.terminal && s.watch != WatchClosed
    ensures var ps := ResultPayloads(p.sessions[i].id, success, response); ps.Some? && ps.value != []
    ensures HandleServerEvent(p, i, ResultEvent(success, response)) ==
              var ps := ResultPayloads(p.sessions[i].id, success, response).value;
              Enqueue(SetSession(p, i, ForwardingSession(p.sessions[i], success, response)), i, ps[0], ThenNext(ps, 0))
  {
    hide Enqueue, ResultPayloads, IsResponse, CloseSocket, IsRequestId;
    var s := p.sessions[i];
    ResultPayloadsAreComplete(s.id, success, response);
    CloseSocketKeeps(s);
    var t := CloseSocket(s).(terminal := true, state := ForwardingTerminal, outcome := Forwarded(success, response));
    assert SetSession(SetSession(p, i, t), i, t.(watch := ForwardingResult)) == SetSession(p, i, t.(watch := ForwardingResult));
  }

  lemma CloseSocketKeeps(s: Session)
    ensures CloseSocket(s) == s.(side := CloseSocket(s).side, socket := CloseSocket(s).socket, transcript := CloseSocket(s).transcript,
                                pending := CloseSocket(s).pending, handoffTimer := CloseSocket(s).handoffTimer, resultTimer := CloseSocket(s).resultTimer)
  {
  }

  function ForwardingSession(s: Session, success: bool, response: seq<Unit>): Session {
    CloseSocket(s).(terminal := true, state := ForwardingTerminal, outcome := Forwarded(success, response), watch := ForwardingResult)
  }

  lemma ForwardingIsSound(s: Session, success: bool, response: seq<Unit>)
    requires Sound(s) && !s.terminal
    requires s.emitted == [SendStarted, ResultEvent(success, response)]
    requires s.accepted.Some? && ParseServerFrame(s.accepted.value, s.id) == Result(success, response)
    ensures var t := ForwardingSession(s, success, response);
            && SessionInv(t) && t.id == s.id && t.state == ForwardingTerminal && t.outcome == Forwarded(success, response)
            && Started(t) == Started(s) == [SendStartedMsg(s.id)]
  {
    hide ParseServerFrame, IsRequestId;
  }

  lemma FirstPieceWire(t: Transport, i: nat, s: Session, ps: seq<PhoneMsg>)
    requires s.state == ForwardingTerminal && s.outcome.Forwarded? && ps != []
    requires ResultPayloads(s.id, s.outcome.success, s.outcome.response) == Some(ps)
    requires Of(Trail(t), i) == Started(s) && |Started(s)| == 1
    ensures WireInv(Append(t, i, ps[0], ThenNext(ps, 0)), i, s)
  {
    hide ResultPayloads, Of;
    AppendWire(t, i, ps[0], ThenNext(ps, 0));
    AcknowledgedIsSaid(t, i);
    assert Word(s) == Started(s) + ps;
  }

  lemma ResultKeepsInv(p: Phone, i: nat, success: bool, response: seq<Unit>)
    requires Active(p, i)
    requires var s := p.sessions[i];
             && s.emitted == [SendStarted, ResultEvent(success, response)]
             && s.accepted.Some? && ParseServerFrame(s.accepted.value, s.id) == Result(success, response)
    ensures var q := HandleServerEvent(p, i, ResultEvent(success, response)); Inv(q) && |q.sessions| == |p.sessions|
  {
    hide Carrier, Enqueue, HandleServerEvent, ResultPayloads, Inv, ParseServerFrame, IsResponse, IsRequestId, ForwardingSession,
         SessionInv, WireInv;
    var s := p.sessions[i];
    ParsedIsResponse(s.accepted.value, s.id);
    ResultIsQueued(p, i, success, response);
    PayloadsAreNumbered(s.id, success, response);
    ForwardingIsSound(s, success, response);
    var ps := ResultPayloads(s.id, success, response).value;
    var s' := ForwardingSession(s, success, response);
    FirstPieceWire(p.t, i, s', ps);
    SayKeepsInv(p, i, s', ps[0], ThenNext(ps, 0));
  }

  // ---- Socket bridge ----

  lemma SwapKeepsActive(p: Phone, i: nat, s: Session)
    requires Active(p, i) && Sound(s) && s.id == p.sessions[i].id && s.state != Closed
    requires !s.terminal && s.outcome == NoOutcome && s.watch in {ReceivingTranscript, TranscriptReady}
    requires Started(s) == Started(p.sessions[i])
    ensures Active(SetSession(p, i, s), i)
  {
    hide Carrier, Sound;
    SwapKeepsCarrier(p, i, s);
  }

  lemma FailSocketKeepsInv(p: Phone, i: nat, error: SocketError)
    requires Active(p, i) && p.sessions[i].side !in {SocketFailed, SocketClosed, SocketComplete}
    requires p.sessions[i].emitted == [] || p.sessions[i].emitted == [SendStarted]
    ensures Inv(FailSocket(p, i, error)) && |FailSocket(p, i, error).sessions| == |p.sessions|
  {
    hide Carrier, Others, Inv, FailSession;
    var s := p.sessions[i];
    OthersIsSound(p, i);
    var s' := s.(side := SocketFailed, handoffTimer := false, resultTimer := false, socket := None,
                 emitted := s.emitted + [FailureEvent(error)]);
    SwapKeepsActive(p, i, s');
    FailSessionKeepsInv(SetSession(p, i, s'), i, StatusForServerError(error));
  }

  lemma OthersIsSound(p: Phone, i: nat)
    requires Others(p, i)
    ensures Sound(p.sessions[i]) && p.sessions[i].state != Closed
  {
  }

  predicate Ended(s: Session) { s.state == ForwardingTerminal || s.state == Closed }

  /** Between events a session is active exactly until its outcome is decided. */
  lemma InvIsActive(p: Phone, i: nat)
    requires Inv(p) && i < |p.sessions| && !Ended(p.sessions[i])
    ensures Active(p, i) && SessionInv(p.sessions[i])
    ensures p.sessions[i].side !in {SocketFailed, SocketClosed, SocketComplete}
  {
    hide Carrier, Sound;
    assert OwnerInv(p, i);
    InvIsOthers(p, i);
  }

  lemma EndedIsGone(p: Phone, i: nat)
    requires Inv(p) && i < |p.sessions| && Ended(p.sessions[i])
    ensures SocketGone(p.sessions[i]) && (p.sessions[i].terminal || p.sessions[i].state == Closed)
  {
    hide Carrier, Sound, WireInv;
    assert OwnerInv(p, i);
  }

  lemma SocketFailureKeepsInv(p: Phone, i: nat, error: SocketError)
    requires Inv(p) && i < |p.sessions|
    ensures Inv(FailSocket(p, i, error)) && |FailSocket(p, i, error).sessions| == |p.sessions|
  {
    hide Inv, Active, Sound, HandleServerEvent;
    if Ended(p.sessions[i]) {
      EndedIsGone(p, i);
    } else {
      InvIsActive(p, i);
      FailSocketKeepsInv(p, i, error);
    }
  }

  lemma FrameKeepsInv(p: Phone, i: nat, data: Frame)
    requires Inv(p) && i < |p.sessions|
    ensures Inv(HandleFrame(p, i, data)) && |HandleFrame(p, i, data).sessions| == |p.sessions|
  {
    hide Inv, Carrier, Others, HandleServerEvent, FailSocket, ParseServerFrame;
    var s := p.sessions[i];
    if s.side == AwaitingFrame {
      if Ended(s) {
        EndedIsGone(p, i);
      } else {
        InvIsActive(p, i);
        match ParseServerFrame(data, s.id)
        case Result(success, response) =>
          var s' := s.(resultTimer := false, side := SocketComplete, accepted := Some(data),
                       emitted := s.emitted + [ResultEvent(success, response)]);
          SwapKeepsActive(p, i, s');
          ResultKeepsInv(SetSession(p, i, s'), i, success, response);
        case ServerError(_) => SocketFailureKeepsInv(p, i, ServerFailure);
        case ProtocolError => SocketFailureKeepsInv(p, i, ProtocolFailure);
        case Unrelated =>
      }
    }
  }

  lemma {:induction false} ReplayKeepsInv(p: Phone, i: nat, frames: seq<Frame>)
    requires Inv(p) && i < |p.sessions|
    ensures Inv(Replay(p, i, frames)) && |Replay(p, i, frames).sessions| == |p.sessions|
    decreases |frames|
  {
    hide Inv, HandleFrame;
    if frames != [] {
      FrameKeepsInv(p, i, frames[0]);
      ReplayKeepsInv(HandleFrame(p, i, frames[0]), i, frames[1..]);
    }
  }

  lemma SwapKeepsInv(p: Phone, i: nat, s: Session)
    requires Inv(p) && i < |p.sessions| && p.sessions[i].state != Closed
    requires SessionInv(s) && s.id == p.sessions[i].id && s.outcome == p.sessions[i].outcome
    requires Word(s) == Word(p.sessions[i]) && Started(s) == Started(p.sessions[i])
    requires s.state == p.sessions[i].state || (s.outcome == NoOutcome && !Ended(s) && !Ended(p.sessions[i]))
    ensures Inv(SetSession(p, i, s))
  {
    hide Carrier, SessionInv, Word;
    SwapKeepsCarrier(p, i, s);
    assert OwnerInv(p, i);
    assert OwnerInv(SetSession(p, i, s), i);
  }

  lemma CanSendIsWaiting(p: Phone, i: nat)
    requires Inv(p) && i < |p.sessions| && CanSend(p.sessions[i])
    ensures p.sessions[i].state == WaitingToSend && Active(p, i) && SessionInv(p.sessions[i])
  {
    hide Carrier, Sound, Active, Others;
    assert OwnerInv(p, i);
    InvIsActive(p, i);
  }

  // Frames that arrive inside `send` are held back, and nothing else depends on them.

  function WithPending(p: Phone, i: nat, frames: seq<Frame>): Phone {
    if i < |p.sessions| && p.sessions[i].side != SocketClosed then SetSession(p, i, p.sessions[i].(pending := frames)) else p
  }

  lemma CloseInert(p: Phone, i: nat, frames: seq<Frame>, k: nat)
    ensures CloseSession(WithPending(p, i, frames), k) == WithPending(CloseSession(p, k), i, frames)
  {
    if i < |p.sessions| && p.sessions[i].side != SocketClosed && k < |p.sessions| && p.sessions[k].state != Closed {
      var a, b := CloseSession(WithPending(p, i, frames), k), WithPending(CloseSession(p, k), i, frames);
      assert a.sessions == b.sessions;
    }
  }

  lemma FailedInert(p: Phone, i: nat, frames: seq<Frame>, e: Entry)
    ensures DeliveryFailed(WithPending(p, i, frames), e) == WithPending(DeliveryFailed(p, e), i, frames)
  {
    hide CloseSession;
    if e.owner < |p.sessions| && p.sessions[e.owner].watch != WatchClosed {
      var q := SetSession(p, e.owner, p.sessions[e.owner].(watch := WatchFailed));
      CloseInert(q, i, frames, e.owner);
      var r := WithPending(p, i, frames);
      assert SetSession(r, e.owner, r.sessions[e.owner].(watch := WatchFailed)).sessions == WithPending(q, i, frames).sessions;
    }
  }

  lemma {:induction false} PumpInert(p: Phone, i: nat, frames: seq<Frame>)
    ensures Pump(WithPending(p, i, frames)) == WithPending(Pump(p), i, frames)
    decreases |p.t.queue|
  {
    hide DeliveryFailed;
    if !p.t.busy && p.t.queue != [] {
      var e := p.t.queue[0];
      var taken := p.(t := Take(p.t), refusals := if p.refusals == [] then [] else p.refusals[1..]);
      if p.refusals != [] && p.refusals[0] {
        var free := taken.(t := Resolve(taken.t, false));
        CloseShrinks(free, e);
        FailedInert(free, i, frames, e);
        PumpInert(DeliveryFailed(free, e), i, frames);
      }
    }
  }

  lemma StartInert(p: Phone, i: nat, frames: seq<Frame>)
    requires i < |p.sessions| && p.sessions[i].side == AwaitingFrame && p.sessions[i].state != Closed && !p.sessions[i].terminal
    requires p.sessions[i].watch != WatchClosed
    ensures HandleServerEvent(WithPending(p, i, frames), i, SendStarted) == WithPending(HandleServerEvent(p, i, SendStarted), i, frames)
  {
    hide Pump;
    var s := p.sessions[i];
    var q := SetSession(p, i, s.(state := AwaitingResult));
    var r := q.(t := Append(q.t, i, SendStartedMsg(s.id), NoDone));
    PumpInert(r, i, frames);
    assert SetSession(WithPending(p, i, frames), i, s.(pending := frames, state := AwaitingResult)).sessions
        == WithPending(r, i, frames).sessions;
  }

  function StartedSession(s: Session, request: JsonObject): Session {
    s.(side := AwaitingFrame, sends := s.sends + [request], handoffTimer := false, resultTimer := true,
       emitted := s.emitted + [SendStarted])
  }

  lemma StartedKeepsInv(p: Phone, i: nat, request: JsonObject)
    requires Inv(p) && i < |p.sessions| && CanSend(p.sessions[i])
    ensures var q := HandleServerEvent(SetSession(p, i, StartedSession(p.sessions[i], request)), i, SendStarted);
            Inv(q) && |q.sessions| == |p.sessions|
  {
    hide Carrier, Inv, HandleServerEvent, ResultPayloads, ParseServerFrame;
    CanSendIsWaiting(p, i);
    var started := StartedSession(p.sessions[i], request);
    InvOthers(p, i);
    SwapKeepsCarrier(p, i, started);
    SendStartedKeepsInv(SetSession(p, i, started), i);
  }

  /** A send that returns behaves as if the frames it brought in had arrived just after it. */
  lemma SentThenReplayed(p: Phone, i: nat, request: JsonObject, frames: seq<Frame>)
    requires Inv(p) && i < |p.sessions| && CanSend(p.sessions[i])
    requires BuildRequest(p.sessions[i].id, p.sessions[i].transcript.value) == Some(request)
    ensures var q := HandleServerEvent(SetSession(p, i, StartedSession(p.sessions[i], request)), i, SendStarted);
            && i < |q.sessions|
            && TrySend(p, i, SendCall(false, frames)) == Replay(q, i, frames)
  {
    hide Inv, HandleServerEvent, Replay, BuildRequest, WithPending, StartedSession;
    var s := p.sessions[i];
    CanSendIsWaiting(p, i);
    StartedKeepsInv(p, i, request);
    var b := SetSession(p, i, StartedSession(s, request));
    var q := HandleServerEvent(b, i, SendStarted);
    StartedIsLive(p, i, request);
    StartInert(b, i, frames);
    NothingHeld(q, i);
    SendingHolds(p, i, request, frames);
    ReplaysHeld(q, i, frames);
  }

  lemma StartedIsLive(p: Phone, i: nat, request: JsonObject)
    requires i < |p.sessions|
    ensures var t := SetSession(p, i, StartedSession(p.sessions[i], request)).sessions[i]; var s := p.sessions[i];
            |SetSession(p, i, StartedSession(s, request)).sessions| == |p.sessions|
            && t.side == AwaitingFrame && t.state == s.state && t.terminal == s.terminal && t.watch == s.watch
  {
  }

  /** The send that returns, up to the point where it replays what it held back. */
  lemma SendingHolds(p: Phone, i: nat, request: JsonObject, frames: seq<Frame>)
    requires i < |p.sessions| && CanSend(p.sessions[i]) && p.sessions[i].pending == []
    requires BuildRequest(p.sessions[i].id, p.sessions[i].transcript.value) == Some(request)
    ensures var r := HandleServerEvent(WithPending(SetSession(p, i, StartedSession(p.sessions[i], request)), i, frames), i, SendStarted);
            TrySend(p, i, SendCall(false, frames))
            == if i >= |r.sessions| then r else Replay(SetSession(r, i, r.sessions[i].(pending := [])), i, r.sessions[i].pending)
  {
    hide HandleServerEvent, Replay, BuildRequest;
    var s := p.sessions[i];
    assert s.pending + frames == frames;
    var b := SetSession(p, i, StartedSession(s, request));
    var a := SetSession(p, i, StartedSession(s, request).(pending := s.pending + frames));
    assert a == WithPending(b, i, frames) by {
      assert a.sessions == WithPending(b, i, frames).sessions;
    }
  }

  /** Replaying what was held back in a session that holds nothing otherwise. */
  lemma ReplaysHeld(q: Phone, i: nat, frames: seq<Frame>)
    requires i < |q.sessions| && q.sessions[i].pending == []
    ensures var r := WithPending(q, i, frames);
            && i < |r.sessions|
            && Replay(SetSession(r, i, r.sessions[i].(pending := [])), i, r.sessions[i].pending) == Replay(q, i, frames)
  {
    hide Replay;
    var r := WithPending(q, i, frames);
    assert SetSession(r, i, r.sessions[i].(pending := [])).sessions == q.sessions;
    if q.sessions[i].side == SocketClosed {
      ReplayAfterEnd(q, i, frames);
      ReplayAfterEnd(q, i, []);
    }
  }

  lemma NothingHeld(p: Phone, i: nat)
    requires Inv(p) && i < |p.sessions|
    ensures p.sessions[i].pending == []
  {
    hide Carrier, Sound, WireInv;
    assert OwnerInv(p, i);
  }

  lemma {:induction false} ReplayAfterEnd(p: Phone, i: nat, frames: seq<Frame>)
    requires i < |p.sessions| && p.sessions[i].side == SocketClosed
    ensures Replay(p, i, frames) == p
    decreases |frames|
  {
    if frames != [] {
      ReplayAfterEnd(p, i, frames[1..]);
    }
  }

  lemma InvOthers(p: Phone, i: nat)
    requires Inv(p) && i < |p.sessions|
    ensures Carrier(p, -1) && forall j | 0 <= j < |p.sessions| && j != i :: OwnerInv(p, j)
  {
  }

  lemma ThrownSendKeepsInv(p: Phone, i: nat, request: JsonObject, frames: seq<Frame>)
    requires Inv(p) && i < |p.sessions| && CanSend(p.sessions[i])
    ensures var s := p.sessions[i];
            var sending := s.(side := Sending, sends := s.sends + [request], pending := s.pending + frames);
            var q := FailSocket(SetSession(p, i, sending), i, SendFailure);
            Inv(q) && |q.sessions| == |p.sessions|
  {
    hide Carrier, Inv, FailSocket, Others, ResultPayloads, ParseServerFrame;
    CanSendIsWaiting(p, i);
    var s := p.sessions[i];
    var sending := s.(side := Sending, sends := s.sends + [request], pending := s.pending + frames);
    SwapKeepsActive(p, i, sending);
    FailSocketKeepsInv(SetSession(p, i, sending), i, SendFailure);
  }

  lemma TrySendKeepsInv(p: Phone, i: nat, call: SendCall)
    requires Inv(p) && i < |p.sessions|
    ensures Inv(TrySend(p, i, call)) && |TrySend(p, i, call).sessions| == |p.sessions|
  {
    hide Inv, Replay, HandleServerEvent, FailSocket, CanSend;
    var s := p.sessions[i];
    if CanSend(s) {
      HasTranscript(s);
      match BuildRequest(s.id, s.transcript.value)
      case None => SocketFailureKeepsInv(p, i, SendFailure);
      case Some(request) =>
        var sending := s.(side := Sending, sends := s.sends + [request], pending := s.pending + call.frames);
        if call.throws {
          ThrownSendKeepsInv(p, i, request, call.frames);
        } else {
          StartedKeepsInv(p, i, request);
          SentThenReplayed(p, i, request, call.frames);
          var q := HandleServerEvent(SetSession(p, i, StartedSession(s, request)), i, SendStarted);
          ReplayKeepsInv(q, i, call.frames);
        }
    }
  }

  lemma HasTranscript(s: Session)
    requires CanSend(s)
    ensures s.transcript.Some?
  {
  }

  // ---- Messages from the watch ----

  lemma ChunkKeepsInv(p: Phone, i: nat, m: Message, call: SendCall)
    requires Inv(p) && i < |p.sessions| && p.sessions[i].state == Receiving && m.Chunk?
    ensures Inv(HandleWatchMessage(p, i, m, call)) && |HandleWatchMessage(p, i, m, call).sessions| == |p.sessions|
  {
    hide Inv, Carrier, Others, TrySend, FailSession, ResultPayloads, ParseServerFrame, Utf8Length;
    InvIsActive(p, i);
    var s := p.sessions[i];
    var (a, added) := Add(s.assembler, m);
    match added
    case Threw =>
      SwapKeepsActive(p, i, s.(assembler := a));
      FailSessionKeepsInv(SetSession(p, i, s.(assembler := a)), i, STATUS_PROTOCOL);
    case Incomplete => SwapKeepsInv(p, i, s.(assembler := a));
    case Complete(transcript) =>
      var s' := s.(assembler := a, watch := TranscriptReady, state := WaitingToSend, transcript := Some(transcript), handoffTimer := true);
      SwapKeepsInv(p, i, s');
      TrySendKeepsInv(SetSession(p, i, s'), i, call);
      assert SetSession(SetSession(p, i, s'.(transcript := None, handoffTimer := false)), i, s') == SetSession(p, i, s');
  }

  lemma WatchMessageKeepsInv(p: Phone, i: nat, m: Message, call: SendCall)
    requires Inv(p) && i < |p.sessions|
    ensures Inv(HandleWatchMessage(p, i, m, call)) && |HandleWatchMessage(p, i, m, call).sessions| == |p.sessions|
  {
    hide Inv, Active, FailSession, CloseSession, SetTranscript, Add;
    var s := p.sessions[i];
    if Ended(s) {
      EndedIsGone(p, i);
    } else {
      InvIsActive(p, i);
      if m.End? {
        InvIsOthers(p, i);
        CloseKeepsInv(p, i);
      } else if m.Chunk? && s.state == Receiving {
        ChunkKeepsInv(p, i, m, call);
      } else {
        FailSessionKeepsInv(p, i, STATUS_PROTOCOL);
      }
    }
  }

  // ---- Session start ----

  lemma UnknownOwner(p: Phone, owner: nat)
    requires EntriesOk(p) && owner >= |p.sessions|
    ensures Of(Trail(p.t), owner) == []
  {
    forall k | 0 <= k < |Trail(p.t)| ensures Trail(p.t)[k].owner != owner {
      assert EntryOk(Trail(p.t)[k], p.sessions);
    }
    OfNone(Trail(p.t), owner);
  }

  lemma AddedSession(p: Phone, s: Session)
    requires Inv(p) && SessionInv(s) && !Ended(s) && s.emitted == []
    ensures Inv(p.(sessions := p.sessions + [s]))
  {
    hide Conserves, SessionInv, Acknowledged, EntryOk, WireInv;
    var q := p.(sessions := p.sessions + [s]);
    UnknownOwner(p, |p.sessions|);
    forall e | e in Trail(q.t) ensures EntryOk(e, q.sessions) {
      assert EntryOk(e, p.sessions);
      EntrySurvives(e, p.sessions, s);
    }
    forall j | 0 <= j < |q.sessions| ensures OwnerInv(q, j) {
      if j < |p.sessions| {
        assert OwnerInv(p, j);
      } else {
        LiveHasNoOutcome(s);
        SilentWire(p.t, j, s);
      }
    }
  }

  lemma EntrySurvives(e: Entry, sessions: seq<Session>, s: Session)
    requires EntryOk(e, sessions)
    ensures EntryOk(e, sessions + [s])
  {
  }

  lemma SilentWire(t: Transport, i: nat, s: Session)
    requires Of(Trail(t), i) == [] && !Ended(s) && s.outcome == NoOutcome && s.emitted == []
    ensures WireInv(t, i, s)
  {
  }

  lemma LiveHasNoOutcome(s: Session)
    requires SessionInv(s) && !Ended(s)
    ensures s.outcome == NoOutcome && !s.terminal && s.watch in {ReceivingTranscript, TranscriptReady}
  {
  }

  lemma OpenKeepsInv(p: Phone, id: seq<Unit>, constructed: bool)
    requires Inv(p) && IsRequestId(id)
    ensures var q := OpenSocket(p.(sessions := p.sessions + [NewSession(id)]), |p.sessions|, constructed);
            Inv(q) && |q.sessions| == |p.sessions| + 1
  {
    hide Inv, FailSocket, Others, Carrier, IsRequestId;
    var i := |p.sessions|;
    // As if the socket had been there from the start: its construction is not observable.
    var s := NewSession(id).(side := Connecting, socket := Some(0));
    AddedSession(p, s);
    var q := p.(sessions := p.sessions + [s]);
    var bare := p.(sessions := p.sessions + [NewSession(id)]);
    if constructed {
      assert SetSession(bare, i, s) == q;
    } else {
      var s' := s.(socket := None);
      InvIsActive(q, i);
      SwapKeepsActive(q, i, s');
      assert SetSession(bare, i, s') == SetSession(q, i, s');
      FailSocketKeepsInv(SetSession(q, i, s'), i, ServerFailure);
    }
  }

  lemma ActivateKeepsInv(p: Phone, active: Option<nat>)
    requires Inv(p) && (active.Some? ==> active.value < |p.sessions|)
    ensures Inv(p.(active := active))
  {
    hide Conserves, SessionInv, WireInv, EntryOk;
    forall j | 0 <= j < |p.sessions| ensures OwnerInv(p.(active := active), j) {
      assert OwnerInv(p, j);
    }
  }

  lemma SomeCloseKeepsInv(p: Phone, i: nat)
    requires Inv(p) && i < |p.sessions|
    ensures Inv(CloseSession(p, i)) && |CloseSession(p, i).sessions| == |p.sessions|
  {
    hide Inv, Others, CloseSocket, Cancel;
    if p.sessions[i].state != Closed {
      InvIsOthers(p, i);
      CloseKeepsInv(p, i);
    }
  }

  lemma StartKeepsInv(p: Phone, id: seq<Unit>, constructed: bool)
    requires Inv(p) && IsRequestId(id)
    ensures Inv(StartSession(p, id, constructed)) && |StartSession(p, id, constructed).sessions| == |p.sessions| + 1
  {
    hide Inv, OpenSocket, CloseSession, IsRequestId;
    ActiveIsKnown(p);
    if p.active.Some? {
      SomeCloseKeepsInv(p, p.active.value);
    }
    var q := if p.active.Some? then CloseSession(p, p.active.value) else p;
    OpenKeepsInv(q, id, constructed);
    ActivateKeepsInv(OpenSocket(q.(sessions := q.sessions + [NewSession(id)]), |q.sessions|, constructed), Some(|q.sessions|));
  }

  lemma ActiveIsKnown(p: Phone)
    requires Inv(p)
    ensures p.active.Some? ==> p.active.value < |p.sessions|
  {
  }

  lemma ProtocolFailureKeepsInv(p: Phone, i: nat, status: nat)
    requires Inv(p) && i < |p.sessions|
    ensures Inv(FailSession(p, i, status)) && |FailSession(p, i, status).sessions| == |p.sessions|
  {
    hide Inv, Active, CloseSocket, SendStatus;
    if Ended(p.sessions[i]) {
      EndedIsGone(p, i);
    } else {
      InvIsActive(p, i);
      FailSessionKeepsInv(p, i, status);
    }
  }

  lemma AppMessageKeepsInv(p: Phone, payload: Option<JsPayload>, env: PhoneEnv)
    requires Inv(p)
    ensures Inv(OnAppMessage(p, payload, env)) && |p.sessions| <= |OnAppMessage(p, payload, env).sessions| <= |p.sessions| + 1
  {
    hide Inv, FailSession, StartSession, HandleWatchMessage, ParseWatchMessage;
    ParsedIdIsValid(payload);
    match ParseWatchMessage(payload)
    case None =>
      if p.active.Some? && p.active.value < |p.sessions| {
        ProtocolFailureKeepsInv(p, p.active.value, STATUS_PROTOCOL);
      }
    case Some(m) =>
      if m.Begin? {
        StartKeepsInv(p, m.id, env.constructed);
      } else if p.active.Some? && p.active.value < |p.sessions| {
        WatchMessageKeepsInv(p, p.active.value, m, env.call);
      }
  }

  lemma ParsedIdIsValid(payload: Option<JsPayload>)
    ensures var m := ParseWatchMessage(payload); m.Some? ==> IsRequestId(m.value.id)
  {
    hide Utf8Length, IsRequestId;
  }

  // ---- Every event ----

  lemma RefusalsKeepInv(p: Phone, refusals: seq<bool>)
    requires Inv(p)
    ensures Inv(p.(refusals := refusals))
  {
    hide Conserves, SessionInv, WireInv, EntryOk;
    forall j | 0 <= j < |p.sessions| ensures OwnerInv(p.(refusals := refusals), j) {
      assert OwnerInv(p, j);
    }
  }

  /** What a socket reports before its bridge reacts changes only the record of the socket. */
  lemma SocketRecordKeepsInv(p: Phone, i: nat, s: Session)
    requires Inv(p) && i < |p.sessions| && p.sessions[i].socket.Some?
    requires s == p.sessions[i].(socket := s.socket, side := s.side) && s.socket.Some?
    requires s.side == p.sessions[i].side || (p.sessions[i].side == Connecting && s.side == SocketReady)
    ensures Inv(SetSession(p, i, s))
  {
    hide Inv, Carrier, ResultPayloads, ParseServerFrame;
    if Ended(p.sessions[i]) {
      EndedIsGone(p, i);
    } else {
      InvIsActive(p, i);
      SwapKeepsInv(p, i, s);
    }
  }

  lemma ExpiryKeepsInv(p: Phone, i: nat, s: Session, error: SocketError)
    requires Inv(p) && i < |p.sessions| && (p.sessions[i].handoffTimer || p.sessions[i].resultTimer)
    requires s == p.sessions[i].(handoffTimer := s.handoffTimer, resultTimer := s.resultTimer)
    ensures Inv(FailSocket(SetSession(p, i, s), i, error)) && |FailSocket(SetSession(p, i, s), i, error).sessions| == |p.sessions|
  {
    hide Inv, Carrier, Others, FailSocket, ResultPayloads, ParseServerFrame;
    if Ended(p.sessions[i]) {
      EndedIsGone(p, i);
    } else {
      InvIsActive(p, i);
      OthersIsSound(p, i);
      assert SocketGone(s) ==> SocketGone(p.sessions[i]);
      SwapKeepsActive(p, i, s);
      FailSocketKeepsInv(SetSession(p, i, s), i, error);
    }
  }

  lemma StepKeepsInv(p: Phone, e: PhoneEvent, env: PhoneEnv)
    requires Inv(p) && Enabled(p, e)
    ensures Inv(Step(p, e, env)) && |p.sessions| <= |Step(p, e, env).sessions| <= |p.sessions| + 1
  {
    hide Inv, OnAppMessage, Finish, TrySend, FailSocket, HandleFrame;
    RefusalsKeepInv(p, env.refusals);
    var q := p.(refusals := env.refusals);
    match e
    case AppMessage(payload) => AppMessageKeepsInv(q, payload, env);
    case Delivered(ok) => FinishKeepsInv(q, ok);
    case ReadyState(i, value) => SocketRecordKeepsInv(q, i, q.sessions[i].(socket := Some(value)));
    case SocketOpen(i) =>
      if q.sessions[i].side == Connecting {
        var r := SetSession(q, i, q.sessions[i].(side := SocketReady));
        SocketRecordKeepsInv(q, i, r.sessions[i]);
        TrySendKeepsInv(r, i, env.call);
      }
    case SocketErrorEvent(i) => SocketFailureKeepsInv(q, i, ServerFailure);
    case SocketCloseEvent(i) => SocketFailureKeepsInv(q, i, ServerFailure);
    case SocketMessage(i, data) => FrameKeepsInv(q, i, data);
    case HandoffExpired(i) => ExpiryKeepsInv(q, i, q.sessions[i].(handoffTimer := false), HandoffTimeout);
    case ResultExpired(i) => ExpiryKeepsInv(q, i, q.sessions[i].(resultTimer := false), ResultTimeout);
  }

  lemma IdleIsInv()
    ensures Inv(IDLE_PHONE)
  {
  }
}
