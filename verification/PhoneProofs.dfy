/** What every event keeps on the phone: conservation in the transport, the phase of each
    session, and what each session may say to the watch. */
module PhoneProofs {
  import opened Unicode
  import opened Messages
  import opened Protocol
  import opened PhoneModel

  // ---- One owner's messages ----

  /** The payloads of one owner, in order. */
  function Of(es: seq<Entry>, owner: nat): seq<PhoneMsg> {
    if es == [] then [] else (if es[0].owner == owner then [es[0].payload] else []) + Of(es[1..], owner)
  }

  lemma {:induction false} OfConcat(a: seq<Entry>, b: seq<Entry>, owner: nat)
    ensures Of(a + b, owner) == Of(a, owner) + Of(b, owner)
  {
    if a == [] {
      assert a + b == b;
    } else {
      var head := if a[0].owner == owner then [a[0].payload] else [];
      var tail := a[1..];
      OfConcat(tail, b, owner);
      assert (a + b)[0] == a[0] && (a + b)[1..] == tail + b;
      assert head + (Of(tail, owner) + Of(b, owner)) == (head + Of(tail, owner)) + Of(b, owner);
    }
  }

  lemma OfSnoc(a: seq<Entry>, e: Entry, owner: nat)
    ensures Of(a + [e], owner) == Of(a, owner) + if e.owner == owner then [e.payload] else []
  {
    OfConcat(a, [e], owner);
    assert Of([e], owner) == (if e.owner == owner then [e.payload] else []) + Of([], owner);
  }

  lemma {:induction false} OfNone(es: seq<Entry>, owner: nat)
    requires forall k | 0 <= k < |es| :: es[k].owner != owner
    ensures Of(es, owner) == []
  {
    if es != [] {
      OfNone(es[1..], owner);
    }
  }

  lemma {:induction false} OfPayload(es: seq<Entry>, owner: nat, k: nat)
    requires k < |Of(es, owner)|
    ensures exists a :: 0 <= a < |es| && es[a].owner == owner && es[a].payload == Of(es, owner)[k]
  {
    if es[0].owner == owner && k == 0 {
    } else {
      OfPayload(es[1..], owner, if es[0].owner == owner then k - 1 else k);
      var a :| 0 <= a < |es[1..]| && es[1..][a].owner == owner
               && es[1..][a].payload == Of(es[1..], owner)[if es[0].owner == owner then k - 1 else k];
      assert es[a + 1].owner == owner;
    }
  }

  // ---- Cancelling ----

  /** `Keep` drops exactly the owner's entries and keeps the order of the rest. */
  lemma {:induction false} KeepSparesOthers(q: seq<Entry>, owner: nat, other: nat)
    ensures forall e :: e in Keep(q, owner) <==> e in q && e.owner != owner
    ensures Of(Keep(q, owner), other) == if other == owner then [] else Of(q, other)
  {
    if q != [] {
      KeepSparesOthers(q[1..], owner, other);
      assert forall e :: e in q <==> e == q[0] || e in q[1..];
      var k := Keep(q[1..], owner);
      if q[0].owner != owner {
        assert Keep(q, owner) == [q[0]] + k;
        assert ([q[0]] + k)[1..] == k;
      }
    }
  }

  /** Strictly increasing tickets: the order of enqueueing. */
  ghost predicate Ordered(es: seq<Entry>) {
    forall a, b | 0 <= a < b < |es| :: es[a].ticket < es[b].ticket
  }

  lemma DropKeepsOrder(before: seq<Entry>, rest: seq<Entry>)
    requires rest != [] && Ordered(before + rest)
    ensures Ordered(before + rest[1..])
  {
    var all, less := before + rest, before + rest[1..];
    forall a, b | 0 <= a < b < |less| ensures less[a].ticket < less[b].ticket {
      var a', b' := if a < |before| then a else a + 1, if b < |before| then b else b + 1;
      assert less[a] == all[a'] && less[b] == all[b'];
    }
  }

  lemma {:induction false} KeepIsOrdered(before: seq<Entry>, q: seq<Entry>, owner: nat)
    requires Ordered(before + q)
    ensures Ordered(before + Keep(q, owner))
    decreases |q|
  {
    hide Ordered;
    if q == [] {
    } else if q[0].owner != owner {
      assert before + q == (before + [q[0]]) + q[1..];
      KeepIsOrdered(before + [q[0]], q[1..], owner);
      assert before + Keep(q, owner) == (before + [q[0]]) + Keep(q[1..], owner);
    } else {
      DropKeepsOrder(before, q);
      KeepIsOrdered(before, q[1..], owner);
    }
  }

  // ---- Conservation ----

  /** Every ticket ever given out is either cancelled or in the trail - handed over, or queued -
      exactly once; the trail is in enqueue order; results are reported in the order of sending,
      one for every entry handed over except the one in flight. */
  ghost predicate Conserves(t: Transport) {
    && |t.results| + (if t.busy then 1 else 0) == |t.sent|
    && Ordered(t.sent + t.queue)
    && Tickets(t.sent + t.queue) !! t.cancelled
    && forall n: nat :: n < t.next <==> n in Tickets(t.sent + t.queue) || n in t.cancelled
  }

  lemma AppendConserves(t: Transport, owner: nat, payload: PhoneMsg, done: Done)
    requires Conserves(t)
    ensures Conserves(Append(t, owner, payload, done))
  {
    var e := Entry(owner, payload, done, t.next);
    var prior, after := t.sent + t.queue, t.sent + (t.queue + [e]);
    assert after == prior + [e];
    forall k | 0 <= k < |prior| ensures prior[k].ticket < t.next {
      assert prior[k] in prior;
      assert prior[k].ticket in Tickets(prior);
    }
    assert Tickets(after) == Tickets(prior) + {t.next} by {
      assert forall x :: x in after <==> x in prior || x == e;
    }
  }

  lemma TakeConserves(t: Transport)
    requires Conserves(t) && !t.busy && t.queue != []
    ensures Take(t).sent + Take(t).queue == t.sent + t.queue
    ensures Conserves(Take(t))
  {
    assert Take(t).sent + Take(t).queue == t.sent + t.queue;
  }

  lemma CancelConserves(t: Transport, owner: nat)
    requires Conserves(t)
    ensures Conserves(Cancel(t, owner))
  {
    var kept := Keep(t.queue, owner);
    KeepSparesOthers(t.queue, owner, owner);
    KeepIsOrdered(t.sent, t.queue, owner);
    var prior, after := t.sent + t.queue, t.sent + kept;
    assert forall x :: x in after <==> x in t.sent || x in kept;
    assert forall x :: x in prior <==> x in t.sent || x in t.queue;
    DistinctTickets(t.sent, t.queue, owner);
    assert Tickets(prior) == Tickets(t.sent) + Tickets(t.queue);
    assert Tickets(after) == Tickets(t.sent) + Tickets(kept);
  }

  lemma DistinctTickets(sent: seq<Entry>, queue: seq<Entry>, owner: nat)
    requires Ordered(sent + queue)
    ensures Tickets(sent) !! Tickets(queue)
  {
    forall a, b | a in sent && b in queue ensures a.ticket < b.ticket {
      var i :| 0 <= i < |sent| && sent[i] == a;
      var j :| 0 <= j < |queue| && queue[j] == b;
      assert (sent + queue)[i] == a && (sent + queue)[|sent| + j] == b;
    }
  }

  // ---- Sessions ----

  ghost predicate HasStarted(s: Session) { s.emitted != [] && s.emitted[0] == SendStarted }

  function Started(s: Session): seq<PhoneMsg> {
    if s.emitted != [] && s.emitted[0] == SendStarted then [SendStartedMsg(s.id)] else []
  }

  /** All that a session may ever say to the watch, given how it has gone so far. */
  function Word(s: Session): seq<PhoneMsg> {
    match s.outcome
    case NoOutcome => Started(s)
    case FailedWith(status) => Started(s) + [FailureMsg(s.id, status)]
    case Forwarded(success, response) =>
      match ResultPayloads(s.id, success, response)
      case None => Started(s)
      case Some(ps) => Started(s) + ps
  }

  /** At most `SEND_STARTED`, then at most one result or failure; a result only after it. */
  ghost predicate EmittedOk(emitted: seq<SocketEvent>) {
    && |emitted| <= 2
    && (|emitted| == 2 ==> emitted[0] == SendStarted && emitted[1] != SendStarted)
    && (|emitted| >= 1 ==> !emitted[0].ResultEvent?)
  }

  /** True of a session in any phase, and of one in the middle of a callback. */
  ghost predicate Sound(s: Session) {
    && IsRequestId(s.id) && s.assembler.id == s.id
    && EmittedOk(s.emitted)
    && |s.sends| <= 1
    && (s.side == SocketClosed ==> SocketGone(s))
    && (HasStarted(s) ==> |s.sends| == 1)
    && (s.terminal <==> s.outcome != NoOutcome)
    && (s.outcome.Forwarded? ==>
          && s.emitted == [SendStarted, ResultEvent(s.outcome.success, s.outcome.response)]
          && s.accepted.Some?
          && ParseServerFrame(s.accepted.value, s.id) == Result(s.outcome.success, s.outcome.response))
  }

  ghost predicate SocketGone(s: Session) {
    s.side == SocketClosed && s.socket == None && s.transcript == None && s.pending == [] && !s.handoffTimer && !s.resultTimer
  }

  ghost predicate Phase(s: Session) {
    match s.state
    case Receiving =>
      && !s.terminal && s.outcome == NoOutcome && s.watch == ReceivingTranscript
      && s.side in {Connecting, SocketReady} && s.socket.Some? && s.transcript == None && s.pending == []
      && !s.handoffTimer && !s.resultTimer && s.sends == [] && s.emitted == []
    case WaitingToSend =>
      && !s.terminal && s.outcome == NoOutcome && s.watch == TranscriptReady
      && s.side in {Connecting, SocketReady} && s.socket.Some? && s.transcript.Some? && s.pending == []
      && s.handoffTimer && !s.resultTimer && s.sends == [] && s.emitted == []
    case AwaitingResult =>
      && !s.terminal && s.outcome == NoOutcome && s.watch == TranscriptReady
      && s.side == AwaitingFrame && s.socket.Some? && s.transcript.Some? && s.pending == []
      && !s.handoffTimer && s.resultTimer && |s.sends| == 1 && s.emitted == [SendStarted]
    case ForwardingTerminal =>
      s.terminal && s.outcome != NoOutcome && s.watch in {ReceivingTranscript, TranscriptReady, ForwardingResult} && SocketGone(s)
    case Closed => s.watch == WatchClosed && SocketGone(s)
  }

  ghost predicate SessionInv(s: Session) { Sound(s) && Phase(s) }

  // ---- The wire ----

  function Trail(t: Transport): seq<Entry> { t.sent + t.queue }

  /** What the owner has said and still has queued is a prefix of its word; a result piece is
      queued only when every earlier message of the session has been acknowledged; and while an
      outcome is being forwarded, something is always outstanding. */
  ghost predicate WireInv(t: Transport, i: nat, s: Session) {
    var w := Of(Trail(t), i);
    && w <= Word(s)
    && match s.state
       case Closed => Of(t.queue, i) == []
       case ForwardingTerminal =>
         && |w| > |Started(s)|
         && (|t.results| <= |t.sent| ==> |Of(t.sent[..|t.results|], i)| < |w|)
         && (s.outcome.Forwarded? && |w| >= 3 && |t.results| <= |t.sent| ==> |Of(t.sent[..|t.results|], i)| >= |w| - 1)
       case _ => w == Started(s)
  }

  ghost predicate EntryOk(e: Entry, sessions: seq<Session>) {
    && e.owner < |sessions|
    && var s := sessions[e.owner];
    && e.payload.id == s.id
    && match e.payload
       case SendStartedMsg(_) => e.done == NoDone
       case FailureMsg(_, _) => e.done == ThenClose
       case ResultMsg(_, index, _, _, _, _) =>
         && s.outcome.Forwarded?
         && ResultPayloads(s.id, s.outcome.success, s.outcome.response).Some?
         && var ps := ResultPayloads(s.id, s.outcome.success, s.outcome.response).value;
         && e.done == ThenNext(ps, index) && index < |ps| && ps[index] == e.payload
  }

  ghost predicate EntriesOk(p: Phone) {
    forall e | e in Trail(p.t) :: EntryOk(e, p.sessions)
  }

  /** Nothing is handed over for a session before everything it said earlier was acknowledged. */
  ghost predicate Acknowledged(t: Transport) {
    forall k, m | 0 <= k < m < |t.sent| && t.sent[k].owner == t.sent[m].owner :: k < |t.results| && t.results[k]
  }

  /** A failed delivery has closed its session. */
  ghost predicate FailuresClosed(p: Phone, except: int) {
    forall k | 0 <= k < |p.t.results| && k < |p.t.sent| && !p.t.results[k] && p.t.sent[k].owner != except ::
      p.t.sent[k].owner < |p.sessions| && p.sessions[p.t.sent[k].owner].state == Closed
  }

  ghost predicate OwnerInv(p: Phone, i: nat)
    requires i < |p.sessions|
  {
    SessionInv(p.sessions[i]) && WireInv(p.t, i, p.sessions[i])
  }

  /** Everything but the sessions' own conditions and, for one session, its failures. */
  ghost predicate Carrier(p: Phone, except: int) {
    Conserves(p.t) && EntriesOk(p) && Acknowledged(p.t) && FailuresClosed(p, except)
    && (p.active.Some? ==> p.active.value < |p.sessions|)
  }

  ghost predicate Inv(p: Phone) {
    Carrier(p, -1) && forall i | 0 <= i < |p.sessions| :: OwnerInv(p, i)
  }

  /** The invariant with session `i` in the middle of a callback. */
  ghost predicate Others(p: Phone, i: nat) {
    && i < |p.sessions|
    && Carrier(p, i)
    && (forall j | 0 <= j < |p.sessions| && j != i :: OwnerInv(p, j))
    && Sound(p.sessions[i]) && p.sessions[i].state != Closed && p.sessions[i].watch != WatchClosed
    && Of(Trail(p.t), i) <= Word(p.sessions[i])
  }

  lemma InvIsOthers(p: Phone, i: nat)
    requires Inv(p) && i < |p.sessions| && p.sessions[i].state != Closed
    ensures Others(p, i) && Carrier(p, -1)
  {
    assert OwnerInv(p, i);
  }

  // ---- Closing ----

  lemma CloseWire(p: Phone, i: nat, j: nat)
    requires Others(p, i) && j < |p.sessions|
    ensures var t := Cancel(p.t, i);
            && Of(t.queue, j) == (if j == i then [] else Of(p.t.queue, j))
            && Of(Trail(t), j) == Of(p.t.sent, j) + Of(t.queue, j)
            && Of(Trail(p.t), j) == Of(p.t.sent, j) + Of(p.t.queue, j)
  {
    KeepSparesOthers(p.t.queue, i, j);
    OfConcat(p.t.sent, p.t.queue, j);
    OfConcat(p.t.sent, Keep(p.t.queue, i), j);
  }

  lemma CloseKeepsOthers(p: Phone, i: nat, j: nat)
    requires Others(p, i) && j < |p.sessions| && j != i
    ensures OwnerInv(CloseSession(p, i), j)
  {
    hide SessionInv, Word, Carrier, Sound;
    assert OwnerInv(p, j);
    CloseWire(p, i, j);
    assert CloseSession(p, i).t == Cancel(p.t, i);
    assert CloseSession(p, i).sessions[j] == p.sessions[j];
  }

  lemma CloseKeepsCarrier(p: Phone, i: nat)
    requires Others(p, i)
    ensures Carrier(CloseSession(p, i), -1)
  {
    hide Conserves, Word, OwnerInv, Sound;
    CancelConserves(p.t, i);
    KeepSparesOthers(p.t.queue, i, i);
    var q := CloseSession(p, i);
    assert q.t == Cancel(p.t, i);
    forall e | e in Trail(q.t) ensures EntryOk(e, q.sessions) {
      assert e in Trail(p.t);
      assert EntryOk(e, p.sessions);
    }
  }

  lemma CloseKeepsInv(p: Phone, i: nat)
    requires Others(p, i)
    ensures Inv(CloseSession(p, i)) && |CloseSession(p, i).sessions| == |p.sessions|
    ensures CloseSession(p, i).sessions[i].state == Closed
  {
    hide Carrier, Conserves, EntriesOk, OwnerInv;
    var q := CloseSession(p, i);
    CloseKeepsCarrier(p, i);
    forall j | 0 <= j < |q.sessions| ensures OwnerInv(q, j) {
      if j == i {
        ClosedIsOk(p, i);
      } else {
        CloseKeepsOthers(p, i, j);
      }
    }
  }

  function ClosedSession(s: Session): Session {
    CloseSocket(s).(watch := WatchClosed, assembler := NewAssembler(s.assembler.id), state := Closed)
  }

  lemma ClosedIsSound(s: Session)
    requires Sound(s)
    ensures SessionInv(ClosedSession(s)) && Word(ClosedSession(s)) == Word(s)
  {
    hide ParseServerFrame, ResultPayloads;
    if s.side == SocketClosed {
    }
  }

  lemma ClosedIsOk(p: Phone, i: nat)
    requires Others(p, i)
    ensures OwnerInv(CloseSession(p, i), i)
  {
    hide Carrier, Sound, Word, SessionInv;
    CloseWire(p, i, i);
    ClosedIsSound(p.sessions[i]);
    assert CloseSession(p, i).sessions[i] == ClosedSession(p.sessions[i]);
    assert CloseSession(p, i).t == Cancel(p.t, i);
  }

  // ---- Transport steps ----

  lemma TakeAcknowledged(p: Phone)
    requires Inv(p) && !p.t.busy && p.t.queue != []
    ensures Acknowledged(Take(p.t))
  {
    hide EntriesOk, SessionInv, Word, EntryOk;
    var t := Take(p.t);
    var e := p.t.queue[0];
    assert e.owner < |p.sessions| by { HeadIsOk(p); }
    assert OwnerInv(p, e.owner);
    assert Of(p.t.queue, e.owner) != [];
    forall k, m | 0 <= k < m < |t.sent| && t.sent[k].owner == t.sent[m].owner
      ensures k < |t.results| && t.results[k]
    {
      if m == |p.t.sent| {
        assert p.sessions[e.owner].state != Closed;
        assert p.t.sent[k].owner == e.owner;
      }
    }
  }

  lemma HeadIsOk(p: Phone)
    requires EntriesOk(p) && p.t.queue != []
    ensures EntryOk(p.t.queue[0], p.sessions)
  {
    assert p.t.queue[0] in Trail(p.t);
  }

  lemma TakeKeepsOwner(p: Phone, refusals: seq<bool>, j: nat)
    requires Inv(p) && !p.t.busy && p.t.queue != [] && j < |p.sessions|
    ensures OwnerInv(p.(t := Take(p.t), refusals := refusals), j)
  {
    hide SessionInv, Word, Carrier;
    assert OwnerInv(p, j);
    assert Conserves(p.t) by { InvConserves(p); }
    TakeConserves(p.t);
    var e, tail := p.t.queue[0], p.t.queue[1..];
    assert Of(p.t.queue, j) == (if e.owner == j then [e.payload] else []) + Of(tail, j);
    assert Take(p.t).sent[..|p.t.results|] == p.t.sent[..|p.t.results|];
  }

  lemma InvConserves(p: Phone)
    requires Inv(p)
    ensures Conserves(p.t)
  {
  }

  lemma TakeKeepsInv(p: Phone, refusals: seq<bool>)
    requires Inv(p) && !p.t.busy && p.t.queue != []
    ensures Inv(p.(t := Take(p.t), refusals := refusals))
  {
    hide OwnerInv, Conserves, Acknowledged, EntryOk;
    var q := p.(t := Take(p.t), refusals := refusals);
    TakeAcknowledged(p);
    TakeConserves(p.t);
    assert Trail(q.t) == Trail(p.t);
    forall j | 0 <= j < |q.sessions| ensures OwnerInv(q, j) {
      TakeKeepsOwner(p, refusals, j);
    }
  }

  /** A delivery is over: its result is recorded, in the order of sending. */
  lemma ResolveKeepsOwner(p: Phone, ok: bool, j: nat)
    requires Inv(p) && p.t.busy && j < |p.sessions| && j != p.t.sent[|p.t.results|].owner
    ensures OwnerInv(p.(t := Resolve(p.t, ok)), j)
  {
    hide SessionInv, Word, EntriesOk;
    assert OwnerInv(p, j);
    var n := |p.t.results|;
    assert p.t.sent[..n + 1] == p.t.sent[..n] + [p.t.sent[n]];
    OfSnoc(p.t.sent[..n], p.t.sent[n], j);
  }

  lemma ResolveKeepsCarrier(p: Phone, ok: bool)
    requires Inv(p) && p.t.busy
    ensures Carrier(p.(t := Resolve(p.t, ok)), if ok then -1 else p.t.sent[|p.t.results|].owner)
  {
    hide OwnerInv;
    var q := p.(t := Resolve(p.t, ok));
    assert Trail(q.t) == Trail(p.t);
    assert forall k | 0 <= k < |p.t.results| :: q.t.results[k] == p.t.results[k];
  }

  lemma CurrentIsOk(p: Phone)
    requires Inv(p) && p.t.busy
    ensures Current(p.t).Some? && Current(p.t).value == p.t.sent[|p.t.results|]
    ensures EntryOk(p.t.sent[|p.t.results|], p.sessions)
  {
    hide OwnerInv, EntryOk;
    assert p.t.sent[|p.t.results|] in Trail(p.t);
  }

  lemma ResolvedOthers(p: Phone, ok: bool)
    requires Inv(p) && p.t.busy
    ensures |p.t.results| < |p.t.sent|
    ensures var e := p.t.sent[|p.t.results|]; var r := p.(t := Resolve(p.t, ok));
            && e.owner < |p.sessions| && EntryOk(e, p.sessions)
            && Carrier(r, if ok then -1 else e.owner)
            && SessionInv(r.sessions[e.owner])
            && Of(Trail(r.t), e.owner) <= Word(r.sessions[e.owner])
            && forall j | 0 <= j < |p.sessions| && j != e.owner :: OwnerInv(r, j)
  {
    hide OwnerInv, Carrier, Word, SessionInv, EntryOk;
    CurrentIsOk(p);
    var e := p.t.sent[|p.t.results|];
    OwnerExists(e, p.sessions);
    OwnerFacts(p, e.owner);
    ResolveKeepsCarrier(p, ok);
    forall j | 0 <= j < |p.sessions| && j != e.owner ensures OwnerInv(p.(t := Resolve(p.t, ok)), j) {
      ResolveKeepsOwner(p, ok, j);
    }
    assert Trail(p.(t := Resolve(p.t, ok)).t) == Trail(p.t);
  }

  lemma OwnerExists(e: Entry, sessions: seq<Session>)
    requires EntryOk(e, sessions)
    ensures e.owner < |sessions|
  {
  }

  lemma OwnerFacts(p: Phone, i: nat)
    requires Inv(p) && i < |p.sessions|
    ensures SessionInv(p.sessions[i]) && Of(Trail(p.t), i) <= Word(p.sessions[i])
    ensures p.sessions[i].state == Closed <==> p.sessions[i].watch == WatchClosed
  {
    hide Carrier, Word, Sound;
    assert OwnerInv(p, i);
  }

  lemma FailedDeliveryKeepsInv(p: Phone)
    requires Inv(p) && p.t.busy
    ensures var e := p.t.sent[|p.t.results|]; var q := DeliveryFailed(p.(t := Resolve(p.t, false)), e);
            Inv(q) && |q.sessions| == |p.sessions|
  {
    hide OwnerInv, Carrier, Word, Sound, Conserves, EntryOk, Resolve, CloseSession, Inv;
    ResolvedOthers(p, false);
    var e := p.t.sent[|p.t.results|];
    OwnerFacts(p, e.owner);
    var r := p.(t := Resolve(p.t, false));
    if p.sessions[e.owner].watch == WatchClosed {
      ClosedAbsorbs(p, false);
    } else {
      MarkedFailed(r, e.owner);
      CloseKeepsInv(SetSession(r, e.owner, r.sessions[e.owner].(watch := WatchFailed)), e.owner);
    }
  }

  /** The end of a delivery means nothing to a session that is closed. */
  lemma ClosedAbsorbs(p: Phone, ok: bool)
    requires Inv(p) && p.t.busy
    requires var e := p.t.sent[|p.t.results|]; e.owner < |p.sessions| && p.sessions[e.owner].state == Closed
    ensures Inv(p.(t := Resolve(p.t, ok)))
  {
    hide Word, Conserves, EntriesOk, SessionInv, EntryOk;
    ResolvedOthers(p, ok);
    var e := p.t.sent[|p.t.results|];
    assert OwnerInv(p, e.owner);
    var r := p.(t := Resolve(p.t, ok));
    assert OwnerInv(r, e.owner);
    assert Carrier(r, -1);
  }

  /** Changing how the watch bridge of a live session is doing touches nothing else. */
  lemma MarkedFailed(p: Phone, i: nat)
    requires Carrier(p, i) && i < |p.sessions| && p.sessions[i].watch != WatchClosed
    requires SessionInv(p.sessions[i]) && Of(Trail(p.t), i) <= Word(p.sessions[i])
    requires forall j | 0 <= j < |p.sessions| && j != i :: OwnerInv(p, j)
    ensures Others(SetSession(p, i, p.sessions[i].(watch := WatchFailed)), i)
  {
    hide Carrier, ResultPayloads, ParseServerFrame, WireInv, OwnerInv;
    var s := p.sessions[i];
    SwapKeepsOthers(p, i, s.(watch := WatchFailed));
    FailedKeepsWord(s);
  }

  lemma FailedKeepsWord(s: Session)
    requires SessionInv(s)
    ensures var t := s.(watch := WatchFailed); Sound(t) && Word(t) == Word(s)
  {
    hide ParseServerFrame, ResultPayloads, IsRequestId;
  }

  /** Replacing session `i` by one with the same identity and outcome keeps everyone else. */
  lemma SwapKeepsOthers(p: Phone, i: nat, s: Session)
    requires i < |p.sessions| && Carrier(p, i) && p.sessions[i].state != Closed
    requires forall j | 0 <= j < |p.sessions| && j != i :: OwnerInv(p, j)
    requires s.id == p.sessions[i].id && (p.sessions[i].outcome == NoOutcome || s.outcome == p.sessions[i].outcome)
    ensures Carrier(SetSession(p, i, s), i)
    ensures forall j | 0 <= j < |p.sessions| && j != i :: OwnerInv(SetSession(p, i, s), j)
  {
    hide Conserves, ResultPayloads, SessionInv, WireInv;
    var q := SetSession(p, i, s);
    forall e | e in Trail(q.t) ensures EntryOk(e, q.sessions) {
      assert EntryOk(e, p.sessions);
    }
    forall j | 0 <= j < |p.sessions| && j != i ensures OwnerInv(q, j) {
      assert OwnerInv(p, j);
    }
  }

  // ---- Pumping ----

  lemma {:induction false} PumpKeepsInv(p: Phone)
    requires Inv(p)
    ensures Inv(Pump(p)) && |Pump(p).sessions| == |p.sessions|
    decreases |p.t.queue|
  {
    hide Inv, Take, Resolve, DeliveryFailed;
    if !p.t.busy && p.t.queue != [] {
      var e := p.t.queue[0];
      var taken := p.(t := Take(p.t), refusals := if p.refusals == [] then [] else p.refusals[1..]);
      TakeKeepsInv(p, taken.refusals);
      TakeIsCurrent(p);
      if p.refusals != [] && p.refusals[0] {
        FailedDeliveryKeepsInv(taken);
        CloseShrinks(taken.(t := Resolve(taken.t, false)), e);
        PumpKeepsInv(DeliveryFailed(taken.(t := Resolve(taken.t, false)), e));
      }
    }
  }

  lemma TakeIsCurrent(p: Phone)
    requires Inv(p) && !p.t.busy && p.t.queue != []
    ensures Take(p.t).busy && |Take(p.t).results| < |Take(p.t).sent| && Take(p.t).sent[|Take(p.t).results|] == p.t.queue[0]
    ensures |Resolve(Take(p.t), false).queue| < |p.t.queue|
  {
    InvConserves(p);
  }

  /** A new message of a live session may be queued if it continues the session's word. */
  lemma PushKeepsInv(p: Phone, i: nat, payload: PhoneMsg, done: Done)
    requires Others(p, i) && Carrier(p, -1) && SessionInv(p.sessions[i])
    requires EntryOk(Entry(i, payload, done, p.t.next), p.sessions)
    requires WireInv(Append(p.t, i, payload, done), i, p.sessions[i])
    ensures Inv(p.(t := Append(p.t, i, payload, done)))
  {
    hide SessionInv, Sound, Word, Conserves, EntryOk;
    var q := p.(t := Append(p.t, i, payload, done));
    var e := Entry(i, payload, done, p.t.next);
    AppendConserves(p.t, i, payload, done);
    assert Trail(q.t) == Trail(p.t) + [e];
    assert forall x :: x in Trail(q.t) <==> x in Trail(p.t) || x == e;
    forall j | 0 <= j < |q.sessions| ensures OwnerInv(q, j) {
      if j != i {
        assert OwnerInv(p, j);
        OfSnoc(Trail(p.t), e, j);
        OfSnoc(p.t.queue, e, j);
      }
    }
  }

  lemma EnqueueKeepsInv(p: Phone, i: nat, payload: PhoneMsg, done: Done)
    requires Others(p, i) && Carrier(p, -1) && SessionInv(p.sessions[i])
    requires EntryOk(Entry(i, payload, done, p.t.next), p.sessions)
    requires WireInv(Append(p.t, i, payload, done), i, p.sessions[i])
    ensures Inv(Enqueue(p, i, payload, done)) && |Enqueue(p, i, payload, done).sessions| == |p.sessions|
  {
    hide Inv, Others, Carrier, SessionInv, WireInv, EntryOk, Append;
    PushKeepsInv(p, i, payload, done);
    PumpKeepsInv(p.(t := Append(p.t, i, payload, done)));
  }
}
