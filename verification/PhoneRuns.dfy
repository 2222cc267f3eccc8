/** Whole runs of the phone: any watch messages, sockets, timers and delivery results, in any
    order, with deliveries that fail inside the call and frames that arrive inside a send. */
module PhoneRuns {
  import opened Unicode
  import opened Greedy
  import opened Messages
  import opened Protocol
  import opened PhoneModel
  import opened PhoneProofs
  import opened PhoneSteps
  import opened PhoneFrames

  datatype PhoneAction = PhoneAction(event: PhoneEvent, env: PhoneEnv)

  predicate Possible(p: Phone, actions: seq<PhoneAction>)
    decreases |actions|
  {
    actions == [] || (Enabled(p, actions[0].event) && Possible(Step(p, actions[0].event, actions[0].env), actions[1..]))
  }

  function Run(p: Phone, actions: seq<PhoneAction>): Phone
    requires Possible(p, actions)
    decreases |actions|
  {
    if actions == [] then p else Run(Step(p, actions[0].event, actions[0].env), actions[1..])
  }

  ghost predicate Reachable(p: Phone) {
    exists actions :: Possible(IDLE_PHONE, actions) && p == Run(IDLE_PHONE, actions)
  }

  lemma ReceivingIsFresh(p: Phone, i: nat)
    requires Inv(p) && i < |p.sessions| && p.sessions[i].state == Receiving
    ensures var s := p.sessions[i];
            && s.watch == ReceivingTranscript && !s.terminal && s.transcript == None && s.side !in {SocketClosed, SocketFailed}
            && s.sends == []
  {
    hide Carrier, WireInv, Sound;
    assert OwnerInv(p, i);
  }

  /** Every event extends the transport's history and leaves nothing waiting while it is free. */
  lemma StepIsQuiet(p: Phone, e: PhoneEvent, env: PhoneEnv)
    requires Inv(p) && Enabled(p, e)
    ensures var q := Step(p, e, env); Grows(p.t, q.t) && (Quiet(p.t) ==> Quiet(q.t))
  {
    hide Inv, OnAppMessage, Tame;
    RefusalsKeepInv(p, env.refusals);
    match e
    case AppMessage(payload) => MessageIsQuiet(p.(refusals := env.refusals), payload, env);
    case _ => StepMild(p, e, env);
  }

  lemma MessageIsQuiet(p: Phone, payload: Option<JsPayload>, env: PhoneEnv)
    requires Inv(p)
    ensures var q := OnAppMessage(p, payload, env); Grows(p.t, q.t) && (Quiet(p.t) ==> Quiet(q.t))
  {
    hide Inv, Tame, ParseWatchMessage, HandleWatchMessage, FailSession, StartSession;
    match ParseWatchMessage(payload)
    case None =>
      if p.active.Some? && p.active.value < |p.sessions| {
        FailSessionCalm(p, p.active.value, STATUS_PROTOCOL);
      }
    case Some(m) =>
      if m.Begin? {
        StartFrame(p, m.id, env.constructed);
      } else if p.active.Some? && p.active.value < |p.sessions| {
        WatchMessageIsQuiet(p, p.active.value, m, env.call);
      }
  }

  lemma WatchMessageIsQuiet(p: Phone, i: nat, m: Message, call: SendCall)
    requires Inv(p) && i < |p.sessions|
    ensures var q := HandleWatchMessage(p, i, m, call); Grows(p.t, q.t) && (Quiet(p.t) ==> Quiet(q.t))
  {
    hide Inv, Tame, Mild, HandleWatchMessage, GivenChunk;
    var s := p.sessions[i];
    if m.Chunk? && s.state == Receiving && s.watch == ReceivingTranscript {
      ReceivingIsFresh(p, i);
      ChunkMild(p, i, m, call);
    } else {
      OtherMessageCalm(p, i, m, call);
    }
  }

  ghost predicate RunInv(p: Phone) { Inv(p) && Quiet(p.t) }

  lemma {:induction false} RunKeepsInv(p: Phone, actions: seq<PhoneAction>)
    requires RunInv(p) && Possible(p, actions)
    ensures RunInv(Run(p, actions)) && Grows(p.t, Run(p, actions).t)
    decreases |actions|
  {
    hide Inv, Step, Enabled;
    if actions != [] {
      var e, env := actions[0].event, actions[0].env;
      StepKeepsInv(p, e, env);
      StepIsQuiet(p, e, env);
      RunKeepsInv(Step(p, e, env), actions[1..]);
    }
  }

  lemma ReachableInv(p: Phone)
    requires Reachable(p)
    ensures RunInv(p)
  {
    hide Inv;
    var actions :| Possible(IDLE_PHONE, actions) && p == Run(IDLE_PHONE, actions);
    IdleIsInv();
    RunKeepsInv(IDLE_PHONE, actions);
  }

  // ---- The transport ----

  /** Where the entry with a given ticket is. */
  datatype Fate = Queued(at: nat) | InFlight | Completed(at: nat, ok: bool) | Cancelled

  ghost predicate HasFate(t: Transport, ticket: nat, f: Fate) {
    match f
    case Queued(k) => k < |t.queue| && t.queue[k].ticket == ticket
    case InFlight => t.busy && |t.results| < |t.sent| && t.sent[|t.results|].ticket == ticket
    case Completed(k, ok) => k < |t.results| && k < |t.sent| && t.results[k] == ok && t.sent[k].ticket == ticket
    case Cancelled => ticket in t.cancelled
  }

  lemma FateExists(t: Transport, ticket: nat) returns (f: Fate)
    requires Conserves(t) && ticket < t.next
    ensures HasFate(t, ticket, f)
  {
    if ticket in t.cancelled {
      f := Cancelled;
    } else {
      var trail := t.sent + t.queue;
      var k :| 0 <= k < |trail| && trail[k].ticket == ticket;
      f := if k >= |t.sent| then Queued(k - |t.sent|) else if k < |t.results| then Completed(k, t.results[k]) else InFlight;
    }
  }

  /** The position in the trail that a fate other than cancellation names. */
  function Place(t: Transport, f: Fate): int
    requires !f.Cancelled?
  {
    match f
    case Queued(k) => |t.sent| + k
    case InFlight => |t.results|
    case Completed(k, _) => k
  }

  lemma FateIsInTrail(t: Transport, ticket: nat, f: Fate)
    requires Conserves(t) && HasFate(t, ticket, f) && !f.Cancelled?
    ensures ticket in Tickets(t.sent + t.queue) && ticket < t.next
  {
    assert (t.sent + t.queue)[Place(t, f)].ticket in Tickets(t.sent + t.queue);
  }

  lemma FateIsUnique(t: Transport, ticket: nat, f: Fate, g: Fate)
    requires Conserves(t) && HasFate(t, ticket, f) && HasFate(t, ticket, g)
    ensures f == g
  {
    var trail := t.sent + t.queue;
    if f.Cancelled? && !g.Cancelled? {
      FateIsInTrail(t, ticket, g);
    } else if !f.Cancelled? && g.Cancelled? {
      FateIsInTrail(t, ticket, f);
    } else if !f.Cancelled? {
      assert trail[Place(t, f)].ticket == ticket == trail[Place(t, g)].ticket;
      assert Place(t, f) == Place(t, g);
    }
  }

  /** Conservation.  In every reachable state each entry ever enqueued is exactly one of queued,
      in flight, completed or cancelled; at most one is in flight; and whenever the transport is
      not waiting for a callback its queue is empty, so `busy` is never left behind. */
  lemma EveryEntryHasOneFate(p: Phone, ticket: nat)
    requires Reachable(p)
    ensures ticket < p.t.next <==> exists f :: HasFate(p.t, ticket, f)
    ensures forall f, g :: HasFate(p.t, ticket, f) && HasFate(p.t, ticket, g) ==> f == g
    ensures |p.t.results| <= |p.t.sent| <= |p.t.results| + 1
    ensures p.t.busy <==> |p.t.sent| == |p.t.results| + 1
    ensures !p.t.busy ==> p.t.queue == []
  {
    hide HasFate, Ordered;
    ReachableInv(p);
    InvConserves(p);
    forall f, g | HasFate(p.t, ticket, f) && HasFate(p.t, ticket, g) ensures f == g {
      FateIsUnique(p.t, ticket, f, g);
    }
    if ticket < p.t.next {
      var f := FateExists(p.t, ticket);
    }
    forall f | HasFate(p.t, ticket, f) ensures ticket < p.t.next {
      FateIsBounded(p.t, ticket, f);
    }
  }

  lemma FateIsBounded(t: Transport, ticket: nat, f: Fate)
    requires Conserves(t) && HasFate(t, ticket, f)
    ensures ticket < t.next
  {
    if !f.Cancelled? {
      FateIsInTrail(t, ticket, f);
    }
  }

  /** A completed or cancelled entry stays so: `done` is called at most once. */
  lemma FateIsFinal(p: Phone, actions: seq<PhoneAction>, ticket: nat, f: Fate)
    requires Reachable(p) && Possible(p, actions)
    requires HasFate(p.t, ticket, f) && (f.Completed? || f.Cancelled?)
    ensures HasFate(Run(p, actions).t, ticket, f)
  {
    hide Inv, Step, Enabled, Run, Possible;
    ReachableInv(p);
    RunKeepsInv(p, actions);
  }

  /** Transmission order is enqueue order without the cancelled entries. */
  lemma TransmissionOrder(p: Phone, k: nat, ticket: nat)
    requires Reachable(p) && k < |p.t.sent|
    ensures ticket < p.t.sent[k].ticket <==>
              (ticket in p.t.cancelled && ticket < p.t.sent[k].ticket) || exists j :: 0 <= j < k && p.t.sent[j].ticket == ticket
  {
    ReachableInv(p);
    InvConserves(p);
    var trail := p.t.sent + p.t.queue;
    assert trail[k] == p.t.sent[k];
    assert trail[k].ticket in Tickets(trail);
    if ticket < p.t.sent[k].ticket && ticket !in p.t.cancelled {
      var j :| 0 <= j < |trail| && trail[j].ticket == ticket;
      assert j < k;
      assert trail[j] == p.t.sent[j];
    }
    forall j | 0 <= j < k && p.t.sent[j].ticket == ticket ensures ticket < p.t.sent[k].ticket {
      assert trail[j] == p.t.sent[j];
    }
  }

  /** Cancelling removes exactly the owner's waiting entries: every other one keeps its place among
      the rest, what is in flight stays in flight, and `busy` is untouched. */
  lemma CancelIsExact(p: Phone, owner: nat, k: nat)
    requires Reachable(p) && k < |p.t.queue|
    ensures var t := Cancel(p.t, owner); var e := p.t.queue[k];
            && Conserves(t)
            && t.busy == p.t.busy && Current(t) == Current(p.t) && t.results == p.t.results
            && (e.owner == owner ==> HasFate(t, e.ticket, Cancelled))
            && (e.owner != owner ==> exists j: nat :: HasFate(t, e.ticket, Queued(j)))
            && (e.owner != owner ==> Of(t.queue, e.owner) == Of(p.t.queue, e.owner))
  {
    hide Inv, Conserves, Reachable;
    ReachableInv(p);
    InvConserves(p);
    CancelConserves(p.t, owner);
    var e := p.t.queue[k];
    if e.owner == owner {
      KeptTickets(p.t, owner, k);
    } else {
      var j := KeptPlace(p.t.queue, owner, k);
      assert HasFate(Cancel(p.t, owner), e.ticket, Queued(j));
    }
  }

  lemma KeptPlace(q: seq<Entry>, owner: nat, k: nat) returns (j: nat)
    requires k < |q| && q[k].owner != owner
    ensures j < |Keep(q, owner)| && Keep(q, owner)[j] == q[k]
    ensures Of(Keep(q, owner), q[k].owner) == Of(q, q[k].owner)
  {
    KeepSparesOthers(q, owner, q[k].owner);
    assert q[k] in Keep(q, owner);
    j :| j < |Keep(q, owner)| && Keep(q, owner)[j] == q[k];
  }

  lemma KeptTickets(t: Transport, owner: nat, k: nat)
    requires Conserves(t) && k < |t.queue| && t.queue[k].owner == owner
    ensures t.queue[k].ticket in Tickets(t.queue) - Tickets(Keep(t.queue, owner))
  {
    KeepSparesOthers(t.queue, owner, owner);
    assert t.queue[k] in t.queue;
    forall e | e in t.queue && e.ticket == t.queue[k].ticket ensures e == t.queue[k] {
      var j :| 0 <= j < |t.queue| && t.queue[j] == e;
      assert (t.sent + t.queue)[|t.sent| + j] == e && (t.sent + t.queue)[|t.sent| + k] == t.queue[k];
    }
  }

  // ---- What a session says to the watch ----

  ghost predicate SaysFailure(msgs: seq<PhoneMsg>, s: Session) {
    s.outcome.FailedWith? &&
    (msgs == [FailureMsg(s.id, s.outcome.status)] || msgs == [SendStartedMsg(s.id), FailureMsg(s.id, s.outcome.status)])
  }

  /** `SEND_STARTED` and then result chunks 0, 1, 2, ... of the result the server gave. */
  ghost predicate SaysResult(msgs: seq<PhoneMsg>, s: Session) {
    && s.accepted.Some? && ParseServerFrame(s.accepted.value, s.id).Result?
    && var r := ParseServerFrame(s.accepted.value, s.id);
    && ResultPayloads(s.id, r.success, r.response).Some?
    && msgs <= [SendStartedMsg(s.id)] + ResultPayloads(s.id, r.success, r.response).value
  }

  /** In every reachable state what a session has handed to the transport's outbox is an optional
      `SEND_STARTED` followed by nothing, by one `FAILURE`, or by a run of result chunks from the
      first; and `SEND_STARTED` means that the request was sent. */
  lemma MessageLanguage(p: Phone, i: nat)
    requires Reachable(p) && i < |p.sessions|
    ensures var msgs := Of(p.t.sent, i); var s := p.sessions[i];
            && (msgs <= [SendStartedMsg(s.id)] || SaysFailure(msgs, s) || SaysResult(msgs, s))
            && (msgs != [] && msgs[0].SendStartedMsg? ==> |s.sends| == 1)
            && |s.sends| <= 1
  {
    hide Carrier, ResultPayloads, ParseServerFrame, IsRequestId, IsResponse;
    ReachableInv(p);
    assert OwnerInv(p, i);
    var s := p.sessions[i];
    OfConcat(p.t.sent, p.t.queue, i);
    var msgs := Of(p.t.sent, i);
    assert msgs <= Word(s);
    match s.outcome
    case NoOutcome =>
    case FailedWith(status) =>
      assert Word(s) == Started(s) + [FailureMsg(s.id, status)];
    case Forwarded(success, response) =>
      ParsedIsResponse(s.accepted.value, s.id);
      ResultPayloadsAreComplete(s.id, success, response);
      PayloadsAreNumbered(s.id, success, response);
  }

  /** Nothing is handed over for a session until its previous message was acknowledged; so result
      chunks come only after an acknowledged `SEND_STARTED`. */
  lemma OneAtATime(p: Phone, k: nat, m: nat)
    requires Reachable(p) && k < m < |p.t.sent| && p.t.sent[k].owner == p.t.sent[m].owner
    ensures HasFate(p.t, p.t.sent[k].ticket, Completed(k, true))
  {
    ReachableInv(p);
  }

  lemma ResultFollowsStart(p: Phone, m: nat)
    requires Reachable(p) && m < |p.t.sent| && p.t.sent[m].payload.ResultMsg?
    ensures exists k :: 0 <= k < m && k < |p.t.results| && p.t.results[k]
                        && p.t.sent[k].owner == p.t.sent[m].owner && p.t.sent[k].payload == SendStartedMsg(p.t.sent[m].payload.id)
  {
    hide Inv, Reachable;
    ReachableInv(p);
    var i := p.t.sent[m].owner;
    StartIsBefore(p, m);
    var said := Of(p.t.sent[..m], i);
    OfPayload(p.t.sent[..m], i, 0);
    var k :| 0 <= k < m && p.t.sent[..m][k].owner == i && p.t.sent[..m][k].payload == said[0];
    OneAtATime(p, k, m);
  }

  /** Before a result payload its session has said `SEND_STARTED` first. */
  lemma StartIsBefore(p: Phone, m: nat)
    requires Inv(p) && m < |p.t.sent| && p.t.sent[m].payload.ResultMsg?
    ensures var said := Of(p.t.sent[..m], p.t.sent[m].owner);
            said != [] && said[0] == SendStartedMsg(p.t.sent[m].payload.id)
  {
    hide Carrier, ResultPayloads, ParseServerFrame, IsRequestId;
    var e := p.t.sent[m];
    InvHasEntry(p, m);
    var i := e.owner;
    assert OwnerInv(p, i);
    var s := p.sessions[i];
    OfConcat(p.t.sent, p.t.queue, i);
    OfAt(p.t.sent, m, i);
    var said := Of(p.t.sent[..m], i);
    assert Of(p.t.sent, i) <= Word(s);
    assert Word(s)[|said|] == e.payload;
    PayloadsAreNumbered(s.id, s.outcome.success, s.outcome.response);
    assert said != [];
    assert said == Of(p.t.sent, i)[..|said|] by { PrefixSaid(p.t.sent, m, i); }
  }

  lemma InvHasEntry(p: Phone, m: nat)
    requires Inv(p) && m < |p.t.sent|
    ensures EntryOk(p.t.sent[m], p.sessions)
  {
    hide OwnerInv, EntryOk;
    assert p.t.sent[m] in Trail(p.t);
  }

  lemma PrefixSaid(es: seq<Entry>, m: nat, i: nat)
    requires m <= |es|
    ensures Of(es[..m], i) <= Of(es, i)
  {
    assert es == es[..m] + es[m..];
    OfConcat(es[..m], es[m..], i);
  }

  /** A session whose outcome is decided but not yet closed always has a message outstanding, so
      a callback that moves it on is still to come: no session is stranded. */
  lemma NoSessionIsStranded(p: Phone, i: nat)
    requires Reachable(p) && i < |p.sessions| && p.sessions[i].state == ForwardingTerminal
    ensures Current(p.t).Some?
    ensures Current(p.t).value.owner == i || exists k :: 0 <= k < |p.t.queue| && p.t.queue[k].owner == i
  {
    hide Carrier, Sound, Word, Started;
    ReachableInv(p);
    InvConserves(p);
    assert OwnerInv(p, i);
    var n := |p.t.results|;
    assert p.t.sent == p.t.sent[..n] + p.t.sent[n..];
    OfConcat(p.t.sent[..n], p.t.sent[n..], i);
    OfConcat(p.t.sent, p.t.queue, i);
    var rest := p.t.sent[n..] + p.t.queue;
    OfConcat(p.t.sent[n..], p.t.queue, i);
    OfPayload(rest, i, 0);
    var k :| 0 <= k < |rest| && rest[k].owner == i && rest[k].payload == Of(rest, i)[0];
  }

  // ---- The socket bridge ----

  /** Between events: each timer runs in exactly its phase, frames are held back only inside a
      send, a finished bridge has neither timer nor socket nor transcript, and the bridge reports
      at most one result or failure, a result only after the send started. */
  lemma SocketDiscipline(p: Phone, i: nat)
    requires Reachable(p) && i < |p.sessions|
    ensures var s := p.sessions[i];
            && (s.resultTimer <==> s.side == AwaitingFrame)
            && (s.handoffTimer <==> s.side in {Connecting, SocketReady} && s.transcript.Some?)
            && (s.handoffTimer ==> s.sends == [])
            && s.side in {Connecting, SocketReady, AwaitingFrame, SocketClosed}
            && s.pending == []
            && (s.side == SocketClosed <==> s.state in {ForwardingTerminal, SessionState.Closed})
            && (s.side == SocketClosed ==> s.socket == None && s.transcript == None && !s.handoffTimer && !s.resultTimer)
            && EmittedOk(s.emitted)
            && (s.emitted != [] && s.emitted[0] == SendStarted ==> |s.sends| == 1)
  {
    hide Carrier, WireInv;
    ReachableInv(p);
    assert OwnerInv(p, i);
  }

  /** Frames that arrive while `send` runs are handled in order as if they had arrived just after
      it, behind `SEND_STARTED`. */
  lemma BufferedFramesArriveLater(p: Phone, i: nat, frames: seq<Frame>)
    requires Reachable(p) && i < |p.sessions| && CanSend(p.sessions[i])
    requires BuildRequest(p.sessions[i].id, p.sessions[i].transcript.value).Some?
    ensures var plain := TrySend(p, i, SendCall(false, []));
            i < |plain.sessions| && TrySend(p, i, SendCall(false, frames)) == Replay(plain, i, frames)
  {
    hide Inv, TrySend, BuildRequest, HandleServerEvent;
    ReachableInv(p);
    var request := BuildRequest(p.sessions[i].id, p.sessions[i].transcript.value).value;
    SentThenReplayed(p, i, request, []);
    SentThenReplayed(p, i, request, frames);
  }

  // ---- Where accepted frames come from ----

  ghost predicate SendsGrow(p: Phone, q: Phone) {
    |p.sessions| <= |q.sessions| && forall j | 0 <= j < |p.sessions| :: p.sessions[j].sends <= q.sessions[j].sends
  }

  /** A frame that a session accepts came in on its own socket, with this event or inside the send
      of its own request. */
  lemma StepTakes(p: Phone, e: PhoneEvent, env: PhoneEnv)
    requires Inv(p) && Enabled(p, e)
    ensures TakesFrom(p, Step(p, e, env), e, env.call.frames) && SendsGrow(p, Step(p, e, env))
  {
    hide Inv, OnAppMessage, Tame, TakesFrom, Takes, SendsGrow, MildPhone;
    RefusalsKeepInv(p, env.refusals);
    match e
    case AppMessage(payload) =>
      MessageTakes(p.(refusals := env.refusals), payload, env);
      MessageTakesFrom(p, p.(refusals := env.refusals), Step(p, e, env), e, env.call.frames);
    case SocketOpen(i) =>
      NothingHeld(p, i);
      StepMild(p, e, env);
      MildSendsGrow(p, Step(p, e, env));
    case _ =>
      StepMild(p, e, env);
      MildSendsGrow(p, Step(p, e, env));
  }

  lemma MessageTakesFrom(p0: Phone, p: Phone, q: Phone, e: PhoneEvent, frames: seq<Frame>)
    requires p.sessions == p0.sessions && Takes(p, q, frames) && SendsGrow(p, q) && e.AppMessage?
    ensures TakesFrom(p0, q, e, frames) && SendsGrow(p0, q)
  {
    hide Took;
  }

  lemma MildSendsGrow(p: Phone, q: Phone)
    requires MildPhone(p, q)
    ensures SendsGrow(p, q)
  {
    hide Tame, BuildRequest;
  }

  lemma MessageTakes(p: Phone, payload: Option<JsPayload>, env: PhoneEnv)
    requires Inv(p)
    ensures Takes(p, OnAppMessage(p, payload, env), env.call.frames) && SendsGrow(p, OnAppMessage(p, payload, env))
  {
    hide Inv, Tame, Takes, SendsGrow, ParseWatchMessage, HandleWatchMessage, FailSession, StartSession, Calm;
    CalmItself(p);
    CalmAlso(p, p, env.call.frames);
    if p.active.Some? && p.active.value < |p.sessions| {
      FailSessionCalm(p, p.active.value, STATUS_PROTOCOL);
      CalmAlso(p, FailSession(p, p.active.value, STATUS_PROTOCOL), env.call.frames);
    }
    if ParseWatchMessage(payload).Some? {
      var m := ParseWatchMessage(payload).value;
      StartTakes(p, m.id, env.constructed, env.call.frames);
      if p.active.Some? && p.active.value < |p.sessions| {
        WatchMessageTakes(p, p.active.value, m, env.call);
      }
    }
  }

  lemma CalmAlso(p: Phone, q: Phone, frames: seq<Frame>)
    requires Calm(p, q)
    ensures Takes(p, q, frames) && SendsGrow(p, q)
  {
    hide Took;
  }

  lemma StartTakes(p: Phone, id: seq<Unit>, constructed: bool, frames: seq<Frame>)
    ensures Takes(p, StartSession(p, id, constructed), frames) && SendsGrow(p, StartSession(p, id, constructed))
  {
    hide Took, Tame, StartSession, BuildRequest;
    StartFrame(p, id, constructed);
    MildSendsGrow(p, StartSession(p, id, constructed));
  }

  lemma WatchMessageTakes(p: Phone, i: nat, m: Message, call: SendCall)
    requires Inv(p) && i < |p.sessions|
    ensures var q := HandleWatchMessage(p, i, m, call); Takes(p, q, call.frames) && SendsGrow(p, q)
  {
    hide Inv, Tame, Takes, MildPhone, HandleWatchMessage, GivenChunk, Calm;
    if m.Chunk? && p.sessions[i].state == Receiving && p.sessions[i].watch == ReceivingTranscript {
      ReceivingIsFresh(p, i);
      NothingHeld(p, i);
      ChunkMild(p, i, m, call);
      MildSendsGrow(SetSession(p, i, GivenChunk(p.sessions[i], m)), HandleWatchMessage(p, i, m, call));
      GivenSends(p.sessions[i], m);
    } else {
      OtherMessageCalm(p, i, m, call);
      CalmAlso(p, HandleWatchMessage(p, i, m, call), call.frames);
    }
  }

  lemma GivenSends(s: Session, m: Message)
    ensures GivenChunk(s, m).sends == s.sends
  {
    hide Add;
  }

  // ---- The stored active session ----

  lemma FreePumpOnce(p: Phone)
    requires !p.t.busy && |p.t.queue| == 1
    ensures var e := p.t.queue[0];
            var taken := p.(t := Take(p.t), refusals := if p.refusals == [] then [] else p.refusals[1..]);
            Pump(p) == if p.refusals == [] || !p.refusals[0] then taken
                       else DeliveryFailed(taken.(t := Resolve(taken.t, false)), e)
  {
    var e := p.t.queue[0];
    var taken := p.(t := Take(p.t), refusals := if p.refusals == [] then [] else p.refusals[1..]);
    var free := taken.(t := Resolve(taken.t, false));
    CloseShrinks(free, e);
    assert DeliveryFailed(free, e).t.queue == [];
    assert Pump(DeliveryFailed(free, e)) == DeliveryFailed(free, e);
  }

  /** A session that cannot reach its server fails at once; if the failure message is then refused
      too, the session is closed before it is stored. */
  lemma OpenCloses(p: Phone, id: seq<Unit>, constructed: bool)
    requires Quiet(p.t)
    ensures var i := |p.sessions|;
            var q := OpenSocket(p.(sessions := p.sessions + [NewSession(id)]), i, constructed);
            && |q.sessions| == i + 1
            && (q.sessions[i].state == SessionState.Closed <==> !constructed && !p.t.busy && p.refusals != [] && p.refusals[0])
  {
    hide Pump, Take, Resolve;
    var i := |p.sessions|;
    var s := NewSession(id);
    if !constructed {
      var f := s.(side := SocketFailed, emitted := [FailureEvent(ServerFailure)]);
      var t := CloseSocket(f).(terminal := true, state := ForwardingTerminal, outcome := FailedWith(STATUS_SERVER));
      var e := Entry(i, FailureMsg(id, STATUS_SERVER), ThenClose, p.t.next);
      var said := p.(sessions := p.sessions + [t], t := Append(p.t, i, e.payload, e.done));
      FailingSession(p, id);
      if !p.t.busy {
        assert said.t.queue == [e];
        FreePumpOnce(said);
      } else {
        BusyPump(said);
      }
    }
  }

  lemma BusyPump(p: Phone)
    requires p.t.busy
    ensures Pump(p) == p
  {
  }

  lemma FailingSession(p: Phone, id: seq<Unit>)
    ensures var i := |p.sessions|;
            var f := NewSession(id).(side := SocketFailed, emitted := [FailureEvent(ServerFailure)]);
            var t := CloseSocket(f).(terminal := true, state := ForwardingTerminal, outcome := FailedWith(STATUS_SERVER));
            OpenSocket(p.(sessions := p.sessions + [NewSession(id)]), i, false)
              == Pump(p.(sessions := p.sessions + [t], t := Append(p.t, i, FailureMsg(id, STATUS_SERVER), ThenClose)))
  {
    hide Pump;
    var i := |p.sessions|;
    var f := NewSession(id).(side := SocketFailed, emitted := [FailureEvent(ServerFailure)]);
    var t := CloseSocket(f).(terminal := true, state := ForwardingTerminal, outcome := FailedWith(STATUS_SERVER));
    var bare := p.(sessions := p.sessions + [NewSession(id)]);
    LastReplaced(p, NewSession(id), f.(side := Connecting, emitted := []));
    LastReplaced(p, f.(side := Connecting, emitted := []), f);
    LastReplaced(p, f, t);
    assert [] + [FailureEvent(ServerFailure)] == [FailureEvent(ServerFailure)];
  }

  lemma LastReplaced(p: Phone, s: Session, u: Session)
    ensures SetSession(p.(sessions := p.sessions + [s]), |p.sessions|, u) == p.(sessions := p.sessions + [u])
  {
    assert SetSession(p.(sessions := p.sessions + [s]), |p.sessions|, u).sessions == p.sessions + [u];
  }

  /** The session that `startSession` stores as the active one is closed already exactly when
      its socket could not be constructed and the transport was free and refused its failure. */
  lemma StoredSessionIsClosedIff(p: Phone, id: seq<Unit>, constructed: bool)
    requires Quiet(p.t)
    ensures var q := StartSession(p, id, constructed); var i := |p.sessions|;
            && |q.sessions| == i + 1 && q.active == Some(i)
            && (q.sessions[i].state == SessionState.Closed <==> !constructed && !p.t.busy && p.refusals != [] && p.refusals[0])
  {
    hide OpenSocket, Tame;
    CalmItself(p);
    var q := if p.active.Some? then CloseSession(p, p.active.value) else p;
    if p.active.Some? {
      CloseCalm(p, p.active.value);
    }
    assert q.t.busy == p.t.busy && q.refusals == p.refusals;
    OpenCloses(q, id, constructed);
  }

  predicate Starts(e: PhoneEvent) {
    e.AppMessage? && ParseWatchMessage(e.payload).Some? && ParseWatchMessage(e.payload).value.Begin?
  }

  /** "The active session is null or not closed" is false.  After any event of any run the active
      session is closed exactly when it was closed before, or the event started a session that could
      not construct its socket while the transport was free and refused its failure. */
  lemma ActiveClosedIff(p: Phone, e: PhoneEvent, env: PhoneEnv)
    requires Reachable(p) && Enabled(p, e)
    ensures ActiveClosed(Step(p, e, env))
            <==> if Starts(e) then !env.constructed && !p.t.busy && env.refusals != [] && env.refusals[0] else ActiveClosed(p)
  {
    hide Inv, ActiveClosed, ParseWatchMessage, StartSession, HandleWatchMessage, FailSession, MildPhone, Tame, Finish, FailSocket, HandleFrame, TrySend,
         Reachable, TakesFrom;
    ReachableInv(p);
    RefusalsKeepInv(p, env.refusals);
    var r := p.(refusals := env.refusals);
    assert ActiveClosed(r) <==> ActiveClosed(p) by { RefusalsKeepActive(p, env.refusals); }
    if Starts(e) {
      StartedActive(r, ParseWatchMessage(e.payload).value.id, env.constructed);
    } else if e.AppMessage? {
      MessageKeepsActive(r, e.payload, env);
    } else {
      StepMild(p, e, env);
    }
  }

  lemma RefusalsKeepActive(p: Phone, refusals: seq<bool>)
    ensures ActiveClosed(p.(refusals := refusals)) <==> ActiveClosed(p)
  {
  }

  lemma StartedActive(p: Phone, id: seq<Unit>, constructed: bool)
    requires Quiet(p.t)
    ensures ActiveClosed(StartSession(p, id, constructed)) <==> !constructed && !p.t.busy && p.refusals != [] && p.refusals[0]
  {
    hide StartSession;
    StoredSessionIsClosedIff(p, id, constructed);
  }

  lemma MessageKeepsActive(p: Phone, payload: Option<JsPayload>, env: PhoneEnv)
    requires Inv(p) && !Starts(AppMessage(payload))
    ensures ActiveClosed(OnAppMessage(p, payload, env)) <==> ActiveClosed(p)
  {
    hide Inv, ActiveClosed, Tame, ParseWatchMessage, HandleWatchMessage, FailSession, StartSession;
    if p.active.Some? && p.active.value < |p.sessions| {
      FailSessionCalm(p, p.active.value, STATUS_PROTOCOL);
      if ParseWatchMessage(payload).Some? {
        WatchMessageKeepsActive(p, p.active.value, ParseWatchMessage(payload).value, env.call);
      }
    }
  }

  lemma WatchMessageKeepsActive(p: Phone, i: nat, m: Message, call: SendCall)
    requires Inv(p) && i < |p.sessions|
    ensures ActiveClosed(HandleWatchMessage(p, i, m, call)) <==> ActiveClosed(p)
  {
    hide Inv, ActiveClosed, Tame, MildPhone, HandleWatchMessage, GivenChunk;
    if m.Chunk? && p.sessions[i].state == Receiving && p.sessions[i].watch == ReceivingTranscript {
      ReceivingIsFresh(p, i);
      ChunkMild(p, i, m, call);
    } else {
      OtherMessageCalm(p, i, m, call);
    }
  }

  function BeginFor(id: seq<Unit>): JsPayload {
    map[ProtocolVersion := JsNumber(PROTOCOL_VERSION), MessageType := JsNumber(SESSION_BEGIN), RequestId := JsString(id)]
  }

  const NO_FRAMES := SendCall(false, [])

  /** A reachable input: the first session cannot construct its socket, and its failure is refused. */
  lemma ActiveCanBeClosed(id: seq<Unit>) returns (p: Phone)
    requires IsRequestId(id)
    ensures Reachable(p) && p.active == Some(0) && ActiveClosed(p)
  {
    hide Step, ActiveClosed, ParseWatchMessage, StartSession;
    var a := PhoneAction(AppMessage(Some(BeginFor(id))), PhoneEnv([true], false, NO_FRAMES));
    p := Step(IDLE_PHONE, a.event, a.env);
    IdleIsReachable();
    ReachableStep(IDLE_PHONE, a.event, a.env);
    BeginStarts(id);
    ActiveClosedIff(IDLE_PHONE, a.event, a.env);
    StartsFirst(id, a.env);
  }

  lemma StartsFirst(id: seq<Unit>, env: PhoneEnv)
    requires IsRequestId(id)
    ensures Step(IDLE_PHONE, AppMessage(Some(BeginFor(id))), env) == StartSession(IDLE_PHONE.(refusals := env.refusals), id, env.constructed)
    ensures Step(IDLE_PHONE, AppMessage(Some(BeginFor(id))), env).active == Some(0)
  {
    hide OpenSocket, ParseWatchMessage;
    BeginStarts(id);
  }

  lemma BeginStarts(id: seq<Unit>)
    requires IsRequestId(id)
    ensures ParseWatchMessage(Some(BeginFor(id))) == Some(Begin(id)) && Starts(AppMessage(Some(BeginFor(id))))
  {
    hide IsRequestId;
  }

  lemma {:induction false} RunThen(p: Phone, actions: seq<PhoneAction>, a: PhoneAction)
    requires Possible(p, actions) && Enabled(Run(p, actions), a.event)
    ensures Possible(p, actions + [a]) && Run(p, actions + [a]) == Step(Run(p, actions), a.event, a.env)
    decreases |actions|
  {
    hide Step, Enabled;
    if actions == [] {
      assert [] + [a] == [a] && [a][1..] == [];
      assert Run(Step(p, a.event, a.env), []) == Step(p, a.event, a.env);
    } else {
      assert (actions + [a])[0] == actions[0] && (actions + [a])[1..] == actions[1..] + [a];
      RunThen(Step(p, actions[0].event, actions[0].env), actions[1..], a);
    }
  }

  lemma ReachableStep(p: Phone, e: PhoneEvent, env: PhoneEnv)
    requires Reachable(p) && Enabled(p, e)
    ensures Reachable(Step(p, e, env))
  {
    hide Step, Enabled, Run, Possible;
    var actions :| Possible(IDLE_PHONE, actions) && p == Run(IDLE_PHONE, actions);
    RunThen(IDLE_PHONE, actions, PhoneAction(e, env));
  }

  lemma IdleIsReachable()
    ensures Reachable(IDLE_PHONE)
  {
    assert Possible(IDLE_PHONE, []) && IDLE_PHONE == Run(IDLE_PHONE, []);
  }

  // ---- A transcript that is complete while the socket is not open ----

  /** "If the socket is closing or closed, the request fails immediately" (section 9.1 of the
      functional specification) is false.  The last chunk makes the session hand the request to `send`
      within the same event if and only if the socket is open then; in any other ready state -
      connecting, closing or closed alike - nothing fails, and nothing else happens than that the
      session waits with its transcript and a running handoff timer. */
  lemma SentIffOpen(p: Phone, i: nat, payload: Option<JsPayload>, env: PhoneEnv)
    requires Reachable(p) && p.active == Some(i) && i < |p.sessions| && p.sessions[i].state == Receiving
    requires ParseWatchMessage(payload).Some? && ParseWatchMessage(payload).value.Chunk? && ParseWatchMessage(payload).value.id == p.sessions[i].id
    requires Add(p.sessions[i].assembler, ParseWatchMessage(payload).value).1.Complete?
    ensures var s := p.sessions[i]; var text := Add(s.assembler, ParseWatchMessage(payload).value).1.transcript;
            var q := Step(p, AppMessage(payload), env);
            && |q.sessions| == |p.sessions|
            && BuildRequest(s.id, text).Some?
            && q.sessions[i].sends == (if s.socket == Some(1) then [BuildRequest(s.id, text).value] else [])
            && (s.socket != Some(1) ==>
                  && q == SetSession(p.(refusals := env.refusals), i, GivenChunk(s, ParseWatchMessage(payload).value))
                  && q.sessions[i].state == WaitingToSend && !q.sessions[i].terminal
                  && q.sessions[i].transcript == Some(text) && q.sessions[i].handoffTimer)
  {
    hide Inv, Add, BuildRequest, TrySend, ParseWatchMessage, MildPhone, Calm, Took, CalmBut;
    ReachableInv(p);
    ReceivingIsFresh(p, i);
    ReceivingSide(p, i);
    var m := ParseWatchMessage(payload).value;
    var s := p.sessions[i];
    var t := GivenChunk(s, m);
    var r := SetSession(p.(refusals := env.refusals), i, t);
    assert SetSession(SetSession(p.(refusals := env.refusals), i, t.(transcript := None, handoffTimer := s.handoffTimer)), i, t) == r;
    assert Step(p, AppMessage(payload), env) == TrySend(r, i, env.call);
    AssembledBuilds(s.assembler, m);
    TrySendFrame(r, i, env.call);
    TrySendMild(r, i, env.call);
    if s.socket != Some(1) {
      assert !CanSend(t);
      ClosedSendsNothing(r, i, env.call);
    }
  }

  lemma ClosedSendsNothing(p: Phone, i: nat, call: SendCall)
    requires i < |p.sessions| && !CanSend(p.sessions[i])
    ensures TrySend(p, i, call) == p
  {
  }

  lemma ReceivingSide(p: Phone, i: nat)
    requires Inv(p) && i < |p.sessions| && p.sessions[i].state == Receiving
    ensures p.sessions[i].side in {Connecting, SocketReady} && p.sessions[i].assembler.id == p.sessions[i].id && IsRequestId(p.sessions[i].id)
  {
    hide Carrier, WireInv;
    assert OwnerInv(p, i);
  }

  lemma AssembledBuilds(a: Assembler, m: Message)
    requires Add(a, m).1.Complete? && IsRequestId(a.id)
    ensures BuildRequest(a.id, Add(a, m).1.transcript).Some?
  {
  }

  /** What ends the wait: the handoff timer with a transfer failure, the socket with a server failure. */
  lemma WaitingEnds(p: Phone, i: nat, env: PhoneEnv)
    requires Reachable(p) && i < |p.sessions| && p.sessions[i].state == WaitingToSend
    ensures Enabled(p, HandoffExpired(i)) && Enabled(p, SocketCloseEvent(i))
    ensures var q := Step(p, HandoffExpired(i), env);
            |q.sessions| == |p.sessions| && q.sessions[i].outcome == FailedWith(STATUS_TRANSFER) && q.sessions[i].sends == []
    ensures var q := Step(p, SocketCloseEvent(i), env);
            |q.sessions| == |p.sessions| && q.sessions[i].outcome == FailedWith(STATUS_SERVER) && q.sessions[i].sends == []
  {
    hide Inv, FailSession;
    ReachableInv(p);
    WaitingPhase(p, i);
    var r := p.(refusals := env.refusals);
    var s := p.sessions[i];
    var late := s.(handoffTimer := false);
    SocketFailureIsOutcome(SetSession(r, i, late), i, HandoffTimeout);
    SocketFailureIsOutcome(r, i, ServerFailure);
  }

  lemma SocketFailureIsOutcome(p: Phone, i: nat, error: SocketError)
    requires i < |p.sessions| && p.sessions[i].state != SessionState.Closed && !p.sessions[i].terminal
    requires p.sessions[i].side in {Connecting, SocketReady}
    ensures var q := FailSocket(p, i, error);
            && |q.sessions| == |p.sessions| && q.sessions[i].outcome == FailedWith(StatusForServerError(error))
            && q.sessions[i].sends == p.sessions[i].sends
  {
    hide FailSession;
    var s := p.sessions[i];
    var failed := s.(side := SocketFailed, handoffTimer := false, resultTimer := false, socket := None,
                     emitted := s.emitted + [FailureEvent(error)]);
    FailureIsOutcome(SetSession(p, i, failed), i, StatusForServerError(error));
  }

  lemma WaitingPhase(p: Phone, i: nat)
    requires Inv(p) && i < |p.sessions| && p.sessions[i].state == WaitingToSend
    ensures var s := p.sessions[i];
            !s.terminal && s.side in {Connecting, SocketReady} && s.socket.Some? && s.handoffTimer && s.sends == []
  {
    hide Carrier, WireInv;
    assert OwnerInv(p, i);
  }

  function ChunkFor(id: seq<Unit>): JsPayload {
    map[ProtocolVersion := JsNumber(PROTOCOL_VERSION), MessageType := JsNumber(TRANSCRIPT_CHUNK), RequestId := JsString(id),
        ChunkIndex := JsNumber(0), ChunkCount := JsNumber(1), TotalBytes := JsNumber(1), ChunkText := JsString([0x61])]
  }

  const GRANTED := PhoneEnv([], true, NO_FRAMES)

  lemma ChunkParses(id: seq<Unit>)
    requires IsRequestId(id)
    ensures ParseWatchMessage(Some(ChunkFor(id))) == Some(Chunk(id, 0, 1, 1, [0x61]))
    ensures Add(NewAssembler(id), Chunk(id, 0, 1, 1, [0x61])).1 == Complete([0x61])
  {
    hide IsRequestId;
    LetterIsOneByte();
    var letter: seq<Unit> := [0x61];
    assert [] + [letter] == [letter] && [letter][1..] == [];
    assert Flatten([letter]) == letter + Flatten([]) == letter;
  }

  lemma LetterIsOneByte()
    ensures Utf8Length([0x61]) == Some(1)
  {
    assert [0x61][1..] == [];
    assert Decode16([]) == Some([]);
  }

  /** A reachable input: the socket is closing or closed when the only chunk arrives, and the session
      waits, silently. */
  lemma ClosedSocketWaits(id: seq<Unit>, ready: nat) returns (p: Phone)
    requires IsRequestId(id) && ready != 1
    ensures Reachable(p) && |p.sessions| == 1
    ensures p.sessions[0].socket == Some(ready) && p.sessions[0].state == WaitingToSend && !p.sessions[0].terminal && p.sessions[0].sends == []
  {
    hide Step, ParseWatchMessage, StartSession, IsRequestId, Add, BuildRequest;
    IdleIsReachable();
    BeginStarts(id);
    StartsFirst(id, GRANTED);
    var p0 := Step(IDLE_PHONE, AppMessage(Some(BeginFor(id))), GRANTED);
    ReachableStep(IDLE_PHONE, AppMessage(Some(BeginFor(id))), GRANTED);
    Connects(id);
    var p1 := ReadyNow(p0, id, ready);
    ReachableStep(p0, ReadyState(0, ready), GRANTED);
    ChunkParses(id);
    p := Step(p1, AppMessage(Some(ChunkFor(id))), GRANTED);
    ReachableStep(p1, AppMessage(Some(ChunkFor(id))), GRANTED);
    SentIffOpen(p1, 0, Some(ChunkFor(id)), GRANTED);
  }

  lemma Connects(id: seq<Unit>)
    ensures var p := StartSession(IDLE_PHONE, id, true);
            p.active == Some(0) && p.sessions == [NewSession(id).(side := Connecting, socket := Some(0))]
  {
    assert [] + [NewSession(id)] == [NewSession(id)];
  }

  lemma ReadyNow(p: Phone, id: seq<Unit>, ready: nat) returns (q: Phone)
    requires p.active == Some(0) && p.sessions == [NewSession(id).(side := Connecting, socket := Some(0))]
    ensures Enabled(p, ReadyState(0, ready)) && q == Step(p, ReadyState(0, ready), GRANTED)
    ensures q.active == Some(0) && q.sessions == [NewSession(id).(side := Connecting, socket := Some(ready))]
  {
    q := Step(p, ReadyState(0, ready), GRANTED);
    assert q.sessions == [NewSession(id).(side := Connecting, socket := Some(ready))];
  }

  // ---- Chunks that do not fit ----

  /** A chunk that the assembler refuses - duplicate, missing, reordered, inconsistent, malformed, or
      with the wrong total - ends the session with a protocol failure, and nothing was sent. */
  lemma BadChunkFails(p: Phone, i: nat, m: Message, call: SendCall)
    requires Reachable(p) && i < |p.sessions| && p.sessions[i].state == Receiving
    requires m.Chunk? && Add(p.sessions[i].assembler, m).1 == Threw
    ensures var q := HandleWatchMessage(p, i, m, call);
            && |q.sessions| == |p.sessions|
            && q.sessions[i].outcome == FailedWith(STATUS_PROTOCOL) && q.sessions[i].sends == []
  {
    hide Inv, Add, FailSession;
    ReachableInv(p);
    ReceivingIsFresh(p, i);
    var s := p.sessions[i].(assembler := Add(p.sessions[i].assembler, m).0);
    FailureIsOutcome(SetSession(p, i, s), i, STATUS_PROTOCOL);
  }

  lemma FailureIsOutcome(p: Phone, i: nat, status: nat)
    requires i < |p.sessions| && p.sessions[i].state != SessionState.Closed && !p.sessions[i].terminal
    ensures var q := FailSession(p, i, status);
            |q.sessions| == |p.sessions| && q.sessions[i].outcome == FailedWith(status) && q.sessions[i].sends == p.sessions[i].sends
  {
    hide SendStatus, CloseSocket, Tame;
    var s := p.sessions[i];
    var s' := CloseSocket(s).(terminal := true, state := ForwardingTerminal, outcome := FailedWith(status));
    TerminalIsTame(s, FailedWith(status));
    SetLength(p, i, s');
    SendStatusCalm(SetSession(p, i, s'), i, FailureMsg(s.id, status), ThenClose);
    var q := FailSession(p, i, status);
    assert Tame(SetSession(p, i, s').sessions[i], q.sessions[i]);
    TerminalStays(s', q.sessions[i]);
    CloseKeepsSends(s);
  }

  lemma TerminalStays(s: Session, t: Session)
    requires Tame(s, t) && s.terminal
    ensures t.outcome == s.outcome && t.sends == s.sends
  {
  }

  lemma CloseKeepsSends(s: Session)
    ensures CloseSocket(s).sends == s.sends
  {
  }
}
