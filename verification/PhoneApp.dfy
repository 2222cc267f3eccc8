/** PebbleKit JS as mutable objects: the sessions, and the application that owns the transport and
    dispatches events; each method is proved against the transition function it implements. */
module PhoneApp {
  import opened Unicode
  import opened Messages
  import opened Protocol
  import P = PhoneModel

  /** A request session with its two bridges.  The assembler is held by value; `Protocol` proves
      the assembler object against the same function. */
  class BridgeSession {
    const id: seq<Unit>
    var state: P.SessionState
    var terminal: bool
    var watch: P.WatchSide
    var assembler: Assembler
    var side: P.SocketSide
    var socket: Option<nat>
    var transcript: Option<seq<Unit>>
    var pendingFrames: seq<Frame>
    var handoffTimer: bool
    var resultTimer: bool
    ghost var sends: seq<JsonObject>
    ghost var emitted: seq<P.SocketEvent>
    ghost var accepted: Option<Frame>
    ghost var outcome: P.Outcome

    ghost function View(): (s: P.Session)
      reads this
      ensures s.id == id && s.state == state && s.terminal == terminal && s.watch == watch && s.side == side
      ensures s.assembler == assembler && s.transcript == transcript && s.pending == pendingFrames && s.socket == socket
    {
      P.Session(id, state, terminal, watch, assembler, side, socket, transcript, pendingFrames, handoffTimer, resultTimer,
                sends, emitted, accepted, outcome)
    }

    constructor (id: seq<Unit>)
      ensures View() == P.NewSession(id)
    {
      this.id := id;
      state, terminal := P.Receiving, false;
      watch, assembler := P.ReceivingTranscript, NewAssembler(id);
      side, socket, transcript, pendingFrames := P.SocketIdle, None, None, [];
      handoffTimer, resultTimer := false, false;
      sends, emitted, accepted, outcome := [], [], None, P.NoOutcome;
    }

    // ---- The socket bridge ----

    method CloseServer()
      modifies this
      ensures View() == P.CloseSocket(old(View()))
    {
      if side == P.SocketClosed {
        return;
      }
      handoffTimer, resultTimer := false, false;
      socket := None;
      transcript := None;
      pendingFrames := [];
      side := P.SocketClosed;
    }

    method Connect(constructed: bool)
      modifies this
      ensures View() == old(View()).(side := P.Connecting, socket := if constructed then Some(0) else old(View()).socket)
    {
      side := P.Connecting;
      if constructed {
        socket := Some(0);
      }
    }

    method BecomeReady()
      modifies this
      ensures View() == old(View()).(side := P.SocketReady)
    {
      side := P.SocketReady;
    }

    method SetReadyState(value: nat)
      modifies this
      ensures View() == old(View()).(socket := Some(value))
    {
      socket := Some(value);
    }

    method BreakServer(error: P.SocketError)
      modifies this
      ensures View() == old(View()).(side := P.SocketFailed, handoffTimer := false, resultTimer := false, socket := None,
                                     emitted := old(View()).emitted + [P.FailureEvent(error)])
    {
      side := P.SocketFailed;
      handoffTimer, resultTimer := false, false;
      socket := None;
      emitted := emitted + [P.FailureEvent(error)];
    }

    method AcceptResult(data: Frame, success: bool, response: seq<Unit>)
      modifies this
      ensures View() == old(View()).(resultTimer := false, side := P.SocketComplete, accepted := Some(data),
                                     emitted := old(View()).emitted + [P.ResultEvent(success, response)])
    {
      resultTimer := false;
      side := P.SocketComplete;
      accepted := Some(data);
      emitted := emitted + [P.ResultEvent(success, response)];
    }

    /** Frames that arrive while sending are held back. */
    method Send(request: JsonObject, frames: seq<Frame>)
      modifies this
      ensures View() == old(View()).(side := P.Sending, sends := old(View()).sends + [request], pending := old(View()).pending + frames)
    {
      side := P.Sending;
      sends := sends + [request];
      pendingFrames := pendingFrames + frames;
    }

    method AwaitFrame()
      modifies this
      ensures View() == old(View()).(handoffTimer := false, side := P.AwaitingFrame, resultTimer := true,
                                     emitted := old(View()).emitted + [P.SendStarted])
    {
      handoffTimer := false;
      side := P.AwaitingFrame;
      resultTimer := true;
      emitted := emitted + [P.SendStarted];
    }

    method TakePending() returns (frames: seq<Frame>)
      modifies this
      ensures frames == old(View()).pending && View() == old(View()).(pending := [])
    {
      frames := pendingFrames;
      pendingFrames := [];
    }

    method StoreTranscript(text: seq<Unit>)
      modifies this
      ensures View() == old(View()).(transcript := Some(text), handoffTimer := true)
    {
      transcript := Some(text);
      handoffTimer := true;
    }

    method ExpireHandoff()
      modifies this
      ensures View() == old(View()).(handoffTimer := false)
    {
      handoffTimer := false;
    }

    method ExpireResult()
      modifies this
      ensures View() == old(View()).(resultTimer := false)
    {
      resultTimer := false;
    }

    // ---- The watch bridge and the coordinator ----

    method SetWatch(watch: P.WatchSide)
      modifies this
      ensures View() == old(View()).(watch := watch)
    {
      this.watch := watch;
    }

    method AddChunk(m: Message) returns (added: Added)
      requires watch == P.ReceivingTranscript
      modifies this
      ensures added == Add(old(View()).assembler, m).1
      ensures View() == old(View()).(assembler := Add(old(View()).assembler, m).0,
                                     watch := if added.Complete? then P.TranscriptReady else old(View()).watch)
    {
      hide Add;
      var (a, result) := Add(assembler, m);
      assembler := a;
      if result.Complete? {
        watch := P.TranscriptReady;
      }
      return result;
    }

    method SetState(state: P.SessionState)
      modifies this
      ensures View() == old(View()).(state := state)
    {
      this.state := state;
    }

    method EnterTerminal(outcome: P.Outcome)
      modifies this
      ensures View() == P.CloseSocket(old(View())).(terminal := true, state := P.ForwardingTerminal, outcome := outcome)
    {
      hide P.CloseSocket;
      CloseServer();
      terminal := true;
      state := P.ForwardingTerminal;
      this.outcome := outcome;
    }

    method CloseWatch()
      modifies this
      ensures View() == old(View()).(watch := P.WatchClosed,
                                     assembler := if old(View()).watch == P.WatchClosed then old(View()).assembler
                                                  else NewAssembler(old(View()).assembler.id),
                                     state := P.SessionState.Closed)
    {
      if watch != P.WatchClosed {
        assembler := NewAssembler(assembler.id);
        watch := P.WatchClosed;
      }
      state := P.SessionState.Closed;
    }
  }

  ghost function ViewsOf(ss: seq<BridgeSession>): (r: seq<P.Session>)
    reads ss
    ensures |r| == |ss| && forall i | 0 <= i < |ss| :: r[i] == ss[i].View()
  {
    if ss == [] then [] else [ss[0].View()] + ViewsOf(ss[1..])
  }

  /** The transport, the sessions in the order of their creation, and the active one.  `refusals`
      says which of the coming calls to `sendAppMessage` throw. */
  class PhoneApp {
    var queue: seq<P.Entry>
    var busy: bool
    var sessions: seq<BridgeSession>
    var active: Option<nat>
    var refusals: seq<bool>
    var next: nat
    ghost var sent: seq<P.Entry>
    ghost var results: seq<bool>
    ghost var cancelled: set<nat>

    ghost predicate Valid()
      reads this
    {
      forall i, j | 0 <= i < j < |sessions| :: sessions[i] != sessions[j]
    }

    ghost function Wire(): P.Transport
      reads this
    {
      P.Transport(queue, busy, sent, results, next, cancelled)
    }

    ghost function State(): (p: P.Phone)
      reads this, sessions
      ensures |p.sessions| == |sessions| && forall i | 0 <= i < |sessions| :: p.sessions[i] == sessions[i].View()
      ensures p.t == Wire() && p.active == active && p.refusals == refusals
    {
      P.Phone(Wire(), ViewsOf(sessions), active, refusals)
    }

    constructor ()
      ensures Valid() && State() == P.IDLE_PHONE
    {
      queue, busy, sessions, active, refusals, next := [], false, [], None, [], 0;
      sent, results, cancelled := [], [], {};
    }

    /** One session has changed, and nothing else. */
    twostate lemma Touched(i: nat)
      requires i < |sessions| && sessions == old(sessions) && Wire() == old(Wire()) && active == old(active) && refusals == old(refusals)
      requires forall j | 0 <= j < |sessions| && j != i :: sessions[j].View() == old(sessions[j].View())
      ensures State() == P.SetSession(old(State()), i, sessions[i].View())
    {
      assert State().sessions == old(State()).sessions[i := sessions[i].View()];
    }

    // ---- The transport ----

    method Cancel(owner: nat)
      requires Valid()
      modifies this`queue, this`cancelled
      ensures Valid() && State() == old(State()).(t := P.Cancel(old(State()).t, owner))
    {
      var retained := [];
      ghost var was := queue;
      for i := 0 to |queue|
        invariant queue == was
        invariant P.Keep(was, owner) == retained + P.Keep(was[i..], owner)
      {
        if queue[i].owner != owner {
          retained := retained + [queue[i]];
        }
      }
      assert was[|was|..] == [];
      cancelled := cancelled + (P.Tickets(queue) - P.Tickets(retained));
      queue := retained;
      assert State().sessions == old(State()).sessions;
    }

    method Push(owner: nat, payload: PhoneMsg, done: P.Done)
      requires Valid()
      modifies this`queue, this`next
      ensures Valid() && State() == old(State()).(t := P.Append(old(State()).t, owner, payload, done))
    {
      queue := queue + [P.Entry(owner, payload, done, next)];
      next := next + 1;
      assert State().sessions == old(State()).sessions;
    }

    method Shift() returns (entry: P.Entry, refused: bool)
      requires Valid() && queue != []
      modifies this`queue, this`busy, this`sent, this`refusals
      ensures Valid() && entry == old(queue[0]) && refused == (old(refusals) != [] && old(refusals[0]))
      ensures State() == old(State()).(t := P.Take(old(State()).t), refusals := if old(refusals) == [] then [] else old(refusals[1..]))
    {
      entry := queue[0];
      queue := queue[1..];
      busy := true;
      sent := sent + [entry];
      refused := refusals != [] && refusals[0];
      refusals := if refusals == [] then [] else refusals[1..];
      assert State().sessions == old(State()).sessions;
    }

    method Release(ok: bool)
      requires Valid()
      modifies this`busy, this`results
      ensures Valid() && State() == old(State()).(t := P.Resolve(old(State()).t, ok))
    {
      busy := false;
      results := results + [ok];
      assert State().sessions == old(State()).sessions;
    }

    // ---- Closing and delivery ----

    method CloseSession(i: nat)
      requires Valid() && i < |sessions|
      modifies this`queue, this`cancelled, this`active, sessions
      ensures Valid() && State() == P.CloseSession(old(State()), i)
    {
      hide State, P.CloseSocket, P.Cancel;
      var s := sessions[i];
      if s.state == P.SessionState.Closed {
        return;
      }
      s.CloseServer();
      Touched(i);
      if s.watch != P.WatchClosed {
        Cancel(i);
      }
      label cancelled:
      s.CloseWatch();
      Touched@cancelled(i);
      if active == Some(i) {
        Deactivate();
      }
    }

    method Deactivate()
      requires Valid()
      modifies this`active
      ensures Valid() && State() == old(State()).(active := None)
    {
      active := None;
      assert State().sessions == old(State()).sessions;
    }

    /** `done(false)` */
    method DeliveryFailed(e: P.Entry)
      requires Valid()
      modifies this`queue, this`cancelled, this`active, sessions
      ensures Valid() && State() == P.DeliveryFailed(old(State()), e)
    {
      hide State, P.CloseSession;
      if e.owner >= |sessions| || sessions[e.owner].watch == P.WatchClosed {
        return;
      }
      sessions[e.owner].SetWatch(P.WatchFailed);
      Touched(e.owner);
      CloseSession(e.owner);
    }

    method Pump()
      requires Valid()
      modifies this`queue, this`busy, this`sent, this`refusals, this`results, this`cancelled, this`active, sessions
      ensures Valid() && State() == P.Pump(old(State()))
      decreases |queue|
    {
      hide State, P.DeliveryFailed;
      if busy || queue == [] {
        return;
      }
      ghost var p := State();
      var entry, refused := Shift();
      if refused {
        Release(false);
        P.CloseShrinks(State(), entry);
        DeliveryFailed(entry);
        Pump();
      }
    }

    method Enqueue(owner: nat, payload: PhoneMsg, done: P.Done)
      requires Valid()
      modifies this`queue, this`next, this`busy, this`sent, this`refusals, this`results, this`cancelled, this`active, sessions
      ensures Valid() && State() == P.Enqueue(old(State()), owner, payload, done)
    {
      hide State, P.Pump;
      Push(owner, payload, done);
      Pump();
    }

    /** `done(true)` */
    method DeliverySucceeded(e: P.Entry)
      requires Valid()
      modifies this`queue, this`next, this`busy, this`sent, this`refusals, this`results, this`cancelled, this`active, sessions
      ensures Valid() && State() == P.DeliverySucceeded(old(State()), e)
    {
      hide State, P.CloseSession, P.Enqueue;
      if e.owner >= |sessions| || sessions[e.owner].watch == P.WatchClosed {
        return;
      }
      match e.done
      case NoDone =>
      case ThenClose => CloseSession(e.owner);
      case ThenNext(payloads, index) =>
        if index + 1 < |payloads| {
          Enqueue(e.owner, payloads[index + 1], P.ThenNext(payloads, index + 1));
          return;
        }
        sessions[e.owner].SetWatch(P.WatchComplete);
        Touched(e.owner);
        CloseSession(e.owner);
    }

    /** The callback of `sendAppMessage` for the entry `e` in flight. */
    method Finish(e: P.Entry, ok: bool)
      requires Valid() && P.Current(Wire()) == Some(e)
      modifies this, sessions
      ensures Valid() && sessions == old(sessions) && State() == P.Finish(old(State()), ok)
    {
      hide State, P.DeliverySucceeded, P.DeliveryFailed, P.Pump, P.Resolve;
      Release(ok);
      if ok {
        DeliverySucceeded(e);
      } else {
        DeliveryFailed(e);
      }
      Pump();
    }

    // ---- The watch bridge ----

    method SendStatus(i: nat, payload: PhoneMsg, done: P.Done)
      requires Valid() && i < |sessions|
      modifies this, sessions
      ensures Valid() && sessions == old(sessions) && State() == P.SendStatus(old(State()), i, payload, done)
    {
      hide State, P.Enqueue;
      if sessions[i].watch == P.WatchClosed {
        return;
      }
      Enqueue(i, payload, done);
    }

    method SendResult(i: nat, success: bool, response: seq<Unit>)
      requires Valid() && i < |sessions|
      modifies this, sessions
      ensures Valid() && sessions == old(sessions) && State() == P.SendResult(old(State()), i, success, response)
    {
      hide State, P.Enqueue, P.CloseSession, ResultPayloads;
      if sessions[i].watch == P.WatchClosed {
        return;
      }
      var payloads := BuildServerResultChunks(sessions[i].id, success, response);
      if payloads.None? {
        sessions[i].SetWatch(P.WatchFailed);
        Touched(i);
        CloseSession(i);
        return;
      }
      sessions[i].SetWatch(P.ForwardingResult);
      Touched(i);
      if payloads.value != [] {
        Enqueue(i, payloads.value[0], P.ThenNext(payloads.value, 0));
      }
    }

    // ---- The coordinator ----

    method FailSession(i: nat, status: nat)
      requires Valid() && i < |sessions|
      modifies this, sessions
      ensures Valid() && sessions == old(sessions) && State() == P.FailSession(old(State()), i, status)
    {
      hide State, P.SendStatus, P.CloseSocket;
      var s := sessions[i];
      if s.state == P.SessionState.Closed || s.terminal {
        return;
      }
      s.EnterTerminal(P.FailedWith(status));
      Touched(i);
      SendStatus(i, FailureMsg(s.id, status), P.ThenClose);
    }

    method HandleServerEvent(i: nat, event: P.SocketEvent)
      requires Valid() && i < |sessions|
      modifies this, sessions
      ensures Valid() && sessions == old(sessions) && State() == P.HandleServerEvent(old(State()), i, event)
    {
      hide State, P.SendStatus, P.SendResult, P.FailSession, P.CloseSocket;
      var s := sessions[i];
      if s.state == P.SessionState.Closed || s.terminal {
        return;
      }
      match event
      case SendStarted =>
        s.SetState(P.AwaitingResult);
        Touched(i);
        SendStatus(i, SendStartedMsg(s.id), P.NoDone);
      case ResultEvent(success, response) =>
        s.EnterTerminal(P.Forwarded(success, response));
        Touched(i);
        SendResult(i, success, response);
      case FailureEvent(error) =>
        FailSession(i, P.StatusForServerError(error));
    }

    // ---- The socket bridge ----

    method FailSocket(i: nat, error: P.SocketError)
      requires Valid() && i < |sessions|
      modifies this, sessions
      ensures Valid() && sessions == old(sessions) && State() == P.FailSocket(old(State()), i, error)
    {
      hide State, P.HandleServerEvent;
      var s := sessions[i];
      if s.side == P.SocketFailed || s.side == P.SocketClosed || s.side == P.SocketComplete {
        return;
      }
      s.BreakServer(error);
      Touched(i);
      HandleServerEvent(i, P.FailureEvent(error));
    }

    method HandleFrame(i: nat, data: Frame)
      requires Valid() && i < |sessions|
      modifies this, sessions
      ensures Valid() && sessions == old(sessions) && State() == P.HandleFrame(old(State()), i, data)
    {
      hide State, P.HandleServerEvent, P.FailSocket, ParseServerFrame;
      var s := sessions[i];
      if s.side != P.AwaitingFrame {
        return;
      }
      match ParseServerFrame(data, s.id)
      case Result(success, response) =>
        s.AcceptResult(data, success, response);
        Touched(i);
        HandleServerEvent(i, P.ResultEvent(success, response));
      case ServerError(_) => FailSocket(i, P.ServerFailure);
      case ProtocolError => FailSocket(i, P.ProtocolFailure);
      case Unrelated =>
    }

    method Replay(i: nat, frames: seq<Frame>)
      requires Valid() && i < |sessions|
      modifies this, sessions
      ensures Valid() && sessions == old(sessions) && State() == P.Replay(old(State()), i, frames)
    {
      hide State, P.HandleFrame;
      ghost var p := State();
      assert frames[0..] == frames;
      for k := 0 to |frames|
        invariant Valid() && sessions == old(sessions)
        invariant P.Replay(p, i, frames) == P.Replay(State(), i, frames[k..])
      {
        assert frames[k..][0] == frames[k] && frames[k..][1..] == frames[k + 1..];
        HandleFrame(i, frames[k]);
      }
      assert frames[|frames|..] == [];
    }

    method TrySend(i: nat, call: P.SendCall)
      requires Valid() && i < |sessions|
      modifies this, sessions
      ensures Valid() && sessions == old(sessions) && State() == P.TrySend(old(State()), i, call)
    {
      hide State, P.HandleServerEvent, P.FailSocket, P.Replay, BuildRequest, AfterBuild;
      var s := sessions[i];
      if s.transcript.None? || s.socket != Some(1) || s.side == P.Sending || s.side == P.AwaitingFrame || s.side == P.SocketComplete
         || s.side == P.SocketFailed || s.side == P.SocketClosed {
        return;
      }
      assert P.CanSend(s.View());
      var request := BuildRequest(s.id, s.transcript.value);
      if request.None? {
        FailSocket(i, P.SendFailure);
        return;
      }
      TransmitIsSend(State(), i, call);
      Transmit(i, request.value, call);
    }

    method Transmit(i: nat, request: JsonObject, call: P.SendCall)
      requires Valid() && i < |sessions|
      modifies this, sessions
      ensures Valid() && sessions == old(sessions) && State() == AfterBuild(old(State()), i, request, call)
    {
      hide State, P.FailSocket, AfterSend;
      sessions[i].Send(request, call.frames);
      Touched(i);
      if call.throws {
        FailSocket(i, P.SendFailure);
      } else {
        Sent(i);
      }
    }

    /** `send` has returned: watch for the result, then look at what arrived meanwhile. */
    method Sent(i: nat)
      requires Valid() && i < |sessions|
      modifies this, sessions
      ensures Valid() && sessions == old(sessions) && State() == AfterSend(old(State()), i)
    {
      hide State, P.HandleServerEvent, P.Replay;
      sessions[i].AwaitFrame();
      Touched(i);
      HandleServerEvent(i, P.SendStarted);
      label started:
      var pendingFrames := sessions[i].TakePending();
      Touched@started(i);
      Replay(i, pendingFrames);
    }

    // ---- Messages from the watch ----

    method SetTranscript(i: nat, text: seq<Unit>, call: P.SendCall)
      requires Valid() && i < |sessions|
      modifies this, sessions
      ensures Valid() && sessions == old(sessions) && State() == P.SetTranscript(old(State()), i, text, call)
    {
      hide State, P.FailSocket, P.TrySend;
      var s := sessions[i];
      if s.transcript.Some? || s.side == P.SocketClosed || s.side == P.SocketFailed {
        FailSocket(i, P.SendFailure);
        return;
      }
      s.StoreTranscript(text);
      Touched(i);
      TrySend(i, call);
    }

    method HandleWatchMessage(i: nat, m: Message, call: P.SendCall)
      requires Valid() && i < |sessions|
      modifies this, sessions
      ensures Valid() && sessions == old(sessions) && State() == P.HandleWatchMessage(old(State()), i, m, call)
    {
      hide State, P.FailSession, P.CloseSession, P.SetTranscript, Add;
      var s := sessions[i];
      if s.state == P.SessionState.Closed || s.terminal {
        return;
      }
      if m.End? {
        CloseSession(i);
        return;
      }
      if !m.Chunk? || s.state != P.Receiving {
        FailSession(i, STATUS_PROTOCOL);
        return;
      }
      if s.watch != P.ReceivingTranscript {
        FailSession(i, STATUS_PROTOCOL);
        return;
      }
      ghost var p := State();
      var added := s.AddChunk(m);
      Touched(i);
      match added
      case Threw => FailSession(i, STATUS_PROTOCOL);
      case Incomplete =>
      case Complete(text) =>
        SetAgain(p, i, s.View(), s.View().(state := P.WaitingToSend));
        TranscriptComplete(i, text, call);
    }

    method TranscriptComplete(i: nat, text: seq<Unit>, call: P.SendCall)
      requires Valid() && i < |sessions|
      modifies this, sessions
      ensures Valid() && sessions == old(sessions)
      ensures State() == P.SetTranscript(P.SetSession(old(State()), i, old(sessions[i].View()).(state := P.WaitingToSend)), i, text, call)
    {
      hide State, P.SetTranscript;
      sessions[i].SetState(P.WaitingToSend);
      Touched(i);
      SetTranscript(i, text, call);
    }

    method OpenSocket(i: nat, constructed: bool)
      requires Valid() && i < |sessions|
      modifies this, sessions
      ensures Valid() && sessions == old(sessions) && State() == P.OpenSocket(old(State()), i, constructed)
    {
      hide State, P.FailSocket;
      if sessions[i].side != P.SocketIdle {
        return;
      }
      sessions[i].Connect(constructed);
      Touched(i);
      if !constructed {
        FailSocket(i, P.ServerFailure);
      }
    }

    method AddSession(id: seq<Unit>)
      requires Valid()
      modifies this`sessions
      ensures Valid() && |sessions| == |old(sessions)| + 1 && sessions[..|old(sessions)|] == old(sessions) && fresh(sessions[|old(sessions)|])
      ensures State() == old(State()).(sessions := old(State()).sessions + [P.NewSession(id)])
    {
      var s := new BridgeSession(id);
      sessions := sessions + [s];
      assert State().sessions == old(State()).sessions + [P.NewSession(id)];
    }

    method Activate(i: nat)
      requires Valid()
      modifies this`active
      ensures Valid() && State() == old(State()).(active := Some(i))
    {
      active := Some(i);
      assert State().sessions == old(State()).sessions;
    }

    method StartSession(id: seq<Unit>, constructed: bool)
      requires Valid() && (active.Some? ==> active.value < |sessions|)
      modifies this, sessions
      ensures Valid() && State() == P.StartSession(old(State()), id, constructed)
    {
      hide State, P.CloseSession, P.OpenSocket;
      if active.Some? {
        CloseSession(active.value);
      }
      var i := |sessions|;
      AddSession(id);
      OpenSocket(i, constructed);
      Activate(i);
    }

    method OnAppMessage(payload: Option<JsPayload>, env: P.PhoneEnv)
      requires Valid() && (active.Some? ==> active.value < |sessions|)
      modifies this, sessions
      ensures Valid() && State() == P.OnAppMessage(old(State()), payload, env)
    {
      hide State, P.StartSession, P.FailSession, P.HandleWatchMessage, ParseWatchMessage;
      var m := ParseWatchMessage(payload);
      if m.None? {
        var raw := if payload.Some? then Field(payload.value, RequestId) else JsNull;
        if active.Some? && (P.Falsy(raw) || raw == JsString(sessions[active.value].id)) {
          FailSession(active.value, STATUS_PROTOCOL);
        }
        return;
      }
      if m.value.Begin? {
        StartSession(m.value.id, env.constructed);
        return;
      }
      if active.None? || m.value.id != sessions[active.value].id {
        return;
      }
      HandleWatchMessage(active.value, m.value, env.call);
    }

    // ---- Sockets and timers ----

    method SocketOpened(i: nat, call: P.SendCall)
      requires Valid() && i < |sessions|
      modifies this, sessions
      ensures Valid() && sessions == old(sessions)
      ensures State() == if old(sessions[i].side) != P.Connecting then old(State())
                         else P.TrySend(P.SetSession(old(State()), i, old(sessions[i].View()).(side := P.SocketReady)), i, call)
    {
      hide State, P.TrySend;
      if sessions[i].side != P.Connecting {
        return;
      }
      sessions[i].BecomeReady();
      Touched(i);
      TrySend(i, call);
    }

    method ReadyStateChanged(i: nat, value: nat)
      requires Valid() && i < |sessions|
      modifies this, sessions
      ensures Valid() && sessions == old(sessions)
      ensures State() == P.SetSession(old(State()), i, old(sessions[i].View()).(socket := Some(value)))
    {
      hide State;
      sessions[i].SetReadyState(value);
      Touched(i);
    }

    method HandoffExpired(i: nat)
      requires Valid() && i < |sessions|
      modifies this, sessions
      ensures Valid() && sessions == old(sessions)
      ensures State() == P.FailSocket(P.SetSession(old(State()), i, old(sessions[i].View()).(handoffTimer := false)), i, P.HandoffTimeout)
    {
      hide State, P.FailSocket;
      sessions[i].ExpireHandoff();
      Touched(i);
      FailSocket(i, P.HandoffTimeout);
    }

    method ResultExpired(i: nat)
      requires Valid() && i < |sessions|
      modifies this, sessions
      ensures Valid() && sessions == old(sessions)
      ensures State() == P.FailSocket(P.SetSession(old(State()), i, old(sessions[i].View()).(resultTimer := false)), i, P.ResultTimeout)
    {
      hide State, P.FailSocket;
      sessions[i].ExpireResult();
      Touched(i);
      FailSocket(i, P.ResultTimeout);
    }

    method ForeseeRefusals(refusals: seq<bool>)
      requires Valid()
      modifies this`refusals
      ensures Valid() && State() == old(State()).(refusals := refusals)
    {
      this.refusals := refusals;
      assert State().sessions == old(State()).sessions;
    }
  }

  /** A request has been built. */
  function AfterBuild(p: P.Phone, i: nat, request: JsonObject, call: P.SendCall): P.Phone
    requires i < |p.sessions|
  {
    var s := p.sessions[i];
    var q := P.SetSession(p, i, s.(side := P.Sending, sends := s.sends + [request], pending := s.pending + call.frames));
    if call.throws then P.FailSocket(q, i, P.SendFailure) else AfterSend(q, i)
  }

  function AfterSend(p: P.Phone, i: nat): P.Phone
    requires i < |p.sessions|
  {
    var s := p.sessions[i];
    var started := s.(handoffTimer := false, side := P.AwaitingFrame, resultTimer := true, emitted := s.emitted + [P.SendStarted]);
    var q := P.HandleServerEvent(P.SetSession(p, i, started), i, P.SendStarted);
    if i >= |q.sessions| then q
    else P.Replay(P.SetSession(q, i, q.sessions[i].(pending := [])), i, q.sessions[i].pending)
  }

  lemma SetAgain(p: P.Phone, i: nat, s: P.Session, t: P.Session)
    requires i < |p.sessions|
    ensures P.SetSession(P.SetSession(p, i, s), i, t) == P.SetSession(p, i, t)
  {
  }

  lemma TransmitIsSend(p: P.Phone, i: nat, call: P.SendCall)
    requires i < |p.sessions| && P.CanSend(p.sessions[i])
    requires BuildRequest(p.sessions[i].id, p.sessions[i].transcript.value).Some?
    ensures P.TrySend(p, i, call) == AfterBuild(p, i, BuildRequest(p.sessions[i].id, p.sessions[i].transcript.value).value, call)
  {
    hide P.HandleServerEvent, P.FailSocket, P.Replay, BuildRequest;
    var s := p.sessions[i];
    var request := BuildRequest(s.id, s.transcript.value).value;
    var sending := s.(side := P.Sending, sends := s.sends + [request], pending := s.pending + call.frames);
    SetAgain(p, i, sending, sending.(handoffTimer := false, side := P.AwaitingFrame, resultTimer := true,
                                     emitted := sending.emitted + [P.SendStarted]));
  }
}
