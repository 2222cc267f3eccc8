/** The composed system with the Python server behind the phone's sockets: every frame that a session
    hears is a reply of the server, with one application handler, to a request that came over the
    same socket.  Replies may be late, repeated, out of order or missing. */
module Service {
  import opened Unicode
  import opened Messages
  import opened Protocol
  import opened ResultTransfer
  import opened TranscriptTransfer
  import opened System
  import opened EndToEnd
  import W = WatchModel
  import WF = WatchFrames
  import P = PhoneModel
  import PP = PhoneProofs
  import PF = PhoneFrames
  import PR = PhoneRuns
  import S = Server
  import SP = SystemProofs
  import WP = WatchProofs
  import D = Delivery

  type Handler = S.DictationMessage -> S.HandlerOutcome

  /** What the server sends back for one request. */
  function RepliesOf(request: JsonObject, handler: Handler): seq<S.PyDict> {
    match S.ParseDictationMessage(S.ToServer(request))
    case Accepted(message) => S.RepliesTo(S.ToServer(request), handler(message))
    case Rejected(_, _) => S.RepliesTo(S.ToServer(request), S.Unfinished)
  }

  /** The frame is a reply to one of these requests. */
  ghost predicate IsReply(requests: seq<JsonObject>, handler: Handler, data: Frame) {
    exists k | 0 <= k < |requests| :: RepliesOf(requests[k], handler) != [] && data == S.ToPhone(RepliesOf(requests[k], handler)[0])
  }

  function PhoneEnvOf(step: SystemStep): Option<P.PhoneEnv> {
    match step
    case PhoneActs(_, env) => Some(env)
    case PhoneHears(_, env) => Some(env)
    case _ => None
  }

  /** Whatever frames come in during the step are replies: the one it delivers, to an earlier request
      of that session, and those that come in inside a send, to what is being sent. */
  ghost predicate Served(s: System, step: SystemStep, handler: Handler)
    requires CanHappen(s, step)
  {
    && (step.PhoneActs? && step.phoneEvent.SocketMessage? ==> IsReply(s.phone.sessions[step.phoneEvent.i].sends, handler, step.phoneEvent.data))
    && (PhoneEnvOf(step).Some? ==>
          forall j, k | 0 <= j < |s.phone.sessions| && j < |Next(s, step).phone.sessions| && 0 <= k < |PhoneEnvOf(step).value.call.frames| ::
            Next(s, step).phone.sessions[j].sends != s.phone.sessions[j].sends ==>
              IsReply(Next(s, step).phone.sessions[j].sends, handler, PhoneEnvOf(step).value.call.frames[k]))
  }

  ghost predicate ServedRun(s: System, steps: seq<SystemStep>, handler: Handler)
    decreases |steps|
  {
    steps == [] || (CanHappen(s, steps[0]) && Served(s, steps[0], handler) && ServedRun(Next(s, steps[0]), steps[1..], handler))
  }

  lemma {:induction false} ServedIsPossible(s: System, steps: seq<SystemStep>, handler: Handler)
    requires ServedRun(s, steps, handler)
    ensures Possible(s, steps)
    decreases |steps|
  {
    hide CanHappen, Served, Next;
    if steps != [] {
      ServedIsPossible(Next(s, steps[0]), steps[1..], handler);
    }
  }

  // ---- What the watch's own session accepts ----

  /** What the session accepted is the server's reply to what it sent. */
  ghost predicate Answered(s: P.Session, handler: Handler) {
    s.accepted.Some? ==> IsReply(s.sends, handler, s.accepted.value)
  }

  ghost predicate ServedInv(s: System, handler: Handler) {
    SP.SysInv(s) && (s.session.Some? ==> s.session.value < |s.phone.sessions| && Answered(s.phone.sessions[s.session.value], handler))
  }

  lemma LaterReply(few: seq<JsonObject>, many: seq<JsonObject>, handler: Handler, data: Frame)
    requires few <= many && IsReply(few, handler, data)
    ensures IsReply(many, handler, data)
  {
    hide RepliesOf, S.ToPhone;
    var k :| 0 <= k < |few| && RepliesOf(few[k], handler) != [] && data == S.ToPhone(RepliesOf(few[k], handler)[0]);
    assert many[k] == few[k];
  }

  lemma PhoneKeepsAnswered(s: System, e: P.PhoneEvent, env: P.PhoneEnv, i: nat, handler: Handler)
    requires PP.Inv(s.phone) && P.Enabled(s.phone, e) && i < |s.phone.sessions| && Answered(s.phone.sessions[i], handler)
    requires e.SocketMessage? && e.i == i ==> IsReply(s.phone.sessions[i].sends, handler, e.data)
    requires var q := P.Step(s.phone, e, env);
             i < |q.sessions| && q.sessions[i].sends != s.phone.sessions[i].sends ==>
               forall k | 0 <= k < |env.call.frames| :: IsReply(q.sessions[i].sends, handler, env.call.frames[k])
    ensures i < |P.Step(s.phone, e, env).sessions| && Answered(P.Step(s.phone, e, env).sessions[i], handler)
  {
    hide PP.Inv, P.Step, P.Enabled, IsReply;
    var o, q := s.phone.sessions[i], P.Step(s.phone, e, env);
    PR.StepTakes(s.phone, e, env);
    var t := q.sessions[i];
    assert o.sends <= t.sends;
    if t.accepted == o.accepted {
      if o.accepted.Some? {
        LaterReply(o.sends, t.sends, handler, o.accepted.value);
      }
    } else if t.sends != o.sends {
      var k :| 0 <= k < |env.call.frames| && t.accepted == Some(env.call.frames[k]);
    }
  }

  lemma PhoneHasInv(s: System)
    requires SP.SysInv(s)
    ensures PP.Inv(s.phone)
  {
    hide PP.Inv;
  }

  /** The session that the watch's `SESSION_BEGIN` starts has accepted nothing. */
  lemma BeginIsUnanswered(s: System, at: nat, env: P.PhoneEnv, handler: Handler)
    requires SP.SysInv(s) && CanHappen(s, PhoneHears(at, env)) && s.watch.log[at].BeginMsg?
    ensures var t := Next(s, PhoneHears(at, env));
            t.session == Some(|s.phone.sessions|) && |s.phone.sessions| < |t.phone.sessions| && Answered(t.phone.sessions[|s.phone.sessions|], handler)
  {
    hide PP.Inv, P.StartSession, IsReply, ParseWatchMessage, ToJs, P.HandleWatchMessage, P.FailSession, PF.MildPhone;
    SP.HasWatchId(s);
    BeginIsOwn(s, at);
    OthersReadBack(s.watch.id, 0);
    PF.StartFrame(s.phone.(refusals := env.refusals), s.watch.id, env.constructed);
  }

  lemma BeginIsOwn(s: System, at: nat)
    requires SP.SysInv(s) && at < |s.watch.log| && s.watch.log[at].BeginMsg?
    ensures s.watch.log[at] == BeginMsg(s.watch.id)
  {
    hide SP.Linked;
    SP.HasWatchId(s);
    WF.LogEntry(s.watch, at);
  }

  lemma NextKeepsServed(s: System, step: SystemStep, handler: Handler)
    requires ServedInv(s, handler) && CanHappen(s, step) && Served(s, step, handler)
    ensures ServedInv(Next(s, step), handler)
  {
    hide SP.SysInv, P.Step, W.Step, W.Enabled, Foreign, Answered, IsReply;
    SP.NextKeepsInv(s, step);
    PhoneHasInv(s);
    match step
    case WatchActs(_, _) =>
    case WatchHears(_, _) =>
    case PhoneActs(e, env) =>
      if s.session.Some? {
        PhoneKeepsAnswered(s, e, env, s.session.value, handler);
      }
    case PhoneHears(at, env) =>
      if s.watch.log[at].BeginMsg? {
        BeginIsUnanswered(s, at, env, handler);
      } else if s.session.Some? {
        PhoneKeepsAnswered(s, P.AppMessage(Some(ToJs(s.watch.log[at]))), env, s.session.value, handler);
      }
  }

  lemma {:induction false} RunKeepsServed(s: System, steps: seq<SystemStep>, handler: Handler)
    requires ServedInv(s, handler) && ServedRun(s, steps, handler)
    ensures Possible(s, steps) && ServedInv(Run(s, steps), handler)
    decreases |steps|
  {
    hide ServedInv, CanHappen, Served, Next;
    ServedIsPossible(s, steps, handler);
    if steps != [] {
      NextKeepsServed(s, steps[0], handler);
      RunKeepsServed(Next(s, steps[0]), steps[1..], handler);
    }
  }

  /** Any state of any run in which the frames are the server's. */
  ghost predicate Reachable(s: System, handler: Handler) {
    exists id, outboxSize, launch, phone, steps ::
      && IsWatchId(id) && PR.Reachable(phone)
      && (forall i | 0 <= i < |phone.sessions| :: phone.sessions[i].id != id)
      && ServedRun(Start(id, outboxSize, launch, phone), steps, handler)
      && Possible(Start(id, outboxSize, launch, phone), steps)
      && s == Run(Start(id, outboxSize, launch, phone), steps)
  }

  lemma ReachableInv(s: System, handler: Handler)
    requires Reachable(s, handler)
    ensures SP.Reachable(s) && ServedInv(s, handler)
  {
    hide SP.SysInv, W.Init, PR.Reachable, Run, Possible, ServedRun;
    var id, outboxSize, launch, phone, steps :|
      && IsWatchId(id) && PR.Reachable(phone)
      && (forall i | 0 <= i < |phone.sessions| :: phone.sessions[i].id != id)
      && ServedRun(Start(id, outboxSize, launch, phone), steps, handler)
      && Possible(Start(id, outboxSize, launch, phone), steps)
      && s == Run(Start(id, outboxSize, launch, phone), steps);
    StartIsReachable(id, outboxSize, launch, phone);
    SP.ReachableInv(Start(id, outboxSize, launch, phone));
    RunKeepsServed(Start(id, outboxSize, launch, phone), steps, handler);
  }

  lemma StartIsReachable(id: seq<Byte>, outboxSize: nat, launch: W.Launch, phone: P.Phone)
    requires IsWatchId(id) && PR.Reachable(phone)
    requires forall i | 0 <= i < |phone.sessions| :: phone.sessions[i].id != id
    ensures SP.Reachable(Start(id, outboxSize, launch, phone))
  {
    hide W.Init, PR.Reachable;
    var s := Start(id, outboxSize, launch, phone);
    assert Possible(s, []) && Run(s, []) == s;
  }

  // ---- From microphone to screen ----

  /** What the watch displays is what the application's handler returned for exactly the dictated
      text: its flag, and its text in UTF-8; and the handler did return a valid result. */
  lemma DisplayIsTheHandlers(s: System, handler: Handler)
    requires Reachable(s, handler) && s.watch.app == W.DisplayingResult
    ensures s.watch.captured.Some? && Decode8(s.watch.captured.value).Some?
    ensures var outcome := handler(S.DictationMessage(s.watch.id, Decode8(s.watch.captured.value).value));
            && S.IsValidResult(outcome)
            && s.watch.inc.buffer == Some(Utf8All(S.Scalars(outcome.response.text)))
            && s.watch.inc.success == outcome.success.b
  {
    hide SP.SysInv, SP.Reachable, Reachable, Decode8, Decode16, ParseServerFrame, S.ParseDictationMessage, S.ToServer, S.ToPhone, S.ReplyTo,
         S.IsValidResult, SP.IsRequest, Utf8All;
    ReachableInv(s, handler);
    SP.ResultSafety(s);
    var i := s.session.value;
    var o := s.phone.sessions[i];
    HandlerHearsTheWatch(s, i, 0);
    OnlyReply(o.sends, handler, o.accepted.value);
    var message := S.DictationMessage(s.watch.id, Decode8(s.watch.captured.value).value);
    AcceptedReplies(o.sends[0], message, handler);
    ShownIsTheHandlers(s, message.transcript, handler(message));
  }

  lemma OnlyReply(requests: seq<JsonObject>, handler: Handler, data: Frame)
    requires |requests| == 1 && IsReply(requests, handler, data)
    ensures RepliesOf(requests[0], handler) != [] && data == S.ToPhone(RepliesOf(requests[0], handler)[0])
  {
  }

  lemma AcceptedReplies(request: JsonObject, message: S.DictationMessage, handler: Handler)
    requires S.ParseDictationMessage(S.ToServer(request)) == S.Accepted(message) && RepliesOf(request, handler) != []
    ensures S.IsServerRequestId(S.PyStr(message.id))
    ensures RepliesOf(request, handler)[0] == S.ReplyTo(message, handler(message)) && S.Settles(handler(message))
  {
    hide S.ParseDictationMessage, S.ReplyTo;
    S.ParsedIsNamed(S.ToServer(request));
  }

  // ---- Exactly which results can be displayed ----

  lemma {:induction false} PlainIsServed(s: System, steps: seq<SystemStep>, request: JsonObject, handler: Handler)
    requires RepliesOf(request, handler) != []
    requires D.PlainRun(s, steps, D.Talk(Some(request), S.ToPhone(RepliesOf(request, handler)[0])))
    ensures ServedRun(s, steps, handler)
    decreases |steps|
  {
    hide CanHappen, Next, RepliesOf, S.ToPhone;
    if steps != [] {
      var requests := [request];
      assert requests[0] == request && IsReply(requests, handler, S.ToPhone(RepliesOf(request, handler)[0]));
      PlainIsServed(Next(s, steps[0]), steps[1..], request, handler);
    }
  }

  /** The server understands the request for a planned transcript, and replies to it with what the
      handler returns. */
  lemma TranscriptIsAnswered(id: seq<Byte>, outboxSize: nat, t: seq<Byte>, handler: Handler)
    requires IsWatchId(id) && WP.Plannable(t, outboxSize)
    ensures Decode8(t).Some? && D.RequestFor(id, t).Some?
    ensures var message := S.DictationMessage(id, Decode8(t).value);
            && S.IsServerRequestId(S.PyStr(id))
            && (S.Settles(handler(message)) ==> RepliesOf(D.RequestFor(id, t).value, handler) == [S.ReplyTo(message, handler(message))])
  {
    hide Decode8, Decode16, BuildRequest, ToJsText, S.ParseDictationMessage, S.ToServer, S.ReplyTo;
    PlanIsReadable(t, outboxSize);
    D.TranscriptBuilds(id, t);
    S.RequestIsAccepted(id, ToJsText(t));
    ToJsTextWellFormed(t);
    S.ParsedIsNamed(S.ToServer(D.RequestFor(id, t).value));
  }

  /** A served run from a cooperative start displays a result for this transcript. */
  ghost predicate CanDisplay(id: seq<Byte>, outboxSize: nat, t: seq<Byte>, handler: Handler) {
    exists steps ::
      && Possible(Start(id, outboxSize, D.LAUNCH, P.IDLE_PHONE), steps)
      && ServedRun(Start(id, outboxSize, D.LAUNCH, P.IDLE_PHONE), steps, handler)
      && var u := Run(Start(id, outboxSize, D.LAUNCH, P.IDLE_PHONE), steps);
      u.watch.id == id && u.watch.captured == Some(t) && u.watch.app == W.DisplayingResult
  }

  lemma ValidIsDisplayed(id: seq<Byte>, outboxSize: nat, t: seq<Byte>, handler: Handler)
    requires IsWatchId(id) && WP.Plannable(t, outboxSize) && Decode8(t).Some?
    requires var outcome := handler(S.DictationMessage(id, Decode8(t).value)); S.IsValidResult(outcome) && 0 !in outcome.response.text
    ensures CanDisplay(id, outboxSize, t, handler)
  {
    hide Decode8, Decode16, ParseServerFrame, S.ToPhone, S.ResultPayload, RepliesOf, WP.Plannable, D.RequestFor, Run, Possible, ServedRun, D.PlainRun,
         S.ErrorReply, S.IsServerRequestId, Utf8All, Utf16All, S.Encodable;
    var message := S.DictationMessage(id, Decode8(t).value);
    var outcome := handler(message);
    TranscriptIsAnswered(id, outboxSize, t, handler);
    HasPayload(id, outcome);
    var frame := S.ToPhone(S.ReplyTo(message, outcome));
    S.ResultIsResult(id, outcome);
    Decode16Encode(S.Scalars(outcome.response.text));
    var u := D.CanBeDelivered(id, outboxSize, t, frame);
    var request := D.RequestFor(id, t).value;
    var s := Start(id, outboxSize, D.LAUNCH, P.IDLE_PHONE);
    var steps :| Possible(s, steps) && D.PlainRun(s, steps, D.Talk(Some(request), frame)) && Run(s, steps) == u;
    PlainIsServed(s, steps, request, handler);
  }

  lemma LedIsServed(id: seq<Byte>, outboxSize: nat, steps: seq<SystemStep>, handler: Handler)
    requires IsWatchId(id)
    requires Possible(Start(id, outboxSize, D.LAUNCH, P.IDLE_PHONE), steps)
    requires ServedRun(Start(id, outboxSize, D.LAUNCH, P.IDLE_PHONE), steps, handler)
    ensures Reachable(Run(Start(id, outboxSize, D.LAUNCH, P.IDLE_PHONE), steps), handler)
  {
    hide Run, Possible, ServedRun, PR.Reachable;
    PR.IdleIsReachable();
  }

  lemma DisplayedHasNoNul(s: System, handler: Handler)
    requires Reachable(s, handler) && s.watch.app == W.DisplayingResult
    ensures s.watch.captured.Some? && Decode8(s.watch.captured.value).Some?
    ensures var outcome := handler(S.DictationMessage(s.watch.id, Decode8(s.watch.captured.value).value));
            S.IsValidResult(outcome) && 0 !in outcome.response.text
  {
    hide SP.SysInv, SP.Reachable, Reachable, Decode8, Decode16, ParseServerFrame, SP.IsRequest, Utf8All, ServedInv, S.Encodable;
    ReachableInv(s, handler);
    SP.ResultSafety(s);
    DisplayIsTheHandlers(s, handler);
    var r := ParseServerFrame(s.phone.sessions[s.session.value].accepted.value, s.watch.id);
    var outcome := handler(S.DictationMessage(s.watch.id, Decode8(s.watch.captured.value).value));
    Decode8Encode(Decode16(r.response).value);
    Decode8Encode(S.Scalars(outcome.response.text));
  }

  /** From microphone to screen, with the server in between: some run displays a result for a
      transcript that can be planned if and only if the handler returns, for exactly that text, a
      valid result without U+0000. */
  lemma CanDisplayIff(id: seq<Byte>, outboxSize: nat, t: seq<Byte>, handler: Handler)
    requires IsWatchId(id) && WP.Plannable(t, outboxSize)
    ensures Decode8(t).Some?
    ensures var outcome := handler(S.DictationMessage(id, Decode8(t).value));
            CanDisplay(id, outboxSize, t, handler) <==> S.IsValidResult(outcome) && 0 !in outcome.response.text
  {
    hide Decode8, Run, Possible, ServedRun, Reachable, WP.Plannable, S.Encodable, RepliesOf;
    TranscriptIsAnswered(id, outboxSize, t, handler);
    var outcome := handler(S.DictationMessage(id, Decode8(t).value));
    if CanDisplay(id, outboxSize, t, handler) {
      var s := Start(id, outboxSize, D.LAUNCH, P.IDLE_PHONE);
      var steps :| Possible(s, steps) && ServedRun(s, steps, handler)
                   && var u := Run(s, steps); u.watch.id == id && u.watch.captured == Some(t) && u.watch.app == W.DisplayingResult;
      LedIsServed(id, outboxSize, steps, handler);
      DisplayedHasNoNul(Run(s, steps), handler);
    }
    if S.IsValidResult(outcome) && 0 !in outcome.response.text {
      ValidIsDisplayed(id, outboxSize, t, handler);
    }
  }
}
