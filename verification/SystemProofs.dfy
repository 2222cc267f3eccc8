/** End-to-end safety over every run of the composed system. */
module SystemProofs {
  import opened Unicode
  import opened Greedy
  import opened Messages
  import opened Protocol
  import opened WatchCodec
  import opened ResultTransfer
  import opened TranscriptTransfer
  import opened System
  import W = WatchModel
  import WP = WatchProofs
  import WF = WatchFrames
  import P = PhoneModel
  import PP = PhoneProofs
  import PS = PhoneSteps
  import PF = PhoneFrames
  import PR = PhoneRuns

  // ---- The phone session holds nothing but the watch's transcript ----

  /** The assembler has taken the first chunks of the plan, in order, and not yet all. */
  ghost predicate Assembling(w: W.Watch, a: Assembler) {
    if w.captured == None then a == NewAssembler(w.id)
    else
      && WP.Planned(w)
      && var cs := WP.PlannedChunks(w);
      && (forall i | 0 <= i < |cs| :: Decode8(cs[i]).Some?)
      && a.nextIndex < |cs|
      && a == Assembled(w.id, w.captured.value, cs, a.nextIndex)
  }

  /** The watch's whole transcript, as the phone writes it. */
  ghost predicate IsTranscript(w: W.Watch, text: seq<Unit>) {
    w.captured.Some? && Decode8(w.captured.value).Some? && text == ToJsText(w.captured.value)
  }

  /** The request that carries it under the watch's identifier. */
  ghost predicate IsRequest(w: W.Watch, request: JsonObject) {
    w.captured.Some? && Decode8(w.captured.value).Some? && BuildRequest(w.id, ToJsText(w.captured.value)) == Some(request)
  }

  /** All that the session holds or has sent is the watch's whole transcript. */
  ghost predicate Carries(w: W.Watch, s: P.Session) {
    && s.id == w.id
    && (s.transcript.Some? ==> IsTranscript(w, s.transcript.value))
    && (forall k | 0 <= k < |s.sends| :: IsRequest(w, s.sends[k]))
  }

  ghost predicate Own(w: W.Watch, s: P.Session) {
    Carries(w, s) && (s.state == P.Receiving ==> Assembling(w, s.assembler))
  }

  lemma MildKeepsCarries(w: W.Watch, s: P.Session, t: P.Session)
    requires Carries(w, s) && PF.Mild(s, t)
    ensures Carries(w, t)
  {
    hide BuildRequest, ToJsText;
  }

  lemma MildKeepsOwn(w: W.Watch, s: P.Session, t: P.Session)
    requires Own(w, s) && PF.Mild(s, t)
    ensures Own(w, t)
  {
    hide BuildRequest, Assembling, ToJsText, Carries;
    MildKeepsCarries(w, s, t);
  }

  lemma CaptureKeepsAssembling(w: W.Watch, v: W.Watch, a: Assembler)
    requires WP.WatchInv(v) && WF.Keeps(w, v) && Assembling(w, a)
    ensures Assembling(v, a)
  {
    hide WP.WatchInv, WP.ChunksOf, Prepare;
    WF.CapturedIsPlannable(v);
    if v.captured.Some? {
      PlanIsReadable(v.captured.value, v.outboxSize);
    }
  }

  /** The watch side may capture its transcript late, but never revises it. */
  lemma SteadyKeepsOwn(w: W.Watch, v: W.Watch, s: P.Session)
    requires WP.WatchInv(v) && WF.Keeps(w, v) && Own(w, s)
    ensures Own(v, s)
  {
    hide WP.WatchInv, BuildRequest, Assembling, ToJsText;
    if s.state == P.Receiving {
      CaptureKeepsAssembling(w, v, s.assembler);
    }
    forall k | 0 <= k < |s.sends| ensures IsRequest(v, s.sends[k]) {
      assert IsRequest(w, s.sends[k]);
    }
  }

  lemma OutOfOrderThrows(id: seq<Unit>, t: seq<Byte>, cs: seq<seq<Byte>>, k: nat, m: Message)
    requires k <= |cs| && forall i | 0 <= i < |cs| :: Decode8(cs[i]).Some?
    requires m.Chunk? && m.index != k
    ensures Add(Assembled(id, t, cs, k), m).1 == Threw
  {
    hide Decode8, ToJsText, Utf8Length;
  }

  /** Whichever chunk of the plan arrives, a session that survives it has the next prefix, or has
      the whole transcript after the last chunk. */
  lemma ChunkKeepsOwn(w: W.Watch, s: P.Session, k: nat)
    requires WP.Planned(w) && k < |WP.PlannedChunks(w)| && w.captured.Some?
    requires Own(w, s) && s.state == P.Receiving && s.transcript == None
    ensures Decode8(WP.PlannedChunks(w)[k]).Some?
    ensures var cs := WP.PlannedChunks(w);
            var m := Chunk(w.id, k, |cs|, |w.captured.value|, ToJsText(cs[k]));
            Own(w, PF.GivenChunk(s, m)) || Add(s.assembler, m).1 == Threw
  {
    hide WP.ChunksOf, ToJsText, Decode8, Utf8Length, Prepare, BuildRequest, Add, Assembled;
    PlanIsReadable(w.captured.value, w.outboxSize);
    var cs := WP.PlannedChunks(w);
    var m := Chunk(w.id, k, |cs|, |w.captured.value|, ToJsText(cs[k]));
    var a := s.assembler;
    if a.nextIndex == k {
      AddsNext(w.id, w.captured.value, w.outboxSize, k);
      AssembledIndex(w.id, w.captured.value, cs, k + 1);
    } else {
      OutOfOrderThrows(w.id, w.captured.value, cs, a.nextIndex, m);
    }
  }

  lemma AssembledIndex(id: seq<Unit>, t: seq<Byte>, cs: seq<seq<Byte>>, k: nat)
    requires k <= |cs| && forall i | 0 <= i < |cs| :: Decode8(cs[i]).Some?
    ensures Assembled(id, t, cs, k).nextIndex == k
  {
    hide Decode8, ToJsText;
  }

  // ---- The watch receives nothing but the session's result ----

  /** The response being received is the first pieces of the accepted result, with its metadata,
      and has no NUL so far. */
  ghost predicate Fills(inc: W.Incoming, s: P.Session) {
    inc.buffer.Some? ==>
      && s.outcome.Forwarded? && IsResponse(s.outcome.response)
      && var vs := Decode16(s.outcome.response).value; var parts := ResponseParts(vs);
      && inc.count == |parts| && inc.total == Bytes(vs) && inc.success == s.outcome.success
      && inc.next <= |parts| && inc.buffer.value == Utf8All(Flatten(parts[..inc.next]))
      && 0 !in Flatten(parts[..inc.next])
  }

  function Stored(inc: W.Incoming): seq<Byte> { if inc.buffer.Some? then inc.buffer.value else [] }

  lemma OpenedFor(w: W.Watch, c: W.ResultChunk, env: W.Env)
    requires WP.WatchInv(w) && w.app == W.Bridging && (w.link == W.AwaitingResult || w.link == W.ReceivingResult)
    requires W.OpenResult(w, c, env).1
    ensures var u := W.OpenResult(w, c, env).0;
            && u.inc.buffer == Some(Stored(w.inc)) && u.inc.next == w.inc.next
            && u.inc.count == c.count && u.inc.total == c.total && u.inc.success == c.success
            && (w.inc.buffer.Some? ==> c.count == w.inc.count && c.total == w.inc.total && c.success == w.inc.success)
  {
    hide Decode8, WP.Plannable, WP.Script, WP.Planned, WP.ScriptOf;
  }

  lemma StoredInto(u: W.Watch, c: W.ResultChunk, env: W.Env)
    requires u.inc.buffer.Some? && W.StoreChunk(u, c, env).1
    ensures c.index == u.inc.next
    ensures W.StoreChunk(u, c, env).0.inc == u.inc.(buffer := Some(u.inc.buffer.value + c.text), next := u.inc.next + 1)
  {
    hide W.FinishResult, W.AwaitMoreResult;
    WF.EndingKeeps(u.(inc := u.inc.(buffer := Some(u.inc.buffer.value + c.text), next := u.inc.next + 1)), env);
  }

  /** An accepted chunk is the next one, agrees with the metadata, and is appended. */
  lemma AcceptedIsStored(w: W.Watch, d: Dict, env: W.Env, t: W.Watch)
    requires WP.WatchInv(w) && W.ReceiveResultChunk(w, d, env) == (t, true)
    ensures W.ReadResultChunk(d).Some? && !WP.Terminal(w)
    ensures var c := W.ReadResultChunk(d).value;
            && c.index == w.inc.next
            && (w.inc.buffer.Some? ==> c.count == w.inc.count && c.total == w.inc.total && c.success == w.inc.success)
            && t.inc == W.Incoming(Some(Stored(w.inc) + c.text), c.count, c.index + 1, c.total, c.success)
    ensures t.id == w.id && t.outboxSize == w.outboxSize && t.captured == w.captured
  {
    hide W.ReadResultChunk, W.OpenResult, W.StoreChunk, WP.WatchInv;
    WP.ReceiveFrame(w, d, env);
    var c := W.ReadResultChunk(d).value;
    OpenedFor(w, c, env);
    StoredInto(W.OpenResult(w, c, env).0, c, env);
  }

  /** One payload of a result, as the watch reads it. */
  lemma PieceReadsBack(id: seq<Unit>, success: bool, response: seq<Unit>, k: nat)
    requires IsRequestId(id) && IsResponse(response)
    requires ResultPayloads(id, success, response).Some? && k < |ResultPayloads(id, success, response).value|
    ensures var vs := Decode16(response).value; var parts := ResponseParts(vs);
            && k < |parts| && IsPartition(parts, vs, RESPONSE_CHUNK_BYTES)
            && W.ReadResultChunk(ToDict(ResultPayloads(id, success, response).value[k]))
               == if 0 in parts[k] then None else Some(W.ResultChunk(k, |parts|, Bytes(vs), success, Utf8All(parts[k])))
  {
    hide ResultPayloads, Decode16, ToDict, ResponseParts, W.ReadResultChunk, Utf8All, Utf16All;
    ResultPayloadsAreComplete(id, success, response);
    var parts := ResponseParts(Decode16(response).value);
    Decode16Encode(parts[k]);
    ReadBack(ResultPayloads(id, success, response).value[k]);
  }

  lemma NextPieceFills(parts: seq<seq<Scalar>>, k: nat)
    requires k < |parts|
    ensures Utf8All(Flatten(parts[..k])) + Utf8All(parts[k]) == Utf8All(Flatten(parts[..k + 1]))
    ensures 0 !in Flatten(parts[..k]) && 0 !in parts[k] ==> 0 !in Flatten(parts[..k + 1])
  {
    assert parts[..k + 1] == parts[..k] + [parts[k]];
    FlattenConcat(parts[..k], [parts[k]]);
    FlattenOne(parts[k]);
    Utf8AllConcat(Flatten(parts[..k]), parts[k]);
  }

  lemma NoneSoFar(parts: seq<seq<Scalar>>)
    ensures Utf8All(Flatten(parts[..0])) == [] && Flatten(parts[..0]) == []
  {
  }

  lemma PieceFills(w: W.Watch, s: P.Session, k: nat, env: W.Env, t: W.Watch)
    requires WP.WatchInv(w) && IsRequestId(s.id) && Fills(w.inc, s)
    requires s.outcome.Forwarded? && IsResponse(s.outcome.response)
    requires ResultPayloads(s.id, s.outcome.success, s.outcome.response).Some?
    requires k < |ResultPayloads(s.id, s.outcome.success, s.outcome.response).value|
    requires W.ReceiveResultChunk(w, ToDict(ResultPayloads(s.id, s.outcome.success, s.outcome.response).value[k]), env) == (t, true)
    ensures Fills(t.inc, s)
  {
    hide ResultPayloads, Decode16, ToDict, ResponseParts, W.ReadResultChunk, Utf8All, WP.WatchInv, W.ReceiveResultChunk, IsRequestId;
    var d := ToDict(ResultPayloads(s.id, s.outcome.success, s.outcome.response).value[k]);
    PieceReadsBack(s.id, s.outcome.success, s.outcome.response, k);
    AcceptedIsStored(w, d, env, t);
    NextPieceFills(ResponseParts(Decode16(s.outcome.response).value), k);
    if w.inc.buffer == None {
      NothingStored(w);
      NoneSoFar(ResponseParts(Decode16(s.outcome.response).value));
    }
  }

  lemma NothingStored(w: W.Watch)
    requires WP.WatchInv(w) && w.inc.buffer == None && !WP.Terminal(w)
    ensures w.inc.next == 0
  {
  }

  // ---- The invariant of the composed system ----

  /** Only the watch's own session has its identifier; that session holds nothing but the watch's
      transcript, and the watch holds nothing but that session's result. */
  ghost predicate Linked(w: W.Watch, p: P.Phone, session: Option<nat>) {
    && (forall i | 0 <= i < |p.sessions| && p.sessions[i].id == w.id :: session == Some(i))
    && (session.Some? ==> session.value < |p.sessions| && Own(w, p.sessions[session.value]))
    && (w.inc.buffer.Some? ==> session.Some? && Fills(w.inc, p.sessions[session.value]))
  }

  ghost predicate SysInv(s: System) {
    && IsWatchId(s.watch.id) && WP.WatchInv(s.watch) && PP.Inv(s.phone)
    && Linked(s.watch, s.phone, s.session)
  }

  lemma SteadyWatch(s: System, v: W.Watch)
    requires SysInv(s) && WP.WatchInv(v) && WF.Keeps(s.watch, v)
    ensures SysInv(s.(watch := v))
  {
    hide WP.WatchInv, PP.Inv, Own, Fills;
    if s.session.Some? {
      SteadyKeepsOwn(s.watch, v, s.phone.sessions[s.session.value]);
    }
  }

  lemma WatchActsKeeps(s: System, e: W.Event, env: W.Env)
    requires SysInv(s) && W.Enabled(s.watch, e) && (e.Inbox? ==> !W.IdMatches(s.watch, e.dict))
    ensures SysInv(s.(watch := W.Step(s.watch, e, env)))
  {
    hide WP.WatchInv, PP.Inv, WF.Keeps, W.Step, Own, Fills;
    WP.StepKeepsInv(s.watch, e, env);
    WF.StepFrame(s.watch, e, env);
    SteadyWatch(s, W.Step(s.watch, e, env));
  }

  lemma OutcomeIsFinal(p: P.Phone, i: nat)
    requires PP.Inv(p) && i < |p.sessions|
    ensures p.sessions[i].outcome.Forwarded? ==> p.sessions[i].terminal
    ensures IsRequestId(p.sessions[i].id)
  {
    hide PP.Carrier, PP.Phase, PP.WireInv;
    assert PP.OwnerInv(p, i);
  }

  /** A result chunk for the watch is a piece of what its own session forwards. */
  lemma HeardIsOwn(s: System, at: nat)
    requires SysInv(s) && at < |s.phone.t.sent|
    ensures IsRequestId(s.phone.t.sent[at].payload.id)
    ensures s.phone.t.sent[at].payload.id == s.watch.id ==> s.session.Some?
    ensures s.phone.t.sent[at].payload.id == s.watch.id && s.phone.t.sent[at].payload.ResultMsg? ==>
              var o := s.phone.sessions[s.session.value]; var m := s.phone.t.sent[at].payload;
              && o.id == s.watch.id
              && o.outcome.Forwarded? && IsResponse(o.outcome.response)
              && ResultPayloads(o.id, o.outcome.success, o.outcome.response).Some?
              && m.index < |ResultPayloads(o.id, o.outcome.success, o.outcome.response).value|
              && ResultPayloads(o.id, o.outcome.success, o.outcome.response).value[m.index] == m
  {
    hide WP.WatchInv, PP.Carrier, ResultPayloads, IsResponse, IsRequestId, Own, Fills, PP.WireInv, PP.Sound, PP.Phase;
    var e := s.phone.t.sent[at];
    PR.InvHasEntry(s.phone, at);
    OutcomeIsFinal(s.phone, e.owner);
    if e.payload.ResultMsg? {
      var o := s.phone.sessions[e.owner];
      ResultPayloadsAreComplete(o.id, o.outcome.success, o.outcome.response);
    }
  }

  lemma WatchHearsKeeps(s: System, at: nat, env: W.Env)
    requires SysInv(s) && at < |s.phone.t.sent| && !s.watch.exited
    ensures SysInv(s.(watch := W.Step(s.watch, W.Inbox(Heard(s, at)), env)))
  {
    hide WP.WatchInv, PP.Inv, WF.Keeps, W.InboxReceived, W.ReceiveResultChunk, Own, Fills, ToDict, ResultPayloads, IsResponse, W.ToUint32, W.IdMatches;
    var m := s.phone.t.sent[at].payload;
    var d := ToDict(m);
    var v := W.Step(s.watch, W.Inbox(d), env);
    WP.StepKeepsInv(s.watch, W.Inbox(d), env);
    WF.StepFrame(s.watch, W.Inbox(d), env);
    HeardIsOwn(s, at);
    if WF.Keeps(s.watch, v) {
      SteadyWatch(s, v);
    } else {
      HeaderReadsBack(s.watch, m);
      AcceptedIsStored(s.watch, d, env, v);
      var o := s.phone.sessions[s.session.value];
      if s.watch.inc.buffer == None {
        NothingFills(s.watch.inc, o);
      }
      PieceFills(s.watch, o, m.index, env, v);
      AcceptedKeepsOwn(s.watch, v, o);
    }
  }

  lemma NothingFills(inc: W.Incoming, s: P.Session)
    requires inc.buffer == None
    ensures Fills(inc, s)
  {
  }

  lemma AcceptedKeepsOwn(w: W.Watch, v: W.Watch, s: P.Session)
    requires Own(w, s) && v.id == w.id && v.outboxSize == w.outboxSize && v.captured == w.captured
    ensures Own(v, s)
  {
    hide BuildRequest, ToJsText, Decode8, WP.ChunksOf, WP.Plannable;
    forall k | 0 <= k < |s.sends| ensures IsRequest(v, s.sends[k]) {
      assert IsRequest(w, s.sends[k]);
    }
  }

  // ---- The phone's side ----

  lemma MildKeepsLinked(w: W.Watch, p: P.Phone, q: P.Phone, session: Option<nat>)
    requires Linked(w, p, session) && PF.MildPhone(p, q)
    requires forall j | |p.sessions| <= j < |q.sessions| :: q.sessions[j].id != w.id
    requires forall i | 0 <= i < |p.sessions| :: p.sessions[i].outcome.Forwarded? ==> p.sessions[i].terminal
    ensures Linked(w, q, session)
  {
    hide BuildRequest, IsResponse, Own, ResponseParts, Decode16, Flatten;
    forall i | 0 <= i < |q.sessions| && q.sessions[i].id == w.id ensures session == Some(i) {
      assert PF.Mild(p.sessions[i], q.sessions[i]);
    }
    if session.Some? {
      assert PF.Mild(p.sessions[session.value], q.sessions[session.value]);
      MildKeepsOwn(w, p.sessions[session.value], q.sessions[session.value]);
    }
  }

  lemma OutcomesAreFinal(p: P.Phone)
    requires PP.Inv(p)
    ensures forall i | 0 <= i < |p.sessions| :: p.sessions[i].outcome.Forwarded? ==> p.sessions[i].terminal
  {
    hide PP.Inv;
    forall i | 0 <= i < |p.sessions| ensures p.sessions[i].outcome.Forwarded? ==> p.sessions[i].terminal {
      OutcomeIsFinal(p, i);
    }
  }

  lemma MildKeeps(s: System, q: P.Phone)
    requires SysInv(s) && PP.Inv(q) && PF.MildPhone(s.phone, q)
    requires forall j | |s.phone.sessions| <= j < |q.sessions| :: q.sessions[j].id != s.watch.id
    ensures SysInv(s.(phone := q))
  {
    hide PP.Inv, WP.WatchInv, PF.MildPhone, Linked;
    OutcomesAreFinal(s.phone);
    MildKeepsLinked(s.watch, s.phone, q, s.session);
  }

  lemma ParsedId(payload: Option<JsPayload>)
    ensures var m := ParseWatchMessage(payload);
            m.Some? ==> payload.Some? && Field(payload.value, RequestId) == JsString(m.value.id) && IsRequestId(m.value.id)
  {
    hide IsRequestId, Utf8Length;
  }

  /** A message for another session touches only that session. */
  lemma OtherSessionKeeps(s: System, i: nat, m: Message, call: P.SendCall)
    requires SysInv(s) && i < |s.phone.sessions| && s.phone.sessions[i].id != s.watch.id
    ensures SysInv(s.(phone := P.HandleWatchMessage(s.phone, i, m, call)))
  {
    hide PP.Inv, WP.WatchInv, PF.MildPhone, PF.Calm, P.HandleWatchMessage, Own, Fills, PF.GivenChunk;
    PS.WatchMessageKeepsInv(s.phone, i, m, call);
    var q := P.HandleWatchMessage(s.phone, i, m, call);
    var o := s.phone.sessions[i];
    if m.Chunk? && o.state == P.Receiving && o.watch == P.ReceivingTranscript {
      PR.ReceivingIsFresh(s.phone, i);
      PF.ChunkMild(s.phone, i, m, call);
      GivenKeeps(o, m);
      OutcomesAreFinal(s.phone);
      if s.session.Some? {
        OwnCarries(s.watch, s.phone.sessions[s.session.value]);
      }
      MildKeepsLinked(s.watch, P.SetSession(s.phone, i, PF.GivenChunk(o, m)), q, s.session);
    } else {
      PF.OtherMessageCalm(s.phone, i, m, call);
      PF.CalmIsMild(s.phone, q);
      MildKeeps(s, q);
    }
  }

  lemma GivenKeeps(s: P.Session, m: Message)
    ensures var t := PF.GivenChunk(s, m); t.id == s.id && t.outcome == s.outcome && t.terminal == s.terminal && t.sends == s.sends
  {
    hide Add;
  }

  lemma StartingKeeps(s: System, id: seq<Unit>, constructed: bool)
    requires SysInv(s) && IsRequestId(id) && id != s.watch.id
    ensures SysInv(s.(phone := P.StartSession(s.phone, id, constructed)))
  {
    hide PP.Inv, WP.WatchInv, PF.MildPhone, P.StartSession, Linked, IsRequestId;
    PS.StartKeepsInv(s.phone, id, constructed);
    PF.StartFrame(s.phone, id, constructed);
    MildKeeps(s, P.StartSession(s.phone, id, constructed));
  }

  lemma FailingKeeps(s: System, i: nat, status: nat)
    requires SysInv(s) && i < |s.phone.sessions|
    ensures SysInv(s.(phone := P.FailSession(s.phone, i, status)))
  {
    hide PP.Inv, WP.WatchInv, PF.MildPhone, PF.Calm, P.FailSession, Linked;
    PS.ProtocolFailureKeepsInv(s.phone, i, status);
    PF.FailSessionCalm(s.phone, i, status);
    PF.CalmIsMild(s.phone, P.FailSession(s.phone, i, status));
    PF.CalmLength(s.phone, P.FailSession(s.phone, i, status));
    MildKeeps(s, P.FailSession(s.phone, i, status));
  }

  lemma ForeignKeeps(s: System, payload: Option<JsPayload>, env: P.PhoneEnv)
    requires SysInv(s) && Foreign(payload, s.watch.id)
    ensures SysInv(s.(phone := P.OnAppMessage(s.phone, payload, env)))
  {
    hide SysInv, P.StartSession, P.FailSession, P.HandleWatchMessage, ParseWatchMessage;
    ParsedId(payload);
    var p := s.phone;
    match ParseWatchMessage(payload)
    case None =>
      if p.active.Some? && p.active.value < |p.sessions| {
        FailingKeeps(s, p.active.value, STATUS_PROTOCOL);
      }
    case Some(m) =>
      if m.Begin? {
        StartingKeeps(s, m.id, env.constructed);
      } else if p.active.Some? && p.active.value < |p.sessions| && m.id == p.sessions[p.active.value].id {
        OtherSessionKeeps(s, p.active.value, m, env.call);
      }
  }

  // ---- The watch's own messages ----

  lemma NewIsOwn(w: W.Watch, t: P.Session)
    requires WP.WatchInv(w) && PF.Tame(P.NewSession(w.id), t)
    ensures Own(w, t)
  {
    hide WP.WatchInv, WP.ChunksOf, Prepare, BuildRequest;
    WF.CapturedIsPlannable(w);
    if w.captured.Some? {
      PlanIsReadable(w.captured.value, w.outboxSize);
    }
  }

  lemma NewLinked(w: W.Watch, p: P.Phone, q: P.Phone)
    requires Linked(w, p, None) && |q.sessions| == |p.sessions| + 1 && Own(w, q.sessions[|p.sessions|])
    requires forall i | 0 <= i < |p.sessions| :: q.sessions[i].id == p.sessions[i].id
    ensures Linked(w, q, Some(|p.sessions|))
  {
    hide Own, Fills;
  }

  lemma BeginKeeps(s: System, constructed: bool)
    requires SysInv(s) && s.session == None
    ensures SysInv(s.(phone := P.StartSession(s.phone, s.watch.id, constructed), session := Some(|s.phone.sessions|)))
  {
    hide PP.Inv, WP.WatchInv, P.StartSession, Own, Linked, PF.Tame, PF.MildPhone;
    IdText(s.watch.id);
    PS.StartKeepsInv(s.phone, s.watch.id, constructed);
    PF.StartFrame(s.phone, s.watch.id, constructed);
    var q := P.StartSession(s.phone, s.watch.id, constructed);
    NewIsOwn(s.watch, q.sessions[|s.phone.sessions|]);
    MildKeepsIds(s.phone, q);
    NewLinked(s.watch, s.phone, q);
  }

  lemma MildKeepsIds(p: P.Phone, q: P.Phone)
    requires PF.MildPhone(p, q)
    ensures |p.sessions| <= |q.sessions| && forall i | 0 <= i < |p.sessions| :: q.sessions[i].id == p.sessions[i].id
  {
    hide PF.Tame, BuildRequest;
    forall i | 0 <= i < |p.sessions| ensures q.sessions[i].id == p.sessions[i].id {
      assert PF.Mild(p.sessions[i], q.sessions[i]);
      TameId(PF.Traffic(p.sessions[i], q.sessions[i]), q.sessions[i]);
    }
  }

  lemma TameId(s: P.Session, t: P.Session)
    requires PF.Tame(s, t)
    ensures t.id == s.id
  {
  }

  lemma ThrownKeeps(s: System, q: P.Phone, k: nat, given: P.Session)
    requires SysInv(s) && s.session == Some(k) && PP.Inv(q) && |q.sessions| == |s.phone.sessions|
    requires Carries(s.watch, given) && given.id == s.phone.sessions[k].id
    requires given.outcome == s.phone.sessions[k].outcome && given.terminal == s.phone.sessions[k].terminal
    requires PF.MildPhone(P.SetSession(s.phone, k, given), q) && q.sessions[k].terminal
    ensures SysInv(s.(phone := q))
  {
    hide WP.WatchInv, Carries, BuildRequest, PP.Carrier, PP.WireInv, PP.Sound, IsResponse, ResponseParts, Decode16, Flatten;
    OutcomesAreFinal(s.phone);
    assert PP.OwnerInv(q, k);
    var mid := P.SetSession(s.phone, k, given);
    forall i | 0 <= i < |q.sessions| && q.sessions[i].id == s.watch.id ensures s.session == Some(i) {
      assert PF.Mild(mid.sessions[i], q.sessions[i]);
    }
    assert PF.Mild(mid.sessions[k], q.sessions[k]);
    MildKeepsCarries(s.watch, given, q.sessions[k]);
  }

  lemma GivenCarries(w: W.Watch, s: P.Session, m: Message)
    requires Carries(w, s) && !Add(s.assembler, m).1.Complete?
    ensures Carries(w, PF.GivenChunk(s, m))
  {
    hide Add, IsRequest, ToJsText;
  }

  /** A chunk of the watch's plan, for the watch's own session while it is receiving. */
  lemma ReceivedChunkKeeps(s: System, k: nat, i: nat, call: P.SendCall)
    requires SysInv(s) && s.session == Some(i)
    requires WP.Planned(s.watch) && k < |WP.PlannedChunks(s.watch)| && Decode8(WP.PlannedChunks(s.watch)[k]).Some?
    requires s.phone.sessions[i].state == P.Receiving && s.phone.sessions[i].watch == P.ReceivingTranscript
    ensures var cs := WP.PlannedChunks(s.watch);
            var m := Chunk(s.watch.id, k, |cs|, |s.watch.captured.value|, ToJsText(cs[k]));
            SysInv(s.(phone := P.HandleWatchMessage(s.phone, i, m, call)))
  {
    hide PP.Inv, WP.WatchInv, PF.MildPhone, P.HandleWatchMessage, Own, Carries, Fills, PF.GivenChunk, Add, ToJsText, Decode8, WP.PlannedChunks;
    var cs := WP.PlannedChunks(s.watch);
    var m := Chunk(s.watch.id, k, |cs|, |s.watch.captured.value|, ToJsText(cs[k]));
    var o := s.phone.sessions[i];
    var given := PF.GivenChunk(o, m);
    var q := P.HandleWatchMessage(s.phone, i, m, call);
    PS.WatchMessageKeepsInv(s.phone, i, m, call);
    PR.ReceivingIsFresh(s.phone, i);
    PF.ChunkMild(s.phone, i, m, call);
    GivenKeeps(o, m);
    ChunkKeepsOwn(s.watch, o, k);
    if Own(s.watch, given) {
      OutcomesAreFinal(s.phone);
      FillsGiven(s.watch.inc, o, given);
      MildKeepsLinked(s.watch, P.SetSession(s.phone, i, given), q, s.session);
    } else {
      OwnCarries(s.watch, o);
      GivenCarries(s.watch, o, m);
      ThrownKeeps(s, q, i, given);
    }
  }

  lemma OwnCarries(w: W.Watch, s: P.Session)
    requires Own(w, s)
    ensures Carries(w, s) && s.id == w.id
  {
  }

  lemma FillsGiven(inc: W.Incoming, s: P.Session, t: P.Session)
    requires t.outcome == s.outcome
    ensures Fills(inc, s) ==> Fills(inc, t)
  {
  }

  lemma EndParses(id: seq<Byte>, status: nat)
    ensures var m := ParseWatchMessage(Some(ToJs(EndMsg(id, status)))); m.None? || m.value.End?
  {
    hide JsText, IsRequestId;
    var p := ToJs(EndMsg(id, status));
    assert p[MessageType] == JsNumber(SESSION_END);
  }

  /** A message that is no chunk, or comes too late, cannot hurt the session it names. */
  lemma UnwantedKeeps(s: System, i: nat, m: Message, call: P.SendCall)
    requires SysInv(s) && i < |s.phone.sessions|
    requires !(m.Chunk? && s.phone.sessions[i].state == P.Receiving && s.phone.sessions[i].watch == P.ReceivingTranscript)
    ensures SysInv(s.(phone := P.HandleWatchMessage(s.phone, i, m, call)))
  {
    hide PP.Inv, WP.WatchInv, PF.MildPhone, PF.Calm, P.HandleWatchMessage, Linked;
    PS.WatchMessageKeepsInv(s.phone, i, m, call);
    var q := P.HandleWatchMessage(s.phone, i, m, call);
    PF.OtherMessageCalm(s.phone, i, m, call);
    PF.CalmIsMild(s.phone, q);
    PF.CalmLength(s.phone, q);
    MildKeeps(s, q);
  }

  lemma ActiveIsOwn(s: System, i: nat)
    requires SysInv(s) && i < |s.phone.sessions| && s.phone.sessions[i].id == s.watch.id
    ensures s.session == Some(i)
  {
    hide PP.Inv, WP.WatchInv, Own, Fills;
  }

  lemma ChunkHeardKeeps(s: System, k: nat, env: P.PhoneEnv)
    requires SysInv(s) && WP.Planned(s.watch) && k < |WP.PlannedChunks(s.watch)|
    ensures var cs := WP.PlannedChunks(s.watch);
            var m := ChunkMsg(s.watch.id, k, |cs|, |s.watch.captured.value|, cs[k]);
            SysInv(s.(phone := P.OnAppMessage(s.phone, Some(ToJs(m)), env)))
  {
    hide SysInv, P.HandleWatchMessage, ParseWatchMessage, ToJs, ToJsText, Decode8, WP.PlannedChunks, P.FailSession, P.StartSession, Prepare;
    HasWatchId(s);
    var cs := WP.PlannedChunks(s.watch);
    PlannedIsChunks(s.watch);
    ChunkReadsBack(s.watch.id, s.watch.captured.value, s.watch.outboxSize, k);
    var m := Chunk(s.watch.id, k, |cs|, |s.watch.captured.value|, ToJsText(cs[k]));
    var p := s.phone;
    if p.active.Some? && p.active.value < |p.sessions| && p.sessions[p.active.value].id == s.watch.id {
      var i := p.active.value;
      ActiveIsOwn(s, i);
      if p.sessions[i].state == P.Receiving && p.sessions[i].watch == P.ReceivingTranscript {
        ReceivedChunkKeeps(s, k, i, env.call);
      } else {
        UnwantedKeeps(s, i, m, env.call);
      }
    }
  }

  lemma HasWatchId(s: System)
    requires SysInv(s)
    ensures IsWatchId(s.watch.id) && WP.WatchInv(s.watch) && PP.Inv(s.phone)
  {
  }

  lemma PlannedIsChunks(w: W.Watch)
    requires WP.Planned(w)
    ensures WP.PlannedChunks(w) == WP.ChunksOf(w.captured.value, w.outboxSize)
  {
  }

  lemma EndHeardKeeps(s: System, id: seq<Byte>, status: nat, env: P.PhoneEnv)
    requires SysInv(s)
    ensures SysInv(s.(phone := P.OnAppMessage(s.phone, Some(ToJs(EndMsg(id, status))), env)))
  {
    hide SysInv, P.HandleWatchMessage, ParseWatchMessage, ToJs, P.FailSession, P.StartSession;
    EndParses(id, status);
    var p := s.phone;
    if p.active.Some? && p.active.value < |p.sessions| {
      FailingKeeps(s, p.active.value, STATUS_PROTOCOL);
      if ParseWatchMessage(Some(ToJs(EndMsg(id, status)))).Some? {
        UnwantedKeeps(s, p.active.value, ParseWatchMessage(Some(ToJs(EndMsg(id, status)))).value, env.call);
      }
    }
  }

  lemma BeginHeardKeeps(s: System, env: P.PhoneEnv)
    requires SysInv(s) && s.session == None
    ensures SysInv(s.(phone := P.OnAppMessage(s.phone, Some(ToJs(BeginMsg(s.watch.id))), env), session := Some(|s.phone.sessions|)))
  {
    hide SysInv, P.HandleWatchMessage, ParseWatchMessage, ToJs, P.FailSession, P.StartSession;
    HasWatchId(s);
    OthersReadBack(s.watch.id, 0);
    BeginKeeps(s, env.constructed);
  }

  // ---- Every step ----

  lemma RefusalsKeep(s: System, refusals: seq<bool>)
    requires SysInv(s)
    ensures SysInv(s.(phone := s.phone.(refusals := refusals)))
  {
    hide PP.Inv, WP.WatchInv, Own, Fills;
    PS.RefusalsKeepInv(s.phone, refusals);
  }

  lemma PhoneActsKeeps(s: System, e: P.PhoneEvent, env: P.PhoneEnv)
    requires SysInv(s) && P.Enabled(s.phone, e) && (e.AppMessage? ==> Foreign(e.payload, s.watch.id))
    ensures SysInv(s.(phone := P.Step(s.phone, e, env)))
  {
    hide SysInv, PF.MildPhone, P.OnAppMessage, P.Finish, P.FailSocket, P.HandleFrame, P.TrySend, Foreign;
    HasWatchId(s);
    if e.AppMessage? {
      var t := s.(phone := s.phone.(refusals := env.refusals));
      RefusalsKeep(s, env.refusals);
      ForeignKeeps(t, e.payload, env);
    } else {
      PS.StepKeepsInv(s.phone, e, env);
      PF.StepMild(s.phone, e, env);
      MildKeeps(s, P.Step(s.phone, e, env));
    }
  }

  lemma PhoneHearsKeeps(s: System, at: nat, env: P.PhoneEnv)
    requires SysInv(s) && CanHappen(s, PhoneHears(at, env))
    ensures SysInv(Next(s, PhoneHears(at, env)))
  {
    hide SysInv, P.OnAppMessage, ToJs, WP.PlannedChunks, WP.Planned;
    HasWatchId(s);
    RefusalsKeep(s, env.refusals);
    var t := s.(phone := s.phone.(refusals := env.refusals));
    WF.LogEntry(s.watch, at);
    match s.watch.log[at]
    case BeginMsg(_) => BeginHeardKeeps(t, env);
    case ChunkMsg(_, _, _, _, _) => ChunkHeardKeeps(t, at - 1, env);
    case EndMsg(id, status) => EndHeardKeeps(t, id, status, env);
  }

  lemma NextKeepsInv(s: System, step: SystemStep)
    requires SysInv(s) && CanHappen(s, step)
    ensures SysInv(Next(s, step))
  {
    hide SysInv, W.Step, P.Step, W.Enabled, P.Enabled, Foreign, W.IdMatches;
    match step
    case WatchActs(e, env) => WatchActsKeeps(s, e, env);
    case WatchHears(at, env) => WatchHearsKeeps(s, at, env);
    case PhoneActs(e, env) => PhoneActsKeeps(s, e, env);
    case PhoneHears(at, env) => PhoneHearsKeeps(s, at, env);
  }

  lemma {:induction false} RunKeepsInv(s: System, steps: seq<SystemStep>)
    requires SysInv(s) && Possible(s, steps)
    ensures SysInv(Run(s, steps))
    decreases |steps|
  {
    hide SysInv, CanHappen, Next;
    if steps != [] {
      NextKeepsInv(s, steps[0]);
      RunKeepsInv(Next(s, steps[0]), steps[1..]);
    }
  }

  /** Any state of any run: a watch launched in any way, a phone in any state it can be in from
      earlier sessions, and any steps. */
  ghost predicate Reachable(s: System) {
    exists id, outboxSize, launch, phone, steps ::
      && IsWatchId(id) && PR.Reachable(phone)
      && (forall i | 0 <= i < |phone.sessions| :: phone.sessions[i].id != id)
      && Possible(Start(id, outboxSize, launch, phone), steps)
      && s == Run(Start(id, outboxSize, launch, phone), steps)
  }

  lemma ReachableInv(s: System)
    requires Reachable(s)
    ensures SysInv(s)
  {
    hide WP.WatchInv, PP.Inv, W.Init, PR.Reachable, Run, Possible;
    var id, outboxSize, launch, phone, steps :|
      && IsWatchId(id) && PR.Reachable(phone)
      && (forall i | 0 <= i < |phone.sessions| :: phone.sessions[i].id != id)
      && Possible(Start(id, outboxSize, launch, phone), steps)
      && s == Run(Start(id, outboxSize, launch, phone), steps);
    PR.ReachableInv(phone);
    WP.InitEstablishesInv(id, outboxSize, launch);
    WF.InitFrame(id, outboxSize, launch);
    RunKeepsInv(Start(id, outboxSize, launch, phone), steps);
  }

  // ---- End to end ----

  /** Transcript safety.  In every run the only phone session with the watch's identifier sends at
      most one request, and any request carries exactly the watch's whole transcript under that
      identifier, never a part of it. */
  lemma TranscriptSafety(s: System, i: nat)
    requires Reachable(s) && i < |s.phone.sessions| && s.phone.sessions[i].id == s.watch.id
    ensures s.session == Some(i)
    ensures |s.phone.sessions[i].sends| <= 1
    ensures forall k | 0 <= k < |s.phone.sessions[i].sends| :: IsRequest(s.watch, s.phone.sessions[i].sends[k])
  {
    hide WP.WatchInv, PP.Carrier, PP.WireInv, PP.Phase, IsRequest, IsTranscript, Fills, Assembling;
    ReachableInv(s);
    assert PP.OwnerInv(s.phone, i);
  }

  /** Result safety.  Whenever the watch displays a result, its own session accepted one server
      frame with its identifier, the bytes are the UTF-8 form of that frame's whole response, at
      most 1024 of them and without NUL, the success flag is the frame's, and the request for it
      - with the whole transcript - had been sent, exactly once. */
  lemma ResultSafety(s: System)
    requires Reachable(s) && s.watch.app == W.DisplayingResult
    ensures s.session.Some? && s.session.value < |s.phone.sessions|
    ensures var o := s.phone.sessions[s.session.value];
            && o.id == s.watch.id
            && o.accepted.Some? && ParseServerFrame(o.accepted.value, s.watch.id).Result?
            && var r := ParseServerFrame(o.accepted.value, s.watch.id);
            && Decode16(r.response).Some?
            && s.watch.inc.buffer == Some(ToCText(r.response))
            && s.watch.inc.success == r.success
            && |ToCText(r.response)| <= MAX_RESPONSE_BYTES && 0 !in Decode16(r.response).value
            && |o.sends| == 1 && IsRequest(s.watch, o.sends[0])
  {
    hide WP.WatchInv, PP.Carrier, PP.WireInv, PP.Phase, IsRequest, IsTranscript, Assembling, ParseServerFrame, ResponseParts, Flatten,
         IsRequestId, Decode16, Utf8All;
    ReachableInv(s);
    ShownIsComplete(s.watch);
    var o := s.phone.sessions[s.session.value];
    assert PP.OwnerInv(s.phone, s.session.value);
    assert IsRequest(s.watch, o.sends[0]);
    ResultPayloadsAreComplete(o.id, true, o.outcome.response);
    var parts := ResponseParts(Decode16(o.outcome.response).value);
    assert parts[..|parts|] == parts;
  }

  lemma ShownIsComplete(w: W.Watch)
    requires WP.WatchInv(w) && w.app == W.DisplayingResult
    ensures w.inc.buffer.Some? && w.inc.next == w.inc.count
  {
    hide Decode8, WP.Planned;
  }
}
