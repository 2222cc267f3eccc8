/** What a callback of the watch may change, what a failure of the session reports, and when it
    leads to the exit. */
module WatchFrames {
  import opened Unicode
  import opened Messages
  import opened WatchCodec
  import opened WatchModel
  import opened WatchProofs

  // ---- What every callback may change ----

  /** Identity, captured transcript and outbox size are for good; a response being received is kept
      or dropped. */
  ghost predicate Keeps(s: Watch, t: Watch) {
    && t.id == s.id && t.outboxSize == s.outboxSize
    && (s.captured.Some? ==> t.captured == s.captured)
    && (t.inc == s.inc || t.inc == NO_INCOMING)
  }

  /** `t` has said at most one thing more than `s`, and only if the outbox was idle. */
  ghost predicate SaysAtMostOne(s: Watch, t: Watch) {
    && s.log <= t.log && |t.log| <= |s.log| + 1
    && (t.log == s.log || (s.outbox == OutboxNone && t.outbox != OutboxNone))
  }

  /** If the session fails, it fails with this status. */
  ghost predicate FailsWith(s: Watch, t: Watch, status: nat) {
    t.app == Error && !Terminal(s) ==> t.status == status
  }

  /** If the session fails, it says so at once if the outbox is free and takes the message, and as soon
      as the outbox is free otherwise; and its display leads on as the platform allows. */
  ghost predicate FailsFully(s: Watch, t: Watch, env: Env) {
    && (t.app == Error && !Terminal(s) && s.ready ==>
          if s.outbox != OutboxNone then t.endPending && t.outbox == s.outbox && t.log == s.log
          else if env.sendEnd then !t.endPending && t.outbox == OutboxSessionEnd && t.log == s.log + [EndMsg(s.id, t.status)]
          else !t.endPending && t.outbox == OutboxNone && t.log == s.log)
    && (t.app == Error && Staying(s) ==>
          && (t.exitTimer <==> env.statusAtOnce && env.exitTimerArmed)
          && (t.exited <==> env.statusAtOnce && !env.exitTimerArmed))
  }

  ghost predicate Frame(s: Watch, t: Watch, status: nat, env: Env) {
    Keeps(s, t) && SaysAtMostOne(s, t) && FailsWith(s, t, status) && FailsFully(s, t, env)
  }

  /** The error display will end unless its animation is cut short: it is about to become visible,
      its timer runs, or it is over. */
  predicate WillExit(s: Watch) {
    s.statusPending || s.exitTimer || s.exited
  }

  /** Neither the exit timer runs nor has the application left: true throughout a session. */
  predicate Staying(s: Watch) { !Terminal(s) && !s.exitTimer && !s.exited }

  ghost predicate Exits(s: Watch, t: Watch) {
    t.app == Error && Staying(s) ==> WillExit(t)
  }

  /** Everything these relations depend on is the same, but perhaps the response. */
  ghost predicate Alike(s: Watch, t: Watch) {
    && t.id == s.id && t.outboxSize == s.outboxSize && (s.captured.Some? ==> t.captured == s.captured)
    && t.log == s.log && t.outbox == s.outbox && t.ready == s.ready
    && (Terminal(t) <==> Terminal(s)) && t.exitTimer == s.exitTimer && t.exited == s.exited
  }

  lemma FrameFrom(s: Watch, t: Watch, u: Watch, status: nat, env: Env)
    requires Alike(s, t) && (t.inc == s.inc || u.inc == NO_INCOMING)
    requires Frame(t, u, status, env) && Exits(t, u)
    ensures Frame(s, u, status, env) && Exits(s, u)
  {
  }

  lemma NoFailure(s: Watch, t: Watch, status: nat, env: Env)
    requires Alike(s, t) && t.inc == s.inc && t.app != Error
    ensures Frame(s, t, status, env) && Exits(s, t)
  {
  }

  // ---- Failure ----

  lemma EndFrame(s: Watch, env: Env)
    ensures var t := TrySendEnd(s, env);
            && Keeps(s, t) && SaysAtMostOne(s, t)
            && t.inc == s.inc && t.app == s.app && t.status == s.status && t.exitTimer == s.exitTimer && t.exited == s.exited
  {
    if s.endPending && s.ready && s.outbox == OutboxNone {
      if env.sendEnd {
      }
    }
  }

  lemma EndIsSaid(s: Watch, env: Env)
    requires s.endPending && s.ready
    ensures var t := TrySendEnd(s, env);
            if s.outbox != OutboxNone then t == s
            else if env.sendEnd then !t.endPending && t.outbox == OutboxSessionEnd && t.log == s.log + [EndMsg(s.id, s.status)]
            else !t.endPending && t.outbox == OutboxNone && t.log == s.log
  {
  }

  lemma ShowFrame(s: Watch, env: Env)
    requires s.app == Error
    ensures var t := ShowErrorStatus(s, env);
            && Keeps(s, t) && t.log == s.log && t.outbox == s.outbox && t.endPending == s.endPending
            && t.inc == s.inc && t.app == s.app && t.status == s.status
            && (!s.exitTimer && !s.exited ==>
                  && WillExit(t) && (WillExit(ShowProgress(t)) <==> env.statusAtOnce)
                  && (t.exitTimer <==> env.statusAtOnce && env.exitTimerArmed)
                  && (t.exited <==> env.statusAtOnce && !env.exitTimerArmed))
  {
    if env.statusAtOnce {
      if env.exitTimerArmed {
      }
    }
  }

  /** A failure reports its status, says so, and leads to the exit - unless a progress status follows
      before its own display is complete. */
  lemma FailFrame(s: Watch, status: nat, env: Env)
    ensures Frame(s, Fail(s, status, env), status, env) && Exits(s, Fail(s, status, env))
    ensures !Terminal(s) ==> Fail(s, status, env).app == Error && Fail(s, status, env).inc == NO_INCOMING
    ensures Staying(s) ==> (WillExit(ShowProgress(Fail(s, status, env))) <==> env.statusAtOnce)
  {
    hide TrySendEnd, ShowErrorStatus, ShowProgress;
    if !Terminal(s) {
      var t := s.(app := Error, status := status, timers := DISARMED, dictationActive := false,
                  out := NO_OUTGOING, inc := NO_INCOMING, endPending := true);
      EndFrame(t, env);
      if s.ready {
        EndIsSaid(t, env);
      }
      ShowFrame(TrySendEnd(t, env), env);
    }
  }

  lemma LinkFailFrame(s: Watch, error: LinkError, env: Env)
    ensures Frame(s, LinkFail(s, error, env), LinkStatus(error), env) && Exits(s, LinkFail(s, error, env))
    ensures !Terminal(s) ==> LinkFail(s, error, env).app == Error && LinkFail(s, error, env).inc == NO_INCOMING
    ensures Staying(s) ==> (WillExit(ShowProgress(LinkFail(s, error, env))) <==> env.statusAtOnce)
  {
    hide Fail, Frame, Exits, WillExit, ShowProgress;
    var t := s.(link := LinkState.Failed, linkError := error);
    FailFrame(t, LinkStatus(error), env);
    FrameFrom(s, t, Fail(t, LinkStatus(error), env), LinkStatus(error), env);
  }

  lemma ServerFailFrame(s: Watch, error: ServerLinkError, env: Env)
    ensures Frame(s, ServerFail(s, error, env), ServerStatus(error), env) && Exits(s, ServerFail(s, error, env))
    ensures !Terminal(s) ==> ServerFail(s, error, env).app == Error
  {
    hide Fail, Frame, Exits;
    var t := s.(server := ServerFailed, serverError := error);
    FailFrame(t, ServerStatus(error), env);
    FrameFrom(s, t, Fail(t, ServerStatus(error), env), ServerStatus(error), env);
  }

  // ---- Sending ----

  /** The status of a session that fails because the outbox does not take a message. */
  function SendFailure(env: Env): nat {
    if env.send == NotConnected then STATUS_PHONE_CONNECTIVITY else STATUS_TRANSFER
  }

  lemma SameFrame(s: Watch, status: nat, env: Env)
    requires s.app != Error
    ensures Frame(s, s, status, env) && Exits(s, s)
  {
  }

  lemma SentFrame(s: Watch, out: Outgoing, message: WatchMsg, status: nat, env: Env)
    requires s.outbox == OutboxNone && s.app != Error
    ensures var t := s.(out := out, outbox := OutboxTranscriptChunk, log := s.log + [message]);
            Frame(s, t, status, env) && Exits(s, t)
  {
  }

  /** AppMessage is open and there is a next chunk. */
  predicate CanHandOver(s: Watch) { s.ready && NextLen(Rest(s.out), s.out.capacity) > 0 }

  predicate SendsNext(s: Watch) {
    s.app == Bridging && s.link == Transferring && s.beginDelivered && s.outbox == OutboxNone
  }

  lemma SendNextFrame(s: Watch, env: Env)
    requires s.app != Error && (SendsNext(s) ==> CanHandOver(s))
    ensures Frame(s, SendNextChunk(s, env), SendFailure(env), env) && Exits(s, SendNextChunk(s, env))
  {
    hide NextLen, Rest, CString, Fail, LinkFail, Frame, Exits;
    SameFrame(s, SendFailure(env), env);
    if SendsNext(s) {
      var n := NextLen(Rest(s.out), s.out.capacity);
      LinkFailFrame(s, LinkTransfer, env);
      LinkFailFrame(s, Connectivity, env);
      SentFrame(s, s.out.(inFlight := n), ChunkMsg(s.id, s.out.index, s.out.count, |s.out.text|, CString(Rest(s.out)[..n])), SendFailure(env), env);
    }
  }

  // ---- Dictation ----

  /** The status of a session that fails when its dictation ends. */
  function DictationCause(outboxSize: nat, status: DictationStatus, transcription: Option<seq<Byte>>, env: Env): nat {
    match status
    case Rejected => STATUS_CANCELLED
    case NoSpeech => STATUS_NO_SPEECH
    case ConnectivityError => STATUS_PHONE_CONNECTIVITY
    case OtherFailure => STATUS_DICTATION
    case Success =>
      if transcription.None? || CString(transcription.value) == [] then STATUS_NO_SPEECH
      else if env.memory && Prepare(CString(transcription.value), outboxSize).Some? then SendFailure(env)
      else STATUS_TRANSFER
  }

  lemma PlannedHandsOver(s: Watch, text: seq<Byte>)
    requires s.ready && Prepare(text, s.outboxSize).Some?
    ensures var plan := Prepare(text, s.outboxSize).value;
            CanHandOver(s.(out := Outgoing(text, plan.capacity, |plan.chunks|, 0, 0, 0)))
  {
    var plan := Prepare(text, s.outboxSize).value;
    SendPassAgrees(text, plan.capacity, 0);
    assert text[0..] == text;
  }

  lemma PlanFrame(s: Watch, text: seq<Byte>, env: Env)
    requires s.app == Dictating && s.captured == None && s.ready && Prepare(text, s.outboxSize).Some?
    ensures var plan := Prepare(text, s.outboxSize).value;
            var u := ShowProgress(s.(out := Outgoing(text, plan.capacity, |plan.chunks|, 0, 0, 0), captured := Some(text),
                                     app := Bridging, link := Transferring));
            Frame(s, SendNextChunk(u, env), SendFailure(env), env) && Exits(s, SendNextChunk(u, env))
  {
    hide SendNextChunk, Frame, Exits, Prepare, NextLen, SendFailure;
    var plan := Prepare(text, s.outboxSize).value;
    var u := ShowProgress(s.(out := Outgoing(text, plan.capacity, |plan.chunks|, 0, 0, 0), captured := Some(text),
                             app := Bridging, link := Transferring));
    PlannedHandsOver(s, text);
    SendNextFrame(u, env);
    FrameFrom(s, u, SendNextChunk(u, env), SendFailure(env), env);
  }

  lemma DictatingFrame(s: Watch, status: DictationStatus, transcription: Option<seq<Byte>>, env: Env)
    requires s.app == Dictating && s.captured == None && s.ready && !s.dictationActive
    ensures var t := DictationEnded(s, status, transcription, env);
            Frame(s, t, DictationCause(s.outboxSize, status, transcription, env), env) && Exits(s, t)
  {
    hide Fail, SendNextChunk, Prepare, CString, Frame, Exits, ShowProgress;
    assert s.(dictationActive := false) == s;
    if status != DictationStatus.Success {
      FailFrame(s, DictationFailure(status), env);
    } else if transcription.None? || CString(transcription.value) == [] {
      FailFrame(s, STATUS_NO_SPEECH, env);
    } else {
      var text := CString(transcription.value);
      FailFrame(s, STATUS_TRANSFER, env);
      if Prepare(text, s.outboxSize).Some? {
        PlanFrame(s, text, env);
      }
    }
  }

  lemma DictationFrame(s: Watch, status: DictationStatus, transcription: Option<seq<Byte>>, env: Env)
    requires !Terminal(s) && (s.app == Dictating ==> s.captured == None && s.ready)
    ensures var t := DictationEnded(s, status, transcription, env);
            Frame(s, t, DictationCause(s.outboxSize, status, transcription, env), env) && Exits(s, t)
  {
    hide DictationCause, Prepare, SendNextChunk, Frame, Exits, Fail, CString;
    var s0 := s.(dictationActive := false);
    var t := DictationEnded(s, status, transcription, env);
    var cause := DictationCause(s.outboxSize, status, transcription, env);
    if s.app != Dictating {
      NoFailure(s, s0, cause, env);
    } else {
      DictatingFrame(s0, status, transcription, env);
      assert t == DictationEnded(s0, status, transcription, env);
      FrameFrom(s, s0, t, cause, env);
    }
  }

  // ---- The outbox ----

  /** The status of a session that fails when an outbox message was sent. */
  function SentCause(s: Watch, env: Env): nat {
    if s.outbox == OutboxTranscriptChunk && s.out.index + 1 == s.out.count then STATUS_TRANSFER else SendFailure(env)
  }

  lemma BeginHandsOver(s: Watch)
    requires WatchInv(s) && s.app == Bridging && s.outbox == OutboxSessionBegin
    ensures CanHandOver(s)
  {
    hide NextLen, Prepare, Chunks, Script;
    PlanIsChunks(s);
    SendPassAgrees(s.captured.value, s.out.capacity, 0);
  }

  lemma BeginSentFrame(s: Watch, env: Env)
    requires WatchInv(s) && !Terminal(s) && s.outbox == OutboxSessionBegin
    ensures Frame(s.(outbox := OutboxNone), OutboxSent(s, env), SentCause(s, env), env)
         && Exits(s.(outbox := OutboxNone), OutboxSent(s, env))
  {
    hide SendNextChunk, Frame, Exits, WatchInv, NextLen, SendFailure;
    var t := s.(outbox := OutboxNone);
    var u := t.(beginDelivered := true, link := if s.link == SessionBeginPending then Ready else s.link);
    if s.app == Bridging {
      BeginHandsOver(s);
    }
    SendNextFrame(u, env);
    FrameFrom(t, u, SendNextChunk(u, env), SendFailure(env), env);
  }

  lemma DeliveredFrame(t: Watch, env: Env)
    requires t.app == Bridging
    ensures var u := t.(out := NO_OUTGOING, link := AwaitingSendStart);
            var v := if env.timerArmed then u.(timers := u.timers.(sendStart := true)) else LinkFail(u, LinkTransfer, env);
            Frame(t, v, STATUS_TRANSFER, env) && Exits(t, v)
  {
    hide LinkFail, Frame, Exits;
    var u := t.(out := NO_OUTGOING, link := AwaitingSendStart);
    if env.timerArmed {
      NoFailure(t, u.(timers := u.timers.(sendStart := true)), STATUS_TRANSFER, env);
    } else {
      LinkFailFrame(u, LinkTransfer, env);
      FrameFrom(t, u, LinkFail(u, LinkTransfer, env), STATUS_TRANSFER, env);
    }
  }

  lemma ChunkHandsOver(s: Watch)
    requires WatchInv(s) && s.app == Bridging && s.outbox == OutboxTranscriptChunk && s.out.index + 1 < s.out.count
    ensures CanHandOver(s.(out := s.out.(offset := s.out.offset + s.out.inFlight, index := s.out.index + 1, inFlight := 0)))
  {
    hide NextLen, Prepare, Chunks, Script;
    PlanIsChunks(s);
    SendPassAgrees(s.captured.value, s.out.capacity, s.out.index);
    SendPassAgrees(s.captured.value, s.out.capacity, s.out.index + 1);
  }

  /** An acknowledged chunk, in phase. */
  lemma ChunkSentFrame(s: Watch, env: Env)
    requires WatchInv(s) && s.app == Bridging && s.link == Transferring && s.outbox == OutboxTranscriptChunk && s.out.index < s.out.count
    ensures Frame(s.(outbox := OutboxNone), OutboxSent(s, env), SentCause(s, env), env) && Exits(s.(outbox := OutboxNone), OutboxSent(s, env))
  {
    hide SendNextChunk, LinkFail, Frame, Exits, WatchInv, NextLen, SendFailure;
    var t := s.(outbox := OutboxNone);
    var o := s.out.(offset := s.out.offset + s.out.inFlight, index := s.out.index + 1, inFlight := 0);
    if o.index < o.count {
      ChunkHandsOver(s);
      SendNextFrame(t.(out := o), env);
      FrameFrom(t, t.(out := o), SendNextChunk(t.(out := o), env), SendFailure(env), env);
    } else {
      DeliveredFrame(t, env);
    }
  }

  lemma FailedOutboxFrame(s: Watch, notConnected: bool, env: Env)
    requires !Terminal(s)
    ensures Frame(s.(outbox := OutboxNone), OutboxFailed(s, notConnected, env),
                  if notConnected then STATUS_PHONE_CONNECTIVITY else STATUS_TRANSFER, env)
         && Exits(s.(outbox := OutboxNone), OutboxFailed(s, notConnected, env))
  {
    hide LinkFail, Frame, Exits, TrySendEnd;
    LinkFailFrame(s.(outbox := OutboxNone), if notConnected then Connectivity else LinkTransfer, env);
  }

  // ---- Receiving ----

  /** The one way to lose the exit: `SEND_STARTED` arrives in phase, its watchdog cannot be
      registered, and the error status is still animating when the progress status replaces it. */
  predicate LosesExit(s: Watch, e: Event, env: Env) {
    && e.Inbox?
    && s.app == Bridging && s.link == AwaitingSendStart
    && IdMatches(s, e.dict)
    && ToUint32(e.dict, ProtocolVersion) == Some(PROTOCOL_VERSION)
    && ToUint32(e.dict, MessageType) == Some(SEND_STARTED)
    && !env.timerArmed
    && !env.statusAtOnce
  }

  lemma ProgressFrame(s: Watch, t: Watch, status: nat, env: Env)
    requires Frame(s, t, status, env)
    ensures Frame(s, ShowProgress(t), status, env)
  {
  }

  function StartedCause(s: Watch): nat {
    if s.app == Bridging && s.link == AwaitingSendStart then STATUS_TRANSFER else STATUS_PROTOCOL
  }

  lemma SendStartedFrame(s: Watch, env: Env)
    requires Staying(s) && (s.app == Bridging && s.link == AwaitingSendStart ==> s.server == Preparing)
    ensures var t := ReceiveSendStarted(s, env);
            && Frame(s, t, StartedCause(s), env)
            && (t.app == Error ==>
                  (WillExit(t) <==> !(s.app == Bridging && s.link == AwaitingSendStart && !env.timerArmed && !env.statusAtOnce)))
  {
    hide LinkFail, ShowProgress, Frame, WillExit;
    if s.app != Bridging || s.link != AwaitingSendStart || s.server != Preparing {
      LinkFailFrame(s, LinkProtocol, env);
    } else {
      var t := s.(timers := s.timers.(sendStart := false), link := AwaitingResult, server := ServerAwaitingResult);
      if env.timerArmed {
        NoFailure(s, t.(timers := t.timers.(request := true)), STATUS_TRANSFER, env);
        ProgressFrame(s, t.(timers := t.timers.(request := true)), STATUS_TRANSFER, env);
        ProgressKeepsApp(t.(timers := t.timers.(request := true)));
      } else {
        LinkFailFrame(t, LinkTransfer, env);
        FrameFrom(s, t, LinkFail(t, LinkTransfer, env), STATUS_TRANSFER, env);
        ProgressFrame(s, LinkFail(t, LinkTransfer, env), STATUS_TRANSFER, env);
      }
    }
  }

  lemma ProgressKeepsApp(s: Watch)
    ensures ShowProgress(s).app == s.app
  {
  }

  /** A reported status is taken over if it is one the phone may report. */
  function ReportedCause(d: Dict): nat {
    match ToUint32(d, StatusCode)
    case Some(status) => if STATUS_PHONE_CONNECTIVITY <= status <= STATUS_SERVER_RESULT_TIMEOUT then status else STATUS_PROTOCOL
    case None => STATUS_PROTOCOL
  }

  lemma FailureFrame(s: Watch, d: Dict, env: Env)
    requires !Terminal(s)
    ensures Frame(s, ReceiveFailure(s, d, env), ReportedCause(d), env) && Exits(s, ReceiveFailure(s, d, env))
  {
    hide LinkFail, ServerFail, Frame, Exits, ToUint32;
    LinkFailFrame(s, LinkProtocol, env);
    LinkFailFrame(s, Connectivity, env);
    LinkFailFrame(s, LinkTransfer, env);
    ServerFailFrame(s, ServerProtocol, env);
    ServerFailFrame(s, ServerReported, env);
    ServerFailFrame(s, ServerResultTimeout, env);
  }

  // A platform that grants everything.
  const GENEROUS := Env(Sent, true, true, true, true, true, true, true)

  /** The platform alone is to blame for the refusal: it has no memory for the first chunk, or the
      chunk is one that a platform which grants everything would have accepted. */
  predicate PlatformFault(s: Watch, d: Dict, env: Env) {
    || (s.app == Bridging && s.link == AwaitingResult && ReadResultChunk(d).Some? && ReadResultChunk(d).value.index == 0 && !env.memory)
    || ReceiveResultChunk(s, d, GENEROUS).1
  }

  function ResultCause(s: Watch, d: Dict, env: Env): nat {
    if PlatformFault(s, d, env) then STATUS_TRANSFER else STATUS_PROTOCOL
  }

  lemma EndingFault(s: Watch, env: Env)
    ensures !FinishResult(s, env).1 ==> FinishResult(s, env).0.linkError == LinkTransfer
    ensures !AwaitMoreResult(s, env).1 ==> AwaitMoreResult(s, env).0.linkError == LinkTransfer
  {
    hide ShowResult;
    if env.timerArmed {
    }
  }

  lemma GenerousEnding(s: Watch)
    ensures FinishResult(s, GENEROUS).1 && AwaitMoreResult(s, GENEROUS).1
  {
    hide ShowResult;
    ShownIff(s.(link := LinkState.Complete, timers := s.timers.(resultChunk := false)), GENEROUS);
  }

  lemma ShownIff(s: Watch, env: Env)
    ensures ShowResult(s, env).1 <==> env.resultShown && env.resultTimerArmed
    ensures ShowResult(s, env).0.inc == s.inc && ShowResult(s, env).0.link == s.link
  {
    if !env.resultShown {
    } else if !env.resultTimerArmed {
    }
  }

  /** The end of a stored chunk, last or not, leaves the response as it is. */
  lemma EndingKeeps(s: Watch, env: Env)
    ensures FinishResult(s, env).0.inc == s.inc && AwaitMoreResult(s, env).0.inc == s.inc
  {
    hide ShowResult;
    ShownIff(s.(link := LinkState.Complete, timers := s.timers.(resultChunk := false)), env);
    if env.timerArmed {
    }
  }

  lemma StoreFault(s: Watch, c: ResultChunk, env: Env)
    requires s.linkError == NoLinkError
    ensures var (t, accepted) := StoreChunk(s, c, env);
            !accepted ==> t.linkError == if StoreChunk(s, c, GENEROUS).1 then LinkTransfer else NoLinkError
  {
    hide FinishResult, AwaitMoreResult;
    var have := if s.inc.buffer.Some? then s.inc.buffer.value else [];
    EndingFault(s.(inc := s.inc.(buffer := Some(have + c.text), next := s.inc.next + 1)), env);
    GenerousEnding(s.(inc := s.inc.(buffer := Some(have + c.text), next := s.inc.next + 1)));
  }

  lemma OpenFault(s: Watch, c: ResultChunk, env: Env)
    requires s.linkError == NoLinkError
    ensures var (t, begun) := OpenResult(s, c, env);
            && t.linkError == (if s.link == AwaitingResult && c.index == 0 && !env.memory then LinkTransfer else NoLinkError)
            && (begun ==> t.linkError == NoLinkError && OpenResult(s, c, GENEROUS) == (t, true))
            && (!begun ==> t.linkError == LinkTransfer || !OpenResult(s, c, GENEROUS).1)
  {
    if s.link == AwaitingResult {
      if c.index == 0 {
      }
    }
  }

  lemma ReceivedFault(s: Watch, d: Dict, env: Env)
    requires s.linkError == NoLinkError
    ensures var (t, accepted) := ReceiveResultChunk(s, d, env);
            !accepted ==> t.linkError == if PlatformFault(s, d, env) then LinkTransfer else NoLinkError
  {
    hide ReadResultChunk, OpenResult, StoreChunk;
    var r := ReadResultChunk(d);
    if r.Some? {
      OpenFault(s, r.value, env);
      if OpenResult(s, r.value, env).1 {
        StoreFault(OpenResult(s, r.value, env).0, r.value, env);
      }
    }
  }

  /** A refused result chunk drops what was received before it. */
  lemma RefusedFrame(s: Watch, d: Dict, env: Env)
    requires Staying(s) && s.linkError == NoLinkError && !ReceiveResultChunk(s, d, env).1
    ensures var t := ReceiveResultChunk(s, d, env).0;
            var u := LinkFail(t, if t.linkError == NoLinkError then LinkProtocol else t.linkError, env);
            Frame(s, u, ResultCause(s, d, env), env) && Exits(s, u)
  {
    hide ReceiveResultChunk, LinkFail, Frame, Exits, PlatformFault;
    var t := ReceiveResultChunk(s, d, env).0;
    ReceiveFrame(s, d, env);
    ReceivedFault(s, d, env);
    var error := if t.linkError == NoLinkError then LinkProtocol else t.linkError;
    LinkFailFrame(t, error, env);
    FrameFrom(s, t, LinkFail(t, error, env), LinkStatus(error), env);
  }

  predicate IsResultFor(s: Watch, d: Dict) {
    IdMatches(s, d) && ToUint32(d, MessageType) == Some(SERVER_RESULT_CHUNK)
  }

  /** The one callback that changes the response being received: an accepted result chunk. */
  ghost predicate AcceptsResult(s: Watch, e: Event, env: Env, t: Watch) {
    e.Inbox? && !Terminal(s) && IsResultFor(s, e.dict) && ReceiveResultChunk(s, e.dict, env) == (t, true)
  }

  /** The status of a session that fails because of a message. */
  function InboxCause(s: Watch, d: Dict, env: Env): nat {
    if RequestId !in d || ToUint32(d, ProtocolVersion) != Some(PROTOCOL_VERSION) then STATUS_PROTOCOL
    else
      match ToUint32(d, MessageType)
      case None => STATUS_PROTOCOL
      case Some(kind) =>
        if kind == SEND_STARTED then StartedCause(s)
        else if kind == SERVER_RESULT_CHUNK then ResultCause(s, d, env)
        else if kind == FAILURE then ReportedCause(d)
        else STATUS_PROTOCOL
  }

  lemma InboxFrame(s: Watch, d: Dict, env: Env)
    requires Staying(s) && s.linkError == NoLinkError && (s.app == Bridging && s.link == AwaitingSendStart ==> s.server == Preparing)
    ensures var t := InboxReceived(s, d, env);
            || AcceptsResult(s, Inbox(d), env, t)
            || (&& Frame(s, t, InboxCause(s, d, env), env)
                && (t.app == Error ==> (WillExit(t) <==> !LosesExit(s, Inbox(d), env))))
  {
    hide Fail, LinkFail, ReceiveSendStarted, ReceiveFailure, ReceiveResultChunk, ToUint32, Frame, WillExit, ResultCause, StartedCause, ReportedCause;
    FailFrame(s, STATUS_PROTOCOL, env);
    LinkFailFrame(s, LinkProtocol, env);
    SameFrame(s, InboxCause(s, d, env), env);
    SendStartedFrame(s, env);
    FailureFrame(s, d, env);
    if !ReceiveResultChunk(s, d, env).1 {
      RefusedFrame(s, d, env);
    }
  }

  // ---- Every callback ----

  /** The status with which a callback fails the session, if it does. */
  function Cause(s: Watch, e: Event, env: Env): nat {
    match e
    case Dictation(status, transcription) => DictationCause(s.outboxSize, status, transcription, env)
    case OutboxSentEvent => SentCause(s, env)
    case OutboxFailedEvent(notConnected) => if notConnected then STATUS_PHONE_CONNECTIVITY else STATUS_TRANSFER
    case Inbox(d) => InboxCause(s, d, env)
    case SendStartExpired => STATUS_TRANSCRIPT_DELIVERY_TIMEOUT
    case RequestExpired => STATUS_WS_REQUEST_TIMEOUT
    case ResultChunkExpired => STATUS_RESULT_TRANSFER_TIMEOUT
    case Back => STATUS_CANCELLED
    case _ => STATUS_TRANSFER
  }

  lemma TimerFrames(s: Watch, env: Env)
    requires !Terminal(s)
    ensures Frame(s, TranscriptDeliveryTimeout(s, env), STATUS_TRANSCRIPT_DELIVERY_TIMEOUT, env) && Exits(s, TranscriptDeliveryTimeout(s, env))
    ensures Frame(s, WsRequestTimeout(s, env), STATUS_WS_REQUEST_TIMEOUT, env) && Exits(s, WsRequestTimeout(s, env))
    ensures Frame(s, ResultChunkTimeout(s, env), STATUS_RESULT_TRANSFER_TIMEOUT, env) && Exits(s, ResultChunkTimeout(s, env))
  {
    hide LinkFail, ServerFail, Frame, Exits;
    var t, u, v := s.(timers := s.timers.(sendStart := false)), s.(timers := s.timers.(request := false)), s.(timers := s.timers.(resultChunk := false));
    LinkFailFrame(t, SendStartTimeout, env);
    FrameFrom(s, t, LinkFail(t, SendStartTimeout, env), STATUS_TRANSCRIPT_DELIVERY_TIMEOUT, env);
    ServerFailFrame(u, ServerRequestTimeout, env);
    FrameFrom(s, u, ServerFail(u, ServerRequestTimeout, env), STATUS_WS_REQUEST_TIMEOUT, env);
    LinkFailFrame(v, ResultTransferTimeout, env);
    FrameFrom(s, v, LinkFail(v, ResultTransferTimeout, env), STATUS_RESULT_TRANSFER_TIMEOUT, env);
  }

  lemma ActiveInv(s: Watch)
    requires WatchInv(s) && !Terminal(s)
    ensures Staying(s) && s.linkError == NoLinkError && !s.statusPending
    ensures s.app == Bridging && s.link == AwaitingSendStart ==> s.server == Preparing
    ensures s.app == Dictating ==> s.captured == None && s.ready
    ensures s.outbox == OutboxSessionBegin || s.outbox == OutboxNone || (s.app == Bridging && s.link == Transferring && s.outbox == OutboxTranscriptChunk && s.out.index < s.out.count)
  {
    hide Plannable, Script, Decode8;
  }

  /** The outbox as the callback finds it: a callback that reports the end of a message frees it. */
  function Found(s: Watch, e: Event): Watch {
    if e.OutboxSentEvent? || e.OutboxFailedEvent? then s.(outbox := OutboxNone) else s
  }

  /** While the session is active every callback keeps the frame, names its cause when it fails the
      session, and then leads to the exit in all cases but one. */
  lemma ActiveFrame(s: Watch, e: Event, env: Env)
    requires WatchInv(s) && !Terminal(s) && Enabled(s, e)
    ensures var t := Step(s, e, env);
            || AcceptsResult(s, e, env, t)
            || (&& Frame(Found(s, e), t, Cause(s, e, env), env)
                && (t.app == Error ==> (WillExit(t) <==> !LosesExit(s, e, env))))
  {
    hide WatchInv, Frame, WillExit, DictationCause, SentCause, InboxCause, DictationEnded, OutboxSent, OutboxFailed, InboxReceived, ReceiveResultChunk, IsResultFor,
         LinkFail, Fail, TranscriptDeliveryTimeout, WsRequestTimeout, ResultChunkTimeout, ToUint32, IdMatches;
    ActiveInv(s);
    TimerFrames(s, env);
    match e
    case Dictation(result, transcription) => DictationFrame(s, result, transcription, env);
    case OutboxSentEvent =>
      if s.outbox == OutboxSessionBegin {
        BeginSentFrame(s, env);
      } else {
        ChunkSentFrame(s, env);
      }
    case OutboxFailedEvent(notConnected) => FailedOutboxFrame(s, notConnected, env);
    case Inbox(d) => InboxFrame(s, d, env);
    case InboxDropped => LinkFailFrame(s, LinkTransfer, env);
    case Back => FailFrame(s, STATUS_CANCELLED, env);
    case _ => SameFrame(s, Cause(s, e, env), env);
  }

  lemma InitFrame(id: seq<Byte>, outboxSize: nat, launch: Launch)
    ensures Init(id, outboxSize, launch).id == id && Init(id, outboxSize, launch).inc == NO_INCOMING
  {
    hide Fail, Exits, SaysAtMostOne, FailsWith;
    var s := Blank(id).(outboxSize := outboxSize);
    var t := s.(ready := true);
    var u := t.(app := Dictating, link := SessionBeginPending, server := Preparing);
    FailFrame(s, STATUS_PHONE_CONNECTIVITY, launch.env);
    FailFrame(s, STATUS_TRANSFER, launch.env);
    FailFrame(t, STATUS_DICTATION, launch.env);
    FailFrame(u, STATUS_PHONE_CONNECTIVITY, launch.env);
    FailFrame(u, STATUS_TRANSFER, launch.env);
    FailFrame(u.(outbox := OutboxSessionBegin, log := [BeginMsg(id)]), STATUS_DICTATION, launch.env);
  }

  // ---- After the end ----

  /** An application in the error state ignores everything but its outbox and its display. */
  lemma ErrorAbsorbs(s: Watch, env: Env)
    requires s.app == Error
    ensures forall status :: Fail(s, status, env) == s
    ensures forall d :: InboxReceived(s, d, env) == s
    ensures forall result, text :: DictationEnded(s, result, text, env) == s.(dictationActive := false)
  {
    hide ReceiveResultChunk, ReceiveFailure, ReceiveSendStarted, SendNextChunk, Prepare;
  }

  /** What no callback changes once the session has ended. */
  ghost predicate Settled(s: Watch, t: Watch) {
    t.app == s.app && t.status == s.status && t.inc == s.inc && t.captured == s.captured && t.id == s.id && t.outboxSize == s.outboxSize
  }

  /** Nothing said, and the exit as far away as before. */
  ghost predicate Rests(s: Watch, t: Watch) {
    Settled(s, t) && t.log == s.log && (WillExit(t) <==> WillExit(s))
  }

  lemma EndSettles(s: Watch, env: Env)
    ensures var t := TrySendEnd(s, env);
            Settled(s, t) && SaysAtMostOne(s, t) && (WillExit(t) <==> WillExit(s))
  {
  }

  lemma ErrorOutbox(s: Watch, env: Env, notConnected: bool)
    requires s.app == Error
    ensures var t, u := OutboxSent(s, env), OutboxFailed(s, notConnected, env); var s0 := s.(outbox := OutboxNone);
            && Settled(s, t) && SaysAtMostOne(s0, t) && (WillExit(t) <==> WillExit(s))
            && Settled(s, u) && SaysAtMostOne(s0, u) && (WillExit(u) <==> WillExit(s))
  {
    hide SendNextChunk, TrySendEnd, LinkFail;
    EndSettles(s.(outbox := OutboxNone), env);
  }

  lemma ErrorFailures(s: Watch, env: Env, error: LinkError, fault: ServerLinkError)
    requires s.app == Error
    ensures Rests(s, LinkFail(s, error, env)) && Rests(s, ServerFail(s, fault, env))
  {
    hide TrySendEnd, ShowErrorStatus;
  }

  lemma ErrorTimers(s: Watch, env: Env)
    requires s.app == Error
    ensures Rests(s, TranscriptDeliveryTimeout(s, env)) && Rests(s, WsRequestTimeout(s, env)) && Rests(s, ResultChunkTimeout(s, env))
  {
    hide LinkFail, ServerFail;
    ErrorFailures(s.(timers := s.timers.(sendStart := false)), env, SendStartTimeout, ServerRequestTimeout);
    ErrorFailures(s.(timers := s.timers.(request := false)), env, SendStartTimeout, ServerRequestTimeout);
    ErrorFailures(s.(timers := s.timers.(resultChunk := false)), env, ResultTransferTimeout, ServerRequestTimeout);
  }

  lemma ErrorDisplay(s: Watch, env: Env)
    requires s.app == Error
    ensures s.statusPending ==> Rests(s, StatusVisible(s.(statusPending := false), env))
    ensures s.exitTimer ==> Rests(s, ExitAfterError(s))
    ensures var t := DropStatus(s); Settled(s, t) && t.log == s.log && (WillExit(t) <==> s.exitTimer || s.exited)
    ensures Rests(s, s) && Rests(s, s.(dictationActive := false))
  {
    if env.exitTimerArmed {
    }
  }

  lemma RestsSaysNothing(s: Watch, e: Event, t: Watch)
    requires t.log == s.log
    ensures SaysAtMostOne(Found(s, e), t)
  {
  }

  lemma ErrorFrame(s: Watch, e: Event, env: Env)
    requires s.app == Error && Enabled(s, e)
    ensures var t := Step(s, e, env);
            && Settled(s, t) && SaysAtMostOne(Found(s, e), t)
            && (WillExit(t) <==> if e == StatusDropped then s.exitTimer else WillExit(s))
  {
    hide Fail, LinkFail, InboxReceived, DictationEnded, OutboxSent, OutboxFailed, StatusVisible, DropStatus, ExitAfterError,
         TranscriptDeliveryTimeout, WsRequestTimeout, ResultChunkTimeout, Settled, WillExit, SaysAtMostOne;
    ErrorAbsorbs(s, env);
    match e
    case OutboxFailedEvent(notConnected) => ErrorOutbox(s, env, notConnected);
    case OutboxSentEvent => ErrorOutbox(s, env, false);
    case _ =>
      ErrorFailures(s, env, LinkTransfer, NoServerError);
      ErrorTimers(s, env);
      ErrorDisplay(s, env);
      RestsSaysNothing(s, e, Step(s, e, env));
  }

  lemma DisplayFrame(s: Watch, e: Event, env: Env)
    requires WatchInv(s) && s.app == DisplayingResult && Enabled(s, e)
    ensures var t := Step(s, e, env);
            && Settled(s, t) && t.log == s.log
            && (if e == InboxDropped then t.link == LinkState.Failed else t.link == s.link)
  {
    hide Spoken, Script, Plannable, Decode8, SendNextChunk, ReceiveResultChunk, ReceiveFailure, ReceiveSendStarted, Prepare;
  }

  lemma SettledKeeps(s: Watch, t: Watch)
    requires Settled(s, t)
    ensures Keeps(s, t)
  {
  }

  lemma FoundKeeps(s: Watch, e: Event, t: Watch)
    ensures Keeps(Found(s, e), t) <==> Keeps(s, t)
  {
    if e.OutboxSentEvent? || e.OutboxFailedEvent? {
    }
  }

  lemma SaysNothing(s: Watch, t: Watch)
    requires t.log == s.log
    ensures SaysAtMostOne(s, t)
  {
  }

  /** In every state a callback keeps what was captured, keeps or drops what is being received, and
      says at most one thing, unless it accepts a result chunk. */
  lemma StepFrame(s: Watch, e: Event, env: Env)
    requires WatchInv(s) && Enabled(s, e)
    ensures var t := Step(s, e, env);
            || AcceptsResult(s, e, env, t)
            || (Keeps(s, t) && SaysAtMostOne(Found(s, e), t))
  {
    hide WatchInv, WillExit, LosesExit, Cause, Step, Enabled, AcceptsResult, Keeps, SaysAtMostOne, Settled;
    if s.app == Error {
      ErrorFrame(s, e, env);
      SettledKeeps(s, Step(s, e, env));
    } else if s.app == DisplayingResult {
      DisplayFrame(s, e, env);
      SettledKeeps(s, Step(s, e, env));
      SaysNothing(Found(s, e), Step(s, e, env));
    } else {
      ActiveFrame(s, e, env);
      FoundKeeps(s, e, Step(s, e, env));
    }
  }

  /** Whatever is captured was planned. */
  lemma CapturedIsPlannable(s: Watch)
    requires WatchInv(s)
    ensures CapturedOk(s.captured, s.outboxSize) && Spoken(s.id, s.captured, s.outboxSize, s.status, s.log)
  {
    hide Plannable, Decode8;
  }

  /** Each message in the log is the one its place in the script says, or the final `SESSION_END`. */
  lemma LogEntry(s: Watch, n: nat)
    requires WatchInv(s) && n < |s.log|
    ensures match s.log[n]
            case BeginMsg(id) => n == 0 && id == s.id
            case ChunkMsg(_, _, _, _, _) =>
              && n > 0 && Planned(s) && n <= |PlannedChunks(s)|
              && s.log[n] == ChunkMsg(s.id, n - 1, |PlannedChunks(s)|, |s.captured.value|, PlannedChunks(s)[n - 1])
            case EndMsg(_, _) => true
  {
    hide WatchInv, Plannable, ChunksOf;
    CapturedIsPlannable(s);
    var script := Script(s.id, s.captured, s.outboxSize);
    if n < |s.log| - 1 || !s.log[n].EndMsg? {
      assert s.log[n] == script[n];
    }
  }
}
