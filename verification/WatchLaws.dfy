/** What each callback of the watch does, in every reachable state: when it fails the session, how the
    session is ended then, when it is ignored, and how it advances the session otherwise. */
module WatchLaws {
  import opened Unicode
  import opened Messages
  import opened WatchCodec
  import opened WatchModel
  import opened WatchProofs
  import opened WatchFrames
  import opened WatchRuns

  // ---- Failing ----

  /** A callback that fails the session says so with `SESSION_END` and the final status: at once, and
      as the last message, if the outbox is free and takes it; as soon as it is free, if it is not. */
  lemma FailureIsAnnounced(s: Watch, e: Event, env: Env)
    requires Reachable(s) && !Terminal(s) && Enabled(s, e) && Step(s, e, env).app == Error
    ensures var t := Step(s, e, env); var free := s.outbox == OutboxNone || e.OutboxSentEvent? || e.OutboxFailedEvent?;
            if !free then t.endPending && t.outbox == s.outbox && t.log == s.log
            else if env.sendEnd then !t.endPending && t.outbox == OutboxSessionEnd && t.log == s.log + [EndMsg(s.id, t.status)]
            else !t.endPending && t.outbox == OutboxNone && t.log == s.log
    ensures var t := Step(s, e, env);
            && (t.exitTimer <==> env.statusAtOnce && env.exitTimerArmed)
            && (t.exited <==> env.statusAtOnce && !env.exitTimerArmed)
  {
    hide WatchInv, Step, Reachable, Keeps, SaysAtMostOne, FailsWith, IsResultFor, ReceiveResultChunk, WillExit, LosesExit, Cause, Enabled;
    ReachableInv(s);
    ActiveInv(s);
    ActiveIsReady(s);
    ActiveFrame(s, e, env);
    if e.Inbox? {
      ReceiveFrame(s, e.dict, env);
    }
  }

  lemma ActiveIsReady(s: Watch)
    requires WatchInv(s) && !Terminal(s)
    ensures s.ready
  {
    hide Plannable, Script, Decode8;
  }

  /** In the error state the announcement that is still to come is made by the callback that frees the
      outbox, if the outbox takes it; nothing else makes or loses it. */
  lemma AnnouncementFollows(s: Watch, e: Event, env: Env)
    requires Reachable(s) && s.app == Error && Enabled(s, e)
    ensures var t := Step(s, e, env); var frees := e.OutboxSentEvent? || e.OutboxFailedEvent?;
            if !frees then t.endPending == s.endPending && t.outbox == s.outbox && t.log == s.log
            else if s.endPending && env.sendEnd then !t.endPending && t.outbox == OutboxSessionEnd && t.log == s.log + [EndMsg(s.id, s.status)]
            else !t.endPending && t.outbox == OutboxNone && t.log == s.log
  {
    hide Reachable;
    ReachableInv(s);
    if e.OutboxSentEvent? || e.OutboxFailedEvent? {
      ErrorFrees(s, e, env);
    } else {
      ErrorKeeps(s, e, env);
    }
  }

  lemma ErrorFrees(s: Watch, e: Event, env: Env)
    requires WatchInv(s) && s.app == Error && Enabled(s, e) && (e.OutboxSentEvent? || e.OutboxFailedEvent?)
    ensures var t := Step(s, e, env);
            if s.endPending && env.sendEnd then !t.endPending && t.outbox == OutboxSessionEnd && t.log == s.log + [EndMsg(s.id, s.status)]
            else !t.endPending && t.outbox == OutboxNone && t.log == s.log
  {
    hide TrySendEnd, Spoken, OnScript, SendNextChunk, LinkFail;
    if s.endPending {
      WatchFrames.EndIsSaid(s.(outbox := OutboxNone), env);
    } else {
      NothingToSay(s.(outbox := OutboxNone), env);
    }
  }

  lemma NothingToSay(s: Watch, env: Env)
    requires !s.endPending
    ensures TrySendEnd(s, env) == s
  {
  }

  /** Nothing said, nothing announced, and the outbox as it was. */
  ghost predicate Silent(s: Watch, t: Watch) {
    t.endPending == s.endPending && t.outbox == s.outbox && t.log == s.log
  }

  lemma ErrorKeeps(s: Watch, e: Event, env: Env)
    requires s.app == Error && Enabled(s, e) && !e.OutboxSentEvent? && !e.OutboxFailedEvent?
    ensures Silent(s, Step(s, e, env))
  {
    hide LinkFail, InboxReceived, DictationEnded, StatusVisible, DropStatus, ExitAfterError, BackClick, CancelResultTimeout, ResultBackClick,
         TranscriptDeliveryTimeout, WsRequestTimeout, ResultChunkTimeout, Silent, Enabled;
    SelfIsSilent(s, env);
    match e
    case Dictation(_, _) => ErrorAbsorbs(s, env);
    case Inbox(_) => ErrorAbsorbs(s, env);
    case Back => BackKeepsAll(s, env);
    case InboxDropped => LinkKeepsAll(s, LinkTransfer, env);
    case _ => TimersKeepAll(s, env);
  }

  lemma SelfIsSilent(s: Watch, env: Env)
    requires s.app == Error
    ensures Silent(s, s) && Silent(s, s.(dictationActive := false)) && Silent(s, DropStatus(s)) && Silent(s, ExitAfterError(s))
    ensures CancelResultTimeout(s) == s && ResultBackClick(s) == s && Silent(s, StatusVisible(s.(statusPending := false), env))
  {
    hide StatusVisible;
    VisibleKeepsAll(s.(statusPending := false), env);
  }

  lemma TimersKeepAll(s: Watch, env: Env)
    requires s.app == Error
    ensures Silent(s, TranscriptDeliveryTimeout(s, env)) && Silent(s, WsRequestTimeout(s, env)) && Silent(s, ResultChunkTimeout(s, env))
  {
    hide LinkFail, ServerFail;
    LinkKeepsAll(s.(timers := s.timers.(sendStart := false)), SendStartTimeout, env);
    ServerKeepsAll(s.(timers := s.timers.(request := false)), ServerRequestTimeout, env);
    LinkKeepsAll(s.(timers := s.timers.(resultChunk := false)), ResultTransferTimeout, env);
  }

  lemma BackKeepsAll(s: Watch, env: Env)
    requires s.app == Error
    ensures Silent(s, BackClick(s, env))
  {
  }

  lemma LinkKeepsAll(s: Watch, error: LinkError, env: Env)
    requires s.app == Error
    ensures Silent(s, LinkFail(s, error, env))
  {
    hide TrySendEnd, ShowErrorStatus;
  }

  lemma ServerKeepsAll(s: Watch, fault: ServerLinkError, env: Env)
    requires s.app == Error
    ensures Silent(s, ServerFail(s, fault, env))
  {
    hide TrySendEnd, ShowErrorStatus;
  }

  lemma VisibleKeepsAll(s: Watch, env: Env)
    ensures Silent(s, StatusVisible(s, env))
  {
    if s.app == Error {
      if env.exitTimerArmed {
      }
    }
  }

  // ---- Messages ----

  /** The message names the watch's own request. */
  predicate IsOwn(s: Watch, d: Dict) {
    RequestId in d && d[RequestId] == CStringTuple(s.id + [0])
  }

  /** A message of another request is ignored, in every state and whatever it says. */
  lemma ForeignIsIgnored(s: Watch, d: Dict, env: Env)
    requires Reachable(s) && Enabled(s, Inbox(d)) && RequestId in d && d[RequestId] != CStringTuple(s.id + [0])
    ensures Step(s, Inbox(d), env) == s
  {
    hide Reachable;
  }

  /** The message is `SEND_STARTED`, and the watch waits for it. */
  predicate StartIsDue(s: Watch, d: Dict) {
    && s.app == Bridging && s.link == AwaitingSendStart
    && ToUint32(d, ProtocolVersion) == Some(PROTOCOL_VERSION) && ToUint32(d, MessageType) == Some(SEND_STARTED)
  }

  /** What is stored of the response. */
  function Have(s: Watch): seq<Byte> {
    if s.inc.buffer.Some? then s.inc.buffer.value else []
  }

  /** The message is the next result chunk: the first one, or one with the first one's metadata, in
      order, and within the announced total, which it reaches exactly if it is the last. */
  predicate ChunkIsDue(s: Watch, d: Dict) {
    && s.app == Bridging
    && ToUint32(d, ProtocolVersion) == Some(PROTOCOL_VERSION) && ToUint32(d, MessageType) == Some(SERVER_RESULT_CHUNK)
    && ReadResultChunk(d).Some?
    && var c := ReadResultChunk(d).value;
    && (|| (s.link == AwaitingResult && c.index == 0)
        || (&& s.link == ReceivingResult && c.index == s.inc.next
            && c.count == s.inc.count && c.total == s.inc.total && c.success == s.inc.success))
    && var n := |Have(s)| + |c.text|;
    if c.index + 1 == c.count then n == c.total else n < c.total
  }

  /** What the platform has to grant for it. */
  predicate ChunkIsGranted(s: Watch, d: Dict, env: Env)
    requires ReadResultChunk(d).Some?
  {
    var c := ReadResultChunk(d).value;
    && (s.link == AwaitingResult ==> env.memory)
    && if c.index + 1 == c.count then env.resultShown && env.resultTimerArmed else env.timerArmed
  }

  /** Every message to an active session either is of another request, or is exactly what is due and
      granted by the platform and then advances it, or fails it. */
  lemma InboxLaw(s: Watch, d: Dict, env: Env)
    requires Reachable(s) && !Terminal(s) && Enabled(s, Inbox(d))
    ensures var t := Step(s, Inbox(d), env);
            if RequestId in d && !IsOwn(s, d) then t == s
            else if IsOwn(s, d) && StartIsDue(s, d) && env.timerArmed then
              && t == s.(timers := DISARMED.(request := true), link := AwaitingResult, server := ServerAwaitingResult)
            else if IsOwn(s, d) && ChunkIsDue(s, d) && ChunkIsGranted(s, d, env) then
              var c := ReadResultChunk(d).value;
              && t.inc == Incoming(Some(Have(s) + c.text), c.count, c.index + 1, c.total, c.success)
              && t.log == s.log && t.captured == s.captured
              && if c.index + 1 == c.count then t.app == DisplayingResult && t.exitTimer && !t.exited
                 else t.app == Bridging && t.link == ReceivingResult && t.timers == DISARMED.(resultChunk := true)
            else t.app == Error
  {
    hide Reachable, WatchInv, InboxReceived, StartIsDue, ChunkIsDue, ChunkIsGranted, Have;
    ReachableInv(s);
    if RequestId in d && !IsOwn(s, d) {
      ForeignIsIgnored(s, d, env);
    } else if !IsOwn(s, d) {
      NamelessFails(s, d, env);
    } else if ToUint32(d, ProtocolVersion) != Some(PROTOCOL_VERSION) || ToUint32(d, MessageType).None? {
      UnreadableFails(s, d, env);
    } else {
      OwnMessage(s, d, env);
    }
  }

  lemma NamelessFails(s: Watch, d: Dict, env: Env)
    requires !Terminal(s) && RequestId !in d
    ensures InboxReceived(s, d, env).app == Error
  {
    hide Fail;
    FailFrame(s, STATUS_PROTOCOL, env);
  }

  lemma UnreadableFails(s: Watch, d: Dict, env: Env)
    requires !Terminal(s) && IsOwn(s, d) && (ToUint32(d, ProtocolVersion) != Some(PROTOCOL_VERSION) || ToUint32(d, MessageType).None?)
    ensures InboxReceived(s, d, env).app == Error && !StartIsDue(s, d) && !ChunkIsDue(s, d)
  {
    hide Fail, ToUint32, ReadResultChunk;
    FailFrame(s, STATUS_PROTOCOL, env);
  }

  lemma OwnMessage(s: Watch, d: Dict, env: Env)
    requires WatchInv(s) && !Terminal(s) && IsOwn(s, d)
    requires ToUint32(d, ProtocolVersion) == Some(PROTOCOL_VERSION) && ToUint32(d, MessageType).Some?
    ensures var t := InboxReceived(s, d, env);
            if StartIsDue(s, d) && env.timerArmed then
              && t == s.(timers := DISARMED.(request := true), link := AwaitingResult, server := ServerAwaitingResult)
            else if ChunkIsDue(s, d) && ChunkIsGranted(s, d, env) then
              var c := ReadResultChunk(d).value;
              && t.inc == Incoming(Some(Have(s) + c.text), c.count, c.index + 1, c.total, c.success)
              && t.log == s.log && t.captured == s.captured
              && if c.index + 1 == c.count then t.app == DisplayingResult && t.exitTimer && !t.exited
                 else t.app == Bridging && t.link == ReceivingResult && t.timers == DISARMED.(resultChunk := true)
            else t.app == Error
  {
    hide WatchInv, ToUint32, ReceiveSendStarted, ReceiveResultChunk, ReceiveFailure, LinkFail, ReadResultChunk, Have, ChunkIsGranted;
    var kind := ToUint32(d, MessageType).value;
    LinkFailFrame(s, LinkProtocol, env);
    if kind == SEND_STARTED {
      StartAdvances(s, d, env);
    } else if kind == SERVER_RESULT_CHUNK {
      ResultAdvances(s, d, env);
    } else if kind == FAILURE {
      FailureFails(s, d, env);
    }
  }

  lemma FailureFails(s: Watch, d: Dict, env: Env)
    requires !Terminal(s)
    ensures ReceiveFailure(s, d, env).app == Error
  {
    hide LinkFail, ServerFail, ToUint32;
    LinkFailFrame(s, LinkProtocol, env);
    LinkFailFrame(s, Connectivity, env);
    LinkFailFrame(s, LinkTransfer, env);
    ServerFailFrame(s, ServerProtocol, env);
    ServerFailFrame(s, ServerReported, env);
    ServerFailFrame(s, ServerResultTimeout, env);
  }

  lemma StartAdvances(s: Watch, d: Dict, env: Env)
    requires WatchInv(s) && !Terminal(s)
    ensures var t := ReceiveSendStarted(s, env);
            if s.app == Bridging && s.link == AwaitingSendStart && env.timerArmed then
              && t == s.(timers := DISARMED.(request := true), link := AwaitingResult, server := ServerAwaitingResult)
            else t.app == Error
  {
    hide LinkFail, Delivered, Spoken, Script, Planned, Decode8;
    LinkFailFrame(s, LinkProtocol, env);
    if s.app == Bridging && s.link == AwaitingSendStart {
      LinkFailFrame(s.(timers := s.timers.(sendStart := false), link := AwaitingResult, server := ServerAwaitingResult), LinkTransfer, env);
    }
  }

  /** Ready to store: the metadata are this chunk's. */
  ghost predicate Opened(s: Watch, t: Watch, c: ResultChunk) {
    && t.inc == Incoming(Some(Have(s)), c.count, s.inc.next, c.total, c.success)
    && t.app == Bridging && t.link == ReceivingResult && t.timers == DISARMED.(resultChunk := s.timers.resultChunk)
    && t.exited == s.exited
  }

  lemma OpensIff(s: Watch, c: ResultChunk, env: Env)
    requires WatchInv(s) && s.app == Bridging && (s.link == AwaitingResult || s.link == ReceivingResult)
    ensures OpenResult(s, c, env).1
            <==> if s.link == AwaitingResult then c.index == 0 && env.memory
                 else c.count == s.inc.count && c.total == s.inc.total && c.success == s.inc.success
    ensures OpenResult(s, c, env).1 ==> Opened(s, OpenResult(s, c, env).0, c) && !s.exited
    ensures s.link == AwaitingResult ==> s.inc.next == 0
  {
    hide Delivered, Spoken, Script, Planned, Decode8;
    if s.link == AwaitingResult {
      if c.index != 0 {
      } else if !env.memory {
      }
    }
  }

  /** Where a stored chunk leads. */
  ghost predicate Stored(t: Watch, u: Watch, c: ResultChunk) {
    && u.inc == t.inc.(buffer := Some(Have(t) + c.text), next := t.inc.next + 1)
    && u.exited == t.exited
    && if c.index + 1 == c.count then u.app == DisplayingResult && u.exitTimer
       else u.app == t.app && u.link == t.link && u.timers == t.timers.(resultChunk := true)
  }

  lemma EndingIff(t: Watch, env: Env)
    ensures FinishResult(t, env).1 <==> env.resultShown && env.resultTimerArmed
    ensures FinishResult(t, env).1 ==>
              var u := FinishResult(t, env).0; u.inc == t.inc && u.exited == t.exited && u.app == DisplayingResult && u.exitTimer
    ensures AwaitMoreResult(t, env).1 <==> env.timerArmed
    ensures AwaitMoreResult(t, env).1 ==>
              var u := AwaitMoreResult(t, env).0;
              u.inc == t.inc && u.exited == t.exited && u.app == t.app && u.link == t.link && u.timers == t.timers.(resultChunk := true)
  {
    if !env.resultShown {
    } else if !env.resultTimerArmed {
    }
    if env.timerArmed {
    }
  }

  lemma StoresIff(t: Watch, c: ResultChunk, env: Env)
    requires t.inc.buffer.Some? && t.inc.count == c.count && t.inc.total == c.total
    ensures StoreChunk(t, c, env).1
            <==> && c.index == t.inc.next
                 && var n := |Have(t)| + |c.text|;
                 if c.index + 1 == c.count then n == c.total && env.resultShown && env.resultTimerArmed else n < c.total && env.timerArmed
    ensures StoreChunk(t, c, env).1 ==> Stored(t, StoreChunk(t, c, env).0, c)
  {
    hide FinishResult, AwaitMoreResult;
    var u := t.(inc := t.inc.(buffer := Some(Have(t) + c.text), next := t.inc.next + 1));
    assert |Have(t) + c.text| == |Have(t)| + |c.text|;
    EndingIff(u, env);
  }

  lemma TalkIsActive(s: Watch, u: Watch)
    requires SameTalk(s, u)
    ensures u.log == s.log && u.captured == s.captured && u.exited == s.exited
    ensures !Terminal(s) && SamePhase(s, u) ==> !Terminal(u)
  {
  }

  lemma ResultAdvances(s: Watch, d: Dict, env: Env)
    requires WatchInv(s) && !Terminal(s)
    requires ToUint32(d, ProtocolVersion) == Some(PROTOCOL_VERSION) && ToUint32(d, MessageType) == Some(SERVER_RESULT_CHUNK)
    ensures var (u, accepted) := ReceiveResultChunk(s, d, env);
            && (accepted <==> ChunkIsDue(s, d) && ChunkIsGranted(s, d, env))
            && (!accepted ==> forall error :: LinkFail(u, error, env).app == Error)
            && (accepted ==>
                  var c := ReadResultChunk(d).value;
                  && u.inc == Incoming(Some(Have(s) + c.text), c.count, c.index + 1, c.total, c.success)
                  && u.log == s.log && u.captured == s.captured
                  && if c.index + 1 == c.count then u.app == DisplayingResult && u.exitTimer && !u.exited
                     else u.app == Bridging && u.link == ReceivingResult && u.timers == DISARMED.(resultChunk := true))
  {
    hide ToUint32, ReadResultChunk, StoreChunk, OpenResult, LinkFail, WatchInv, SameTalk;
    var (u, accepted) := ReceiveResultChunk(s, d, env);
    ReceiveFrame(s, d, env);
    if s.app == Bridging && ReadResultChunk(d).Some? && (s.link == AwaitingResult || s.link == ReceivingResult) {
      OpensIff(s, ReadResultChunk(d).value, env);
      if OpenResult(s, ReadResultChunk(d).value, env).1 {
        StoresIff(OpenResult(s, ReadResultChunk(d).value, env).0, ReadResultChunk(d).value, env);
      }
    }
    if !accepted {
      TalkIsActive(s, u);
      forall error ensures LinkFail(u, error, env).app == Error {
        LinkFailFrame(u, error, env);
      }
    } else {
      TalkIsActive(s, u);
    }
  }

  // ---- Dictation and the outbox ----

  /** The dictation gave a transcript that can be sent. */
  predicate IsGood(s: Watch, status: DictationStatus, transcription: Option<seq<Byte>>, env: Env) {
    && status == DictationStatus.Success && transcription.Some? && CString(transcription.value) != []
    && env.memory && Prepare(CString(transcription.value), s.outboxSize).Some?
  }

  /** A good dictation is captured as it was spoken, and its first chunk is said at once if the outbox
      is free for it; anything else fails the session. */
  lemma DictationLaw(s: Watch, status: DictationStatus, transcription: Option<seq<Byte>>, env: Env)
    requires Reachable(s) && !Terminal(s) && Enabled(s, Dictation(status, transcription))
    ensures s.app == Dictating
    ensures var t := Step(s, Dictation(status, transcription), env);
            if IsGood(s, status, transcription, env) && (s.beginDelivered ==> env.send == Sent) then
              && t.app == Bridging && t.link == Transferring && !t.dictationActive && t.captured == Some(CString(transcription.value))
              && CapturedOk(t.captured, t.outboxSize) && t.out.index == 0 && |s.log| < |Script(s.id, t.captured, t.outboxSize)|
              && t.log == Script(s.id, t.captured, t.outboxSize)[..|s.log| + if s.beginDelivered then 1 else 0]
            else t.app == Error
  {
    hide Reachable, WatchInv, DictationEnded, CString, Prepare, Script;
    ReachableInv(s);
    IsDictating(s);
    if IsGood(s, status, transcription, env) {
      GoodDictation(s, transcription.value, env);
    } else {
      BadDictation(s, status, transcription, env);
    }
  }

  lemma IsDictating(s: Watch)
    requires WatchInv(s) && !Terminal(s) && s.dictationActive
    ensures s.app == Dictating && WaitsForDictation(s) && Undisturbed(s)
  {
    hide Bridges;
  }

  lemma BadDictation(s: Watch, status: DictationStatus, transcription: Option<seq<Byte>>, env: Env)
    requires s.app == Dictating && !IsGood(s, status, transcription, env)
    ensures DictationEnded(s, status, transcription, env).app == Error
  {
    hide Fail, Prepare, CString, SendNextChunk;
    var t := s.(dictationActive := false);
    FailFrame(t, DictationFailure(status), env);
    FailFrame(t, STATUS_NO_SPEECH, env);
    FailFrame(t, STATUS_TRANSFER, env);
  }

  lemma GoodDictation(s: Watch, spoken: seq<Byte>, env: Env)
    requires s.app == Dictating && WaitsForDictation(s) && Undisturbed(s) && IsGood(s, DictationStatus.Success, Some(spoken), env)
    ensures var t := DictationEnded(s, DictationStatus.Success, Some(spoken), env);
            if s.beginDelivered ==> env.send == Sent then
              && t.app == Bridging && t.link == Transferring && !t.dictationActive && t.captured == Some(CString(spoken))
              && CapturedOk(t.captured, t.outboxSize) && t.out.index == 0 && |s.log| < |Script(s.id, t.captured, t.outboxSize)|
              && t.log == Script(s.id, t.captured, t.outboxSize)[..|s.log| + if s.beginDelivered then 1 else 0]
            else t.app == Error
  {
    hide Prepare, CString, SendNextChunk, Fail;
    var text := CString(spoken);
    CStringHasNoNul(spoken);
    var plan := Prepare(text, s.outboxSize).value;
    var u := s.(dictationActive := false, out := Outgoing(text, plan.capacity, |plan.chunks|, 0, 0, 0), captured := Some(text),
                app := Bridging, link := Transferring);
    assert DictationEnded(s, DictationStatus.Success, Some(spoken), env) == SendNextChunk(ShowProgress(u), env);
    assert ShowProgress(u) == u;
    if s.beginDelivered {
      FirstAtChunk(u, text);
      SendNextKeepsInv(u, env);
    } else {
      NotFreeYet(u, env);
    }
    ScriptIsLong(s.id, text, s.outboxSize);
  }

  lemma ScriptIsLong(id: seq<Byte>, text: seq<Byte>, outboxSize: nat)
    requires Plannable(text, outboxSize) && text != []
    ensures |Script(id, Some(text), outboxSize)| >= 2
  {
    hide NextLen;
    SendPassAgrees(text, Capacity(outboxSize), 0);
  }

  lemma NotFreeYet(s: Watch, env: Env)
    requires !s.beginDelivered
    ensures SendNextChunk(s, env) == s
  {
  }

  lemma CStringHasNoNul(data: seq<Byte>)
    ensures 0 !in CString(data)
  {
  }

  lemma FirstAtChunk(u: Watch, text: seq<Byte>)
    requires Plannable(text, u.outboxSize) && u.captured == Some(text)
    requires u.app == Bridging && u.link == Transferring && Undisturbed(u) && !u.dictationActive
    requires u.timers == DISARMED && u.inc == NO_INCOMING && u.server == Preparing && u.beginDelivered && u.outbox == OutboxNone
    requires u.log == [BeginMsg(u.id)]
    requires var plan := Prepare(text, u.outboxSize).value; u.out == Outgoing(text, plan.capacity, |plan.chunks|, 0, 0, 0)
    ensures AtChunk(u)
  {
    SendPassAgrees(text, Capacity(u.outboxSize), 0);
    assert u.log == ScriptOf(u)[..1];
  }

  /** An acknowledged message lets the session go on exactly as it must: to dictation, to the next
      chunk if the outbox takes it, or to waiting for the send if that can be watched; or it fails. */
  lemma SentLaw(s: Watch, env: Env)
    requires Reachable(s) && !Terminal(s) && Enabled(s, OutboxSentEvent)
    ensures var t := Step(s, OutboxSentEvent, env);
            if s.app == Dictating then
              t == s.(outbox := OutboxNone, beginDelivered := true, link := Ready)
            else if s.outbox == OutboxTranscriptChunk && s.out.index + 1 == s.out.count then
              if env.timerArmed then
                t == s.(outbox := OutboxNone, out := NO_OUTGOING, link := AwaitingSendStart, timers := DISARMED.(sendStart := true))
              else t.app == Error
            else if env.send == Sent then
              && t.app == Bridging && t.link == Transferring && t.beginDelivered && t.captured == s.captured
              && CapturedOk(s.captured, s.outboxSize) && |s.log| < |Script(s.id, s.captured, s.outboxSize)|
              && t.log == s.log + [Script(s.id, s.captured, s.outboxSize)[|s.log|]]
            else t.app == Error
  {
    hide Reachable, WatchInv, OutboxSent;
    ReachableInv(s);
    ActiveInv(s);
    ActiveApp(s);
    if s.app == Dictating {
      BeginWhileDictating(s, env);
    } else if s.outbox == OutboxSessionBegin {
      BeginWhileBridging(s, env);
    } else if s.out.index + 1 == s.out.count {
      LastChunk(s, env);
    } else {
      MiddleChunk(s, env);
    }
  }

  lemma ActiveApp(s: Watch)
    requires WatchInv(s) && !Terminal(s)
    ensures s.app == Dictating || s.app == Bridging
  {
  }

  lemma BeginWhileDictating(s: Watch, env: Env)
    requires WatchInv(s) && s.app == Dictating && s.outbox != OutboxNone
    ensures OutboxSent(s, env) == s.(outbox := OutboxNone, beginDelivered := true, link := Ready)
  {
  }

  /** The message that handing over the chunk at hand adds to the log. */
  lemma SendsLine(u: Watch, env: Env)
    requires AtChunk(u)
    ensures CapturedOk(u.captured, u.outboxSize) && |u.log| < |ScriptOf(u)|
    ensures var t := SendNextChunk(u, env);
            if env.send == Sent then
              && t.app == Bridging && t.link == Transferring && t.beginDelivered && t.captured == u.captured
              && t.log == u.log + [ScriptOf(u)[|u.log|]]
            else t.app == Error
  {
    hide SendNextChunk, Prepare, Chunks;
    SendNextKeepsInv(u, env);
    var k := u.out.index;
    assert ScriptOf(u)[..k + 2] == ScriptOf(u)[..k + 1] + [ScriptOf(u)[k + 1]];
  }

  lemma BeginWhileBridging(s: Watch, env: Env)
    requires WatchInv(s) && s.app == Bridging && s.outbox == OutboxSessionBegin
    ensures CapturedOk(s.captured, s.outboxSize) && |s.log| < |Script(s.id, s.captured, s.outboxSize)|
    ensures var t := OutboxSent(s, env);
            if env.send == Sent then
              && t.app == Bridging && t.link == Transferring && t.beginDelivered && t.captured == s.captured
              && t.log == s.log + [Script(s.id, s.captured, s.outboxSize)[|s.log|]]
            else t.app == Error
  {
    hide SendNextChunk, Prepare, Chunks, Script;
    var u := s.(outbox := OutboxNone, beginDelivered := true);
    BeginAtChunk(s);
    SendsLine(u, env);
    assert OutboxSent(s, env) == SendNextChunk(u, env);
  }

  lemma BeginAtChunk(s: Watch)
    requires WatchInv(s) && s.app == Bridging && s.outbox == OutboxSessionBegin
    ensures AtChunk(s.(outbox := OutboxNone, beginDelivered := true)) && s.link == Transferring
  {
    hide Prepare, Chunks, Script;
  }

  lemma MiddleChunk(s: Watch, env: Env)
    requires WatchInv(s) && s.app == Bridging && s.outbox == OutboxTranscriptChunk && s.out.index + 1 < s.out.count
    ensures CapturedOk(s.captured, s.outboxSize) && |s.log| < |Script(s.id, s.captured, s.outboxSize)|
    ensures var t := OutboxSent(s, env);
            if env.send == Sent then
              && t.app == Bridging && t.link == Transferring && t.beginDelivered && t.captured == s.captured
              && t.log == s.log + [Script(s.id, s.captured, s.outboxSize)[|s.log|]]
            else t.app == Error
  {
    hide SendNextChunk, WatchInv, AtChunk, Script, Prepare, CapturedOk;
    var u := s.(outbox := OutboxNone, out := s.out.(offset := s.out.offset + s.out.inFlight, index := s.out.index + 1, inFlight := 0));
    MiddleAtChunk(s);
    SendsLine(u, env);
    assert OutboxSent(s, env) == SendNextChunk(u, env);
  }

  lemma LastChunk(s: Watch, env: Env)
    requires WatchInv(s) && s.app == Bridging && s.outbox == OutboxTranscriptChunk && s.out.index + 1 == s.out.count
    ensures var t := OutboxSent(s, env);
            if env.timerArmed then
              t == s.(outbox := OutboxNone, out := NO_OUTGOING, link := AwaitingSendStart, timers := DISARMED.(sendStart := true))
            else t.app == Error
  {
    hide LinkFail, Prepare, Script, NextLen, SendNextChunk;
    LinkFailFrame(s.(outbox := OutboxNone, out := NO_OUTGOING, link := AwaitingSendStart), LinkTransfer, env);
  }

  /** Everything else that can happen to an active session fails it, or does nothing. */
  lemma OthersLaw(s: Watch, e: Event, env: Env)
    requires Reachable(s) && !Terminal(s) && Enabled(s, e) && !e.Dictation? && !e.OutboxSentEvent? && !e.Inbox?
    ensures if e in {ResultButton, ResultBack} then Step(s, e, env) == s else Step(s, e, env).app == Error
  {
    hide Reachable, WatchInv, Fail, LinkFail, ServerFail;
    ReachableInv(s);
    ActiveInv(s);
    FailFrame(s, STATUS_CANCELLED, env);
    match e
    case OutboxFailedEvent(notConnected) => LinkFailFrame(s.(outbox := OutboxNone), if notConnected then Connectivity else LinkTransfer, env);
    case InboxDropped => LinkFailFrame(s, LinkTransfer, env);
    case SendStartExpired => LinkFailFrame(s.(timers := s.timers.(sendStart := false)), SendStartTimeout, env);
    case RequestExpired => ServerFailFrame(s.(timers := s.timers.(request := false)), ServerRequestTimeout, env);
    case ResultChunkExpired => LinkFailFrame(s.(timers := s.timers.(resultChunk := false)), ResultTransferTimeout, env);
    case _ =>
  }

  // ---- Leaving ----

  /** After the end the application leaves exactly by its timer, by BACK from a result, or at once when
      the error display cannot be timed; and the timer runs from the display on, until it expires or
      the user touches a displayed result. */
  lemma LeavingLaw(s: Watch, e: Event, env: Env)
    requires Reachable(s) && Terminal(s) && Enabled(s, e)
    ensures var t := Step(s, e, env); var visible := s.app == Error && e == StatusShown;
            && (t.exited <==> e == ExitExpired || (s.app == DisplayingResult && e == ResultBack) || (visible && !env.exitTimerArmed))
            && (t.exitTimer <==>
                  if visible then env.exitTimerArmed
                  else s.exitTimer && e != ExitExpired && !(s.app == DisplayingResult && e in {ResultButton, ResultBack}))
  {
    hide Reachable, WatchInv, Fail, InboxReceived, DictationEnded, LinkFail, ServerFail, OutboxSent, OutboxFailed;
    ReachableInv(s);
    TerminalKeepsExit(s, e, env);
  }

  lemma TerminalKeepsExit(s: Watch, e: Event, env: Env)
    requires Terminal(s) && Enabled(s, e) && WatchInv(s)
    ensures !(e in {ExitExpired, ResultButton, ResultBack, StatusShown}) ==>
              Step(s, e, env).exited == s.exited && Step(s, e, env).exitTimer == s.exitTimer
    ensures e == StatusShown ==> s.app == Error
  {
    hide TrySendEnd, ShowErrorStatus, Spoken, Script, Plannable, Decode8, SendNextChunk, ReceiveResultChunk, ReceiveFailure, ReceiveSendStarted, Prepare;
    EndFrame(s.(outbox := OutboxNone), env);
  }

  // ---- Launch ----

  /** The first thing that goes wrong at launch, if any. */
  function LaunchCause(launch: Launch): Option<nat> {
    if launch.open == NotConnected then Some(STATUS_PHONE_CONNECTIVITY)
    else if launch.open == Refused then Some(STATUS_TRANSFER)
    else if !launch.dictationCreated then Some(STATUS_DICTATION)
    else if launch.env.send == NotConnected then Some(STATUS_PHONE_CONNECTIVITY)
    else if launch.env.send == Refused then Some(STATUS_TRANSFER)
    else if !launch.dictationStarted then Some(STATUS_DICTATION)
    else None
  }

  /** A launch fails with the status of the first thing that goes wrong, or begins the session and
      dictates.  What goes wrong before AppMessage is open is not announced; `SESSION_END` follows the
      acknowledgement of `SESSION_BEGIN` if that was said before, and is said at once otherwise. */
  lemma LaunchLaw(id: seq<Byte>, outboxSize: nat, launch: Launch)
    ensures var s := Init(id, outboxSize, launch);
            && s.id == id && s.outboxSize == outboxSize
            && match LaunchCause(launch)
               case Some(status) => s.app == Error && s.status == status
               case None => s.app == Dictating && s.dictationActive && s.outbox == OutboxSessionBegin && s.log == [BeginMsg(id)]
    ensures var s := Init(id, outboxSize, launch);
            LaunchCause(launch).Some? ==>
              if launch.open != Sent then s.log == [] && s.outbox == OutboxNone
              else if launch.dictationCreated && launch.env.send == Sent then s.log == [BeginMsg(id)] && s.outbox == OutboxSessionBegin && s.endPending
              else if launch.env.sendEnd then s.log == [EndMsg(id, s.status)] && s.outbox == OutboxSessionEnd
              else s.log == [] && s.outbox == OutboxNone
  {
    hide Fail;
    var s := Blank(id).(outboxSize := outboxSize);
    var t := s.(ready := true);
    var u := t.(app := Dictating, link := SessionBeginPending, server := Preparing);
    if launch.open == NotConnected {
      LaunchFails(s, STATUS_PHONE_CONNECTIVITY, launch.env);
    } else if launch.open == Refused {
      LaunchFails(s, STATUS_TRANSFER, launch.env);
    } else if !launch.dictationCreated {
      LaunchFails(t, STATUS_DICTATION, launch.env);
    } else if launch.env.send == NotConnected {
      LaunchFails(u, STATUS_PHONE_CONNECTIVITY, launch.env);
    } else if launch.env.send == Refused {
      LaunchFails(u, STATUS_TRANSFER, launch.env);
    } else if !launch.dictationStarted {
      LaunchFails(u.(outbox := OutboxSessionBegin, log := [BeginMsg(id)]), STATUS_DICTATION, launch.env);
    }
  }

  lemma LaunchFails(s: Watch, status: nat, env: Env)
    requires !Terminal(s) && (s.outbox == OutboxNone ==> s.log == []) && (s.outbox != OutboxNone ==> s.ready)
    ensures var t := Fail(s, status, env);
            && t.app == Error && t.status == status && t.id == s.id && t.outboxSize == s.outboxSize
            && if !s.ready then t.log == s.log && t.outbox == s.outbox
               else if s.outbox != OutboxNone then t.log == s.log && t.outbox == s.outbox && t.endPending
               else if env.sendEnd then t.log == s.log + [EndMsg(s.id, status)] && t.outbox == OutboxSessionEnd
               else t.log == s.log && t.outbox == OutboxNone
  {
    hide Fail, Exits, SaysAtMostOne;
    FailFrame(s, status, env);
    if !s.ready {
      UnreadySaysNothing(s, status, env);
    }
  }

  lemma UnreadySaysNothing(s: Watch, status: nat, env: Env)
    requires !s.ready
    ensures Fail(s, status, env).log == s.log && Fail(s, status, env).outbox == s.outbox
  {
    hide ShowErrorStatus;
    if !Terminal(s) {
      ShowFrame(s.(app := Error, status := status, timers := DISARMED, dictationActive := false,
                   out := NO_OUTGOING, inc := NO_INCOMING, endPending := true), env);
    }
  }
}
