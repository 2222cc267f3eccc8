/** What every callback of the watch keeps, and what follows for whole runs. */
module WatchProofs {
  import opened Unicode
  import opened Greedy
  import opened Messages
  import opened WatchCodec
  import opened WatchModel

  // ---- The outbox language ----

  function ChunkMsgs(id: seq<Byte>, total: nat, cs: seq<seq<Byte>>): (r: seq<WatchMsg>)
    ensures |r| == |cs|
    ensures forall i | 0 <= i < |cs| :: r[i] == ChunkMsg(id, i, |cs|, total, cs[i])
  {
    seq(|cs|, i requires 0 <= i < |cs| => ChunkMsg(id, i, |cs|, total, cs[i]))
  }

  /** The transcript is a C string that the preparation pass accepts. */
  ghost predicate Plannable(t: seq<Byte>, outboxSize: nat) {
    0 !in t && Prepare(t, outboxSize).Some?
  }

  ghost function ChunksOf(t: seq<Byte>, outboxSize: nat): seq<seq<Byte>>
    requires Plannable(t, outboxSize)
  {
    Prepare(t, outboxSize).value.chunks
  }

  ghost predicate CapturedOk(captured: Option<seq<Byte>>, outboxSize: nat) {
    captured.Some? ==> Plannable(captured.value, outboxSize)
  }

  /** Everything a session may say before it ends: begin, then every chunk in order. */
  ghost function Script(id: seq<Byte>, captured: Option<seq<Byte>>, outboxSize: nat): seq<WatchMsg>
    requires CapturedOk(captured, outboxSize)
  {
    [BeginMsg(id)]
    + if captured.Some? then ChunkMsgs(id, |captured.value|, ChunksOf(captured.value, outboxSize)) else []
  }

  /** The messages are a prefix of the script. */
  ghost predicate OnScript(id: seq<Byte>, captured: Option<seq<Byte>>, outboxSize: nat, log: seq<WatchMsg>) {
    CapturedOk(captured, outboxSize) && log <= Script(id, captured, outboxSize)
  }

  /** A prefix of the script, possibly followed by one `SESSION_END`, with the status, as the last
      message. */
  ghost predicate Spoken(id: seq<Byte>, captured: Option<seq<Byte>>, outboxSize: nat, status: nat, log: seq<WatchMsg>) {
    || OnScript(id, captured, outboxSize, log)
    || (log != [] && log[|log| - 1] == EndMsg(id, status) && OnScript(id, captured, outboxSize, log[..|log| - 1]))
  }

  ghost predicate Planned(s: Watch) {
    s.captured.Some? && Plannable(s.captured.value, s.outboxSize)
  }

  ghost function PlannedChunks(s: Watch): seq<seq<Byte>>
    requires Planned(s)
  {
    ChunksOf(s.captured.value, s.outboxSize)
  }

  ghost function ScriptOf(s: Watch): seq<WatchMsg>
    requires CapturedOk(s.captured, s.outboxSize)
  {
    Script(s.id, s.captured, s.outboxSize)
  }

  // ---- The invariant ----

  ghost predicate WaitsForDictation(s: Watch) {
    && s.captured == None && s.log == [BeginMsg(s.id)]
    && s.timers == DISARMED
    && s.out == NO_OUTGOING && s.inc == NO_INCOMING
    && s.server == Preparing
    && if s.beginDelivered then s.outbox == OutboxNone && s.link == Ready
       else s.outbox == OutboxSessionBegin && s.link == SessionBeginPending
  }

  ghost predicate Transfers(s: Watch) {
    && Planned(s)
    && s.timers == DISARMED && s.inc == NO_INCOMING && s.server == Preparing
    && var cs := PlannedChunks(s);
    && s.out.text == s.captured.value
    && s.out.capacity == Capacity(s.outboxSize)
    && s.out.count == |cs|
    && s.out.index < |cs|
    && s.out.offset == Offset(cs, s.out.index)
    && if s.beginDelivered then
         && s.outbox == OutboxTranscriptChunk
         && s.out.inFlight == |cs[s.out.index]|
         && s.log == ScriptOf(s)[..s.out.index + 2]
       else
         && s.outbox == OutboxSessionBegin
         && s.out.index == 0 && s.out.inFlight == 0
         && s.log == ScriptOf(s)[..1]
  }

  /** Everything has been said and acknowledged. */
  ghost predicate Delivered(s: Watch) {
    && Planned(s) && s.log == ScriptOf(s)
    && s.outbox == OutboxNone && s.beginDelivered && s.out == NO_OUTGOING
  }

  ghost predicate Receives(s: Watch) {
    && s.inc.buffer.Some?
    && 0 < s.inc.next < s.inc.count
    && |s.inc.buffer.value| < s.inc.total <= MAX_RESPONSE_BYTES
    && Decode8(s.inc.buffer.value).Some?
  }

  ghost predicate Bridges(s: Watch) {
    match s.link
    case Transferring => Transfers(s)
    case AwaitingSendStart =>
      Delivered(s) && s.inc == NO_INCOMING && s.server == Preparing && s.timers == DISARMED.(sendStart := true)
    case AwaitingResult =>
      Delivered(s) && s.inc == NO_INCOMING && s.server == ServerAwaitingResult && s.timers == DISARMED.(request := true)
    case ReceivingResult =>
      Delivered(s) && Receives(s) && s.server == ServerComplete && s.timers == DISARMED.(resultChunk := true)
    case _ => false
  }

  ghost predicate ShowsResult(s: Watch) {
    && Delivered(s)
    && s.timers == DISARMED
    && s.inc.buffer.Some? && s.inc.next == s.inc.count
    && |s.inc.buffer.value| == s.inc.total <= MAX_RESPONSE_BYTES
    && Decode8(s.inc.buffer.value).Some?
  }

  ghost predicate HasFailed(s: Watch) {
    && Spoken(s.id, s.captured, s.outboxSize, s.status, s.log)
    && s.timers == DISARMED
    && s.out == NO_OUTGOING && s.inc == NO_INCOMING && !s.dictationActive
    && !(s.statusPending && s.exitTimer)
    && (s.endPending ==> OnScript(s.id, s.captured, s.outboxSize, s.log) && s.outbox != OutboxSessionEnd)
    && (s.outbox != OutboxNone ==> s.ready)
  }

  /** Before a failure is reported: enough to end the session properly. */
  ghost predicate CanFail(s: Watch) {
    && s.app != Error && s.app != DisplayingResult
    && OnScript(s.id, s.captured, s.outboxSize, s.log)
    && s.outbox != OutboxSessionEnd
    && !s.exitTimer
    && (s.outbox != OutboxNone ==> s.ready)
  }

  /** No failure and no exit is under way. */
  ghost predicate Undisturbed(s: Watch) {
    s.ready && !s.endPending && !s.statusPending && s.linkError == NoLinkError && !s.exitTimer && !s.exited
  }

  ghost predicate WatchInv(s: Watch) {
    match s.app
    case Initializing => false
    case Dictating => WaitsForDictation(s) && Undisturbed(s) && s.dictationActive
    case Bridging => Bridges(s) && Undisturbed(s) && !s.dictationActive
    case DisplayingResult => ShowsResult(s) && !s.endPending && !s.statusPending && !s.dictationActive
    case Error => HasFailed(s)
  }

  // ---- Preservation ----

  lemma EndIsSpoken(id: seq<Byte>, captured: Option<seq<Byte>>, outboxSize: nat, log: seq<WatchMsg>, status: nat)
    requires OnScript(id, captured, outboxSize, log)
    ensures Spoken(id, captured, outboxSize, status, log + [EndMsg(id, status)])
  {
    assert (log + [EndMsg(id, status)])[..|log|] == log;
  }

  lemma TrySendEndKeepsFailed(s: Watch, env: Env)
    requires HasFailed(s)
    ensures HasFailed(TrySendEnd(s, env)) && TrySendEnd(s, env).app == s.app
  {
    if s.endPending {
      EndIsSpoken(s.id, s.captured, s.outboxSize, s.log, s.status);
    }
  }

  lemma StatusVisibleKeepsFailed(s: Watch, env: Env)
    requires HasFailed(s) && !s.statusPending
    ensures HasFailed(StatusVisible(s, env)) && StatusVisible(s, env).app == s.app
  {
  }

  lemma ShowKeepsFailed(s: Watch, env: Env)
    requires HasFailed(s) && !s.exitTimer
    ensures HasFailed(ShowErrorStatus(s, env)) && ShowErrorStatus(s, env).app == s.app
  {
    StatusVisibleKeepsFailed(s.(statusPending := false), env);
  }

  lemma FailKeepsInv(s: Watch, status: nat, env: Env)
    requires CanFail(s)
    ensures WatchInv(Fail(s, status, env)) && Fail(s, status, env).app == Error
  {
    var t := s.(app := Error, status := status, timers := DISARMED, dictationActive := false,
                out := NO_OUTGOING, inc := NO_INCOMING, endPending := true);
    TrySendEndKeepsFailed(t, env);
    ShowKeepsFailed(TrySendEnd(t, env), env);
  }

  lemma ActiveCanFail(s: Watch)
    requires WatchInv(s) && !Terminal(s)
    ensures CanFail(s)
  {
  }

  /** Ready to hand over chunk `s.out.index`. */
  ghost predicate AtChunk(s: Watch) {
    && s.app == Bridging && s.link == Transferring
    && Undisturbed(s) && !s.dictationActive
    && Planned(s) && s.timers == DISARMED && s.inc == NO_INCOMING && s.server == Preparing
    && s.beginDelivered && s.outbox == OutboxNone
    && var cs := PlannedChunks(s);
    && s.out == Outgoing(s.captured.value, Capacity(s.outboxSize), |cs|, s.out.index, s.out.offset, 0)
    && s.out.index < |cs| && s.out.offset == Offset(cs, s.out.index)
    && s.log == ScriptOf(s)[..s.out.index + 1]
  }

  lemma NextCut(s: Watch)
    requires AtChunk(s)
    ensures var n := NextLen(Rest(s.out), s.out.capacity);
            n == |PlannedChunks(s)[s.out.index]| > 0 && CString(Rest(s.out)[..n]) == PlannedChunks(s)[s.out.index]
  {
    var t, cs := s.captured.value, PlannedChunks(s);
    SendPassAgrees(t, s.out.capacity, s.out.index);
    var n := NextLen(Rest(s.out), s.out.capacity);
    assert Rest(s.out)[..n] == t[s.out.offset..s.out.offset + n] == cs[s.out.index];
    CStringStops(cs[s.out.index], []);
  }

  lemma NextLine(s: Watch)
    requires AtChunk(s)
    ensures s.log + [ChunkMsg(s.id, s.out.index, s.out.count, |s.out.text|, PlannedChunks(s)[s.out.index])]
         == ScriptOf(s)[..s.out.index + 2]
  {
    hide Prepare, Chunks, NextLen;
    var k, script := s.out.index, ScriptOf(s);
    assert script[k + 1] == ChunkMsg(s.id, k, s.out.count, |s.out.text|, PlannedChunks(s)[k]);
    assert script[..k + 2] == script[..k + 1] + [script[k + 1]];
  }

  /** The send pass hands over exactly the next planned chunk. */
  lemma SendNextKeepsInv(s: Watch, env: Env)
    requires AtChunk(s)
    ensures WatchInv(SendNextChunk(s, env))
    ensures env.send == Sent ==>
              SendNextChunk(s, env) == s.(out := s.out.(inFlight := |PlannedChunks(s)[s.out.index]|),
                                          outbox := OutboxTranscriptChunk, log := ScriptOf(s)[..s.out.index + 2])
    ensures env.send != Sent ==> SendNextChunk(s, env).app == Error
  {
    NextCut(s);
    NextLine(s);
    if env.send != Sent {
      var error := if env.send == NotConnected then Connectivity else LinkTransfer;
      FailKeepsInv(s.(link := LinkState.Failed, linkError := error), LinkStatus(error), env);
    }
  }

  lemma LinkFailKeepsInv(s: Watch, error: LinkError, env: Env)
    requires CanFail(s)
    ensures WatchInv(LinkFail(s, error, env)) && LinkFail(s, error, env).app == Error
  {
    FailKeepsInv(s.(link := LinkState.Failed, linkError := error), LinkStatus(error), env);
  }

  lemma ServerFailKeepsInv(s: Watch, error: ServerLinkError, env: Env)
    requires CanFail(s)
    ensures WatchInv(ServerFail(s, error, env)) && ServerFail(s, error, env).app == Error
  {
    FailKeepsInv(s.(server := ServerFailed, serverError := error), ServerStatus(error), env);
  }

  lemma DictationKeepsInv(s: Watch, status: DictationStatus, transcription: Option<seq<Byte>>, env: Env)
    requires WatchInv(s) && s.app == Dictating
    ensures WatchInv(DictationEnded(s, status, transcription, env))
    ensures DictationEnded(s, status, transcription, env).app in {Bridging, Error}
  {
    var t := s.(dictationActive := false);
    ActiveCanFail(s);
    var n := DictationEnded(s, status, transcription, env);
    if status != DictationStatus.Success {
      FailKeepsInv(t, DictationFailure(status), env);
    } else if transcription.None? || CString(transcription.value) == [] {
      FailKeepsInv(t, STATUS_NO_SPEECH, env);
    } else {
      var text := CString(transcription.value);
      if !env.memory || Prepare(text, s.outboxSize).None? {
        FailKeepsInv(t, STATUS_TRANSFER, env);
      } else {
        PlanKeepsInv(t, text, env);
      }
    }
  }

  lemma PlanKeepsInv(t: Watch, text: seq<Byte>, env: Env)
    requires t.app == Dictating && WaitsForDictation(t) && Undisturbed(t) && !t.dictationActive
    requires Plannable(text, t.outboxSize)
    ensures var plan := Prepare(text, t.outboxSize).value;
            var u := t.(out := Outgoing(text, plan.capacity, |plan.chunks|, 0, 0, 0), captured := Some(text),
                        app := Bridging, link := Transferring);
            WatchInv(SendNextChunk(ShowProgress(u), env)) && SendNextChunk(ShowProgress(u), env).app in {Bridging, Error}
  {
    var plan := Prepare(text, t.outboxSize).value;
    var u := t.(out := Outgoing(text, plan.capacity, |plan.chunks|, 0, 0, 0), captured := Some(text),
                app := Bridging, link := Transferring);
    SendPassAgrees(text, plan.capacity, 0);
    assert u.log == ScriptOf(u)[..1];
    if u.beginDelivered {
      SendNextKeepsInv(u, env);
    }
  }

  lemma BeginSentKeepsInv(s: Watch, env: Env)
    requires WatchInv(s) && (s.app == Dictating || s.app == Bridging) && s.outbox == OutboxSessionBegin
    ensures WatchInv(OutboxSent(s, env))
    ensures var t := OutboxSent(s, env); Terminal(t) || Less(Measure(t), Measure(s))
  {
    if s.app == Bridging {
      SendNextKeepsInv(s.(outbox := OutboxNone, beginDelivered := true), env);
    }
  }

  lemma PlanIsChunks(s: Watch)
    requires Planned(s)
    ensures OVERHEAD < s.outboxSize && Chunks(s.captured.value, Capacity(s.outboxSize)) == Some(PlannedChunks(s))
  {
  }

  lemma MiddleChunkSent(s: Watch, env: Env)
    requires WatchInv(s) && s.app == Bridging && s.outbox == OutboxTranscriptChunk && s.out.index + 1 < s.out.count
    ensures WatchInv(OutboxSent(s, env))
    ensures var t := OutboxSent(s, env); Terminal(t) || Less(Measure(t), Measure(s))
  {
    hide Fail, NextLen, Prepare, ScriptOf, AtChunk, WatchInv, SendNextChunk, Measure, Less, PlannedChunks;
    var t := s.(outbox := OutboxNone, out := s.out.(offset := s.out.offset + s.out.inFlight, index := s.out.index + 1, inFlight := 0));
    MiddleAtChunk(s);
    SendNextKeepsInv(t, env);
    assert OutboxSent(s, env) == SendNextChunk(t, env);
    if env.send == Sent {
      OneChunkLess(s, SendNextChunk(t, env));
    }
  }

  lemma OneChunkLess(s: Watch, t: Watch)
    requires s.app == Bridging && s.link == Transferring && s.beginDelivered && s.out.index + 1 < s.out.count
    requires t.app == s.app && t.link == s.link && t.beginDelivered && t.out.index == s.out.index + 1 && t.out.count == s.out.count
    ensures Less(Measure(t), Measure(s))
  {
  }

  lemma MiddleAtChunk(s: Watch)
    requires WatchInv(s) && s.app == Bridging && s.outbox == OutboxTranscriptChunk && s.out.index + 1 < s.out.count
    ensures s.link == Transferring && s.beginDelivered
    ensures AtChunk(s.(outbox := OutboxNone, out := s.out.(offset := s.out.offset + s.out.inFlight, index := s.out.index + 1, inFlight := 0)))
  {
    hide NextLen, Prepare, Chunks, Script;
    PlanIsChunks(s);
    SendPassAgrees(s.captured.value, s.out.capacity, s.out.index);
  }

  lemma LastChunkSent(s: Watch, env: Env)
    requires WatchInv(s) && s.app == Bridging && s.outbox == OutboxTranscriptChunk && s.out.index + 1 == s.out.count
    ensures WatchInv(OutboxSent(s, env))
    ensures var t := OutboxSent(s, env); Terminal(t) || Less(Measure(t), Measure(s))
  {
    hide Fail, NextLen, Prepare, Plannable;
    var t := s.(outbox := OutboxNone, out := NO_OUTGOING, link := AwaitingSendStart);
    assert s.log == ScriptOf(s) by {
      assert ScriptOf(s)[..|ScriptOf(s)|] == ScriptOf(s);
    }
    if !env.timerArmed {
      LinkFailKeepsInv(t, LinkTransfer, env);
    }
  }

  lemma ChunkSentKeepsInv(s: Watch, env: Env)
    requires WatchInv(s) && s.app == Bridging && s.outbox == OutboxTranscriptChunk
    ensures WatchInv(OutboxSent(s, env))
    ensures var t := OutboxSent(s, env); Terminal(t) || Less(Measure(t), Measure(s))
  {
    hide OutboxSent, Measure, PlannedChunks;
    if s.out.index + 1 < s.out.count {
      MiddleChunkSent(s, env);
    } else {
      LastChunkSent(s, env);
    }
  }

  lemma OutboxSentKeepsInv(s: Watch, env: Env)
    requires WatchInv(s) && s.outbox != OutboxNone
    ensures WatchInv(OutboxSent(s, env))
    ensures s.app == Error ==> OutboxSent(s, env).app == Error
    ensures !Terminal(s) ==> var t := OutboxSent(s, env); Terminal(t) || Less(Measure(t), Measure(s))
  {
    if s.app == Error {
      TrySendEndKeepsFailed(s.(outbox := OutboxNone), env);
    } else if s.outbox == OutboxSessionBegin {
      BeginSentKeepsInv(s, env);
    } else {
      ChunkSentKeepsInv(s, env);
    }
  }

  lemma OutboxFailedKeepsInv(s: Watch, notConnected: bool, env: Env)
    requires WatchInv(s) && s.outbox != OutboxNone
    ensures WatchInv(OutboxFailed(s, notConnected, env)) && OutboxFailed(s, notConnected, env).app == Error
  {
    if s.app == Error {
      TrySendEndKeepsFailed(s.(outbox := OutboxNone), env);
    } else {
      ActiveCanFail(s);
      LinkFailKeepsInv(s.(outbox := OutboxNone), if notConnected then Connectivity else LinkTransfer, env);
    }
  }

  // ---- Receiving ----

  /** Same conversation, same phase: only reassembly, timers and displays may differ. */
  ghost predicate SameTalk(s: Watch, t: Watch) {
    && t.id == s.id && t.captured == s.captured && t.outboxSize == s.outboxSize && t.log == s.log
    && t.outbox == s.outbox && t.ready == s.ready && t.exited == s.exited
    && (t.app == s.app || t.app == DisplayingResult)
  }

  ghost predicate SamePhase(s: Watch, t: Watch) {
    t.app == s.app && t.exitTimer == s.exitTimer
  }

  lemma FinishFrame(s: Watch, env: Env)
    ensures SameTalk(s, FinishResult(s, env).0) && (FinishResult(s, env).1 || SamePhase(s, FinishResult(s, env).0))
  {
    hide ShowResult;
    ShowingFrame(s.(link := LinkState.Complete, timers := s.timers.(resultChunk := false)), env);
  }

  lemma AwaitFrame(s: Watch, env: Env)
    ensures SameTalk(s, AwaitMoreResult(s, env).0) && SamePhase(s, AwaitMoreResult(s, env).0)
  {
    if env.timerArmed {
    }
  }

  lemma ShowingFrame(s: Watch, env: Env)
    ensures SameTalk(s, ShowResult(s, env).0) && (ShowResult(s, env).1 || SamePhase(s, ShowResult(s, env).0))
  {
    if !env.resultShown {
    } else if !env.resultTimerArmed {
    }
  }

  lemma StoreFrame(s: Watch, c: ResultChunk, env: Env)
    ensures SameTalk(s, StoreChunk(s, c, env).0) && (StoreChunk(s, c, env).1 || SamePhase(s, StoreChunk(s, c, env).0))
  {
    hide FinishResult, AwaitMoreResult;
    var have := if s.inc.buffer.Some? then s.inc.buffer.value else [];
    var t := s.(inc := s.inc.(buffer := Some(have + c.text), next := s.inc.next + 1));
    FinishFrame(t, env);
    AwaitFrame(t, env);
    assert SameTalk(s, t);
  }

  lemma OpenFrame(s: Watch, c: ResultChunk, env: Env)
    ensures SameTalk(s, OpenResult(s, c, env).0) && SamePhase(s, OpenResult(s, c, env).0)
  {
    if s.link == AwaitingResult {
      if c.index != 0 {
      } else if !env.memory {
      }
    }
  }

  /** Reassembly touches nothing the outbox language depends on, and never leaves BRIDGING
      except by showing the result. */
  lemma ReceiveFrame(s: Watch, d: Dict, env: Env)
    ensures SameTalk(s, ReceiveResultChunk(s, d, env).0)
    ensures ReceiveResultChunk(s, d, env).1 || SamePhase(s, ReceiveResultChunk(s, d, env).0)
  {
    hide StoreChunk, ReadResultChunk, OpenResult;
    var r := ReadResultChunk(d);
    if r.Some? {
      var (t, begun) := OpenResult(s, r.value, env);
      OpenFrame(s, r.value, env);
      StoreFrame(t, r.value, env);
    }
  }

  lemma StoreKeepsInv(s: Watch, c: ResultChunk, env: Env)
    requires s.app == Bridging && s.link == ReceivingResult && Delivered(s) && Undisturbed(s) && !s.dictationActive
    requires s.server == ServerComplete && !s.timers.sendStart && !s.timers.request
    requires s.inc.buffer.Some? && Decode8(s.inc.buffer.value).Some? && s.inc.next < s.inc.count
    requires s.inc.total <= MAX_RESPONSE_BYTES && Decode8(c.text).Some?
    ensures var (t, accepted) := StoreChunk(s, c, env);
            accepted ==> WatchInv(t) && (t.app == DisplayingResult || (t.link == ReceivingResult && t.inc.count == s.inc.count && t.inc.next == s.inc.next + 1))
  {
    Decode8Concat(s.inc.buffer.value, c.text);
  }

  lemma ReceiveKeepsInv(s: Watch, d: Dict, env: Env)
    requires WatchInv(s) && s.app == Bridging
    ensures var (t, accepted) := ReceiveResultChunk(s, d, env);
            accepted ==> WatchInv(t) && (t.app == DisplayingResult || Less(Measure(t), Measure(s)))
  {
    hide StoreChunk, ReadResultChunk;
    if (s.link == AwaitingResult || s.link == ReceivingResult) && ReadResultChunk(d).Some? {
      var c := ReadResultChunk(d).value;
      var (t, begun) := OpenResult(s, c, env);
      if begun {
        StoreKeepsInv(t, c, env);
      }
    }
  }

  lemma ResultChunkKeepsInv(s: Watch, d: Dict, env: Env)
    requires WatchInv(s) && CanFail(s)
    ensures var (t, accepted) := ReceiveResultChunk(s, d, env);
            if accepted then WatchInv(t) && (t.app == DisplayingResult || Less(Measure(t), Measure(s)))
            else forall error :: var u := LinkFail(t, error, env); WatchInv(u) && u.app == Error
  {
    hide ReadResultChunk, StoreChunk, OpenResult, LinkFail, Measure, Bridges;
    var (t, accepted) := ReceiveResultChunk(s, d, env);
    ReceiveFrame(s, d, env);
    if s.app == Bridging {
      ReceiveKeepsInv(s, d, env);
    }
    if !accepted {
      assert CanFail(t);
      forall error ensures WatchInv(LinkFail(t, error, env)) && LinkFail(t, error, env).app == Error {
        LinkFailKeepsInv(t, error, env);
      }
    }
  }

  lemma InboxKeepsInv(s: Watch, d: Dict, env: Env)
    requires WatchInv(s)
    ensures WatchInv(InboxReceived(s, d, env))
    ensures var t := InboxReceived(s, d, env);
            t == s || (!Terminal(s) && (Terminal(t) || Less(Measure(t), Measure(s))))
  {
    hide ReceiveSendStarted, ReceiveFailure, ReceiveResultChunk, LinkFail, Fail, Measure, Bridges;
    if s.app != Error && s.app != DisplayingResult && RequestId in d {
      ActiveCanFail(s);
      if IdMatches(s, d) && ToUint32(d, ProtocolVersion) == Some(PROTOCOL_VERSION) && ToUint32(d, MessageType).Some? {
        var kind := ToUint32(d, MessageType).value;
        if kind == SEND_STARTED {
          SendStartedKeepsInv(s, env);
        } else if kind == SERVER_RESULT_CHUNK {
          ResultChunkKeepsInv(s, d, env);
        } else if kind == FAILURE {
          FailureKeepsInv(s, d, env);
        } else {
          LinkFailKeepsInv(s, LinkProtocol, env);
        }
      } else if IdMatches(s, d) {
        FailKeepsInv(s, STATUS_PROTOCOL, env);
      }
    } else if s.app != Error && s.app != DisplayingResult {
      ActiveCanFail(s);
      FailKeepsInv(s, STATUS_PROTOCOL, env);
    }
  }

  lemma SendStartedKeepsInv(s: Watch, env: Env)
    requires WatchInv(s) && CanFail(s)
    ensures WatchInv(ReceiveSendStarted(s, env))
    ensures var t := ReceiveSendStarted(s, env); t.app == Error || Less(Measure(t), Measure(s))
  {
    if s.app != Bridging || s.link != AwaitingSendStart || s.server != Preparing {
      LinkFailKeepsInv(s, LinkProtocol, env);
    } else if !env.timerArmed {
      var t := s.(timers := s.timers.(sendStart := false), link := AwaitingResult, server := ServerAwaitingResult);
      LinkFailKeepsInv(t, LinkTransfer, env);
      var u := LinkFail(t, LinkTransfer, env);
      assert HasFailed(u.(statusPending := false));
    }
  }

  lemma FailureKeepsInv(s: Watch, d: Dict, env: Env)
    requires WatchInv(s) && CanFail(s)
    ensures WatchInv(ReceiveFailure(s, d, env)) && ReceiveFailure(s, d, env).app == Error
  {
    hide LinkFail, ServerFail, WatchInv;
    LinkFailKeepsInv(s, LinkProtocol, env);
    LinkFailKeepsInv(s, Connectivity, env);
    LinkFailKeepsInv(s, LinkTransfer, env);
    ServerFailKeepsInv(s, ServerProtocol, env);
    ServerFailKeepsInv(s, ServerReported, env);
    ServerFailKeepsInv(s, ServerResultTimeout, env);
  }

  // ---- Termination measure ----

  datatype Rank = Rank(phase: nat, begin: nat, transcript: nat, result: nat)

  function Measure(s: Watch): Rank {
    Rank(if s.app == Dictating then 5
         else if s.app != Bridging then 0
         else match s.link
              case Transferring => 4
              case AwaitingSendStart => 3
              case AwaitingResult => 2
              case _ => 1,
         if s.beginDelivered then 0 else 1,
         if s.out.index <= s.out.count then s.out.count - s.out.index else 0,
         if s.inc.next <= s.inc.count then s.inc.count - s.inc.next else 0)
  }

  predicate Less(a: Rank, b: Rank) {
    || a.phase < b.phase
    || (a.phase == b.phase && a.begin < b.begin)
    || (a.phase == b.phase && a.begin == b.begin && a.transcript < b.transcript)
    || (a.phase == b.phase && a.begin == b.begin && a.transcript == b.transcript && a.result < b.result)
  }

  predicate Terminal(s: Watch) { s.app == Error || s.app == DisplayingResult }

  lemma InitEstablishesInv(id: seq<Byte>, outboxSize: nat, launch: Launch)
    ensures WatchInv(Init(id, outboxSize, launch))
  {
    hide Fail, Spoken, Less;
    var s := Blank(id).(outboxSize := outboxSize);
    var t := s.(ready := true);
    var u := t.(app := Dictating, link := SessionBeginPending, server := Preparing);
    var v := u.(outbox := OutboxSessionBegin, log := [BeginMsg(id)]);
    FailKeepsInv(s, STATUS_PHONE_CONNECTIVITY, launch.env);
    FailKeepsInv(s, STATUS_TRANSFER, launch.env);
    FailKeepsInv(t, STATUS_DICTATION, launch.env);
    FailKeepsInv(u, STATUS_PHONE_CONNECTIVITY, launch.env);
    FailKeepsInv(u, STATUS_TRANSFER, launch.env);
    FailKeepsInv(v, STATUS_DICTATION, launch.env);
  }

  /** Every callback keeps the invariant, and every callback that is not ignored while the
      session is active either ends it or decreases the measure. */
  lemma StepKeepsInv(s: Watch, e: Event, env: Env)
    requires WatchInv(s) && Enabled(s, e)
    ensures WatchInv(Step(s, e, env))
    ensures !Terminal(s) ==>
              var t := Step(s, e, env); t == s || Terminal(t) || Less(Measure(t), Measure(s))
  {
    hide Step, WatchInv, Measure, Enabled, CanFail;
    if !Terminal(s) {
      ActiveCanFail(s);
      ActiveStep(s, e, env);
    } else {
      TerminalStep(s, e, env);
    }
  }

  lemma TerminalStep(s: Watch, e: Event, env: Env)
    requires WatchInv(s) && Terminal(s) && Enabled(s, e)
    ensures WatchInv(Step(s, e, env)) && Step(s, e, env).app == s.app
  {
    hide OutboxSent, OutboxFailed, DictationEnded, InboxReceived, StatusVisible, Spoken, Decode8, Script;
    match e
    case OutboxSentEvent => OutboxSentKeepsInv(s, env);
    case OutboxFailedEvent(notConnected) => OutboxFailedKeepsInv(s, notConnected, env);
    case Inbox(d) => InboxKeepsInv(s, d, env);
    case StatusShown => StatusVisibleKeepsFailed(s.(statusPending := false), env);
    case _ =>
  }

  lemma ActiveStep(s: Watch, e: Event, env: Env)
    requires WatchInv(s) && Enabled(s, e) && CanFail(s)
    ensures WatchInv(Step(s, e, env))
    ensures var t := Step(s, e, env); t == s || Terminal(t) || Less(Measure(t), Measure(s))
  {
    hide OutboxSent, OutboxFailed, DictationEnded, InboxReceived;
    match e
    case Dictation(result, transcription) => DictationKeepsInv(s, result, transcription, env);
    case OutboxSentEvent => OutboxSentKeepsInv(s, env);
    case OutboxFailedEvent(notConnected) => OutboxFailedKeepsInv(s, notConnected, env);
    case Inbox(d) => InboxKeepsInv(s, d, env);
    case InboxDropped => LinkFailKeepsInv(s, LinkTransfer, env);
    case SendStartExpired => LinkFailKeepsInv(s.(timers := s.timers.(sendStart := false)), SendStartTimeout, env);
    case RequestExpired => ServerFailKeepsInv(s.(timers := s.timers.(request := false)), ServerRequestTimeout, env);
    case ResultChunkExpired => LinkFailKeepsInv(s.(timers := s.timers.(resultChunk := false)), ResultTransferTimeout, env);
    case Back => FailKeepsInv(s, STATUS_CANCELLED, env);
    case _ =>
  }
}
