/** The watch application as a mutable object: its context, its two heap buffers, and its
    callbacks, each proved against the transition function it implements. */
module WatchApp {
  import opened Unicode
  import opened Messages
  import opened WatchCodec
  import M = WatchModel

  /** `prv_valid_utf8`: accepts exactly the concatenations of encoded scalar values. */
  method ValidUtf8(text: seq<Byte>) returns (ok: bool)
    ensures ok <==> Decode8(text).Some?
    ensures ok <==> exists vs: seq<Scalar> :: Utf8All(vs) == text
  {
    hide CodepointSize, HeadScalar, Utf8;
    forall vs: seq<Scalar> | Utf8All(vs) == text ensures Decode8(text) == Some(vs) {
      Decode8Encode(vs);
    }
    var offset := 0;
    while offset < |text|
      invariant 0 <= offset <= |text|
      invariant Decode8(text).Some? <==> Decode8(text[offset..]).Some?
    {
      var size := CodepointSize(text[offset..]);
      if size == 0 {
        return false;
      }
      assert text[offset..][size..] == text[offset + size..];
      offset := offset + size;
    }
    assert text[offset..] == [];
    assert Utf8All(Decode8(text).value) == text;
    return true;
  }

  // ---- The nested structures of the application context ----

  datatype WatchPhoneBridge = WatchPhoneBridge(
    state: M.LinkState, error: M.LinkError, sendStartTimer: bool, resultChunkTimer: bool, outboxMessage: M.Outbox,
    responseBytes: nat, responseChunkCount: nat, nextResponseChunk: nat, responseTotalBytes: nat, success: bool,
    ready: bool, beginDelivered: bool, endPending: bool)

  datatype PhoneServerBridge = PhoneServerBridge(state: M.ServerState, error: M.ServerLinkError, requestTimer: bool)

  datatype Transfer = Transfer(bytes: nat, capacity: nat, count: nat, nextIndex: nat, nextOffset: nat, outboxBytes: nat)

  const NO_TRANSFER := Transfer(0, 0, 0, 0, 0, 0)

  /** Where the two buffers must be allocated or free when a callback starts. */
  predicate BuffersMatch(s: M.Watch) {
    && (s.app == M.Dictating ==> s.out == M.NO_OUTGOING)
    && (s.app == M.Bridging && s.link == M.Transferring ==> s.out.text != [])
    && (s.app == M.Bridging && s.link == M.AwaitingResult ==> s.inc == M.NO_INCOMING)
    && (s.app == M.Bridging && s.link == M.ReceivingResult ==> s.inc.buffer.Some?)
  }

  ghost predicate OwnsText(transcript: array?<Byte>, transfer: Transfer, text: seq<Byte>)
    reads transcript
  {
    if transcript == null then text == [] && transfer == NO_TRANSFER
    else 0 < transfer.bytes == transcript.Length - 1 && transcript[..transfer.bytes] == text
  }

  ghost predicate OwnsResponse(response: array?<Byte>, reply: M.Incoming, bytes: nat)
    reads response
  {
    if response == null then reply == M.NO_INCOMING && bytes == 0
    else bytes <= reply.total == response.Length - 1 && reply.buffer == Some(response[..bytes])
  }

  class WatchApp {
    const requestId: seq<Byte>
    var outboxSize: nat
    var bridge: WatchPhoneBridge
    var serverResponse: array?<Byte>
    var server: PhoneServerBridge
    var transcript: array?<Byte>
    var transfer: Transfer
    var state: M.AppState
    var terminalStatus: nat
    var dictationActive: bool
    var exitTimer: bool
    var statusPending: bool
    var exited: bool

    /** What the two buffers hold, as far as it is meaningful; then history. */
    ghost var text: seq<Byte>
    ghost var received: Option<seq<Byte>>
    ghost var captured: Option<seq<Byte>>
    ghost var log: seq<WatchMsg>

    /** Each buffer is either freed, with its bookkeeping reset, or owned, of the recorded size
        and with room for a terminator; the two never overlap. */
    ghost predicate Valid()
      reads this, transcript, serverResponse
    {
      && OwnsText(transcript, transfer, text)
      && OwnsResponse(serverResponse, Reply(), bridge.responseBytes)
      && (transcript != null && serverResponse != null ==> transcript != serverResponse)
    }

    ghost function Reply(): M.Incoming
      reads this
    {
      M.Incoming(received, bridge.responseChunkCount, bridge.nextResponseChunk, bridge.responseTotalBytes, bridge.success)
    }

    ghost function State(): (s: M.Watch)
      reads this
      ensures s.app == state && s.link == bridge.state && s.server == server.state && s.linkError == bridge.error
      ensures s.outbox == bridge.outboxMessage && s.ready == bridge.ready && s.beginDelivered == bridge.beginDelivered
      ensures s.out.text == text && s.out.count == transfer.count && s.out.index == transfer.nextIndex
      ensures s.inc == Reply() && s.id == requestId && s.outboxSize == outboxSize
    {
      M.Watch(requestId, outboxSize, state, terminalStatus, bridge.state, bridge.error, server.state, server.error,
              M.Timers(bridge.sendStartTimer, bridge.resultChunkTimer, server.requestTimer),
              exitTimer, statusPending, exited, bridge.outboxMessage,
              M.Outgoing(text, transfer.capacity, transfer.count, transfer.nextIndex, transfer.nextOffset, transfer.outboxBytes),
              Reply(), bridge.ready, bridge.beginDelivered, bridge.endPending, dictationActive, captured, log)
    }

    // ---- Failure ----

    method FreeTranscript()
      requires Valid()
      modifies this`transcript, this`transfer, this`text
      ensures Valid() && State() == old(State()).(out := M.NO_OUTGOING)
    {
      hide OwnsResponse;
      transcript, text := null, [];
      transfer := NO_TRANSFER;
    }

    method FreeServerResponse()
      requires Valid()
      modifies this`serverResponse, this`bridge, this`received
      ensures Valid() && State() == old(State()).(inc := M.NO_INCOMING)
    {
      hide OwnsText;
      serverResponse, received := null, None;
      bridge := bridge.(responseBytes := 0, responseChunkCount := 0, nextResponseChunk := 0, responseTotalBytes := 0, success := false);
    }

    method TrySendSessionEnd(env: M.Env)
      requires Valid()
      modifies this`bridge, this`log
      ensures Valid() && State() == M.TrySendEnd(old(State()), env)
    {
      hide OwnsText, OwnsResponse;
      if !bridge.endPending || !bridge.ready || bridge.outboxMessage != M.OutboxNone {
        return;
      }
      bridge := bridge.(endPending := false);
      if !env.sendEnd {
        return;
      }
      log := log + [EndMsg(requestId, terminalStatus)];
      bridge := bridge.(outboxMessage := M.OutboxSessionEnd);
    }

    method TerminalStatusVisible(env: M.Env)
      requires Valid()
      modifies this`exitTimer, this`exited
      ensures Valid() && State() == M.StatusVisible(old(State()), env)
    {
      hide OwnsText, OwnsResponse;
      if state != M.Error {
        return;
      }
      exitTimer := env.exitTimerArmed;
      if !exitTimer {
        exited := true;
      }
    }

    method ShowFailure(env: M.Env)
      requires Valid()
      modifies this`statusPending, this`exitTimer, this`exited
      ensures Valid() && State() == M.ShowErrorStatus(old(State()), env)
    {
      hide OwnsText, OwnsResponse;
      statusPending := true;
      if env.statusAtOnce {
        statusPending := false;
        TerminalStatusVisible(env);
      }
    }

    method CancelTimers()
      requires Valid()
      modifies this`bridge, this`server, this`dictationActive
      ensures Valid() && State() == old(State()).(timers := M.DISARMED, dictationActive := false)
    {
      hide OwnsText, OwnsResponse;
      bridge := bridge.(sendStartTimer := false, resultChunkTimer := false);
      server := server.(requestTimer := false);
      dictationActive := false;
    }

    method EnterError(status: nat)
      requires Valid()
      modifies this`state, this`terminalStatus
      ensures Valid() && State() == old(State()).(app := M.Error, status := status)
    {
      hide OwnsText, OwnsResponse;
      state, terminalStatus := M.Error, status;
    }

    method RequestSessionEnd()
      requires Valid()
      modifies this`bridge
      ensures Valid() && State() == old(State()).(endPending := true)
    {
      hide OwnsText, OwnsResponse;
      bridge := bridge.(endPending := true);
    }

    method Fail(status: nat, env: M.Env)
      requires Valid()
      modifies this
      ensures Valid() && State() == M.Fail(old(State()), status, env)
    {
      hide M.TrySendEnd, M.ShowErrorStatus, State, Valid, Reply;
      if state == M.Error || state == M.DisplayingResult {
        return;
      }
      EnterError(status);
      CancelTimers();
      FreeTranscript();
      FreeServerResponse();
      RequestSessionEnd();
      TrySendSessionEnd(env);
      ShowFailure(env);
    }

    method WatchPhoneFail(error: M.LinkError, env: M.Env)
      requires Valid()
      modifies this
      ensures Valid() && State() == M.LinkFail(old(State()), error, env)
    {
      hide M.Fail, OwnsText, OwnsResponse;
      bridge := bridge.(state := M.LinkState.Failed, error := error);
      Fail(M.LinkStatus(error), env);
    }

    method PhoneServerFail(error: M.ServerLinkError, env: M.Env)
      requires Valid()
      modifies this
      ensures Valid() && State() == M.ServerFail(old(State()), error, env)
    {
      hide M.Fail, OwnsText, OwnsResponse;
      server := server.(state := M.ServerFailed, error := error);
      Fail(M.ServerStatus(error), env);
    }

    // ---- Chunking ----

    method NextChunkLength(offset: nat) returns (length: nat)
      requires Valid()
      ensures length == if offset <= |text| then NextLen(text[offset..], transfer.capacity) else 0
    {
      hide CodepointSize;
      length := 0;
      while offset + length < transfer.bytes
        invariant offset <= transfer.bytes ==>
                    offset + length <= transfer.bytes
                    && NextLenFrom(text[offset..], length, transfer.capacity) == NextLen(text[offset..], transfer.capacity)
        invariant offset > transfer.bytes ==> length == 0
        decreases transfer.bytes - offset - length
      {
        assert text[offset..][length..] == transcript[offset + length..transfer.bytes];
        var size := CodepointSize(transcript[offset + length..transfer.bytes]);
        if size == 0 {
          return 0;
        }
        if length + size > transfer.capacity {
          break;
        }
        length := length + size;
      }
    }

    /** The count never reaches its limit: there are no more chunks than bytes. */
    method PrepareChunks() returns (ok: bool)
      requires Valid() && transcript != null
      modifies this`transfer
      ensures ok <==> Prepare(text, outboxSize).Some?
      ensures transfer == old(transfer).(capacity := transfer.capacity, count := transfer.count,
                                         nextIndex := transfer.nextIndex, nextOffset := transfer.nextOffset)
      ensures ok ==>
                && Prepare(text, outboxSize).value.capacity == transfer.capacity
                && |Prepare(text, outboxSize).value.chunks| == transfer.count
                && transfer.nextIndex == 0 && transfer.nextOffset == 0
    {
      hide NextLen, OVERHEAD;
      if transfer.bytes > UINT32_MAX || OVERHEAD >= outboxSize {
        return false;
      }
      transfer := transfer.(capacity := outboxSize - OVERHEAD);
      if transfer.capacity > MAX_CAPACITY {
        transfer := transfer.(capacity := MAX_CAPACITY);
      }
      var offset, count := 0, 0;
      ghost var prepared := transfer;
      assert text[0..] == text;
      while offset < transfer.bytes
        invariant Valid() && transfer == prepared
        invariant 0 <= count <= offset <= transfer.bytes
        invariant match Chunks(text[offset..], transfer.capacity)
                  case None => Chunks(text, transfer.capacity).None?
                  case Some(rest) =>
                    Chunks(text, transfer.capacity).Some? && |Chunks(text, transfer.capacity).value| == count + |rest|
      {
        var length := NextChunkLength(offset);
        assert count < UINT32_MAX;
        if length == 0 || count == UINT32_MAX {
          return false;
        }
        assert text[offset..][length..] == text[offset + length..];
        offset := offset + length;
        count := count + 1;
      }
      assert text[offset..] == [];
      transfer := transfer.(count := count, nextIndex := 0, nextOffset := 0);
      return count > 0;
    }

    method PlanTransfer() returns (ok: bool)
      requires Valid() && transcript != null
      modifies this`transfer
      ensures Valid()
      ensures ok <==> Prepare(text, outboxSize).Some?
      ensures State() == old(State()).(out := State().out)
      ensures ok ==> State().out == M.Outgoing(text, Prepare(text, outboxSize).value.capacity, |Prepare(text, outboxSize).value.chunks|,
                                               0, 0, old(State()).out.inFlight)
    {
      hide OwnsResponse, Prepare;
      ok := PrepareChunks();
    }

    // ---- Sending ----

    /** The text is handed over as a C string: the byte after the slice is NUL for as long as the
        message is written, and then restored. */
    method SendChunk(length: nat, env: M.Env) returns (result: M.SendResult)
      requires Valid() && transcript != null && 0 < length && transfer.nextOffset + length <= transfer.bytes
      requires bridge.outboxMessage == M.OutboxNone
      modifies this`transfer, this`bridge, this`log, transcript
      ensures Valid() && transcript[..] == old(transcript[..])
      ensures result == if old(bridge.ready) then env.send else M.Refused
      ensures State() == if result == M.Sent then ChunkSent(old(State()), length) else old(State())
    {
      hide OwnsResponse, CString;
      if !bridge.ready {
        return M.Refused;
      }
      if env.send != M.Sent {
        return env.send;
      }
      ghost var s := State();
      assert transcript[transfer.nextOffset..transfer.nextOffset + length] == M.Rest(s.out)[..length];
      var chunkText := TakeChunkText(length);
      RecordChunk(ChunkMsg(requestId, transfer.nextIndex, transfer.count, transfer.bytes, chunkText), length);
      return M.Sent;
    }

    method TakeChunkText(length: nat) returns (chunkText: seq<Byte>)
      requires Valid() && transcript != null && transfer.nextOffset + length <= transfer.bytes
      modifies transcript
      ensures Valid() && transcript[..] == old(transcript[..])
      ensures State() == old(State()) && |text| == transfer.bytes
      ensures chunkText == CString(old(transcript[transfer.nextOffset..transfer.nextOffset + length]))
    {
      hide OwnsResponse, CString;
      ghost var before := transcript[..];
      chunkText := ReadChunkText(length);
      assert transcript[..transfer.bytes] == before[..transfer.bytes] == text;
    }

    method RecordChunk(message: WatchMsg, length: nat)
      requires Valid() && transcript != null
      modifies this`transfer, this`bridge, this`log
      ensures Valid()
      ensures State() == old(State()).(out := old(State()).out.(inFlight := length), outbox := M.OutboxTranscriptChunk,
                                       log := old(State()).log + [message])
    {
      hide OwnsResponse;
      log := log + [message];
      transfer := transfer.(outboxBytes := length);
      bridge := bridge.(outboxMessage := M.OutboxTranscriptChunk);
    }

    method ReadChunkText(length: nat) returns (chunkText: seq<Byte>)
      requires transcript != null && transfer.nextOffset + length < transcript.Length
      modifies transcript
      ensures transcript[..] == old(transcript[..])
      ensures chunkText == CString(old(transcript[transfer.nextOffset..transfer.nextOffset + length]))
    {
      hide CString;
      var end := transfer.nextOffset + length;
      ghost var slice, rest := transcript[transfer.nextOffset..end], transcript[end + 1..];
      var saved := transcript[end];
      transcript[end] := 0;
      assert transcript[transfer.nextOffset..] == slice + [0] + rest;
      CStringCut(slice, rest);
      chunkText := CString(transcript[transfer.nextOffset..]);
      transcript[end] := saved;
    }

    method SendNextChunk(env: M.Env)
      requires Valid()
      modifies this, transcript
      ensures Valid() && State() == M.SendNextChunk(old(State()), env)
    {
      hide OwnsResponse, NextLen, M.Fail, M.LinkFail, CString, Reply;
      if state != M.Bridging || bridge.state != M.Transferring || !bridge.beginDelivered || bridge.outboxMessage != M.OutboxNone {
        return;
      }
      var length := NextChunkLength(transfer.nextOffset);
      NothingToCut(State());
      if length == 0 {
        Fail(STATUS_TRANSFER, env);
        return;
      }
      var result := SendChunk(length, env);
      if result == M.NotConnected {
        WatchPhoneFail(M.Connectivity, env);
      } else if result != M.Sent {
        WatchPhoneFail(M.LinkTransfer, env);
      }
    }

    // ---- Single transitions of the context ----

    method ClearOutbox()
      requires Valid()
      modifies this`bridge
      ensures Valid() && State() == old(State()).(outbox := M.OutboxNone)
    {
      hide OwnsText, OwnsResponse;
      bridge := bridge.(outboxMessage := M.OutboxNone);
    }

    method MarkBeginDelivered()
      requires Valid()
      modifies this`bridge
      ensures Valid()
      ensures State() == old(State()).(beginDelivered := true,
                                       link := if old(State()).link == M.SessionBeginPending then M.Ready else old(State()).link)
    {
      hide State, Reply, Valid, OwnsText, OwnsResponse;
      NoteBegin();
      LeaveBeginPending();
    }

    method NoteBegin()
      requires Valid()
      modifies this`bridge
      ensures Valid() && State() == old(State()).(beginDelivered := true)
    {
      hide OwnsText, OwnsResponse;
      bridge := bridge.(beginDelivered := true);
    }

    method LeaveBeginPending()
      requires Valid()
      modifies this`bridge
      ensures Valid() && State() == old(State()).(link := if old(State()).link == M.SessionBeginPending then M.Ready else old(State()).link)
    {
      hide OwnsText, OwnsResponse;
      if bridge.state == M.SessionBeginPending {
        bridge := bridge.(state := M.Ready);
      }
    }

    method AdvanceTransfer()
      requires Valid() && transcript != null
      modifies this`transfer
      ensures Valid()
      ensures var o := old(State()).out;
              State() == old(State()).(out := o.(offset := o.offset + o.inFlight, index := o.index + 1, inFlight := 0))
    {
      hide OwnsResponse;
      transfer := transfer.(nextOffset := transfer.nextOffset + transfer.outboxBytes, nextIndex := transfer.nextIndex + 1, outboxBytes := 0);
    }

    method EnterAwaitingSendStart()
      requires Valid()
      modifies this`bridge
      ensures Valid() && State() == old(State()).(link := M.AwaitingSendStart)
    {
      hide OwnsText, OwnsResponse;
      bridge := bridge.(state := M.AwaitingSendStart);
    }

    method SetSendStartTimer(armed: bool)
      requires Valid()
      modifies this`bridge
      ensures Valid() && State() == old(State()).(timers := old(State()).timers.(sendStart := armed))
    {
      hide OwnsText, OwnsResponse;
      bridge := bridge.(sendStartTimer := armed);
    }

    method SetRequestTimer(armed: bool)
      requires Valid()
      modifies this`server
      ensures Valid() && State() == old(State()).(timers := old(State()).timers.(request := armed))
    {
      hide OwnsText, OwnsResponse;
      server := server.(requestTimer := armed);
    }

    method SetResultChunkTimer(armed: bool)
      requires Valid()
      modifies this`bridge
      ensures Valid() && State() == old(State()).(timers := old(State()).timers.(resultChunk := armed))
    {
      hide OwnsText, OwnsResponse;
      bridge := bridge.(resultChunkTimer := armed);
    }

    method SetLinkError(error: M.LinkError)
      requires Valid()
      modifies this`bridge
      ensures Valid() && State() == old(State()).(linkError := error)
    {
      hide OwnsText, OwnsResponse;
      bridge := bridge.(error := error);
    }

    method EnterAwaitingResult()
      requires Valid()
      modifies this`bridge, this`server
      ensures Valid() && State() == old(State()).(link := M.AwaitingResult, server := M.ServerAwaitingResult)
    {
      hide OwnsText, OwnsResponse;
      bridge := bridge.(state := M.AwaitingResult);
      server := server.(state := M.ServerAwaitingResult);
    }

    method SetStatus()
      requires Valid()
      modifies this`statusPending
      ensures Valid() && State() == M.ShowProgress(old(State()))
    {
      hide OwnsText, OwnsResponse;
      statusPending := false;
    }

    // ---- Outbox callbacks ----

    method TranscriptChunkSent(env: M.Env)
      requires Valid() && (state == M.Bridging && bridge.state == M.Transferring ==> text != [])
      modifies this, transcript
      ensures Valid() && State() == AfterChunk(old(State()), env)
    {
      hide State, Reply, Valid, OwnsText, OwnsResponse, M.SendNextChunk, M.LinkFail;
      HasText();
      if state != M.Bridging || bridge.state != M.Transferring {
        WatchPhoneFail(M.LinkProtocol, env);
        return;
      }
      AdvanceTransfer();
      if transfer.nextIndex < transfer.count {
        SendNextChunk(env);
        return;
      }
      FreeTranscript();
      EnterAwaitingSendStart();
      if env.timerArmed {
        SetSendStartTimer(true);
      } else {
        WatchPhoneFail(M.LinkTransfer, env);
      }
    }

    method OutboxSent(env: M.Env)
      requires Valid() && BuffersMatch(State())
      modifies this, transcript
      ensures Valid() && State() == M.OutboxSent(old(State()), env)
    {
      hide State, Reply, Valid, OwnsText, OwnsResponse, M.SendNextChunk, M.LinkFail, M.TrySendEnd;
      var sent := bridge.outboxMessage;
      HasText();
      ClearOutbox();
      if state == M.Error {
        TrySendSessionEnd(env);
        return;
      }
      match sent
      case OutboxSessionBegin =>
        MarkBeginDelivered();
        SendNextChunk(env);
      case OutboxTranscriptChunk =>
        TranscriptChunkSent(env);
      case _ =>
    }

    /** A transfer owns its buffer. */
    lemma HasText()
      requires Valid()
      ensures text != [] <==> transcript != null
    {
    }

    method OutboxFailed(notConnected: bool, env: M.Env)
      requires Valid()
      modifies this
      ensures Valid() && State() == M.OutboxFailed(old(State()), notConnected, env)
    {
      hide State, Reply, Valid, OwnsText, OwnsResponse, M.LinkFail, M.TrySendEnd;
      var failed := bridge.outboxMessage;
      ClearOutbox();
      if state == M.Error {
        if failed != M.OutboxSessionEnd {
          TrySendSessionEnd(env);
        }
        return;
      }
      WatchPhoneFail(if notConnected then M.Connectivity else M.LinkTransfer, env);
    }

    // ---- Dictation ----

    method StopListening()
      requires Valid()
      modifies this`dictationActive
      ensures Valid() && State() == old(State()).(dictationActive := false)
    {
      hide OwnsText, OwnsResponse;
      dictationActive := false;
    }

    /** No buffer is owned yet, so nothing leaks. */
    method CopyTranscript(transcription: seq<Byte>)
      requires Valid() && transcript == null && transcription != []
      modifies this`transcript, this`transfer, this`text
      ensures Valid() && fresh(transcript) && transcript != null
      ensures State() == old(State()).(out := M.NO_OUTGOING.(text := transcription))
    {
      hide OwnsResponse;
      var bytes := |transcription|;
      var copy := new Byte[bytes + 1](i => if 0 <= i < bytes then transcription[i] else 0);
      assert copy[..bytes] == transcription;
      transcript, text := copy, transcription;
      transfer := NO_TRANSFER.(bytes := bytes);
    }

    method EnterBridging()
      requires Valid()
      modifies this`state, this`bridge, this`captured
      ensures Valid() && State() == old(State()).(app := M.Bridging, link := M.Transferring, captured := Some(text))
    {
      hide OwnsText, OwnsResponse;
      state := M.Bridging;
      bridge := bridge.(state := M.Transferring);
      captured := Some(text);
    }

    method StartTransfer(spoken: seq<Byte>) returns (prepared: bool)
      requires Valid() && transcript == null && spoken != []
      modifies this`transcript, this`transfer, this`text, this`state, this`bridge, this`captured
      ensures Valid() && (transcript != null ==> fresh(transcript))
      ensures prepared <==> Prepare(spoken, outboxSize).Some?
      ensures prepared ==> State() == Planned(old(State()), spoken, Prepare(spoken, outboxSize).value)
      ensures !prepared ==> State() == old(State()).(out := State().out)
    {
      hide State, Reply, Valid, OwnsText, OwnsResponse, Prepare;
      ghost var s := State();
      CopyTranscript(spoken);
      prepared := PlanTransfer();
      if prepared {
        EnterBridging();
      }
    }

    method TranscriptSpoken(spoken: seq<Byte>, env: M.Env)
      requires Valid() && state == M.Dictating && transcript == null && spoken != []
      modifies this
      ensures Valid() && State() == AfterSpeech(old(State()), spoken, env)
    {
      hide State, Reply, Valid, OwnsText, OwnsResponse, M.Fail, M.SendNextChunk, Prepare, Planned, M.ShowProgress;
      if !env.memory {
        Fail(STATUS_TRANSFER, env);
        return;
      }
      ghost var s := State();
      var prepared := StartTransfer(spoken);
      if !prepared {
        FailForgets(s, State().out, STATUS_TRANSFER, env);
        Fail(STATUS_TRANSFER, env);
        return;
      }
      SetStatus();
      SendNextChunk(env);
    }

    method DictationStatus(status: M.DictationStatus, transcription: Option<seq<Byte>>, env: M.Env)
      requires Valid() && BuffersMatch(State())
      modifies this
      ensures Valid() && State() == M.DictationEnded(old(State()), status, transcription, env)
    {
      hide State, Reply, Valid, OwnsText, OwnsResponse, M.Fail, M.SendNextChunk, CString, Prepare;
      HasText();
      StopListening();
      if state != M.Dictating {
        return;
      }
      if status != M.DictationStatus.Success {
        Fail(M.DictationFailure(status), env);
        return;
      }
      if transcription.None? || CString(transcription.value) == [] {
        Fail(STATUS_NO_SPEECH, env);
        return;
      }
      TranscriptSpoken(CString(transcription.value), env);
    }

    // ---- Receiving ----

    /** Validation of one result chunk on its own. */
    method ReadResultChunk(d: Dict) returns (r: Option<M.ResultChunk>)
      ensures r == M.ReadResultChunk(d)
    {
      hide M.ToUint32, CString, Decode8;
      var index, count := M.ToUint32(d, ChunkIndex), M.ToUint32(d, ChunkCount);
      var total, success := M.ToUint32(d, TotalBytes), M.ToUint32(d, ServerSuccess);
      if index.None? || count.None? || total.None? || success.None? {
        return None;
      }
      if ChunkText !in d || !d[ChunkText].CStringTuple? || d[ChunkText].data == [] || count.value == 0
         || index.value >= count.value || success.value > 1 || total.value > MAX_RESPONSE_BYTES {
        return None;
      }
      var chunkText := CString(d[ChunkText].data);
      if |chunkText| != |d[ChunkText].data| - 1 {
        return None;
      }
      var wellFormed := ValidUtf8(chunkText);
      if !wellFormed {
        return None;
      }
      return Some(M.ResultChunk(index.value, count.value, total.value, success.value == 1, chunkText));
    }

    /** No response is owned yet, so nothing leaks. */
    method AllocateResponse(c: M.ResultChunk)
      requires Valid() && serverResponse == null
      modifies this`serverResponse, this`bridge, this`received
      ensures Valid() && serverResponse != null && fresh(serverResponse)
      ensures State() == old(State()).(inc := M.Incoming(Some([]), c.count, old(State()).inc.next, c.total, c.success))
    {
      hide OwnsText;
      serverResponse := new Byte[c.total + 1];
      received := Some([]);
      bridge := bridge.(responseChunkCount := c.count, responseTotalBytes := c.total, success := c.success);
    }

    method EnterReceiving()
      requires Valid()
      modifies this`bridge, this`server
      ensures Valid() && State() == old(State()).(link := M.ReceivingResult, server := M.ServerComplete,
                                                  timers := old(State()).timers.(request := false))
    {
      hide OwnsText, OwnsResponse;
      bridge := bridge.(state := M.ReceivingResult);
      server := server.(state := M.ServerComplete, requestTimer := false);
    }

    method OpenResponse(c: M.ResultChunk, env: M.Env) returns (ok: bool)
      requires Valid() && (bridge.state == M.AwaitingResult ==> serverResponse == null)
      modifies this`serverResponse, this`bridge, this`server, this`received
      ensures Valid() && (State(), ok) == M.OpenResult(old(State()), c, env)
      ensures ok && old(bridge.state) == M.AwaitingResult ==> serverResponse != null && fresh(serverResponse)
      ensures old(bridge.state) != M.AwaitingResult ==> serverResponse == old(serverResponse)
    {
      hide State, Valid, OwnsText, OwnsResponse;
      if bridge.state == M.AwaitingResult {
        if c.index != 0 {
          return false;
        }
        if !env.memory {
          SetLinkError(M.LinkTransfer);
          return false;
        }
        AllocateResponse(c);
        EnterReceiving();
        return true;
      }
      return c.count == bridge.responseChunkCount && c.total == bridge.responseTotalBytes && c.success == bridge.success;
    }

    /** `memcpy` into the response buffer, within its bounds. */
    method CopyResponse(chunkText: seq<Byte>)
      requires Valid() && serverResponse != null && bridge.responseBytes + |chunkText| <= bridge.responseTotalBytes
      modifies this`bridge, this`received, serverResponse
      ensures Valid() && serverResponse == old(serverResponse) && transcript == old(transcript)
      ensures old(State()).inc.buffer.Some?
      ensures State() == old(State()).(inc := old(State()).inc.(buffer := Some(old(State()).inc.buffer.value + chunkText),
                                                                next := old(State()).inc.next + 1))
      ensures bridge.responseBytes == |old(State()).inc.buffer.value + chunkText|
    {
      hide OwnsText;
      var start := bridge.responseBytes;
      ghost var before := serverResponse[..start];
      forall i | 0 <= i < |chunkText| {
        serverResponse[start + i] := chunkText[i];
      }
      assert serverResponse[..start + |chunkText|] == before + chunkText;
      received := Some(before + chunkText);
      bridge := bridge.(responseBytes := start + |chunkText|, nextResponseChunk := bridge.nextResponseChunk + 1);
    }

    method TerminateResponse()
      requires Valid() && serverResponse != null && bridge.responseBytes == bridge.responseTotalBytes
      modifies serverResponse
      ensures Valid() && State() == old(State())
      ensures serverResponse[bridge.responseBytes] == 0
    {
      hide OwnsText;
      ghost var before := serverResponse[..bridge.responseBytes];
      serverResponse[bridge.responseBytes] := 0;
      assert serverResponse[..bridge.responseBytes] == before;
    }

    method CompleteLink()
      requires Valid()
      modifies this`bridge
      ensures Valid() && State() == old(State()).(link := M.LinkState.Complete, timers := old(State()).timers.(resultChunk := false))
    {
      hide OwnsText, OwnsResponse;
      bridge := bridge.(state := M.LinkState.Complete, resultChunkTimer := false);
    }

    method ShowServerResult(env: M.Env) returns (ok: bool)
      requires Valid()
      modifies this`exitTimer, this`state
      ensures Valid() && (State(), ok) == M.ShowResult(old(State()), env)
    {
      hide OwnsText, OwnsResponse;
      if !env.resultShown {
        return false;
      }
      if !env.resultTimerArmed {
        return false;
      }
      exitTimer := true;
      state := M.DisplayingResult;
      return true;
    }

    method FinishResponse(env: M.Env) returns (ok: bool)
      requires Valid() && serverResponse != null && bridge.responseBytes == bridge.responseTotalBytes
      modifies this`bridge, this`exitTimer, this`state, serverResponse
      ensures Valid() && (State(), ok) == M.FinishResult(old(State()), env)
    {
      hide State, Reply, Valid, OwnsText, OwnsResponse, M.ShowResult;
      TerminateResponse();
      CompleteLink();
      ok := ShowServerResult(env);
      if !ok {
        SetLinkError(M.LinkTransfer);
      }
    }

    method AwaitMoreResponse(env: M.Env) returns (ok: bool)
      requires Valid()
      modifies this`bridge
      ensures Valid() && (State(), ok) == M.AwaitMoreResult(old(State()), env)
    {
      hide State, Reply, Valid, OwnsText, OwnsResponse;
      SetResultChunkTimer(env.timerArmed);
      if !env.timerArmed {
        SetLinkError(M.LinkTransfer);
        return false;
      }
      return true;
    }

    method StoreChunk(c: M.ResultChunk, env: M.Env) returns (ok: bool)
      requires Valid() && serverResponse != null
      modifies this`bridge, this`received, this`exitTimer, this`state, serverResponse
      ensures Valid() && (State(), ok) == M.StoreChunk(old(State()), c, env)
    {
      hide State, Valid, OwnsText, OwnsResponse, M.FinishResult, M.AwaitMoreResult;
      HasResponse();
      if c.index != bridge.nextResponseChunk || bridge.responseBytes + |c.text| > bridge.responseTotalBytes {
        return false;
      }
      CopyResponse(c.text);
      if bridge.nextResponseChunk == bridge.responseChunkCount {
        if bridge.responseBytes != bridge.responseTotalBytes {
          return false;
        }
        ok := FinishResponse(env);
        return;
      }
      if bridge.responseBytes >= bridge.responseTotalBytes {
        return false;
      }
      ok := AwaitMoreResponse(env);
    }

    lemma HasResponse()
      requires Valid()
      ensures received.Some? <==> serverResponse != null
      ensures received.Some? ==> |received.value| == bridge.responseBytes
    {
    }

    method ReceiveServerResultChunk(d: Dict, env: M.Env) returns (accepted: bool)
      requires Valid() && BuffersMatch(State())
      modifies this, serverResponse
      ensures Valid() && (State(), accepted) == M.ReceiveResultChunk(old(State()), d, env)
    {
      hide State, Valid, OwnsText, OwnsResponse, M.ReadResultChunk, M.OpenResult, M.StoreChunk;
      HasResponse();
      if state != M.Bridging || (bridge.state != M.AwaitingResult && bridge.state != M.ReceivingResult) {
        return false;
      }
      var c := ReadResultChunk(d);
      if c.None? {
        return false;
      }
      accepted := OpenResponse(c.value, env);
      if accepted {
        accepted := StoreChunk(c.value, env);
      }
    }

    method ReceiveSendStarted(env: M.Env)
      requires Valid()
      modifies this
      ensures Valid() && State() == M.ReceiveSendStarted(old(State()), env)
    {
      hide State, Reply, Valid, OwnsText, OwnsResponse, M.LinkFail, M.ShowProgress;
      if state != M.Bridging || bridge.state != M.AwaitingSendStart || server.state != M.Preparing {
        WatchPhoneFail(M.LinkProtocol, env);
        return;
      }
      SetSendStartTimer(false);
      EnterAwaitingResult();
      if env.timerArmed {
        SetRequestTimer(true);
      } else {
        WatchPhoneFail(M.LinkTransfer, env);
      }
      SetStatus();
    }

    method ReceiveFailure(d: Dict, env: M.Env)
      requires Valid()
      modifies this
      ensures Valid() && State() == M.ReceiveFailure(old(State()), d, env)
    {
      hide State, Reply, Valid, OwnsText, OwnsResponse, M.LinkFail, M.ServerFail, M.ToUint32;
      var status := M.ToUint32(d, StatusCode);
      if status.None? || status.value == STATUS_NORMAL || status.value > STATUS_SERVER_RESULT_TIMEOUT {
        WatchPhoneFail(M.LinkProtocol, env);
      } else if status.value == STATUS_SERVER {
        PhoneServerFail(M.ServerReported, env);
      } else if status.value == STATUS_SERVER_RESULT_TIMEOUT {
        PhoneServerFail(M.ServerResultTimeout, env);
      } else if status.value == STATUS_PHONE_CONNECTIVITY {
        WatchPhoneFail(M.Connectivity, env);
      } else if status.value == STATUS_PROTOCOL {
        if server.state == M.ServerAwaitingResult {
          PhoneServerFail(M.ServerProtocol, env);
        } else {
          WatchPhoneFail(M.LinkProtocol, env);
        }
      } else if status.value == STATUS_TRANSFER {
        WatchPhoneFail(M.LinkTransfer, env);
      } else {
        WatchPhoneFail(M.LinkProtocol, env);
      }
    }

    method InboxReceived(d: Dict, env: M.Env)
      requires Valid() && BuffersMatch(State())
      modifies this, serverResponse
      ensures Valid() && State() == M.InboxReceived(old(State()), d, env)
    {
      hide State, Reply, Valid, OwnsText, OwnsResponse, BuffersMatch, M.Fail, M.LinkFail, M.ReceiveSendStarted, M.ReceiveFailure,
           M.ReceiveResultChunk, M.ToUint32;
      if state == M.Error || state == M.DisplayingResult {
        return;
      }
      if RequestId !in d {
        Fail(STATUS_PROTOCOL, env);
        return;
      }
      if d[RequestId] != CStringTuple(requestId + [0]) {
        return;
      }
      var version, kind := M.ToUint32(d, ProtocolVersion), M.ToUint32(d, MessageType);
      if version != Some(PROTOCOL_VERSION) || kind.None? {
        Fail(STATUS_PROTOCOL, env);
        return;
      }
      if kind.value == SEND_STARTED {
        ReceiveSendStarted(env);
      } else if kind.value == SERVER_RESULT_CHUNK {
        var accepted := ReceiveServerResultChunk(d, env);
        if !accepted {
          WatchPhoneFail(if bridge.error == M.NoLinkError then M.LinkProtocol else bridge.error, env);
        }
      } else if kind.value == FAILURE {
        ReceiveFailure(d, env);
      } else {
        WatchPhoneFail(M.LinkProtocol, env);
      }
    }

    method InboxDropped(env: M.Env)
      requires Valid()
      modifies this
      ensures Valid() && State() == M.LinkFail(old(State()), M.LinkTransfer, env)
    {
      WatchPhoneFail(M.LinkTransfer, env);
    }

    // ---- Timers and buttons ----

    method TranscriptDeliveryTimeout(env: M.Env)
      requires Valid()
      modifies this
      ensures Valid() && State() == M.TranscriptDeliveryTimeout(old(State()), env)
    {
      hide State, Reply, Valid, M.LinkFail;
      SetSendStartTimer(false);
      WatchPhoneFail(M.SendStartTimeout, env);
    }

    method WsRequestTimeout(env: M.Env)
      requires Valid()
      modifies this
      ensures Valid() && State() == M.WsRequestTimeout(old(State()), env)
    {
      hide State, Reply, Valid, M.ServerFail;
      SetRequestTimer(false);
      PhoneServerFail(M.ServerRequestTimeout, env);
    }

    method ResultChunkTimeout(env: M.Env)
      requires Valid()
      modifies this
      ensures Valid() && State() == M.ResultChunkTimeout(old(State()), env)
    {
      hide State, Reply, Valid, M.LinkFail;
      SetResultChunkTimer(false);
      WatchPhoneFail(M.ResultTransferTimeout, env);
    }

    method StatusShown(env: M.Env)
      requires Valid()
      modifies this`statusPending, this`exitTimer, this`exited
      ensures Valid() && State() == M.StatusVisible(old(State()).(statusPending := false), env)
    {
      hide OwnsText, OwnsResponse, M.StatusVisible;
      statusPending := false;
      TerminalStatusVisible(env);
    }

    method AnimationStopped()
      requires Valid()
      modifies this`statusPending
      ensures Valid() && State() == M.DropStatus(old(State()))
    {
      hide OwnsText, OwnsResponse;
      statusPending := false;
    }

    method ExitAfterError()
      requires Valid()
      modifies this`exitTimer, this`exited
      ensures Valid() && State() == M.ExitAfterError(old(State()))
    {
      hide OwnsText, OwnsResponse;
      exitTimer := false;
      exited := true;
    }

    method BackClick(env: M.Env)
      requires Valid()
      modifies this
      ensures Valid() && State() == M.BackClick(old(State()), env)
    {
      hide State, Reply, Valid, M.Fail;
      if state != M.Error && state != M.DisplayingResult {
        Fail(STATUS_CANCELLED, env);
      }
    }

    method CancelResultTimeout()
      requires Valid()
      modifies this`exitTimer
      ensures Valid() && State() == M.CancelResultTimeout(old(State()))
    {
      hide OwnsText, OwnsResponse;
      if state == M.DisplayingResult {
        exitTimer := false;
      }
    }

    method ResultBackClick()
      requires Valid()
      modifies this`exitTimer, this`exited
      ensures Valid() && State() == M.ResultBackClick(old(State()))
    {
      hide OwnsText, OwnsResponse;
      if state == M.DisplayingResult {
        CancelResultTimeout();
        exited := true;
      }
    }

    // ---- Initialization ----

    constructor (id: seq<Byte>, outboxSize: nat)
      ensures Valid() && State() == M.Blank(id).(outboxSize := outboxSize)
    {
      requestId, this.outboxSize := id, outboxSize;
      bridge := WatchPhoneBridge(M.Idle, M.NoLinkError, false, false, M.OutboxNone, 0, 0, 0, 0, false, false, false, false);
      serverResponse, transcript, transfer := null, null, NO_TRANSFER;
      server := PhoneServerBridge(M.ServerIdle, M.NoServerError, false);
      state, terminalStatus, dictationActive := M.Initializing, STATUS_NORMAL, false;
      exitTimer, statusPending, exited := false, false, false;
      text, received, captured, log := [], None, None, [];
    }

    method SetReady()
      requires Valid()
      modifies this`bridge
      ensures Valid() && State() == old(State()).(ready := true)
    {
      hide OwnsText, OwnsResponse;
      bridge := bridge.(ready := true);
    }

    method EnterDictating()
      requires Valid()
      modifies this`state, this`bridge, this`server
      ensures Valid() && State() == old(State()).(app := M.Dictating, link := M.SessionBeginPending, server := M.Preparing)
    {
      hide OwnsText, OwnsResponse;
      state := M.Dictating;
      bridge := bridge.(state := M.SessionBeginPending);
      server := server.(state := M.Preparing);
    }

    method RecordBegin()
      requires Valid()
      modifies this`bridge, this`log
      ensures Valid() && State() == old(State()).(outbox := M.OutboxSessionBegin, log := [BeginMsg(requestId)])
    {
      hide OwnsText, OwnsResponse;
      bridge := bridge.(outboxMessage := M.OutboxSessionBegin);
      log := [BeginMsg(requestId)];
    }

    method StartListening()
      requires Valid()
      modifies this`dictationActive
      ensures Valid() && State() == old(State()).(dictationActive := true)
    {
      hide OwnsText, OwnsResponse;
      dictationActive := true;
    }

    method BeginSession(launch: M.Launch)
      requires Valid()
      modifies this
      ensures Valid() && State() == Begun(old(State()), launch)
    {
      hide State, Reply, Valid, OwnsText, OwnsResponse, M.Fail;
      EnterDictating();
      if launch.env.send == M.NotConnected {
        Fail(STATUS_PHONE_CONNECTIVITY, launch.env);
        return;
      }
      if launch.env.send == M.Refused {
        Fail(STATUS_TRANSFER, launch.env);
        return;
      }
      RecordBegin();
      if !launch.dictationStarted {
        Fail(STATUS_DICTATION, launch.env);
        return;
      }
      StartListening();
    }

    method Launch(launch: M.Launch)
      requires Valid() && State() == M.Blank(requestId).(outboxSize := outboxSize)
      modifies this
      ensures Valid() && State() == M.Init(requestId, old(outboxSize), launch)
    {
      hide State, Reply, Valid, OwnsText, OwnsResponse, M.Fail;
      if launch.open == M.NotConnected {
        Fail(STATUS_PHONE_CONNECTIVITY, launch.env);
        return;
      }
      if launch.open == M.Refused {
        Fail(STATUS_TRANSFER, launch.env);
        return;
      }
      SetReady();
      if !launch.dictationCreated {
        Fail(STATUS_DICTATION, launch.env);
        return;
      }
      BeginSession(launch);
    }
  }

  /** An acknowledged transcript chunk. */
  function AfterChunk(s: M.Watch, env: M.Env): M.Watch {
    if s.app != M.Bridging || s.link != M.Transferring then M.LinkFail(s, M.LinkProtocol, env)
    else
      var o := s.out.(offset := s.out.offset + s.out.inFlight, index := s.out.index + 1, inFlight := 0);
      if o.index < o.count then M.SendNextChunk(s.(out := o), env)
      else
        var t := s.(out := M.NO_OUTGOING, link := M.AwaitingSendStart);
        if env.timerArmed then t.(timers := t.timers.(sendStart := true)) else M.LinkFail(t, M.LinkTransfer, env)
  }

  /** A transcript was dictated. */
  function AfterSpeech(s: M.Watch, spoken: seq<Byte>, env: M.Env): M.Watch {
    if !env.memory then M.Fail(s, STATUS_TRANSFER, env)
    else
      match Prepare(spoken, s.outboxSize)
      case None => M.Fail(s, STATUS_TRANSFER, env)
      case Some(plan) =>
        M.SendNextChunk(M.ShowProgress(Planned(s, spoken, plan)), env)
  }

  function Planned(s: M.Watch, spoken: seq<Byte>, plan: Plan): M.Watch {
    s.(out := M.Outgoing(spoken, plan.capacity, |plan.chunks|, 0, 0, 0), captured := Some(spoken),
       app := M.Bridging, link := M.Transferring)
  }

  /** The end of initialization: announce the session, then dictate. */
  function Begun(s: M.Watch, launch: M.Launch): M.Watch {
    var t := s.(app := M.Dictating, link := M.SessionBeginPending, server := M.Preparing);
    match launch.env.send
    case NotConnected => M.Fail(t, STATUS_PHONE_CONNECTIVITY, launch.env)
    case Refused => M.Fail(t, STATUS_TRANSFER, launch.env)
    case Sent =>
      var u := t.(outbox := M.OutboxSessionBegin, log := [BeginMsg(s.id)]);
      if !launch.dictationStarted then M.Fail(u, STATUS_DICTATION, launch.env) else u.(dictationActive := true)
  }

  function ChunkSent(s: M.Watch, length: nat): M.Watch {
    s.(out := s.out.(inFlight := length), outbox := M.OutboxTranscriptChunk,
       log := s.log + [ChunkMsg(s.id, s.out.index, s.out.count, |s.out.text|,
                                CString(if length <= |M.Rest(s.out)| then M.Rest(s.out)[..length] else []))])
  }

  lemma NothingToCut(s: M.Watch)
    ensures M.Rest(s.out) == [] ==> NextLen(M.Rest(s.out), s.out.capacity) == 0
  {
  }

  lemma {:induction false} CStringCut(a: seq<Byte>, b: seq<Byte>)
    ensures CString(a + [0] + b) == CString(a)
  {
    if a != [] {
      assert (a + [0] + b)[1..] == a[1..] + [0] + b;
      CStringCut(a[1..], b);
    }
  }

  lemma FailForgets(s: M.Watch, out: M.Outgoing, status: nat, env: M.Env)
    requires s.app != M.Error && s.app != M.DisplayingResult
    ensures M.Fail(s.(out := out), status, env) == M.Fail(s, status, env)
  {
    hide M.TrySendEnd, M.ShowErrorStatus;
  }
}
