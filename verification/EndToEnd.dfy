/** From the watch's microphone to the server's handler and back to the watch's screen. */
module EndToEnd {
  import opened Unicode
  import opened Messages
  import opened Protocol
  import opened ResultTransfer
  import opened TranscriptTransfer
  import opened System
  import opened SystemProofs
  import W = WatchModel
  import WP = WatchProofs
  import WF = WatchFrames
  import P = PhoneModel
  import S = Server

  /** Whatever a run sends for the watch's request, the server accepts it, and its handler is
      called with the watch's identifier and exactly the dictated text. */
  lemma HandlerHearsTheWatch(s: System, i: nat, k: nat)
    requires Reachable(s) && i < |s.phone.sessions| && s.phone.sessions[i].id == s.watch.id && k < |s.phone.sessions[i].sends|
    ensures s.watch.captured.Some? && Decode8(s.watch.captured.value).Some?
    ensures S.ParseDictationMessage(S.ToServer(s.phone.sessions[i].sends[k]))
            == S.Accepted(S.DictationMessage(s.watch.id, Decode8(s.watch.captured.value).value))
  {
    hide Reachable, Decode8, Decode16, BuildRequest, ToJsText, WP.WatchInv, S.ParseDictationMessage, S.ToServer;
    TranscriptSafety(s, i);
    assert IsRequest(s.watch, s.phone.sessions[i].sends[k]);
    S.RequestIsAccepted(s.watch.id, ToJsText(s.watch.captured.value));
    ToJsTextWellFormed(s.watch.captured.value);
    ReachableCaptures(s);
  }

  lemma ReachableCaptures(s: System)
    requires Reachable(s) && s.watch.captured.Some?
    ensures s.watch.captured.value != []
  {
    hide Reachable, WP.WatchInv;
    ReachableInv(s);
    HasWatchId(s);
    WF.CapturedIsPlannable(s.watch);
    PlanIsReadable(s.watch.captured.value, s.watch.outboxSize);
  }

  /** When the frame that the session accepted is the server's reply to its request, the watch
      displays what the handler returned: its flag, and its text in UTF-8. */
  lemma ShownIsTheHandlers(s: System, transcript: seq<S.CodePoint>, outcome: S.HandlerOutcome)
    requires Reachable(s) && s.watch.app == W.DisplayingResult
    requires S.IsServerRequestId(S.PyStr(s.watch.id)) && s.session.Some? && s.session.value < |s.phone.sessions|
    requires s.phone.sessions[s.session.value].accepted
             == Some(S.ToPhone(S.ReplyTo(S.DictationMessage(s.watch.id, transcript), outcome)))
    ensures S.IsValidResult(outcome)
    ensures s.watch.inc.buffer == Some(Utf8All(S.Scalars(outcome.response.text)))
    ensures s.watch.inc.success == outcome.success.b
  {
    hide Reachable, Decode16, ParseServerFrame, S.ToPhone, S.ErrorReply, S.IsErrorCode, IsRequest, S.IsServerRequestId, S.ResultPayload;
    ResultSafety(s);
    S.CodesAreValid();
    if outcome.Raised? {
      S.ErrorIsServerError(s.watch.id, S.HANDLER_ERROR);
    } else if !S.IsValidResult(outcome) {
      NoPayload(s.watch.id, outcome);
      S.ErrorIsServerError(s.watch.id, S.INVALID_HANDLER_RESULT);
    } else {
      HasPayload(s.watch.id, outcome);
      S.ResultIsResult(s.watch.id, outcome);
      Decode16Encode(S.Scalars(outcome.response.text));
    }
  }

  lemma NoPayload(id: seq<S.CodePoint>, outcome: S.HandlerOutcome)
    requires !S.IsValidResult(outcome)
    ensures S.ResultPayload(id, outcome) == None
  {
  }

  lemma HasPayload(id: seq<S.CodePoint>, outcome: S.HandlerOutcome)
    requires S.IsServerRequestId(S.PyStr(id)) && S.IsValidResult(outcome)
    ensures S.ResultPayload(id, outcome).Some? && !outcome.Raised?
  {
  }

  // ---- Failures ----

  lemma FailureReadsBack(w: W.Watch, status: nat, env: W.Env)
    requires IsWatchId(w.id) && !WP.Terminal(w)
    ensures W.ToUint32(ToDict(FailureMsg(w.id, status)), StatusCode) == Some(status)
    ensures W.InboxReceived(w, ToDict(FailureMsg(w.id, status)), env) == W.ReceiveFailure(w, ToDict(FailureMsg(w.id, status)), env)
  {
    hide W.IdMatches, W.ReceiveSendStarted, W.ReceiveResultChunk, W.ReceiveFailure, W.LinkFail, W.Fail;
    IdText(w.id);
    HeaderReadsBack(w, FailureMsg(w.id, status));
    var d := ToDict(FailureMsg(w.id, status));
    assert d[StatusCode] == Number(status);
  }

  /** A failure that the phone reports ends the session with the phone's own status, if that status
      is one the phone may report, and with a protocol error otherwise. */
  lemma FailureRoundTrip(w: W.Watch, status: nat, env: W.Env)
    requires IsWatchId(w.id) && !WP.Terminal(w)
    ensures var t := W.InboxReceived(w, ToDict(FailureMsg(w.id, status)), env);
            && t.app == W.Error
            && t.status == if STATUS_PHONE_CONNECTIVITY <= status <= STATUS_SERVER_RESULT_TIMEOUT then status else STATUS_PROTOCOL
  {
    hide ToDict, W.InboxReceived, W.LinkFail, W.ServerFail, W.ToUint32;
    FailureReadsBack(w, status, env);
    WF.LinkFailFrame(w, W.LinkProtocol, env);
    WF.LinkFailFrame(w, W.Connectivity, env);
    WF.LinkFailFrame(w, W.LinkTransfer, env);
    WF.ServerFailFrame(w, W.ServerProtocol, env);
    WF.ServerFailFrame(w, W.ServerReported, env);
    WF.ServerFailFrame(w, W.ServerResultTimeout, env);
  }

  /** So every failure of the socket bridge is told apart on the watch's screen as documented. */
  lemma SocketFailureIsReported(w: W.Watch, error: P.SocketError, env: W.Env)
    requires IsWatchId(w.id) && !WP.Terminal(w)
    ensures var t := W.InboxReceived(w, ToDict(FailureMsg(w.id, P.StatusForServerError(error))), env);
            && t.app == W.Error
            && (t.status == STATUS_SERVER <==> error == P.ServerFailure)
            && (t.status == STATUS_PROTOCOL <==> error == P.ProtocolFailure)
            && (t.status == STATUS_SERVER_RESULT_TIMEOUT <==> error == P.ResultTimeout)
            && (t.status == STATUS_TRANSFER <==> error == P.SendFailure || error == P.HandoffTimeout)
  {
    hide ToDict, W.InboxReceived;
    FailureRoundTrip(w, P.StatusForServerError(error), env);
  }
}
