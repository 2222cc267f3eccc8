/** The mutable watch application runs exactly the state machine about which everything else is
    proved: each callback is one step, and the invariant of the steps is an invariant of the object. */
module WatchCallbacks {
  import opened Unicode
  import opened Messages
  import opened WatchApp
  import M = WatchModel
  import WP = WatchProofs

  /** The buffers are where the callbacks need them: none is owned before it is allocated, and the
      one in use is. */
  lemma InvMatchesBuffers(s: M.Watch)
    requires WP.WatchInv(s)
    ensures BuffersMatch(s)
  {
    hide Decode8, WP.Script;
    if s.app == M.Bridging && s.link == M.Transferring {
      PlannedIsNonEmpty(s.captured.value, s.outboxSize);
    }
  }

  lemma PlannedIsNonEmpty(t: seq<Byte>, outboxSize: nat)
    requires WP.Plannable(t, outboxSize)
    ensures t != []
  {
  }

  method Start(id: seq<Byte>, outboxSize: nat, launch: M.Launch) returns (app: WatchApp)
    ensures fresh(app) && app.Valid() && app.State() == M.Init(id, outboxSize, launch) && WP.WatchInv(app.State())
  {
    hide M.Init, WP.WatchInv;
    app := new WatchApp(id, outboxSize);
    SizesAgree(app, id, outboxSize);
    app.Launch(launch);
    WP.InitEstablishesInv(id, outboxSize, launch);
  }

  lemma SizesAgree(app: WatchApp, id: seq<Byte>, outboxSize: nat)
    requires app.State() == M.Blank(id).(outboxSize := outboxSize)
    ensures app.requestId == id && app.outboxSize == outboxSize
  {
  }

  method Handle(app: WatchApp, e: M.Event, env: M.Env)
    requires app.Valid() && WP.WatchInv(app.State()) && M.Enabled(app.State(), e)
    modifies app, app.transcript, app.serverResponse
    ensures app.Valid() && app.State() == M.Step(old(app.State()), e, env) && WP.WatchInv(app.State())
  {
    hide WP.WatchInv, BuffersMatch, M.DictationEnded, M.OutboxSent, M.OutboxFailed, M.InboxReceived, M.LinkFail, M.TranscriptDeliveryTimeout,
         M.WsRequestTimeout, M.ResultChunkTimeout, M.StatusVisible, M.DropStatus, M.ExitAfterError, M.BackClick, M.CancelResultTimeout, M.ResultBackClick,
         M.Enabled, OwnsText, OwnsResponse;
    WP.StepKeepsInv(app.State(), e, env);
    InvMatchesBuffers(app.State());
    match e
    case Dictation(result, transcription) => app.DictationStatus(result, transcription, env);
    case OutboxSentEvent => app.OutboxSent(env);
    case OutboxFailedEvent(notConnected) => app.OutboxFailed(notConnected, env);
    case Inbox(d) => app.InboxReceived(d, env);
    case InboxDropped => app.InboxDropped(env);
    case SendStartExpired => app.TranscriptDeliveryTimeout(env);
    case RequestExpired => app.WsRequestTimeout(env);
    case ResultChunkExpired => app.ResultChunkTimeout(env);
    case StatusShown => app.StatusShown(env);
    case StatusDropped => app.AnimationStopped();
    case ExitExpired => app.ExitAfterError();
    case Back => app.BackClick(env);
    case ResultButton => app.CancelResultTimeout();
    case ResultBack => app.ResultBackClick();
  }
}
