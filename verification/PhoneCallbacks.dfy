/** The mutable phone application runs exactly the state machine about which everything else is
    proved, and keeps its invariant. */
module PhoneCallbacks {
  import opened Unicode
  import opened Messages
  import opened Protocol
  import opened PhoneApp
  import P = PhoneModel
  import PP = PhoneProofs
  import PS = PhoneSteps

  method Start() returns (app: PhoneApp)
    ensures fresh(app) && app.Valid() && app.State() == P.IDLE_PHONE && PP.Inv(app.State())
  {
    hide PP.Inv;
    app := new PhoneApp();
    PS.IdleIsInv();
  }

  /** `entry` is what the callback of `sendAppMessage` closes over. */
  method Handle(app: PhoneApp, e: P.PhoneEvent, entry: Option<P.Entry>, env: P.PhoneEnv)
    requires app.Valid() && PP.Inv(app.State()) && P.Enabled(app.State(), e)
    requires e.Delivered? ==> entry.Some? && P.Current(app.Wire()) == entry
    modifies app, app.sessions
    ensures app.Valid() && app.State() == P.Step(old(app.State()), e, env) && PP.Inv(app.State())
  {
    hide PP.Inv, P.OnAppMessage, P.Finish, P.TrySend, P.FailSocket, P.HandleFrame, PhoneApp.State, P.Current, P.Resolve;
    PS.StepKeepsInv(app.State(), e, env);
    PS.ActiveIsKnown(app.State());
    app.ForeseeRefusals(env.refusals);
    match e
    case AppMessage(payload) => app.OnAppMessage(payload, env);
    case Delivered(ok) => app.Finish(entry.value, ok);
    case ReadyState(i, value) => app.ReadyStateChanged(i, value);
    case SocketOpen(i) => app.SocketOpened(i, env.call);
    case SocketErrorEvent(i) => app.FailSocket(i, P.ServerFailure);
    case SocketCloseEvent(i) => app.FailSocket(i, P.ServerFailure);
    case SocketMessage(i, data) => app.HandleFrame(i, data);
    case HandoffExpired(i) => app.HandoffExpired(i);
    case ResultExpired(i) => app.ResultExpired(i);
  }
}
