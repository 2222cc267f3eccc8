/** Watch, phone, server and the channels between them as one step relation.  Between watch and
    phone messages may be lost, reordered and (except `SESSION_BEGIN`) repeated; each endpoint
    also receives arbitrary messages of other sessions; the server, its connection, the timers,
    the platform and every delivery report are arbitrary. */
module System {
  import opened Unicode
  import opened Messages
  import opened Protocol
  import opened ResultTransfer
  import W = WatchModel
  import P = PhoneModel

  /** `session` is the phone session that the watch's own `SESSION_BEGIN` started. */
  datatype System = System(watch: W.Watch, phone: P.Phone, session: Option<nat>)

  datatype SystemStep =
    | WatchActs(event: W.Event, watchEnv: W.Env)
    | WatchHears(at: nat, hearEnv: W.Env)
    | PhoneActs(phoneEvent: P.PhoneEvent, phoneEnv: P.PhoneEnv)
    | PhoneHears(at: nat, phoneEnv: P.PhoneEnv)

  /** The payload is not of the session with this identifier. */
  predicate Foreign(payload: Option<JsPayload>, id: seq<Unit>) {
    payload.None? || Field(payload.value, RequestId) != JsString(id)
  }

  /** What the watch receives for the entry the phone handed over at this position. */
  function Heard(s: System, at: nat): Dict
    requires at < |s.phone.t.sent|
  {
    ToDict(s.phone.t.sent[at].payload)
  }

  /** Anything may happen at any time, except that a session identifier is used by one watch run
      only and its `SESSION_BEGIN` reaches the phone at most once. */
  predicate CanHappen(s: System, step: SystemStep) {
    match step
    case WatchActs(e, _) => W.Enabled(s.watch, e) && (e.Inbox? ==> !W.IdMatches(s.watch, e.dict))
    case WatchHears(at, _) => at < |s.phone.t.sent| && !s.watch.exited
    case PhoneActs(e, _) => P.Enabled(s.phone, e) && (e.AppMessage? ==> Foreign(e.payload, s.watch.id))
    case PhoneHears(at, _) => at < |s.watch.log| && (s.watch.log[at].BeginMsg? ==> s.session == None)
  }

  function Next(s: System, step: SystemStep): System
    requires CanHappen(s, step)
  {
    match step
    case WatchActs(e, env) => s.(watch := W.Step(s.watch, e, env))
    case WatchHears(at, env) => s.(watch := W.Step(s.watch, W.Inbox(Heard(s, at)), env))
    case PhoneActs(e, env) => s.(phone := P.Step(s.phone, e, env))
    case PhoneHears(at, env) =>
      var m := s.watch.log[at];
      s.(phone := P.Step(s.phone, P.AppMessage(Some(ToJs(m))), env),
         session := if m.BeginMsg? then Some(|s.phone.sessions|) else s.session)
  }

  predicate Possible(s: System, steps: seq<SystemStep>)
    decreases |steps|
  {
    steps == [] || (CanHappen(s, steps[0]) && Possible(Next(s, steps[0]), steps[1..]))
  }

  function Run(s: System, steps: seq<SystemStep>): System
    requires Possible(s, steps)
    decreases |steps|
  {
    if steps == [] then s else Run(Next(s, steps[0]), steps[1..])
  }

  /** The watch has just been launched; the phone may have been running before. */
  function Start(id: seq<Byte>, outboxSize: nat, launch: W.Launch, phone: P.Phone): System {
    System(W.Init(id, outboxSize, launch), phone, None)
  }
}
