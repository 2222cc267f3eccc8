/** Whole runs of the watch, from launch through any sequence of callbacks. */
module WatchRuns {
  import opened Unicode
  import opened Messages
  import opened WatchCodec
  import opened WatchModel
  import opened WatchFrames
  import opened WatchProofs

  datatype Action = Action(event: Event, env: Env)

  function Run(s: Watch, actions: seq<Action>): Watch
    decreases |actions|
  {
    if actions == [] then s else Run(Step(s, actions[0].event, actions[0].env), actions[1..])
  }

  predicate Possible(s: Watch, actions: seq<Action>)
    decreases |actions|
  {
    actions == [] || (Enabled(s, actions[0].event) && Possible(Step(s, actions[0].event, actions[0].env), actions[1..]))
  }

  lemma {:induction false} RunKeepsInv(s: Watch, actions: seq<Action>)
    requires WatchInv(s) && Possible(s, actions)
    ensures WatchInv(Run(s, actions))
    decreases |actions|
  {
    hide WatchInv, Step, Enabled;
    if actions != [] {
      StepKeepsInv(s, actions[0].event, actions[0].env);
      RunKeepsInv(Step(s, actions[0].event, actions[0].env), actions[1..]);
    }
  }

  ghost predicate Reachable(s: Watch) {
    exists id, outboxSize, launch, actions ::
      && Possible(Init(id, outboxSize, launch), actions)
      && s == Run(Init(id, outboxSize, launch), actions)
  }

  lemma ReachableInv(s: Watch)
    requires Reachable(s)
    ensures WatchInv(s)
  {
    hide WatchInv, Init;
    var id, outboxSize, launch, actions :|
      Possible(Init(id, outboxSize, launch), actions) && s == Run(Init(id, outboxSize, launch), actions);
    InitEstablishesInv(id, outboxSize, launch);
    RunKeepsInv(Init(id, outboxSize, launch), actions);
  }

  /** Timers, in-flight messages and buffers match the phase in every reachable state: while
      bridging each watchdog runs in exactly one phase, a transfer always has a message in
      flight, and a terminal state has no watchdog and a failed one no buffer. */
  lemma PhaseDiscipline(s: Watch)
    requires Reachable(s)
    ensures s.app == Bridging ==>
              && (s.timers.sendStart <==> s.link == AwaitingSendStart)
              && (s.timers.request <==> s.link == AwaitingResult)
              && (s.timers.resultChunk <==> s.link == ReceivingResult)
              && (s.link == Transferring <==> s.outbox in {OutboxSessionBegin, OutboxTranscriptChunk})
              && (s.out.text != [] <==> s.link == Transferring)
              && (s.inc.buffer.Some? <==> s.link == ReceivingResult)
    ensures s.app == Error ==> s.timers == DISARMED && s.out.text == [] && s.inc.buffer == None && !s.dictationActive
    ensures s.app == DisplayingResult ==>
              s.timers == DISARMED && s.out.text == [] && s.outbox == OutboxNone
              && s.inc.buffer.Some? && Decode8(s.inc.buffer.value).Some? && |s.inc.buffer.value| <= MAX_RESPONSE_BYTES
    ensures s.app == Dictating ==> s.timers == DISARMED && (s.outbox == OutboxSessionBegin <==> !s.beginDelivered)
    ensures s.app != Initializing
  {
    ReachableInv(s);
  }

  /** What any run hands to the outbox: a prefix of begin, chunk 0, ..., chunk n-1 of the greedy
      plan, then at most one `SESSION_END`, which is last and carries the status on display. */
  lemma OutboxLanguage(s: Watch)
    requires Reachable(s)
    ensures Spoken(s.id, s.captured, s.outboxSize, s.status, s.log)
    ensures s.app in {Dictating, Bridging, DisplayingResult} ==> OnScript(s.id, s.captured, s.outboxSize, s.log)
    ensures (s.app == Bridging && s.link != Transferring) || s.app == DisplayingResult ==>
              s.captured.Some? && s.log == Script(s.id, s.captured, s.outboxSize)
  {
    hide Prepare, Decode8, Plannable, ChunksOf, Reachable;
    ReachableInv(s);
  }

  /** One callback hands over at most one message, and only when none is outstanding: the outbox
      was idle, or the callback itself reported the end of the previous message. */
  lemma OneMessageAtATime(s: Watch, e: Event, env: Env)
    requires Reachable(s) && Enabled(s, e)
    ensures SaysAtMostOne(Found(s, e), Step(s, e, env))
  {
    hide WatchInv, Step, Reachable, Keeps, IsResultFor, ReceiveResultChunk;
    ReachableInv(s);
    StepFrame(s, e, env);
    if e.Inbox? {
      ReceiveFrame(s, e.dict, env);
    }
  }

  /** The branch for an acknowledged chunk outside the transfer phase is never taken. */
  lemma AcknowledgedChunkIsInPhase(s: Watch)
    requires Reachable(s) && s.outbox == OutboxTranscriptChunk && s.app != Error
    ensures s.app == Bridging && s.link == Transferring
  {
    ReachableInv(s);
  }

  // ---- Termination ----

  ghost predicate Follows(s: Watch, t: Watch) {
    exists e, env :: Enabled(s, e) && t == Step(s, e, env)
  }

  ghost predicate InfiniteRun(run: nat -> Watch) {
    WatchInv(run(0)) && forall i: nat :: Follows(run(i), run(i + 1))
  }

  lemma FollowsKeepsInv(s: Watch, t: Watch)
    requires WatchInv(s) && Follows(s, t)
    ensures WatchInv(t)
    ensures Terminal(s) || t == s || Terminal(t) || Less(Measure(t), Measure(s))
  {
    hide WatchInv, Step, Enabled, Measure, Terminal, Less;
    var e, env :| Enabled(s, e) && t == Step(s, e, env);
    StepKeepsInv(s, e, env);
  }

  lemma {:induction false} InfiniteRunKeepsInv(run: nat -> Watch, i: nat)
    requires InfiniteRun(run)
    ensures WatchInv(run(i))
  {
    hide WatchInv, Follows;
    if i > 0 {
      InfiniteRunKeepsInv(run, i - 1);
      assert Follows(run(i - 1), run(i - 1 + 1));
      FollowsKeepsInv(run(i - 1), run(i));
    }
  }

  /** No infinite run stays active: from any point on it either ends in a result or an error, or
      meets a callback that is ignored.  In particular nothing is ever retried. */
  lemma {:induction false} NoInfiniteActivity(run: nat -> Watch, i: nat)
    requires InfiniteRun(run)
    ensures exists j: nat :: j >= i && (Terminal(run(j)) || run(j + 1) == run(j))
    decreases Measure(run(i)).phase, Measure(run(i)).begin, Measure(run(i)).transcript, Measure(run(i)).result
  {
    hide WatchInv, Follows, Measure, Terminal;
    if !Terminal(run(i)) && run(i + 1) != run(i) && !Terminal(run(i + 1)) {
      InfiniteRunKeepsInv(run, i);
      FollowsKeepsInv(run(i), run(i + 1));
      NoInfiniteActivity(run, i + 1);
    }
  }

  // ---- Leaving the error display ----

  /** A callback that fails the session leads to the exit if and only if it is not the one that
      loses it. */
  lemma ErrorExitsIff(s: Watch, e: Event, env: Env)
    requires Reachable(s) && !Terminal(s) && Enabled(s, e) && Step(s, e, env).app == Error
    ensures WillExit(Step(s, e, env)) <==> !LosesExit(s, e, env)
  {
    hide WatchInv, Step, Reachable, Frame, IsResultFor, ReceiveResultChunk, WillExit, LosesExit;
    ReachableInv(s);
    ActiveFrame(s, e, env);
    if e.Inbox? {
      ReceiveFrame(s, e.dict, env);
    }
  }

  /** From then on only an animation that is cut short changes it: whatever happens, an exit that
      is coming stays until its animation is cut short, and one that is lost never comes back. */
  lemma ExitIsSettled(s: Watch, actions: seq<Action>)
    requires Reachable(s) && s.app == Error && Possible(s, actions)
    ensures Run(s, actions).app == Error
    ensures WillExit(Run(s, actions)) <==> WillExit(s) && forall k | 0 <= k < |actions| :: actions[k].event != StatusDropped
  {
    hide Step, Reachable, Run, Possible, WillExit, WatchInv;
    ReachableInv(s);
    ErrorRun(s, actions);
  }

  lemma {:induction false} ErrorRun(s: Watch, actions: seq<Action>)
    requires WatchInv(s) && s.app == Error && Possible(s, actions)
    ensures Run(s, actions).app == Error
    ensures WillExit(Run(s, actions)) <==> WillExit(s) && forall k | 0 <= k < |actions| :: actions[k].event != StatusDropped
    decreases |actions|
  {
    hide Step, WatchInv, WillExit, Enabled;
    if actions != [] {
      var e, env := actions[0].event, actions[0].env;
      ErrorStep(s, e, env);
      ErrorRun(Step(s, e, env), actions[1..]);
      assert forall k | 0 < k < |actions| :: actions[k] == actions[1..][k - 1];
    }
  }

  lemma ErrorStep(s: Watch, e: Event, env: Env)
    requires WatchInv(s) && s.app == Error && Enabled(s, e)
    ensures Step(s, e, env).app == Error && WatchInv(Step(s, e, env))
    ensures WillExit(Step(s, e, env)) <==> WillExit(s) && e != StatusDropped
  {
    hide Step, WatchInv;
    StepKeepsInv(s, e, env);
    ErrorFrame(s, e, env);
    PendingOrArmed(s);
  }

  lemma PendingOrArmed(s: Watch)
    requires WatchInv(s) && s.app == Error
    ensures !(s.statusPending && s.exitTimer)
  {
    hide Spoken;
  }

  // A run that loses it: one-letter transcript, everything granted but the last watchdog timer.

  const GRANTED := Env(Sent, true, true, true, true, true, true, true)
  const NO_TIMER := Env(Sent, true, true, false, true, true, true, false)
  const LETTER: seq<Byte> := [0x61]
  const ROOMY: nat := OVERHEAD + 1

  function SendStartedFor(id: seq<Byte>): Dict {
    map[RequestId := CStringTuple(id + [0]), ProtocolVersion := Number(PROTOCOL_VERSION), MessageType := Number(SEND_STARTED)]
  }

  lemma LetterPlan()
    ensures NextLen(LETTER, 1) == 1 && CString(LETTER) == LETTER
    ensures Prepare(LETTER, ROOMY) == Some(Plan(1, [LETTER]))
  {
    assert NextLen(LETTER, 1) == 1;
    assert LETTER[1..] == [] && LETTER[..1] == LETTER;
    assert Chunks([], 1) == Some([]);
    assert [LETTER] + [] == [LETTER];
  }

  function LosingRun(id: seq<Byte>): seq<Action> {
    [Action(OutboxSentEvent, GRANTED)]
    + ([Action(Dictation(DictationStatus.Success, Some(LETTER)), GRANTED)]
       + ([Action(OutboxSentEvent, GRANTED)] + ([Action(Inbox(SendStartedFor(id)), NO_TIMER)] + [])))
  }

  lemma RunCons(s: Watch, a: Action, rest: seq<Action>)
    requires Enabled(s, a.event)
    ensures Run(s, [a] + rest) == Run(Step(s, a.event, a.env), rest)
    ensures Possible(s, [a] + rest) == Possible(Step(s, a.event, a.env), rest)
  {
    assert ([a] + rest)[1..] == rest;
  }

  lemma LetterSent(s: Watch)
    requires s.app == Bridging && s.link == Transferring && s.beginDelivered && s.outbox == OutboxNone && s.ready
    requires s.out == Outgoing(LETTER, 1, 1, 0, 0, 0)
    ensures SendNextChunk(s, GRANTED) == s.(out := Outgoing(LETTER, 1, 1, 0, 0, 1), outbox := OutboxTranscriptChunk,
                                            log := s.log + [ChunkMsg(s.id, 0, 1, 1, LETTER)])
  {
    hide NextLen;
    LetterPlan();
    assert LETTER[0..] == LETTER && LETTER[..1] == LETTER;
  }

  /** The state in which the transcript has been delivered and the watch waits for the send. */
  lemma LetterDelivered(id: seq<Byte>)
    ensures var s0 := Init(id, ROOMY, Launch(Sent, true, true, GRANTED));
            var s1 := Step(s0, OutboxSentEvent, GRANTED);
            var s2 := Step(s1, Dictation(DictationStatus.Success, Some(LETTER)), GRANTED);
            var s3 := Step(s2, OutboxSentEvent, GRANTED);
            && Enabled(s0, OutboxSentEvent)
            && Enabled(s1, Dictation(DictationStatus.Success, Some(LETTER)))
            && Enabled(s2, OutboxSentEvent)
            && s3.id == id && s3.app == Bridging && s3.link == AwaitingSendStart && s3.server == Preparing
            && !s3.exitTimer && !s3.exited && s3.ready
  {
    hide Prepare, SendNextChunk, CString, LETTER, Fail;
    LetterPlan();
    var s0 := Init(id, ROOMY, Launch(Sent, true, true, GRANTED));
    var s1 := s0.(outbox := OutboxNone, beginDelivered := true, link := Ready);
    assert SendNextChunk(s1, GRANTED) == s1 by { NotBridging(s1, GRANTED); }
    assert Step(s0, OutboxSentEvent, GRANTED) == s1;
    var u := s1.(dictationActive := false, out := Outgoing(LETTER, 1, 1, 0, 0, 0), captured := Some(LETTER),
                 app := Bridging, link := Transferring);
    LetterSent(u);
    assert |LETTER| > 0 by { LetterPlan(); NonEmptyLetter(); }
    assert Step(s1, Dictation(DictationStatus.Success, Some(LETTER)), GRANTED) == SendNextChunk(u, GRANTED);
  }

  lemma NonEmptyLetter()
    ensures LETTER != []
  {
  }

  lemma NotBridging(s: Watch, env: Env)
    requires s.app != Bridging
    ensures SendNextChunk(s, env) == s
  {
  }

  /** "ERROR always exits" is false: this run ends in an error display without an exit. */
  lemma ErrorCanStayForever(id: seq<Byte>)
    ensures var s := Init(id, ROOMY, Launch(Sent, true, true, GRANTED));
            && Possible(s, LosingRun(id))
            && Run(s, LosingRun(id)).app == Error && !WillExit(Run(s, LosingRun(id)))
  {
    hide Prepare, CString, LETTER, Step, Init, Enabled, Run, Possible;
    LetterDelivered(id);
    var s0 := Init(id, ROOMY, Launch(Sent, true, true, GRANTED));
    var s1 := Step(s0, OutboxSentEvent, GRANTED);
    var s2 := Step(s1, Dictation(DictationStatus.Success, Some(LETTER)), GRANTED);
    var s3 := Step(s2, OutboxSentEvent, GRANTED);
    LastStepLoses(s3);
    var d := Action(Inbox(SendStartedFor(id)), NO_TIMER);
    RunCons(s3, d, []);
    RunCons(s2, Action(OutboxSentEvent, GRANTED), [d] + []);
    RunCons(s1, Action(Dictation(DictationStatus.Success, Some(LETTER)), GRANTED), [Action(OutboxSentEvent, GRANTED)] + ([d] + []));
    RunCons(s0, Action(OutboxSentEvent, GRANTED),
            [Action(Dictation(DictationStatus.Success, Some(LETTER)), GRANTED)] + ([Action(OutboxSentEvent, GRANTED)] + ([d] + [])));
  }

  lemma LastStepLoses(s: Watch)
    requires s.app == Bridging && s.link == AwaitingSendStart && s.server == Preparing && !s.exitTimer && !s.exited
    ensures var t := Step(s, Inbox(SendStartedFor(s.id)), NO_TIMER);
            && Enabled(s, Inbox(SendStartedFor(s.id)))
            && t.app == Error && !WillExit(t) && Run(t, []) == t && Possible(t, [])
  {
    hide LinkFail, ReceiveResultChunk, ReceiveFailure;
    var t := s.(timers := s.timers.(sendStart := false), link := AwaitingResult, server := ServerAwaitingResult);
    LinkFailFrame(t, LinkTransfer, NO_TIMER);
  }

  // ---- What the final state says ----

  /** A callback that fails the session leaves the status of its cause. */
  lemma StatusNamesCause(s: Watch, e: Event, env: Env)
    requires Reachable(s) && !Terminal(s) && Enabled(s, e) && Step(s, e, env).app == Error
    ensures Step(s, e, env).status == Cause(s, e, env)
  {
    hide WatchInv, Step, Reachable, Keeps, SaysAtMostOne, IsResultFor, ReceiveResultChunk, WillExit, LosesExit, Cause;
    ReachableInv(s);
    ActiveFrame(s, e, env);
    if e.Inbox? {
      ReceiveFrame(s, e.dict, env);
    }
  }

  /** A displayed result is final: from the callback that displays it on, whatever happens, nothing
      on display changes.  Displaying completes the link, but a dropped inbox message still marks
      it failed, and nothing else does. */
  lemma DisplayIsFinal(s: Watch, e: Event, env: Env, actions: seq<Action>)
    requires Reachable(s) && !Terminal(s) && Enabled(s, e) && Step(s, e, env).app == DisplayingResult
    requires Possible(Step(s, e, env), actions)
    ensures var t := Step(s, e, env); var u := Run(t, actions);
            && u.app == DisplayingResult && u.inc == t.inc && u.log == t.log
            && u.link == if exists k | 0 <= k < |actions| :: actions[k].event == InboxDropped then LinkState.Failed else LinkState.Complete
  {
    hide Step, Reachable, Run, Possible, WatchInv, Enabled;
    ReachableInv(s);
    StepKeepsInv(s, e, env);
    DisplayCompletes(s, e, env);
    DisplayRun(Step(s, e, env), actions);
  }

  lemma {:induction false} DisplayRun(s: Watch, actions: seq<Action>)
    requires WatchInv(s) && s.app == DisplayingResult && Possible(s, actions)
    ensures var u := Run(s, actions);
            && u.app == DisplayingResult && u.inc == s.inc && u.log == s.log
            && u.link == if exists k | 0 <= k < |actions| :: actions[k].event == InboxDropped then LinkState.Failed else s.link
    decreases |actions|
  {
    hide Step, WatchInv, Enabled;
    if actions != [] {
      var e, env := actions[0].event, actions[0].env;
      StepKeepsInv(s, e, env);
      DisplayFrame(s, e, env);
      DisplayRun(Step(s, e, env), actions[1..]);
      assert forall k | 0 < k < |actions| :: actions[k] == actions[1..][k - 1];
    }
  }

  /** Only an accepted result chunk leads to the display, and then the link is complete. */
  lemma DisplayCompletes(s: Watch, e: Event, env: Env)
    requires WatchInv(s) && !Terminal(s) && Enabled(s, e) && Step(s, e, env).app == DisplayingResult
    ensures Step(s, e, env).link == LinkState.Complete
  {
    hide Step, WatchInv, Enabled, ReceiveResultChunk, WillExit, LosesExit, Cause, SaysAtMostOne, FailsWith, IsResultFor;
    StepKeepsInv(s, e, env);
    ActiveFrame(s, e, env);
    var t := Step(s, e, env);
    if AcceptsResult(s, e, env, t) {
      ShownIsLinked(s, e.dict, env);
    } else {
      NotYetShown(s, t);
    }
  }

  lemma NotYetShown(s: Watch, t: Watch)
    requires WatchInv(s) && !Terminal(s) && WatchInv(t) && t.app == DisplayingResult
    ensures t.inc != s.inc && t.inc != NO_INCOMING
  {
    hide Spoken, Script, Planned, Delivered, Decode8;
  }

  lemma ShownIsLinked(s: Watch, d: Dict, env: Env)
    requires !Terminal(s) && ReceiveResultChunk(s, d, env).1 && ReceiveResultChunk(s, d, env).0.app == DisplayingResult
    ensures ReceiveResultChunk(s, d, env).0.link == LinkState.Complete
  {
    hide ReadResultChunk, StoreChunk, OpenResult;
    var c := ReadResultChunk(d).value;
    OpenFrame(s, c, env);
    StoredAndShown(OpenResult(s, c, env).0, c, env);
  }

  lemma StoredAndShown(s: Watch, c: ResultChunk, env: Env)
    requires s.app != DisplayingResult && StoreChunk(s, c, env).1 && StoreChunk(s, c, env).0.app == DisplayingResult
    ensures StoreChunk(s, c, env).0.link == LinkState.Complete
  {
    hide FinishResult, AwaitMoreResult;
    var have := if s.inc.buffer.Some? then s.inc.buffer.value else [];
    EndingShows(s.(inc := s.inc.(buffer := Some(have + c.text), next := s.inc.next + 1)), env);
  }

  lemma EndingShows(s: Watch, env: Env)
    ensures FinishResult(s, env).0.link == LinkState.Complete && AwaitMoreResult(s, env).0.app == s.app
  {
    hide ShowResult;
    ShownIff(s.(link := LinkState.Complete, timers := s.timers.(resultChunk := false)), env);
    if env.timerArmed {
    }
  }
}
