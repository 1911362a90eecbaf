/**
 When the scheduler gets over an error, when it never does, and whom it blames
 (`continue_after_error` and `_recover_feature_error` in fortinet/common/fos_commander.py).
 */
module CommanderErrors {
  import opened Text
  import opened CliCommands
  import opened CommanderSpec
  import opened CommanderMonitors
  import opened CommanderInvariant
  import opened CommanderTheorems

  /** There is something to skip: an active feature or a failed cleanup, before the queue is done. */
  predicate Skippable(s: State) {
    !s.queue.ready && (s.queue.active.Some? || s.flight.inCleanup)
  }

  /** An error is pending, and neither a feature nor a cleanup can be skipped for it. */
  predicate Stuck(s: State) {
    s.status.pendingError && s.queue.active.None? && !s.flight.inCleanup && s.flight.inflight.None?
  }

  /** In every state a run can reach with an error pending, one or the other is the case. */
  lemma SkippableOrStuck(env: Env, continueOnError: bool, features: seq<Feature>, events: seq<Event>)
    ensures var s := Run(env, continueOnError, features, events);
            s.status.pendingError ==> (Skippable(s) <==> !Stuck(s))
  {
    hide Run, Watch, TidyOk, BlockOk, ReplayOk, ConsoleOk, CaptureOk, SessionOk, Settled, Quiet, Transmitted;
    RunKept(env, continueOnError, features, events);
  }

  // ----- an error nobody is left to answer for

  /** Nothing is written from here on but requests for a clean prompt. */
  ghost predicate NothingSent(t: seq<Entry>, r: seq<Entry>) {
    t <= r && forall i :: |t| <= i < |r| ==> !r[i].Took? && !r[i].Sent? && !r[i].Activated? && !r[i].ErrorCleared?
  }

  lemma StuckNoted(s: State, state: CliState, data: seq<byte>)
    requires Stuck(s)
    ensures Stuck(NoteState(s, state, data)) && NothingSent(s.trace, NoteState(s, state, data).trace)
  {
  }

  lemma StuckStep(s: State, e: Event)
    requires Stuck(s)
    ensures Stuck(Step(s, e)) && NothingSent(s.trace, Step(s, e).trace)
  {
    hide NoteState, RecoverFeatureError, DispatchNext, HandleState, Observe;
    match e
    case StateSeen(state, data) =>
      StuckNoted(s, state, data);
      StuckRecovery(Note(NoteState(s, state, data), Consumed(data)), false);
    case IdlePrompt => StuckRecovery(s, true);
    case _ =>
  }

  lemma StuckRecovery(s: State, atIdlePrompt: bool)
    requires Stuck(s)
    ensures RecoverFeatureError(s, atIdlePrompt) == s
  {
    hide DispatchNext, StrikeOff, DropInflight;
  }

  function Steps(s: State, events: seq<Event>): State
    decreases |events|
  {
    if events == [] then s else Step(Steps(s, events[..|events| - 1]), events[|events| - 1])
  }

  /** Once stuck, the scheduler stays stuck whatever happens, and never sends another command. */
  lemma {:induction false} StuckForGood(s: State, events: seq<Event>)
    requires Stuck(s)
    ensures Stuck(Steps(s, events)) && NothingSent(s.trace, Steps(s, events).trace)
    decreases |events|
  {
    hide Stuck, Step;
    if events != [] {
      StuckForGood(s, events[..|events| - 1]);
      StuckStep(Steps(s, events[..|events| - 1]), events[|events| - 1]);
    }
  }

  // ----- getting over an error

  /** At entry `i` of the longer trace somebody is struck off, and the error is cleared with it. */
  ghost predicate StruckOff(t: seq<Entry>, r: seq<Entry>, i: nat, who: Option<nat>) {
    t <= r && |t| <= i && i + 1 < |r| && r[i] == Failed(who) && r[i + 1] == ErrorCleared
  }

  /** The prompt clears the error, at the cost of whatever is active. */
  ghost predicate PromptClears(s: State, data: seq<byte>) {
    exists i :: StruckOff(s.trace, Step(s, StateSeen(CmdPrompt, data)).trace, i, ActiveId(s.queue))
  }

  /** The error has been cleared since. */
  ghost predicate ClearedSince(t: seq<Entry>, r: seq<Entry>) {
    t <= r && exists i :: |t| <= i < |r| && r[i] == ErrorCleared
  }

  lemma TransmitGrows(s: State, spec: CommandSpec, blockIndex: Option<nat>, token: Option<nat>)
    ensures s.trace <= DispatchCommand(s, spec, blockIndex, token).trace
  {
    hide Lookup, Activations, VerdictOf;
  }

  lemma DispatchReadyGrows(s: State)
    ensures s.trace <= DispatchReady(s).trace
  {
    hide ActivateNextFeature, DispatchOne;
    DispatchOneGrows(s);
    DispatchOneGrows(ActivateNextFeature(s));
  }

  lemma DispatchOneGrows(s: State)
    ensures s.trace <= DispatchOne(s).trace
  {
    hide DispatchCommand, CallFeature;
    if s.tidy.cleanup != [] {
      var s1 := s.(tidy := s.tidy.(cleanup := s.tidy.cleanup[1..]), flight := s.flight.(inCleanup := true));
      TransmitGrows(s1, s.tidy.cleanup[0].spec, None, Some(s.tidy.cleanup[0].token));
    } else if s.work.pending != [] {
      var s1 := s.(work := s.work.(pending := s.work.pending[1..]), flight := s.flight.(inCleanup := false));
      var index := |s1.work.activeCommands| - |s1.work.pending| - 1;
      TransmitGrows(s1, s.work.pending[0], if index >= 0 then Some(index) else None, None);
    }
  }

  lemma DroppedGrows(s: State)
    ensures s.trace <= DropInflight(s).trace && DropInflight(s).queue == s.queue
    ensures DropInflight(s).flight.inCleanup == s.flight.inCleanup
  {
  }

  lemma StruckGrows(s: State)
    ensures var r := StrikeOff(s);
            && s.trace < r.trace && r.trace[|r.trace| - 1] == Failed(ActiveId(s.queue)) && r.status == s.status
            && r.work.replayTarget.None?
  {
    hide DueCommands, Queued;
  }

  /** A prompt, or an idle moment at one: the active feature (or the cleanup) is struck off for the error. */
  lemma RecoveryStrikes(s: State, atIdlePrompt: bool) returns (i: nat)
    requires s.status.pendingError && Skippable(s) && (s.session.currentState == Some(CmdPrompt) || atIdlePrompt)
    ensures StruckOff(s.trace, RecoverFeatureError(s, atIdlePrompt).trace, i, ActiveId(s.queue))
  {
    hide DropInflight, StrikeOff, DispatchNext;
    DroppedGrows(s);
    StruckGrows(DropInflight(s));
    var s1 := StrikeOff(DropInflight(s));
    var s2 := Note(s1.(status := s1.status.(pendingError := false)), ErrorCleared);
    i := |s1.trace| - 1;
    FreshDispatchGrows(s2);
  }

  lemma FreshDispatchGrows(s: State)
    requires s.work.replayTarget.None?
    ensures s.trace <= DispatchNext(s).trace
  {
    hide DispatchReady;
    DispatchReadyGrows(s);
  }

  lemma PromptRecovers(s: State, data: seq<byte>)
    requires s.status.pendingError && !s.status.raised
    ensures var s1 := Note(NoteState(s, CmdPrompt, data), Consumed(data));
            && Step(s, StateSeen(CmdPrompt, data)) == RecoverFeatureError(s1, false) && s.trace <= s1.trace
            && s1.queue == s.queue && s1.flight == s.flight && s1.status.pendingError
            && s1.session.currentState == Some(CmdPrompt)
  {
    hide RecoverFeatureError, HandleState, OnOutput;
  }

  lemma PromptStrikes(s: State, data: seq<byte>) returns (i: nat)
    requires s.status.pendingError && !s.status.raised && Skippable(s)
    ensures StruckOff(s.trace, Step(s, StateSeen(CmdPrompt, data)).trace, i, ActiveId(s.queue))
  {
    hide RecoverFeatureError, Step, NoteState;
    PromptRecovers(s, data);
    i := RecoveryStrikes(Note(NoteState(s, CmdPrompt, data), Consumed(data)), false);
  }

  lemma PromptSuffices(s: State) returns (more: seq<Event>)
    requires s.status.pendingError && !s.status.raised && Skippable(s)
    ensures ClearedSince(s.trace, Steps(s, more).trace)
  {
    hide Step, Skippable;
    more := [StateSeen(CmdPrompt, [])];
    var i := PromptStrikes(s, []);
    assert more[..0] == [] && Steps(s, []) == s;
    assert Steps(s, more).trace[i + 1] == ErrorCleared;
  }

  /**
   Exactly when the scheduler gets over an error. From a reachable state with an error pending, there is a
   way to go on that clears it if and only if there is something to skip; then the next prompt clears it,
   whatever it shows, and strikes off the feature that is active at that moment (or the cleanup).
   */
  lemma RecoversExactly(env: Env, continueOnError: bool, features: seq<Feature>, events: seq<Event>)
    requires var s := Run(env, continueOnError, features, events); s.status.pendingError && !s.status.raised
    ensures var s := Run(env, continueOnError, features, events);
            && (Skippable(s) <==> exists more :: ClearedSince(s.trace, Steps(s, more).trace))
            && (Skippable(s) ==> forall data :: PromptClears(s, data))
  {
    hide Run, Step, Skippable, Stuck, StruckOff, Steps;
    var s := Run(env, continueOnError, features, events);
    SkippableOrStuck(env, continueOnError, features, events);
    if Skippable(s) {
      forall data ensures PromptClears(s, data) {
        var i := PromptStrikes(s, data);
      }
      var more := PromptSuffices(s);
    } else {
      forall more ensures !ClearedSince(s.trace, Steps(s, more).trace) {
        StuckForGood(s, more);
      }
    }
  }

  // ----- whom an error is blamed on

  lemma {:induction false} ActivatedList(t: seq<Entry>)
    requires Watch(t).queue.ok
    ensures Watch(t).queue.activated == ActivatedIds(t)
    decreases |t|
  {
    hide QueueStep, SessionStep, TidyStep, ReplayStep, BlockStep, ConsoleStep, CaptureStep;
    if t != [] {
      var v := Watch(t[..|t| - 1]);
      ActivatedListed(v.queue, v.tidy.tidying, t[|t| - 1]);
      ActivatedList(t[..|t| - 1]);
    }
  }

  lemma ActivatedListed(v: QueueView, tidying: seq<nat>, e: Entry)
    requires QueueStep(v, tidying, e).ok
    ensures v.ok && QueueStep(v, tidying, e).activated == v.activated + if e.Activated? then [e.id] else []
  {
  }

  /** The last error on record before entry `i` is the one noted at `j`. */
  ghost predicate LastError(t: seq<Entry>, j: nat, i: nat) {
    j < i <= |t| && t[j].ErrorNoted? && forall m :: j < m < i ==> !t[m].ErrorNoted?
  }

  lemma {:induction false} ErrorFound(t: seq<Entry>, i: nat) returns (j: nat)
    requires i <= |t| && ErrorWaiting(t[..i])
    ensures LastError(t, j, i) && forall m :: j < m < i ==> !t[m].ErrorCleared?
    decreases i
  {
    assert t[..i][..i - 1] == t[..i - 1];
    if t[i - 1].ErrorNoted? {
      j := i - 1;
    } else {
      j := ErrorFound(t, i - 1);
    }
  }

  /** Entry `i` strikes off the feature that is active, activation number `|ActivatedIds(t[..i])|`. */
  ghost predicate Blames(t: seq<Entry>, j: nat, i: nat, f: nat, n: nat, g: nat) {
    && LastError(t, j, i) && i < |t| && t[j] == ErrorNoted(Some(f), n) && t[i] == Failed(Some(g))
    && 1 <= n <= |ActivatedIds(t[..i])| == |Outcomes(t[..i])| + 1
    && f == ActivatedIds(t[..i])[n - 1] && g == ActivatedIds(t[..i])[|Outcomes(t[..i])|]
  }

  /**
   Whom an error is blamed on. When the scheduler gets over an error by striking off a feature, that error
   was noted last at some entry `j` and not cleared since. If it arose in the n-th activation, of feature `f`,
   then the feature struck off is of the n-th activation too if and only if that one is not over yet: a
   feature that completes itself, or is completed, before its error is handled makes its successor pay.
   */
  lemma BlameExactly(env: Env, continueOnError: bool, features: seq<Feature>, events: seq<Event>, i: nat)
    returns (j: nat)
    requires var t := Run(env, continueOnError, features, events).trace;
             i + 1 < |t| && t[i].Failed? && t[i].who.Some? && t[i + 1] == ErrorCleared
    ensures var t := Run(env, continueOnError, features, events).trace;
            && LastError(t, j, i) && (forall m :: j < m < i ==> !t[m].ErrorCleared?)
            && (t[j].who.Some? ==>
                  var n := t[j].activation;
                  && Blames(t, j, i, t[j].who.value, n, t[i].who.value)
                  && (n == |ActivatedIds(t[..i])| <==> |Outcomes(t[..i])| < n))
  {
    hide Run, Watch, TidyStep, ReplayStep, BlockStep, ConsoleStep, CaptureStep, Outcomes, ActivatedIds, ErrorWaiting;
    var t := Run(env, continueOnError, features, events).trace;
    RunAccepted(env, continueOnError, features, events);
    j := ErrorBehind(t, i);
    WatchAt(t, i);
    WatchAt(t, j);
    AcceptedPrefix(t, i + 1);
    AcceptedPrefix(t, i);
    AcceptedPrefix(t, j + 1);
    AcceptedPrefix(t, j);
    ActivatedAt(t[..i]);
    QueueAt(t[..i]);
    ActivatedList(t[..j]);
    ActivatedList(t[..i]);
    assert t[..i][..j] == t[..j];
    ActivatedGrows(t[..i], j);
  }

  lemma ErrorBehind(t: seq<Entry>, i: nat) returns (j: nat)
    requires Accepted(Watch(t)) && i + 1 < |t| && t[i].Failed? && t[i + 1] == ErrorCleared
    ensures LastError(t, j, i) && forall m :: j < m < i ==> !t[m].ErrorCleared?
  {
    hide Watch, QueueStep, TidyStep, ReplayStep, BlockStep, ConsoleStep, CaptureStep;
    SessionAt(t, i + 1);
    RecoveringAt(t[..i + 1]);
    assert t[..i + 1][..i] == t[..i];
    j := ErrorFound(t, i);
  }

  // ----- the successor pays

  /** A feature whose `activate` raises, and which completes when it is told its (empty) block is done. */
  function Faulty(id: nat): Feature {
    Feature(id, Faults, history => Verdict(false, [], RestartBlock, Restart))
  }

  function Faults(history: seq<Callback>): Reaction {
    if history == [Activate] then Reaction([], true) else Reaction([Complete], false)
  }

  /** At the prompt, nothing going on, and no error. */
  ghost predicate Idling(s: State) {
    && s.queue.active.None? && !s.queue.ready && !Busy(s) && !s.session.recovering && !s.status.pendingError
    && !s.status.raised && !s.status.callbackFailed && s.status.continueOnError && s.work.replayTarget.None?
    && !s.flight.inCleanup && !s.flight.inContextReset && s.tidy.standardOutput.None? && s.tidy.cleanupActions == map[]
    && s.session.currentState == Some(CmdPrompt) && Activations(s.trace) == 0
  }

  /** What is told of the two features, from the faulty one's activation to the end of the queue. */
  function Mishap(a: nat, b: nat): seq<Entry> {
    [Activated(a), ErrorNoted(Some(a), 1), BlockDone, Completed(a), Activated(b), Failed(Some(b)), ErrorCleared, Ready]
  }

  lemma FaultyActivated(s: State, a: nat, b: Feature)
    requires Idling(s) && s.queue.features == [Faulty(a), b]
    ensures var r := ActivateNextFeature(s);
            r == s.(queue := s.queue.(active := Some(Faulty(a)), features := [b], history := [Activate]),
                    status := s.status.(pendingError := true, callbackFailed := true),
                    trace := s.trace + [Activated(a), ErrorNoted(Some(a), 1)])
  {
    var f := Faulty(a);
    var s1 := Note(s.(queue := s.queue.(active := Some(f), features := [b], history := [])), Activated(a));
    assert s.queue.features[1..] == [b] && [] + [Activate] == [Activate];
    assert (s.trace + [Activated(a)])[..|s.trace|] == s.trace;
    assert Activations(s1.trace) == 1;
    var s2 := s1.(queue := s1.queue.(history := [Activate]));
    assert RunOps(s2, a, []) == s2;
    assert CallFeature(s1, Activate) == NoteError(s2, Some(a), 1);
    assert s.trace + [Activated(a)] + [ErrorNoted(Some(a), 1)] == s.trace + [Activated(a), ErrorNoted(Some(a), 1)];
  }

  /** It is told at once that its block is done, and completes: the next one becomes active, but is not told so. */
  lemma FaultyCompleted(s: State, a: nat, b: Feature)
    requires s.queue.active == Some(Faulty(a)) && s.queue.features == [b] && s.queue.history == [Activate]
    requires !s.queue.ready && !Busy(s) && !s.session.recovering && s.status.pendingError && !s.status.raised
    requires s.tidy.standardOutput.None? && s.tidy.cleanupActions == map[]
    ensures var r := DispatchOne(s);
            r == s.(queue := s.queue.(active := Some(b), features := [], history := []),
                    work := s.work.(activeCommands := []),
                    trace := s.trace + [BlockDone, Completed(a), Activated(b.id)])
  {
    var s1 := Note(s, BlockDone);
    var s2 := s1.(queue := s1.queue.(history := [Activate, BlockComplete]));
    assert s1.queue.history + [BlockComplete] == [Activate, BlockComplete];
    var s3 := Retire(s2);
    assert s3 == Note(s2.(queue := s2.queue.(active := None), work := s2.work.(activeCommands := [])), Completed(a));
    assert s3.queue.features[1..] == [];
    var s4 := ActivateNextFeature(s3);
    assert FeatureComplete(s2, a) == s4;
    CompletesOnly(s2, a, s4);
    assert Faults([Activate, BlockComplete]) == Reaction([Complete], false);
    assert CallFeature(s1, BlockComplete) == s4;
    assert s.trace + [BlockDone] + [Completed(a)] + [Activated(b.id)]
        == s.trace + [BlockDone, Completed(a), Activated(b.id)];
  }

  /** The next one is struck off for it, and the queue is done. */
  lemma SuccessorStruck(s: State, b: Feature)
    requires s.queue.active == Some(b) && s.queue.features == [] && !s.queue.ready && !Busy(s)
    requires !s.session.recovering && s.status.pendingError && s.session.currentState == Some(CmdPrompt)
    requires s.tidy.standardOutput.None? && s.tidy.cleanupActions == map[] && s.work.replayTarget.None?
    ensures var r := RecoverFeatureError(s, false);
            && r.trace == s.trace + [Failed(Some(b.id)), ErrorCleared, Ready]
            && r.queue.ready && !r.status.pendingError && r.status.raised == s.status.raised
  {
    hide DispatchOne;
    var s1 := StrikeOff(s);
    assert DropInflight(s) == s;
    assert s1.trace == s.trace + [Failed(Some(b.id))];
    assert s1.queue.active.None? && s1.queue.features == [] && s1.tidy.cleanup == [];
    var s2 := Note(s1.(status := s1.status.(pendingError := false)), ErrorCleared);
    var s3 := ActivateNextFeature(s2);
    assert s3 == Note(s2.(queue := s2.queue.(ready := true, startupComplete := true)), Ready);
    assert DispatchNext(s2) == s3;
    assert s.trace + [Failed(Some(b.id))] + [ErrorCleared] + [Ready]
        == s.trace + [Failed(Some(b.id)), ErrorCleared, Ready];
  }

  /** `RunOps` for a single `Complete`. */
  lemma CompletesOnly(s: State, id: nat, r: State)
    requires FeatureComplete(s, id) == r && !s.status.raised
    ensures RunOps(s, id, [Complete]) == r
  {
    hide FeatureComplete;
    assert ApplyOp(s, id, Complete) == r;
    assert [Complete][1..] == [];
    assert RunOps(r, id, []) == r;
  }

  lemma MishapAtPrompt(s: State, a: nat, b: Feature)
    requires Idling(s) && s.queue.features == [Faulty(a), b]
    ensures var r := HandleState(s, CmdPrompt);
            r.trace == s.trace + Mishap(a, b.id) && r.queue.ready && !r.status.pendingError && !r.status.raised
  {
    hide ActivateNextFeature, DispatchOne, RecoverFeatureError, HandleSessionLoss, CompleteInflight;
    FaultyActivated(s, a, b);
    var s1 := ActivateNextFeature(s);
    FaultyCompleted(s1, a, b);
    var s2 := DispatchOne(s1);
    assert DispatchNext(s) == s2;
    SuccessorStruck(s2, b);
    assert s.trace + [Activated(a), ErrorNoted(Some(a), 1)] + [BlockDone, Completed(a), Activated(b.id)]
           + [Failed(Some(b.id)), ErrorCleared, Ready] == s.trace + Mishap(a, b.id);
  }

  /**
   The way there: one prompt, and of two features the first raises when it is activated and completes when it
   is told, in the same dispatch, that nothing of its block is left. It counts as completed; the second one,
   any feature at all, is never told that it was activated, and is struck off; and the queue is done.
   */
  lemma SuccessorPays(env: Env, a: nat, b: Feature, data: seq<byte>)
    ensures var s := Run(env, true, [Faulty(a), b], [StateSeen(CmdPrompt, data)]);
            && s.queue.ready && !s.status.pendingError && !s.status.raised
            && Outcomes(s.trace) == [(a, true), (b.id, false)]
  {
    hide HandleState, Outcomes, Mishap;
    var s2 := FirstPromptState(env, [Faulty(a), b], data);
    MishapAtPrompt(s2, a, b);
    MishapOutcomes(s2.trace, a, b.id);
  }

  /** The state in which the first prompt is handled. */
  lemma FirstPromptState(env: Env, features: seq<Feature>, data: seq<byte>) returns (s: State)
    ensures Idling(s) && s.queue.features == features && Outcomes(s.trace) == []
    ensures var r := Run(env, true, features, [StateSeen(CmdPrompt, data)]);
            HandleState(s, CmdPrompt).status.raised || r == HandleState(s, CmdPrompt)
  {
    hide HandleState, Outcomes, Ids, OnState;
    var s0 := Start(Init(env, true), features);
    var e := StateSeen(CmdPrompt, data);
    assert [e][..0] == [] && Run(env, true, features, []) == s0;
    StartIdles(env, features);
    s := FirstPromptHeard(s0, data);
    assert [] + features == features;
    NoOutcomes(s0.trace);
    OutcomesMore(s0.trace, s.trace[|s0.trace|..]);
    NoOutcomes(s.trace[|s0.trace|..]);
    assert s.trace == s0.trace + s.trace[|s0.trace|..];
    assert Run(env, true, features, [e]) == OnState(s0, CmdPrompt, data);
  }

  lemma StartIdles(env: Env, features: seq<Feature>)
    ensures var s := Start(Init(env, true), features);
            Idling(s.(session := s.session.(currentState := Some(CmdPrompt))))
  {
    hide Ids, Activations;
    NothingActivated([], Enqueued(Ids(features)));
  }

  lemma NothingActivated(t: seq<Entry>, e: Entry)
    requires t == [] && !e.Activated?
    ensures Activations(t + [e]) == 0
  {
    assert (t + [e])[..0] == t;
  }

  lemma FirstPromptHeard(s: State, data: seq<byte>) returns (r: State)
    requires Idling(s.(session := s.session.(currentState := Some(CmdPrompt))))
    ensures Idling(r) && r.queue == s.queue && OnState(s, CmdPrompt, data) == HandleState(r, CmdPrompt)
    ensures r.trace == s.trace || r.trace == s.trace + [Consumed(data)]
  {
    hide HandleState;
    r := OnOutput(NoteState(s, CmdPrompt, data), data, false);
    assert (s.trace + [Consumed(data)])[..|s.trace|] == s.trace;
  }

  lemma {:induction false} NoOutcomes(t: seq<Entry>)
    requires forall i :: 0 <= i < |t| ==> !t[i].Completed? && !t[i].Failed?
    ensures Outcomes(t) == []
    decreases |t|
  {
    if t != [] {
      NoOutcomes(t[..|t| - 1]);
    }
  }

  lemma {:induction false} OutcomesMore(t: seq<Entry>, more: seq<Entry>)
    ensures Outcomes(t + more) == Outcomes(t) + Outcomes(more)
    decreases |more|
  {
    hide OutcomeOf;
    if more == [] {
      assert t + more == t;
    } else {
      var all := t + more;
      var init := more[..|more| - 1];
      assert all[..|all| - 1] == t + init && all[|all| - 1] == more[|more| - 1];
      OutcomesMore(t, init);
      assert Outcomes(t) + Outcomes(init) + OutcomeOf(more[|more| - 1]) == Outcomes(t) + Outcomes(more);
    }
  }

  lemma MishapOutcomes(t: seq<Entry>, a: nat, b: nat)
    requires Outcomes(t) == []
    ensures Outcomes(t + Mishap(a, b)) == [(a, true), (b, false)]
  {
    hide Outcomes;
    OutcomesMore(t, Mishap(a, b));
    var head := [Activated(a), ErrorNoted(Some(a), 1), BlockDone];
    var middle := [Completed(a)] + [Activated(b)];
    assert Mishap(a, b) == head + middle + [Failed(Some(b))] + [ErrorCleared, Ready];
    NoOutcomes(head);
    NoOutcomes([ErrorCleared, Ready]);
    NoOutcomes([Activated(b)]);
    OutcomesMore(head + middle + [Failed(Some(b))], [ErrorCleared, Ready]);
    OutcomesMore(head + middle, [Failed(Some(b))]);
    OutcomesMore(head, middle);
    OutcomesMore([Completed(a)], [Activated(b)]);
    OutcomeOfOne(Completed(a));
    OutcomeOfOne(Failed(Some(b)));
  }

  lemma OutcomeOfOne(e: Entry)
    ensures Outcomes([e]) == OutcomeOf(e)
  {
    assert [e][..0] == [] && Outcomes([]) == [];
  }

  // ----- nobody pays

  /** A feature that completes itself at once and then raises. */
  function Hasty(id: nat): Feature {
    Feature(id, history => Reaction([Complete], true), history => Verdict(false, [], RestartBlock, Restart))
  }

  /** What activating it as the last one leaves behind. */
  function HastyDone(s: State): State {
    s.(queue := s.queue.(features := [], history := [Activate], ready := true, startupComplete := true),
       work := s.work.(activeCommands := []),
       status := s.status.(pendingError := true, callbackFailed := true),
       trace := s.trace + [Activated(0)] + [Completed(0)] + [Ready] + [ErrorNoted(Some(0), 1)])
  }

  lemma HastyCompletes(s: State)
    requires Idling(s) && s.queue.features == [Hasty(0)]
    ensures ActivateNextFeature(s) == HastyDone(s)
  {
    var f := Hasty(0);
    var s1 := Note(s.(queue := s.queue.(active := Some(f), features := [], history := [])), Activated(0));
    assert (s.trace + [Activated(0)])[..|s.trace|] == s.trace;
    assert Activations(s1.trace) == 1;
    var s2 := s1.(queue := s1.queue.(history := [Activate]));
    assert s.queue.features[1..] == [] && [] + [Activate] == [Activate];
    var s3 := Retire(s2);
    assert s3 == Note(s2.(queue := s2.queue.(active := None), work := s2.work.(activeCommands := [])), Completed(0));
    var s4 := ActivateNextFeature(s3);
    assert s4 == Note(s3.(queue := s3.queue.(ready := true, startupComplete := true)), Ready);
    assert FeatureComplete(s2, 0) == s4;
    CompletesOnly(s2, 0, s4);
    assert f.act([Activate]) == Reaction([Complete], true);
    assert CallFeature(s1, Activate) == NoteError(s4.(status := s4.status.(raised := false)), Some(0), 1);
  }

  lemma HastyPrompt(s: State)
    requires Idling(s) && s.queue.features == [Hasty(0)]
    ensures HandleState(s, CmdPrompt) == HastyDone(s)
  {
    hide ActivateNextFeature, HandleSessionLoss, CompleteInflight, DispatchOne;
    HastyCompletes(s);
    var r := HastyDone(s);
    assert DispatchNext(s) == r;
    assert RecoverFeatureError(r, false) == r;
  }

  /**
   The way there: a feature that completes itself, as the last one, and raises afterwards. It counts as
   completed, the error stays, and features handed over later are never activated.
   */
  lemma HastyFeatureGetsStuck(env: Env, more: seq<Feature>, data: seq<byte>)
    ensures var s := Run(env, true, [Hasty(0)], [StateSeen(CmdPrompt, data)]);
            && Outcomes(s.trace) == [(0, true)] && s.queue.ready
            && Stuck(Step(s, Enqueue(more)))
            && Step(s, Enqueue(more)).queue.features == more
  {
    hide HandleState, Outcomes, Run;
    var s2 := FirstPromptState(env, [Hasty(0)], data);
    HastyPrompt(s2);
    HastyOutcome(s2);
    assert more + [] == more;
  }

  lemma HastyOutcome(s: State)
    requires Outcomes(s.trace) == []
    ensures Outcomes(HastyDone(s).trace) == [(0, true)]
  {
    hide Outcomes;
    OutcomesMore(s.trace, [Activated(0)]);
    OutcomesMore(s.trace + [Activated(0)], [Completed(0)]);
    OutcomesMore(s.trace + [Activated(0)] + [Completed(0)], [Ready]);
    OutcomesMore(s.trace + [Activated(0)] + [Completed(0)] + [Ready], [ErrorNoted(Some(0), 1)]);
    OutcomeOfOne(Activated(0));
    OutcomeOfOne(Completed(0));
    OutcomeOfOne(Ready);
    OutcomeOfOne(ErrorNoted(Some(0), 1));
  }
}
