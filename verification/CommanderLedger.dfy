/**
 What the scheduler's events add up to: the console bytes they consume, exactly the ones each was
 handed or discards, and none of them after the terminal was closed; the lines they write, at most
 one each; and the commands they credit, each only after its completion was validated.
 */
module CommanderLedger {
  import opened Text
  import opened CliCommands
  import opened CommanderSpec
  import opened CommanderTheorems
  import I = CommanderInvariant
  import M = CommanderMonitors

  /** The commands credited so far. */
  function Credits(t: seq<Entry>): seq<Attempt> {
    if t == [] then []
    else
      Credits(t[..|t| - 1])
      + if t[|t| - 1].Ended? && t[|t| - 1].ending == Credited then [t[|t| - 1].attempt] else []
  }

  /** The lines a trace writes to the terminal. */
  function WrittenBy(t: seq<Entry>): seq<string> {
    if t == [] then []
    else
      WrittenBy(t[..|t| - 1]) +
      match t[|t| - 1] {
        case Sent(a) => [a.spec.line + "\r"]
        case Nudged => ["\r"]
        case _ => []
      }
  }

  /** The terminal is closed when the queue is done, and used again for features enqueued later. */
  predicate Open(t: seq<Entry>) {
    t == [] || t[|t| - 1].Enqueued? || (!t[|t| - 1].Ready? && Open(t[..|t| - 1]))
  }

  /** The bytes consumed, one segment for each time the terminal was open. */
  function Segments(t: seq<Entry>): (r: seq<seq<byte>>)
    ensures r != []
  {
    if t == [] then [[]]
    else
      var before := t[..|t| - 1];
      match t[|t| - 1]
      case Consumed(data) => if Open(before) then ExtendLast(Segments(before), data) else Segments(before)
      case Enqueued(_) => if Open(before) then Segments(before) else Segments(before) + [[]]
      case _ => Segments(before)
  }

  datatype Ledger = Ledger(
    env: Env,
    consumed: seq<byte>,
    segments: seq<seq<byte>>,
    credits: seq<Attempt>,
    written: seq<string>)

  function Account(s: State): Ledger {
    Ledger(s.env, ConsumedBytes(s.trace), Segments(s.trace), Credits(s.trace), WrittenBy(s.trace))
  }

  function Eat(l: Ledger, data: seq<byte>, open: bool): Ledger {
    l.(consumed := l.consumed + data, segments := if open then ExtendLast(l.segments, data) else l.segments)
  }

  function Write(l: Ledger, line: string): Ledger {
    l.(written := l.written + [line])
  }

  lemma AccountNote(s: State, e: Entry)
    requires e.Enqueued? ==> Open(s.trace)
    ensures var r := Account(Note(s, e));
            match e {
              case Consumed(data) => r == Eat(Account(s), data, Open(s.trace))
              case Ended(a, ending) =>
                r == Account(s).(credits := Account(s).credits + if ending == Credited then [a] else [])
              case Sent(a) => r == Write(Account(s), a.spec.line + "\r")
              case Nudged => r == Write(Account(s), "\r")
              case _ => r == Account(s)
            }
  {
    assert (s.trace + [e])[..|s.trace|] == s.trace;
  }

  /** No replay reset is under way without its `abort` in flight. */
  predicate Steady(s: State) {
    s.flight.inContextReset ==> s.flight.inflight.Some?
  }

  /** At most one line more, and nothing else. */
  predicate OneLine(l: Ledger, r: Ledger) {
    l.written <= r.written && |r.written| <= |l.written| + 1
  }

  /** A dispatch: at most one line is written, and none with an error pending. */
  ghost predicate Wrote(s: State, r: State) {
    && Steady(r)
    && OneLine(Account(s), Account(r)) && Account(r) == Account(s).(written := Account(r).written)
    && (Account(r) != Account(s) ==> !r.status.pendingError)
  }

  lemma ScheduleAccount(s: State, id: nat, completion: bool)
    ensures Account(ScheduleFeatureCleanup(s, id, completion)) == Account(s)
    ensures Account(FinishStandardOutput(s, id)) == Account(s)
  {
    hide ConsumedBytes, Segments, Credits, WrittenBy, Queued, DueCommands;
    if id in s.tidy.cleanupActions {
      var s1 := s.(tidy := s.tidy.(cleanupActions := s.tidy.cleanupActions - {id}));
      var due := DueCommands(s.tidy.cleanupActions[id], completion);
      AccountNote(s1.(tidy := Queued(s1.tidy, due)), CleanupQueued(due));
    }
    if s.tidy.standardOutput.Some? {
      var owed := if s.tidy.standardOutput.value.restore then CONSOLE_RESTORE else [];
      AccountNote(s.(tidy := Queued(s.tidy, owed).(standardOutput := None)), ConsoleReleased(owed));
    }
  }

  lemma SignedAccount(s: State, who: Option<nat>, activation: nat)
    ensures Account(NoteError(s, who, activation)) == Account(s) && NoteError(s, who, activation).flight == s.flight
  {
    hide ConsumedBytes, Segments, Credits, WrittenBy;
    AccountNote(s.(status := s.status.(pendingError := true, callbackFailed := true)), ErrorNoted(who, activation));
  }

  lemma ErrorAccount(s: State)
    ensures Account(HandleWorkError(s)) == Account(s) && HandleWorkError(s).flight == s.flight
  {
    hide Account, Activations;
    SignedAccount(s, if s.flight.inCleanup then None else ActiveId(s.queue), Activations(s.trace));
  }

  lemma SubmitAccount(s: State, id: nat, block: Command)
    ensures Account(SubmitBlock(s, id, block)) == Account(s) && SubmitBlock(s, id, block).flight == s.flight
  {
    hide ConsumedBytes, Segments, Credits, WrittenBy, Flatten;
    var commands := Flatten(block);
    AccountNote(s.(work := Work(commands, commands, s.session.promptContext, map[], None, false)),
              Submitted(commands, s.session.promptContext));
  }

  lemma TakeConsoleAccount(s: State, id: nat)
    ensures Account(WithStandardOutputOp(s, id)) == Account(s)
  {
    hide ConsumedBytes, Segments, Credits, WrittenBy, SubmitBlock;
    var s1 := s.(tidy := s.tidy.(standardOutput := Some(StandardOutput(id, Inspect, false))));
    AccountNote(s1, ConsoleTaken);
    SubmitAccount(Note(s1, ConsoleTaken), id, CONSOLE_INSPECT);
  }

  lemma {:induction false} CallAccount(s: State, callback: Callback)
    requires s.queue.active.Some?
    ensures Account(CallFeature(s, callback)) == Account(s)
    decreases |s.queue.features|, 3, 0
  {
    hide ConsumedBytes, Segments, Credits, WrittenBy, RunOps;
    var history := s.queue.history + [callback];
    var s0 := s.(queue := s.queue.(history := history));
    OpsAccount(s0, s.queue.active.value.id, s.queue.active.value.act(history).ops);
    var s1 := RunOps(s0, s.queue.active.value.id, s.queue.active.value.act(history).ops);
    SignedAccount(s1.(status := s1.status.(raised := false)), Some(s.queue.active.value.id), Activations(s.trace));
  }

  lemma {:induction false} OpsAccount(s: State, id: nat, ops: seq<Op>)
    ensures Account(RunOps(s, id, ops)) == Account(s)
    decreases |s.queue.features|, 2, |ops|
  {
    hide ConsumedBytes, Segments, Credits, WrittenBy, ApplyOp;
    if !s.status.raised && ops != [] {
      OpAccount(s, id, ops[0]);
      OpsAccount(ApplyOp(s, id, ops[0]), id, ops[1..]);
    }
  }

  lemma {:induction false} OpAccount(s: State, id: nat, op: Op)
    ensures Account(ApplyOp(s, id, op)) == Account(s)
    decreases |s.queue.features|, 1, 1
  {
    hide ConsumedBytes, Segments, Credits, WrittenBy, FeatureComplete, SubmitBlock, WithStandardOutputOp;
    match op
    case Submit(block) => SubmitAccount(s, id, block);
    case Complete => CompleteAccount(s, id);
    case WithStandardOutput => TakeConsoleAccount(s, id);
    case Register(_) =>
  }

  lemma {:induction false} CompleteAccount(s: State, id: nat)
    ensures Account(FeatureComplete(s, id)) == Account(s)
    decreases |s.queue.features|, 1, 0
  {
    hide ConsumedBytes, Segments, Credits, WrittenBy, ScheduleFeatureCleanup, FinishStandardOutput, ActivateNextFeature;
    if IsActive(s, id) && !Busy(s) {
      ScheduleAccount(s, id, true);
      ScheduleAccount(FinishStandardOutput(s, id), id, true);
      var s1 := ScheduleFeatureCleanup(FinishStandardOutput(s, id), id, true);
      AccountNote(s1.(queue := s1.queue.(active := None), work := s1.work.(activeCommands := [])), Completed(id));
      ActivateAccount(Retire(s));
    }
  }

  lemma {:induction false} ActivateAccount(s: State)
    ensures Account(ActivateNextFeature(s)) == Account(s)
    decreases |s.queue.features|, 0, 0
  {
    hide ConsumedBytes, Segments, Credits, WrittenBy, CallFeature;
    if !s.queue.ready && s.queue.active.None? && !s.session.recovering {
      if s.queue.features == [] {
        AccountNote(s.(queue := s.queue.(ready := true, startupComplete := true)), Ready);
      } else {
        var f := s.queue.features[0];
        var s1 := s.(queue := s.queue.(active := Some(f), features := s.queue.features[1..], history := []));
        AccountNote(s1, Activated(f.id));
        CallAccount(Note(s1, Activated(f.id)), Activate);
      }
    }
  }

  lemma ObserveAccount(s: State, callback: Callback)
    requires s.queue.active.Some?
    ensures Account(Observe(s, callback)) == Account(s) && Observe(s, callback).flight == s.flight
  {
    hide ConsumedBytes, Segments, Credits, WrittenBy, NoteError;
    var told := s.(queue := s.queue.(history := s.queue.history + [callback]));
    SignedAccount(RegisterCleanup(told, s.queue.active.value.id, VerdictOf(s, callback).registers),
                  Some(s.queue.active.value.id), Activations(s.trace));
  }

  lemma DispatchCommandAccount(s: State, spec: CommandSpec, blockIndex: Option<nat>, token: Option<nat>)
    requires s.status.pendingError ==> s.queue.active.Some? && !s.flight.inContextReset
    ensures Wrote(s, DispatchCommand(s, spec, blockIndex, token))
  {
    hide ConsumedBytes, Segments, Credits, WrittenBy, Lookup;
    var s1 := TakeCommand(s, spec, blockIndex, token);
    var a := s1.flight.inflight.value;
    AccountNote(s.(flight := s1.flight), Took(a));
    AccountNote(s1, Sent(a));
    if s1.queue.active.Some? {
      ObserveAccount(s1, Dispatched(a));
      AccountNote(Observe(s1, Dispatched(a)), Sent(a));
    }
  }

  lemma StrikeOffAccount(s: State)
    ensures Account(StrikeOff(s)) == Account(s)
  {
    hide ConsumedBytes, Segments, Credits, WrittenBy, ScheduleFeatureCleanup, FinishStandardOutput;
    if s.queue.active.Some? {
      var id := s.queue.active.value.id;
      ScheduleAccount(s, id, false);
      ScheduleAccount(FinishStandardOutput(s, id), id, false);
      var s1 := ScheduleFeatureCleanup(FinishStandardOutput(s, id), id, false);
      AccountNote(s1.(queue := s1.queue.(active := None, featureErrors := s1.queue.featureErrors + [Some(id)]),
                    work := s1.work.(activeCommands := [], pending := [], replayTarget := None),
                    flight := s1.flight.(inCleanup := false), tidy := s1.tidy.(cleanupRetries := map[])),
                        Failed(Some(id)));
    } else {
      AccountNote(s.(queue := s.queue.(featureErrors := s.queue.featureErrors + [None]),
          work := s.work.(replayTarget := None),
                   flight := s.flight.(inCleanup := false), tidy := s.tidy.(cleanupRetries := map[])), Failed(None));
    }
  }

  lemma ContinueAccount(s: State)
    requires Steady(s)
    ensures var r := ContinueAfterError(s);
            r.Some? ==>
              && Account(r.value) == Account(s) && r.value.work.replayTarget.None?
              && r.value.flight.inflight.None? && !r.value.flight.inContextReset
  {
    hide ConsumedBytes, Segments, Credits, WrittenBy, ScheduleFeatureCleanup, FinishStandardOutput;
    if s.flight.inflight.Some? {
      AccountNote(s.(flight := s.flight.(inflight := None, inContextReset := false)),
          Ended(s.flight.inflight.value, Dropped));
    }
    StrikeOffAccount(DropInflight(s));
    StrikeOffFlight(DropInflight(s));
  }

  lemma StrikeOffFlight(s: State)
    ensures StrikeOff(s).flight == s.flight.(inCleanup := false)
  {
    hide DueCommands;
  }

  lemma {:induction false} RecoverAccount(s: State, atIdlePrompt: bool)
    requires Steady(s)
    ensures Wrote(s, RecoverFeatureError(s, atIdlePrompt))
    decreases 1, 0
  {
    hide ConsumedBytes, Segments, Credits, WrittenBy, ContinueAfterError, DispatchNext;
    ContinueAccount(s);
    if s.status.pendingError && ContinueAfterError(s).Some? {
      var s1 := ContinueAfterError(s).value;
      AccountNote(s1.(status := s1.status.(pendingError := false)), ErrorCleared);
      DispatchAccount(Note(s1.(status := s1.status.(pendingError := false)), ErrorCleared));
    }
  }

  lemma {:induction false} RestoreAccount(s: State)
    requires s.work.replayTarget.Some? && Steady(s) && !s.status.pendingError
    ensures Wrote(s, RestoreReplayContext(s).0)
    ensures RestoreReplayContext(s).1 ==> Account(RestoreReplayContext(s).0) == Account(s)
    decreases 1, 1
  {
    hide ConsumedBytes, Segments, Credits, WrittenBy, RecoverFeatureError, HandleWorkError, DispatchCommand;
    ErrorAccount(s);
    RecoverAccount(HandleWorkError(s), false);
    var s1 := s.(work := s.work.(contextResetAttempted := true), flight := s.flight.(inContextReset := true));
    DispatchCommandAccount(s1, ABORT, None, None);
  }

  lemma {:induction false} DispatchAccount(s: State)
    requires Steady(s)
    ensures Wrote(s, DispatchNext(s))
    decreases if s.work.replayTarget.Some? then 2 else 0, 0
  {
    hide Account, RestoreReplayContext, DispatchReady;
    if s.flight.inflight.None? && !s.session.recovering && !s.status.pendingError {
      if s.work.replayTarget.Some? {
        RestoreAccount(s);
        RestoredFlight(s);
        if RestoreReplayContext(s).1 {
          DispatchReadyAccount(RestoreReplayContext(s).0);
        }
      } else {
        DispatchReadyAccount(s);
      }
    }
  }

  lemma RestoredFlight(s: State)
    requires s.work.replayTarget.Some?
    ensures var (r, proceed) := RestoreReplayContext(s); proceed ==> r.flight == s.flight && r.status == s.status
  {
    hide DispatchCommand, HandleWorkError, RecoverFeatureError;
  }

  lemma DispatchReadyAccount(s: State)
    requires !s.flight.inContextReset && !s.status.pendingError
    ensures Wrote(s, DispatchReady(s))
  {
    hide ConsumedBytes, Segments, Credits, WrittenBy, ActivateNextFeature, DispatchOne;
    if s.tidy.cleanup == [] && s.queue.active.None? {
      ActivateAccount(s);
      if ActivateNextFeature(s).queue.active.Some? {
        DispatchOneAccount(ActivateNextFeature(s));
      }
    } else {
      DispatchOneAccount(s);
    }
  }

  lemma DispatchOneAccount(s: State)
    requires !s.flight.inContextReset && (s.status.pendingError ==> s.queue.active.Some?)
    ensures Wrote(s, DispatchOne(s))
  {
    hide ConsumedBytes, Segments, Credits, WrittenBy, DispatchCommand, CallFeature;
    if s.tidy.cleanup != [] {
      var s1 := s.(tidy := s.tidy.(cleanup := s.tidy.cleanup[1..]), flight := s.flight.(inCleanup := true));
      DispatchCommandAccount(s1, s.tidy.cleanup[0].spec, None, Some(s.tidy.cleanup[0].token));
    } else if s.work.pending == [] {
      AccountNote(s, BlockDone);
      if s.queue.active.Some? {
        CallAccount(Note(s, BlockDone), BlockComplete);
      }
    } else {
      var s1 := s.(work := s.work.(pending := s.work.pending[1..]), flight := s.flight.(inCleanup := false));
      var index := |s1.work.activeCommands| - |s1.work.pending| - 1;
      DispatchCommandAccount(s1, s.work.pending[0], if index >= 0 then Some(index) else None, None);
    }
  }

  lemma RestartAccount(s: State, a: Attempt)
    ensures Account(RestartActiveBlock(s, a)) == Account(s) && RestartActiveBlock(s, a).flight == s.flight
  {
    hide ConsumedBytes, Segments, Credits, WrittenBy, HandleWorkError;
    ErrorAccount(s);
    var retries := Lookup(s.work.recoveryRetries, a.blockIndex);
    AccountNote(s.(work := s.work.(recoveryRetries := s.work.recoveryRetries[a.blockIndex := retries + 1],
                                 pending := s.work.activeCommands, replayTarget := s.work.blockContext,
                                 contextResetAttempted := false)), Restarted(a.blockIndex));
  }

  lemma ContextLossAccount(s: State, a: Attempt)
    ensures Account(HandleContextLoss(s, a)) == Account(s) && HandleContextLoss(s, a).flight == s.flight
  {
    hide ConsumedBytes, Segments, Credits, WrittenBy, HandleWorkError, Observe, RestartActiveBlock;
    ErrorAccount(s);
    if s.queue.active.Some? {
      ObserveAccount(s, LostContext(a));
      RestartAccount(Observe(s, LostContext(a)), a);
      ErrorAccount(Observe(s, LostContext(a)));
    }
  }

  lemma EndSessionAccount(s: State)
    ensures Account(EndSession(s)) == Account(s)
    ensures Account(RestoreSession(s)) == Account(s)
  {
    hide ConsumedBytes, Segments, Credits, WrittenBy;
    AccountNote(s.(session := s.session.(epoch := s.session.epoch + 1, recovering := true)), SessionEnded);
    AccountNote(s.(session := s.session.(authenticatedOnce := true, recovering := false)), SessionRestored);
  }

  lemma BlockLossAccount(s: State, a: Attempt)
    ensures Account(HandleBlockLoss(s, a)) == Account(s)
  {
    hide ConsumedBytes, Segments, Credits, WrittenBy, HandleWorkError, Observe, RestartActiveBlock,
         ScheduleFeatureCleanup;
    if s.queue.active.Some? {
      ScheduleAccount(s, s.queue.active.value.id, false);
      var s1 := ScheduleFeatureCleanup(s, s.queue.active.value.id, false);
      if s1.queue.active.Some? {
        ObserveAccount(s1, LostSession(a));
        var s2 := Observe(s1, LostSession(a));
        RestartAccount(s2, a);
        ErrorAccount(s2);
        AccountNote(s2.(work := s2.work.(pending := [])), Abandoned);
      }
    }
  }

  lemma SessionLossAccount(s: State)
    ensures Account(HandleSessionLoss(s)) == Account(s)
  {
    hide ConsumedBytes, Segments, Credits, WrittenBy, HandleWorkError, EndSession, HandleBlockLoss, Requeued, Lookup;
    EndSessionAccount(s);
    if s.flight.inflight.Some? {
      var a := s.flight.inflight.value;
      var s1 := s.(flight := s.flight.(inflight := None, inContextReset := false));
      var s2 := s.(flight := s.flight.(inflight := None));
      AccountNote(s1, Ended(a, Ending.Interrupted));
      EndSessionAccount(Note(s1, Ended(a, Ending.Interrupted)));
      AccountNote(s2, Ended(a, Dropped));
      EndSessionAccount(Note(s2, Ended(a, Dropped)));
      ErrorAccount(EndSession(Note(s2, Ended(a, Dropped))));
      AccountNote(s2, Ended(a, Ending.Interrupted));
      EndSessionAccount(Note(s2, Ended(a, Ending.Interrupted)));
      BlockLossAccount(EndSession(Note(s2, Ended(a, Ending.Interrupted))), a);
      if a.token.Some? {
        var s3 := s.(flight := s.flight.(inflight := None, inCleanup := false),
            tidy := Requeued(s.tidy, a.spec, a.token.value));
        AccountNote(s3, Ended(a, Ending.Interrupted));
        EndSessionAccount(Note(s3, Ended(a, Ending.Interrupted)));
      }
    }
  }

  lemma StartCallbackAccount(s: State)
    requires s.tidy.standardOutput.Some?
    ensures Account(StartStandardOutputCallback(s)) == Account(s) && StartStandardOutputCallback(s).flight == s.flight
  {
    hide ConsumedBytes, Segments, Credits, WrittenBy, CallFeature;
    var s1 := s.(tidy := s.tidy.(standardOutput := Some(s.tidy.standardOutput.value.(phase := Running))));
    if s1.queue.active.Some? {
      CallAccount(s1, StandardReady);
    }
  }

  lemma CompleteConsoleAccount(s: State, a: Attempt)
    requires s.tidy.standardOutput.Some?
    ensures Account(CompleteStandardOutputCommand(s, a)) == Account(s)
    ensures CompleteStandardOutputCommand(s, a).flight == s.flight
  {
    hide ConsumedBytes, Segments, Credits, WrittenBy, StartStandardOutputCallback, SubmitBlock;
    var context := s.tidy.standardOutput.value;
    StartCallbackAccount(s);
    SubmitAccount(s.(tidy := s.tidy.(standardOutput := Some(context.(phase := SetStandard)))), context.feature,
        CONSOLE_STANDARD);
    var s1 := s.(tidy := s.tidy.(standardOutput := Some(context.(restore := true))));
    StartCallbackAccount(s1);
    AccountNote(s1, ConsoleChanged);
    StartCallbackAccount(Note(s1, ConsoleChanged));
  }

  lemma FinishAccount(s: State, id: nat, state: CliState)
    requires Steady(s)
    ensures Wrote(s, FinishCommand(s, id, state))
  {
    hide ConsumedBytes, Segments, Credits, WrittenBy, CallFeature, DispatchNext;
    AccountNote(s, BlockDone);
    DispatchAccount(s);
    if s.queue.active.Some? {
      CallAccount(Note(s, BlockDone), BlockComplete);
      DispatchAccount(CallFeature(Note(s, BlockDone), BlockComplete));
    }
  }

  lemma CreditedAccount(s: State, a: Attempt, state: CliState)
    requires Steady(s)
    ensures Wrote(s, CompleteCredited(s, a, state))
  {
    hide ConsumedBytes, Segments, Credits, WrittenBy, CallFeature, DispatchNext, FinishCommand,
         CompleteStandardOutputCommand;
    if s.tidy.standardOutput.Some? {
      CompleteConsoleAccount(s, a);
      DispatchAccount(CompleteStandardOutputCommand(s, a));
    }
    if s.queue.active.Some? {
      CallAccount(s, Executed(a, state));
      FinishAccount(CallFeature(s, Executed(a, state)), s.queue.active.value.id, state);
    }
  }

  /** The completion is at one of the command's own states, where it was expected, and nothing went wrong. */
  ghost predicate Credible(env: Env, a: Attempt) {
    exists state :: state in a.spec.Completes() && CredibleAt(env, a, state)
  }

  predicate CredibleAt(env: Env, a: Attempt, state: CliState) {
    && (a.spec.expected.Some? ==> state == a.spec.expected.value)
    && ((a.spec.ClosesScope() || a.spec.failOnError) ==> !env.commandFailed(a.output))
    && (state == CmdPrompt && a.before.Some? && a.after.Some? && !a.spec.MayChangeContext() ==> a.before == a.after)
  }

  /** The same bytes more, at most one line more, and at most one more command credited, a credible one. */
  ghost predicate Adds(l: Ledger, r: Ledger, data: seq<byte>, open: bool) {
    && r == Eat(l, data, open).(credits := r.credits, written := r.written) && OneLine(l, r)
    && (|| r.credits == l.credits
        || (exists a :: r.credits == l.credits + [a] && Credible(l.env, a)))
  }

  lemma ResetAccount(s: State, state: CliState)
    requires s.flight.inflight.Some? && s.flight.inContextReset
    ensures Wrote(s, CompleteInflight(s, state))
  {
    hide Account, DispatchNext;
    var a := s.flight.inflight.value.(after := s.session.promptContext);
    var s1 := Note(s.(flight := s.flight.(inflight := None, inContextReset := false)), Ended(a, Reset));
    EndedAccount(s, s1.flight, a, Reset);
    DispatchAccount(s1);
  }

  /** Only a credited command enters the account. */
  lemma EndedAccount(s: State, flight: Flight, a: Attempt, ending: Ending)
    ensures var r := Note(s.(flight := flight), Ended(a, ending));
            Account(r) == Account(s).(credits := Account(s).credits + if ending == Credited then [a] else [])
  {
    hide ConsumedBytes, Segments, Credits, WrittenBy, Open;
    AccountNote(s.(flight := flight), Ended(a, ending));
  }

  lemma DisplacedAccount(s: State)
    requires s.flight.inflight.Some? && !s.flight.inContextReset
    requires ContextChanged(s.flight.inflight.value.(after := s.session.promptContext))
    ensures Wrote(s, CompleteInflight(s, CmdPrompt))
  {
    hide Account, DispatchNext, RecoverFeatureError, HandleContextLoss, ContextChanged;
    var a := s.flight.inflight.value.(after := s.session.promptContext);
    var s1 := Note(s.(flight := s.flight.(inflight := None)), Ended(a, Rejected));
    EndedAccount(s, s1.flight, a, Rejected);
    ContextLossAccount(s1, a);
    var s2 := HandleContextLoss(s1, a);
    RecoverAccount(s2, false);
    DispatchAccount(s2);
  }

  lemma RejectedAccount(s: State, state: CliState)
    requires s.flight.inflight.Some? && !s.flight.inContextReset
    requires var a := s.flight.inflight.value.(after := s.session.promptContext);
             !(state == CmdPrompt && ContextChanged(a)) && !Validates(s.env, a, state)
    ensures Wrote(s, CompleteInflight(s, state))
  {
    hide Account, RecoverFeatureError, HandleWorkError, ContextChanged, Validates;
    var a := s.flight.inflight.value.(after := s.session.promptContext);
    var s1 := Note(s.(flight := s.flight.(inflight := None)), Ended(a, Rejected));
    EndedAccount(s, s1.flight, a, Rejected);
    ErrorAccount(s1);
    StatusAccount(s1, s1.status.(raised := true));
    RecoverAccount(HandleWorkError(s1), false);
  }

  lemma AcceptedAccount(s: State, state: CliState)
    requires s.flight.inflight.Some? && !s.flight.inContextReset
    requires var a := s.flight.inflight.value.(after := s.session.promptContext);
             !(state == CmdPrompt && ContextChanged(a)) && Validates(s.env, a, state)
    ensures var a := s.flight.inflight.value.(after := s.session.promptContext);
            var r := Account(CompleteInflight(s, state));
            && r == Account(s).(credits := Account(s).credits + [a], written := r.written) && OneLine(Account(s), r)
  {
    hide Account, DispatchNext, CompleteCredited, ContextChanged, Validates;
    var a := s.flight.inflight.value.(after := s.session.promptContext);
    var s1 := Note(s.(flight := s.flight.(inflight := None)), Ended(a, Credited));
    EndedAccount(s, s1.flight, a, Credited);
    CreditedAccount(s1, a, state);
    var retries := if a.token.Some? then s.tidy.cleanupRetries - {a.token.value} else s.tidy.cleanupRetries;
    var s2 := s.(tidy := s.tidy.(cleanupRetries := retries));
    TidyAccount(s, s2.tidy);
    EndedAccount(s2, s.flight.(inflight := None, inCleanup := false), a, Credited);
    DispatchAccount(Note(s2.(flight := s.flight.(inflight := None, inCleanup := false)), Ended(a, Credited)));
  }

  lemma TidyAccount(s: State, tidy: Tidy)
    ensures Account(s.(tidy := tidy)) == Account(s)
  {
  }

  lemma CompleteInflightAccount(s: State, state: CliState)
    requires s.flight.inflight.Some? && state in s.flight.inflight.value.spec.Completes()
    ensures Adds(Account(s), Account(CompleteInflight(s, state)), [], Open(s.trace))
  {
    hide Account, CompleteInflight, ContextChanged, Validates, Credible, Open;
    var a := s.flight.inflight.value.(after := s.session.promptContext);
    NothingEaten(Account(s), Open(s.trace));
    if s.flight.inContextReset {
      ResetAccount(s, state);
    } else if state == CmdPrompt && ContextChanged(a) {
      DisplacedAccount(s);
    } else if !Validates(s.env, a, state) {
      RejectedAccount(s, state);
    } else {
      AcceptedAccount(s, state);
      ValidatedIsCredible(s.env, a, state);
      assert Account(s).env == s.env by { AccountEnv(s); }
    }
  }

  lemma NothingEaten(l: Ledger, open: bool)
    ensures Eat(l, [], open) == l
  {
    ExtendNothing(l.segments);
  }

  lemma AccountEnv(s: State)
    ensures Account(s).env == s.env
  {
  }

  lemma ValidatedIsCredible(env: Env, a: Attempt, state: CliState)
    requires state in a.spec.Completes() && Validates(env, a, state) && !(state == CmdPrompt && ContextChanged(a))
    ensures Credible(env, a)
  {
    assert CredibleAt(env, a, state);
  }

  lemma OutputAccount(s: State, data: seq<byte>, retained: bool)
    ensures Account(OnOutput(s, data, retained)) == Eat(Account(s), Taken(s, data, retained), Open(s.trace))
    ensures Steady(s) ==> Steady(OnOutput(s, data, retained))
  {
    hide ConsumedBytes, Segments, Credits, WrittenBy, Observe, Discards, Open;
    NothingEaten(Account(s), Open(s.trace));
    if data != [] {
      AccountNote(s, Consumed(data));
      if s.flight.inflight.Some? {
        var a := s.flight.inflight.value;
        AccountNote(s.(flight := s.flight.(inflight := Some(a.(output := a.output + data)))), Consumed(data));
        if s.queue.active.Some? {
          ObserveAccount(s, OutputSeen(data));
          ObserveAccount(Note(s, Consumed(data)), OutputSeen(data));
        }
      }
    }
  }

  lemma HandleStateAccount(s: State, state: CliState)
    requires Steady(s)
    ensures Adds(Account(s), Account(HandleState(s, state)), [], Open(s.trace))
  {
    hide Account, HandleSessionLoss, RestoreSession, CompleteInflight, DispatchNext, RecoverFeatureError, Credible,
         Open;
    NothingEaten(Account(s), Open(s.trace));
    SessionLossAccount(s);
    EndSessionAccount(s);
    if s.flight.inflight.Some? && state in s.flight.inflight.value.spec.Completes() {
      CompleteInflightAccount(s, state);
    }
    DispatchAccount(s);
    RecoverAccount(s, false);
    RecoverAccount(DispatchNext(s), false);
    NothingToRecover(DispatchNext(s), false);
  }

  lemma NothingToRecover(s: State, atIdlePrompt: bool)
    ensures !s.status.pendingError ==> RecoverFeatureError(s, atIdlePrompt) == s
  {
    hide ContinueAfterError, DispatchNext;
  }

  /** What `on_state` does first: the bytes enter the account, and nothing else. */
  lemma StateEaten(s: State, state: CliState, data: seq<byte>)
    requires Steady(s)
    ensures var s1 := NoteState(s, state, data);
            && s1.status.pendingError == s.status.pendingError && Steady(s1) && Open(s1.trace) == Open(s.trace)
            && Account(s1) == Account(s)
            && Account(Note(s1, Consumed(data))) == Eat(Account(s), data, Open(s.trace))
            && Account(OnOutput(s1, data, false)) == Eat(Account(s), data, Open(s.trace))
            && Steady(OnOutput(s1, data, false))
  {
    hide ConsumedBytes, Segments, Credits, WrittenBy, OnOutput, EndSession, RestoreSession, Open;
    var s0 := s.(session := s.session.(currentState := Some(state)), status := s.status.(callbackFailed := false));
    var s0' := s0.(session := s0.session.(promptContext := s.env.promptContext(data)));
    EndSessionAccount(s0);
    EndSessionAccount(s0');
    RestoredOpen(s0);
    RestoredOpen(s0');
    var s1 := NoteState(s, state, data);
    AccountNote(s1, Consumed(data));
    OutputAccount(s1, data, false);
  }

  lemma RestoredOpen(s: State)
    ensures var r := RestoreSession(s);
            Open(r.trace) == Open(s.trace) && r.flight == s.flight && r.status == s.status && r.queue == s.queue
  {
    assert (s.trace + [SessionRestored])[..|s.trace|] == s.trace;
  }

  lemma StateAccount(s: State, state: CliState, data: seq<byte>)
    requires Steady(s)
    ensures Adds(Account(s), Account(OnState(s, state, data)), data, Open(s.trace))
  {
    hide Account, NoteState, OnOutput, HandleState, RecoverFeatureError, EndSession, RestoreSession, Credible, Open;
    StateEaten(s, state, data);
    var s1 := NoteState(s, state, data);
    var s2 := Note(s1, Consumed(data));
    RecoverAccount(s2, false);
    EndSessionAccount(s2);
    var s3 := OnOutput(s1, data, false);
    RecoverAccount(s3, false);
    HandleStateAccount(s3, state);
    NothingEaten(Account(s3), Open(s3.trace));
  }

  lemma EchoAccount(s: State, data: seq<byte>)
    ensures Adds(Account(s), Account(OnPromptEcho(s, data)), data, Open(s.trace))
  {
    hide ConsumedBytes, Segments, Credits, WrittenBy, OnOutput, Open;
    OutputAccount(s, data, false);
    AccountNote(OnOutput(s, data, false), Nudged);
  }

  lemma IdleAccount(s: State)
    ensures Account(OnTick(s)) == Account(s)
    ensures Steady(s) ==> Wrote(s, OnIdlePrompt(s))
  {
    hide Account, CallFeature, RecoverFeatureError, DispatchNext;
    if Steady(s) {
      RecoverAccount(s, true);
      DispatchAccount(s);
    }
    if s.queue.active.Some? {
      CallAccount(s, Tick);
    }
  }

  /** Features for a scheduler that is done open the terminal again, for the bytes of a new segment. */
  lemma EnqueueAccount(s: State, features: seq<Feature>)
    requires Open(s.trace) <==> !s.queue.ready
    ensures var r := EnqueueRuntimeFeatures(s, features);
            Account(r) == Account(s).(segments := Account(s).segments + if r == s then [] else [[]])
  {
    hide ConsumedBytes, Credits, WrittenBy;
    if s.queue.ready && !Busy(s) {
      var s1 := s.(queue := s.queue.(ready := false, features := features + s.queue.features));
      assert (s.trace + [Enqueued(Ids(features))])[..|s.trace|] == s.trace;
      QuietNote(s1, Enqueued(Ids(features)));
    } else {
      assert Account(s).segments + [] == Account(s).segments;
    }
  }

  lemma QuietNote(s: State, e: Entry)
    requires e.Enqueued?
    ensures Account(Note(s, e)) == Account(s).(segments := Segments(Note(s, e).trace))
  {
    assert (s.trace + [e])[..|s.trace|] == s.trace;
  }

  /** The console bytes an event consumes. */
  function EventBytes(s: State, e: Event): seq<byte> {
    if s.status.raised then []
    else
      match e
      case StateSeen(_, data) => data
      case EchoSeen(data) => data
      case OutputArrived(data, retained) => Taken(s, data, retained)
      case _ => []
  }

  /** How many lines an event may write: one at most, and only a prompt, an answer or an idle moment writes any. */
  predicate MayWrite(e: Event) {
    e.StateSeen? || e.EchoSeen? || e.IdlePrompt?
  }

  /**
   Every event consumes exactly its own bytes, writes at most one line, and credits at most one command,
   a credible one; features that open the terminal again do none of this.
   */
  lemma StepAccount(s: State, e: Event)
    requires Steady(s) && (Open(s.trace) <==> !s.queue.ready)
    ensures var l, r := Account(s), Account(Step(s, e));
            && (if e.Enqueue? && Step(s, e) != s then r == l.(segments := l.segments + [[]])
                else Adds(l, r, EventBytes(s, e), Open(s.trace)))
            && (r.written != l.written ==> MayWrite(e))
  {
    hide Account, OnState, OnOutput, OnPromptEcho, OnTick, OnIdlePrompt, EnqueueRuntimeFeatures, ContinueAfterError,
         Taken, Credible, Open, RegisterCleanup;
    NothingEaten(Account(s), Open(s.trace));
    match e
    case StateSeen(state, data) => StateAccount(s, state, data);
    case OutputArrived(data, retained) => OutputAccount(s, data, retained);
    case EchoSeen(data) => EchoAccount(s, data);
    case Enqueue(features) => EnqueueAccount(s, features);
    case CleanupRegistered(id, action) => RegisterAccount(s, id, action);
    case Escaped(_) => EscapeAccount(s);
    case Thrown => StatusAccount(s, s.status.(raised := true));
    case _ => IdleAccount(s);
  }

  lemma RegisterAccount(s: State, id: nat, action: CleanupAction)
    ensures Account(RegisterCleanup(s, id, [action])) == Account(s)
  {
  }

  lemma StatusAccount(s: State, status: Status)
    ensures Account(s.(status := status)) == Account(s)
  {
  }

  lemma EscapeAccount(s: State)
    requires Steady(s)
    ensures ContinueAfterError(s).Some? ==>
              var r := ContinueAfterError(s).value; Account(r.(status := r.status.(raised := false))) == Account(s)
  {
    hide Account, ContinueAfterError;
    ContinueAccount(s);
    if ContinueAfterError(s).Some? {
      var r := ContinueAfterError(s).value;
      StatusAccount(r, r.status.(raised := false));
    }
  }

  lemma StartAccount(env: Env, continueOnError: bool, features: seq<Feature>)
    ensures Account(Start(Init(env, continueOnError), features)) == Ledger(env, [], [[]], [], [])
  {
    var s := Init(env, continueOnError);
    AccountNote(s.(queue := s.queue.(features := s.queue.features + features)), Enqueued(Ids(features)));
  }

  lemma {:induction false} OpenAt(t: seq<Entry>)
    ensures Open(t) <==> !M.Watch(t).queue.ready
    decreases |t|
  {
    hide M.SessionStep, M.TidyStep, M.ReplayStep, M.BlockStep, M.ConsoleStep, M.CaptureStep;
    if t != [] {
      OpenAt(t[..|t| - 1]);
    }
  }

  /** What `StepAccount` asks for holds throughout every run. */
  lemma InvAccounts(s: State)
    requires I.Inv(s)
    ensures Steady(s) && (Open(s.trace) <==> !s.queue.ready)
  {
    hide I.TidyOk, I.SessionOk, I.ReplayOk, I.BlockOk, I.ConsoleOk, I.CaptureOk, M.Watch, I.Settled, I.Quiet, I.Even,
         I.Transmitted, Open;
    OpenAt(s.trace);
  }

  lemma {:induction false} RunCredits(env: Env, continueOnError: bool, features: seq<Feature>, events: seq<Event>)
    ensures var s := Run(env, continueOnError, features, events);
            s.env == env && forall i :: 0 <= i < |Credits(s.trace)| ==> Credible(env, Credits(s.trace)[i])
    decreases |events|
  {
    hide Step, Credits, Credible, ConsumedBytes, EventBytes, I.Inv, Steady, Open, Segments, WrittenBy, OneLine;
    if events == [] {
      StartAccount(env, continueOnError, features);
    } else {
      var s := Run(env, continueOnError, features, events[..|events| - 1]);
      RunCredits(env, continueOnError, features, events[..|events| - 1]);
      I.RunKept(env, continueOnError, features, events[..|events| - 1]);
      InvAccounts(s);
      StepAccount(s, events[|events| - 1]);
    }
  }

  lemma {:induction false} CreditIn(t: seq<Entry>, i: nat) returns (k: nat)
    requires i < |t| && t[i].Ended? && t[i].ending == Credited
    ensures k < |Credits(t)| && Credits(t)[k] == t[i].attempt
    decreases |t|
  {
    if i == |t| - 1 {
      k := |Credits(t)| - 1;
    } else {
      k := CreditIn(t[..|t| - 1], i);
    }
  }

  /**
   A command counts as done only when it completed at one of its own states, the expected one if it
   names one, without a failure report where it looks for one, and with the prompt still in the scope
   it was sent in unless it is a command that may leave it.
   */
  lemma CreditedCommandsValid(env: Env, continueOnError: bool, features: seq<Feature>, events: seq<Event>, i: nat)
    requires var t := Run(env, continueOnError, features, events).trace;
             i < |t| && t[i].Ended? && t[i].ending == Credited
    ensures Credible(env, Run(env, continueOnError, features, events).trace[i].attempt)
  {
    hide Run, Credits, Credible;
    RunCredits(env, continueOnError, features, events);
    var k := CreditIn(Run(env, continueOnError, features, events).trace, i);
  }

  // ----- a command stays on one connection

  function Between(t: seq<Entry>, j: nat, i: nat): seq<byte>
    requires j <= i <= |t|
    decreases i
  {
    if i == j then [] else Between(t, j, i - 1) + if t[i - 1].Consumed? then t[i - 1].data else []
  }

  lemma {:induction false} BetweenBytes(t: seq<Entry>, j: nat, i: nat)
    requires j <= i <= |t|
    ensures ConsumedBytes(t[..i]) == ConsumedBytes(t[..j]) + Between(t, j, i)
    decreases i
  {
    if i > j {
      BetweenBytes(t, j, i - 1);
      assert t[..i][..i - 1] == t[..i - 1];
    }
  }

  /** Nothing closes the terminal, and nobody opens it again, while a command is in flight. */
  lemma {:induction false} SegmentInFlight(t: seq<Entry>, j: nat, i: nat)
    requires j < i <= |t| && t[j].Took? && M.Accepted(M.Watch(t)) && forall m :: j < m < i ==> !t[m].Ended?
    ensures Open(t[..i]) && M.Watch(t[..i]).session.flight.Some? && (forall m :: j <= m < i ==> !t[m].Ready?)
    ensures Segments(t[..i]) == ExtendLast(Segments(t[..j]), Between(t, j, i))
    decreases i
  {
    hide M.Watch, M.Advance, M.Accepted, Segments, Open, ExtendLast;
    SessionAt(t, i - 1);
    if i - 1 > j {
      SegmentInFlight(t, j, i - 1);
      SegmentsNext(t, i - 1);
    } else {
      TakenWhenOpen(t, j);
      SegmentsNext(t, j);
    }
    var more := if t[i - 1].Consumed? then t[i - 1].data else [];
    ExtendNothing(Segments(t[..i - 1]));
    ExtendNothing(Segments(t[..j]));
    ExtendExtend(Segments(t[..j]), Between(t, j, i - 1), more);
    assert Between(t, j, i) == Between(t, j, i - 1) + more;
    assert Between(t, j, j) == [];
  }

  lemma SegmentsNext(t: seq<Entry>, i: nat)
    requires i < |t| && Open(t[..i])
    ensures Open(t[..i + 1]) <==> !t[i].Ready?
    ensures Segments(t[..i + 1]) == if t[i].Consumed? then ExtendLast(Segments(t[..i]), t[i].data) else Segments(t[..i])
  {
    assert t[..i + 1][..i] == t[..i];
  }

  lemma TakenWhenOpen(t: seq<Entry>, j: nat)
    requires j < |t| && t[j].Took? && M.Accepted(M.Watch(t))
    ensures Open(t[..j])
  {
    hide M.Watch, M.SessionStep, M.TidyStep, M.ReplayStep, M.BlockStep, M.ConsoleStep, M.CaptureStep, Open;
    WatchAt(t, j);
    AcceptedPrefix(t, j + 1);
    OpenAt(t[..j]);
  }

  /** As `CapturedBetween`, and all of the output came in over one connection. */
  ghost predicate CapturedWithin(t: seq<Entry>, j: nat, i: nat, output: seq<byte>) {
    CapturedBetween(t, j, i, output) && Segments(t[..i]) == ExtendLast(Segments(t[..j]), output)
  }

  /** A capture is never torn: the terminal is not closed between its dispatch and its completion. */
  lemma CaptureUntorn(env: Env, continueOnError: bool, features: seq<Feature>, events: seq<Event>, i: nat)
    returns (j: nat)
    requires var t := Run(env, continueOnError, features, events).trace;
             i < |t| && t[i].Ended? && t[i].ending == Credited && t[i].attempt.spec.Captures()
    ensures var t := Run(env, continueOnError, features, events).trace; CapturedWithin(t, j, i, t[i].attempt.output)
  {
    hide Run, M.Watch, M.Accepted, Segments, ExtendLast, ConsumedBytes, Between;
    var t := Run(env, continueOnError, features, events).trace;
    RunAccepted(env, continueOnError, features, events);
    j := CaptureFrom(t, i);
    SegmentInFlight(t, j, i);
    BetweenBytes(t, j, i);
    assert (ConsumedBytes(t[..j]) + t[i].attempt.output)[|ConsumedBytes(t[..j])|..] == t[i].attempt.output;
    assert (ConsumedBytes(t[..j]) + Between(t, j, i))[|ConsumedBytes(t[..j])|..] == Between(t, j, i);
  }

  /** Whatever was sent has ended before the terminal is closed. */
  lemma ClosedBetweenCommands(env: Env, continueOnError: bool, features: seq<Feature>, events: seq<Event>, j: nat,
      i: nat)
    requires var t := Run(env, continueOnError, features, events).trace; j < i < |t| && t[j].Took? && t[i].Ready?
    ensures var t := Run(env, continueOnError, features, events).trace; exists m :: j < m < i && t[m].Ended?
  {
    hide Run, M.Watch, M.Accepted, Segments, Open;
    var t := Run(env, continueOnError, features, events).trace;
    RunAccepted(env, continueOnError, features, events);
    if forall m :: j < m < i ==> !t[m].Ended? {
      SegmentInFlight(t, j, i + 1);
    }
  }

  /** The segments of an earlier moment, but for the end of the last one, are still the first ones later on. */
  ghost predicate Precedes(a: seq<seq<byte>>, b: seq<seq<byte>>) {
    a != [] && |a| <= |b| && a[..|a| - 1] == b[..|a| - 1] && a[|a| - 1] <= b[|a| - 1]
  }

  lemma {:induction false} SegmentsGrow(t: seq<Entry>, i: nat)
    requires i <= |t|
    ensures Precedes(Segments(t[..i]), Segments(t))
    decreases |t|
  {
    hide Open;
    if i == |t| {
      assert t[..i] == t;
    } else {
      SegmentsGrow(t[..|t| - 1], i);
      assert t[..|t| - 1][..i] == t[..i];
    }
  }
}
