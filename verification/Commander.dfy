/**
 `FOSCommander` with its fields updated in place. Every method is proved equal to the
 function of the same name in CommanderSpec, so all that is proved of those functions
 holds of the object: `Model()` is its state, `written` what it sent to the terminal.

 What the driver and the launcher call keeps `Valid()`, the invariant of CommanderInvariant;
 the methods behind the callbacks, which run in the middle of an event, keep `Consistent()`.
 */
module Commander {
  import opened Text
  import opened CliCommands
  import opened CommanderSpec
  import M = CommanderMonitors
  import I = CommanderInvariant
  import L = CommanderLedger
  import T = CommanderTheorems

  lemma WrittenMore(t: seq<Entry>, e: Entry)
    ensures !e.Sent? && !e.Nudged? ==> L.WrittenBy(t + [e]) == L.WrittenBy(t)
    ensures e.Sent? ==> L.WrittenBy(t + [e]) == L.WrittenBy(t) + [e.attempt.spec.line + "\r"]
    ensures e.Nudged? ==> L.WrittenBy(t + [e]) == L.WrittenBy(t) + ["\r"]
  {
    assert (t + [e])[..|t|] == t;
  }

  class FOSCommander {
    const env: Env

    var queue: Queue
    var work: Work
    var flight: Flight
    var tidy: Tidy
    var session: Session
    var status: Status

    var written: seq<string>
    ghost var trace: seq<Entry>

    ghost function Model(): State
      reads this
    {
      State(env, queue, work, flight, tidy, session, status, trace)
    }

    /** What the terminal was given is what the trace says was sent. */
    ghost predicate Consistent()
      reads this
    {
      written == L.WrittenBy(trace)
    }

    /** Between events the fields are what the monitors of the trace say they are. */
    ghost predicate Valid()
      reads this
    {
      Consistent() && I.Inv(Model())
    }

    constructor (env: Env, continueOnError: bool)
      ensures Valid() && Model() == Init(env, continueOnError)
    {
      hide I.Inv;
      this.env := env;
      queue := Queue([], None, [], false, false, []);
      work := Work([], [], None, map[], None, false);
      flight := Flight(None, 0, false, false);
      tidy := Tidy([], 0, map[], map[], None);
      session := Session(0, false, false, None, None);
      status := Status(continueOnError, false, false, false);
      written, trace := [], [];
      new;
      I.InitKept(env, continueOnError);
    }

    ghost method Log(e: Entry)
      requires Consistent() && !e.Sent? && !e.Nudged?
      modifies this`trace
      ensures Consistent() && trace == old(trace) + [e]
    {
      WrittenMore(trace, e);
      trace := trace + [e];
    }

    method Raise()
      requires Consistent()
      modifies this`status
      ensures Consistent() && Model() == CommanderSpec.Raise(old(Model()))
    {
      status := status.(raised := true);
    }

    /** The trace records whose error it is; the scheduler itself does not. */
    method NoteError(ghost who: Option<nat>, ghost activation: nat)
      requires Consistent()
      modifies this`status, this`trace
      ensures Consistent() && Model() == CommanderSpec.NoteError(old(Model()), who, activation)
    {
      if !status.continueOnError {
        Raise();
      } else {
        status := status.(pendingError := true, callbackFailed := true);
        Log(ErrorNoted(who, activation));
      }
    }

    method HandleWorkError()
      requires Consistent()
      modifies this`status, this`trace
      ensures Consistent() && Model() == CommanderSpec.HandleWorkError(old(Model()))
    {
      NoteError(if flight.inCleanup then None else ActiveId(queue), Activations(trace));
    }

    method IsBusy() returns (busy: bool)
      ensures busy == Busy(Model())
    {
      busy := flight.inflight.Some? || work.pending != [] || tidy.cleanup != [];
    }

    // ----- cleanup and the console output mode

    method ScheduleFeatureCleanup(id: nat, completion: bool)
      requires Consistent()
      modifies this`tidy, this`trace
      ensures Consistent() && Model() == CommanderSpec.ScheduleFeatureCleanup(old(Model()), id, completion)
    {
      hide L.WrittenBy, Queued, DueCommands;
      if id !in tidy.cleanupActions {
        return;
      }
      var actions := tidy.cleanupActions[id];
      tidy := tidy.(cleanupActions := tidy.cleanupActions - {id});
      var due: seq<CommandSpec> := [];
      assert actions[0..] == actions;
      for i := 0 to |actions|
        modifies {}
        invariant DueCommands(actions, completion) == due + DueCommands(actions[i..], completion)
      {
        if (completion && actions[i].onCompletion) || (!completion && actions[i].onInterruption) {
          due := due + actions[i].commands;
        }
        DueFrom(actions, i, completion);
      }
      NothingDue(actions, completion);
      assert due + [] == due;
      tidy := Queued(tidy, due);
      Log(CleanupQueued(due));
    }

    method AddCleanup(id: nat, actions: seq<CleanupAction>)
      requires Consistent()
      modifies this`tidy
      ensures Consistent() && Model() == CommanderSpec.RegisterCleanup(old(Model()), id, actions)
    {
      if actions != [] {
        var known := if id in tidy.cleanupActions then tidy.cleanupActions[id] else [];
        tidy := tidy.(cleanupActions := tidy.cleanupActions[id := known + actions]);
      }
    }

    method FinishStandardOutput(id: nat)
      requires Consistent()
      modifies this`tidy, this`trace
      ensures Consistent() && Model() == CommanderSpec.FinishStandardOutput(old(Model()), id)
    {
      if tidy.standardOutput.None? || tidy.standardOutput.value.feature != id {
        return;
      }
      var owed := if tidy.standardOutput.value.restore then CONSOLE_RESTORE else [];
      tidy := Queued(tidy, owed).(standardOutput := None);
      Log(ConsoleReleased(owed));
    }

    // ----- blocks

    method SubmitBlock(id: nat, block: Command)
      requires Consistent()
      modifies this`work, this`status, this`trace
      ensures Consistent() && Model() == CommanderSpec.SubmitBlock(old(Model()), id, block)
    {
      hide Flatten, L.WrittenBy;
      var busy := IsBusy();
      var commands := Flatten(block);
      if queue.active.None? || queue.active.value.id != id || busy || !Sendable(commands) {
        Raise();
        return;
      }
      work := Work(commands, commands, session.promptContext, map[], None, false);
      Log(Submitted(commands, session.promptContext));
    }

    method WithStandardOutput(id: nat)
      requires Consistent()
      modifies this`work, this`tidy, this`status, this`trace
      ensures Consistent() && Model() == WithStandardOutputOp(old(Model()), id)
    {
      hide L.WrittenBy, CommanderSpec.SubmitBlock;
      var busy := IsBusy();
      if queue.active.None? || queue.active.value.id != id || busy || tidy.standardOutput.Some? {
        Raise();
        return;
      }
      tidy := tidy.(standardOutput := Some(StandardOutput(id, Inspect, false)));
      Log(ConsoleTaken);
      SubmitBlock(id, CONSOLE_INSPECT);
    }

    // ----- callbacks, completion and activation

    method CallFeature(callback: Callback)
      requires Consistent() && queue.active.Some?
      modifies this
      ensures Consistent() && Model() == CommanderSpec.CallFeature(old(Model()), callback)
      decreases |queue.features|, 3, 0
    {
      hide L.WrittenBy, CommanderSpec.RunOps, Activations;
      var f := queue.active.value;
      ghost var activation := Activations(trace);
      queue := queue.(history := queue.history + [callback]);
      var reaction := f.act(queue.history);
      RunOps(f.id, reaction.ops);
      if status.raised || reaction.raises {
        status := status.(raised := false);
        NoteError(Some(f.id), activation);
      }
    }

    method RunOps(id: nat, ops: seq<Op>)
      requires Consistent()
      modifies this
      ensures Consistent() && Model() == CommanderSpec.RunOps(old(Model()), id, ops)
      decreases |queue.features|, 2, 0
    {
      hide L.WrittenBy, CommanderSpec.ApplyOp;
      var i := 0;
      while i < |ops| && !status.raised
        invariant Consistent() && i <= |ops| && |queue.features| <= old(|queue.features|)
        invariant CommanderSpec.RunOps(Model(), id, ops[i..]) == CommanderSpec.RunOps(old(Model()), id, ops)
        decreases |ops| - i
      {
        assert ops[i..][0] == ops[i] && ops[i..][1..] == ops[i + 1..];
        ApplyOp(id, ops[i]);
        i := i + 1;
      }
    }

    method ApplyOp(id: nat, op: Op)
      requires Consistent()
      modifies this
      ensures Consistent() && Model() == CommanderSpec.ApplyOp(old(Model()), id, op)
      decreases |queue.features|, 1, 1
    {
      hide L.WrittenBy, CommanderSpec.SubmitBlock, WithStandardOutputOp, CommanderSpec.RegisterCleanup;
      match op
      case Submit(block) => SubmitBlock(id, block);
      case Complete => FeatureComplete(id);
      case WithStandardOutput => WithStandardOutput(id);
      case Register(action) => AddCleanup(id, [action]);
    }

    method FeatureComplete(id: nat)
      requires Consistent()
      modifies this
      ensures Consistent() && Model() == CommanderSpec.FeatureComplete(old(Model()), id)
      decreases |queue.features|, 1, 0
    {
      hide L.WrittenBy, CommanderSpec.ActivateNextFeature, CommanderSpec.ScheduleFeatureCleanup,
           CommanderSpec.FinishStandardOutput;
      if queue.active.None? || queue.active.value.id != id {
        return;
      }
      var busy := IsBusy();
      if busy {
        Raise();
        return;
      }
      FinishStandardOutput(id);
      ScheduleFeatureCleanup(id, true);
      queue := queue.(active := None);
      work := work.(activeCommands := []);
      Log(Completed(id));
      if tidy.cleanup == [] {
        ActivateNextFeature();
      }
    }

    method ActivateNextFeature()
      requires Consistent()
      modifies this
      ensures Consistent() && Model() == CommanderSpec.ActivateNextFeature(old(Model()))
      decreases |queue.features|, 0, 0
    {
      hide L.WrittenBy, CommanderSpec.CallFeature;
      if queue.ready || queue.active.Some? || session.recovering {
        return;
      }
      if queue.features == [] {
        if tidy.cleanup != [] {
          return;
        }
        queue := queue.(ready := true, startupComplete := true);
        Log(Ready);
        return;
      }
      var next := queue.features[0];
      queue := queue.(active := Some(next), features := queue.features[1..], history := []);
      Log(Activated(next.id));
      if !status.pendingError {
        CallFeature(Activate);
      }
    }

    method Observe(callback: Callback) returns (verdict: Verdict)
      requires Consistent() && queue.active.Some?
      modifies this`queue, this`tidy, this`status, this`trace
      ensures Consistent() && Model() == CommanderSpec.Observe(old(Model()), callback)
      ensures verdict == VerdictOf(old(Model()), callback)
    {
      hide L.WrittenBy, CommanderSpec.RegisterCleanup, Activations;
      var f := queue.active.value;
      ghost var activation := Activations(trace);
      queue := queue.(history := queue.history + [callback]);
      verdict := f.observe(queue.history);
      AddCleanup(f.id, verdict.registers);
      if verdict.raises {
        NoteError(Some(f.id), activation);
      }
    }

    // ----- dispatch

    /** The line goes to the terminal. */
    method WriteLine(a: Attempt)
      requires Consistent()
      modifies this`written, this`trace
      ensures Consistent() && Model() == Note(old(Model()), Sent(a)) && written == old(written) + [a.spec.line + "\r"]
    {
      WrittenMore(trace, Sent(a));
      written := written + [a.spec.line + "\r"];
      trace := trace + [Sent(a)];
    }

    method DispatchCommand(spec: CommandSpec, blockIndex: Option<nat>, token: Option<nat>)
      requires Consistent()
      modifies this
      ensures Consistent() && Model() == CommanderSpec.DispatchCommand(old(Model()), spec, blockIndex, token)
    {
      hide L.WrittenBy, CommanderSpec.Observe, Lookup;
      var retries := 0;
      if !flight.inCleanup {
        retries := Lookup(work.recoveryRetries, blockIndex);
      } else if token.Some? {
        retries := Lookup(tidy.cleanupRetries, token.value);
      }
      var number := flight.attemptNumber + 1;
      var attempt := Attempt(spec, number, session.epoch, [], session.promptContext, None, blockIndex, retries, token);
      flight := flight.(attemptNumber := number, inflight := Some(attempt));
      Log(Took(attempt));
      if queue.active.Some? && !flight.inContextReset {
        var _ := Observe(Dispatched(attempt));
        if status.raised || status.pendingError {
          return;
        }
      }
      WriteLine(attempt);
    }

    /** Skips the failed work; `skipped` is false when the scheduler cannot go on. */
    method ContinueAfterError() returns (skipped: bool)
      requires Consistent()
      modifies this
      ensures Consistent()
      ensures match CommanderSpec.ContinueAfterError(old(Model())) {
        case None => !skipped && Model() == old(Model())
        case Some(s) => skipped && Model() == s
      }
    {
      hide L.WrittenBy, CommanderSpec.ScheduleFeatureCleanup, CommanderSpec.FinishStandardOutput;
      if queue.ready || (queue.active.None? && !flight.inCleanup) {
        return false;
      }
      skipped := true;
      if flight.inflight.Some? {
        var a := flight.inflight.value;
        flight := flight.(inflight := None, inContextReset := false);
        Log(Ended(a, Dropped));
      }
      var who: Option<nat> := None;
      if queue.active.Some? {
        var id := queue.active.value.id;
        who := Some(id);
        FinishStandardOutput(id);
        ScheduleFeatureCleanup(id, false);
        queue := queue.(active := None);
        work := work.(activeCommands := [], pending := []);
      }
      queue := queue.(featureErrors := queue.featureErrors + [who]);
      work := work.(replayTarget := None);
      flight := flight.(inCleanup := false);
      tidy := tidy.(cleanupRetries := map[]);
      Log(Failed(who));
    }

    method RecoverFeatureError(atIdlePrompt: bool)
      requires Consistent()
      modifies this
      ensures Consistent() && Model() == CommanderSpec.RecoverFeatureError(old(Model()), atIdlePrompt)
      decreases 1, 0
    {
      hide L.WrittenBy, DropInflight, StrikeOff, CommanderSpec.DispatchNext;
      if !status.pendingError || (session.currentState != Some(CmdPrompt) && !atIdlePrompt) {
        return;
      }
      RecoveredTarget(Model());
      var skipped := ContinueAfterError();
      if skipped {
        status := status.(pendingError := false);
        Log(ErrorCleared);
        DispatchNext();
      }
    }

    method RestoreReplayContext() returns (proceed: bool)
      requires Consistent() && work.replayTarget.Some?
      modifies this
      ensures Consistent() && (Model(), proceed) == CommanderSpec.RestoreReplayContext(old(Model()))
      decreases 1, 1
    {
      hide L.WrittenBy, CommanderSpec.DispatchCommand, CommanderSpec.RecoverFeatureError;
      if session.promptContext == work.replayTarget {
        work := work.(replayTarget := None);
        return true;
      }
      if work.contextResetAttempted {
        HandleWorkError();
        if !status.raised && status.pendingError {
          RecoverFeatureError(false);
        }
        return false;
      }
      work := work.(contextResetAttempted := true);
      flight := flight.(inContextReset := true);
      DispatchCommand(ABORT, None, None);
      return false;
    }

    method DispatchNext()
      requires Consistent()
      modifies this
      ensures Consistent() && Model() == CommanderSpec.DispatchNext(old(Model()))
      decreases if work.replayTarget.Some? then 2 else 0, 0
    {
      hide L.WrittenBy, CommanderSpec.RestoreReplayContext, CommanderSpec.ActivateNextFeature, DispatchOne;
      if flight.inflight.Some? || session.recovering || status.pendingError {
        return;
      }
      if work.replayTarget.Some? {
        var proceed := RestoreReplayContext();
        if !proceed {
          return;
        }
      }
      if tidy.cleanup == [] && queue.active.None? {
        ActivateNextFeature();
        if status.raised || queue.active.None? {
          return;
        }
      }
      SendNext();
    }

    /** A cleanup command, the end of the block, or its next command. */
    method SendNext()
      requires Consistent()
      modifies this
      ensures Consistent() && Model() == DispatchOne(old(Model()))
    {
      hide L.WrittenBy, CommanderSpec.CallFeature, CommanderSpec.DispatchCommand;
      if tidy.cleanup != [] {
        var next := tidy.cleanup[0];
        tidy := tidy.(cleanup := tidy.cleanup[1..]);
        flight := flight.(inCleanup := true);
        DispatchCommand(next.spec, None, Some(next.token));
      } else if work.pending == [] {
        if queue.active.None? {
          Raise();
          return;
        }
        Log(BlockDone);
        CallFeature(BlockComplete);
      } else {
        var spec := work.pending[0];
        work := work.(pending := work.pending[1..]);
        flight := flight.(inCleanup := false);
        var index := |work.activeCommands| - |work.pending| - 1;
        DispatchCommand(spec, if index >= 0 then Some(index) else None, None);
      }
    }

    // ----- interruptions

    method RestartActiveBlock(a: Attempt)
      requires Consistent()
      modifies this`work, this`status, this`trace
      ensures Consistent() && Model() == CommanderSpec.RestartActiveBlock(old(Model()), a)
    {
      hide L.WrittenBy;
      var retries := Lookup(work.recoveryRetries, a.blockIndex);
      if retries >= MAX_COMMAND_RECOVERY_RETRIES {
        HandleWorkError();
        return;
      }
      work := work.(recoveryRetries := work.recoveryRetries[a.blockIndex := retries + 1],
          pending := work.activeCommands,
                    replayTarget := work.blockContext, contextResetAttempted := false);
      Log(Restarted(a.blockIndex));
    }

    method HandleContextLoss(a: Attempt)
      requires Consistent()
      modifies this
      ensures Consistent() && Model() == CommanderSpec.HandleContextLoss(old(Model()), a)
    {
      hide L.WrittenBy, CommanderSpec.Observe, CommanderSpec.RestartActiveBlock;
      if flight.inCleanup {
        HandleWorkError();
        return;
      }
      if queue.active.None? {
        Raise();
        return;
      }
      var verdict := Observe(LostContext(a));
      if status.raised || status.pendingError {
        return;
      }
      if verdict.context == Restart {
        RestartActiveBlock(a);
      } else {
        HandleWorkError();
      }
    }

    method EndSession()
      requires Consistent()
      modifies this`session, this`trace
      ensures Consistent() && Model() == CommanderSpec.EndSession(old(Model()))
    {
      session := session.(epoch := session.epoch + 1, recovering := true);
      Log(SessionEnded);
    }

    method RestoreSession()
      requires Consistent()
      modifies this`session, this`trace
      ensures Consistent() && Model() == CommanderSpec.RestoreSession(old(Model()))
    {
      session := session.(authenticatedOnce := true);
      if session.recovering {
        session := session.(recovering := false);
        Log(SessionRestored);
      }
    }

    method HandleSessionLoss()
      requires Consistent()
      modifies this
      ensures Consistent() && Model() == CommanderSpec.HandleSessionLoss(old(Model()))
    {
      hide L.WrittenBy, CommanderSpec.HandleBlockLoss, Requeued, CommanderSpec.EndSession;
      if flight.inflight.None? {
        EndSession();
        return;
      }
      var a := flight.inflight.value;
      flight := flight.(inflight := None);
      if flight.inContextReset {
        flight := flight.(inContextReset := false);
        Log(Ended(a, Ending.Interrupted));
        EndSession();
      } else if flight.inCleanup {
        if a.token.None? || Lookup(tidy.cleanupRetries, a.token.value) >= MAX_COMMAND_RECOVERY_RETRIES {
          Log(Ended(a, Dropped));
          EndSession();
          HandleWorkError();
        } else {
          tidy := Requeued(tidy, a.spec, a.token.value);
          flight := flight.(inCleanup := false);
          Log(Ended(a, Ending.Interrupted));
          EndSession();
        }
      } else {
        Log(Ended(a, Ending.Interrupted));
        EndSession();
        HandleBlockLoss(a);
      }
    }

    method HandleBlockLoss(a: Attempt)
      requires Consistent()
      modifies this
      ensures Consistent() && Model() == CommanderSpec.HandleBlockLoss(old(Model()), a)
    {
      hide L.WrittenBy, CommanderSpec.ScheduleFeatureCleanup, CommanderSpec.Observe, CommanderSpec.RestartActiveBlock;
      if queue.active.None? {
        Raise();
        return;
      }
      ScheduleFeatureCleanup(queue.active.value.id, false);
      if queue.active.None? {
        Raise();
        return;
      }
      var verdict := Observe(LostSession(a));
      if status.raised || status.pendingError {
        return;
      }
      match verdict.loss {
        case RestartBlock => RestartActiveBlock(a);
        case Fail => HandleWorkError();
        case _ =>
          work := work.(pending := []);
          Log(Abandoned);
      }
    }

    // ----- completion

    method StartStandardOutputCallback()
      requires Consistent() && tidy.standardOutput.Some?
      modifies this
      ensures Consistent() && Model() == CommanderSpec.StartStandardOutputCallback(old(Model()))
    {
      hide L.WrittenBy, CommanderSpec.CallFeature;
      tidy := tidy.(standardOutput := Some(tidy.standardOutput.value.(phase := Running)));
      if queue.active.Some? {
        CallFeature(StandardReady);
      } else {
        Raise();
      }
    }

    method CompleteStandardOutputCommand(a: Attempt)
      requires Consistent() && tidy.standardOutput.Some?
      modifies this
      ensures Consistent() && Model() == CommanderSpec.CompleteStandardOutputCommand(old(Model()), a)
    {
      hide L.WrittenBy, CommanderSpec.StartStandardOutputCallback, CommanderSpec.SubmitBlock;
      var context := tidy.standardOutput.value;
      if a.spec.line == CONSOLE_INSPECT_LINE {
        if env.consoleMode(a.output) != More {
          StartStandardOutputCallback();
        } else {
          tidy := tidy.(standardOutput := Some(context.(phase := SetStandard)));
          SubmitBlock(context.feature, CONSOLE_STANDARD);
        }
      } else if context.phase == SetStandard {
        tidy := tidy.(standardOutput := Some(context.(restore := true)));
        if !context.restore {
          Log(ConsoleChanged);
        }
        StartStandardOutputCallback();
      }
    }

    method CompleteInflight(state: CliState)
      requires Consistent() && flight.inflight.Some?
      modifies this
      ensures Consistent() && Model() == CommanderSpec.CompleteInflight(old(Model()), state)
    {
      hide L.WrittenBy, CommanderSpec.HandleContextLoss, CommanderSpec.DispatchNext, CommanderSpec.RecoverFeatureError,
           CommanderSpec.CompleteCredited, CommanderSpec.HandleWorkError, ContextChanged, Validates;
      var a := flight.inflight.value.(after := session.promptContext);
      flight := flight.(inflight := None);
      if flight.inContextReset {
        flight := flight.(inContextReset := false);
        Log(Ended(a, Reset));
        DispatchNext();
        return;
      }
      if state == CmdPrompt && ContextChanged(a) {
        Log(Ended(a, Rejected));
        HandleContextLoss(a);
        if status.raised {
          return;
        }
        if status.pendingError {
          RecoverFeatureError(false);
        } else {
          DispatchNext();
        }
        return;
      }
      if !Validates(env, a, state) {
        Log(Ended(a, Rejected));
        if state != CmdPrompt {
          Raise();
          return;
        }
        HandleWorkError();
        if !status.raised && status.pendingError {
          RecoverFeatureError(false);
        }
        return;
      }
      if flight.inCleanup {
        if a.token.Some? {
          tidy := tidy.(cleanupRetries := tidy.cleanupRetries - {a.token.value});
        }
        flight := flight.(inCleanup := false);
        Log(Ended(a, Credited));
        DispatchNext();
        return;
      }
      Log(Ended(a, Credited));
      CompleteCredited(a, state);
    }

    method IsStandardOutput(spec: CommandSpec) returns (yes: bool)
      ensures yes == IsStandardOutputCommand(Model(), spec)
    {
      yes := tidy.standardOutput.Some?
             && (spec.line == CONSOLE_INSPECT_LINE
                 || (tidy.standardOutput.value.phase == SetStandard && work.pending == []));
    }

    lemma StandardOutputTaken(spec: CommandSpec)
      requires IsStandardOutputCommand(Model(), spec)
      ensures tidy.standardOutput.Some?
    {
    }

    method CompleteCredited(a: Attempt, state: CliState)
      requires Consistent()
      modifies this
      ensures Consistent() && Model() == CommanderSpec.CompleteCredited(old(Model()), a, state)
    {
      hide L.WrittenBy, CommanderSpec.CompleteStandardOutputCommand, CommanderSpec.DispatchNext,
           CommanderSpec.CallFeature,
           CommanderSpec.FinishCommand, IsStandardOutputCommand;
      var standardOutput := IsStandardOutput(a.spec);
      if standardOutput {
        StandardOutputTaken(a.spec);
        CompleteStandardOutputCommand(a);
        if !status.raised && !status.pendingError && !session.recovering {
          DispatchNext();
        }
        return;
      }
      if queue.active.None? {
        Raise();
        return;
      }
      var id := queue.active.value.id;
      CallFeature(Executed(a, state));
      if !status.raised && !status.pendingError {
        FinishCommand(id, state);
      }
    }

    method FinishCommand(id: nat, state: CliState)
      requires Consistent()
      modifies this
      ensures Consistent() && Model() == CommanderSpec.FinishCommand(old(Model()), id, state)
    {
      hide L.WrittenBy, CommanderSpec.DispatchNext, CommanderSpec.CallFeature;
      var busy := IsBusy();
      if !busy && queue.active.Some? && queue.active.value.id == id {
        Log(BlockDone);
        CallFeature(BlockComplete);
      }
      if !status.raised && !session.recovering && Dispatchable(state) {
        DispatchNext();
      }
    }

    // ----- events

    /** `taken` is what the commander discards of the output. */
    method HandOver(data: seq<byte>, retained: bool) returns (taken: seq<byte>)
      requires Consistent()
      modifies this`queue, this`flight, this`tidy, this`status, this`trace
      ensures Consistent() && Model() == CommanderSpec.OnOutput(old(Model()), data, retained)
      ensures taken == Taken(old(Model()), data, retained)
    {
      hide L.WrittenBy, CommanderSpec.Observe;
      taken := [];
      if data == [] {
        return;
      }
      if flight.inflight.Some? && flight.inflight.value.spec.Captures() {
        var a := flight.inflight.value;
        flight := flight.(inflight := Some(a.(output := a.output + data)));
        Log(Consumed(data));
        return data;
      }
      var fails := flight.inflight.Some? && queue.active.Some?
                   && queue.active.value.observe(queue.history + [OutputSeen(data)]).raises;
      if !retained || (session.recovering && (!fails || status.continueOnError)) {
        taken := data;
        Log(Consumed(data));
      }
      if flight.inflight.Some? && queue.active.Some? {
        var _ := Observe(OutputSeen(data));
      }
    }

    method OnOutput(data: seq<byte>, retained: bool) returns (taken: seq<byte>)
      requires Valid() && !status.raised
      modifies this
      ensures Valid() && Model() == CommanderSpec.OnOutput(old(Model()), data, retained)
      ensures taken == Taken(old(Model()), data, retained) && (taken == [] || taken == data)
      ensures written == old(written)
      ensures T.ConsumedBytes(trace) == old(T.ConsumedBytes(trace)) + taken
    {
      hide CommanderSpec.OnOutput, I.Inv, L.WrittenBy, T.ConsumedBytes, Discards;
      Stepped(Model(), OutputArrived(data, retained));
      taken := HandOver(data, retained);
    }

    /** A prompt with stray text behind it: a clean one is asked for, unless somebody took the text. */
    method OnPromptEcho(data: seq<byte>)
      requires Valid() && !status.raised
      modifies this
      ensures Valid() && Model() == CommanderSpec.OnPromptEcho(old(Model()), data)
      ensures written == old(written) || written == old(written) + ["\r"]
      ensures written == old(written) <==> status.raised || (data != [] && old(TakesText(flight, session)))
    {
      hide L.WrittenBy, CommanderSpec.OnOutput, I.Inv;
      Stepped(Model(), EchoSeen(data));
      var discarded := data != [] && TakesText(flight, session);
      var _ := HandOver(data, false);
      if !status.raised && !discarded {
        WrittenMore(trace, Nudged);
        written := written + ["\r"];
        trace := trace + [Nudged];
      }
    }

    /** One state of the console: at most one line is written in answer to it. */
    method OnState(state: CliState, data: seq<byte>)
      requires Valid() && !status.raised
      modifies this
      ensures Valid() && Model() == CommanderSpec.OnState(old(Model()), state, data)
      ensures old(written) <= written && |written| <= |old(written)| + 1
      ensures T.ConsumedBytes(trace) == old(T.ConsumedBytes(trace)) + data
    {
      hide L.WrittenBy, CommanderSpec.OnState, I.Inv, T.ConsumedBytes;
      Stepped(Model(), StateSeen(state, data));
      TakeState(state, data);
    }

    method TakeState(state: CliState, data: seq<byte>)
      requires Consistent()
      modifies this
      ensures Consistent() && Model() == CommanderSpec.OnState(old(Model()), state, data)
    {
      hide L.WrittenBy, CommanderSpec.OnOutput, CommanderSpec.HandleState, CommanderSpec.RecoverFeatureError,
           CommanderSpec.RestoreSession, CommanderSpec.EndSession, NoteState;
      NoteStateIn(state, data);
      if status.pendingError {
        Log(Consumed(data));
        match state {
          case CmdPrompt => RecoverFeatureError(false);
          case SessionLost => EndSession();
          case CredentialAccepted => RestoreSession();
          case _ =>
        }
        return;
      }
      var _ := HandOver(data, false);
      if status.raised {
        return;
      }
      if status.callbackFailed || status.pendingError {
        if state == CmdPrompt {
          RecoverFeatureError(false);
        }
        return;
      }
      HandleState(state);
    }

    method NoteStateIn(state: CliState, data: seq<byte>)
      requires Consistent()
      modifies this
      ensures Consistent() && Model() == NoteState(old(Model()), state, data)
    {
      hide L.WrittenBy, CommanderSpec.RestoreSession;
      session := session.(currentState := Some(state));
      status := status.(callbackFailed := false);
      if state == CmdPrompt {
        var context := env.promptContext(data);
        if context.Some? {
          session := session.(promptContext := context);
        }
        RestoreSession();
      }
    }

    method HandleState(state: CliState)
      requires Consistent()
      modifies this
      ensures Consistent() && Model() == CommanderSpec.HandleState(old(Model()), state)
    {
      hide L.WrittenBy, CommanderSpec.HandleSessionLoss, CommanderSpec.RestoreSession, CommanderSpec.CompleteInflight,
           CommanderSpec.DispatchNext, CommanderSpec.RecoverFeatureError;
      if state == SessionLost || (state == ProvideUsername && session.authenticatedOnce) {
        HandleSessionLoss();
        return;
      }
      if state == CredentialAccepted {
        RestoreSession();
        return;
      }
      if flight.inflight.Some? && state in flight.inflight.value.spec.Completes() {
        CompleteInflight(state);
        return;
      }
      if state == CmdPrompt && !session.recovering {
        DispatchNext();
      }
      if !status.raised && status.callbackFailed && state == CmdPrompt {
        RecoverFeatureError(false);
      }
    }

    /** A read timed out at a prompt: at most one line is written, and none before the answer to the last one. */
    method OnIdlePrompt()
      requires Valid() && !status.raised
      modifies this
      ensures Valid() && Model() == CommanderSpec.OnIdlePrompt(old(Model()))
      ensures old(written) <= written && |written| <= |old(written)| + 1
      ensures old(flight.inflight.Some? || session.recovering) ==> written == old(written)
      ensures T.ConsumedBytes(trace) == old(T.ConsumedBytes(trace))
    {
      hide L.WrittenBy, CommanderSpec.DispatchNext, CommanderSpec.RecoverFeatureError, I.Inv, T.ConsumedBytes;
      Stepped(Model(), IdlePrompt);
      if flight.inflight.Some? || session.recovering {
        return;
      }
      if status.pendingError {
        RecoverFeatureError(true);
      } else if work.pending != [] || tidy.cleanup != [] || queue.active.None? {
        DispatchNext();
      }
    }

    /** The active feature may do something on its own account; no line is written yet. */
    method OnTick()
      requires Valid() && !status.raised
      modifies this
      ensures Valid() && Model() == CommanderSpec.OnTick(old(Model()))
      ensures written == old(written) && flight == old(flight)
    {
      hide L.WrittenBy, CommanderSpec.CallFeature, I.Inv;
      Stepped(Model(), Ticked);
      if !status.pendingError && queue.active.Some? {
        CallFeature(Tick);
      }
    }

    method Start(features: seq<Feature>)
      requires Valid() && !queue.ready
      modifies this`queue, this`trace
      ensures Valid() && Model() == CommanderSpec.Start(old(Model()), features)
    {
      hide I.Inv, L.WrittenBy;
      I.EnqueuedKept(Model(), features);
      assert queue.(ready := false) == queue;
      queue := queue.(features := queue.features + features);
      Log(Enqueued(Ids(features)));
    }

    /** Features for a scheduler that is done go to the front of its queue; any other refuses them. */
    method EnqueueRuntimeFeatures(features: seq<Feature>) returns (accepted: bool)
      requires Valid() && !status.raised
      modifies this`queue, this`trace
      ensures Valid() && Model() == CommanderSpec.EnqueueRuntimeFeatures(old(Model()), features)
      ensures accepted == old(queue.ready && !Busy(Model()))
      ensures if accepted then queue.features == features + old(queue.features) && !queue.ready
              else Model() == old(Model())
    {
      hide I.Inv, L.WrittenBy;
      Stepped(Model(), Enqueue(features));
      var busy := IsBusy();
      if !queue.ready || busy {
        return false;
      }
      queue := queue.(ready := false, features := features + queue.features);
      Log(Enqueued(Ids(features)));
      return true;
    }

    method RegisterCleanup(id: nat, action: CleanupAction)
      requires Valid() && !status.raised
      modifies this`tidy
      ensures Valid() && Model() == CommanderSpec.RegisterCleanup(old(Model()), id, [action])
    {
      hide I.Inv, L.WrittenBy, CommanderSpec.RegisterCleanup;
      Stepped(Model(), CleanupRegistered(id, action));
      AddCleanup(id, [action]);
    }

    /** The launcher's reaction to an exception that left the driver: something is struck off, or it stays out. */
    method OnEscape(atPrompt: bool)
      requires Valid()
      modifies this
      ensures Valid() && Model() == CommanderSpec.OnEscape(old(Model()), atPrompt)
      ensures written == old(written) && (status.raised ==> Model() == old(Model()))
    {
      hide L.WrittenBy, CommanderSpec.ContinueAfterError, I.Inv;
      Stepped(Model(), Escaped(atPrompt));
      SkippedStatus(Model());
      if status.raised && status.continueOnError && !queue.startupComplete && atPrompt {
        var skipped := ContinueAfterError();
        if skipped {
          status := status.(raised := false);
        }
      }
    }

    /**
     One event: every theorem about `Run` is about the object these calls leave behind. Whatever the event,
     the object consumes exactly the bytes that are its own, writes at most one line, none unless the event
     is one to be answered, and credits at most one command, a credible one.
     */
    method Handle(e: Event)
      requires Valid()
      modifies this
      ensures Valid() && Model() == Step(old(Model()), e)
      ensures old(written) <= written && |written| <= |old(written)| + 1
      ensures written != old(written) ==> L.MayWrite(e)
      ensures T.ConsumedBytes(trace) == old(T.ConsumedBytes(trace)) + L.EventBytes(old(Model()), e)
      ensures var before, after := old(L.Credits(trace)), L.Credits(trace);
              after == before || (exists a :: after == before + [a] && L.Credible(env, a))
    {
      hide L.WrittenBy, CommanderSpec.OnState, CommanderSpec.OnOutput, CommanderSpec.OnPromptEcho, CommanderSpec.OnTick,
           CommanderSpec.OnIdlePrompt, CommanderSpec.OnEscape, CommanderSpec.RegisterCleanup,
           CommanderSpec.EnqueueRuntimeFeatures, I.Inv, T.ConsumedBytes, L.Credits, L.Credible, L.EventBytes, Taken;
      Stepped(Model(), e);
      if status.raised {
        match e {
          case Escaped(atPrompt) => OnEscape(atPrompt);
          case _ =>
        }
        return;
      }
      match e {
        case StateSeen(state, data) => OnState(state, data);
        case OutputArrived(data, retained) => var _ := OnOutput(data, retained);
        case EchoSeen(data) => OnPromptEcho(data);
        case Ticked => OnTick();
        case IdlePrompt => OnIdlePrompt();
        case Enqueue(features) => var _ := EnqueueRuntimeFeatures(features);
        case CleanupRegistered(id, action) => RegisterCleanup(id, action);
        case Thrown => Raise();
        case Escaped(_) =>
      }
    }
  }

  lemma DueFrom(actions: seq<CleanupAction>, i: nat, completion: bool)
    requires i < |actions|
    ensures DueCommands(actions[i..], completion)
         == (if (if completion then actions[i].onCompletion else actions[i].onInterruption) then actions[i].commands
             else [])
            + DueCommands(actions[i + 1..], completion)
  {
    assert actions[i..][0] == actions[i] && actions[i..][1..] == actions[i + 1..];
  }

  lemma NothingDue(actions: seq<CleanupAction>, completion: bool)
    ensures DueCommands(actions[|actions|..], completion) == []
  {
  }

  /** A capturing command, or a session in recovery, takes whatever text comes. */
  predicate TakesText(flight: Flight, session: Session) {
    (flight.inflight.Some? && flight.inflight.value.spec.Captures()) || session.recovering
  }

  /** What every event does, for the object's callers. */
  lemma Stepped(s: State, e: Event)
    requires I.Inv(s)
    ensures var r := Step(s, e);
            && I.Inv(r) && r.env == s.env
            && L.WrittenBy(s.trace) <= L.WrittenBy(r.trace)
            && |L.WrittenBy(r.trace)| <= |L.WrittenBy(s.trace)| + 1
            && (L.WrittenBy(r.trace) != L.WrittenBy(s.trace) ==> L.MayWrite(e))
            && T.ConsumedBytes(r.trace) == T.ConsumedBytes(s.trace) + L.EventBytes(s, e)
            && (|| L.Credits(r.trace) == L.Credits(s.trace)
                || (exists a :: L.Credits(r.trace) == L.Credits(s.trace) + [a] && L.Credible(s.env, a)))
  {
    hide I.Inv, L.WrittenBy, L.Credits, T.ConsumedBytes, L.Segments, Step, L.Credible, L.Open, L.Steady;
    I.StepKept(s, e);
    L.InvAccounts(s);
    L.StepAccount(s, e);
  }

  lemma SkippedStatus(s: State)
    ensures var r := CommanderSpec.ContinueAfterError(s); r.Some? ==> r.value.status == s.status
  {
    hide DueCommands, Queued;
  }

  lemma RecoveredTarget(s: State)
    ensures var r := CommanderSpec.ContinueAfterError(s); r.Some? ==> r.value.work.replayTarget.None?
  {
    hide DropInflight, CommanderSpec.ScheduleFeatureCleanup, CommanderSpec.FinishStandardOutput;
  }

  /** A whole bootstrap, driven event by event. */
  method Bootstrap(env: Env, continueOnError: bool, features: seq<Feature>, events: seq<Event>)
    returns (commander: FOSCommander)
    ensures commander.Valid() && commander.Model() == Run(env, continueOnError, features, events)
    ensures M.Accepted(M.Watch(commander.trace))
  {
    hide Step, L.WrittenBy, M.Watch, M.Accepted, I.Inv;
    commander := new FOSCommander(env, continueOnError);
    commander.Start(features);
    for i := 0 to |events|
      invariant fresh(commander) && commander.Valid()
      invariant commander.Model() == Run(env, continueOnError, features, events[..i])
    {
      assert events[..i + 1][..i] == events[..i];
      commander.Handle(events[i]);
    }
    assert events[..|events|] == events;
    T.RunAccepted(env, continueOnError, features, events);
  }
}
