/**
 What every event keeps: each monitor accepts the trace so far, and its view is
 exactly the picture the scheduler's fields give.
 */
module CommanderInvariant {
  import opened Text
  import opened CliCommands
  import opened CommanderSpec
  import opened CommanderMonitors

  function Tokens(cleanup: seq<CleanupCommand>): (tokens: seq<nat>)
    ensures |tokens| == |cleanup|
    ensures forall i :: 0 <= i < |cleanup| ==> tokens[i] == cleanup[i].token
  {
    seq(|cleanup|, i requires 0 <= i < |cleanup| => cleanup[i].token)
  }

  function FlightToken(flight: Flight): seq<nat> {
    if flight.inflight.Some? && flight.inflight.value.token.Some? then [flight.inflight.value.token.value] else []
  }

  predicate BlockInFlight(flight: Flight) {
    flight.inflight.Some? && flight.inflight.value.blockIndex.Some?
  }

  predicate SessionOk(flight: Flight, session: Session, status: Status, v: SessionView) {
    && v.ok
    && v.flight == (if flight.inflight.Some? then Some(flight.inflight.value.number) else None)
    && v.epoch == session.epoch && v.recovering == session.recovering && v.error == status.pendingError
    && (flight.inflight.Some? ==> v.started == flight.inflight.value.epoch)
    && (flight.inflight.Some? && !status.pendingError && !status.raised ==>
          !session.recovering && flight.inflight.value.epoch == session.epoch)
    && (status.pendingError ==> status.continueOnError)
  }

  predicate QueueOk(queue: Queue, v: QueueView) {
    && v.ok && v.waiting == Ids(queue.features) && v.active == ActiveId(queue) && v.ready == queue.ready
    && (queue.ready ==> queue.features == [] && queue.active.None?)
    && (queue.active.Some? ==> v.activated != [] && v.activated[|v.activated| - 1] == queue.active.value.id)
  }

  ghost predicate Ordered(tokens: seq<nat>, next: nat) {
    && (forall i :: 0 <= i < |tokens| ==> tokens[i] < next)
    && (forall i, j :: 0 <= i < j < |tokens| ==> tokens[i] < tokens[j])
  }

  /** The cleanup commands queued or in flight are the ones their tokens name. */
  ghost predicate Filed(flight: Flight, tidy: Tidy, queued: seq<CommandSpec>) {
    && (forall i :: 0 <= i < |tidy.cleanup| ==>
          tidy.cleanup[i].token < |queued| && queued[tidy.cleanup[i].token] == tidy.cleanup[i].spec)
    && (flight.inflight.Some? && flight.inflight.value.token.Some? ==>
          var a := flight.inflight.value;
          a.token.value < |queued| && queued[a.token.value] == a.spec)
  }

  /** Only the oldest command was ever retried, and each time it was taken is a retry or the present one. */
  ghost predicate Retried(retries: map<nat, nat>, tokens: seq<nat>, next: nat, sends: nat, taken: nat) {
    && (forall t :: t in retries ==> t < next)
    && (forall i :: 1 <= i < |tokens| ==> tokens[i] !in retries)
    && (tokens == [] ==> sends == 0)
    && (tokens != [] ==>
          Lookup(retries, tokens[0]) <= MAX_COMMAND_RECOVERY_RETRIES && sends == Lookup(retries, tokens[0]) + taken)
  }

  ghost predicate TidyOk(flight: Flight, tidy: Tidy, v: TidyView) {
    && v.ok && v.next == tidy.nextToken == |v.queued|
    && Filed(flight, tidy, v.queued)
    && v.tidying == FlightToken(flight) + Tokens(tidy.cleanup)
    && Ordered(v.tidying, v.next)
    && Retried(tidy.cleanupRetries, v.tidying, v.next, v.sends, |FlightToken(flight)|)
  }

  predicate ReplayOk(work: Work, session: Session, v: ReplayView) {
    && v.ok && v.submittedAt == work.blockContext
    && (work.replayTarget.Some? ==> v.due == work.replayTarget && v.aborted == work.contextResetAttempted)
    && (work.replayTarget.None? && v.due.Some? ==> v.due == session.promptContext)
  }

  ghost predicate BlockOk(work: Work, flight: Flight, sent: bool, v: BlockView) {
    && v.ok && v.commands == work.activeCommands && v.credited <= v.next <= |v.commands|
    && work.pending == (if v.abandoned then [] else v.commands[v.next..])
    && (v.commands != [] ==> forall i: nat :: Count(v.restarts, i) == Lookup(work.recoveryRetries, Some(i)))
    && (BlockInFlight(flight) ==> v.unsent == !sent)
    && (v.unsent ==> v.credited < v.next)
    && (BlockInFlight(flight) ==>
          var i := flight.inflight.value.blockIndex.value;
          !v.abandoned && i + 1 == v.next && v.credited == i && flight.inflight.value.spec == v.commands[i])
  }

  predicate ConsoleOk(queue: Queue, tidy: Tidy, v: ConsoleView) {
    && v.ok && v.taken == tidy.standardOutput.Some?
    && (v.taken ==> v.changed == tidy.standardOutput.value.restore
                    && ActiveId(queue) == Some(tidy.standardOutput.value.feature))
  }

  predicate CaptureOk(flight: Flight, status: Status, v: CaptureView) {
    && v.ok && v.start <= |v.consumed|
    && (flight.inflight.Some? && flight.inflight.value.spec.Captures() && !status.pendingError ==>
          flight.inflight.value.output == v.consumed[v.start..])
  }

  /** How the scheduler's own fields hang together. */
  predicate Shape(queue: Queue, work: Work, flight: Flight, tidy: Tidy) {
    && (queue.active.None? ==>
          && work.activeCommands == [] && work.pending == [] && work.replayTarget.None?
          && (flight.inflight.Some? ==> flight.inCleanup))
    && (flight.inContextReset ==>
          && flight.inflight.Some? && IsAbort(flight.inflight.value) && !flight.inCleanup
          && work.replayTarget.Some? && work.contextResetAttempted)
    && (flight.inflight.Some? && flight.inCleanup ==>
          flight.inflight.value.token.Some? && flight.inflight.value.blockIndex.None?)
    && (flight.inflight.Some? && !flight.inCleanup && !flight.inContextReset ==>
          flight.inflight.value.token.None? && BlockInFlight(flight))
    && (work.replayTarget.Some? ==>
          && work.pending != [] && work.pending == work.activeCommands && work.blockContext == work.replayTarget
          && (flight.inflight.Some? ==> flight.inContextReset))
    && (queue.ready ==> flight.inflight.None? && tidy.cleanup == [] && !flight.inCleanup)
  }

  ghost predicate CoreOf(s: State, v: Views) {
    && SessionOk(s.flight, s.session, s.status, v.session)
    && QueueOk(s.queue, v.queue)
    && TidyOk(s.flight, s.tidy, v.tidy)
    && ReplayOk(s.work, s.session, v.replay)
    && BlockOk(s.work, s.flight, v.session.sent, v.block)
    && ConsoleOk(s.queue, s.tidy, v.console)
    && CaptureOk(s.flight, s.status, v.capture)
    && Shape(s.queue, s.work, s.flight, s.tidy)
  }

  /** Holds at every moment, also half-way through an event. */
  ghost predicate Core(s: State) {
    CoreOf(s, Watch(s.trace))
  }

  /** Nothing of the active block is in doubt, unless an error is on its way to be handled. */
  ghost predicate Settled(s: State) {
    || s.status.pendingError || s.status.raised
    || ((BlockInFlight(s.flight) || Even(s)) && (s.flight.inCleanup ==> s.flight.inflight.Some?))
  }

  /** No replay is under way other than the one `replayTarget` names. */
  ghost predicate Quiet(s: State) {
    s.work.replayTarget.None? ==> Watch(s.trace).replay.due.None?
  }

  /** Every command taken in the current pass over the block has been credited. */
  ghost predicate Even(s: State) {
    var v := Watch(s.trace).block;
    v.abandoned || v.credited == v.next
  }

  /** The command in flight has been written, unless an error stopped it. */
  ghost predicate Transmitted(s: State) {
    s.flight.inflight.Some? ==> Watch(s.trace).session.sent || s.status.pendingError || s.status.raised
  }

  /** Holds between events. */
  ghost predicate Inv(s: State) {
    Core(s) && Settled(s) && Quiet(s) && Transmitted(s)
  }

  /** A step that keeps `Core` and whichever of the other parts held before. */
  ghost predicate Keeps(s: State, r: State) {
    && Core(r)
    && (Settled(s) ==> Settled(r))
    && (Quiet(s) ==> Quiet(r))
    && (Transmitted(s) ==> Transmitted(r))
    && (Even(s) ==> Even(r))
  }

  // ----- errors

  lemma WorkErrorKept(s: State)
    requires Core(s)
    ensures Keeps(s, HandleWorkError(s)) && Settled(HandleWorkError(s)) && Transmitted(HandleWorkError(s))
  {
    hide Core, Watch, Settled, Quiet, Even, Transmitted, Signed, Activations, NoteError;
    ActiveSigns(s, s.trace);
    NobodySigns(Watch(s.trace).queue, Activations(s.trace));
    NoteErrorKept(s, if s.flight.inCleanup then None else ActiveId(s.queue), Activations(s.trace));
  }

  /** The error is signed by the feature of that activation. */
  ghost predicate Signed(v: QueueView, who: Option<nat>, activation: nat) {
    who.Some? ==> 1 <= activation <= |v.activated| && v.activated[activation - 1] == who.value
  }

  lemma {:induction false} ActivatedGrows(t: seq<Entry>, k: nat)
    requires k <= |t|
    ensures Watch(t[..k]).queue.activated <= Watch(t).queue.activated
    decreases |t|
  {
    hide SessionStep, TidyStep, ReplayStep, BlockStep, ConsoleStep, CaptureStep;
    if k == |t| {
      assert t[..k] == t;
    } else {
      ActivatedGrows(t[..|t| - 1], k);
      assert t[..|t| - 1][..k] == t[..k];
      ActivatedMore(Watch(t[..|t| - 1]).queue, Watch(t[..|t| - 1]).tidy.tidying, t[|t| - 1]);
    }
  }

  lemma ActivatedMore(v: QueueView, tidying: seq<nat>, e: Entry)
    ensures v.activated <= QueueStep(v, tidying, e).activated
  {
  }

  lemma {:induction false} ActivationsCount(t: seq<Entry>)
    requires Watch(t).queue.ok
    ensures Activations(t) == |Watch(t).queue.activated|
    decreases |t|
  {
    hide SessionStep, TidyStep, ReplayStep, BlockStep, ConsoleStep, CaptureStep;
    if t != [] {
      ActivationsCount(t[..|t| - 1]);
    }
  }

  /** Whoever is active may sign, now and at any later moment. */
  lemma ActiveSigns(s: State, t: seq<Entry>)
    requires Core(s) && s.trace <= t
    ensures Signed(Watch(t).queue, ActiveId(s.queue), Activations(s.trace))
  {
    hide TidyOk, SessionOk, ReplayOk, BlockOk, ConsoleOk, CaptureOk, Shape, Watch, Activations;
    ActivationsCount(s.trace);
    assert t[..|s.trace|] == s.trace;
    ActivatedGrows(t, |s.trace|);
  }

  lemma NobodySigns(v: QueueView, activation: nat)
    ensures Signed(v, None, activation)
  {
  }

  lemma NoteErrorKept(s: State, who: Option<nat>, activation: nat)
    requires Core(s) && Signed(Watch(s.trace).queue, who, activation)
    ensures var r := NoteError(s, who, activation); Keeps(s, r) && Settled(r) && Transmitted(r)
  {
    hide Core, Watch, Settled, Quiet, Even, Transmitted, Signed;
    if s.status.continueOnError {
      ErrorNotedKept(s, who, activation);
    } else {
      RaiseKept(s);
    }
  }

  lemma ErrorNotedKept(s: State, who: Option<nat>, activation: nat)
    requires Core(s) && s.status.continueOnError && Signed(Watch(s.trace).queue, who, activation)
    ensures var status := s.status.(pendingError := true, callbackFailed := true);
            var r := Note(s.(status := status), ErrorNoted(who, activation));
            Keeps(s, r) && Settled(r) && Transmitted(r)
  {
    hide TidyOk, ReplayOk, BlockOk, ConsoleOk, Shape, Watch;
    WatchNote(s.(status := s.status.(pendingError := true, callbackFailed := true)), ErrorNoted(who, activation));
  }

  // ----- cleanup and the console output mode

  lemma TokensAppend(a: seq<CleanupCommand>, specs: seq<CommandSpec>, next: nat)
    ensures Tokens(a + Tokened(specs, next)) == Tokens(a) + Range(next, |specs|)
  {
  }

  lemma OrderedAppend(tokens: seq<nat>, next: nat, count: nat)
    requires Ordered(tokens, next)
    ensures Ordered(tokens + Range(next, count), next + count)
  {
  }

  lemma QueuedTidy(flight: Flight, tidy: Tidy, v: TidyView, specs: seq<CommandSpec>)
    requires TidyOk(flight, tidy, v)
    ensures TidyOk(flight, Queued(tidy, specs), Append(v, specs))
  {
    hide Ordered, Watch, Filed, Retried, Tokened;
    RetriedMore(tidy.cleanupRetries, v.tidying, v.next, |specs|, v.sends, |FlightToken(flight)|);
    FiledMore(flight, tidy, v.queued, specs);
    TokensAppend(tidy.cleanup, specs, tidy.nextToken);
    OrderedAppend(v.tidying, v.next, |specs|);
    assert v.tidying + Range(v.next, |specs|) == FlightToken(flight) + Tokens(Queued(tidy, specs).cleanup);
  }

  lemma RetriedMore(retries: map<nat, nat>, tokens: seq<nat>, next: nat, count: nat, sends: nat, taken: nat)
    requires Retried(retries, tokens, next, sends, taken) && taken <= |tokens|
    ensures Retried(retries, tokens + Range(next, count), next + count, sends, taken)
  {
  }

  lemma RetriedRest(retries: map<nat, nat>, tokens: seq<nat>, next: nat, sends: nat, taken: nat)
    requires Retried(retries, tokens, next, sends, taken) && tokens != []
    ensures Retried(retries, tokens[1..], next, 0, 0)
  {
  }

  lemma FiledMore(flight: Flight, tidy: Tidy, queued: seq<CommandSpec>, specs: seq<CommandSpec>)
    requires Filed(flight, tidy, queued) && tidy.nextToken == |queued|
    ensures Filed(flight, Queued(tidy, specs), queued + specs)
  {
  }

  lemma QueueCleanupKept(s: State, specs: seq<CommandSpec>)
    requires Core(s) && !s.queue.ready
    ensures Keeps(s, QueueCleanup(s, specs))
  {
    hide TidyOk, QueueOk, ReplayOk, SessionOk, BlockOk, CaptureOk, Watch;
    WatchNote(s.(tidy := Queued(s.tidy, specs)), CleanupQueued(specs));
    QueuedTidy(s.flight, s.tidy, Watch(s.trace).tidy, specs);
  }

  lemma FinishStandardOutputKept(s: State, id: nat)
    requires Core(s) && !s.queue.ready && ActiveId(s.queue) == Some(id)
    ensures Keeps(s, FinishStandardOutput(s, id)) && FinishStandardOutput(s, id).tidy.standardOutput.None?
  {
    hide Core, Watch, Settled, Quiet, Even, Transmitted, Queued, TidyOk, ConsoleOk, TidyStep, ConsoleStep;
    if s.tidy.standardOutput.Some? {
      var owed := if s.tidy.standardOutput.value.restore then CONSOLE_RESTORE else [];
      var tidy := Queued(s.tidy, owed).(standardOutput := None);
      CoreParts(s);
      ReleasedTidy(s.flight, s.tidy, Watch(s.trace).tidy, owed);
      ReleasedConsole(s.queue, s.tidy, Watch(s.trace).console, owed);
      ReleasedKept(s, tidy, owed);
    } else {
      assert FinishStandardOutput(s, id) == s;
    }
  }

  lemma CoreParts(s: State)
    requires Core(s)
    ensures TidyOk(s.flight, s.tidy, Watch(s.trace).tidy) && ConsoleOk(s.queue, s.tidy, Watch(s.trace).console)
    ensures s.tidy.standardOutput.Some? ==> ActiveId(s.queue) == Some(s.tidy.standardOutput.value.feature)
  {
    hide TidyOk, QueueOk, ReplayOk, SessionOk, BlockOk, CaptureOk, Shape, Watch;
  }

  lemma ReleasedTidy(flight: Flight, tidy: Tidy, v: TidyView, owed: seq<CommandSpec>)
    requires TidyOk(flight, tidy, v)
    ensures TidyOk(flight, Queued(tidy, owed).(standardOutput := None), TidyStep(v, ConsoleReleased(owed)))
  {
    hide TidyOk, Queued;
    QueuedTidy(flight, tidy, v, owed);
    TidyIgnores(flight, Queued(tidy, owed), Append(v, owed), Queued(tidy, owed).cleanupActions, None);
  }

  lemma ReleasedConsole(queue: Queue, tidy: Tidy, v: ConsoleView, owed: seq<CommandSpec>)
    requires ConsoleOk(queue, tidy, v) && tidy.standardOutput.Some?
    requires owed == if tidy.standardOutput.value.restore then CONSOLE_RESTORE else []
    ensures ConsoleOk(queue, Queued(tidy, owed).(standardOutput := None), ConsoleStep(v, ConsoleReleased(owed)))
  {
    hide Tokened;
  }

  lemma ReleasedKept(s: State, tidy: Tidy, owed: seq<CommandSpec>)
    requires Core(s) && !s.queue.ready
    requires TidyOk(s.flight, tidy, TidyStep(Watch(s.trace).tidy, ConsoleReleased(owed)))
    requires ConsoleOk(s.queue, tidy, ConsoleStep(Watch(s.trace).console, ConsoleReleased(owed)))
    ensures Keeps(s, Note(s.(tidy := tidy), ConsoleReleased(owed)))
  {
    hide TidyOk, QueueOk, ReplayOk, SessionOk, BlockOk, CaptureOk, ConsoleOk, TidyStep, ConsoleStep, Watch;
    WatchNote(s.(tidy := tidy), ConsoleReleased(owed));
  }

  lemma TidyIgnores(flight: Flight, tidy: Tidy, v: TidyView, actions: map<nat, seq<CleanupAction>>,
      console: Option<StandardOutput>)
    requires TidyOk(flight, tidy, v)
    ensures TidyOk(flight, tidy.(cleanupActions := actions, standardOutput := console), v)
  {
  }

  lemma ActionsKept(s: State, actions: map<nat, seq<CleanupAction>>)
    requires Core(s)
    ensures Keeps(s, s.(tidy := s.tidy.(cleanupActions := actions)))
  {
    hide TidyOk, QueueOk, ReplayOk, SessionOk, BlockOk, CaptureOk, Watch;
    TidyIgnores(s.flight, s.tidy, Watch(s.trace).tidy, actions, s.tidy.standardOutput);
  }

  lemma ScheduleFeatureCleanupKept(s: State, id: nat, completion: bool)
    requires Core(s) && !s.queue.ready
    ensures Keeps(s, ScheduleFeatureCleanup(s, id, completion))
  {
    hide CoreOf, Settled, Quiet, Transmitted, Even, QueueCleanup, Watch;
    if id in s.tidy.cleanupActions {
      var s1 := s.(tidy := s.tidy.(cleanupActions := s.tidy.cleanupActions - {id}));
      ActionsKept(s, s.tidy.cleanupActions - {id});
      QueueCleanupKept(s1, DueCommands(s.tidy.cleanupActions[id], completion));
    }
  }

  lemma RegisterCleanupKept(s: State, id: nat, actions: seq<CleanupAction>)
    requires Core(s)
    ensures Keeps(s, RegisterCleanup(s, id, actions))
  {
    hide CoreOf, Settled, Quiet, Transmitted, Even, Watch;
    if actions != [] {
      ActionsKept(s, RegisterCleanup(s, id, actions).tidy.cleanupActions);
    }
  }

  // ----- blocks

  lemma SubmitBlockKept(s: State, id: nat, block: Command)
    requires Inv(s)
    ensures Inv(SubmitBlock(s, id, block)) && Untouched(s, SubmitBlock(s, id, block))
  {
    hide TidyOk, QueueOk, ConsoleOk, CaptureOk, Flatten, Watch, BlockOk;
    var commands := Flatten(block);
    if IsActive(s, id) && !Busy(s) && Sendable(commands) {
      var work := Work(commands, commands, s.session.promptContext, map[], None, false);
      var v := Watch(s.trace);
      WatchNote(s.(work := work), Submitted(commands, s.session.promptContext));
      BlockSubmitted(s.work, s.flight, v.session.sent, v.block, work);
    } else {
      RaiseKept(s);
    }
  }

  lemma BlockSubmitted(work: Work, flight: Flight, sent: bool, v: BlockView, work': Work)
    requires BlockOk(work, flight, sent, v) && flight.inflight.None? && work'.pending == work'.activeCommands
    requires work'.recoveryRetries == map[]
    ensures BlockOk(work', flight, sent, BlockStep(v, Submitted(work'.activeCommands, work'.blockContext)))
  {
  }

  lemma RaiseKept(s: State)
    requires Core(s)
    ensures Keeps(s, Raise(s)) && Settled(Raise(s)) && Transmitted(Raise(s))
  {
    hide TidyOk, QueueOk, ReplayOk, BlockOk, ConsoleOk, Shape, Watch;
  }

  lemma WithStandardOutputKept(s: State, id: nat)
    requires Inv(s)
    ensures Inv(WithStandardOutputOp(s, id)) && Untouched(s, WithStandardOutputOp(s, id))
  {
    hide QueueOk, ReplayOk, SessionOk, BlockOk, CaptureOk, SubmitBlock, Watch;
    if IsActive(s, id) && !Busy(s) && s.tidy.standardOutput.None? {
      var s1 := s.(tidy := s.tidy.(standardOutput := Some(StandardOutput(id, Inspect, false))));
      WatchNote(s1, ConsoleTaken);
      SubmitBlockKept(Note(s1, ConsoleTaken), id, CONSOLE_INSPECT);
    } else {
      RaiseKept(s);
    }
  }

  // ----- callbacks, completion and activation

  /** What no callback touches. */
  ghost predicate Untouched(s: State, r: State) {
    && r.env == s.env && r.flight == s.flight && r.session == s.session
    && r.status.continueOnError == s.status.continueOnError
    && (s.status.pendingError ==> r.status.pendingError)
    && (s.work.replayTarget.None? ==> r.work.replayTarget.None?)
    && (Even(s) ==> Even(r))
  }

  lemma CaughtKept(s: State, who: Option<nat>, activation: nat)
    requires Core(s) && Signed(Watch(s.trace).queue, who, activation)
    ensures var r := NoteError(s.(status := s.status.(raised := false)), who, activation);
            Core(r) && Settled(r) && Transmitted(r) && (Quiet(s) ==> Quiet(r)) && (Even(s) ==> Even(r))
  {
    hide TidyOk, ReplayOk, BlockOk, ConsoleOk, Shape, Watch;
    WatchNote(s.(status := s.status.(raised := false, pendingError := true, callbackFailed := true)),
              ErrorNoted(who, activation));
  }

  lemma HistoryKept(s: State, history: seq<Callback>)
    requires Core(s)
    ensures var r := s.(queue := s.queue.(history := history));
            Keeps(s, r)
  {
    hide TidyOk, ReplayOk, BlockOk, SessionOk, CaptureOk, Watch;
  }

  /** `inCleanup` is not left over from a cleanup command that failed. */
  predicate Tidied(flight: Flight) {
    flight.inCleanup ==> flight.inflight.Some?
  }

  lemma SettledTidied(s: State)
    requires Settled(s) && !s.status.raised && !s.status.pendingError
    ensures Tidied(s.flight)
  {
    hide Watch, Even;
  }

  lemma {:induction false} CallFeatureKept(s: State, callback: Callback)
    requires Inv(s) && !s.status.raised && s.queue.active.Some? && Tidied(s.flight)
    ensures var r := CallFeature(s, callback);
            Inv(r) && Untouched(s, r) && (r.status.raised ==> !s.status.continueOnError)
    decreases |s.queue.features|, 3, 0
  {
    hide Core, Settled, Quiet, Transmitted, Even, ApplyOp, Watch;
    var f := s.queue.active.value;
    var history := s.queue.history + [callback];
    HistoryKept(s, history);
    var s0 := s.(queue := s.queue.(history := history));
    RunOpsKept(s0, f.id, f.act(history).ops);
    var s1 := RunOps(s0, f.id, f.act(history).ops);
    ActiveSigns(s, s1.trace);
    CaughtKept(s1, Some(f.id), Activations(s.trace));
  }

  lemma {:induction false} RunOpsKept(s: State, id: nat, ops: seq<Op>)
    requires Inv(s) && Tidied(s.flight)
    ensures Inv(RunOps(s, id, ops)) && Untouched(s, RunOps(s, id, ops))
    decreases |s.queue.features|, 2, |ops|
  {
    hide Inv, ApplyOp, Watch;
    if !s.status.raised && ops != [] {
      ApplyOpKept(s, id, ops[0]);
      RunOpsKept(ApplyOp(s, id, ops[0]), id, ops[1..]);
    }
  }

  lemma {:induction false} ApplyOpKept(s: State, id: nat, op: Op)
    requires Inv(s) && !s.status.raised && Tidied(s.flight)
    ensures Inv(ApplyOp(s, id, op)) && Untouched(s, ApplyOp(s, id, op))
    decreases |s.queue.features|, 1, 1
  {
    hide Core, Settled, Quiet, Transmitted, Even, FeatureComplete, Flatten, Watch;
    match op
    case Submit(block) => SubmitBlockKept(s, id, block);
    case Complete => FeatureCompleteKept(s, id);
    case WithStandardOutput => WithStandardOutputKept(s, id);
    case Register(action) => RegisterCleanupKept(s, id, [action]);
  }

  lemma BlockCompleted(work: Work, flight: Flight, sent: bool, v: BlockView, id: nat)
    requires BlockOk(work, flight, sent, v) && work.pending == [] && flight.inflight.None?
    ensures BlockOk(work.(activeCommands := []), flight, sent, BlockStep(v, Completed(id)))
  {
    hide Lookup, Count;
  }

  lemma CompletedKept(s: State)
    requires Inv(s) && s.queue.active.Some? && s.flight.inflight.None? && s.work.pending == []
        && s.tidy.standardOutput.None?
    ensures var r := Note(s.(queue := s.queue.(active := None), work := s.work.(activeCommands := [])),
                          Completed(s.queue.active.value.id));
            Inv(r) && Even(r)
  {
    hide TidyOk, SessionOk, CaptureOk, BlockOk, Watch;
    WatchNote(s.(queue := s.queue.(active := None), work := s.work.(activeCommands := [])),
              Completed(s.queue.active.value.id));
    BlockCompleted(s.work, s.flight, Watch(s.trace).session.sent, Watch(s.trace).block, s.queue.active.value.id);
  }

  lemma RetireKept(s: State)
    requires Inv(s) && s.queue.active.Some? && !Busy(s)
    ensures Inv(Retire(s)) && Untouched(s, Retire(s)) && Retire(s).status == s.status
    ensures Retire(s).queue.active.None?
  {
    hide Core, Settled, Quiet, Transmitted, Even, ScheduleFeatureCleanup, FinishStandardOutput, Watch;
    var id := s.queue.active.value.id;
    NotReady(s);
    FinishStandardOutputKept(s, id);
    RetireFrame(s, id, true);
    ScheduleFeatureCleanupKept(FinishStandardOutput(s, id), id, true);
    CompletedKept(ScheduleFeatureCleanup(FinishStandardOutput(s, id), id, true));
  }

  lemma NotReady(s: State)
    requires Core(s) && s.queue.active.Some?
    ensures !s.queue.ready
  {
    hide TidyOk, SessionOk, CaptureOk, BlockOk, ReplayOk, Watch;
  }

  /** What giving back the console and scheduling cleanup leave alone. */
  lemma RetireFrame(s: State, id: nat, completion: bool)
    ensures var r := ScheduleFeatureCleanup(FinishStandardOutput(s, id), id, completion);
            && r.queue == s.queue && r.work == s.work && r.flight == s.flight && r.session == s.session
            && r.status == s.status && r.env == s.env
            && r.tidy.standardOutput == FinishStandardOutput(s, id).tidy.standardOutput
            && FinishStandardOutput(s, id).queue == s.queue
            && FinishStandardOutput(s, id).tidy.cleanupRetries == s.tidy.cleanupRetries == r.tidy.cleanupRetries
  {
    hide DueCommands, Watch;
  }

  lemma {:induction false} FeatureCompleteKept(s: State, id: nat)
    requires Inv(s) && !s.status.raised && Tidied(s.flight)
    ensures Inv(FeatureComplete(s, id)) && Untouched(s, FeatureComplete(s, id))
    decreases |s.queue.features|, 1, 0
  {
    hide Core, Settled, Quiet, Transmitted, Even, Retire, Watch;
    if IsActive(s, id) {
      if Busy(s) {
        RaiseKept(s);
      } else {
        RetireKept(s);
        if Retire(s).tidy.cleanup == [] {
          ActivateNextFeatureKept(Retire(s));
        }
      }
    }
  }

  lemma TidyEmpty(flight: Flight, tidy: Tidy, v: TidyView)
    requires TidyOk(flight, tidy, v) && flight.inflight.None? && tidy.cleanup == []
    ensures v.tidying == []
  {
    hide Lookup, Ordered;
  }

  lemma SessionReady(flight: Flight, session: Session, status: Status, v: SessionView)
    requires SessionOk(flight, session, status, v) && flight.inflight.None?
    ensures SessionStep(v, Ready) == v
  {
  }

  lemma ReadyKept(s: State)
    requires Inv(s) && s.flight.inflight.None? && s.tidy.cleanup == [] && s.queue.active.None? && s.queue.features == []
    requires Tidied(s.flight)
    ensures var r := Note(s.(queue := s.queue.(ready := true, startupComplete := true)), Ready);
            Inv(r) && Untouched(s, r)
  {
    hide TidyOk, BlockOk, Watch, SessionOk, CaptureOk, SessionStep;
    TidyEmpty(s.flight, s.tidy, Watch(s.trace).tidy);
    SessionReady(s.flight, s.session, s.status, Watch(s.trace).session);
    WatchNote(s.(queue := s.queue.(ready := true, startupComplete := true)), Ready);
  }

  lemma ActivatedKept(s: State)
    requires Inv(s) && s.flight.inflight.None? && s.tidy.cleanup == []
    requires s.queue.active.None? && s.queue.features != [] && !s.queue.ready
    ensures var f := s.queue.features[0];
            var r := Note(s.(queue := s.queue.(active := Some(f), features := s.queue.features[1..], history := [])),
                          Activated(f.id));
            Inv(r) && Untouched(s, r)
  {
    hide TidyOk, BlockOk, Watch, SessionOk, CaptureOk;
    var f := s.queue.features[0];
    TidyEmpty(s.flight, s.tidy, Watch(s.trace).tidy);
    WatchNote(s.(queue := s.queue.(active := Some(f), features := s.queue.features[1..], history := [])),
        Activated(f.id));
    assert Ids(s.queue.features)[1..] == Ids(s.queue.features[1..]);
  }

  lemma {:induction false} ActivateNextFeatureKept(s: State)
    requires Inv(s) && !s.status.raised && s.flight.inflight.None? && Tidied(s.flight)
    requires s.tidy.cleanup == []
    ensures var r := ActivateNextFeature(s);
            Inv(r) && Untouched(s, r) && (r.status.raised ==> !s.status.continueOnError)
    decreases |s.queue.features|, 0, 0
  {
    hide CallFeature, Core, Settled, Quiet, Transmitted, Even, Watch;
    if !s.queue.ready && s.queue.active.None? && !s.session.recovering {
      if s.queue.features == [] {
        ReadyKept(s);
      } else {
        var f := s.queue.features[0];
        var s1 := s.(queue := s.queue.(active := Some(f), features := s.queue.features[1..], history := []));
        ActivatedKept(s);
        if !s.status.pendingError {
          CallFeatureKept(Note(s1, Activated(f.id)), Activate);
        }
      }
    }
  }

  lemma ObserveKept(s: State, callback: Callback)
    requires Core(s) && !s.status.raised && s.queue.active.Some?
    ensures var r := Observe(s, callback);
            && Keeps(s, r) && Untouched(s, r)
            && r.work == s.work && r.queue.active == s.queue.active && r.queue.ready == s.queue.ready
            && (r.status.raised || r.status.pendingError || r.trace == s.trace)
            && (s.status.pendingError ==> r.status.pendingError || r.status.raised)
  {
    hide Core, Settled, Quiet, Transmitted, Even, Watch;
    var s0 := s.(queue := s.queue.(history := s.queue.history + [callback]));
    HistoryKept(s, s.queue.history + [callback]);
    RegisterCleanupKept(s0, s.queue.active.value.id, VerdictOf(s, callback).registers);
    ActiveSigns(s, s.trace);
    NoteErrorKept(RegisterCleanup(s0, s.queue.active.value.id, VerdictOf(s, callback).registers),
                  ActiveId(s.queue), Activations(s.trace));
  }

  // ----- dispatch

  lemma BlockTook(work: Work, flight: Flight, sent: bool, v: BlockView, a: Attempt, number: nat)
    requires BlockOk(work, flight, sent, v) && flight.inflight.None? && work.pending != [] && v.credited == v.next
    requires a.spec == work.pending[0] && a.blockIndex == Some(|work.activeCommands| - |work.pending|)
    ensures BlockOk(work.(pending := work.pending[1..]),
                    Flight(Some(a), number, false, flight.inContextReset), false, BlockStep(v, Took(a)))
  {
    hide Lookup, Count;
    assert v.commands[v.next..][1..] == v.commands[v.next + 1..];
  }

  lemma BlockElsewhere(work: Work, flight: Flight, sent: bool, v: BlockView, flight': Flight, sent': bool, work': Work)
    requires BlockOk(work, flight, sent, v) && !BlockInFlight(flight) && !BlockInFlight(flight')
    requires work'.activeCommands == work.activeCommands && work'.pending == work.pending
    requires work'.recoveryRetries == work.recoveryRetries
    ensures BlockOk(work', flight', sent', v)
  {
    hide Lookup, Count;
  }

  lemma TidyTook(flight: Flight, tidy: Tidy, v: TidyView, a: Attempt, flight': Flight)
    requires TidyOk(flight, tidy, v) && FlightToken(flight) == [] && tidy.cleanup != []
    requires a.token == Some(tidy.cleanup[0].token) && a.spec == tidy.cleanup[0].spec && flight'.inflight == Some(a)
    ensures TidyOk(flight', tidy.(cleanup := tidy.cleanup[1..]), TidyStep(v, Took(a)))
  {
    hide Lookup, Ordered;
    assert Tokens(tidy.cleanup) == [tidy.cleanup[0].token] + Tokens(tidy.cleanup[1..]);
  }

  /** The cleanup command in flight, if there is one. */
  function FlightSpec(flight: Flight): Option<CommandSpec> {
    if flight.inflight.Some? && flight.inflight.value.token.Some? then Some(flight.inflight.value.spec) else None
  }

  lemma TidyElsewhere(flight: Flight, tidy: Tidy, v: TidyView, flight': Flight)
    requires TidyOk(flight, tidy, v) && FlightToken(flight) == FlightToken(flight')
    requires FlightSpec(flight) == FlightSpec(flight')
    ensures TidyOk(flight', tidy, v)
  {
    hide Lookup, Ordered;
  }

  /** A command is about to be taken: the account of the active block is settled. */
  ghost predicate Idle(s: State) {
    && s.flight.inflight.None? && !s.session.recovering && !s.status.raised && !s.queue.ready
    && !s.flight.inContextReset
  }

  /** What holds of a command that was just taken. */
  ghost predicate Taken(s: State) {
    && Core(s) && Settled(s) && Quiet(s) && !s.status.raised && !s.session.recovering
    && s.flight.inflight.Some? && s.flight.inflight.value.epoch == s.session.epoch && !Watch(s.trace).session.sent
  }

  lemma TakeBlockKept(s: State)
    requires Core(s) && Idle(s) && s.work.pending != [] && s.work.replayTarget.None? && s.queue.active.Some?
    requires Watch(s.trace).block.credited == Watch(s.trace).block.next
    ensures var s1 := s.(work := s.work.(pending := s.work.pending[1..]), flight := s.flight.(inCleanup := false));
            |s.work.activeCommands| >= |s.work.pending|
            && Taken(TakeCommand(s1, s.work.pending[0], Some(|s.work.activeCommands| - |s.work.pending|), None))
  {
    hide TidyOk, BlockOk, Watch, QueueOk, ConsoleOk, Lookup;
    PendingIsSuffix(s);
    var s1 := s.(work := s.work.(pending := s.work.pending[1..]), flight := s.flight.(inCleanup := false));
    var r := TakeCommand(s1, s.work.pending[0], Some(|s.work.activeCommands| - |s.work.pending|), None);
    var a := r.flight.inflight.value;
    WatchNote(s1.(flight := r.flight), Took(a));
    BlockTook(s.work, s.flight, Watch(s.trace).session.sent, Watch(s.trace).block, a, r.flight.attemptNumber);
    TidyElsewhere(s.flight, s.tidy, Watch(s.trace).tidy, r.flight);
    QueueTook(s.queue, Watch(s.trace).queue, Watch(s.trace).tidy.tidying, a);
  }

  lemma QueueTook(queue: Queue, v: QueueView, tidying: seq<nat>, a: Attempt)
    requires QueueOk(queue, v) && !queue.ready
    ensures QueueOk(queue, QueueStep(v, tidying, Took(a)))
  {
  }

  lemma PendingIsSuffix(s: State)
    requires Core(s)
    ensures |s.work.pending| <= |s.work.activeCommands|
  {
    hide TidyOk, SessionOk, CaptureOk, QueueOk, ConsoleOk, ReplayOk, Watch, Lookup, Count;
  }

  lemma TakeCleanupKept(s: State)
    requires Core(s) && Settled(s) && Idle(s) && s.tidy.cleanup != [] && s.work.replayTarget.None?
    ensures var s1 := s.(tidy := s.tidy.(cleanup := s.tidy.cleanup[1..]), flight := s.flight.(inCleanup := true));
            Taken(TakeCommand(s1, s.tidy.cleanup[0].spec, None, Some(s.tidy.cleanup[0].token)))
  {
    hide TidyOk, BlockOk, Watch, QueueOk, Lookup;
    var s1 := s.(tidy := s.tidy.(cleanup := s.tidy.cleanup[1..]), flight := s.flight.(inCleanup := true));
    var r := TakeCommand(s1, s.tidy.cleanup[0].spec, None, Some(s.tidy.cleanup[0].token));
    var a := r.flight.inflight.value;
    WatchNote(s1.(flight := r.flight), Took(a));
    BlockElsewhere(s.work, s.flight, Watch(s.trace).session.sent, Watch(s.trace).block, r.flight, false, r.work);
    TidyTook(s.flight, s.tidy, Watch(s.trace).tidy, a, r.flight);
    QueueTook(s.queue, Watch(s.trace).queue, Watch(s.trace).tidy.tidying, a);
  }

  lemma TakeAbortKept(s: State)
    requires Inv(s) && Idle(s) && s.work.replayTarget.Some? && s.session.promptContext != s.work.replayTarget
    requires !s.work.contextResetAttempted && !s.flight.inCleanup
    ensures var s1 := s.(work := s.work.(contextResetAttempted := true), flight := s.flight.(inContextReset := true));
            Taken(TakeCommand(s1, ABORT, None, None))
  {
    hide TidyOk, BlockOk, Watch, QueueOk, Lookup, ConsoleOk;
    var s1 := s.(work := s.work.(contextResetAttempted := true), flight := s.flight.(inContextReset := true));
    var r := TakeCommand(s1, ABORT, None, None);
    var a := r.flight.inflight.value;
    WatchNote(s1.(flight := r.flight), Took(a));
    BlockElsewhere(s.work, s.flight, Watch(s.trace).session.sent, Watch(s.trace).block, r.flight, false, r.work);
    TidyElsewhere(s.flight, s.tidy, Watch(s.trace).tidy, r.flight);
    QueueTook(s.queue, Watch(s.trace).queue, Watch(s.trace).tidy.tidying, a);
  }

  lemma BlockSent(work: Work, flight: Flight, v: BlockView, a: Attempt)
    requires BlockOk(work, flight, false, v) && flight.inflight == Some(a)
    ensures BlockOk(work, flight, true, BlockStep(v, Sent(a)))
    ensures BlockStep(v, Sent(a)).abandoned == v.abandoned
            && BlockStep(v, Sent(a)).credited == v.credited && BlockStep(v, Sent(a)).next == v.next
  {
    hide Lookup, Count;
  }

  lemma SentKept(s: State)
    requires Taken(s) && !s.status.pendingError
    ensures Inv(Note(s, Sent(s.flight.inflight.value)))
  {
    hide TidyOk, BlockOk, Watch, QueueOk, ConsoleOk;
    var a := s.flight.inflight.value;
    WatchNote(s, Sent(a));
    BlockSent(s.work, s.flight, Watch(s.trace).block, a);
  }

  lemma TransmitKept(s: State)
    requires Taken(s)
    requires s.status.pendingError ==> s.queue.active.Some? && !s.flight.inContextReset
    ensures Inv(TransmitCommand(s))
  {
    hide Core, Settled, Quiet, Watch, Observe;
    if s.queue.active.Some? && !s.flight.inContextReset {
      var a := s.flight.inflight.value;
      ObserveKept(s, Dispatched(a));
      var s1 := Observe(s, Dispatched(a));
      if !s1.status.raised && !s1.status.pendingError {
        SentKept(s1);
      }
    } else {
      SentKept(s);
    }
  }

  // ----- after an error

  lemma BlockDropped(work: Work, flight: Flight, sent: bool, v: BlockView, a: Attempt, ending: Ending,
      flight': Flight, sent': bool)
    requires BlockOk(work, flight, sent, v) && flight.inflight.Some? && ending != Credited
    requires a.blockIndex == flight.inflight.value.blockIndex && flight'.inflight.None?
    ensures BlockOk(work, flight', sent', BlockStep(v, Ended(a, ending)))
    ensures BlockInFlight(flight) ==>
      && BlockStep(v, Ended(a, ending)).next == flight.inflight.value.blockIndex.value + 1
      && BlockStep(v, Ended(a, ending)).credited + 1 == BlockStep(v, Ended(a, ending)).next && !v.abandoned
      && BlockStep(v, Ended(a, ending)).unsent == !sent
    ensures !BlockInFlight(flight) ==> BlockStep(v, Ended(a, ending)) == v
  {
    hide Lookup, Count;
  }

  lemma TidyEnded(flight: Flight, tidy: Tidy, v: TidyView, a: Attempt, ending: Ending, flight': Flight)
    requires TidyOk(flight, tidy, v) && flight.inflight.Some? && ending != Interrupted
    requires a.token == flight.inflight.value.token && flight'.inflight.None?
    ensures TidyOk(flight', tidy, TidyStep(v, Ended(a, ending)))
  {
    hide Ordered, Filed, Retried;
    FiledEnded(flight, tidy, v.queued, flight');
    if a.token.Some? {
      assert FlightToken(flight) == [a.token.value];
      assert v.tidying == [a.token.value] + Tokens(tidy.cleanup);
      assert v.tidying[1..] == Tokens(tidy.cleanup);
      OrderedRest(v.tidying, v.next);
      RetriedRest(tidy.cleanupRetries, v.tidying, v.next, v.sends, 1);
    }
  }

  lemma FiledEnded(flight: Flight, tidy: Tidy, queued: seq<CommandSpec>, flight': Flight)
    requires Filed(flight, tidy, queued) && flight'.inflight.None?
    ensures Filed(flight', tidy, queued)
  {
  }

  lemma DropInflightKept(s: State)
    requires Core(s) && (s.status.pendingError || s.status.raised)
    ensures var r := DropInflight(s);
            && Core(r) && r.flight.inflight.None? && !r.flight.inContextReset
                  && r.flight.inCleanup == s.flight.inCleanup
            && r.queue == s.queue && r.status == s.status && r.work == s.work
  {
    hide TidyOk, BlockOk, Watch, QueueOk, ConsoleOk;
    if s.flight.inflight.Some? {
      var a := s.flight.inflight.value;
      var flight := s.flight.(inflight := None, inContextReset := false);
      WatchNote(s.(flight := flight), Ended(a, Dropped));
      TidyEnded(s.flight, s.tidy, Watch(s.trace).tidy, a, Dropped, flight);
      BlockDropped(s.work, s.flight, Watch(s.trace).session.sent, Watch(s.trace).block, a, Dropped, flight,
                   Watch(s.trace).session.sent);
    }
  }

  /** After an error was dealt with: nothing in flight, nothing under way. */
  ghost predicate Restful(s: State) {
    && Core(s) && s.flight.inflight.None? && !s.flight.inContextReset && !s.flight.inCleanup
    && s.work.replayTarget.None? && Watch(s.trace).replay.due.None?
    && Watch(s.trace).block.credited == Watch(s.trace).block.next
  }

  lemma TidyFailed(flight: Flight, tidy: Tidy, v: TidyView, who: Option<nat>, flight': Flight)
    requires TidyOk(flight, tidy, v) && FlightToken(flight) == FlightToken(flight') == []
    ensures TidyOk(flight', tidy.(cleanupRetries := map[]), TidyStep(v, Failed(who)))
  {
  }

  lemma BlockFailed(work: Work, flight: Flight, sent: bool, v: BlockView, id: nat, flight': Flight)
    requires BlockOk(work, flight, sent, v) && flight'.inflight.None?
    ensures BlockOk(work.(activeCommands := [], pending := [], replayTarget := None), flight', sent,
        BlockStep(v, Failed(Some(id))))
  {
    hide Lookup, Count;
  }

  lemma StrikeOffKept(s: State)
    requires Core(s) && s.flight.inflight.None? && !s.flight.inContextReset && !s.queue.ready
    requires s.queue.active.Some? || s.flight.inCleanup
    ensures Restful(StrikeOff(s)) && StrikeOff(s).status == s.status
  {
    hide Core, FinishStandardOutput, ScheduleFeatureCleanup, Watch;
    if s.queue.active.Some? {
      var id := s.queue.active.value.id;
      FinishStandardOutputKept(s, id);
      RetireFrame(s, id, false);
      ScheduleFeatureCleanupKept(FinishStandardOutput(s, id), id, false);
      StrikeFeature(ScheduleFeatureCleanup(FinishStandardOutput(s, id), id, false));
    } else {
      StrikeCleanup(s);
    }
  }

  lemma StrikeFeature(s: State)
    requires Core(s) && s.queue.active.Some? && s.flight.inflight.None? && !s.flight.inContextReset
    requires s.tidy.standardOutput.None?
    ensures var id := s.queue.active.value.id;
            Restful(Note(s.(queue := s.queue.(active := None, featureErrors := s.queue.featureErrors + [Some(id)]),
                            work := s.work.(activeCommands := [], pending := [], replayTarget := None),
                            flight := s.flight.(inCleanup := false),
                            tidy := s.tidy.(cleanupRetries := map[])),
                         Failed(Some(id))))
  {
    hide TidyOk, BlockOk, Watch;
    var id := s.queue.active.value.id;
    var flight := s.flight.(inCleanup := false);
    WatchNote(s.(queue := s.queue.(active := None, featureErrors := s.queue.featureErrors + [Some(id)]),
                 work := s.work.(activeCommands := [], pending := [], replayTarget := None),
                 flight := flight, tidy := s.tidy.(cleanupRetries := map[])), Failed(Some(id)));
    TidyFailed(s.flight, s.tidy, Watch(s.trace).tidy, Some(id), flight);
    BlockFailed(s.work, s.flight, Watch(s.trace).session.sent, Watch(s.trace).block, id, flight);
  }

  lemma NoBlock(work: Work, flight: Flight, sent: bool, v: BlockView)
    requires BlockOk(work, flight, sent, v) && work.activeCommands == []
    ensures v.credited == v.next == 0
  {
    hide Lookup, Count;
  }

  lemma StrikeCleanup(s: State)
    requires Core(s) && s.queue.active.None? && s.flight.inflight.None? && !s.flight.inContextReset && !s.queue.ready
    ensures Restful(Note(s.(queue := s.queue.(featureErrors := s.queue.featureErrors + [None]),
                            work := s.work.(replayTarget := None),
                            flight := s.flight.(inCleanup := false),
                            tidy := s.tidy.(cleanupRetries := map[])),
                         Failed(None)))
  {
    hide TidyOk, BlockOk, Watch;
    var flight := s.flight.(inCleanup := false);
    var v := Watch(s.trace);
    WatchNote(s.(queue := s.queue.(featureErrors := s.queue.featureErrors + [None]),
                 work := s.work.(replayTarget := None),
                 flight := flight, tidy := s.tidy.(cleanupRetries := map[])), Failed(None));
    TidyFailed(s.flight, s.tidy, v.tidy, None, flight);
    BlockElsewhere(s.work, s.flight, v.session.sent, v.block, flight, v.session.sent, s.work.(replayTarget := None));
    NoBlock(s.work, s.flight, v.session.sent, v.block);
  }

  lemma ContinueAfterErrorKept(s: State)
    requires Core(s) && (s.status.pendingError || s.status.raised)
    ensures var r := ContinueAfterError(s); r.Some? ==> Restful(r.value) && r.value.status == s.status
  {
    hide Core, Restful, DropInflight, StrikeOff, Watch;
    if !s.queue.ready && (s.queue.active.Some? || s.flight.inCleanup) {
      DropInflightKept(s);
      StrikeOffKept(DropInflight(s));
    }
  }

  lemma ClearedKept(s: State)
    requires Restful(s)
    ensures s.status.pendingError ==> Inv(Note(s.(status := s.status.(pendingError := false)), ErrorCleared))
    ensures Inv(s.(status := s.status.(raised := false)))
  {
    hide TidyOk, BlockOk, Watch, QueueOk, ConsoleOk;
    WatchNote(s.(status := s.status.(pendingError := false)), ErrorCleared);
  }

  // ----- the dispatch cycle

  lemma {:induction false} RecoverFeatureErrorKept(s: State, atIdlePrompt: bool)
    requires Inv(s) && !s.status.raised
    ensures Inv(RecoverFeatureError(s, atIdlePrompt))
    decreases 1, 0
  {
    hide Core, Settled, Quiet, Transmitted, Even, Watch, ContinueAfterError, DispatchNext;
    if s.status.pendingError {
      ContinueAfterErrorKept(s);
      if ContinueAfterError(s).Some? {
        var s1 := ContinueAfterError(s).value;
        ClearedKept(s1);
        DispatchNextKept(Note(s1.(status := s1.status.(pendingError := false)), ErrorCleared));
      }
    }
  }

  /** Dispatch may go on: any replay still due starts at the context of the prompt. */
  ghost predicate Proceeds(s: State) {
    Core(s) && Settled(s) && Transmitted(s) && s.work.replayTarget.None? && !s.status.raised
  }

  lemma ShapeOf(s: State)
    requires Inv(s)
    ensures Shape(s.queue, s.work, s.flight, s.tidy)
    ensures s.flight.inCleanup ==> s.flight.inflight.Some? || s.status.pendingError || s.status.raised
    ensures s.queue.ready ==> s.queue.active.None?
  {
    hide TidyOk, BlockOk, Watch, SessionOk, ConsoleOk, ReplayOk, CaptureOk;
  }

  lemma {:induction false} RestoreReplayContextKept(s: State)
    requires Inv(s) && Idle(s) && s.work.replayTarget.Some? && !s.status.pendingError
    ensures var (r, proceed) := RestoreReplayContext(s);
            if proceed then
              && Proceeds(r) && r == s.(work := s.work.(replayTarget := None))
              && Watch(r.trace).block.credited == Watch(r.trace).block.next && r.work.pending != []
            else Inv(r)
    decreases 1, 1
  {
    hide Core, Watch, RecoverFeatureError, TransmitCommand;
    ShapeOf(s);
    if s.session.promptContext == s.work.replayTarget {
      RestoredKept(s);
    } else if s.work.contextResetAttempted {
      WorkErrorKept(s);
      var s1 := HandleWorkError(s);
      if !s1.status.raised && s1.status.pendingError {
        RecoverFeatureErrorKept(s1, false);
      }
    } else {
      var s1 := s.(work := s.work.(contextResetAttempted := true), flight := s.flight.(inContextReset := true));
      TakeAbortKept(s);
      TransmitKept(TakeCommand(s1, ABORT, None, None));
    }
  }

  lemma RestoredKept(s: State)
    requires Inv(s) && Idle(s) && s.work.replayTarget.Some? && !s.status.pendingError
    requires s.session.promptContext == s.work.replayTarget
    ensures var r := s.(work := s.work.(replayTarget := None));
            Proceeds(r) && Watch(r.trace).block.credited == Watch(r.trace).block.next
  {
    hide TidyOk, BlockOk, Watch, QueueOk, ConsoleOk;
    var r := s.(work := s.work.(replayTarget := None));
    BlockElsewhere(s.work, s.flight, Watch(s.trace).session.sent, Watch(s.trace).block, s.flight,
                   Watch(s.trace).session.sent, r.work);
    PendingNotAbandoned(s.work, s.flight, Watch(s.trace).session.sent, Watch(s.trace).block);
  }

  lemma PendingNotAbandoned(work: Work, flight: Flight, sent: bool, v: BlockView)
    requires BlockOk(work, flight, sent, v) && work.pending != []
    ensures !v.abandoned
  {
    hide Lookup, Count;
  }

  lemma {:induction false} DispatchNextKept(s: State)
    requires Inv(s) && !s.status.raised
    ensures Inv(DispatchNext(s))
    decreases if s.work.replayTarget.Some? then 2 else 0, 0
  {
    hide Core, Watch, RestoreReplayContext, DispatchReady;
    if s.flight.inflight.None? && !s.session.recovering && !s.status.pendingError {
      ShapeOf(s);
      if s.work.replayTarget.Some? {
        RestoreReplayContextKept(s);
        var (s1, proceed) := RestoreReplayContext(s);
        if proceed {
          DispatchReadyKept(s1);
        }
      } else {
        DispatchReadyKept(s);
      }
    }
  }

  lemma DispatchReadyKept(s: State)
    requires Proceeds(s) && Even(s) && s.flight.inflight.None? && !s.session.recovering && !s.status.pendingError
    requires Quiet(s) || (s.work.pending != [] && s.queue.active.Some?)
    ensures Inv(DispatchReady(s))
  {
    hide Core, Settled, Watch, CallFeature, ActivateNextFeature, TransmitCommand, TakeCommand, DispatchOne;
    NoReplayWithoutFeature(s);
    SettledTidied(s);
    if s.tidy.cleanup == [] && s.queue.active.None? {
      ActivateNextFeatureKept(s);
      var s1 := ActivateNextFeature(s);
      if !s1.status.raised && s1.queue.active.Some? {
        DispatchOneKept(s1);
      }
    } else {
      DispatchOneKept(s);
    }
  }

  lemma NoReplayWithoutFeature(s: State)
    requires Core(s)
    ensures s.queue.active.None? ==> s.work.pending == []
    ensures s.queue.ready ==> s.queue.active.None? && s.tidy.cleanup == []
    ensures s.flight.inContextReset ==> s.flight.inflight.Some?
  {
    hide TidyOk, BlockOk, Watch, SessionOk, ConsoleOk, ReplayOk, CaptureOk;
  }

  /** The three ways out of `_dispatch_next`: a cleanup command, the end of a block, the next command. */
  lemma DispatchOneKept(s: State)
    requires Core(s) && Settled(s) && Transmitted(s) && Even(s) && !s.status.raised
    requires s.flight.inflight.None? && !s.session.recovering && s.work.replayTarget.None?
    requires Quiet(s) || (s.work.pending != [] && s.queue.active.Some?)
    requires s.status.pendingError ==> s.queue.active.Some?
    requires (s.queue.active.Some? || s.tidy.cleanup != []) && Tidied(s.flight)
    ensures Inv(DispatchOne(s))
  {
    hide Core, Settled, Watch, CallFeature, TransmitCommand, Lookup;
    NoReplayWithoutFeature(s);
    if s.tidy.cleanup != [] {
      var s1 := s.(tidy := s.tidy.(cleanup := s.tidy.cleanup[1..]), flight := s.flight.(inCleanup := true));
      TakeCleanupKept(s);
      TransmitKept(TakeCommand(s1, s.tidy.cleanup[0].spec, None, Some(s.tidy.cleanup[0].token)));
    } else if s.work.pending == [] {
      BlockDoneKept(s);
      CallFeatureKept(Note(s, BlockDone), BlockComplete);
    } else {
      var s1 := s.(work := s.work.(pending := s.work.pending[1..]), flight := s.flight.(inCleanup := false));
      PendingEven(s);
      TakeBlockKept(s);
      TransmitKept(TakeCommand(s1, s.work.pending[0], Some(|s.work.activeCommands| - |s.work.pending|), None));
    }
  }

  lemma PendingEven(s: State)
    requires Core(s) && Even(s) && s.work.pending != []
    ensures Watch(s.trace).block.credited == Watch(s.trace).block.next
  {
    hide TidyOk, BlockOk, Watch, SessionOk, ConsoleOk, ReplayOk, CaptureOk;
    PendingNotAbandoned(s.work, s.flight, Watch(s.trace).session.sent, Watch(s.trace).block);
  }

  lemma AllSent(work: Work, flight: Flight, sent: bool, v: BlockView)
    requires BlockOk(work, flight, sent, v) && work.pending == [] && flight.inflight.None?
    requires v.abandoned || v.credited == v.next
    ensures BlockStep(v, BlockDone) == v
  {
    hide Lookup, Count;
  }

  lemma BlockDoneKept(s: State)
    requires Inv(s) && Even(s) && s.work.pending == [] && s.flight.inflight.None?
    ensures Inv(Note(s, BlockDone)) && Even(Note(s, BlockDone))
  {
    hide TidyOk, BlockOk, Watch;
    WatchNote(s, BlockDone);
    AllSent(s.work, s.flight, Watch(s.trace).session.sent, Watch(s.trace).block);
  }

  // ----- interrupted commands

  lemma SessionEndedKept(s: State)
    requires Core(s) && (s.flight.inflight.None? || s.status.pendingError)
    ensures Keeps(s, EndSession(s))
  {
    hide TidyOk, BlockOk, Watch, QueueOk, ConsoleOk;
    WatchNote(s.(session := s.session.(epoch := s.session.epoch + 1, recovering := true)), SessionEnded);
  }

  /** A command of the active block has just ended without being credited. */
  ghost predicate InDoubt(s: State, a: Attempt) {
    && Core(s) && Quiet(s) && s.flight.inflight.None? && !s.flight.inContextReset && !s.flight.inCleanup
    && s.queue.active.Some? && s.work.replayTarget.None? && !s.status.raised && !s.status.pendingError
    && a.blockIndex.Some? && s.work.activeCommands != []
    && (var v := Watch(s.trace).block;
        !v.abandoned && !v.unsent && v.next == a.blockIndex.value + 1 && v.credited == a.blockIndex.value)
  }

  lemma CountMore(restarts: seq<nat>, i: nat, j: nat)
    ensures Count(restarts + [i], j) == Count(restarts, j) + if i == j then 1 else 0
  {
    assert (restarts + [i])[..|restarts|] == restarts;
  }

  lemma BlockRestarted(work: Work, flight: Flight, sent: bool, v: BlockView, i: nat, target: Option<Context>)
    requires BlockOk(work, flight, sent, v) && flight.inflight.None? && work.activeCommands != []
    requires !v.abandoned && !v.unsent && v.next == i + 1 && v.credited == i
    requires Lookup(work.recoveryRetries, Some(i)) < MAX_COMMAND_RECOVERY_RETRIES
    ensures BlockOk(work.(recoveryRetries := work.recoveryRetries[Some(i) := Lookup(work.recoveryRetries, Some(i)) + 1],
                          pending := work.activeCommands, replayTarget := target, contextResetAttempted := false),
                    flight, sent, BlockStep(v, Restarted(Some(i))))
    ensures BlockStep(v, Restarted(Some(i))).next == BlockStep(v, Restarted(Some(i))).credited
  {
    hide Count;
    assert Count(v.restarts, i) == Lookup(work.recoveryRetries, Some(i));
    forall j: nat ensures Count(v.restarts + [i], j) == Count(v.restarts, j) + if i == j then 1 else 0 {
      CountMore(v.restarts, i, j);
    }
  }

  lemma RestartActiveBlockKept(s: State, a: Attempt)
    requires InDoubt(s, a)
    ensures Inv(RestartActiveBlock(s, a))
  {
    hide TidyOk, BlockOk, Watch, QueueOk, ConsoleOk, SessionOk, CaptureOk;
    var retries := Lookup(s.work.recoveryRetries, a.blockIndex);
    if retries >= MAX_COMMAND_RECOVERY_RETRIES {
      WorkErrorKept(s);
    } else {
      var work := s.work.(recoveryRetries := s.work.recoveryRetries[a.blockIndex := retries + 1],
                          pending := s.work.activeCommands, replayTarget := s.work.blockContext,
                          contextResetAttempted := false);
      WatchNote(s.(work := work), Restarted(a.blockIndex));
      BlockRestarted(s.work, s.flight, Watch(s.trace).session.sent, Watch(s.trace).block, a.blockIndex.value,
                     s.work.blockContext);
    }
  }

  lemma InDoubtSteps(s: State, a: Attempt, r: State)
    requires InDoubt(s, a) && Keeps(s, r) && !r.status.raised && !r.status.pendingError && r.trace == s.trace
    requires r.work == s.work && r.flight == s.flight && r.queue.active == s.queue.active
    ensures InDoubt(r, a)
  {
    hide Core, Watch;
  }

  lemma HandleContextLossKept(s: State, a: Attempt)
    requires InDoubt(s, a)
    ensures Inv(HandleContextLoss(s, a))
  {
    hide Core, Watch, Observe, RestartActiveBlock, InDoubt;
    assert
      && !s.flight.inCleanup && s.queue.active.Some? && !s.status.raised && Core(s) && Quiet(s)
      && s.flight.inflight.None?
    by {
      InDoubtMeans(s, a);
    }
    ObserveKept(s, LostContext(a));
    var s1 := Observe(s, LostContext(a));
    if !s1.status.raised && !s1.status.pendingError {
      InDoubtSteps(s, a, s1);
      if VerdictOf(s, LostContext(a)).context == Restart {
        RestartActiveBlockKept(s1, a);
      } else {
        WorkErrorKept(s1);
      }
    }
  }

  lemma InDoubtMeans(s: State, a: Attempt)
    requires InDoubt(s, a)
    ensures !s.flight.inCleanup && s.queue.active.Some? && !s.status.raised && !s.status.pendingError
            && Core(s) && Quiet(s) && s.flight.inflight.None? && s.work.replayTarget.None?
  {
  }

  lemma BlockAbandoned(work: Work, flight: Flight, sent: bool, v: BlockView)
    requires BlockOk(work, flight, sent, v) && flight.inflight.None?
    ensures BlockOk(work.(pending := []), flight, sent, BlockStep(v, Abandoned))
  {
    hide Lookup, Count;
  }

  lemma AbandonedKept(s: State, a: Attempt)
    requires InDoubt(s, a)
    ensures Inv(Note(s.(work := s.work.(pending := [])), Abandoned))
  {
    hide TidyOk, BlockOk, Watch, QueueOk, ConsoleOk, SessionOk, CaptureOk;
    WatchNote(s.(work := s.work.(pending := [])), Abandoned);
    BlockAbandoned(s.work, s.flight, Watch(s.trace).session.sent, Watch(s.trace).block);
  }

  lemma HandleBlockLossKept(s: State, a: Attempt)
    requires InDoubt(s, a)
    ensures Inv(HandleBlockLoss(s, a))
  {
    hide Core, Watch, Observe, RestartActiveBlock, InDoubt, ScheduleFeatureCleanup, Settled;
    InDoubtMeans(s, a);
    NotReady(s);
    var id := s.queue.active.value.id;
    ScheduleFeatureCleanupKept(s, id, false);
    ScheduleKeepsDoubt(s, a, id);
    var s1 := ScheduleFeatureCleanup(s, id, false);
    InDoubtMeans(s1, a);
    ObserveKept(s1, LostSession(a));
    var s2 := Observe(s1, LostSession(a));
    if s2.status.raised || s2.status.pendingError {
      ErrorSettles(s2);
    } else {
      InDoubtSteps(s1, a, s2);
      match VerdictOf(s1, LostSession(a)).loss
      case RestartBlock => RestartActiveBlockKept(s2, a);
      case Fail => WorkErrorKept(s2);
      case _ => AbandonedKept(s2, a);
    }
  }

  lemma ErrorSettles(s: State)
    requires s.status.raised || s.status.pendingError
    ensures Settled(s) && Transmitted(s)
  {
    hide Watch;
  }

  lemma ScheduleKeepsDoubt(s: State, a: Attempt, id: nat)
    requires InDoubt(s, a) && Keeps(s, ScheduleFeatureCleanup(s, id, false))
    ensures InDoubt(ScheduleFeatureCleanup(s, id, false), a)
  {
    hide Core, Watch, DueCommands, Queued;
    if id in s.tidy.cleanupActions {
      var s1 := s.(tidy := s.tidy.(cleanupActions := s.tidy.cleanupActions - {id}));
      var specs := DueCommands(s.tidy.cleanupActions[id], false);
      WatchNote(s1.(tidy := Queued(s1.tidy, specs)), CleanupQueued(specs));
    }
  }

  /** The command in flight stops being in flight, without an error. */
  ghost predicate Ends(s: State, a: Attempt, ending: Ending) {
    && Inv(s) && s.flight.inflight.Some? && !s.status.raised && !s.status.pendingError
    && (ending == Rejected || ending == Credited || ending == Dropped || ending == Interrupted)
    && (var b := s.flight.inflight.value;
        a.spec == b.spec && a.number == b.number && a.epoch == b.epoch && a.output == b.output
        && a.blockIndex == b.blockIndex && a.token == b.token)
  }

  lemma BlockCredited(work: Work, flight: Flight, sent: bool, v: BlockView, a: Attempt, flight': Flight)
    requires BlockOk(work, flight, sent, v) && BlockInFlight(flight) && sent && flight'.inflight.None?
    requires a.blockIndex == flight.inflight.value.blockIndex
    ensures var w := BlockStep(v, Ended(a, Credited)); BlockOk(work, flight', sent, w) && w.credited == w.next
  {
    hide Lookup, Count;
  }

  lemma BlockCommandEnded(s: State, a: Attempt, ending: Ending)
    requires Ends(s, a, ending) && !s.flight.inContextReset && !s.flight.inCleanup
    ensures var r := Note(s.(flight := s.flight.(inflight := None)), Ended(a, ending));
            && Core(r) && Quiet(r) && Transmitted(r) && s.queue.active.Some? && s.work.replayTarget.None?
            && (if ending == Credited then Settled(r) && Even(r) else InDoubt(r, a))
  {
    hide TidyOk, BlockOk, Watch, QueueOk, ConsoleOk;
    var flight := s.flight.(inflight := None);
    var v := Watch(s.trace);
    WatchNote(s.(flight := flight), Ended(a, ending));
    TidyNotCleanup(s.flight, s.tidy, v.tidy, a, ending, flight);
    BlockNonempty(s.work, s.flight, v.session.sent, v.block);
    if ending == Credited {
      BlockCredited(s.work, s.flight, v.session.sent, v.block, a, flight);
    } else {
      BlockDropped(s.work, s.flight, v.session.sent, v.block, a, ending, flight, v.session.sent);
    }
  }

  lemma BlockNonempty(work: Work, flight: Flight, sent: bool, v: BlockView)
    requires BlockOk(work, flight, sent, v) && BlockInFlight(flight)
    ensures work.activeCommands != []
  {
    hide Lookup, Count;
  }

  lemma TidyNotCleanup(flight: Flight, tidy: Tidy, v: TidyView, a: Attempt, ending: Ending, flight': Flight)
    requires TidyOk(flight, tidy, v) && FlightToken(flight) == FlightToken(flight') == [] && a.token.None?
    ensures TidyOk(flight', tidy, TidyStep(v, Ended(a, ending)))
  {
    hide Lookup, Ordered;
  }

  lemma SessionEndedFlight(flight: Flight, session: Session, status: Status, v: SessionView, a: Attempt, ending: Ending,
                           flight': Flight)
    requires SessionOk(flight, session, status, v) && flight.inflight.Some? && a.number == flight.inflight.value.number
    requires flight'.inflight.None? && ending != Credited
    ensures SessionOk(flight', session, status, SessionStep(v, Ended(a, ending)))
    ensures SessionStep(v, Ended(a, ending)).sent == v.sent
  {
  }

  lemma CaptureEndedFlight(flight: Flight, status: Status, v: CaptureView, a: Attempt, ending: Ending, flight': Flight)
    requires CaptureOk(flight, status, v) && flight'.inflight.None? && ending != Credited
    ensures CaptureOk(flight', status, CaptureStep(v, Ended(a, ending)))
  {
  }

  lemma ResetEnded(s: State, a: Attempt, ending: Ending)
    requires Ends(s, a, Interrupted) && s.flight.inContextReset && (ending == Interrupted || ending == Reset)
    ensures var r := Note(s.(flight := s.flight.(inflight := None, inContextReset := false)), Ended(a, ending));
            Inv(r)
  {
    hide TidyOk, BlockOk, Watch, QueueOk, ConsoleOk, ReplayOk, SessionOk, CaptureOk, SessionStep, CaptureStep,
         TidyStep;
    var flight := s.flight.(inflight := None, inContextReset := false);
    var v := Watch(s.trace);
    WatchNote(s.(flight := flight), Ended(a, ending));
    TidyNotCleanup(s.flight, s.tidy, v.tidy, a, ending, flight);
    SessionEndedFlight(s.flight, s.session, s.status, v.session, a, ending, flight);
    CaptureEndedFlight(s.flight, s.status, v.capture, a, ending, flight);
    BlockDropped(s.work, s.flight, v.session.sent, v.block, a, ending, flight, v.session.sent);
  }

  lemma TidyRetried(flight: Flight, tidy: Tidy, v: TidyView, a: Attempt, flight': Flight)
    requires TidyOk(flight, tidy, v) && flight.inflight.Some? && a.token.Some? && a.token == flight.inflight.value.token
    requires flight'.inflight.None? && a.spec == flight.inflight.value.spec
    requires Lookup(tidy.cleanupRetries, a.token.value) < MAX_COMMAND_RECOVERY_RETRIES
    ensures TidyOk(flight',
                   Requeued(tidy, a.spec, a.token.value),
                   TidyStep(v, Ended(a, Interrupted)))
  {
    hide Ordered, Filed;
    var token := a.token.value;
    FiledRetried(flight, tidy, v.queued, a, flight');
    assert FlightToken(flight) == [token];
    assert v.tidying == [token] + Tokens(tidy.cleanup) && v.tidying[0] == token;
    assert Tokens([CleanupCommand(a.spec, token)] + tidy.cleanup) == [token] + Tokens(tidy.cleanup);
    OrderedFirst(v.tidying, v.next);
  }

  lemma FiledRetried(flight: Flight, tidy: Tidy, queued: seq<CommandSpec>, a: Attempt, flight': Flight)
    requires Filed(flight, tidy, queued) && flight.inflight.Some? && a.token.Some?
    requires a.token == flight.inflight.value.token && a.spec == flight.inflight.value.spec && flight'.inflight.None?
    ensures Filed(flight', Requeued(tidy, a.spec, a.token.value), queued)
  {
  }

  lemma OrderedFirst(tokens: seq<nat>, next: nat)
    requires Ordered(tokens, next) && tokens != []
    ensures tokens[0] < next && forall i :: 1 <= i < |tokens| ==> tokens[i] != tokens[0]
  {
  }

  /** A cleanup command stops being in flight and does not come back. */
  lemma CleanupEnded(s: State, a: Attempt, ending: Ending)
    requires Ends(s, a, ending) && s.flight.inCleanup && !s.flight.inContextReset && ending != Interrupted
    ensures var r := Note(s.(flight := s.flight.(inflight := None)), Ended(a, ending));
            Core(r) && Quiet(r) && Transmitted(r) && Even(r)
  {
    hide TidyOk, BlockOk, Watch, QueueOk, ConsoleOk;
    var flight := s.flight.(inflight := None);
    var v := Watch(s.trace);
    WatchNote(s.(flight := flight), Ended(a, ending));
    TidyEnded(s.flight, s.tidy, v.tidy, a, ending, flight);
    BlockElsewhere(s.work, s.flight, v.session.sent, v.block, flight, v.session.sent, s.work);
  }

  lemma RetryCleanupKept(s: State, a: Attempt)
    requires Ends(s, a, Interrupted) && s.flight.inCleanup && !s.flight.inContextReset
    ensures Inv(RetryCleanup(s, a))
  {
    hide Core, Watch, Settled, Even;
    assert a.token.Some? by { CleanupHasToken(s); }
    var retries := Lookup(s.tidy.cleanupRetries, a.token.value);
    if retries >= MAX_COMMAND_RECOVERY_RETRIES {
      CleanupEnded(s, a, Dropped);
      var s1 := Note(s.(flight := s.flight.(inflight := None)), Ended(a, Dropped));
      SessionEndedKept(s1);
      WorkErrorKept(EndSession(s1));
    } else {
      CleanupRequeued(s, a);
      SessionEndedKept(Note(s.(flight := s.flight.(inflight := None, inCleanup := false),
                               tidy := Requeued(s.tidy, a.spec, a.token.value)), Ended(a, Interrupted)));
    }
  }

  lemma CleanupHasToken(s: State)
    requires Core(s) && s.flight.inflight.Some? && s.flight.inCleanup
    ensures s.flight.inflight.value.token.Some? && s.flight.inflight.value.blockIndex.None? && !s.queue.ready
  {
    hide TidyOk, BlockOk, Watch, SessionOk, ConsoleOk, ReplayOk, CaptureOk;
  }

  lemma CleanupRequeued(s: State, a: Attempt)
    requires Ends(s, a, Interrupted) && s.flight.inCleanup && !s.flight.inContextReset && a.token.Some?
    requires Lookup(s.tidy.cleanupRetries, a.token.value) < MAX_COMMAND_RECOVERY_RETRIES
    ensures Inv(Note(s.(flight := s.flight.(inflight := None, inCleanup := false),
                        tidy := Requeued(s.tidy, a.spec, a.token.value)), Ended(a, Interrupted)))
  {
    hide TidyOk, BlockOk, Watch, QueueOk, Lookup, Requeued;
    CleanupHasToken(s);
    var flight := s.flight.(inflight := None, inCleanup := false);
    var v := Watch(s.trace);
    WatchNote(s.(flight := flight, tidy := Requeued(s.tidy, a.spec, a.token.value)), Ended(a, Interrupted));
    TidyRetried(s.flight, s.tidy, v.tidy, a, flight);
    BlockElsewhere(s.work, s.flight, v.session.sent, v.block, flight, v.session.sent, s.work);
  }

  lemma HandleSessionLossKept(s: State)
    requires Inv(s) && !s.status.raised && !s.status.pendingError
    ensures Inv(HandleSessionLoss(s))
  {
    hide Core, Watch, Settled, RetryCleanup, HandleBlockLoss, Even;
    if s.flight.inflight.None? {
      SessionEndedKept(s);
    } else {
      var a := s.flight.inflight.value;
      if s.flight.inContextReset {
        ResetEnded(s, a, Interrupted);
        SessionEndedKept(Note(s.(flight := s.flight.(inflight := None, inContextReset := false)),
            Ended(a, Interrupted)));
      } else if s.flight.inCleanup {
        RetryCleanupKept(s, a);
      } else {
        BlockCommandEnded(s, a, Interrupted);
        var s1 := Note(s.(flight := s.flight.(inflight := None)), Ended(a, Interrupted));
        SessionEndedKept(s1);
        SessionEndKeepsDoubt(s1, a);
        HandleBlockLossKept(EndSession(s1), a);
      }
    }
  }

  lemma SessionEndKeepsDoubt(s: State, a: Attempt)
    requires InDoubt(s, a) && Keeps(s, EndSession(s))
    ensures InDoubt(EndSession(s), a)
  {
    hide Core, Watch;
    WatchNote(s.(session := s.session.(epoch := s.session.epoch + 1, recovering := true)), SessionEnded);
  }

  // ----- completion

  /** A command of the active block has just been credited. */
  ghost predicate JustCredited(s: State) {
    && Inv(s) && Even(s) && s.flight.inflight.None? && s.work.replayTarget.None?
    && !s.status.raised && !s.status.pendingError && s.queue.active.Some? && Tidied(s.flight)
  }

  lemma ConsoleKept(s: State, phase: Phase)
    requires Inv(s) && s.tidy.standardOutput.Some?
    ensures var r := s.(tidy := s.tidy.(standardOutput := Some(s.tidy.standardOutput.value.(phase := phase))));
            Inv(r) && Untouched(s, r) && s.queue.active.Some?
  {
    hide TidyOk, BlockOk, Watch, SessionOk, CaptureOk, QueueOk, ReplayOk;
    TidyIgnores(s.flight, s.tidy, Watch(s.trace).tidy, s.tidy.cleanupActions,
                Some(s.tidy.standardOutput.value.(phase := phase)));
  }

  lemma ConsoleChangedKept(s: State)
    requires Inv(s) && s.tidy.standardOutput.Some? && !s.tidy.standardOutput.value.restore
    ensures var r := Note(s.(tidy := s.tidy.(standardOutput := Some(s.tidy.standardOutput.value.(restore := true)))),
        ConsoleChanged);
            Inv(r) && Untouched(s, r)
  {
    hide TidyOk, BlockOk, Watch, SessionOk, CaptureOk, QueueOk, ReplayOk;
    var console := Some(s.tidy.standardOutput.value.(restore := true));
    WatchNote(s.(tidy := s.tidy.(standardOutput := console)), ConsoleChanged);
    TidyIgnores(s.flight, s.tidy, Watch(s.trace).tidy, s.tidy.cleanupActions, console);
  }

  lemma StartCallbackKept(s: State)
    requires Inv(s) && s.tidy.standardOutput.Some? && !s.status.raised && Tidied(s.flight)
    ensures Inv(StartStandardOutputCallback(s))
  {
    hide Core, Settled, Quiet, Transmitted, Even, Watch, CallFeature;
    ConsoleKept(s, Running);
    CallFeatureKept(s.(tidy := s.tidy.(standardOutput := Some(s.tidy.standardOutput.value.(phase := Running)))),
        StandardReady);
  }

  lemma CompleteStandardOutputKept(s: State, a: Attempt)
    requires Inv(s) && s.tidy.standardOutput.Some? && !s.status.raised && Tidied(s.flight)
    ensures Inv(CompleteStandardOutputCommand(s, a))
  {
    hide Core, Settled, Quiet, Transmitted, Even, Watch, StartStandardOutputCallback, SubmitBlock;
    var context := s.tidy.standardOutput.value;
    if a.spec.line == CONSOLE_INSPECT_LINE {
      if s.env.consoleMode(a.output) != More {
        StartCallbackKept(s);
      } else {
        ConsoleKept(s, SetStandard);
        SubmitBlockKept(s.(tidy := s.tidy.(standardOutput := Some(context.(phase := SetStandard)))), context.feature,
                        CONSOLE_STANDARD);
      }
    } else if context.phase == SetStandard {
      if context.restore {
        assert s.(tidy := s.tidy.(standardOutput := Some(context.(restore := true)))) == s;
        StartCallbackKept(s);
      } else {
        ConsoleChangedKept(s);
        StartCallbackKept(Note(s.(tidy := s.tidy.(standardOutput := Some(context.(restore := true)))), ConsoleChanged));
      }
    }
  }

  lemma CompleteCreditedKept(s: State, a: Attempt, state: CliState)
    requires JustCredited(s)
    ensures Inv(CompleteCredited(s, a, state))
  {
    hide Core, Settled, Quiet, Transmitted, Even, Watch, CompleteStandardOutputCommand, DispatchNext, CallFeature;
    if IsStandardOutputCommand(s, a.spec) {
      CompleteStandardOutputKept(s, a);
      var s1 := CompleteStandardOutputCommand(s, a);
      if !s1.status.raised && !s1.status.pendingError && !s1.session.recovering {
        DispatchNextKept(s1);
      }
    } else {
      CallFeatureKept(s, Executed(a, state));
      var s1 := CallFeature(s, Executed(a, state));
      if !s1.status.raised && !s1.status.pendingError {
        if !Busy(s1) && IsActive(s1, s.queue.active.value.id) {
          BlockDoneKept(s1);
          CallFeatureKept(Note(s1, BlockDone), BlockComplete);
          var s2 := CallFeature(Note(s1, BlockDone), BlockComplete);
          if !s2.status.raised {
            DispatchNextKept(s2);
          }
        } else {
          DispatchNextKept(s1);
        }
      }
    }
  }

  lemma CleanupCredited(s: State, a: Attempt)
    requires Ends(s, a, Credited) && s.flight.inCleanup && !s.flight.inContextReset && a.token.Some?
    ensures Inv(Note(s.(tidy := s.tidy.(cleanupRetries := s.tidy.cleanupRetries - {a.token.value}),
                        flight := s.flight.(inflight := None, inCleanup := false)), Ended(a, Credited)))
  {
    hide TidyOk, BlockOk, Watch, QueueOk, Lookup;
    CleanupHasToken(s);
    var flight := s.flight.(inflight := None, inCleanup := false);
    var v := Watch(s.trace);
    WatchNote(s.(tidy := s.tidy.(cleanupRetries := s.tidy.cleanupRetries - {a.token.value}), flight := flight),
              Ended(a, Credited));
    TidyCredited(s.flight, s.tidy, v.tidy, a, flight);
    BlockElsewhere(s.work, s.flight, v.session.sent, v.block, flight, v.session.sent, s.work);
  }

  lemma TidyCredited(flight: Flight, tidy: Tidy, v: TidyView, a: Attempt, flight': Flight)
    requires TidyOk(flight, tidy, v) && flight.inflight.Some? && a.token.Some? && a.token == flight.inflight.value.token
    requires flight'.inflight.None?
    ensures TidyOk(flight', tidy.(cleanupRetries := tidy.cleanupRetries - {a.token.value}),
        TidyStep(v, Ended(a, Credited)))
  {
    hide Ordered, Filed;
    FiledEnded(flight, tidy, v.queued, flight');
    FiledIgnores(flight', tidy, v.queued, tidy.cleanupRetries - {a.token.value});
    assert FlightToken(flight) == [a.token.value];
    assert v.tidying == [a.token.value] + Tokens(tidy.cleanup);
    assert v.tidying[1..] == Tokens(tidy.cleanup);
    OrderedRest(v.tidying, v.next);
  }

  lemma FiledIgnores(flight: Flight, tidy: Tidy, queued: seq<CommandSpec>, retries: map<nat, nat>)
    requires Filed(flight, tidy, queued)
    ensures Filed(flight, tidy.(cleanupRetries := retries), queued)
  {
  }

  lemma OrderedRest(tokens: seq<nat>, next: nat)
    requires Ordered(tokens, next) && tokens != []
    ensures Ordered(tokens[1..], next)
  {
  }

  lemma RejectedKept(s: State, a: Attempt, state: CliState)
    requires Ends(s, a, Rejected) && !s.flight.inContextReset
    ensures var r := Note(s.(flight := s.flight.(inflight := None)), Ended(a, Rejected));
            Inv(HandleWorkError(r)) && Inv(Raise(r)) && (!s.flight.inCleanup ==> InDoubt(r, a))
  {
    hide Core, Watch, InDoubt, Settled, Quiet, Even;
    var r := Note(s.(flight := s.flight.(inflight := None)), Ended(a, Rejected));
    if s.flight.inCleanup {
      CleanupEnded(s, a, Rejected);
    } else {
      BlockCommandEnded(s, a, Rejected);
    }
    WorkErrorKept(r);
    RaiseKept(r);
  }

  lemma CompleteInflightKept(s: State, state: CliState)
    requires Inv(s) && s.flight.inflight.Some? && !s.status.raised && !s.status.pendingError
    ensures Inv(CompleteInflight(s, state))
  {
    hide Core, Watch, InDoubt, Settled, Quiet, Even, Transmitted, RecoverFeatureError, DispatchNext, CompleteCredited,
         Observe, RestartActiveBlock;
    var a := s.flight.inflight.value.(after := s.session.promptContext);
    var s0 := s.(flight := s.flight.(inflight := None));
    if s.flight.inContextReset {
      ResetEnded(s, a, Reset);
      DispatchNextKept(Note(s.(flight := s.flight.(inflight := None, inContextReset := false)), Ended(a, Reset)));
    } else if (state == CmdPrompt && ContextChanged(a)) || !Validates(s.env, a, state) {
      var r := Note(s0, Ended(a, Rejected));
      RejectedKept(s, a, state);
      if state == CmdPrompt && ContextChanged(a) {
        if !s.flight.inCleanup {
          HandleContextLossKept(r, a);
        }
        var s1 := HandleContextLoss(r, a);
        if !s1.status.raised {
          RecoverFeatureErrorKept(s1, false);
          DispatchNextKept(s1);
        }
      } else if state == CmdPrompt && !HandleWorkError(r).status.raised {
        RecoverFeatureErrorKept(HandleWorkError(r), false);
      }
    } else if s.flight.inCleanup {
      CleanupHasToken(s);
      CleanupCredited(s, a);
      DispatchNextKept(Note(s.(tidy := s.tidy.(cleanupRetries := s.tidy.cleanupRetries - {a.token.value}),
                               flight := s.flight.(inflight := None, inCleanup := false)), Ended(a, Credited)));
    } else {
      BlockCommandEnded(s, a, Credited);
      CompleteCreditedKept(Note(s0, Ended(a, Credited)), a, state);
    }
  }

  // ----- events

  lemma ConsumedKept(s: State, data: seq<byte>)
    requires Inv(s)
    requires s.flight.inflight.Some? && s.flight.inflight.value.spec.Captures() ==> s.status.pendingError
    ensures Inv(Note(s, Consumed(data)))
  {
    hide TidyOk, BlockOk, Watch, QueueOk, ConsoleOk, ReplayOk;
    WatchNote(s, Consumed(data));
  }

  lemma CapturedKept(s: State, data: seq<byte>)
    requires Inv(s) && s.flight.inflight.Some?
    ensures var a := s.flight.inflight.value;
            Inv(Note(s.(flight := s.flight.(inflight := Some(a.(output := a.output + data)))), Consumed(data)))
  {
    hide TidyOk, BlockOk, Watch, QueueOk, ConsoleOk, ReplayOk;
    var a := s.flight.inflight.value;
    var flight := s.flight.(inflight := Some(a.(output := a.output + data)));
    var v := Watch(s.trace);
    WatchNote(s.(flight := flight), Consumed(data));
    TidyElsewhere(s.flight, s.tidy, v.tidy, flight);
    BlockSameCommand(s.work, s.flight, v.session.sent, v.block, flight);
    assert (v.capture.consumed + data)[v.capture.start..] == v.capture.consumed[v.capture.start..] + data;
  }

  lemma BlockSameCommand(work: Work, flight: Flight, sent: bool, v: BlockView, flight': Flight)
    requires BlockOk(work, flight, sent, v) && flight.inflight.Some? && flight'.inflight.Some?
    requires flight'.inflight.value.blockIndex == flight.inflight.value.blockIndex
    requires flight'.inflight.value.spec == flight.inflight.value.spec
    ensures BlockOk(work, flight', sent, v)
  {
    hide Lookup, Count;
  }

  lemma OnOutputKept(s: State, data: seq<byte>, retained: bool)
    requires Inv(s) && !s.status.raised
    ensures Inv(OnOutput(s, data, retained))
  {
    hide Core, Watch, Settled, Quiet, Even, Transmitted, Observe, VerdictOf;
    if data != [] {
      if s.flight.inflight.Some? && s.flight.inflight.value.spec.Captures() {
        CapturedKept(s, data);
      } else {
        if Discards(s, data, retained) {
          ConsumedKept(s, data);
        }
        var s1 := if Discards(s, data, retained) then Note(s, Consumed(data)) else s;
        if s1.flight.inflight.Some? && s1.queue.active.Some? {
          ObserveKept(s1, OutputSeen(data));
        }
      }
    }
  }

  lemma SessionKept(s: State, session: Session)
    requires Inv(s) && session.epoch == s.session.epoch && session.recovering == s.session.recovering
    ensures Inv(s.(session := session, status := s.status.(callbackFailed := false)))
    ensures Inv(s.(session := session))
  {
    hide TidyOk, BlockOk, Watch, QueueOk, ConsoleOk;
  }

  lemma RestoreSessionKept(s: State)
    requires Inv(s)
    ensures Inv(RestoreSession(s))
  {
    hide TidyOk, BlockOk, Watch, QueueOk, ConsoleOk, CaptureOk;
    if s.session.recovering {
      WatchNote(s.(session := s.session.(authenticatedOnce := true, recovering := false)), SessionRestored);
    } else {
      SessionKept(s, s.session.(authenticatedOnce := true));
    }
  }

  lemma NoteStateKept(s: State, state: CliState, data: seq<byte>)
    requires Inv(s)
    ensures Inv(NoteState(s, state, data)) && NoteState(s, state, data).status == s.status.(callbackFailed := false)
  {
    hide Core, Watch, Settled, Quiet, Even, Transmitted;
    SessionKept(s, s.session.(currentState := Some(state)));
    var s0 := s.(session := s.session.(currentState := Some(state)), status := s.status.(callbackFailed := false));
    if state == CmdPrompt {
      var context := s.env.promptContext(data);
      SessionKept(s0, s0.session.(promptContext := context));
      RestoreSessionKept(if context.Some? then s0.(session := s0.session.(promptContext := context)) else s0);
    }
  }

  lemma HandleStateKept(s: State, state: CliState)
    requires Inv(s) && !s.status.raised && !s.status.pendingError
    ensures Inv(HandleState(s, state))
  {
    hide Core, Watch, Settled, Quiet, Even, Transmitted, HandleSessionLoss, RestoreSession, CompleteInflight,
         DispatchNext,
         RecoverFeatureError;
    if state == SessionLost || (state == ProvideUsername && s.session.authenticatedOnce) {
      HandleSessionLossKept(s);
    } else if state == CredentialAccepted {
      RestoreSessionKept(s);
    } else if s.flight.inflight.Some? && state in s.flight.inflight.value.spec.Completes() {
      CompleteInflightKept(s, state);
    } else {
      DispatchNextKept(s);
      var s1 := if state == CmdPrompt && !s.session.recovering then DispatchNext(s) else s;
      if !s1.status.raised {
        RecoverFeatureErrorKept(s1, false);
      }
    }
  }

  lemma OnStateKept(s: State, state: CliState, data: seq<byte>)
    requires Inv(s) && !s.status.raised
    ensures Inv(OnState(s, state, data))
  {
    hide Core, Watch, Settled, Quiet, Even, Transmitted, NoteState, OnOutput, HandleState, RecoverFeatureError,
         RestoreSession;
    NoteStateKept(s, state, data);
    var s1 := NoteState(s, state, data);
    if s1.status.pendingError {
      ConsumedKept(s1, data);
      var s2 := Note(s1, Consumed(data));
      RecoverFeatureErrorKept(s2, false);
      SessionEndedInv(s2);
      RestoreSessionKept(s2);
    } else {
      OnOutputKept(s1, data, false);
      var s2 := OnOutput(s1, data, false);
      if !s2.status.raised {
        if s2.status.callbackFailed || s2.status.pendingError {
          RecoverFeatureErrorKept(s2, false);
        } else {
          HandleStateKept(s2, state);
        }
      }
    }
  }

  lemma SessionEndedInv(s: State)
    requires Inv(s) && s.status.pendingError
    ensures Inv(EndSession(s))
  {
    SessionEndedKept(s);
  }

  lemma OnPromptEchoKept(s: State, data: seq<byte>)
    requires Inv(s) && !s.status.raised
    ensures Inv(OnPromptEcho(s, data))
  {
    hide TidyOk, BlockOk, Watch, QueueOk, ConsoleOk, CaptureOk, SessionOk, ReplayOk, OnOutput;
    OnOutputKept(s, data, false);
    WatchNote(OnOutput(s, data, false), Nudged);
  }

  lemma QueueEnqueued(queue: Queue, v: QueueView, features: seq<Feature>)
    requires QueueOk(queue, v)
    ensures QueueOk(queue.(ready := false, features := queue.features + features),
                    QueueStep(v, [], Enqueued(Ids(features))))
  {
    assert Ids(queue.features + features) == Ids(queue.features) + Ids(features);
  }

  lemma EnqueuedKept(s: State, features: seq<Feature>)
    requires Inv(s)
    ensures Inv(Note(s.(queue := s.queue.(ready := false, features := s.queue.features + features)),
        Enqueued(Ids(features))))
  {
    hide TidyOk, BlockOk, Watch, ConsoleOk, CaptureOk, SessionOk, ReplayOk, QueueOk;
    var queue := s.queue.(ready := false, features := s.queue.features + features);
    WatchNote(s.(queue := queue), Enqueued(Ids(features)));
    QueueEnqueued(s.queue, Watch(s.trace).queue, features);
    ConsoleElsewhere(s.queue, s.tidy, Watch(s.trace).console, queue);
  }

  lemma ConsoleElsewhere(queue: Queue, tidy: Tidy, v: ConsoleView, queue': Queue)
    requires ConsoleOk(queue, tidy, v) && queue.active == queue'.active
    ensures ConsoleOk(queue', tidy, v)
  {
  }

  lemma EnqueueRuntimeKept(s: State, features: seq<Feature>)
    requires Inv(s)
    ensures Inv(EnqueueRuntimeFeatures(s, features))
  {
    hide TidyOk, BlockOk, Watch, ConsoleOk, CaptureOk, SessionOk, ReplayOk, Settled, Quiet, Even, Transmitted;
    EnqueuedKept(s, features);
    assert s.queue.ready ==> s.queue.features == [] && features + s.queue.features == s.queue.features + features;
  }

  lemma StepKept(s: State, e: Event)
    requires Inv(s)
    ensures Inv(Step(s, e))
  {
    hide Core, Watch, Settled, Quiet, Even, Transmitted, OnState, OnOutput, OnPromptEcho, CallFeature,
         RecoverFeatureError,
         DispatchNext, RegisterCleanup, EnqueueRuntimeFeatures, ContinueAfterError, Restful;
    if s.status.raised {
      if e.Escaped? {
        ContinueAfterErrorKept(s);
        if ContinueAfterError(s).Some? {
          ClearedKept(ContinueAfterError(s).value);
        }
      }
    } else {
      match e
      case StateSeen(state, data) => OnStateKept(s, state, data);
      case OutputArrived(data, retained) => OnOutputKept(s, data, retained);
      case EchoSeen(data) => OnPromptEchoKept(s, data);
      case Ticked =>
        if !s.status.pendingError && s.queue.active.Some? {
          SettledTidied(s);
          CallFeatureKept(s, Tick);
        }
      case IdlePrompt =>
        RecoverFeatureErrorKept(s, true);
        DispatchNextKept(s);
      case Enqueue(features) => EnqueueRuntimeKept(s, features);
      case CleanupRegistered(id, action) => RegisterCleanupKept(s, id, [action]);
      case Thrown => RaiseKept(s);
      case Escaped(_) =>
    }
  }

  lemma InitKept(env: Env, continueOnError: bool)
    ensures Inv(Init(env, continueOnError))
  {
    hide TidyOk, BlockOk;
    assert Watch([]) == START;
    InitTidy(Init(env, continueOnError).flight, Init(env, continueOnError).tidy);
    InitBlock(Init(env, continueOnError).work, Init(env, continueOnError).flight);
  }

  lemma InitTidy(flight: Flight, tidy: Tidy)
    requires flight.inflight.None? && tidy == Tidy([], 0, map[], map[], None)
    ensures TidyOk(flight, tidy, START.tidy)
  {
  }

  lemma InitBlock(work: Work, flight: Flight)
    requires flight.inflight.None? && work.pending == [] && work.activeCommands == []
    ensures BlockOk(work, flight, START.session.sent, START.block)
  {
  }

  lemma StartKept(env: Env, continueOnError: bool, features: seq<Feature>)
    ensures Inv(Start(Init(env, continueOnError), features))
  {
    hide Inv;
    var s := Init(env, continueOnError);
    InitKept(env, continueOnError);
    EnqueuedKept(s, features);
    assert s.queue.(ready := false, features := s.queue.features + features)
        == s.queue.(features := s.queue.features + features);
  }

  /** The invariant holds after every run: any features, any strategies, any events. */
  lemma {:induction false} RunKept(env: Env, continueOnError: bool, features: seq<Feature>, events: seq<Event>)
    ensures Inv(Run(env, continueOnError, features, events))
    decreases |events|
  {
    hide Inv, Step;
    if events == [] {
      StartKept(env, continueOnError, features);
    } else {
      RunKept(env, continueOnError, features, events[..|events| - 1]);
      StepKept(Run(env, continueOnError, features, events[..|events| - 1]), events[|events| - 1]);
    }
  }
}