/**
 The scheduler of fortinet/common/fos_commander.py as a function of its state.

 `State` holds the fields of `FOSCommander`; each function below is the effect of
 the method of the same name. The class in Commander.dfy updates its fields in
 place and is proved equal to these functions; the theorems about whole runs are
 proved about them.

 A feature is a strategy: `act` says what its lifecycle callbacks do to the
 scheduler and `observe` what its observer callbacks answer, each as a function of
 everything the feature has been told since it was activated. `raised` stands for a
 Python exception on its way out of the current call.
 */
module CommanderSpec {
  import opened Text
  import opened CliCommands

  const MAX_COMMAND_RECOVERY_RETRIES: nat := 1
  const CONSOLE_INSPECT_LINE := "show full-configuration system console"
  const CONSOLE_STANDARD_LINE := "set output standard"
  const CONSOLE_MORE_LINE := "set output more"
  const ABORT := Plain("abort").(suppressOutput := true)

  /** One transmission of a command. `token` is the identity of a cleanup command. */
  datatype Attempt = Attempt(
    spec: CommandSpec,
    number: nat,
    epoch: nat,
    output: seq<byte>,
    before: Option<Context>,
    after: Option<Context>,
    blockIndex: Option<nat>,
    retryCount: nat,
    token: Option<nat>)

  datatype CleanupAction = CleanupAction(commands: seq<CommandSpec>, onCompletion: bool, onInterruption: bool)
  datatype CleanupCommand = CleanupCommand(spec: CommandSpec, token: nat)

  datatype Callback =
    | Activate
    | Executed(attempt: Attempt, state: CliState)
    | BlockComplete
    | StandardReady
    | Tick
    | Dispatched(attempt: Attempt)
    | OutputSeen(data: seq<byte>)
    | LostSession(attempt: Attempt)
    | LostContext(attempt: Attempt)

  /** What a lifecycle callback asks of the scheduler, in order. */
  datatype Op =
    | Submit(block: Command)
    | Complete
    | WithStandardOutput
    | Register(action: CleanupAction)

  datatype Reaction = Reaction(ops: seq<Op>, raises: bool)

  /** What an observer callback answers. */
  datatype Verdict =
    Verdict(raises: bool, registers: seq<CleanupAction>, loss: SessionLossAction, context: ContextLossAction)

  datatype Feature = Feature(id: nat, act: seq<Callback> -> Reaction, observe: seq<Callback> -> Verdict)

  datatype Phase = Inspect | SetStandard | Running

  datatype StandardOutput = StandardOutput(feature: nat, phase: Phase, restore: bool)

  datatype ConsoleMode = Undetermined | Standard | More

  /** The regular-expression searches the scheduler relies on. */
  datatype Env = Env(
    promptContext: seq<byte> -> Option<Context>,
    commandFailed: seq<byte> -> bool,
    consoleMode: seq<byte> -> ConsoleMode)

  /** How an attempt stopped being in flight. */
  datatype Ending = Credited | Rejected | Reset | Interrupted | Dropped

  /** What happened, in order: everything the theorems about whole runs speak of. */
  datatype Entry =
    | Enqueued(ids: seq<nat>)
    | Activated(id: nat)
    | Completed(id: nat)
    | Failed(who: Option<nat>)
    | Ready
    | Submitted(block: seq<CommandSpec>, context: Option<Context>)
    | Restarted(index: Option<nat>)
    | Abandoned
    | BlockDone
    | Took(attempt: Attempt)
    | Sent(attempt: Attempt)
    | Ended(attempt: Attempt, ending: Ending)
    | SessionEnded
    | SessionRestored
    | ErrorNoted(who: Option<nat>, activation: nat)
    | ErrorCleared
    | CleanupQueued(commands: seq<CommandSpec>)
    | Consumed(data: seq<byte>)
    | Nudged
    | ConsoleTaken
    | ConsoleChanged
    | ConsoleReleased(restoring: seq<CommandSpec>)

  /** The features: those waiting, the active one and what it has been told, and the outcome. */
  datatype Queue = Queue(
    features: seq<Feature>,
    active: Option<Feature>,
    history: seq<Callback>,
    ready: bool,
    startupComplete: bool,
    featureErrors: seq<Option<nat>>)

  /** The active block and its replay. */
  datatype Work = Work(
    activeCommands: seq<CommandSpec>,
    pending: seq<CommandSpec>,
    blockContext: Option<Context>,
    recoveryRetries: map<Option<nat>, nat>,
    replayTarget: Option<Context>,
    contextResetAttempted: bool)

  datatype Flight = Flight(inflight: Option<Attempt>, attemptNumber: nat, inCleanup: bool, inContextReset: bool)

  /** Cleanup commands, and the console output mode a feature borrowed. */
  datatype Tidy = Tidy(
    cleanup: seq<CleanupCommand>,
    nextToken: nat,
    cleanupActions: map<nat, seq<CleanupAction>>,
    cleanupRetries: map<nat, nat>,
    standardOutput: Option<StandardOutput>)

  datatype Session = Session(
    epoch: nat,
    recovering: bool,
    authenticatedOnce: bool,
    currentState: Option<CliState>,
    promptContext: Option<Context>)

  datatype Status = Status(continueOnError: bool, pendingError: bool, callbackFailed: bool, raised: bool)

  datatype State = State(
    env: Env,
    queue: Queue,
    work: Work,
    flight: Flight,
    tidy: Tidy,
    session: Session,
    status: Status,
    trace: seq<Entry>)

  function Init(env: Env, continueOnError: bool): State {
    State(env,
          Queue([], None, [], false, false, []),
          Work([], [], None, map[], None, false),
          Flight(None, 0, false, false),
          Tidy([], 0, map[], map[], None),
          Session(0, false, false, None, None),
          Status(continueOnError, false, false, false),
          [])
  }

  function Note(s: State, e: Entry): State {
    s.(trace := s.trace + [e])
  }

  function Lookup<K>(m: map<K, nat>, k: K): nat {
    if k in m then m[k] else 0
  }

  function Ids(features: seq<Feature>): (ids: seq<nat>)
    ensures |ids| == |features|
  {
    seq(|features|, i requires 0 <= i < |features| => features[i].id)
  }

  predicate Busy(s: State) {
    s.flight.inflight.Some? || s.work.pending != [] || s.tidy.cleanup != []
  }

  predicate IsActive(s: State, id: nat) {
    s.queue.active.Some? && s.queue.active.value.id == id
  }

  function Raise(s: State): State {
    s.(status := s.status.(raised := true))
  }

  // ----- errors

  /** How many features were activated. */
  function Activations(t: seq<Entry>): nat {
    if t == [] then 0 else Activations(t[..|t| - 1]) + if t[|t| - 1].Activated? then 1 else 0
  }

  function ActiveId(queue: Queue): Option<nat> {
    if queue.active.Some? then Some(queue.active.value.id) else None
  }

  /** `_handle_work_error`; on record is whose error it is, and which activation of that feature. */
  function NoteError(s: State, who: Option<nat>, activation: nat): State {
    if !s.status.continueOnError then Raise(s)
    else Note(s.(status := s.status.(pendingError := true, callbackFailed := true)), ErrorNoted(who, activation))
  }

  /** An error in the scheduler's own work: the active feature's, or nobody's during cleanup. */
  function HandleWorkError(s: State): State {
    NoteError(s, if s.flight.inCleanup then None else ActiveId(s.queue), Activations(s.trace))
  }

  // ----- cleanup and the console output mode

  function Tokened(specs: seq<CommandSpec>, token: nat): (commands: seq<CleanupCommand>)
    ensures |commands| == |specs|
  {
    seq(|specs|, i requires 0 <= i < |specs| => CleanupCommand(specs[i], token + i))
  }

  /** The cleanup queue extended at its end. */
  function Queued(tidy: Tidy, specs: seq<CommandSpec>): Tidy {
    tidy.(cleanup := tidy.cleanup + Tokened(specs, tidy.nextToken), nextToken := tidy.nextToken + |specs|)
  }

  function QueueCleanup(s: State, specs: seq<CommandSpec>): State {
    Note(s.(tidy := Queued(s.tidy, specs)), CleanupQueued(specs))
  }

  /** The commands of the actions that apply, in registration order. */
  function DueCommands(actions: seq<CleanupAction>, completion: bool): seq<CommandSpec> {
    if actions == [] then []
    else
      var due := if completion then actions[0].onCompletion else actions[0].onInterruption;
      (if due then actions[0].commands else []) + DueCommands(actions[1..], completion)
  }

  function ScheduleFeatureCleanup(s: State, id: nat, completion: bool): State {
    if id in s.tidy.cleanupActions then
      QueueCleanup(s.(tidy := s.tidy.(cleanupActions := s.tidy.cleanupActions - {id})),
                   DueCommands(s.tidy.cleanupActions[id], completion))
    else s
  }

  function RegisterCleanup(s: State, id: nat, actions: seq<CleanupAction>): State {
    if actions == [] then s
    else
      var known := if id in s.tidy.cleanupActions then s.tidy.cleanupActions[id] else [];
      s.(tidy := s.tidy.(cleanupActions := s.tidy.cleanupActions[id := known + actions]))
  }

  const CONSOLE_RESTORE := Flatten(ConfigBlock("system console", [Literal(CONSOLE_MORE_LINE)]))

  function FinishStandardOutput(s: State, id: nat): State {
    if s.tidy.standardOutput.None? || s.tidy.standardOutput.value.feature != id then s
    else
      var owed := if s.tidy.standardOutput.value.restore then CONSOLE_RESTORE else [];
      Note(s.(tidy := Queued(s.tidy, owed).(standardOutput := None)), ConsoleReleased(owed))
  }

  // ----- blocks

  function SubmitBlock(s: State, id: nat, block: Command): State {
    var commands := Flatten(block);
    if !IsActive(s, id) || Busy(s) || !Sendable(commands) then Raise(s)
    else
      Note(s.(work := Work(commands, commands, s.session.promptContext, map[], None, false)),
           Submitted(commands, s.session.promptContext))
  }

  const CONSOLE_INSPECT :=
    Sequence("console-output-inspect",
             [Spec(Plain(CONSOLE_INSPECT_LINE).(captureOutput := true, suppressOutput := true))])

  function WithStandardOutputOp(s: State, id: nat): State {
    if !IsActive(s, id) || Busy(s) || s.tidy.standardOutput.Some? then Raise(s)
    else
      SubmitBlock(
        Note(s.(tidy := s.tidy.(standardOutput := Some(StandardOutput(id, Inspect, false)))), ConsoleTaken), id,
        CONSOLE_INSPECT)
  }

  // ----- callbacks, completion and activation: mutually recursive, bounded by the waiting queue

  /** `_call_feature` around a lifecycle callback of the active feature. */
  function CallFeature(s: State, callback: Callback): (r: State)
    requires s.queue.active.Some?
    ensures |r.queue.features| <= |s.queue.features| && s.trace <= r.trace && r.flight == s.flight
    decreases |s.queue.features|, 3, 0
  {
    var f := s.queue.active.value;
    var history := s.queue.history + [callback];
    var reaction := f.act(history);
    var s1 := RunOps(s.(queue := s.queue.(history := history)), f.id, reaction.ops);
    if s1.status.raised || reaction.raises then
      NoteError(s1.(status := s1.status.(raised := false)), Some(f.id), Activations(s.trace))
    else s1
  }

  function RunOps(s: State, id: nat, ops: seq<Op>): (r: State)
    ensures |r.queue.features| <= |s.queue.features| && s.trace <= r.trace && r.flight == s.flight
    decreases |s.queue.features|, 2, |ops|
  {
    if s.status.raised || ops == [] then s
    else RunOps(ApplyOp(s, id, ops[0]), id, ops[1..])
  }

  function ApplyOp(s: State, id: nat, op: Op): (r: State)
    ensures |r.queue.features| <= |s.queue.features| && s.trace <= r.trace && r.flight == s.flight
    decreases |s.queue.features|, 1, 1
  {
    match op
    case Submit(block) => SubmitBlock(s, id, block)
    case Complete => FeatureComplete(s, id)
    case WithStandardOutput => WithStandardOutputOp(s, id)
    case Register(action) => RegisterCleanup(s, id, [action])
  }

  function Retire(s: State): (r: State)
    requires s.queue.active.Some?
    ensures r.queue.features == s.queue.features && s.trace <= r.trace && r.flight == s.flight
  {
    var id := s.queue.active.value.id;
    var s1 := ScheduleFeatureCleanup(FinishStandardOutput(s, id), id, true);
    Note(s1.(queue := s1.queue.(active := None), work := s1.work.(activeCommands := [])), Completed(id))
  }

  function FeatureComplete(s: State, id: nat): (r: State)
    ensures |r.queue.features| <= |s.queue.features| && s.trace <= r.trace && r.flight == s.flight
    decreases |s.queue.features|, 1, 0
  {
    if !IsActive(s, id) then s
    else if Busy(s) then Raise(s)
    else
      var s1 := Retire(s);
      if s1.tidy.cleanup == [] then ActivateNextFeature(s1) else s1
  }

  function ActivateNextFeature(s: State): (r: State)
    ensures |r.queue.features| <= |s.queue.features| && s.trace <= r.trace && r.flight == s.flight
    decreases |s.queue.features|, 0, 0
  {
    if s.queue.ready || s.queue.active.Some? || s.session.recovering then s
    else if s.queue.features == [] then
      if s.tidy.cleanup != [] then s
      else Note(s.(queue := s.queue.(ready := true, startupComplete := true)), Ready)
    else
      var s1 :=
        Note(s.(queue := s.queue.(active := Some(s.queue.features[0]), features := s.queue.features[1..],
                                  history := [])),
             Activated(s.queue.features[0].id));
      if s.status.pendingError then s1 else CallFeature(s1, Activate)
  }

  /** `_call_feature` around an observer callback of the active feature. */
  function Observe(s: State, callback: Callback): State
    requires s.queue.active.Some?
  {
    var f := s.queue.active.value;
    var verdict := VerdictOf(s, callback);
    var s1 := RegisterCleanup(s.(queue := s.queue.(history := s.queue.history + [callback])), f.id, verdict.registers);
    if verdict.raises then NoteError(s1, Some(f.id), Activations(s.trace)) else s1
  }

  function VerdictOf(s: State, callback: Callback): Verdict
    requires s.queue.active.Some?
  {
    s.queue.active.value.observe(s.queue.history + [callback])
  }

  // ----- dispatch

  /** The first half of `_dispatch_command`: the command becomes the one in flight. */
  function TakeCommand(s: State, spec: CommandSpec, blockIndex: Option<nat>, token: Option<nat>): State {
    var number := s.flight.attemptNumber + 1;
    var retries :=
      if !s.flight.inCleanup then Lookup(s.work.recoveryRetries, blockIndex)
      else if token.Some? then Lookup(s.tidy.cleanupRetries, token.value)
      else 0;
    var attempt :=
      Attempt(spec, number, s.session.epoch, [], s.session.promptContext, None, blockIndex, retries, token);
    Note(s.(flight := s.flight.(attemptNumber := number, inflight := Some(attempt))), Took(attempt))
  }

  /** The second half: the feature is told, and unless it fails the line is written. */
  function TransmitCommand(s: State): State
    requires s.flight.inflight.Some?
  {
    var a := s.flight.inflight.value;
    if s.queue.active.Some? && !s.flight.inContextReset then
      var s1 := Observe(s, Dispatched(a));
      if s1.status.raised || s1.status.pendingError then s1 else Note(s1, Sent(a))
    else Note(s, Sent(a))
  }

  function DispatchCommand(s: State, spec: CommandSpec, blockIndex: Option<nat>, token: Option<nat>): State {
    TransmitCommand(TakeCommand(s, spec, blockIndex, token))
  }

  /** The command in flight, if any, is given up. */
  function DropInflight(s: State): State {
    if s.flight.inflight.None? then s
    else
      Note(s.(flight := s.flight.(inflight := None, inContextReset := false)),
           Ended(s.flight.inflight.value, Dropped))
  }

  /** The failed feature, or the failed cleanup, is struck off. */
  function StrikeOff(s: State): State {
    if s.queue.active.Some? then
      var id := s.queue.active.value.id;
      var s1 := ScheduleFeatureCleanup(FinishStandardOutput(s, id), id, false);
      Note(s1.(queue := s1.queue.(active := None, featureErrors := s1.queue.featureErrors + [Some(id)]),
               work := s1.work.(activeCommands := [], pending := [], replayTarget := None),
               flight := s1.flight.(inCleanup := false),
               tidy := s1.tidy.(cleanupRetries := map[])),
           Failed(Some(id)))
    else
      Note(s.(queue := s.queue.(featureErrors := s.queue.featureErrors + [None]),
              work := s.work.(replayTarget := None),
              flight := s.flight.(inCleanup := false),
              tidy := s.tidy.(cleanupRetries := map[])),
           Failed(None))
  }

  /** `continue_after_error` at a command prompt; `None` when nothing can be skipped. */
  function ContinueAfterError(s: State): Option<State> {
    if s.queue.ready || (s.queue.active.None? && !s.flight.inCleanup) then None
    else Some(StrikeOff(DropInflight(s)))
  }

  function RecoverFeatureError(s: State, atIdlePrompt: bool): State
    decreases 1, 0
  {
    if !s.status.pendingError || (s.session.currentState != Some(CmdPrompt) && !atIdlePrompt) then s
    else
      match ContinueAfterError(s)
      case None => s
      case Some(s1) => DispatchNext(Note(s1.(status := s1.status.(pendingError := false)), ErrorCleared))
  }

  /** `_restore_replay_context`: the new state and whether dispatch may go on. */
  function RestoreReplayContext(s: State): (State, bool)
    requires s.work.replayTarget.Some?
    decreases 1, 1
  {
    if s.session.promptContext == s.work.replayTarget then (s.(work := s.work.(replayTarget := None)), true)
    else if s.work.contextResetAttempted then
      var s1 := HandleWorkError(s);
      (if s1.status.raised || !s1.status.pendingError then s1 else RecoverFeatureError(s1, false), false)
    else
      var s1 := s.(work := s.work.(contextResetAttempted := true), flight := s.flight.(inContextReset := true));
      (DispatchCommand(s1, ABORT, None, None), false)
  }

  function DispatchNext(s: State): State
    decreases if s.work.replayTarget.Some? then 2 else 0, 0
  {
    if s.flight.inflight.Some? || s.session.recovering || s.status.pendingError then s
    else if s.work.replayTarget.Some? then
      var (s1, proceed) := RestoreReplayContext(s);
      if proceed then DispatchReady(s1) else s1
    else DispatchReady(s)
  }

  /** The rest of `_dispatch_next`, once no replay context is outstanding. */
  function DispatchReady(s: State): State {
    if s.tidy.cleanup == [] && s.queue.active.None? then
      var s1 := ActivateNextFeature(s);
      if s1.status.raised || s1.queue.active.None? then s1 else DispatchOne(s1)
    else DispatchOne(s)
  }

  /** A cleanup command, the end of the block, or its next command. */
  function DispatchOne(s: State): State {
    if s.tidy.cleanup != [] then
      var s1 := s.(tidy := s.tidy.(cleanup := s.tidy.cleanup[1..]), flight := s.flight.(inCleanup := true));
      DispatchCommand(s1, s.tidy.cleanup[0].spec, None, Some(s.tidy.cleanup[0].token))
    else if s.work.pending == [] then
      if s.queue.active.Some? then CallFeature(Note(s, BlockDone), BlockComplete) else Raise(s)
    else
      var s1 := s.(work := s.work.(pending := s.work.pending[1..]), flight := s.flight.(inCleanup := false));
      var index := |s1.work.activeCommands| - |s1.work.pending| - 1;
      DispatchCommand(s1, s.work.pending[0], if index >= 0 then Some(index) else None, None)
  }

  // ----- completion

  predicate ContextChanged(a: Attempt) {
    a.before.Some? && a.after.Some? && a.before != a.after && !a.spec.MayChangeContext()
  }

  /** `_validate_completion` accepts the completion. */
  predicate Validates(env: Env, a: Attempt, state: CliState) {
    && !((a.spec.ClosesScope() || a.spec.failOnError) && env.commandFailed(a.output))
    && (a.spec.expected.Some? ==> a.spec.expected.value == state)
  }

  function RestartActiveBlock(s: State, a: Attempt): State {
    var retries := Lookup(s.work.recoveryRetries, a.blockIndex);
    if retries >= MAX_COMMAND_RECOVERY_RETRIES then HandleWorkError(s)
    else
      Note(s.(work := s.work.(recoveryRetries := s.work.recoveryRetries[a.blockIndex := retries + 1],
                              pending := s.work.activeCommands,
                              replayTarget := s.work.blockContext, contextResetAttempted := false)),
           Restarted(a.blockIndex))
  }

  function HandleContextLoss(s: State, a: Attempt): State {
    if s.flight.inCleanup then HandleWorkError(s)
    else if s.queue.active.None? then Raise(s)
    else
      var action := VerdictOf(s, LostContext(a)).context;
      var s1 := Observe(s, LostContext(a));
      if s1.status.raised || s1.status.pendingError then s1
      else if action == Restart then RestartActiveBlock(s1, a)
      else HandleWorkError(s1)
  }

  /** The session of every earlier command is over. */
  function EndSession(s: State): State {
    Note(s.(session := s.session.(epoch := s.session.epoch + 1, recovering := true)), SessionEnded)
  }

  function RestoreSession(s: State): State {
    if s.session.recovering then
      Note(s.(session := s.session.(authenticatedOnce := true, recovering := false)), SessionRestored)
    else s.(session := s.session.(authenticatedOnce := true))
  }

  function HandleSessionLoss(s: State): State {
    if s.flight.inflight.None? then EndSession(s)
    else
      var a := s.flight.inflight.value;
      if s.flight.inContextReset then
        EndSession(Note(s.(flight := s.flight.(inflight := None, inContextReset := false)), Ended(a, Interrupted)))
      else if s.flight.inCleanup then RetryCleanup(s, a)
      else HandleBlockLoss(EndSession(Note(s.(flight := s.flight.(inflight := None)), Ended(a, Interrupted))), a)
  }

  /** The cleanup queue with an interrupted command back at its head, one retry used up. */
  function Requeued(tidy: Tidy, spec: CommandSpec, token: nat): (r: Tidy)
    ensures r.standardOutput == tidy.standardOutput && r.cleanup != []
  {
    tidy.(cleanupRetries := tidy.cleanupRetries[token := Lookup(tidy.cleanupRetries, token) + 1],
          cleanup := [CleanupCommand(spec, token)] + tidy.cleanup)
  }

  /** A cleanup command goes back to the head of its queue, a bounded number of times. */
  function RetryCleanup(s: State, a: Attempt): State {
    if a.token.None? || Lookup(s.tidy.cleanupRetries, a.token.value) >= MAX_COMMAND_RECOVERY_RETRIES then
      HandleWorkError(EndSession(Note(s.(flight := s.flight.(inflight := None)), Ended(a, Dropped))))
    else
      EndSession(
        Note(s.(flight := s.flight.(inflight := None, inCleanup := false),
                tidy := Requeued(s.tidy, a.spec, a.token.value)),
             Ended(a, Interrupted)))
  }

  /** A command of the active block was lost: the feature decides what becomes of the block. */
  function HandleBlockLoss(s: State, a: Attempt): State {
    if s.queue.active.None? then Raise(s)
    else
      var s1 := ScheduleFeatureCleanup(s, s.queue.active.value.id, false);
      if s1.queue.active.None? then Raise(s1)
      else
        var action := VerdictOf(s1, LostSession(a)).loss;
        var s2 := Observe(s1, LostSession(a));
        if s2.status.raised || s2.status.pendingError then s2
        else
          match action
          case RestartBlock => RestartActiveBlock(s2, a)
          case Fail => HandleWorkError(s2)
          case _ => Note(s2.(work := s2.work.(pending := [])), Abandoned)
  }

  predicate IsStandardOutputCommand(s: State, spec: CommandSpec) {
    && s.tidy.standardOutput.Some?
    && (|| spec.line == CONSOLE_INSPECT_LINE
        || (s.tidy.standardOutput.value.phase == SetStandard && s.work.pending == []))
  }

  function StartStandardOutputCallback(s: State): State
    requires s.tidy.standardOutput.Some?
  {
    var s1 := s.(tidy := s.tidy.(standardOutput := Some(s.tidy.standardOutput.value.(phase := Running))));
    if s1.queue.active.Some? then CallFeature(s1, StandardReady) else Raise(s1)
  }

  const CONSOLE_STANDARD := ConfigBlock("system console", [Literal(CONSOLE_STANDARD_LINE)])

  function CompleteStandardOutputCommand(s: State, a: Attempt): State
    requires s.tidy.standardOutput.Some?
  {
    var context := s.tidy.standardOutput.value;
    if a.spec.line == CONSOLE_INSPECT_LINE then
      if s.env.consoleMode(a.output) != More then StartStandardOutputCallback(s)
      else
        SubmitBlock(s.(tidy := s.tidy.(standardOutput := Some(context.(phase := SetStandard)))),
                    context.feature, CONSOLE_STANDARD)
    else if context.phase == SetStandard then
      var s1 := s.(tidy := s.tidy.(standardOutput := Some(context.(restore := true))));
      StartStandardOutputCallback(if context.restore then s1 else Note(s1, ConsoleChanged))
    else s
  }

  /** The states after which the scheduler may send the next command. */
  predicate Dispatchable(state: CliState) {
    state in [CmdPrompt, Confirmation, MultilinePrompt]
  }

  function CompleteInflight(s: State, state: CliState): State
    requires s.flight.inflight.Some?
  {
    var a := s.flight.inflight.value.(after := s.session.promptContext);
    var s0 := s.(flight := s.flight.(inflight := None));
    if s.flight.inContextReset then
      DispatchNext(Note(s0.(flight := s0.flight.(inContextReset := false)), Ended(a, Reset)))
    else if state == CmdPrompt && ContextChanged(a) then
      var s1 := HandleContextLoss(Note(s0, Ended(a, Rejected)), a);
      if s1.status.raised then s1
      else if s1.status.pendingError then RecoverFeatureError(s1, false) else DispatchNext(s1)
    else if !Validates(s.env, a, state) then
      var s1 := Note(s0, Ended(a, Rejected));
      if state != CmdPrompt then Raise(s1)
      else
        var s2 := HandleWorkError(s1);
        if s2.status.raised || !s2.status.pendingError then s2 else RecoverFeatureError(s2, false)
    else if s.flight.inCleanup then
      var retries := if a.token.Some? then s.tidy.cleanupRetries - {a.token.value} else s.tidy.cleanupRetries;
      DispatchNext(Note(s0.(tidy := s0.tidy.(cleanupRetries := retries), flight := s0.flight.(inCleanup := false)),
                        Ended(a, Credited)))
    else CompleteCredited(Note(s0, Ended(a, Credited)), a, state)
  }

  /** The rest of `_complete_inflight`, for a block command whose completion is accepted. */
  function CompleteCredited(s: State, a: Attempt, state: CliState): State {
    if IsStandardOutputCommand(s, a.spec) then
      var s1 := CompleteStandardOutputCommand(s, a);
      if s1.status.raised || s1.status.pendingError || s1.session.recovering then s1 else DispatchNext(s1)
    else if s.queue.active.None? then Raise(s)
    else
      var id := s.queue.active.value.id;
      var s1 := CallFeature(s, Executed(a, state));
      if s1.status.raised || s1.status.pendingError then s1 else FinishCommand(s1, id, state)
  }

  /** The feature has seen the result: the block may be complete, and the next command may be due. */
  function FinishCommand(s: State, id: nat, state: CliState): State {
    var s1 := if !Busy(s) && IsActive(s, id) then CallFeature(Note(s, BlockDone), BlockComplete) else s;
    if s1.status.raised || s1.session.recovering || !Dispatchable(state) then s1 else DispatchNext(s1)
  }

  // ----- events

  /**
   Output is handed over. `retained` bytes still lie in the terminal buffer and are
   consumed only when somebody discards them; other bytes left it when they matched.
   */
  function OnOutput(s: State, data: seq<byte>, retained: bool): State {
    if data == [] then s
    else if s.flight.inflight.Some? && s.flight.inflight.value.spec.Captures() then
      var a := s.flight.inflight.value;
      Note(s.(flight := s.flight.(inflight := Some(a.(output := a.output + data)))), Consumed(data))
    else
      var s1 := if Discards(s, data, retained) then Note(s, Consumed(data)) else s;
      if s1.flight.inflight.Some? && s1.queue.active.Some? then Observe(s1, OutputSeen(data)) else s1
  }

  /** The bytes leave the buffer although no command captures them. */
  predicate Discards(s: State, data: seq<byte>, retained: bool) {
    || !retained
    || (s.session.recovering
        && (s.flight.inflight.Some? && s.queue.active.Some? && VerdictOf(s, OutputSeen(data)).raises
            ==> s.status.continueOnError))
  }

  /** The bytes of `data` that `on_output` consumes. */
  function Taken(s: State, data: seq<byte>, retained: bool): seq<byte> {
    if (s.flight.inflight.Some? && s.flight.inflight.value.spec.Captures()) || Discards(s, data, retained) then data
    else []
  }

  function OnPromptEcho(s: State, data: seq<byte>): State {
    var captured := s.flight.inflight.Some? && s.flight.inflight.value.spec.Captures();
    var s1 := OnOutput(s, data, false);
    if s1.status.raised || (data != [] && (captured || s.session.recovering)) then s1
    else Note(s1, Nudged)
  }

  /** What every state does before its own handling: note the state, and what a prompt proves. */
  function NoteState(s: State, state: CliState, data: seq<byte>): State {
    var s0 := s.(session := s.session.(currentState := Some(state)), status := s.status.(callbackFailed := false));
    if state == CmdPrompt then
      var context := s.env.promptContext(data);
      RestoreSession(if context.Some? then s0.(session := s0.session.(promptContext := context)) else s0)
    else s0
  }

  function OnState(s: State, state: CliState, data: seq<byte>): State {
    var s1 := NoteState(s, state, data);
    if s1.status.pendingError then
      var s2 := Note(s1, Consumed(data));
      if state == CmdPrompt then RecoverFeatureError(s2, false)
      else if state == SessionLost then EndSession(s2)
      else if state == CredentialAccepted then RestoreSession(s2)
      else s2
    else
      var s2 := OnOutput(s1, data, false);
      if s2.status.raised then s2
      else if s2.status.callbackFailed || s2.status.pendingError then
        if state == CmdPrompt then RecoverFeatureError(s2, false) else s2
      else HandleState(s2, state)
  }

  /** The rest of `on_state`, once the output has been handed over without an error. */
  function HandleState(s: State, state: CliState): State {
    if state == SessionLost || (state == ProvideUsername && s.session.authenticatedOnce) then HandleSessionLoss(s)
    else if state == CredentialAccepted then RestoreSession(s)
    else if s.flight.inflight.Some? && state in s.flight.inflight.value.spec.Completes() then CompleteInflight(s, state)
    else
      var s1 := if state == CmdPrompt && !s.session.recovering then DispatchNext(s) else s;
      if !s1.status.raised && s1.status.callbackFailed && state == CmdPrompt then RecoverFeatureError(s1, false) else s1
  }

  function OnIdlePrompt(s: State): State {
    if s.flight.inflight.Some? || s.session.recovering then s
    else if s.status.pendingError then RecoverFeatureError(s, true)
    else if s.work.pending != [] || s.tidy.cleanup != [] || s.queue.active.None? then DispatchNext(s)
    else s
  }

  function OnTick(s: State): State {
    if s.status.pendingError || s.queue.active.None? then s else CallFeature(s, Tick)
  }

  function Start(s: State, features: seq<Feature>): State {
    Note(s.(queue := s.queue.(features := s.queue.features + features)), Enqueued(Ids(features)))
  }

  function EnqueueRuntimeFeatures(s: State, features: seq<Feature>): State {
    if !s.queue.ready || Busy(s) then s
    else Note(s.(queue := s.queue.(ready := false, features := features + s.queue.features)), Enqueued(Ids(features)))
  }

  /** The launcher's reaction to an exception that left the driver (fortinet/common/launch.py). */
  function OnEscape(s: State, atPrompt: bool): State {
    if !s.status.raised || !s.status.continueOnError || s.queue.startupComplete || !atPrompt then s
    else
      match ContinueAfterError(s)
      case None => s
      case Some(s1) => s1.(status := s1.status.(raised := false))
  }

  /** What the driver and the launcher do to the scheduler; `Thrown` is an exception of the driver's own. */
  datatype Event =
    | StateSeen(state: CliState, data: seq<byte>)
    | OutputArrived(data: seq<byte>, retained: bool)
    | EchoSeen(data: seq<byte>)
    | Ticked
    | IdlePrompt
    | Enqueue(features: seq<Feature>)
    | CleanupRegistered(id: nat, action: CleanupAction)
    | Thrown
    | Escaped(atPrompt: bool)

  /** One event. While an exception is out, only the launcher's handler may act. */
  function Step(s: State, e: Event): State {
    if s.status.raised then (if e.Escaped? then OnEscape(s, e.atPrompt) else s)
    else
      match e
      case StateSeen(state, data) => OnState(s, state, data)
      case OutputArrived(data, retained) => OnOutput(s, data, retained)
      case EchoSeen(data) => OnPromptEcho(s, data)
      case Ticked => OnTick(s)
      case IdlePrompt => OnIdlePrompt(s)
      case Enqueue(features) => EnqueueRuntimeFeatures(s, features)
      case CleanupRegistered(id, action) => RegisterCleanup(s, id, [action])
      case Thrown => Raise(s)
      case Escaped(_) => s
  }

  /** A whole run: the events in order, from a commander that was started with `features`. */
  function Run(env: Env, continueOnError: bool, features: seq<Feature>, events: seq<Event>): State
    decreases |events|
  {
    if events == [] then Start(Init(env, continueOnError), features)
    else Step(Run(env, continueOnError, features, events[..|events| - 1]), events[|events| - 1])
  }
}
