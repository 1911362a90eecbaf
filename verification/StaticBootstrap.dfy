/**
 Whole-run functional correctness: `StaticFeature`s (fortinet/common/features/base.py)
 with non-empty blocks, and a device that answers every command as it should, whatever else
 happens meanwhile: ticks, timeouts, partial output, prompts with stray text, other states.
 */
module StaticBootstrap {
  import opened Text
  import opened CliCommands
  import opened CommanderSpec

  /** The blocks a `StaticFeature` was constructed with. */
  datatype Plan = Plan(id: nat, blocks: seq<Command>)

  /** How often `_submit_next` has been called: by `activate` and by `on_block_complete`. */
  function Turns(history: seq<Callback>): nat {
    if history == [] then 0
    else
      var last := history[|history| - 1];
      Turns(history[..|history| - 1]) + if last == Activate || last == BlockComplete then 1 else 0
  }

  /** `_submit_next`: pop the next block and submit it, or complete when none is left. */
  function StaticReaction(blocks: seq<Command>, history: seq<Callback>): Reaction {
    if history == [] then Reaction([], false)
    else
      var last := history[|history| - 1];
      var popped := Turns(history[..|history| - 1]);
      if last != Activate && last != BlockComplete then Reaction([], false)
      else if popped < |blocks| then Reaction([Submit(blocks[popped])], false)
      else Reaction([Complete], false)
  }

  /** The base class answers losses with the command's own policy. */
  function DefaultVerdict(history: seq<Callback>): Verdict {
    if history == [] then Verdict(false, [], RestartBlock, Restart)
    else
      match history[|history| - 1]
      case LostSession(a) => Verdict(false, [], a.spec.sessionLoss, Restart)
      case LostContext(a) => Verdict(false, [], RestartBlock, a.spec.contextLoss)
      case _ => Verdict(false, [], RestartBlock, Restart)
  }

  function StaticFeature(plan: Plan): Feature {
    Feature(plan.id, history => StaticReaction(plan.blocks, history), DefaultVerdict)
  }

  /** The blocks left after `turns` calls of `_submit_next`. */
  function BlocksLeft(blocks: seq<Command>, turns: nat): seq<Command> {
    if turns <= |blocks| then blocks[turns..] else []
  }

  /** `StaticFeature` itself, which pops its blocks off a list as it is told to go on. */
  class BlockFeature {
    ghost const plan: Plan
    var blocks: seq<Command>
    ghost var told: seq<Callback>

    ghost predicate Valid()
      reads this
    {
      blocks == BlocksLeft(plan.blocks, Turns(told))
    }

    constructor (plan: Plan)
      ensures Valid() && this.plan == plan && told == []
    {
      this.plan := plan;
      blocks := plan.blocks;
      told := [];
    }

    /** A lifecycle callback: the object answers what the strategy answers to its whole history. */
    method React(callback: Callback) returns (reaction: Reaction)
      requires Valid()
      modifies this
      ensures Valid() && told == old(told) + [callback]
      ensures reaction == StaticFeature(plan).act(told)
    {
      assert (told + [callback])[..|told|] == told;
      told := told + [callback];
      if callback != Activate && callback != BlockComplete {
        return Reaction([], false);
      }
      if blocks == [] {
        return Reaction([Complete], false);
      }
      var block := blocks[0];
      blocks := blocks[1..];
      return Reaction([Submit(block)], false);
    }
  }

  function Statics(plans: seq<Plan>): (features: seq<Feature>)
    ensures |features| == |plans|
  {
    seq(|plans|, i requires 0 <= i < |plans| => StaticFeature(plans[i]))
  }

  function BlockLines(blocks: seq<Command>): seq<string> {
    if blocks == [] then [] else LinesOf(Flatten(blocks[0])) + BlockLines(blocks[1..])
  }

  /** All the lines of all the blocks, in feature order. */
  function Script(plans: seq<Plan>): seq<string> {
    if plans == [] then [] else BlockLines(plans[0].blocks) + Script(plans[1..])
  }

  /** Every block has at least one command, and every command is one line. */
  predicate Proper(plan: Plan) {
    forall i :: 0 <= i < |plan.blocks| ==> Flatten(plan.blocks[i]) != [] && Sendable(Flatten(plan.blocks[i]))
  }

  /** The command lines written, in order. */
  function SentLines(t: seq<Entry>): seq<string> {
    if t == [] then []
    else SentLines(t[..|t| - 1]) + if t[|t| - 1].Sent? then [t[|t| - 1].attempt.spec.line] else []
  }

  lemma SentMore(t: seq<Entry>, e: Entry)
    ensures SentLines(t + [e]) == SentLines(t) + if e.Sent? then [e.attempt.spec.line] else []
  {
    assert (t + [e])[..|t|] == t;
  }

  /** The device answers the command in flight as it should. */
  ghost predicate Agrees(s: State, state: CliState, data: seq<byte>)
    requires s.flight.inflight.Some?
  {
    var context := s.env.promptContext(data);
    var a := s.flight.inflight.value;
    var answered := a.(output := if a.spec.Captures() then a.output + data else a.output,
                       after := if state == CmdPrompt && context.Some? then context else s.session.promptContext);
    && Dispatchable(state) && state in a.spec.Completes() && Validates(s.env, answered, state)
    && (state == CmdPrompt ==> !ContextChanged(answered))
  }

  /** A state that neither answers the command in flight nor ends its session. */
  predicate Aside(s: State, state: CliState)
    requires s.flight.inflight.Some?
  {
    && state !in s.flight.inflight.value.spec.Completes() && state != SessionLost
    && !(state == ProvideUsername && s.session.authenticatedOnce)
  }

  /**
   What a device that serves the features well, and the driver in front of it, may do at any moment.
   While no command is in flight every state is welcome; a state that meets a command in flight either
   answers it or leaves it alone. Nothing of the rest is restricted, but that no exception comes from
   outside and no more features or cleanup commands are handed over.
   */
  ghost predicate Friendly(s: State, e: Event) {
    match e
    case StateSeen(state, data) => s.flight.inflight.Some? ==> Agrees(s, state, data) || Aside(s, state)
    case Enqueue(_) => !s.queue.ready
    case CleanupRegistered(_, _) => false
    case Thrown => false
    case _ => true
  }

  ghost predicate Obliging(env: Env, continueOnError: bool, features: seq<Feature>, events: seq<Event>)
    decreases |events|
  {
    events != [] ==>
      var before := events[..|events| - 1];
      && Obliging(env, continueOnError, features, before)
      && Friendly(Run(env, continueOnError, features, before), events[|events| - 1])
  }

  /** The event makes the scheduler go on: the first prompt, or the answer to the command in flight. */
  ghost predicate Answers(s: State, e: Event) {
    if s.flight.inflight.Some? then e.StateSeen? && Agrees(s, e.state, e.data)
    else
      && !s.queue.ready
      && ((e.StateSeen? && e.state == CmdPrompt) || (e.IdlePrompt? && !s.session.recovering))
  }

  ghost function AnswersIn(env: Env, continueOnError: bool, features: seq<Feature>, events: seq<Event>): nat
    decreases |events|
  {
    if events == [] then 0
    else
      var before := events[..|events| - 1];
      AnswersIn(env, continueOnError, features, before)
      + if Answers(Run(env, continueOnError, features, before), events[|events| - 1]) then 1 else 0
  }

  /** No error, no recovery, no cleanup, no replay. */
  ghost predicate Calm(s: State) {
    && !s.status.raised && !s.status.pendingError && !s.status.callbackFailed && !s.session.recovering
    && s.tidy.cleanup == [] && s.tidy.cleanupActions == map[] && s.tidy.standardOutput.None?
    && s.work.replayTarget.None? && !s.flight.inCleanup && !s.flight.inContextReset
  }

  /** The plan's feature is active, `turn` of its blocks were submitted, `pending` is left of the last. */
  ghost predicate Working(s: State, plan: Plan, turn: nat, rest: seq<Plan>) {
    && Calm(s) && !s.queue.ready && s.queue.features == Statics(rest)
    && s.queue.active == Some(StaticFeature(plan)) && Turns(s.queue.history) == turn
    && 1 <= turn <= |plan.blocks| && |s.work.pending| <= |s.work.activeCommands|
  }

  ghost predicate AllDone(s: State) {
    Calm(s) && s.queue.ready && s.queue.features == [] && s.queue.active.None? && s.flight.inflight.None?
        && s.work.pending == []
  }

  /** What neither activation nor submission touches. */
  ghost predicate SameSurroundings(s: State, r: State) {
    r.flight == s.flight && r.session == s.session && r.env == s.env && SentLines(r.trace) == SentLines(s.trace)
  }

  /** The features that still have something to submit. */
  function Skip(plans: seq<Plan>): (r: seq<Plan>)
    ensures Script(r) == Script(plans)
    ensures r != [] ==> r[0].blocks != []
    ensures |r| <= |plans| && r == plans[|plans| - |r|..]
  {
    if plans != [] && plans[0].blocks == [] then Skip(plans[1..]) else plans
  }

  /** Between features: either everything is done, or the next feature has just submitted its first block. */
  ghost predicate Arrived(s: State, plans: seq<Plan>) {
    var left := Skip(plans);
    if left == [] then AllDone(s)
    else Working(s, left[0], 1, left[1..]) && s.work.pending == s.work.activeCommands == Flatten(left[0].blocks[0])
  }

  lemma TurnsMore(history: seq<Callback>, callback: Callback)
    ensures Turns(history + [callback])
         == Turns(history) + if callback == Activate || callback == BlockComplete then 1 else 0
  {
    assert (history + [callback])[..|history|] == history;
  }

  lemma ReactionOf(plan: Plan, history: seq<Callback>, callback: Callback)
    ensures var r := StaticFeature(plan).act(history + [callback]);
            if callback != Activate && callback != BlockComplete then r == Reaction([], false)
            else if Turns(history) < |plan.blocks| then r == Reaction([Submit(plan.blocks[Turns(history)])], false)
            else r == Reaction([Complete], false)
  {
    assert (history + [callback])[..|history|] == history;
  }

  /** A callback that asks for nothing only becomes part of the history. */
  lemma CallQuiet(s: State, plan: Plan, callback: Callback)
    requires Calm(s) && s.queue.active == Some(StaticFeature(plan)) && callback != Activate && callback != BlockComplete
    ensures CallFeature(s, callback) == s.(queue := s.queue.(history := s.queue.history + [callback]))
    ensures Turns(s.queue.history + [callback]) == Turns(s.queue.history)
  {
    hide ApplyOp, StaticReaction, Turns;
    ReactionOf(plan, s.queue.history, callback);
    TurnsMore(s.queue.history, callback);
  }

  lemma ObserveQuiet(s: State, plan: Plan, callback: Callback)
    requires Calm(s) && s.queue.active == Some(StaticFeature(plan)) && callback != Activate && callback != BlockComplete
    ensures Observe(s, callback) == s.(queue := s.queue.(history := s.queue.history + [callback]))
    ensures Turns(s.queue.history + [callback]) == Turns(s.queue.history)
  {
    hide StaticReaction, Turns, RegisterCleanup;
    TurnsMore(s.queue.history, callback);
    assert VerdictOf(s, callback).registers == [] && !VerdictOf(s, callback).raises;
    assert RegisterCleanup(s.(queue := s.queue.(history := s.queue.history + [callback])), plan.id, []) ==
           s.(queue := s.queue.(history := s.queue.history + [callback])) by {
      RegisterNothing(s.(queue := s.queue.(history := s.queue.history + [callback])), plan.id);
    }
  }

  lemma RegisterNothing(s: State, id: nat)
    ensures RegisterCleanup(s, id, []) == s
  {
  }

  lemma RunOne(s: State, id: nat, op: Op)
    requires !s.status.raised
    ensures RunOps(s, id, [op]) == ApplyOp(s, id, op)
  {
    hide ApplyOp;
    assert [op][1..] == [];
    assert RunOps(ApplyOp(s, id, op), id, []) == ApplyOp(s, id, op);
  }

  /** The next block is submitted. */
  lemma CallSubmits(s: State, plan: Plan, callback: Callback)
    requires Calm(s) && s.queue.active == Some(StaticFeature(plan))
        && (callback == Activate || callback == BlockComplete)
    requires !Busy(s) && !s.queue.ready && Turns(s.queue.history) < |plan.blocks| && Proper(plan)
    ensures var r := CallFeature(s, callback);
            && Calm(r) && SameSurroundings(s, r) && r.queue == s.queue.(history := s.queue.history + [callback])
            && Turns(r.queue.history) == Turns(s.queue.history) + 1
            && r.work.pending == r.work.activeCommands == Flatten(plan.blocks[Turns(s.queue.history)])
  {
    hide StaticReaction, Turns, Flatten, SentLines;
    var turn := Turns(s.queue.history);
    ReactionOf(plan, s.queue.history, callback);
    TurnsMore(s.queue.history, callback);
    var s0 := s.(queue := s.queue.(history := s.queue.history + [callback]));
    RunOne(s0, plan.id, Submit(plan.blocks[turn]));
    SentMore(s.trace, Submitted(Flatten(plan.blocks[turn]), s.session.promptContext));
  }

  lemma RetireStatic(s: State)
    requires Calm(s) && s.queue.active.Some?
    ensures Retire(s) == Note(s.(queue := s.queue.(active := None), work := s.work.(activeCommands := [])),
                              Completed(s.queue.active.value.id))
  {
  }

  /** The last block is done: the feature completes and the next one starts. */
  lemma {:induction false} CallCompletes(s: State, plan: Plan, callback: Callback, rest: seq<Plan>)
    requires Calm(s) && s.queue.active == Some(StaticFeature(plan))
        && (callback == Activate || callback == BlockComplete)
    requires !Busy(s) && !s.queue.ready && Turns(s.queue.history) >= |plan.blocks| && s.queue.features == Statics(rest)
    requires forall i :: 0 <= i < |rest| ==> Proper(rest[i])
    ensures var r := CallFeature(s, callback); Arrived(r, rest) && SameSurroundings(s, r)
    decreases |rest|, 1
  {
    hide StaticReaction, Turns, SentLines, Retire, ActivateNextFeature, Arrived;
    ReactionOf(plan, s.queue.history, callback);
    var s0 := s.(queue := s.queue.(history := s.queue.history + [callback]));
    RunOne(s0, plan.id, Complete);
    RetireStatic(s0);
    SentMore(s0.trace, Completed(plan.id));
    ActivateStatic(Retire(s0), rest);
    ArrivedCalm(ActivateNextFeature(Retire(s0)), rest);
  }

  lemma ArrivedCalm(s: State, plans: seq<Plan>)
    requires Arrived(s, plans)
    ensures Calm(s)
  {
  }

  lemma {:induction false} ActivateStatic(s: State, plans: seq<Plan>)
    requires Calm(s) && s.queue.active.None? && !Busy(s) && !s.queue.ready && s.queue.features == Statics(plans)
    requires forall i :: 0 <= i < |plans| ==> Proper(plans[i])
    ensures var r := ActivateNextFeature(s); Arrived(r, plans) && SameSurroundings(s, r)
    decreases |plans|, 0
  {
    hide CallFeature, SentLines, Flatten;
    if plans == [] {
      SentMore(s.trace, Ready);
    } else {
      var f := StaticFeature(plans[0]);
      var s1 := s.(queue := s.queue.(active := Some(f), features := s.queue.features[1..], history := []));
      SentMore(s.trace, Activated(f.id));
      assert Statics(plans)[1..] == Statics(plans[1..]);
      if plans[0].blocks == [] {
        CallCompletes(Note(s1, Activated(f.id)), plans[0], Activate, plans[1..]);
      } else {
        CallSubmits(Note(s1, Activated(f.id)), plans[0], Activate);
      }
    }
  }

  // ----- sending

  /** A command of the current block is in flight; `todo` are the lines still to be written. */
  ghost predicate Going(s: State, todo: seq<string>) {
    exists plan, turn, rest :: GoingWith(s, todo, plan, turn, rest)
  }

  ghost predicate GoingWith(s: State, todo: seq<string>, plan: Plan, turn: nat, rest: seq<Plan>) {
    && Working(s, plan, turn, rest) && Proper(plan) && (forall i :: 0 <= i < |rest| ==> Proper(rest[i]))
    && s.flight.inflight.Some? && s.flight.inflight.value.token.None?
    && todo == LinesOf(s.work.pending) + BlockLines(plan.blocks[turn..]) + Script(rest)
  }

  lemma LinesHead(specs: seq<CommandSpec>)
    requires specs != []
    ensures LinesOf(specs) == [specs[0].line] + LinesOf(specs[1..])
  {
  }

  /** The next command of the block goes out. */
  lemma SendWorking(s: State, plan: Plan, turn: nat, rest: seq<Plan>)
    requires Working(s, plan, turn, rest) && s.flight.inflight.None? && s.work.pending != []
    ensures var r := DispatchNext(s);
            && Working(r, plan, turn, rest) && r.flight.inflight.Some? && r.flight.inflight.value.token.None?
            && r.work.pending == s.work.pending[1..] && r.env == s.env
            && SentLines(r.trace) == SentLines(s.trace) + [s.work.pending[0].line]
  {
    hide StaticReaction, Turns, SentLines, Observe, Statics;
    var s1 := s.(work := s.work.(pending := s.work.pending[1..]), flight := s.flight.(inCleanup := false));
    var index := |s.work.activeCommands| - |s.work.pending|;
    var s2 := TakeCommand(s1, s.work.pending[0], Some(index), None);
    var a := s2.flight.inflight.value;
    SentMore(s.trace, Took(a));
    ObserveQuiet(s2, plan, Dispatched(a));
    SentMore(Observe(s2, Dispatched(a)).trace, Sent(a));
  }

  lemma DispatchWorking(s: State, plan: Plan, turn: nat, rest: seq<Plan>)
    requires Working(s, plan, turn, rest) && s.flight.inflight.None? && s.work.pending != []
    requires Proper(plan) && (forall i :: 0 <= i < |rest| ==> Proper(rest[i]))
    ensures var r := DispatchNext(s);
            var todo := LinesOf(s.work.pending) + BlockLines(plan.blocks[turn..]) + Script(rest);
            todo != [] && Going(r, todo[1..]) && SentLines(r.trace) == SentLines(s.trace) + [todo[0]] && r.env == s.env
  {
    hide Working, SentLines, LinesOf, BlockLines, Script, Proper, DispatchNext;
    SendWorking(s, plan, turn, rest);
    LinesHead(s.work.pending);
    assert turn <= |plan.blocks| by { TurnBound(s, plan, turn, rest); }
    var tail := LinesOf(s.work.pending[1..]) + BlockLines(plan.blocks[turn..]) + Script(rest);
    assert LinesOf(s.work.pending) + BlockLines(plan.blocks[turn..]) + Script(rest) == [s.work.pending[0].line] + tail;
    assert GoingWith(DispatchNext(s), tail, plan, turn, rest);
  }

  lemma TurnBound(s: State, plan: Plan, turn: nat, rest: seq<Plan>)
    requires Working(s, plan, turn, rest)
    ensures turn <= |plan.blocks|
  {
  }

  /** After a feature change: the first block goes out, or nothing is left. */
  lemma DispatchArrived(s: State, plans: seq<Plan>)
    requires Arrived(s, plans) && s.flight.inflight.None?
    requires forall i :: 0 <= i < |plans| ==> Proper(plans[i])
    ensures var r := DispatchNext(s);
            if Script(plans) == [] then AllDone(r) && SentLines(r.trace) == SentLines(s.trace)
            else Going(r, Script(plans)[1..]) && SentLines(r.trace) == SentLines(s.trace) + [Script(plans)[0]]
  {
    hide DispatchOne, SentLines, Flatten;
    var left := Skip(plans);
    if left != [] {
      FirstBlock(left);
      assert LinesOf(Flatten(left[0].blocks[0])) != [];
      DispatchWorking(s, left[0], 1, left[1..]);
    }
  }

  lemma FirstBlock(plans: seq<Plan>)
    requires plans != [] && plans[0].blocks != []
    ensures Script(plans)
         == LinesOf(Flatten(plans[0].blocks[0])) + BlockLines(plans[0].blocks[1..]) + Script(plans[1..])
  {
    hide Flatten, LinesOf;
  }

  // ----- answering

  /** Handing over the output of a cooperative answer. */
  lemma OutputQuiet(s: State, plan: Plan, turn: nat, rest: seq<Plan>, data: seq<byte>, retained: bool)
    requires Working(s, plan, turn, rest) && s.flight.inflight.Some?
    ensures var r := OnOutput(s, data, retained);
            && Working(r, plan, turn, rest) && r.work == s.work && r.session == s.session && r.env == s.env
            && SentLines(r.trace) == SentLines(s.trace) && r.flight.inflight.Some?
            && (var a := s.flight.inflight.value;
                r.flight.inflight.value == a.(output := if a.spec.Captures() then a.output + data else a.output))
  {
    hide StaticReaction, Turns, SentLines, Observe, VerdictOf, Statics;
    SentMore(s.trace, Consumed(data));
    if data != [] && !s.flight.inflight.value.spec.Captures() {
      ObserveQuiet(Note(s, Consumed(data)), plan, OutputSeen(data));
      ObserveQuiet(s, plan, OutputSeen(data));
    }
  }

  lemma NoteStateQuiet(s: State, state: CliState, data: seq<byte>)
    requires Calm(s)
    ensures var r := NoteState(s, state, data);
            var context := s.env.promptContext(data);
            && Calm(r) && r.queue == s.queue && r.work == s.work && r.flight == s.flight && r.env == s.env
                  && r.trace == s.trace
            && r.session.promptContext == if state == CmdPrompt && context.Some? then context
                  else s.session.promptContext
  {
  }

  /** The command in flight is credited, and the feature moves on. */
  lemma CompleteQuiet(s: State, plan: Plan, turn: nat, rest: seq<Plan>, todo: seq<string>, state: CliState)
    requires GoingWith(s, todo, plan, turn, rest)
    requires var a := s.flight.inflight.value.(after := s.session.promptContext);
             Dispatchable(state) && Validates(s.env, a, state) && (state == CmdPrompt ==> !ContextChanged(a))
    ensures var r := CompleteInflight(s, state);
            if todo == [] then AllDone(r) && SentLines(r.trace) == SentLines(s.trace)
            else Going(r, todo[1..]) && SentLines(r.trace) == SentLines(s.trace) + [todo[0]]
  {
    hide StaticReaction, Turns, SentLines, DispatchNext, CallFeature, Statics, Validates, ContextChanged, FinishCommand;
    var a := s.flight.inflight.value.(after := s.session.promptContext);
    var s0 := Note(s.(flight := s.flight.(inflight := None)), Ended(a, Credited));
    SentMore(s.trace, Ended(a, Credited));
    CallQuiet(s0, plan, Executed(a, state));
    FinishQuiet(CallFeature(s0, Executed(a, state)), plan, turn, rest, todo, state);
  }

  lemma WorkingFacts(s: State, plan: Plan, turn: nat, rest: seq<Plan>)
    requires Working(s, plan, turn, rest)
    ensures IsActive(s, plan.id) && !s.status.raised && !s.session.recovering && turn <= |plan.blocks|
    ensures s.flight.inflight.None? ==> (Busy(s) <==> s.work.pending != [])
    ensures Working(Note(s, BlockDone), plan, turn, rest)
  {
    hide Turns, Statics;
  }

  lemma FinishQuiet(s: State, plan: Plan, turn: nat, rest: seq<Plan>, todo: seq<string>, state: CliState)
    requires Working(s, plan, turn, rest) && Proper(plan) && (forall i :: 0 <= i < |rest| ==> Proper(rest[i]))
    requires s.flight.inflight.None? && Dispatchable(state)
    requires todo == LinesOf(s.work.pending) + BlockLines(plan.blocks[turn..]) + Script(rest)
    ensures var r := FinishCommand(s, plan.id, state);
            if todo == [] then AllDone(r) && SentLines(r.trace) == SentLines(s.trace)
            else Going(r, todo[1..]) && SentLines(r.trace) == SentLines(s.trace) + [todo[0]]
  {
    hide Working, SentLines, DispatchNext, CallFeature, Statics, Going, AllDone, Proper, Script, LinesOf, BlockLines,
         Busy, IsActive, Dispatchable;
    WorkingFacts(s, plan, turn, rest);
    if s.work.pending != [] {
      DispatchWorking(s, plan, turn, rest);
    } else {
      NoLinesLeft();
      SentMore(s.trace, BlockDone);
      if turn < |plan.blocks| {
        NextBlockQuiet(Note(s, BlockDone), plan, turn, rest, todo);
      } else {
        NextFeatureQuiet(Note(s, BlockDone), plan, turn, rest, todo);
      }
    }
  }

  lemma NoLinesLeft()
    ensures LinesOf([]) == [] && BlockLines([]) == []
  {
  }

  lemma NextBlockSubmits(s: State, plan: Plan, turn: nat, rest: seq<Plan>)
    requires Working(s, plan, turn, rest) && Proper(plan)
    requires s.flight.inflight.None? && s.work.pending == [] && turn < |plan.blocks|
    ensures var r := CallFeature(s, BlockComplete);
            && Working(r, plan, turn + 1, rest) && SameSurroundings(s, r) && !r.status.raised
            && r.work.pending == Flatten(plan.blocks[turn])
  {
    hide Turns, SentLines, CallFeature, Statics, Proper, Flatten;
    CallSubmits(s, plan, BlockComplete);
  }

  lemma NextBlockQuiet(s: State, plan: Plan, turn: nat, rest: seq<Plan>, todo: seq<string>)
    requires Working(s, plan, turn, rest) && Proper(plan) && (forall i :: 0 <= i < |rest| ==> Proper(rest[i]))
    requires s.flight.inflight.None? && s.work.pending == [] && turn < |plan.blocks|
    requires todo == [] + BlockLines(plan.blocks[turn..]) + Script(rest)
    ensures var r := CallFeature(s, BlockComplete); !r.status.raised && r.session == s.session
    ensures var r := DispatchNext(CallFeature(s, BlockComplete));
            todo != [] && Going(r, todo[1..]) && SentLines(r.trace) == SentLines(s.trace) + [todo[0]]
  {
    hide Working, SentLines, DispatchNext, CallFeature, Going, Proper, Flatten, Script, LinesOf;
    WorkingFacts(s, plan, turn, rest);
    NextBlockSubmits(s, plan, turn, rest);
    var r := CallFeature(s, BlockComplete);
    assert plan.blocks[turn..][1..] == plan.blocks[turn + 1..];
    ProperAt(plan, turn);
    assert todo == LinesOf(r.work.pending) + BlockLines(plan.blocks[turn + 1..]) + Script(rest);
    DispatchWorking(r, plan, turn + 1, rest);
  }

  lemma NextFeatureQuiet(s: State, plan: Plan, turn: nat, rest: seq<Plan>, todo: seq<string>)
    requires Working(s, plan, turn, rest) && (forall i :: 0 <= i < |rest| ==> Proper(rest[i]))
    requires s.flight.inflight.None? && s.work.pending == [] && turn == |plan.blocks|
    requires todo == [] + BlockLines(plan.blocks[turn..]) + Script(rest)
    ensures var r := CallFeature(s, BlockComplete); !r.status.raised && r.session == s.session
    ensures var r := DispatchNext(CallFeature(s, BlockComplete));
            if todo == [] then AllDone(r) && SentLines(r.trace) == SentLines(s.trace)
            else Going(r, todo[1..]) && SentLines(r.trace) == SentLines(s.trace) + [todo[0]]
  {
    hide StaticReaction, Turns, SentLines, DispatchNext, CallFeature, Statics, Going, AllDone, Arrived, Proper,
         Script, LinesOf;
    CallCompletes(s, plan, BlockComplete, rest);
    var r := CallFeature(s, BlockComplete);
    ArrivedCalm(r, rest);
    assert plan.blocks[turn..] == [];
    NoLinesLeft();
    assert todo == Script(rest);
    DispatchArrived(r, rest);
  }

  lemma ProperAt(plan: Plan, i: nat)
    requires Proper(plan) && i < |plan.blocks|
    ensures Flatten(plan.blocks[i]) != []
  {
  }

  lemma Answered(s: State, todo: seq<string>, state: CliState, data: seq<byte>)
    requires Going(s, todo) && s.flight.inflight.Some? && Agrees(s, state, data)
    ensures var r := Step(s, StateSeen(state, data));
            if todo == [] then AllDone(r) && SentLines(r.trace) == SentLines(s.trace)
            else Going(r, todo[1..]) && SentLines(r.trace) == SentLines(s.trace) + [todo[0]]
  {
    hide SentLines, CompleteInflight, NoteState, OnOutput, OnState, GoingWith, Agrees, Validates, ContextChanged,
         AllDone;
    var plan, turn, rest :| GoingWith(s, todo, plan, turn, rest);
    GoingFlight(s, todo, plan, turn, rest);
    AnswerNoted(s, todo, plan, turn, rest, state, data);
    CompleteQuiet(OnOutput(NoteState(s, state, data), data, false), plan, turn, rest, todo, state);
  }

  /** The answer's output is in, and the completion is up for validation. */
  lemma AnswerNoted(s: State, todo: seq<string>, plan: Plan, turn: nat, rest: seq<Plan>, state: CliState,
      data: seq<byte>)
    requires GoingWith(s, todo, plan, turn, rest) && Agrees(s, state, data)
    ensures var r := OnOutput(NoteState(s, state, data), data, false);
            && GoingWith(r, todo, plan, turn, rest) && SentLines(r.trace) == SentLines(s.trace)
            && Dispatchable(state) && OnState(s, state, data) == CompleteInflight(r, state)
            && (var a := r.flight.inflight.value.(after := r.session.promptContext);
                Validates(r.env, a, state) && (state == CmdPrompt ==> !ContextChanged(a)))
  {
    hide SentLines, CompleteInflight, NoteState, OnOutput, OnState, Statics, Turns, Script, BlockLines, LinesOf, Proper,
         Validates, ContextChanged;
    NoteStateQuiet(s, state, data);
    var s1 := NoteState(s, state, data);
    OutputQuiet(s1, plan, turn, rest, data, false);
    CalmState(s, state, data);
    AnswerHandled(OnOutput(s1, data, false), state);
  }

  lemma AnswerHandled(s: State, state: CliState)
    requires s.flight.inflight.Some? && Dispatchable(state) && state in s.flight.inflight.value.spec.Completes()
    ensures HandleState(s, state) == CompleteInflight(s, state)
  {
    hide CompleteInflight;
  }

  // ----- before the first prompt

  /** The same state with its session restored. */
  function Rested(s: State): State {
    s.(session := s.session.(recovering := false))
  }

  /** Nothing has been activated; a login may be under way. */
  ghost predicate Untouched(s: State, plans: seq<Plan>) {
    && Calm(Rested(s)) && s.queue.active.None? && !Busy(s) && !s.queue.ready && s.queue.features == Statics(plans)
    && forall i :: 0 <= i < |plans| ==> Proper(plans[i])
  }

  /** The first prompt, or an idle moment at one: the first command goes out. */
  lemma FirstDispatch(s: State, plans: seq<Plan>)
    requires Untouched(s, plans) && !s.session.recovering
    ensures var r := DispatchNext(s);
            if Script(plans) == [] then AllDone(r) && SentLines(r.trace) == SentLines(s.trace)
            else Going(r, Script(plans)[1..]) && SentLines(r.trace) == SentLines(s.trace) + [Script(plans)[0]]
  {
    hide SentLines, Statics, Turns, Script, ActivateNextFeature, DispatchNext, Going, AllDone, Arrived, Proper;
    assert Rested(s) == s;
    ActivateStatic(s, plans);
    DispatchActivated(s, plans);
  }

  lemma UntouchedFacts(s: State, plans: seq<Plan>)
    requires Untouched(s, plans)
    ensures Calm(Rested(s)) && !s.status.raised && s.flight.inflight.None? && !s.queue.ready
  {
    hide Statics, Proper;
  }

  lemma FirstPrompt(s: State, plans: seq<Plan>, data: seq<byte>)
    requires Untouched(s, plans)
    ensures var r := Step(s, StateSeen(CmdPrompt, data));
            if Script(plans) == [] then AllDone(r) && SentLines(r.trace) == SentLines(s.trace)
            else Going(r, Script(plans)[1..]) && SentLines(r.trace) == SentLines(s.trace) + [Script(plans)[0]]
  {
    hide SentLines, NoteState, Script, DispatchNext, Going, AllDone, HandleState, OnState, OnOutput, Untouched;
    UntouchedFacts(s, plans);
    NotedUntouched(s, plans, CmdPrompt, data);
    var s2 := OnOutput(NoteState(s, CmdPrompt, data), data, false);
    UntouchedFacts(s2, plans);
    HandedState(s, CmdPrompt, data);
    FirstDispatch(s2, plans);
    if Script(plans) != [] {
      GoingCalm(DispatchNext(s2), Script(plans)[1..]);
    } else {
      DoneCalm(DispatchNext(s2));
    }
    PromptDispatches(s2);
  }

  /** With nothing in flight, noting a state and handing its output over changes the session at most. */
  ghost predicate OnlySession(s: State, r: State) {
    && r.queue == s.queue && r.work == s.work && r.flight == s.flight && r.tidy == s.tidy && r.status == s.status
    && SentLines(r.trace) == SentLines(s.trace)
  }

  lemma NotedIdle(s: State, state: CliState, data: seq<byte>)
    requires Calm(Rested(s)) && s.flight.inflight.None?
    ensures var r := NoteState(s, state, data); OnlySession(s, r) && (state == CmdPrompt ==> !r.session.recovering)
  {
    hide SentLines;
    SentMore(s.trace, SessionRestored);
  }

  lemma OutputIdle(s: State, data: seq<byte>, retained: bool)
    requires Calm(Rested(s)) && s.flight.inflight.None?
    ensures var r := OnOutput(s, data, retained); OnlySession(s, r) && r.session == s.session
  {
    hide SentLines;
    SentMore(s.trace, Consumed(data));
  }

  lemma SameUntouched(s: State, r: State, plans: seq<Plan>)
    requires Untouched(s, plans) && OnlySession(s, r)
    ensures Untouched(r, plans)
  {
    hide SentLines, Statics, Proper;
  }

  /** The state is on record and the output handed over; a prompt ends a recovery. */
  lemma NotedUntouched(s: State, plans: seq<Plan>, state: CliState, data: seq<byte>)
    requires Untouched(s, plans)
    ensures var r := OnOutput(NoteState(s, state, data), data, false);
            && Untouched(r, plans) && SentLines(r.trace) == SentLines(s.trace)
            && (state == CmdPrompt ==> !r.session.recovering && Calm(r))
  {
    hide SentLines, Untouched, NoteState, OnOutput;
    UntouchedFacts(s, plans);
    NotedIdle(s, state, data);
    var s1 := NoteState(s, state, data);
    OutputIdle(s1, data, false);
    var r := OnOutput(s1, data, false);
    SameUntouched(s, r, plans);
    assert state == CmdPrompt ==> Rested(r) == r;
  }

  /** Before the first prompt nothing else makes the scheduler do anything. */
  lemma StillUntouched(s: State, plans: seq<Plan>, e: Event)
    requires Untouched(s, plans) && Friendly(s, e) && !Answers(s, e)
    ensures var r := Step(s, e); Untouched(r, plans) && SentLines(r.trace) == SentLines(s.trace)
  {
    hide SentLines, Statics, Proper, NoteState, OnState, OnOutput, HandleState, Untouched;
    UntouchedFacts(s, plans);
    match e
    case StateSeen(state, data) =>
      NotedUntouched(s, plans, state, data);
      StateUntouched(OnOutput(NoteState(s, state, data), data, false), plans, state);
      HandedState(s, state, data);
    case OutputArrived(data, retained) => OutputUntouched(s, plans, data, retained);
    case EchoSeen(data) =>
      OutputUntouched(s, plans, data, false);
      NudgeUntouched(OnOutput(s, data, false), plans);
    case _ => IdleUntouched(s, plans);
  }

  lemma HandedState(s: State, state: CliState, data: seq<byte>)
    requires Calm(Rested(s)) && var r := OnOutput(NoteState(s, state, data), data, false); Calm(Rested(r))
    ensures OnState(s, state, data) == HandleState(OnOutput(NoteState(s, state, data), data, false), state)
  {
    hide OnOutput, HandleState, RecoverFeatureError;
  }

  lemma StateUntouched(s: State, plans: seq<Plan>, state: CliState)
    requires Untouched(s, plans) && state != CmdPrompt
    ensures var r := HandleState(s, state); Untouched(r, plans) && SentLines(r.trace) == SentLines(s.trace)
    ensures Calm(Rested(s))
  {
    hide SentLines, Statics, Proper;
    SentMore(s.trace, SessionEnded);
    SentMore(s.trace, SessionRestored);
  }

  lemma OutputUntouched(s: State, plans: seq<Plan>, data: seq<byte>, retained: bool)
    requires Untouched(s, plans)
    ensures var r := OnOutput(s, data, retained); Untouched(r, plans) && SentLines(r.trace) == SentLines(s.trace)
  {
    hide SentLines, Untouched, OnOutput;
    UntouchedFacts(s, plans);
    OutputIdle(s, data, retained);
    SameUntouched(s, OnOutput(s, data, retained), plans);
  }

  lemma NudgeUntouched(s: State, plans: seq<Plan>)
    requires Untouched(s, plans)
    ensures Untouched(Note(s, Nudged), plans) && SentLines(Note(s, Nudged).trace) == SentLines(s.trace)
  {
    hide SentLines, Statics, Proper;
    SentMore(s.trace, Nudged);
  }

  lemma IdleUntouched(s: State, plans: seq<Plan>)
    requires Untouched(s, plans)
    ensures OnTick(s) == s && (s.session.recovering ==> OnIdlePrompt(s) == s)
  {
    hide Statics, Proper;
  }

  // ----- while a command is in flight

  lemma StillGoing(s: State, todo: seq<string>, e: Event)
    requires Going(s, todo) && Friendly(s, e) && !Answers(s, e)
    ensures var r := Step(s, e); Going(r, todo) && SentLines(r.trace) == SentLines(s.trace)
  {
    hide SentLines, Step, GoingWith, Friendly, Answers;
    var plan, turn, rest :| GoingWith(s, todo, plan, turn, rest);
    StepGoing(s, todo, plan, turn, rest, e);
  }

  lemma StepGoing(s: State, todo: seq<string>, plan: Plan, turn: nat, rest: seq<Plan>, e: Event)
    requires GoingWith(s, todo, plan, turn, rest) && Friendly(s, e) && !Answers(s, e)
    ensures var r := Step(s, e); GoingWith(r, todo, plan, turn, rest) && SentLines(r.trace) == SentLines(s.trace)
  {
    hide SentLines, OnState, OnOutput, OnTick, GoingWith, Agrees;
    GoingFlight(s, todo, plan, turn, rest);
    match e
    case StateSeen(state, data) => AsideGoing(s, todo, plan, turn, rest, state, data);
    case OutputArrived(data, retained) => OutputGoing(s, todo, plan, turn, rest, data, retained);
    case EchoSeen(data) =>
      OutputGoing(s, todo, plan, turn, rest, data, false);
      NudgeGoing(OnOutput(s, data, false), todo, plan, turn, rest);
    case Ticked => TickGoing(s, todo, plan, turn, rest);
    case _ =>
  }

  lemma GoingFlight(s: State, todo: seq<string>, plan: Plan, turn: nat, rest: seq<Plan>)
    requires GoingWith(s, todo, plan, turn, rest)
    ensures s.flight.inflight.Some? && !s.queue.ready && !s.status.raised
  {
    hide Statics, Turns, Script, BlockLines, LinesOf, Proper;
  }

  lemma TickGoing(s: State, todo: seq<string>, plan: Plan, turn: nat, rest: seq<Plan>)
    requires GoingWith(s, todo, plan, turn, rest)
    ensures var r := OnTick(s); GoingWith(r, todo, plan, turn, rest) && r.trace == s.trace
  {
    hide Statics, Turns, Script, BlockLines, LinesOf, Proper, CallFeature;
    CallQuiet(s, plan, Tick);
  }

  lemma OutputGoing(s: State, todo: seq<string>, plan: Plan, turn: nat, rest: seq<Plan>, data: seq<byte>,
      retained: bool)
    requires GoingWith(s, todo, plan, turn, rest)
    ensures var r := OnOutput(s, data, retained);
            GoingWith(r, todo, plan, turn, rest) && SentLines(r.trace) == SentLines(s.trace)
  {
    hide SentLines, Statics, Turns, Script, BlockLines, LinesOf, Proper, Working, OnOutput;
    OutputQuiet(s, plan, turn, rest, data, retained);
  }

  lemma NudgeGoing(s: State, todo: seq<string>, plan: Plan, turn: nat, rest: seq<Plan>)
    requires GoingWith(s, todo, plan, turn, rest)
    ensures GoingWith(Note(s, Nudged), todo, plan, turn, rest)
    ensures SentLines(Note(s, Nudged).trace) == SentLines(s.trace) && !s.status.raised
  {
    hide SentLines, Statics, Turns, Script, BlockLines, LinesOf, Proper;
    SentMore(s.trace, Nudged);
  }

  lemma AsideGoing(s: State, todo: seq<string>, plan: Plan, turn: nat, rest: seq<Plan>, state: CliState,
      data: seq<byte>)
    requires GoingWith(s, todo, plan, turn, rest) && s.flight.inflight.Some? && Aside(s, state)
    ensures var r := OnState(s, state, data);
            GoingWith(r, todo, plan, turn, rest) && SentLines(r.trace) == SentLines(s.trace)
  {
    hide SentLines, Statics, Turns, Script, BlockLines, LinesOf, Proper, NoteState, OnOutput, HandleState;
    NoteStateQuiet(s, state, data);
    var s1 := NoteState(s, state, data);
    NotedAside(s, state, data);
    OutputQuiet(s1, plan, turn, rest, data, false);
    var s2 := OnOutput(s1, data, false);
    CalmState(s, state, data);
    NothingHandled(s2, state);
  }

  lemma NotedAside(s: State, state: CliState, data: seq<byte>)
    requires Calm(s) && s.flight.inflight.Some? && Aside(s, state)
    ensures var r := NoteState(s, state, data); r.flight == s.flight && Aside(r, state)
  {
  }

  lemma NothingHandled(s: State, state: CliState)
    requires Calm(s) && s.flight.inflight.Some? && Aside(s, state)
    ensures var r := HandleState(s, state);
            r == s.(session := r.session) && r.session.recovering == s.session.recovering
  {
    hide CompleteInflight, HandleSessionLoss, RecoverFeatureError;
  }

  // ----- when all is done

  ghost predicate Finished(s: State) {
    AllDone(Rested(s))
  }

  lemma SameFinished(s: State, r: State)
    requires Finished(s) && OnlySession(s, r)
    ensures Finished(r)
  {
    hide SentLines;
  }

  lemma StillFinished(s: State, e: Event)
    requires Finished(s) && Friendly(s, e)
    ensures var r := Step(s, e); Finished(r) && SentLines(r.trace) == SentLines(s.trace)
  {
    hide SentLines, NoteState, OnState, HandleState, OnOutput;
    match e
    case StateSeen(state, data) =>
      NotedIdle(s, state, data);
      var s1 := NoteState(s, state, data);
      OutputIdle(s1, data, false);
      SameFinished(s, OnOutput(s1, data, false));
      FinishedHandled(OnOutput(s1, data, false), state);
      HandedState(s, state, data);
    case OutputArrived(data, retained) =>
      OutputIdle(s, data, retained);
      SameFinished(s, OnOutput(s, data, retained));
    case EchoSeen(data) =>
      OutputIdle(s, data, false);
      SameFinished(s, OnOutput(s, data, false));
      SentMore(OnOutput(s, data, false).trace, Nudged);
    case _ => FinishedIdle(s);
  }

  lemma FinishedIdle(s: State)
    requires Finished(s)
    ensures OnTick(s) == s && OnIdlePrompt(s) == s
  {
  }

  lemma FinishedHandled(s: State, state: CliState)
    requires Finished(s)
    ensures var r := HandleState(s, state); Finished(r) && SentLines(r.trace) == SentLines(s.trace)
  {
    hide SentLines;
    SentMore(s.trace, SessionEnded);
    SentMore(s.trace, SessionRestored);
  }

  lemma CalmState(s: State, state: CliState, data: seq<byte>)
    requires var s1 := NoteState(s, state, data);
             !s1.status.pendingError && Calm(OnOutput(s1, data, false))
    ensures OnState(s, state, data) == HandleState(OnOutput(NoteState(s, state, data), data, false), state)
  {
    hide NoteState, OnOutput, HandleState, RecoverFeatureError;
  }

  lemma PromptDispatches(s: State)
    requires Calm(s) && s.flight.inflight.None?
    ensures var r := DispatchNext(s);
            !r.status.callbackFailed && !r.status.raised ==> HandleState(s, CmdPrompt) == r
  {
    hide DispatchNext, HandleSessionLoss, CompleteInflight, RecoverFeatureError;
  }

  lemma DoneCalm(s: State)
    requires AllDone(s)
    ensures Calm(s)
  {
  }

  lemma GoingCalm(s: State, todo: seq<string>)
    requires Going(s, todo)
    ensures Calm(s)
  {
    hide Script, BlockLines, LinesOf, Statics, Turns;
  }

  /** Activation followed by dispatch: the whole of `_dispatch_next` between features. */
  lemma DispatchActivated(s: State, plans: seq<Plan>)
    requires Calm(s) && s.queue.active.None? && !Busy(s) && !s.queue.ready
    requires Arrived(ActivateNextFeature(s), plans) && SameSurroundings(s, ActivateNextFeature(s))
    requires forall i :: 0 <= i < |plans| ==> Proper(plans[i])
    ensures var r := DispatchNext(s);
            if Script(plans) == [] then AllDone(r) && SentLines(r.trace) == SentLines(s.trace)
            else Going(r, Script(plans)[1..]) && SentLines(r.trace) == SentLines(s.trace) + [Script(plans)[0]]
  {
    hide SentLines, ActivateNextFeature, DispatchOne, Flatten;
    DispatchArrived(ActivateNextFeature(s), plans);
  }

  /** How far the script has come after that many answers. */
  ghost predicate Stage(s: State, plans: seq<Plan>, answers: nat) {
    if answers == 0 then Untouched(s, plans) && SentLines(s.trace) == []
    else if answers <= |Script(plans)| then
      Going(s, Script(plans)[answers..]) && SentLines(s.trace) == Script(plans)[..answers]
    else answers == |Script(plans)| + 1 && Finished(s) && SentLines(s.trace) == Script(plans)
  }

  lemma StageStep(s: State, plans: seq<Plan>, answers: nat, e: Event)
    requires Stage(s, plans, answers) && Friendly(s, e)
    ensures Stage(Step(s, e), plans, if Answers(s, e) then answers + 1 else answers)
  {
    hide Step, Untouched, Going, SentLines, Agrees, Script, AllDone, Finished;
    StageFlight(s, plans, answers);
    if answers == 0 {
      if !Answers(s, e) {
        StillUntouched(s, plans, e);
      } else {
        FirstAnswer(s, plans, e);
      }
    } else if answers <= |Script(plans)| {
      if Answers(s, e) {
        Answered(s, Script(plans)[answers..], e.state, e.data);
        DoneFinished(Step(s, e));
      } else {
        StillGoing(s, Script(plans)[answers..], e);
      }
    } else {
      StillFinished(s, e);
    }
  }

  lemma StageFlight(s: State, plans: seq<Plan>, answers: nat)
    requires Stage(s, plans, answers)
    ensures s.flight.inflight.Some? <==> 1 <= answers <= |Script(plans)|
    ensures s.queue.ready <==> answers == |Script(plans)| + 1
  {
    hide Statics, Script, BlockLines, SentLines, Proper, Turns;
    if 1 <= answers <= |Script(plans)| {
      var todo := Script(plans)[answers..];
      var plan, turn, rest :| GoingWith(s, todo, plan, turn, rest);
    }
  }

  lemma DoneFinished(s: State)
    ensures AllDone(s) ==> Finished(s)
  {
    if AllDone(s) {
      assert Rested(s) == s;
    }
  }

  lemma FirstAnswer(s: State, plans: seq<Plan>, e: Event)
    requires Untouched(s, plans) && SentLines(s.trace) == [] && Answers(s, e) && s.flight.inflight.None?
    ensures Stage(Step(s, e), plans, 1)
  {
    hide Untouched, Going, SentLines, Agrees, Script, AllDone, Finished, OnState, DispatchNext;
    if e.StateSeen? {
      FirstPrompt(s, plans, e.data);
    } else {
      FirstDispatch(s, plans);
      IdleDispatches(s, plans);
    }
    DoneFinished(Step(s, e));
    if Script(plans) != [] {
      assert [] + [Script(plans)[0]] == Script(plans)[..1];
    }
  }

  lemma IdleDispatches(s: State, plans: seq<Plan>)
    requires Untouched(s, plans) && !s.session.recovering
    ensures Step(s, IdlePrompt) == DispatchNext(s)
  {
    hide DispatchNext, Statics, Proper;
  }

  /**
   Whole-run correctness: with a device that serves the features well, the lines written after n answers
   are the first n lines of the script, there are no more answers than one for each line and the first
   prompt, and `ready` is reached with the last of them and not before.
   */
  lemma WholeRun(env: Env, continueOnError: bool, plans: seq<Plan>, events: seq<Event>)
    requires forall i :: 0 <= i < |plans| ==> Proper(plans[i])
    requires Obliging(env, continueOnError, Statics(plans), events)
    ensures var s := Run(env, continueOnError, Statics(plans), events);
            var n := AnswersIn(env, continueOnError, Statics(plans), events);
            && n <= |Script(plans)| + 1
            && SentLines(s.trace) == (if n <= |Script(plans)| then Script(plans)[..n] else Script(plans))
            && (s.queue.ready <==> n == |Script(plans)| + 1)
  {
    hide Untouched, Going, SentLines, Script, Finished;
    WholeRunStage(env, continueOnError, plans, events);
    var s := Run(env, continueOnError, Statics(plans), events);
    StageFlight(s, plans, AnswersIn(env, continueOnError, Statics(plans), events));
  }

  lemma {:induction false} WholeRunStage(env: Env, continueOnError: bool, plans: seq<Plan>, events: seq<Event>)
    requires forall i :: 0 <= i < |plans| ==> Proper(plans[i])
    requires Obliging(env, continueOnError, Statics(plans), events)
    ensures Stage(Run(env, continueOnError, Statics(plans), events), plans,
                  AnswersIn(env, continueOnError, Statics(plans), events))
    decreases |events|
  {
    hide Step, Proper, Statics, Stage, Friendly, Answers;
    if events == [] {
      StartUntouched(env, continueOnError, plans);
    } else {
      var before := events[..|events| - 1];
      WholeRunStage(env, continueOnError, plans, before);
      StageStep(Run(env, continueOnError, Statics(plans), before), plans,
                AnswersIn(env, continueOnError, Statics(plans), before), events[|events| - 1]);
    }
  }

  lemma StartUntouched(env: Env, continueOnError: bool, plans: seq<Plan>)
    requires forall i :: 0 <= i < |plans| ==> Proper(plans[i])
    ensures Stage(Start(Init(env, continueOnError), Statics(plans)), plans, 0)
  {
    hide Proper, Script, Statics, SentLines, Ids;
    assert [] + Statics(plans) == Statics(plans);
    SentMore([], Enqueued(Ids(Statics(plans))));
    NothingSent();
  }

  lemma NothingSent()
    ensures SentLines([]) == []
  {
  }
}
