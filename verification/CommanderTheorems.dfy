/**
 What every run of the scheduler does, read off its trace without the monitors:
 any features, any strategies, any events, errors skipped or not.
 */
module CommanderTheorems {
  import opened Text
  import opened CliCommands
  import opened CommanderSpec
  import opened CommanderMonitors
  import opened CommanderInvariant

  /** The monitors never object, and between events the scheduler is idle when it says it is ready. */
  lemma RunAccepted(env: Env, continueOnError: bool, features: seq<Feature>, events: seq<Event>)
    ensures var s := Run(env, continueOnError, features, events);
            && Accepted(Watch(s.trace))
            && (s.queue.ready ==> s.queue.features == [] && s.queue.active.None? && !Busy(s))
  {
    hide Run, TidyOk, BlockOk, ReplayOk, CaptureOk, SessionOk, Watch;
    var s := Run(env, continueOnError, features, events);
    RunKept(env, continueOnError, features, events);
    OkParts(s);
  }

  lemma OkParts(s: State)
    requires Core(s)
    ensures Accepted(Watch(s.trace))
  {
    hide Watch, Lookup, Count, Ordered;
  }

  lemma WatchAt(t: seq<Entry>, i: nat)
    requires i < |t|
    ensures Watch(t[..i + 1]) == Advance(Watch(t[..i]), t[i])
  {
    assert t[..i + 1][..i] == t[..i];
  }

  lemma {:induction false} AcceptedPrefix(t: seq<Entry>, i: nat)
    requires i <= |t| && Accepted(Watch(t))
    ensures Accepted(Watch(t[..i]))
    decreases |t| - i
  {
    hide Watch;
    if i == |t| {
      assert t[..i] == t;
    } else {
      AcceptedPrefix(t, i + 1);
      WatchAt(t, i);
    }
  }

  // ----- one command at a time, credited in the session it was sent in

  /** Entry `j` takes the command that entry `i` finds in flight; entry `k` writes it. */
  ghost predicate SentAlone(t: seq<Entry>, j: nat, k: nat, i: nat) {
    && j < k < i < |t| && t[j].Took? && t[k].Sent? && t[i].Ended?
    && t[j].attempt.number == t[k].attempt.number == t[i].attempt.number
    && (forall m :: j < m < i ==> !t[m].Took? && !t[m].Ended? && !t[m].SessionEnded?)
  }

  lemma SessionAt(t: seq<Entry>, i: nat)
    requires i < |t| && Accepted(Watch(t))
    ensures var v, w := Watch(t[..i]).session, Watch(t[..i + 1]).session; v.ok && w.ok && w == SessionStep(v, t[i])
  {
    hide Watch, QueueStep, TidyStep, ReplayStep, BlockStep, ConsoleStep, CaptureStep;
    WatchAt(t, i);
    AcceptedPrefix(t, i);
    AcceptedPrefix(t, i + 1);
  }

  lemma {:induction false} FlightOrigin(t: seq<Entry>, i: nat) returns (j: nat, k: nat)
    requires i <= |t| && Accepted(Watch(t)) && Watch(t[..i]).session.flight.Some?
    ensures var v := Watch(t[..i]).session;
            && j < i && t[j].Took? && t[j].attempt.number == v.flight.value && v.started <= v.epoch
            && (forall m :: j < m < i ==> !t[m].Took? && !t[m].Ended?)
            && (v.sent ==> j < k < i && t[k].Sent? && t[k].attempt.number == v.flight.value)
            && (v.started == v.epoch ==> forall m :: j < m < i ==> !t[m].SessionEnded?)
    decreases i
  {
    hide Watch, Advance, Accepted;
    j, k := 0, 0;
    if i > 0 {
      SessionAt(t, i - 1);
      if t[i - 1].Took? {
        j := i - 1;
      } else {
        j, k := FlightOrigin(t, i - 1);
        if t[i - 1].Sent? {
          k := i - 1;
        }
      }
    } else {
      NothingYet(t[..0]);
    }
  }

  lemma NothingYet(t: seq<Entry>)
    requires t == []
    ensures Watch(t) == START
  {
  }

  /** A completion is credited only to a command written once, in the login session that is still on. */
  lemma CreditedInItsSession(env: Env, continueOnError: bool, features: seq<Feature>, events: seq<Event>, i: nat)
    requires var t := Run(env, continueOnError, features, events).trace;
             i < |t| && t[i].Ended? && t[i].ending == Credited
    ensures var t := Run(env, continueOnError, features, events).trace; exists j, k :: SentAlone(t, j, k, i)
  {
    hide Run, Watch, QueueStep, TidyStep, ReplayStep, BlockStep, ConsoleStep, CaptureStep;
    var t := Run(env, continueOnError, features, events).trace;
    RunAccepted(env, continueOnError, features, events);
    WatchAt(t, i);
    AcceptedPrefix(t, i + 1);
    var j, k := FlightOrigin(t, i);
    assert SentAlone(t, j, k, i);
  }

  lemma {:induction false} StillInFlight(t: seq<Entry>, i: nat, k: nat)
    requires i < k <= |t| && Accepted(Watch(t)) && t[i].Sent?
    requires forall m :: i < m < k ==> !t[m].Ended?
    ensures Watch(t[..k]).session.flight.Some? && Watch(t[..k]).session.sent
    decreases k
  {
    hide Watch, QueueStep, TidyStep, ReplayStep, BlockStep, ConsoleStep, CaptureStep;
    WatchAt(t, k - 1);
    AcceptedPrefix(t, k);
    if k - 1 > i {
      StillInFlight(t, i, k - 1);
    }
  }

  /** Between any two command lines written, the first one's command has ended. */
  lemma OneAtATime(env: Env, continueOnError: bool, features: seq<Feature>, events: seq<Event>, i: nat, k: nat)
    requires var t := Run(env, continueOnError, features, events).trace; i < k < |t| && t[i].Sent? && t[k].Sent?
    ensures var t := Run(env, continueOnError, features, events).trace; exists m :: i < m < k && t[m].Ended?
  {
    hide Run, Watch, QueueStep, TidyStep, ReplayStep, BlockStep, ConsoleStep, CaptureStep;
    var t := Run(env, continueOnError, features, events).trace;
    RunAccepted(env, continueOnError, features, events);
    if forall m :: i < m < k ==> !t[m].Ended? {
      StillInFlight(t, i, k);
      WatchAt(t, k);
      AcceptedPrefix(t, k + 1);
      assert false;
    }
  }

  /** The line is written outside session recovery and with no error waiting. */
  lemma SentInTheClear(env: Env, continueOnError: bool, features: seq<Feature>, events: seq<Event>, i: nat)
    requires var t := Run(env, continueOnError, features, events).trace; i < |t| && t[i].Sent?
    ensures var t := Run(env, continueOnError, features, events).trace;
            !Recovering(t[..i]) && !ErrorWaiting(t[..i])
  {
    hide Run, Watch, QueueStep, TidyStep, ReplayStep, BlockStep, ConsoleStep, CaptureStep, Recovering, ErrorWaiting;
    var t := Run(env, continueOnError, features, events).trace;
    RunAccepted(env, continueOnError, features, events);
    WatchAt(t, i);
    AcceptedPrefix(t, i + 1);
    RecoveringAt(t[..i]);
  }

  predicate Recovering(t: seq<Entry>) {
    t != [] && (t[|t| - 1].SessionEnded? || (!t[|t| - 1].SessionRestored? && Recovering(t[..|t| - 1])))
  }

  predicate ErrorWaiting(t: seq<Entry>) {
    t != [] && (t[|t| - 1].ErrorNoted? || (!t[|t| - 1].ErrorCleared? && ErrorWaiting(t[..|t| - 1])))
  }

  lemma {:induction false} RecoveringAt(t: seq<Entry>)
    ensures Watch(t).session.recovering == Recovering(t) && Watch(t).session.error == ErrorWaiting(t)
    decreases |t|
  {
    hide QueueStep, TidyStep, ReplayStep, BlockStep, ConsoleStep, CaptureStep;
    if t != [] {
      RecoveringAt(t[..|t| - 1]);
    }
  }

  // ----- replay refines sending the block once

  /** The entry ends whatever block was submitted before it. */
  predicate Closes(e: Entry) {
    e.Submitted? || e.Completed? || (e.Failed? && e.who.Some?)
  }

  /** The block submitted last, unless its feature is over. */
  function LastBlock(t: seq<Entry>): seq<CommandSpec> {
    if t == [] then []
    else
      var e := t[|t| - 1];
      if e.Submitted? then e.block else if Closes(e) then [] else LastBlock(t[..|t| - 1])
  }

  /** The lines of that block written since it was submitted. */
  function LinesSent(t: seq<Entry>): seq<string> {
    if t == [] then []
    else
      var e := t[|t| - 1];
      if Closes(e) then []
      else LinesSent(t[..|t| - 1]) + if e.Sent? && e.attempt.blockIndex.Some? then [e.attempt.spec.line] else []
  }

  /** The feature chose not to finish that block after a session loss. */
  predicate GaveUp(t: seq<Entry>) {
    t != [] && (var e := t[|t| - 1]; !Closes(e) && (e.Abandoned? || GaveUp(t[..|t| - 1])))
  }

  lemma BlockStepRecord(v: BlockView, e: Entry)
    ensures var w := BlockStep(v, e);
            && w.commands == (if e.Submitted? then e.block else if Closes(e) then [] else v.commands)
            && w.lines == (if Closes(e) then []
                           else v.lines + if e.Sent? && e.attempt.blockIndex.Some? then [e.attempt.spec.line] else [])
            && w.abandoned == (!Closes(e) && (e.Abandoned? || v.abandoned))
  {
  }

  lemma {:induction false} BlockAt(t: seq<Entry>)
    ensures var v := Watch(t).block; v.commands == LastBlock(t) && v.lines == LinesSent(t) && v.abandoned == GaveUp(t)
    decreases |t|
  {
    hide BlockStep, SessionStep, QueueStep, TidyStep, ReplayStep, ConsoleStep, CaptureStep, Closes;
    if t != [] {
      BlockAt(t[..|t| - 1]);
      BlockStepRecord(Watch(t[..|t| - 1]).block, t[|t| - 1]);
    }
  }

  /** The lines of the passes that were interrupted, each up to the interrupted command. */
  function Interrupted(commands: seq<CommandSpec>, restarts: seq<nat>): seq<string>
    requires forall i :: 0 <= i < |restarts| ==> restarts[i] < |commands|
  {
    if restarts == [] then []
    else Interrupted(commands, restarts[..|restarts| - 1]) + LinesOf(commands[..restarts[|restarts| - 1] + 1])
  }

  /** What the block monitor's own bookkeeping comes to, as long as it has not objected. */
  ghost predicate Bookkeeping(v: BlockView) {
    && (forall i :: 0 <= i < |v.restarts| ==> v.restarts[i] < |v.commands|)
    && (forall i: nat :: Count(v.restarts, i) <= MAX_COMMAND_RECOVERY_RETRIES)
    && v.credited <= v.next <= |v.commands| && (v.unsent ==> v.credited < v.next)
    && v.lines == Interrupted(v.commands, v.restarts) + LinesOf(v.commands[..if v.unsent then v.next - 1 else v.next])
  }

  lemma BookkeepingStep(v: BlockView, e: Entry)
    requires Bookkeeping(v) && BlockStep(v, e).ok
    ensures Bookkeeping(BlockStep(v, e))
  {
    hide LinesOf;
    var w := BlockStep(v, e);
    match e
    case Restarted(index) =>
      RestartBookkeeping(v, index);
    case Sent(a) =>
      if a.blockIndex.Some? {
        LinesMore(v.commands, v.next - 1);
      }
    case Took(a) =>
    case Submitted(block, _) => NoLines(block);
    case Completed(_) => NoLines([]);
    case Failed(_) => NoLines([]);
    case _ =>
  }

  lemma NoLines(commands: seq<CommandSpec>)
    ensures LinesOf(commands[..0]) == [] && LinesOf([]) == []
  {
  }

  lemma LinesMore(commands: seq<CommandSpec>, n: nat)
    requires n < |commands|
    ensures LinesOf(commands[..n + 1]) == LinesOf(commands[..n]) + [commands[n].line]
  {
  }

  lemma RestartBookkeeping(v: BlockView, index: Option<nat>)
    requires Bookkeeping(v) && BlockStep(v, Restarted(index)).ok
    ensures Bookkeeping(BlockStep(v, Restarted(index)))
  {
    hide LinesOf, Count;
    var w := BlockStep(v, Restarted(index));
    assert w.restarts[..|v.restarts|] == v.restarts;
    forall i: nat ensures Count(w.restarts, i) <= MAX_COMMAND_RECOVERY_RETRIES {
      CountMore(v.restarts, index.value, i);
    }
    NoLines(v.commands);
  }

  lemma {:induction false} BookkeepingAt(t: seq<Entry>)
    requires Watch(t).block.ok
    ensures Bookkeeping(Watch(t).block)
    decreases |t|
  {
    hide Bookkeeping, BlockStep, SessionStep, QueueStep, TidyStep, ReplayStep, ConsoleStep, CaptureStep;
    if t == [] {
      FreshBookkeeping(t);
    } else {
      BlockOkBefore(Watch(t[..|t| - 1]).block, t[|t| - 1]);
      BookkeepingAt(t[..|t| - 1]);
      BookkeepingStep(Watch(t[..|t| - 1]).block, t[|t| - 1]);
    }
  }

  lemma BlockOkBefore(v: BlockView, e: Entry)
    ensures BlockStep(v, e).ok ==> v.ok
  {
  }

  lemma FreshBookkeeping(t: seq<Entry>)
    requires t == []
    ensures Bookkeeping(Watch(t).block)
  {
    NoLines([]);
  }

  /** A number below `n` can occur at most `m` times, so there are at most `m * n` of them. */
  lemma {:induction false} Pigeonhole(restarts: seq<nat>, n: nat, m: nat)
    requires forall i :: 0 <= i < |restarts| ==> restarts[i] < n
    requires forall i: nat :: Count(restarts, i) <= m
    ensures |restarts| <= m * n
  {
    CountAll(restarts, n);
    TotalBound(restarts, n, m);
  }

  function Total(restarts: seq<nat>, n: nat): nat {
    if n == 0 then 0 else Total(restarts, n - 1) + Count(restarts, n - 1)
  }

  lemma {:induction false} TotalBound(restarts: seq<nat>, n: nat, m: nat)
    requires forall i: nat :: Count(restarts, i) <= m
    ensures Total(restarts, n) <= m * n
  {
    hide Count;
    if n > 0 {
      TotalBound(restarts, n - 1, m);
      assert Count(restarts, n - 1) <= m;
      assert m * n == m * (n - 1) + m;
    }
  }

  lemma {:induction false} TotalMore(restarts: seq<nat>, n: nat)
    requires restarts != []
    ensures var last := restarts[|restarts| - 1];
            Total(restarts, n) == Total(restarts[..|restarts| - 1], n) + if last < n then 1 else 0
  {
    if n > 0 {
      TotalMore(restarts, n - 1);
    }
  }

  lemma {:induction false} CountAll(restarts: seq<nat>, n: nat)
    requires forall i :: 0 <= i < |restarts| ==> restarts[i] < n
    ensures Total(restarts, n) == |restarts|
    decreases |restarts|
  {
    if restarts == [] {
      NoneTotal(n);
    } else {
      CountAll(restarts[..|restarts| - 1], n);
      TotalMore(restarts, n);
    }
  }

  lemma {:induction false} NoneTotal(n: nat)
    ensures Total([], n) == 0
  {
    if n > 0 {
      NoneTotal(n - 1);
    }
  }

  /**
   The lines are some interrupted passes over the block, no more for any one of its commands than may
   be, then the block itself up to `next`.
   */
  ghost predicate ReplayOf(lines: seq<string>, commands: seq<CommandSpec>, restarts: seq<nat>, next: nat) {
    && next <= |commands| && |restarts| <= MAX_COMMAND_RECOVERY_RETRIES * |commands|
    && (forall i: nat :: Count(restarts, i) <= MAX_COMMAND_RECOVERY_RETRIES)
    && (forall i :: 0 <= i < |restarts| ==> restarts[i] < |commands|)
    && lines == Interrupted(commands, restarts) + LinesOf(commands[..next])
  }

  /** At any moment, what was written of the current block is bounded replays and a prefix of it. */
  lemma ReplaysSoFar(env: Env, continueOnError: bool, features: seq<Feature>, events: seq<Event>, i: nat)
    requires i <= |Run(env, continueOnError, features, events).trace|
    ensures var t := Run(env, continueOnError, features, events).trace[..i];
            exists restarts, next :: ReplayOf(LinesSent(t), LastBlock(t), restarts, next)
  {
    hide Run, Watch, LinesSent, LastBlock;
    var t := Run(env, continueOnError, features, events).trace;
    RunAccepted(env, continueOnError, features, events);
    AcceptedPrefix(t, i);
    var v := Watch(t[..i]).block;
    BookkeepingAt(t[..i]);
    BlockAt(t[..i]);
    Pigeonhole(v.restarts, |v.commands|, MAX_COMMAND_RECOVERY_RETRIES);
    assert ReplayOf(LinesSent(t[..i]), LastBlock(t[..i]), v.restarts, if v.unsent then v.next - 1 else v.next);
  }

  /**
   Replay refinement: whenever a feature is told its block is complete, and it did not give the
   block up after a session loss, the whole block was written last, after at most
   `MAX_COMMAND_RECOVERY_RETRIES` interrupted passes for each of its commands.
   */
  lemma ReplayRefinement(env: Env, continueOnError: bool, features: seq<Feature>, events: seq<Event>, i: nat)
    requires var t := Run(env, continueOnError, features, events).trace; i < |t| && t[i] == BlockDone && !GaveUp(t[..i])
    ensures var t := Run(env, continueOnError, features, events).trace[..i];
            exists restarts :: ReplayOf(LinesSent(t), LastBlock(t), restarts, |LastBlock(t)|)
  {
    hide Run, Watch, LinesSent, LastBlock, GaveUp;
    var t := Run(env, continueOnError, features, events).trace;
    RunAccepted(env, continueOnError, features, events);
    AcceptedPrefix(t, i);
    AcceptedPrefix(t, i + 1);
    WatchAt(t, i);
    var v := Watch(t[..i]).block;
    BookkeepingAt(t[..i]);
    BlockAt(t[..i]);
    Pigeonhole(v.restarts, |v.commands|, MAX_COMMAND_RECOVERY_RETRIES);
    assert ReplayOf(LinesSent(t[..i]), LastBlock(t[..i]), v.restarts, |LastBlock(t[..i])|);
  }

  // ----- a replay starts where the block was submitted

  function SubmittedAt(t: seq<Entry>): Option<Context> {
    if t == [] then None
    else if t[|t| - 1].Submitted? then t[|t| - 1].context
    else SubmittedAt(t[..|t| - 1])
  }

  lemma {:induction false} SubmittedAtView(t: seq<Entry>)
    ensures Watch(t).replay.submittedAt == SubmittedAt(t)
    decreases |t|
  {
    hide SessionStep, QueueStep, TidyStep, BlockStep, ConsoleStep, CaptureStep;
    if t != [] {
      SubmittedAtView(t[..|t| - 1]);
    }
  }

  /** Between entries `i` and `j` the replay started at `i` is not over, and only `abort` was sent. */
  ghost predicate StillReplaying(t: seq<Entry>, i: nat, j: nat) {
    && i < j <= |t| && t[i].Restarted?
    && forall m :: i < m < j ==>
         !t[m].Submitted? && !t[m].Failed? && !t[m].Restarted? && (t[m].Took? ==> IsAbort(t[m].attempt))
  }

  lemma {:induction false} ReplayDue(t: seq<Entry>, i: nat, j: nat, c: Context)
    requires Accepted(Watch(t)) && StillReplaying(t, i, j) && SubmittedAt(t[..i]) == Some(c)
    ensures var v := Watch(t[..j]).replay;
            v.due == Some(c) && (v.aborted <==> exists m :: i < m < j && t[m].Took?)
    decreases j
  {
    hide Watch, SessionStep, QueueStep, TidyStep, BlockStep, ConsoleStep, CaptureStep, SubmittedAt;
    WatchAt(t, j - 1);
    if j == i + 1 {
      SubmittedAtView(t[..i]);
    } else {
      ReplayDue(t, i, j - 1, c);
    }
  }

  /**
   After a restart of a block first submitted at context `c`, the next command taken is either one
   `abort`, sent because the prompt is elsewhere, or a command sent while the prompt shows `c`.
   */
  lemma ReplayContextSound(env: Env, continueOnError: bool, features: seq<Feature>, events: seq<Event>, i: nat,
      j: nat, c: Context)
    requires var t := Run(env, continueOnError, features, events).trace;
             StillReplaying(t, i, j) && j < |t| && t[j].Took? && SubmittedAt(t[..i]) == Some(c)
    ensures var t := Run(env, continueOnError, features, events).trace;
            if IsAbort(t[j].attempt) then t[j].attempt.before != Some(c) && (forall m :: i < m < j ==> !t[m].Took?)
            else t[j].attempt.before == Some(c)
  {
    hide Run, Watch, SessionStep, QueueStep, TidyStep, BlockStep, ConsoleStep, CaptureStep, SubmittedAt;
    var t := Run(env, continueOnError, features, events).trace;
    RunAccepted(env, continueOnError, features, events);
    AcceptedPrefix(t, j + 1);
    WatchAt(t, j);
    ReplayDue(t, i, j, c);
  }

  // ----- no feature is lost, repeated or overtaken

  function EnqueuedIds(t: seq<Entry>): seq<nat> {
    if t == [] then []
    else EnqueuedIds(t[..|t| - 1]) + if t[|t| - 1].Enqueued? then t[|t| - 1].ids else []
  }

  /** The features that completed (true) or failed (false), in that order. */
  function Outcomes(t: seq<Entry>): seq<(nat, bool)> {
    if t == [] then [] else Outcomes(t[..|t| - 1]) + OutcomeOf(t[|t| - 1])
  }

  function Firsts(outcomes: seq<(nat, bool)>): (ids: seq<nat>)
    ensures |ids| == |outcomes|
  {
    seq(|outcomes|, i requires 0 <= i < |outcomes| => outcomes[i].0)
  }

  function OptionToSeq(id: Option<nat>): seq<nat> {
    if id.Some? then [id.value] else []
  }

  /** The outcome an entry adds. */
  function OutcomeOf(e: Entry): seq<(nat, bool)> {
    match e
    case Completed(id) => [(id, true)]
    case Failed(who) => if who.Some? then [(who.value, false)] else []
    case _ => []
  }

  lemma QueueStepRecord(v: QueueView, tidying: seq<nat>, e: Entry)
    ensures var w := QueueStep(v, tidying, e);
            && w.enqueued == v.enqueued + (if e.Enqueued? then e.ids else [])
            && w.outcomes == v.outcomes + OutcomeOf(e)
            && (w.ok ==> v.ok)
  {
  }

  lemma QueueStepConserves(v: QueueView, tidying: seq<nat>, e: Entry)
    requires v.enqueued == Firsts(v.outcomes) + OptionToSeq(v.active) + v.waiting && QueueStep(v, tidying, e).ok
    ensures var w := QueueStep(v, tidying, e); w.enqueued == Firsts(w.outcomes) + OptionToSeq(w.active) + w.waiting
  {
    var w := QueueStep(v, tidying, e);
    if e.Activated? {
      assert v.waiting == [v.waiting[0]] + v.waiting[1..];
    } else if e.Completed? || e.Failed? {
      assert Firsts(w.outcomes) == Firsts(v.outcomes) + Firsts(OutcomeOf(e));
    }
  }

  lemma {:induction false} QueueAt(t: seq<Entry>)
    requires Watch(t).queue.ok
    ensures var v := Watch(t).queue;
            && v.enqueued == EnqueuedIds(t) && v.outcomes == Outcomes(t)
            && v.enqueued == Firsts(v.outcomes) + OptionToSeq(v.active) + v.waiting
    decreases |t|
  {
    hide QueueStep, SessionStep, TidyStep, ReplayStep, BlockStep, ConsoleStep, CaptureStep, OutcomeOf;
    if t == [] {
      assert Firsts([]) == [];
    } else {
      var v := Watch(t[..|t| - 1]);
      QueueStepRecord(v.queue, v.tidy.tidying, t[|t| - 1]);
      QueueAt(t[..|t| - 1]);
      QueueStepConserves(v.queue, v.tidy.tidying, t[|t| - 1]);
    }
  }

  /**
   Every feature enqueued so far is in exactly one place: over (completed or failed), active, or
   waiting; and the three lists, in that order, are the order in which they were enqueued.
   */
  lemma FeatureConservation(env: Env, continueOnError: bool, features: seq<Feature>, events: seq<Event>)
    ensures var s := Run(env, continueOnError, features, events);
            EnqueuedIds(s.trace) == Firsts(Outcomes(s.trace)) + OptionToSeq(ActiveId(s.queue)) + Ids(s.queue.features)
  {
    hide Run, Watch, EnqueuedIds, Outcomes, TidyOk, BlockOk, ReplayOk, CaptureOk, SessionOk;
    RunKept(env, continueOnError, features, events);
    QueueAt(Run(env, continueOnError, features, events).trace);
  }

  function ActivatedIds(t: seq<Entry>): seq<nat> {
    if t == [] then []
    else ActivatedIds(t[..|t| - 1]) + if t[|t| - 1].Activated? then [t[|t| - 1].id] else []
  }

  lemma ActivatedStep(v: QueueView, tidying: seq<nat>, e: Entry)
    requires QueueStep(v, tidying, e).ok
    ensures var w := QueueStep(v, tidying, e);
            var added := if e.Activated? then [e.id] else [];
            Firsts(w.outcomes) + OptionToSeq(w.active) == Firsts(v.outcomes) + OptionToSeq(v.active) + added
  {
    var w := QueueStep(v, tidying, e);
    QueueStepRecord(v, tidying, e);
    assert Firsts(v.outcomes + OutcomeOf(e)) == Firsts(v.outcomes) + Firsts(OutcomeOf(e));
  }

  lemma {:induction false} ActivatedAt(t: seq<Entry>)
    requires Watch(t).queue.ok
    ensures ActivatedIds(t) == Firsts(Watch(t).queue.outcomes) + OptionToSeq(Watch(t).queue.active)
    decreases |t|
  {
    hide QueueStep, SessionStep, TidyStep, ReplayStep, BlockStep, ConsoleStep, CaptureStep;
    if t == [] {
      assert Firsts([]) == [];
    } else {
      var v := Watch(t[..|t| - 1]);
      QueueStepRecord(v.queue, v.tidy.tidying, t[|t| - 1]);
      ActivatedAt(t[..|t| - 1]);
      ActivatedStep(v.queue, v.tidy.tidying, t[|t| - 1]);
    }
  }

  /** Features are activated in the order they were enqueued, each once: the rest of the order still waits. */
  lemma ActivationInOrder(env: Env, continueOnError: bool, features: seq<Feature>, events: seq<Event>)
    ensures var s := Run(env, continueOnError, features, events);
            EnqueuedIds(s.trace) == ActivatedIds(s.trace) + Ids(s.queue.features)
  {
    hide Run, Watch, EnqueuedIds, Outcomes, ActivatedIds, TidyOk, BlockOk, ReplayOk, CaptureOk, SessionOk;
    RunKept(env, continueOnError, features, events);
    FeatureConservation(env, continueOnError, features, events);
    QueueAt(Run(env, continueOnError, features, events).trace);
    ActivatedAt(Run(env, continueOnError, features, events).trace);
  }

  // ----- cleanup happens between features, in its own order

  /** Cleanup commands queued so far and not finished with. */
  function Unfinished(t: seq<Entry>): int {
    if t == [] then 0
    else
      Unfinished(t[..|t| - 1]) +
      match t[|t| - 1] {
        case CleanupQueued(commands) => |commands|
        case ConsoleReleased(restoring) => |restoring|
        case Ended(a, ending) => if a.token.Some? && ending != Ending.Interrupted then -1 else 0
        case _ => 0
      }
  }

  lemma {:induction false} TidyAt(t: seq<Entry>)
    requires Watch(t).tidy.ok
    ensures |Watch(t).tidy.tidying| == Unfinished(t) && Ordered(Watch(t).tidy.tidying, Watch(t).tidy.next)
    decreases |t|
  {
    hide SessionStep, QueueStep, ReplayStep, BlockStep, ConsoleStep, CaptureStep;
    if t != [] {
      TidyAt(t[..|t| - 1]);
    }
  }

  /** A feature is activated only when no cleanup command is queued or in flight. */
  lemma CleanupBeforeActivation(env: Env, continueOnError: bool, features: seq<Feature>, events: seq<Event>, i: nat)
    requires var t := Run(env, continueOnError, features, events).trace; i < |t| && (t[i].Activated? || t[i].Ready?)
    ensures Unfinished(Run(env, continueOnError, features, events).trace[..i]) == 0
  {
    hide Run, Watch, Unfinished, SessionStep, ReplayStep, BlockStep, ConsoleStep, CaptureStep;
    var t := Run(env, continueOnError, features, events).trace;
    RunAccepted(env, continueOnError, features, events);
    AcceptedPrefix(t, i);
    AcceptedPrefix(t, i + 1);
    WatchAt(t, i);
    TidyAt(t[..i]);
  }

  lemma {:induction false} TokensStay(t: seq<Entry>, i: nat, k: nat)
    requires i < k <= |t| && Accepted(Watch(t)) && t[i].Took? && t[i].attempt.token.Some?
    ensures var v := Watch(t[..k]).tidy;
            t[i].attempt.token.value < v.next
            && forall m :: 0 <= m < |v.tidying| ==> t[i].attempt.token.value <= v.tidying[m]
    decreases k
  {
    hide Watch, SessionStep, QueueStep, ReplayStep, BlockStep, ConsoleStep, CaptureStep;
    WatchAt(t, k - 1);
    AcceptedPrefix(t, k);
    AcceptedPrefix(t, k - 1);
    TidyAt(t[..k - 1]);
    if k - 1 > i {
      TokensStay(t, i, k - 1);
    }
  }

  /** Every cleanup command ever queued, in that order: those of features, and those that give the console back. */
  function CleanupList(t: seq<Entry>): seq<CommandSpec> {
    if t == [] then []
    else
      CleanupList(t[..|t| - 1]) +
      match t[|t| - 1] {
        case CleanupQueued(commands) => commands
        case ConsoleReleased(restoring) => restoring
        case _ => []
      }
  }

  lemma QueuedStep(v: TidyView, e: Entry)
    ensures TidyStep(v, e).queued == v.queued + CleanupList([e])
  {
    assert [e][..0] == [] && [] + CleanupList([e]) == CleanupList([e]);
  }

  lemma {:induction false} CleanupListAt(t: seq<Entry>)
    ensures Watch(t).tidy.queued == CleanupList(t)
    decreases |t|
  {
    hide TidyStep, SessionStep, QueueStep, ReplayStep, BlockStep, ConsoleStep, CaptureStep;
    if t != [] {
      CleanupListAt(t[..|t| - 1]);
      QueuedStep(Watch(t[..|t| - 1]).tidy, t[|t| - 1]);
      assert CleanupList(t) == CleanupList(t[..|t| - 1]) + CleanupList([t[|t| - 1]]) by {
        assert [t[|t| - 1]][..0] == [];
      }
    }
  }

  /** A cleanup command that is taken is the one its token names: the entry at that place in the list. */
  ghost predicate TakenFromList(t: seq<Entry>, i: nat) {
    i < |t| && t[i].Took? && t[i].attempt.token.Some?
    && var list, k := CleanupList(t[..i]), t[i].attempt.token.value; k < |list| && t[i].attempt.spec == list[k]
  }

  /** Cleanup commands are taken in the order they were queued: each is the entry of that list its token names. */
  lemma CleanupInOrder(env: Env, continueOnError: bool, features: seq<Feature>, events: seq<Event>, i: nat, k: nat)
    requires var t := Run(env, continueOnError, features, events).trace;
             i < k < |t| && t[i].Took? && t[k].Took? && t[i].attempt.token.Some? && t[k].attempt.token.Some?
    ensures var t := Run(env, continueOnError, features, events).trace;
            && TakenFromList(t, i) && TakenFromList(t, k) && CleanupList(t[..i]) <= CleanupList(t[..k])
            && t[i].attempt.token.value <= t[k].attempt.token.value
  {
    hide Run, Watch, SessionStep, QueueStep, ReplayStep, BlockStep, ConsoleStep, CaptureStep, CleanupList;
    var t := Run(env, continueOnError, features, events).trace;
    RunAccepted(env, continueOnError, features, events);
    AcceptedPrefix(t, i + 1);
    AcceptedPrefix(t, k + 1);
    WatchAt(t, i);
    WatchAt(t, k);
    TokensStay(t, i, k);
    CleanupListAt(t[..i]);
    CleanupListAt(t[..k]);
    CleanupListGrows(t, i, k);
  }

  lemma {:induction false} CleanupListGrows(t: seq<Entry>, i: nat, k: nat)
    requires i <= k <= |t|
    ensures CleanupList(t[..i]) <= CleanupList(t[..k])
    decreases k
  {
    if i < k {
      CleanupListGrows(t, i, k - 1);
      assert t[..k][..k - 1] == t[..k - 1];
    }
  }

  /** How often the cleanup command was taken since a feature or a cleanup last failed. */
  function Sends(t: seq<Entry>, token: nat): nat {
    if t == [] || t[|t| - 1].Failed? then 0
    else Sends(t[..|t| - 1], token) + if t[|t| - 1].Took? && t[|t| - 1].attempt.token == Some(token) then 1 else 0
  }

  lemma {:induction false} SendsAt(t: seq<Entry>, token: nat)
    requires Watch(t).tidy.ok
    ensures var v := Watch(t).tidy;
            && Sends(t, token) <= MAX_COMMAND_RECOVERY_RETRIES + 1
            && (token >= v.next ==> Sends(t, token) == 0)
            && (v.tidying == [] ==> v.sends == 0)
            && (forall m :: 0 <= m < |v.tidying| && v.tidying[m] == token ==>
                  Sends(t, token) == if m == 0 then v.sends else 0)
            && v.sends <= MAX_COMMAND_RECOVERY_RETRIES + 1
    decreases |t|
  {
    hide SessionStep, QueueStep, ReplayStep, BlockStep, ConsoleStep, CaptureStep;
    if t != [] {
      SendsAt(t[..|t| - 1], token);
      TidyAt(t[..|t| - 1]);
      SendsStep(Watch(t[..|t| - 1]).tidy, t[|t| - 1], token, Sends(t[..|t| - 1], token));
    }
  }

  lemma SendsStep(v: TidyView, e: Entry, token: nat, sends: nat)
    requires Ordered(v.tidying, v.next) && TidyStep(v, e).ok
    requires token >= v.next ==> sends == 0
    requires v.tidying == [] ==> v.sends == 0
    requires forall m :: 0 <= m < |v.tidying| && v.tidying[m] == token ==> sends == if m == 0 then v.sends else 0
    ensures var w := TidyStep(v, e);
            var more := if e.Failed? then 0 else sends + if e.Took? && e.attempt.token == Some(token) then 1 else 0;
            && (token >= w.next ==> more == 0)
            && (w.tidying == [] ==> w.sends == 0)
            && (forall m :: 0 <= m < |w.tidying| && w.tidying[m] == token ==> more == if m == 0 then w.sends else 0)
  {
  }

  /** Between failures, no cleanup command is written more than once and its retries. */
  lemma CleanupRetriesBounded(env: Env, continueOnError: bool, features: seq<Feature>, events: seq<Event>, i: nat,
      token: nat)
    requires i <= |Run(env, continueOnError, features, events).trace|
    ensures Sends(Run(env, continueOnError, features, events).trace[..i], token) <= MAX_COMMAND_RECOVERY_RETRIES + 1
  {
    hide Run, Watch, Sends;
    var t := Run(env, continueOnError, features, events).trace;
    RunAccepted(env, continueOnError, features, events);
    AcceptedPrefix(t, i);
    SendsAt(t[..i], token);
  }

  // ----- the output a command captures

  /** The console bytes consumed so far, in order. */
  function ConsumedBytes(t: seq<Entry>): seq<byte> {
    if t == [] then []
    else ConsumedBytes(t[..|t| - 1]) + if t[|t| - 1].Consumed? then t[|t| - 1].data else []
  }

  lemma {:induction false} ConsumedAt(t: seq<Entry>)
    ensures Watch(t).capture.consumed == ConsumedBytes(t)
    decreases |t|
  {
    hide SessionStep, QueueStep, TidyStep, ReplayStep, BlockStep, ConsoleStep;
    if t != [] {
      ConsumedAt(t[..|t| - 1]);
    }
  }

  lemma {:induction false} CaptureStart(t: seq<Entry>, j: nat, i: nat)
    requires j < i <= |t| && t[j].Took? && forall m :: j < m < i ==> !t[m].Took?
    ensures Watch(t[..i]).capture.start == |ConsumedBytes(t[..j])|
    decreases i
  {
    hide Watch, SessionStep, QueueStep, TidyStep, ReplayStep, BlockStep, ConsoleStep, ConsumedBytes;
    WatchAt(t, i - 1);
    if i - 1 > j {
      CaptureStart(t, j, i - 1);
    } else {
      ConsumedAt(t[..j]);
    }
  }

  /** Entry `i` ends the command taken at `j`; `output` is the console input consumed in between. */
  ghost predicate CapturedBetween(t: seq<Entry>, j: nat, i: nat, output: seq<byte>) {
    && j < i <= |t| && t[j].Took? && (forall m :: j < m < i ==> !t[m].Took? && !t[m].Ended?)
    && ConsumedBytes(t[..i]) == ConsumedBytes(t[..j]) + output
  }

  lemma {:induction false} ConsumedGrows(t: seq<Entry>, j: nat, i: nat)
    requires j <= i <= |t|
    ensures |ConsumedBytes(t[..j])| <= |ConsumedBytes(t[..i])|
    ensures ConsumedBytes(t[..j]) == ConsumedBytes(t[..i])[..|ConsumedBytes(t[..j])|]
    decreases i - j
  {
    if j < i {
      ConsumedGrows(t, j, i - 1);
      assert t[..i][..i - 1] == t[..i - 1];
    }
  }

  /** A credited capturing command holds exactly the bytes consumed while it was in flight. */
  lemma CaptureExact(env: Env, continueOnError: bool, features: seq<Feature>, events: seq<Event>, i: nat)
    requires var t := Run(env, continueOnError, features, events).trace;
             i < |t| && t[i].Ended? && t[i].ending == Credited && t[i].attempt.spec.Captures()
    ensures var t := Run(env, continueOnError, features, events).trace;
            exists j :: CapturedBetween(t, j, i, t[i].attempt.output)
  {
    hide Run, Watch, Accepted;
    RunAccepted(env, continueOnError, features, events);
    var j := CaptureFrom(Run(env, continueOnError, features, events).trace, i);
  }

  lemma CaptureFrom(t: seq<Entry>, i: nat) returns (j: nat)
    requires Accepted(Watch(t))
    requires i < |t| && t[i].Ended? && t[i].ending == Credited && t[i].attempt.spec.Captures()
    ensures CapturedBetween(t, j, i, t[i].attempt.output)
  {
    hide Watch, SessionStep, QueueStep, TidyStep, ReplayStep, BlockStep, ConsoleStep, ConsumedBytes;
    WatchAt(t, i);
    AcceptedPrefix(t, i + 1);
    j := FlightUntil(t, i);
    CaptureStart(t, j, i);
    ConsumedAt(t[..i]);
    ConsumedGrows(t, j, i);
  }

  /** Where the command that entry `i` ends was taken. */
  lemma FlightUntil(t: seq<Entry>, i: nat) returns (j: nat)
    requires i < |t| && Accepted(Watch(t)) && t[i].Ended?
    ensures j < i && t[j].Took? && t[j].attempt.number == t[i].attempt.number
    ensures forall m :: j < m < i ==> !t[m].Took? && !t[m].Ended?
  {
    hide Watch, Advance, Accepted;
    SessionAt(t, i);
    var k;
    j, k := FlightOrigin(t, i);
  }

  // ----- a borrowed console mode is given back

  /** The console was changed between the two places. */
  ghost predicate ChangedBetween(t: seq<Entry>, i: nat, j: nat) {
    exists c :: i < c < j <= |t| && t[c].ConsoleChanged?
  }

  /** The console mode taken at `i` is still borrowed at `j`. */
  ghost predicate Borrowed(t: seq<Entry>, i: nat, j: nat) {
    i < j <= |t| && t[i].ConsoleTaken? && forall m :: i < m < j ==> !t[m].ConsoleReleased?
  }

  lemma {:induction false} BorrowedView(t: seq<Entry>, i: nat, j: nat)
    requires Accepted(Watch(t)) && Borrowed(t, i, j)
    ensures var v := Watch(t[..j]).console; v.taken && (v.changed <==> ChangedBetween(t, i, j))
    ensures forall m :: i < m < j ==> !t[m].ConsoleTaken?
    decreases j
  {
    hide Watch, SessionStep, QueueStep, TidyStep, ReplayStep, BlockStep, CaptureStep;
    WatchAt(t, j - 1);
    AcceptedPrefix(t, j);
    if j - 1 > i {
      BorrowedView(t, i, j - 1);
      assert ChangedBetween(t, i, j) <==> ChangedBetween(t, i, j - 1) || t[j - 1].ConsoleChanged?;
    }
  }

  lemma {:induction false} FirstRelease(t: seq<Entry>, i: nat, j: nat, k: nat) returns (m: nat)
    requires Accepted(Watch(t)) && Borrowed(t, i, j) && j <= k < |t|
    requires t[k].Completed? || (t[k].Failed? && t[k].who.Some?)
    ensures i < m < k && Borrowed(t, i, m) && t[m].ConsoleReleased?
    decreases k - j
  {
    hide Watch, SessionStep, QueueStep, TidyStep, ReplayStep, BlockStep, CaptureStep;
    m := j;
    if !t[j].ConsoleReleased? {
      BorrowedView(t, i, j);
      WatchAt(t, j);
      AcceptedPrefix(t, j + 1);
      m := FirstRelease(t, i, j + 1, k);
    }
  }

  /**
   A console mode that a feature borrowed is given back before the feature is over, completed or
   skipped; the restore block is queued with it exactly when the mode was changed.
   */
  lemma ConsoleGivenBack(env: Env, continueOnError: bool, features: seq<Feature>, events: seq<Event>, i: nat, k: nat)
    returns (m: nat)
    requires var t := Run(env, continueOnError, features, events).trace;
             i < k < |t| && t[i].ConsoleTaken? && (t[k].Completed? || (t[k].Failed? && t[k].who.Some?))
    ensures var t := Run(env, continueOnError, features, events).trace;
            && i < m < k && t[m].ConsoleReleased? && Borrowed(t, i, m)
            && t[m].restoring == if ChangedBetween(t, i, m) then CONSOLE_RESTORE else []
  {
    hide Run, Watch, SessionStep, QueueStep, TidyStep, ReplayStep, BlockStep, CaptureStep;
    var t := Run(env, continueOnError, features, events).trace;
    RunAccepted(env, continueOnError, features, events);
    m := FirstRelease(t, i, i + 1, k);
    BorrowedView(t, i, m);
    WatchAt(t, m);
    AcceptedPrefix(t, m + 1);
  }

  lemma {:induction false} NotTaken(t: seq<Entry>, m: nat, j: nat)
    requires Accepted(Watch(t)) && m < j <= |t| && t[m].ConsoleReleased?
    requires forall c :: m < c < j ==> !t[c].ConsoleTaken?
    ensures !Watch(t[..j]).console.taken
    decreases j
  {
    hide Watch, SessionStep, QueueStep, TidyStep, ReplayStep, BlockStep, CaptureStep;
    WatchAt(t, j - 1);
    AcceptedPrefix(t, j);
    if j - 1 > m {
      NotTaken(t, m, j - 1);
    }
  }

  /** It is given back once: before it is released again it has been borrowed again. */
  lemma ConsoleReleasedOnce(env: Env, continueOnError: bool, features: seq<Feature>, events: seq<Event>, m: nat, n: nat)
    requires var t := Run(env, continueOnError, features, events).trace;
             m < n < |t| && t[m].ConsoleReleased? && t[n].ConsoleReleased?
    ensures var t := Run(env, continueOnError, features, events).trace; exists c :: m < c < n && t[c].ConsoleTaken?
  {
    hide Run, Watch, SessionStep, QueueStep, TidyStep, ReplayStep, BlockStep, CaptureStep;
    var t := Run(env, continueOnError, features, events).trace;
    RunAccepted(env, continueOnError, features, events);
    if forall c :: m < c < n ==> !t[c].ConsoleTaken? {
      NotTaken(t, m, n);
      WatchAt(t, n);
      AcceptedPrefix(t, n + 1);
    }
  }
}
