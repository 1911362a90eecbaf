/**
 The bootstrap from end to end: the driver loop, the login conversation, the terminal and the scheduler
 run static features (fortinet/common/features/base.py) against a device that serves them well.
 */
module BootstrapRun {
  import opened Text
  import opened CliCommands
  import opened CommanderSpec
  import opened StaticBootstrap
  import opened TerminalSpec
  import opened DriverSpec
  import L = Login
  import D = DriverTheorems

  /** One more exchange of a newline for unrecognized output would be one too many. */
  predicate Stalls(d: Driver, stalled: bool) {
    d.unknown && stalled && d.newlines >= UNKNOWN_STALL_NEWLINE_LIMIT
  }

  /** The command in flight does not take silence or unrecognized output for its completion. */
  predicate Waits(s: State) {
    s.flight.inflight.Some? ==>
      var completes := s.flight.inflight.value.spec.Completes(); Unknown !in completes && TnTimeout !in completes
  }

  /** The login conversation and the scheduler can do with that state. */
  ghost predicate Welcome(u: Setup, d: Driver, state: CliState, data: seq<byte>, switch: Option<L.Credentials>) {
    && state != KernelPanic
    && !Conversation(u, See(Switch(d, switch), L.Seen(state))).failed
    && (state != CmdPromptEcho ==> Friendly(Commander(u, d), StateSeen(state, data)))
  }

  /** What arrives during a turn is a state that is welcome, or none for the time being. */
  ghost predicate Serves(u: Setup, d: Driver, turn: Turn)
    requires u.Valid()
  {
    match Expect(d.stream, u.patterns, turn.arrivals, false).1
    case Overflow => false
    case ReaderFailed => false
    case TimedOut(_, news) => Waits(Commander(u, d)) && (news || !Stalls(d, turn.stalled))
    case Matched(index, data, stable) =>
      ExpectIndex(d.stream, u.patterns, turn.arrivals);
      if stable then Welcome(u, d, STATES[index], data, turn.switch)
      else Waits(Commander(u, d)) && (data != [] || !Stalls(d, turn.stalled))
  }

  /** Every turn is served well, and no features are handed over once the queue is done. */
  ghost predicate Served(u: Setup, limit: nat, happenings: seq<Happening>)
    requires u.Valid()
    decreases |happenings|
  {
    happenings != [] ==>
      var before := happenings[..|happenings| - 1];
      var d := DriverRun(u, limit, before);
      && Served(u, limit, before)
      && match happenings[|happenings| - 1] {
           case Spun(turn) => Commander(u, d).queue.ready || Serves(u, d, turn)
           case Watched(_) => !Commander(u, d).queue.ready
         }
  }

  /** Everything the driver told the scheduler so far was friendly. */
  ghost predicate Good(u: Setup, d: Driver) {
    Obliging(u.env, u.continueOnError, u.features, d.events)
  }

  lemma TellGood(u: Setup, d: Driver, e: Event)
    requires Good(u, d) && Friendly(Commander(u, d), e)
    ensures Good(u, Tell(d, e))
  {
    hide Friendly, Run;
    assert (d.events + [e])[..|d.events|] == d.events;
  }

  lemma HandlerTellsNothing(u: Setup, d: Driver, state: CliState, stalled: bool)
    requires state != KernelPanic
    requires if state == TnTimeout then !Stalls(d, stalled) else !Conversation(u, See(d, L.Seen(state))).failed
    ensures RunHandler(u, d, state, stalled).events == d.events
  {
    hide L.LoginRun;
  }

  lemma SwitchTellsNothing(d: Driver, switch: Option<L.Credentials>)
    ensures var r := Switch(d, switch);
            r.events == d.events && r.unknown == d.unknown && r.newlines == d.newlines
  {
  }

  lemma ProcessStateGood(u: Setup, d: Driver, state: CliState, data: seq<byte>, turn: Turn)
    requires Good(u, d) && state != KernelPanic && !Conversation(u, d).failed
    requires state != CmdPromptEcho ==> Friendly(Commander(u, d), StateSeen(state, data))
    requires if state == TnTimeout then !Stalls(d, turn.stalled)
             else !Conversation(u, See(Switch(d, turn.switch), L.Seen(state))).failed
    ensures Good(u, ProcessState(u, d, state, data, turn))
  {
    hide L.LoginRun, Run, RunHandler, Good, Switch, L.LoginStep;
    if state == CmdPrompt {
      PromptAccepted(u, d);
      HandlerTellsNothing(u, d, state, turn.stalled);
      var d1 := RunHandler(u, d, state, turn.stalled);
      SameEvents(u, d, d1);
      TellGood(u, d1, StateSeen(state, data));
      var d2 := Tell(d1, StateSeen(state, data));
      SwitchTellsNothing(d2, turn.switch);
      SameEvents(u, d2, Switch(d2, turn.switch));
      TellGood(u, Switch(d2, turn.switch), Ticked);
    } else {
      var e := if state == CmdPromptEcho then EchoSeen(data) else StateSeen(state, data);
      TellGood(u, d, e);
      var d1 := Switch(Tell(d, e), turn.switch);
      SwitchTellsNothing(Tell(d, e), turn.switch);
      SwitchTellsNothing(d, turn.switch);
      SameEvents(u, Tell(d, e), d1);
      SameLogins(u, d, Tell(d, e), turn.switch, state);
      HandlerTellsNothing(u, d1, state, turn.stalled);
      var d2 := RunHandler(u, d1, state, turn.stalled);
      SameEvents(u, d1, d2);
      TellGood(u, d2, Ticked);
      TellGood(u, Tell(d2, Ticked), IdlePrompt);
    }
  }

  lemma SameEvents(u: Setup, d: Driver, r: Driver)
    requires r.events == d.events
    ensures Good(u, r) == Good(u, d) && Commander(u, r) == Commander(u, d)
  {
  }

  lemma SameLogins(u: Setup, d: Driver, r: Driver, switch: Option<L.Credentials>, state: CliState)
    requires r.logins == d.logins
    ensures Conversation(u, See(Switch(r, switch), L.Seen(state)))
         == Conversation(u, See(Switch(d, switch), L.Seen(state)))
  {
    hide L.LoginRun;
  }

  /** A prompt never ends the login conversation. */
  lemma PromptAccepted(u: Setup, d: Driver)
    requires !Conversation(u, d).failed
    ensures !Conversation(u, See(d, L.Seen(CmdPrompt))).failed
  {
    hide L.LoginRun;
    D.SeeStep(u, d, L.Seen(CmdPrompt));
  }

  lemma UnmatchedGood(u: Setup, d: Driver, state: CliState, data: seq<byte>, retained: bool, turn: Turn)
    requires Good(u, d) && !Conversation(u, d).failed && !Known(state) && Waits(Commander(u, d))
    requires !Commander(u, d).status.raised && (state == TnTimeout ==> !Stalls(d, turn.stalled))
    ensures Good(u, Unmatched(u, d, state, data, retained, turn))
  {
    hide L.LoginRun, Run, Good, Waits, ProcessState, OfferOutput;
    var d0 := d.(current := state);
    SameEvents(u, d, d0);
    OfferGood(u, d0, state, data, retained);
    var d1 := OfferOutput(u, d0, state, data, retained);
    if !Commander(u, d1).status.raised {
      var d2 := Record(d1, state);
      SameEvents(u, d1, d2);
      WaitsAside(Commander(u, d2), state);
      UnknownAccepted(u, d2, turn.switch);
      ProcessStateGood(u, d2, state, [], turn);
    }
  }

  lemma OfferGood(u: Setup, d: Driver, state: CliState, data: seq<byte>, retained: bool)
    requires Good(u, d) && !Known(state) && Waits(Commander(u, d)) && !Commander(u, d).status.raised
    ensures var r := OfferOutput(u, d, state, data, retained);
            && Good(u, r) && Waits(Commander(u, r)) && Conversation(u, r) == Conversation(u, d)
            && (state == TnTimeout ==> r.unknown == d.unknown) && r.newlines == d.newlines
  {
    hide L.LoginRun, Run, Good, Step, Taken;
    TellGood(u, d, OutputArrived(data, retained));
    D.TellStep(u, d, OutputArrived(data, retained));
    var d1 := Tell(d, OutputArrived(data, retained));
    OutputWaits(Commander(u, d), data, retained);
    SameEvents(u, d1, d1.(stream := DiscardPrefix(d1.stream, Taken(Commander(u, d), data, retained))));
    var r := OfferOutput(u, d, state, data, retained);
    if data != [] {
      SameEvents(u, d1, r);
    }
  }

  lemma OutputWaits(s: State, data: seq<byte>, retained: bool)
    requires Waits(s) && !s.status.raised
    ensures Waits(Step(s, OutputArrived(data, retained)))
  {
    hide OnState, OnPromptEcho, OnTick, OnIdlePrompt, EnqueueRuntimeFeatures, RegisterCleanup, OnEscape, Observe,
         Discards;
    if s.queue.active.Some? {
      ObservedFlight(s, OutputSeen(data));
      ObservedFlight(Note(s, Consumed(data)), OutputSeen(data));
    }
  }

  lemma ObservedFlight(s: State, callback: Callback)
    requires s.queue.active.Some?
    ensures Observe(s, callback).flight == s.flight
  {
    hide VerdictOf, Activations;
  }

  lemma WaitsAside(s: State, state: CliState)
    requires Waits(s) && !Known(state)
    ensures Friendly(s, StateSeen(state, []))
  {
    hide Agrees;
  }

  /** Nor does unrecognized output. */
  lemma UnknownAccepted(u: Setup, d: Driver, switch: Option<L.Credentials>)
    requires !Conversation(u, d).failed
    ensures !Conversation(u, See(Switch(d, switch), L.Seen(Unknown))).failed
  {
    hide L.LoginRun;
    if switch.Some? {
      D.SeeStep(u, d, L.Switched(switch.value));
    }
    D.SeeStep(u, Switch(d, switch), L.Seen(Unknown));
  }

  lemma PassGood(u: Setup, d: Driver, turn: Turn)
    requires u.Valid() && Good(u, d) && Serves(u, d, turn)
    requires !Commander(u, d).status.raised && !Conversation(u, d).failed
    ensures Good(u, Pass(u, d, turn))
  {
    hide L.LoginRun, Run, Good, Waits, ProcessState, Unmatched, Expect, Friendly;
    var (stream, outcome) := Expect(d.stream, u.patterns, turn.arrivals, false);
    var d1 := d.(stream := stream);
    SameEvents(u, d, d1);
    match outcome
    case TimedOut(data, news) => UnmatchedGood(u, d1, if news then Unknown else TnTimeout, data, true, turn);
    case Matched(index, data, stable) =>
      ExpectIndex(d.stream, u.patterns, turn.arrivals);
      if stable {
        var d2 := Record(d1, STATES[index]);
        SameEvents(u, d, d2);
        SameLogins(u, d, d2, turn.switch, STATES[index]);
        ProcessStateGood(u, d2, STATES[index], data, turn);
      } else {
        UnmatchedGood(u, d1, if data != [] then Unknown else TnTimeout, data, false, turn);
      }
    case _ =>
  }

  lemma HappenGood(u: Setup, d: Driver, h: Happening)
    requires u.Valid() && Good(u, d) && !Commander(u, d).status.raised && !Conversation(u, d).failed
    requires match h
             case Spun(turn) => Commander(u, d).queue.ready || Serves(u, d, turn)
             case Watched(_) => !Commander(u, d).queue.ready
    ensures Good(u, Happen(u, d, h))
  {
    hide L.LoginRun, Run, Good, Pass, Serves;
    match h
    case Watched(features) => TellGood(u, d, Enqueue(features));
    case Spun(turn) =>
      if !Commander(u, d).queue.ready {
        PassGood(u, d, turn);
        var d1 := CloseWhenReady(u, Pass(u, d, turn));
        SameEvents(u, Pass(u, d, turn), d1);
        TellGood(u, d1, Escaped(AtCommandPrompt(d1)));
      }
  }

  lemma {:induction false} ServedGood(u: Setup, limit: nat, plans: seq<Plan>, happenings: seq<Happening>)
    requires u.Valid() && u.features == Statics(plans) && (forall i :: 0 <= i < |plans| ==> Proper(plans[i]))
    requires Served(u, limit, happenings)
    ensures Good(u, DriverRun(u, limit, happenings))
    decreases |happenings|
  {
    hide Happen, Serves, Proper, Statics, Run, Stage, L.LoginRun;
    if happenings != [] {
      var before := happenings[..|happenings| - 1];
      var d := DriverRun(u, limit, before);
      ServedGood(u, limit, plans, before);
      WholeRunStage(u.env, u.continueOnError, plans, d.events);
      StageCalm(Commander(u, d), plans, AnswersIn(u.env, u.continueOnError, u.features, d.events));
      D.DriverKept(u, limit, before);
      HappenGood(u, d, happenings[|happenings| - 1]);
    }
  }

  lemma StageCalm(s: State, plans: seq<Plan>, answers: nat)
    requires Stage(s, plans, answers)
    ensures !s.status.raised
  {
    hide Statics, Script, BlockLines, SentLines, Proper, Turns;
    if 1 <= answers <= |Script(plans)| {
      var plan, turn, rest :| GoingWith(s, Script(plans)[answers..], plan, turn, rest);
    }
  }

  /**
   End-to-end correctness: whatever arrives in whatever pieces, with ticks and timeouts in between, a
   device that serves the features well is sent the lines of all blocks in order, one for each of its
   answers, and the driver is done exactly when all of them are answered.
   */
  lemma ServedWell(u: Setup, limit: nat, plans: seq<Plan>, happenings: seq<Happening>)
    requires u.Valid() && u.features == Statics(plans) && (forall i :: 0 <= i < |plans| ==> Proper(plans[i]))
    requires Served(u, limit, happenings)
    ensures var d := DriverRun(u, limit, happenings);
            var s := Commander(u, d);
            var n := AnswersIn(u.env, u.continueOnError, u.features, d.events);
            && n <= |Script(plans)| + 1 && !s.status.raised
            && SentLines(s.trace) == (if n <= |Script(plans)| then Script(plans)[..n] else Script(plans))
            && (s.queue.ready <==> n == |Script(plans)| + 1)
  {
    hide DriverRun, Run, Proper, Statics, Script, SentLines, Stage, AnswersIn, Obliging;
    ServedGood(u, limit, plans, happenings);
    var events := DriverRun(u, limit, happenings).events;
    WholeRun(u.env, u.continueOnError, plans, events);
    WholeRunStage(u.env, u.continueOnError, plans, events);
    StageCalm(Run(u.env, u.continueOnError, u.features, events), plans,
              AnswersIn(u.env, u.continueOnError, u.features, events));
  }

  // ----- what a close costs

  /**
   How bytes get lost: whatever was read together with the prompt that ends the queue, and lies behind
   it. Here the queue is empty from the start.
   */
  lemma LostBehindThePrompt(u: Setup, limit: nat, data: seq<byte>, n: nat)
    requires u.Valid() && u.features == [] && 0 < |data| <= limit && n <= |data|
    requires Winner(u.patterns, []).None? && Winner(u.patterns, data) == Some(Hit(6, n))
    requires u.patterns[6](data[..n]).Some?
    ensures var d := DriverRun(u, limit, [Spun(Turn([Chunk(data)], false, None))]);
            Commander(u, d).queue.ready && d.stream.lost == [data[n..]]
  {
    hide Winner, Run, L.LoginRun, Step, ProcessState, Expect, TakeTurn, DriverRun;
    var turn := Turn([Chunk(data)], false, None);
    var d0 := Boot(limit);
    BootState(u, limit);
    ReadsThePrompt(u, limit, data, n);
    var t1 := Consume(Receive(d0.stream, data), n);
    var d1 := Record(d0.(stream := t1), CmdPrompt);
    SameEvents(u, d0, d1);
    FirstPromptEnds(u, d1, data[..n], turn);
    assert Pass(u, d0, turn) == ProcessState(u, d1, CmdPrompt, data[..n], turn);
    LastTurn(u, d0, turn);
    OneTurn(u, limit, turn);
    SameEvents(u, Pass(u, d0, turn), TakeTurn(u, d0, turn));
    assert ([] + data)[n..] == data[n..];
  }

  lemma OneTurn(u: Setup, limit: nat, turn: Turn)
    requires u.Valid()
    ensures DriverRun(u, limit, [Spun(turn)]) == TakeTurn(u, Boot(limit), turn)
  {
    hide TakeTurn;
    assert [Spun(turn)][..0] == [];
    assert DriverRun(u, limit, []) == Boot(limit);
  }

  lemma LastTurn(u: Setup, d: Driver, turn: Turn)
    requires u.Valid() && !Commander(u, d).status.raised && !Commander(u, d).queue.ready
    requires var p := Pass(u, d, turn); Commander(u, p).queue.ready && !Commander(u, p).status.raised
    ensures var p := Pass(u, d, turn); TakeTurn(u, d, turn) == p.(stream := Closed(p.stream))
  {
    hide Pass, Run;
    var p := Pass(u, d, turn);
    SameEvents(u, p, p.(stream := Closed(p.stream)));
  }

  lemma ReadsThePrompt(u: Setup, limit: nat, data: seq<byte>, n: nat)
    requires u.Valid() && 0 < |data| <= limit && n <= |data|
    requires Winner(u.patterns, []).None? && Winner(u.patterns, data) == Some(Hit(6, n))
    requires u.patterns[6](data[..n]).Some?
    ensures Expect(Opened(limit), u.patterns, [Chunk(data)], false)
         == (Consume(Receive(Opened(limit), data), n), Matched(6, data[..n], true))
  {
    hide Winner;
    assert [] + data == data;
  }

  lemma BootState(u: Setup, limit: nat)
    ensures Commander(u, Boot(limit)) == Start(Init(u.env, u.continueOnError), u.features)
    ensures !Conversation(u, Boot(limit)).failed
  {
  }

  lemma FirstPromptEnds(u: Setup, d: Driver, data: seq<byte>, turn: Turn)
    requires Commander(u, d) == Start(Init(u.env, u.continueOnError), []) && !Conversation(u, d).failed
    requires turn.switch.None?
    ensures var r := ProcessState(u, d, CmdPrompt, data, turn);
            Commander(u, r).queue.ready && !Commander(u, r).status.raised && r.stream == d.stream
  {
    hide Run, L.LoginRun, Step;
    PromptAccepted(u, d);
    var d1 := See(d, L.Seen(CmdPrompt));
    var d2 := Tell(d1, StateSeen(CmdPrompt, data));
    SameEvents(u, d, d1);
    D.TellStep(u, d1, StateSeen(CmdPrompt, data));
    NothingToDo(u.env, u.continueOnError, data);
    D.TellStep(u, d2, Ticked);
  }

  lemma NothingToDo(env: Env, continueOnError: bool, data: seq<byte>)
    ensures var s := Step(Start(Init(env, continueOnError), []), StateSeen(CmdPrompt, data));
            s.queue.ready && !s.status.raised && Step(s, Ticked) == s
  {
    hide Step, SentLines;
    StartUntouched(env, continueOnError, []);
    var s := Start(Init(env, continueOnError), []);
    assert Statics([]) == [];
    FirstPrompt(s, [], data);
    DoneTick(Step(s, StateSeen(CmdPrompt, data)));
  }

  lemma DoneTick(s: State)
    requires AllDone(s)
    ensures Step(s, Ticked) == s
  {
  }
}
