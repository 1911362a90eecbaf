/**
 What every run of the driver keeps across its layers: terminal, commander and login.
 */
module DriverTheorems {
  import opened Text
  import opened CliCommands
  import opened CommanderSpec
  import opened CommanderLedger
  import opened TerminalSpec
  import opened Login
  import opened DriverSpec
  import I = CommanderInvariant
  import T = CommanderTheorems

  /** The console input a commander has consumed. */
  function Input(s: State): seq<byte> {
    T.ConsumedBytes(s.trace)
  }

  /** The commander has consumed that much more, all of it over the connection it was on. */
  ghost predicate Eaten(s: State, r: State, data: seq<byte>) {
    Input(r) == Input(s) + data && Segments(r.trace) == ExtendLast(Segments(s.trace), data)
  }

  lemma EatenTwice(s: State, s1: State, r: State, first: seq<byte>, second: seq<byte>)
    requires Eaten(s, s1, first) && Eaten(s1, r, second)
    ensures Eaten(s, r, first + second)
  {
    hide Segments, T.ConsumedBytes, ExtendLast;
    ExtendExtend(Segments(s.trace), first, second);
  }

  lemma NothingEaten(s: State, r: State)
    requires r.trace == s.trace
    ensures Eaten(s, r, [])
  {
    hide Segments;
    ExtendNothing(Segments(s.trace));
  }

  lemma Reached(u: Setup, d: Driver)
    ensures Steady(Commander(u, d)) && (Open(Commander(u, d).trace) <==> !Commander(u, d).queue.ready)
  {
    hide Run, I.Inv, Open;
    I.RunKept(u.env, u.continueOnError, u.features, d.events);
    InvAccounts(Commander(u, d));
  }

  lemma TellNext(u: Setup, d: Driver, e: Event)
    ensures Commander(u, Tell(d, e)) == Step(Commander(u, d), e)
  {
    hide Step;
    assert (d.events + [e])[..|d.events|] == d.events;
  }

  lemma TellStep(u: Setup, d: Driver, e: Event)
    ensures Commander(u, Tell(d, e)) == Step(Commander(u, d), e)
    ensures var s, r := Commander(u, d), Commander(u, Tell(d, e));
            if e.Enqueue? && r != s then Input(r) == Input(s) && Segments(r.trace) == Segments(s.trace) + [[]]
            else !s.queue.ready || EventBytes(s, e) == [] ==> Eaten(s, r, EventBytes(s, e))
  {
    hide Step, Segments, Credits, WrittenBy, T.ConsumedBytes, EventBytes, ExtendLast, Open, Steady, OneLine, Credible;
    TellNext(u, d, e);
    Reached(u, d);
    StepAccount(Commander(u, d), e);
    ExtendNothing(Segments(Commander(u, d).trace));
  }

  lemma SeeStep(u: Setup, d: Driver, e: LoginEvent)
    ensures Conversation(u, See(d, e)) == LoginStep(u.config, Conversation(u, d), e)
    ensures Commander(u, See(d, e)) == Commander(u, d)
  {
    assert (d.logins + [e])[..|d.logins|] == d.logins;
  }

  /** Only a rejection ends the conversation. */
  lemma StepFails(c: Config, l: Login, e: LoginEvent)
    requires !l.failed && LoginStep(c, l, e).failed
    ensures e == Seen(CredentialRejected)
  {
  }

  /** The conversation only fails together with the driver, and not at a prompt. */
  ghost predicate Alive(u: Setup, d: Driver) {
    Conversation(u, d).failed ==> Commander(u, d).status.raised && !AtCommandPrompt(d)
  }

  /** Everything that left the buffer has reached the commander, over the same connection. */
  ghost predicate Follows(t: Stream, s: State) {
    Conserves(t) && Concat(t.consumed) == Input(s) && t.consumed == Segments(s.trace)
  }

  /** The same between turns: once the commander is ready, the terminal has moved on to its next connection. */
  ghost predicate Balanced(u: Setup, d: Driver) {
    var s := Commander(u, d);
    && Conserves(d.stream) && Concat(d.stream.consumed) == Input(s)
    && d.stream.consumed == Segments(s.trace) + (if s.queue.ready then [[]] else [])
    && (s.queue.ready ==> d.stream.buffer == [])
  }

  lemma BalancedFollows(u: Setup, d: Driver)
    requires !Commander(u, d).queue.ready
    ensures Balanced(u, d) <==> Follows(d.stream, Commander(u, d))
  {
    hide Run, Segments, Input, Conserves;
    assert Segments(Commander(u, d).trace) + [] == Segments(Commander(u, d).trace);
  }

  lemma FollowsStill(t: Stream, s: State, r: State)
    requires Follows(t, s) && Eaten(s, r, [])
    ensures Follows(t, r)
  {
    hide Segments, Input, Conserves, ExtendLast;
    ExtendNothing(Segments(s.trace));
  }

  lemma ThrownStep(u: Setup, d: Driver)
    requires !Commander(u, d).status.raised
    ensures Commander(u, Tell(d, Thrown)) == Raise(Commander(u, d))
    ensures Eaten(Commander(u, d), Commander(u, Tell(d, Thrown)), [])
  {
    hide Run, Eaten;
    TellStep(u, d, Thrown);
  }

  lemma SwitchStep(u: Setup, d: Driver, switch: Option<Credentials>)
    ensures Commander(u, Switch(d, switch)) == Commander(u, d)
    ensures Conversation(u, Switch(d, switch)).failed == Conversation(u, d).failed
    ensures var r := Switch(d, switch); r.(logins := d.logins) == d
  {
    hide Run, LoginRun;
    if switch.Some? {
      SeeStep(u, d, Switched(switch.value));
    }
  }

  lemma RunHandlerStep(u: Setup, d: Driver, state: CliState, stalled: bool)
    requires !Commander(u, d).status.raised && !Conversation(u, d).failed && (Known(state) ==> d.current == state)
    ensures var r := RunHandler(u, d, state, stalled);
            && Eaten(Commander(u, d), Commander(u, r), []) && Alive(u, r)
            && Commander(u, r).queue == Commander(u, d).queue
            && r.stream == d.stream && r.current == d.current && r.lastKnown == d.lastKnown
            && (state == CmdPrompt ==> !Commander(u, r).status.raised && !Conversation(u, r).failed)
  {
    hide Run, LoginRun, Eaten, LoginStep;
    ThrownStep(u, d);
    NothingEaten(Commander(u, d), Commander(u, d));
    match state
    case TnTimeout =>
      SeeStep(u, d.(newlines := d.newlines + 1), Prodded);
      if LoginStep(u.config, Conversation(u, d), Prodded).failed {
        StepFails(u.config, Conversation(u, d), Prodded);
      }
    case KernelPanic =>
    case _ =>
      SeeStep(u, d, Seen(state));
      var d1 := See(d, Seen(state));
      if Conversation(u, d1).failed {
        StepFails(u.config, Conversation(u, d), Seen(state));
        ThrownStep(u, d1);
      }
  }

  lemma TellAlive(u: Setup, d: Driver, e: Event)
    requires !e.Escaped? && !e.Enqueue? && Alive(u, d)
    ensures Alive(u, Tell(d, e)) && Commander(u, Tell(d, e)) == Step(Commander(u, d), e)
    ensures var s := Commander(u, d);
            !s.queue.ready || EventBytes(s, e) == [] ==> Eaten(s, Commander(u, Tell(d, e)), EventBytes(s, e))
  {
    hide Run, LoginRun, Eaten, EventBytes;
    TellStep(u, d, e);
  }

  lemma ProcessStateStep(u: Setup, d: Driver, state: CliState, data: seq<byte>, turn: Turn)
    requires !Commander(u, d).status.raised && !Conversation(u, d).failed
    requires d.current == state && (Known(state) ==> d.lastKnown == state)
    requires !Commander(u, d).queue.ready || data == []
    ensures var r := ProcessState(u, d, state, data, turn);
            Alive(u, r) && r.stream == d.stream && Eaten(Commander(u, d), Commander(u, r), data)
  {
    hide Run, LoginRun, Eaten, Step, RunHandler;
    assert [] + data == data + [] == data && data + [] + [] == data;
    if state == CmdPrompt {
      var d1 := RunHandler(u, d, state, turn.stalled);
      RunHandlerStep(u, d, state, turn.stalled);
      var d2 := Tell(d1, StateSeen(state, data));
      TellAlive(u, d1, StateSeen(state, data));
      EatenTwice(Commander(u, d), Commander(u, d1), Commander(u, d2), [], data);
      SwitchStep(u, d2, turn.switch);
      var d3 := Tell(Switch(d2, turn.switch), Ticked);
      TellAlive(u, Switch(d2, turn.switch), Ticked);
      EatenTwice(Commander(u, d), Commander(u, d2), Commander(u, d3), data, []);
    } else {
      var e := if state == CmdPromptEcho then EchoSeen(data) else StateSeen(state, data);
      TellAlive(u, d, e);
      var d1 := Switch(Tell(d, e), turn.switch);
      SwitchStep(u, Tell(d, e), turn.switch);
      if !Commander(u, d1).status.raised {
        var d2 := RunHandler(u, d1, state, turn.stalled);
        RunHandlerStep(u, d1, state, turn.stalled);
        EatenTwice(Commander(u, d), Commander(u, d1), Commander(u, d2), data, []);
        IdleStep(u, d2);
        EatenTwice(Commander(u, d), Commander(u, d2), Commander(u, Tell(Tell(d2, Ticked), IdlePrompt)), data, []);
      }
    }
  }

  lemma IdleStep(u: Setup, d: Driver)
    requires Alive(u, d)
    ensures var r := Tell(Tell(d, Ticked), IdlePrompt);
            Alive(u, r) && Eaten(Commander(u, d), Commander(u, r), [])
  {
    hide Run, LoginRun, Eaten, Step;
    var nothing: seq<byte> := [];
    assert nothing + nothing == nothing;
    TellAlive(u, d, Ticked);
    TellAlive(u, Tell(d, Ticked), IdlePrompt);
    EatenTwice(Commander(u, d), Commander(u, Tell(d, Ticked)), Commander(u, Tell(Tell(d, Ticked), IdlePrompt)), [], []);
  }

  /** Bytes that have left the buffer with a match are always taken. */
  lemma TakenWhole(s: State, data: seq<byte>)
    ensures Taken(s, data, false) == data
  {
  }

  lemma OfferOutputStep(u: Setup, d: Driver, state: CliState, data: seq<byte>, retained: bool)
    requires !Commander(u, d).status.raised && !Conversation(u, d).failed && !Commander(u, d).queue.ready
    requires Handed(d.stream, Commander(u, d), data, retained)
    ensures var r := OfferOutput(u, d, state, data, retained);
            Follows(r.stream, Commander(u, r)) && r.logins == d.logins && r.current == d.current
  {
    hide Run, LoginRun, Step, Discards, Eaten, Follows;
    var s := Commander(u, d);
    if data == [] {
      HandedNothing(d.stream, s, retained);
    } else {
      TakenWhole(s, data);
      TellStep(u, d, OutputArrived(data, retained));
      HandedOver(d.stream, s, Commander(u, Tell(d, OutputArrived(data, retained))), data, retained);
    }
  }

  /** Output about to be offered: it lies in the buffer, or it has just left it. */
  ghost predicate Handed(t: Stream, s: State, data: seq<byte>, retained: bool) {
    if retained then data == t.buffer && Follows(t, s)
    else
      Conserves(t) && Concat(t.consumed) == Input(s) + data && t.consumed == ExtendLast(Segments(s.trace), data)
  }

  lemma HandedNothing(t: Stream, s: State, retained: bool)
    requires Handed(t, s, [], retained)
    ensures Follows(t, s)
  {
    hide Segments, Input, Conserves, ExtendLast;
    ExtendNothing(Segments(s.trace));
  }

  lemma HandedOver(t: Stream, s: State, r: State, data: seq<byte>, retained: bool)
    requires Handed(t, s, data, retained) && Eaten(s, r, Taken(s, data, retained))
    ensures Follows(if retained then DiscardPrefix(t, Taken(s, data, retained)) else t, r)
  {
    hide Segments, Input, Conserves, ExtendLast, Discards, DiscardPrefix;
    TakenWhole(s, data);
    DiscardConserves(t, Taken(s, data, retained));
    ConcatExtend(Segments(s.trace), Taken(s, data, retained));
  }

  lemma UnmatchedStep(u: Setup, d: Driver, state: CliState, data: seq<byte>, retained: bool, turn: Turn)
    requires !Commander(u, d).status.raised && !Conversation(u, d).failed && !Commander(u, d).queue.ready
    requires Handed(d.stream, Commander(u, d), data, retained) && !Known(state)
    ensures var r := Unmatched(u, d, state, data, retained, turn); Follows(r.stream, Commander(u, r)) && Alive(u, r)
  {
    hide Run, LoginRun, ProcessState, OfferOutput, Follows, Eaten, Handed;
    var d0 := d.(current := state);
    OfferOutputStep(u, d0, state, data, retained);
    var d1 := OfferOutput(u, d0, state, data, retained);
    if !Commander(u, d1).status.raised {
      var d2 := Record(d1, state);
      ProcessStateStep(u, d2, state, [], turn);
      FollowsStill(d1.stream, Commander(u, d2), Commander(u, ProcessState(u, d2, state, [], turn)));
    }
  }

  lemma PassStep(u: Setup, d: Driver, turn: Turn)
    requires u.Valid() && !Commander(u, d).status.raised && !Conversation(u, d).failed
    requires !Commander(u, d).queue.ready && Follows(d.stream, Commander(u, d))
    ensures var r := Pass(u, d, turn); Follows(r.stream, Commander(u, r)) && Alive(u, r)
  {
    hide Run, LoginRun, Input, ProcessState, Unmatched, Expect, Winner, Eaten, Weave, Segments, ExtendLast, Wins;
    ExpectConserves(d.stream, u.patterns, turn.arrivals, false);
    ExpectFits(d.stream, u.patterns, turn.arrivals, false);
    var (stream, outcome) := Expect(d.stream, u.patterns, turn.arrivals, false);
    var d1 := d.(stream := stream);
    var s := Commander(u, d);
    match outcome
    case Overflow => ThrownFollows(u, d1);
    case ReaderFailed => ThrownFollows(u, d1);
    case TimedOut(data, news) => UnmatchedStep(u, d1, if news then Unknown else TnTimeout, data, true, turn);
    case Matched(index, data, stable) =>
      ConcatExtend(d.stream.consumed, data);
      ExpectIndex(d.stream, u.patterns, turn.arrivals);
      assert Handed(stream, s, data, false);
      if stable {
        var d2 := Record(d1, STATES[index]);
        ProcessStateStep(u, d2, STATES[index], data, turn);
        MatchedFollows(stream, s, Commander(u, ProcessState(u, d2, STATES[index], data, turn)), data);
      } else {
        UnmatchedStep(u, d1, if data != [] then Unknown else TnTimeout, data, false, turn);
      }
  }

  lemma MatchedFollows(t: Stream, s: State, r: State, data: seq<byte>)
    requires Handed(t, s, data, false) && Eaten(s, r, data)
    ensures Follows(t, r)
  {
    hide Segments, Input, Conserves, ExtendLast;
  }

  lemma ThrownFollows(u: Setup, d: Driver)
    requires !Commander(u, d).status.raised && !Conversation(u, d).failed && Follows(d.stream, Commander(u, d))
    ensures Follows(d.stream, Commander(u, Tell(d, Thrown))) && Alive(u, Tell(d, Thrown))
  {
    hide Run, LoginRun, Follows, Eaten;
    ThrownStep(u, d);
    FollowsStill(d.stream, Commander(u, d), Commander(u, Tell(d, Thrown)));
  }

  lemma CloseStep(u: Setup, d: Driver)
    requires Follows(d.stream, Commander(u, d)) && Alive(u, d)
    ensures Balanced(u, CloseWhenReady(u, d)) && Alive(u, CloseWhenReady(u, d))
  {
    hide Run, LoginRun, Input, Segments, Weave;
    if Commander(u, d).queue.ready {
      ClosedConserves(d.stream);
      ConcatAppend(d.stream.consumed, [[]]);
      assert Concat<byte>([[]]) == [] && Concat(d.stream.consumed) + [] == Concat(d.stream.consumed);
    } else {
      BalancedFollows(u, d);
    }
  }

  lemma HappenStep(u: Setup, d: Driver, h: Happening)
    requires u.Valid() && Balanced(u, d) && Alive(u, d)
    ensures Balanced(u, Happen(u, d, h)) && Alive(u, Happen(u, d, h))
  {
    hide Run, LoginRun, Balanced, Pass, Step;
    match h
    case Watched(features) => EnqueueStep(u, d, features);
    case Spun(turn) =>
      if !Commander(u, d).status.raised && !Commander(u, d).queue.ready {
        BalancedFollows(u, d);
        PassStep(u, d, turn);
        CloseStep(u, Pass(u, d, turn));
        var d1 := CloseWhenReady(u, Pass(u, d, turn));
        EscapeAlive(u, d1, AtCommandPrompt(d1));
      }
  }

  lemma EnqueueStep(u: Setup, d: Driver, features: seq<Feature>)
    requires Balanced(u, d) && Alive(u, d)
    ensures Balanced(u, Tell(d, Enqueue(features))) && Alive(u, Tell(d, Enqueue(features)))
  {
    hide Run, LoginRun, Input, Segments, Conserves, Eaten;
    TellStep(u, d, Enqueue(features));
    var r := Tell(d, Enqueue(features));
    assert Segments(Commander(u, r).trace) + [] == Segments(Commander(u, r).trace);
  }

  lemma EscapeAlive(u: Setup, d: Driver, atPrompt: bool)
    requires Balanced(u, d) && Alive(u, d) && atPrompt == AtCommandPrompt(d)
    ensures Balanced(u, Tell(d, Escaped(atPrompt))) && Alive(u, Tell(d, Escaped(atPrompt)))
  {
    hide Run, LoginRun, Input, Segments, Conserves, ExtendLast, Step;
    TellStep(u, d, Escaped(atPrompt));
    EscapedReady(Commander(u, d), atPrompt);
    ExtendNothing(Segments(Commander(u, d).trace));
  }

  lemma EscapedReady(s: State, atPrompt: bool)
    ensures var r := Step(s, Escaped(atPrompt)); r.queue.ready == s.queue.ready && (!atPrompt ==> r == s)
  {
    hide DueCommands, Queued;
  }

  lemma BootBalanced(u: Setup, limit: nat)
    ensures Balanced(u, Boot(limit)) && Alive(u, Boot(limit))
  {
    StartAccount(u.env, u.continueOnError, u.features);
    assert Concat<byte>([[]]) == [];
  }

  /**
   Between turns, every byte received was consumed by the commander, is retained, or was lost when the
   terminal was closed; and none is missing exactly when nothing was retained at any such moment.
   */
  lemma {:induction false} DriverKept(u: Setup, limit: nat, happenings: seq<Happening>)
    requires u.Valid()
    ensures var d := DriverRun(u, limit, happenings);
            && Balanced(u, d) && Alive(u, d)
            && (d.stream.received == Input(Commander(u, d)) + d.stream.buffer <==> Concat(d.stream.lost) == [])
    decreases |happenings|
  {
    hide Happen, Run, Input, Segments, Weave;
    if happenings == [] {
      BootBalanced(u, limit);
    } else {
      DriverKept(u, limit, happenings[..|happenings| - 1]);
      HappenStep(u, DriverRun(u, limit, happenings[..|happenings| - 1]), happenings[|happenings| - 1]);
    }
    NothingMissing(DriverRun(u, limit, happenings).stream);
  }

  lemma HandlerStream(u: Setup, d: Driver, state: CliState, stalled: bool)
    ensures RunHandler(u, d, state, stalled).stream == d.stream
  {
    hide Run, LoginRun;
  }

  lemma SameStream(u: Setup, d: Driver, state: CliState, data: seq<byte>, turn: Turn)
    ensures ProcessState(u, d, state, data, turn).stream == d.stream
  {
    hide Run, LoginRun, RunHandler;
    HandlerStream(u, d, state, turn.stalled);
    var e := if state == CmdPromptEcho then EchoSeen(data) else StateSeen(state, data);
    HandlerStream(u, Switch(Tell(d, e), turn.switch), state, turn.stalled);
  }

  lemma OfferedStream(u: Setup, d: Driver, state: CliState, data: seq<byte>, retained: bool)
    ensures OfferOutput(u, d, state, data, retained).stream.received == d.stream.received
  {
    hide Run, LoginRun, Taken;
  }

  /** The history of what was received is never rewritten: a turn adds to it at most. */
  lemma ReceivedGrows(u: Setup, d: Driver, turn: Turn)
    requires u.Valid()
    ensures d.stream.received <= TakeTurn(u, d, turn).stream.received
  {
    hide Run, LoginRun, ProcessState, OfferOutput, Expect, Winner, Wins;
    ExpectFits(d.stream, u.patterns, turn.arrivals, false);
    var (stream, outcome) := Expect(d.stream, u.patterns, turn.arrivals, false);
    var d1 := d.(stream := stream);
    match outcome
    case TimedOut(data, news) =>
      UnmatchedReceived(u, d1, if news then Unknown else TnTimeout, data, true, turn);
    case Matched(index, data, stable) =>
      ExpectIndex(d.stream, u.patterns, turn.arrivals);
      SameStream(u, Record(d1, STATES[index]), STATES[index], data, turn);
      UnmatchedReceived(u, d1, if data != [] then Unknown else TnTimeout, data, false, turn);
    case _ =>
  }

  lemma UnmatchedReceived(u: Setup, d: Driver, state: CliState, data: seq<byte>, retained: bool, turn: Turn)
    ensures Unmatched(u, d, state, data, retained, turn).stream.received == d.stream.received
  {
    hide Run, LoginRun, ProcessState, OfferOutput;
    OfferedStream(u, d.(current := state), state, data, retained);
    var d1 := OfferOutput(u, d.(current := state), state, data, retained);
    SameStream(u, Record(d1, state), state, [], turn);
  }

  // ----- exactly once, across all layers

  /** Bytes `lo` to `hi` of what the terminal received. */
  ghost predicate Slice(d: Driver, lo: nat, hi: nat, data: seq<byte>) {
    lo <= hi <= |d.stream.received| && data == d.stream.received[lo..hi]
  }

  /** How much of what the terminal received had been consumed or lost when the trace was that long. */
  function Position(d: Driver, t: seq<Entry>, i: nat): nat
    requires i <= |t| && |Segments(t[..i])| <= |d.stream.lost| + 1
  {
    |Upto(d.stream.lost, Segments(t[..i]))|
  }

  /** The bytes of those segments, with what was lost between them. */
  function Upto(lost: seq<seq<byte>>, segments: seq<seq<byte>>): seq<byte>
    requires 0 < |segments| <= |lost| + 1
  {
    Weave(segments, lost[..|segments| - 1])
  }

  lemma {:induction false} UptoPrecedes(lost: seq<seq<byte>>, a: seq<seq<byte>>, b: seq<seq<byte>>)
    requires Precedes(a, b) && |b| <= |lost| + 1
    ensures Upto(lost, a) <= Upto(lost, b)
    decreases |b|
  {
    var n := |b| - 1;
    assert lost[..n][..n] == lost[..n];
    if |a| == |b| {
      assert a[..n] == b[..n];
    } else {
      var c := b[..n];
      assert c[..|a| - 1] == a[..|a| - 1];
      UptoPrecedes(lost, a, c);
      assert lost[..n][..n - 1] == lost[..n - 1];
      assert Upto(lost, b) == Upto(lost, c) + lost[n - 1] + b[n];
    }
  }

  /** Everything up to any moment is a prefix of what was received. */
  lemma UptoReceived(u: Setup, d: Driver, i: nat)
    requires Balanced(u, d) && i <= |Commander(u, d).trace|
    ensures var segments := Segments(Commander(u, d).trace[..i]);
            |segments| <= |d.stream.lost| + 1 && Upto(d.stream.lost, segments) <= d.stream.received
  {
    hide Run, Input, Segments, Weave, Upto;
    var t, lost := Commander(u, d).trace, d.stream.lost;
    SegmentsGrow(t, i);
    UptoPrecedes(lost, Segments(t[..i]), d.stream.consumed);
    UptoAll(lost, d.stream.consumed);
  }

  lemma UptoAll(lost: seq<seq<byte>>, consumed: seq<seq<byte>>)
    requires |consumed| == |lost| + 1
    ensures Upto(lost, consumed) == Weave(consumed, lost)
  {
    assert lost[..|lost|] == lost;
  }

  /**
   The output a capturing command ends up with is the stretch of the serial stream between its
   dispatch and its completion, whether the bytes came in with timeouts or with matches; no byte is
   missing from it, because the terminal is not closed in between.
   */
  lemma CaptureAcrossLayers(u: Setup, limit: nat, happenings: seq<Happening>, i: nat) returns (j: nat)
    requires u.Valid()
    requires var t := Commander(u, DriverRun(u, limit, happenings)).trace;
             i < |t| && t[i].Ended? && t[i].ending == Credited && t[i].attempt.spec.Captures()
    ensures var d := DriverRun(u, limit, happenings);
            var t := Commander(u, d).trace;
            && T.CapturedBetween(t, j, i, t[i].attempt.output)
            && |Segments(t[..j])| == |Segments(t[..i])| <= |d.stream.lost| + 1
            && Slice(d, Position(d, t, j), Position(d, t, i), t[i].attempt.output)
  {
    hide Run, DriverRun, T.ConsumedBytes, Segments, Balanced, Weave, ExtendLast, Slice, Alive;
    var d := DriverRun(u, limit, happenings);
    DriverKept(u, limit, happenings);
    j := CaptureUntorn(u.env, u.continueOnError, u.features, d.events, i);
    CaptureSlice(u, d, j, i, Commander(u, d).trace[i].attempt.output);
  }

  lemma CaptureSlice(u: Setup, d: Driver, j: nat, i: nat, output: seq<byte>)
    requires Balanced(u, d) && j < i <= |Commander(u, d).trace|
    requires var t := Commander(u, d).trace; Segments(t[..i]) == ExtendLast(Segments(t[..j]), output)
    ensures var t := Commander(u, d).trace;
            && |Segments(t[..j])| == |Segments(t[..i])| <= |d.stream.lost| + 1
            && Slice(d, Position(d, t, j), Position(d, t, i), output)
  {
    hide Run, Segments, Balanced, Weave, ExtendLast;
    var t, lost := Commander(u, d).trace, d.stream.lost;
    UptoReceived(u, d, j);
    UptoReceived(u, d, i);
    WeaveExtend(Segments(t[..j]), lost[..|Segments(t[..j])| - 1], output);
  }

  /** No byte is captured twice: of two captures, one is over before the other begins. */
  lemma CapturesDisjoint(u: Setup, limit: nat, happenings: seq<Happening>, j: nat, i: nat, l: nat, k: nat,
      a: seq<byte>, b: seq<byte>)
    requires u.Valid() && i < k
    requires var t := Commander(u, DriverRun(u, limit, happenings)).trace;
             && k < |t| && t[i].Ended? && t[k].Ended?
             && T.CapturedBetween(t, j, i, a) && T.CapturedBetween(t, l, k, b)
    ensures var d := DriverRun(u, limit, happenings);
            var t := Commander(u, d).trace;
            && i < l && |Segments(t[..i])| <= |d.stream.lost| + 1 && |Segments(t[..l])| <= |d.stream.lost| + 1
            && Position(d, t, i) <= Position(d, t, l)
  {
    hide Run, DriverRun, T.ConsumedBytes, Segments, Balanced, Weave, Upto;
    var d := DriverRun(u, limit, happenings);
    var t := Commander(u, d).trace;
    assert i < l;
    DriverKept(u, limit, happenings);
    UptoReceived(u, d, i);
    UptoReceived(u, d, l);
    SegmentsGrow(t[..l], i);
    assert t[..l][..i] == t[..i];
    UptoPrecedes(d.stream.lost, Segments(t[..i]), Segments(t[..l]));
  }

  // ----- order within a prompt

  /**
   At a prompt the driver settles the bootstrap credentials first: a feature that switches to the
   desired credentials in reaction to the same prompt is not overruled.
   */
  lemma PromptSettlesFirst(u: Setup, d: Driver, data: seq<byte>, turn: Turn)
    requires turn.switch.Some? && !Conversation(u, d).failed
    ensures var l := Conversation(u, ProcessState(u, d, CmdPrompt, data, turn));
            l.active == turn.switch.value && !l.progress.pendingActivation
  {
    hide Run, LoginRun;
    SeeStep(u, d, Seen(CmdPrompt));
    var d1 := See(d, Seen(CmdPrompt));
    SeeStep(u, Tell(d1, StateSeen(CmdPrompt, data)), Switched(turn.switch.value));
  }
}
