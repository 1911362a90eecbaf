/**
 The serial console driver (fortinet/common/fos_cli_driver.py): it reads the terminal until a
 known state appears, lets the login conversation and the commander react, in the order that
 state calls for, and is restarted by the launcher when an exception may be skipped.

 The commander and the login conversation are what their own events made of them, so every
 theorem about `Run` and `LoginRun` is a theorem about every run of the driver.
 */
module DriverSpec {
  import opened Text
  import opened CliCommands
  import opened CommanderSpec
  import opened TerminalSpec
  import opened Login

  const UNKNOWN_STALL_NEWLINE_LIMIT: nat := 3

  /** The states that have a pattern, in the order of the patterns. */
  const STATES: seq<CliState> := [
    CliState.ProvideUsername, CliState.ProvidePassword, CliState.ChangePassword, CredentialRejected, CredentialAccepted,
    LicFail, CmdPrompt, CmdPromptEcho, ShuttingDown, Rebooting, SessionLost, CurrentPassword, Confirmation,
    CliState.ChangePasswordConfirm, MorePrompt, MultilinePrompt, KernelPanic]

  /** What is fixed when the driver starts. */
  datatype Setup = Setup(
    config: Config,
    credentials: Credentials,
    env: Env,
    continueOnError: bool,
    features: seq<Feature>,
    patterns: seq<Pattern>)
  {
    ghost predicate Valid() {
      |patterns| == |STATES| && Honest(patterns)
    }
  }

  /**
   `events` is everything the commander was told, `logins` everything the login conversation saw.
   `unknown` tells that unrecognized output came in, with `newlines` the attempts to shake it off.
   */
  datatype Driver = Driver(
    stream: Stream,
    current: CliState,
    lastKnown: CliState,
    unknown: bool,
    newlines: nat,
    logins: seq<LoginEvent>,
    events: seq<Event>)

  function Boot(limit: nat): Driver {
    Driver(Opened(limit), Unknown, Unknown, false, 0, [], [])
  }

  function Commander(u: Setup, d: Driver): State {
    Run(u.env, u.continueOnError, u.features, d.events)
  }

  function Conversation(u: Setup, d: Driver): Login {
    LoginRun(u.config, u.credentials, d.logins)
  }

  /** What happens to arrive during one `expect`, and around it. */
  datatype Turn = Turn(arrivals: seq<Arrival>, stalled: bool, switch: Option<Credentials>)

  function Tell(d: Driver, e: Event): Driver {
    d.(events := d.events + [e])
  }

  function See(d: Driver, e: LoginEvent): Driver {
    d.(logins := d.logins + [e])
  }

  predicate Known(state: CliState) {
    state != Unknown && state != TnTimeout
  }

  /** The state is on record before anybody reacts to it. */
  function Record(d: Driver, state: CliState): Driver {
    if Known(state) then d.(current := state, lastKnown := state, unknown := false, newlines := 0)
    else d.(current := state)
  }

  /** A feature makes the desired credentials active while the commander runs it. */
  function Switch(d: Driver, switch: Option<Credentials>): Driver {
    if switch.Some? then See(d, Switched(switch.value)) else d
  }

  /** Output went on arriving for too long without a known state: a few newlines, then an error. */
  function RecoverUnknownStall(d: Driver, stalled: bool): Driver {
    if !d.unknown || !stalled then d
    else if d.newlines >= UNKNOWN_STALL_NEWLINE_LIMIT then Tell(d, Thrown)
    else See(d.(newlines := d.newlines + 1), Prodded)
  }

  /** The driver's own handler of the state; an exception of the handler is `Thrown`. */
  function RunHandler(u: Setup, d: Driver, state: CliState, stalled: bool): Driver {
    match state
    case TnTimeout => RecoverUnknownStall(d, stalled)
    case KernelPanic => Tell(d, Thrown)
    case _ =>
      var d1 := See(d, Seen(state));
      if Conversation(u, d1).failed then Tell(d1, Thrown) else d1
  }

  /** `_process_state`: at a prompt the credentials come first, otherwise the commander does. */
  function ProcessState(u: Setup, d: Driver, state: CliState, data: seq<byte>, turn: Turn): Driver {
    if state == CmdPrompt then
      var d1 := RunHandler(u, d, state, turn.stalled);
      Tell(Switch(Tell(d1, StateSeen(state, data)), turn.switch), Ticked)
    else
      var d1 := Switch(Tell(d, if state == CmdPromptEcho then EchoSeen(data) else StateSeen(state, data)), turn.switch);
      if Commander(u, d1).status.raised then d1
      else
        var d2 := RunHandler(u, d1, state, turn.stalled);
        if state == TnTimeout && d2.lastKnown == CmdPrompt then Tell(Tell(d2, Ticked), IdlePrompt) else d2
  }

  /** Output that no pattern matched: the commander may take it out of the retained buffer. */
  function OfferOutput(u: Setup, d: Driver, state: CliState, data: seq<byte>, retained: bool): Driver {
    if data == [] then d
    else
      var taken := Taken(Commander(u, d), data, retained);
      var d1 := Tell(d, OutputArrived(data, retained));
      var d2 := if retained then d1.(stream := DiscardPrefix(d1.stream, taken)) else d1;
      if state == Unknown && !Commander(u, d2).status.raised then d2.(unknown := true) else d2
  }

  /** A turn that no pattern decided. */
  function Unmatched(u: Setup, d: Driver, state: CliState, data: seq<byte>, retained: bool, turn: Turn): Driver {
    var d1 := OfferOutput(u, d.(current := state), state, data, retained);
    if Commander(u, d1).status.raised then d1 else ProcessState(u, Record(d1, state), state, [], turn)
  }

  /** One pass through the loop of `process_state`, up to an exception. */
  function Pass(u: Setup, d: Driver, turn: Turn): Driver
    requires u.Valid()
  {
    var (stream, outcome) := Expect(d.stream, u.patterns, turn.arrivals, false);
    var d1 := d.(stream := stream);
    match outcome
    case Overflow => Tell(d1, Thrown)
    case ReaderFailed => Tell(d1, Thrown)
    case TimedOut(data, news) => Unmatched(u, d1, if news then Unknown else TnTimeout, data, true, turn)
    case Matched(index, data, stable) =>
      ExpectIndex(d.stream, u.patterns, turn.arrivals);
      var state := STATES[index];
      if stable then ProcessState(u, Record(d1, state), state, data, turn)
      else Unmatched(u, d1, if data != [] then Unknown else TnTimeout, data, false, turn)
  }

  lemma ExpectIndex(t: Stream, patterns: seq<Pattern>, arrivals: seq<Arrival>)
    requires Honest(patterns)
    ensures var outcome := Expect(t, patterns, arrivals, false).1; outcome.Matched? ==> outcome.index < |patterns|
  {
    ExpectFits(t, patterns, arrivals, false);
  }

  /** A commander that has run out of features closes the terminal. */
  function CloseWhenReady(u: Setup, d: Driver): Driver {
    if Commander(u, d).queue.ready then d.(stream := Closed(d.stream)) else d
  }

  predicate AtCommandPrompt(d: Driver) {
    d.current == CmdPrompt || (d.current == TnTimeout && d.lastKnown == CmdPrompt)
  }

  /** A pass, and the launcher's attempt to go on after an exception. A stopped driver stays stopped. */
  function TakeTurn(u: Setup, d: Driver, turn: Turn): Driver
    requires u.Valid()
  {
    if Commander(u, d).status.raised || Commander(u, d).queue.ready then d
    else
      var d1 := CloseWhenReady(u, Pass(u, d, turn));
      if Commander(u, d1).status.raised then Tell(d1, Escaped(AtCommandPrompt(d1))) else d1
  }

  /** Between turns a file watcher may hand the commander more features. */
  datatype Happening = Spun(turn: Turn) | Watched(features: seq<Feature>)

  function Happen(u: Setup, d: Driver, h: Happening): Driver
    requires u.Valid()
  {
    match h
    case Spun(turn) => TakeTurn(u, d, turn)
    case Watched(features) => Tell(d, Enqueue(features))
  }

  function DriverRun(u: Setup, limit: nat, happenings: seq<Happening>): Driver
    requires u.Valid()
    decreases |happenings|
  {
    if happenings == [] then Boot(limit)
    else Happen(u, DriverRun(u, limit, happenings[..|happenings| - 1]), happenings[|happenings| - 1])
  }
}
