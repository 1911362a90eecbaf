/**
 Commands and scopes of the FortiOS command line, and how command trees become
 the sequence of single lines the scheduler sends (fortinet/common/cli_commands.py).
 */
module CliCommands {
  import opened Text

  newtype byte = n: int | 0 <= n < 256

  type Context = seq<string>

  datatype CliState =
    | ProvideUsername | ProvidePassword | ChangePassword | CredentialRejected
    | CredentialAccepted | LicFail | CmdPrompt | CmdPromptEcho | ShuttingDown
    | Rebooting | SessionLost | CurrentPassword | Confirmation
    | ChangePasswordConfirm | MorePrompt | MultilinePrompt | KernelPanic
    | Unknown | TnTimeout

  datatype SessionLossAction = RestartBlock | CompleteBlock | Continue | Validate | Fail

  /** What `on_context_loss` may answer; `Unsupported` is any other value. */
  datatype ContextLossAction = Restart | Decline | Unsupported

  datatype CommandSpec = CommandSpec(
    line: string,
    completionStates: seq<CliState>,
    captureOutput: bool,
    suppressOutput: bool,
    sessionLoss: SessionLossAction,
    expected: Option<CliState>,
    failOnError: bool,
    contextLoss: ContextLossAction,
    continuation: bool)
  {
    predicate ClosesScope() {
      !continuation && Lower(Strip(line)) in ["next", "end"]
    }

    /** The states that complete the command: a command prompt unless the spec says otherwise. */
    function Completes(): seq<CliState> {
      if completionStates == [] then [CmdPrompt] else completionStates
    }

    predicate Captures() {
      captureOutput || ClosesScope()
    }

    predicate MayChangeContext() {
      var command := Lower(Strip(line));
      && !continuation
      && (|| StartsWith(command, "config ") || StartsWith(command, "edit ")
          || command in ["next", "end", "abort", "exit", "quit"]
          || command == "set vdom-mode multi-vdom")
    }
  }

  function Plain(line: string): CommandSpec {
    CommandSpec(line, [], false, false, RestartBlock, None, false, Restart, false)
  }

  /** A command block as features write it. `SetValue` holds the lines of the trimmed value. */
  datatype Command =
    | Literal(line: string)
    | Spec(spec: CommandSpec)
    | ConfigBlock(value: string, children: seq<Command>)
    | EditBlock(value: string, children: seq<Command>)
    | Sequence(name: string, children: seq<Command>)
    | SetValue(field: string, valueLines: seq<string>, failOnError: bool, validatePrompt: bool)

  /** The scope opener and closer lines. */
  function OpenLine(c: Command): string
    requires c.ConfigBlock? || c.EditBlock?
  {
    if c.ConfigBlock? then "config " + c.value else "edit " + c.value
  }

  function CloseLine(c: Command): string
    requires c.ConfigBlock? || c.EditBlock?
  {
    if c.ConfigBlock? then "end" else "next"
  }

  /**
   A prompt of either kind may end a physical line of several, and only a command prompt a line on its own.
   What is expected, if anything, can end it: a command prompt after the last line, else a continuation.
   */
  predicate Quotes(spec: CommandSpec, several: bool, last: bool, validatePrompt: bool) {
    && spec.Captures() && CmdPrompt in spec.Completes() && (MultilinePrompt in spec.Completes() <==> several)
    && (forall state :: state in spec.Completes() ==> state == CmdPrompt || state == MultilinePrompt)
    && (spec.expected.Some? <==> validatePrompt)
    && (spec.expected.Some? ==>
          spec.expected.value in spec.Completes() && (spec.expected.value == CmdPrompt <==> last))
  }

  /** One spec for each physical line; every line after the first continues the one before. */
  function QuotedLines(lines: seq<string>, failOnError: bool, validatePrompt: bool): (specs: seq<CommandSpec>)
    ensures |specs| == |lines|
    ensures forall i :: 0 <= i < |lines| ==> specs[i].line == lines[i] && specs[i].continuation == (i > 0)
    ensures forall i :: 0 <= i < |lines| ==> Quotes(specs[i], |lines| > 1, i == |lines| - 1, validatePrompt)
  {
    seq(|lines|, i requires 0 <= i < |lines| =>
      var last := i == |lines| - 1;
      CommandSpec(
        lines[i],
        if |lines| <= 1 then []
        else if last then [CmdPrompt, MultilinePrompt] else [MultilinePrompt, CmdPrompt],
        true, false, RestartBlock,
        if validatePrompt then Some(if last then CmdPrompt else MultilinePrompt) else None,
        failOnError, Restart, i > 0))
  }

  function FlattenLine(line: string): seq<CommandSpec> {
    if '\n' in line then QuotedLines(SplitLines(line), false, true) else [Plain(line)]
  }

  function SetValueLines(field: string, valueLines: seq<string>): (lines: seq<string>)
    ensures |lines| >= 1
  {
    var body := if valueLines == [] then [""] else valueLines;
    var quoted := body[0 := "set " + field + " \"" + body[0]];
    quoted[|quoted| - 1 := quoted[|quoted| - 1] + "\""]
  }

  function Flatten(c: Command): seq<CommandSpec>
    decreases c, 1
  {
    match c
    case Literal(line) => FlattenLine(line)
    case Spec(spec) => [spec]
    case ConfigBlock(_, children) => FlattenLine(OpenLine(c)) + FlattenAll(children) + [Plain(CloseLine(c))]
    case EditBlock(_, children) => FlattenLine(OpenLine(c)) + FlattenAll(children) + [Plain(CloseLine(c))]
    case Sequence(_, children) => FlattenAll(children)
    case SetValue(field, valueLines, failOnError, validatePrompt) =>
      QuotedLines(SetValueLines(field, valueLines), failOnError, validatePrompt)
  }

  function FlattenAll(children: seq<Command>): seq<CommandSpec>
    decreases children, 0
  {
    if children == [] then [] else Flatten(children[0]) + FlattenAll(children[1..])
  }

  /** The lines of a list of specs. */
  function LinesOf(specs: seq<CommandSpec>): (lines: seq<string>)
    ensures |lines| == |specs|
  {
    seq(|specs|, i requires 0 <= i < |specs| => specs[i].line)
  }

  /** A spec carries exactly one line; the constructor refuses anything else. */
  predicate Sendable(specs: seq<CommandSpec>) {
    forall i :: 0 <= i < |specs| ==> '\r' !in specs[i].line && '\n' !in specs[i].line
  }
}
