/**
 Logical startup commands become nested blocks and back (`parse_startup_config` in
 fortinet/common/features/startup_config.py, `flatten_commands` in fortinet/common/cli_commands.py).
 */
module StartupParser {
  import opened Text
  import opened CliCommands
  import opened StartupConfig

  datatype Outcome = Accepted(roots: seq<Command>) | Malformed(error: Error)

  /** Blocks read so far. Open blocks hold the children they have so far; the innermost is last. */
  datatype Scopes = Scopes(roots: seq<Command>, stack: seq<Command>)

  predicate IsBlock(c: Command) {
    c.ConfigBlock? || c.EditBlock?
  }

  predicate Sane(s: Scopes) {
    forall i :: 0 <= i < |s.stack| ==> IsBlock(s.stack[i])
  }

  /** The block with another body. */
  function WithBody(block: Command, children: seq<Command>): (r: Command)
    requires IsBlock(block)
    ensures IsBlock(r) && r.ConfigBlock? == block.ConfigBlock? && r.value == block.value && r.children == children
  {
    if block.ConfigBlock? then ConfigBlock(block.value, children) else EditBlock(block.value, children)
  }

  function WithChild(block: Command, child: Command): (r: Command)
    requires IsBlock(block)
    ensures IsBlock(r) && r.ConfigBlock? == block.ConfigBlock? && r.value == block.value
  {
    WithBody(block, block.children + [child])
  }

  /** The node joins the innermost open block, or the roots. */
  function Put(s: Scopes, node: Command): (r: Scopes)
    requires Sane(s)
    ensures Sane(r) && |r.stack| == |s.stack|
  {
    if s.stack == [] then s.(roots := s.roots + [node])
    else s.(stack := s.stack[..|s.stack| - 1] + [WithChild(s.stack[|s.stack| - 1], node)])
  }

  function Push(s: Scopes, block: Command): (r: Scopes)
    requires Sane(s) && IsBlock(block)
    ensures Sane(r)
  {
    s.(stack := s.stack + [block])
  }

  /** The innermost block is complete. */
  function Close(s: Scopes): (r: Scopes)
    requires Sane(s) && s.stack != []
    ensures Sane(r) && |r.stack| == |s.stack| - 1
  {
    Put(s.(stack := s.stack[..|s.stack| - 1]), s.stack[|s.stack| - 1])
  }

  datatype Fed = Next(scopes: Scopes) | Bad(error: Error)

  function FeedCommand(s: Scopes, line: string): (r: Fed)
    requires Sane(s)
    ensures r.Next? ==> Sane(r.scopes)
  {
    if StartsWith(line, "config ") then Next(Push(s, ConfigBlock(line[7..], [])))
    else if StartsWith(line, "edit ") then
      if s.stack == [] then Bad(EditOutsideConfig) else Next(Push(s, EditBlock(line[5..], [])))
    else if line == "next" then
      if s.stack == [] || !s.stack[|s.stack| - 1].EditBlock? then Bad(NextOutsideEdit) else Next(Close(s))
    else if line == "end" then
      if s.stack == [] || !s.stack[|s.stack| - 1].ConfigBlock? then Bad(EndOutsideConfig) else Next(Close(s))
    else if s.stack == [] then Bad(CommandOutsideConfig)
    else Next(Put(s, Literal(line)))
  }

  /** All commands, then whatever stopped the generator, then the check that no scope is open. */
  function ParseFrom(s: Scopes, commands: seq<string>, failure: Option<Error>): Outcome
    requires Sane(s)
    decreases |commands|
  {
    if commands == [] then
      if failure.Some? then Malformed(failure.value)
      else if s.stack != [] then Malformed(UnmatchedScope)
      else Accepted(s.roots)
    else
      match FeedCommand(s, commands[0])
      case Bad(e) => Malformed(e)
      case Next(s1) => ParseFrom(s1, commands[1..], failure)
  }

  const NOTHING := Scopes([], [])

  function ParseCommands(commands: seq<string>): Outcome {
    ParseFrom(NOTHING, commands, None)
  }

  /** `parse_startup_config` on the physical lines of the file. */
  function ParseStartup(lines: seq<string>): Outcome {
    ParseFrom(NOTHING, Commands(lines).commands, Commands(lines).failure)
  }

  // ----- well-scoped blocks

  /** A command that is no scope keyword. */
  predicate IsLeaf(line: string) {
    !StartsWith(line, "config ") && !StartsWith(line, "edit ") && line != "next" && line != "end"
  }

  predicate Scoped(c: Command)
    decreases c, 1
  {
    match c
    case Literal(line) => IsLeaf(line)
    case ConfigBlock(_, children) => AllScoped(children)
    case EditBlock(_, children) => AllScoped(children)
    case _ => false
  }

  predicate AllScoped(cs: seq<Command>)
    decreases cs, 0
  {
    cs == [] || (Scoped(cs[0]) && AllScoped(cs[1..]))
  }

  /** At the top level there is nothing but `config` blocks. */
  predicate ProperRoots(roots: seq<Command>) {
    AllScoped(roots) && forall i :: 0 <= i < |roots| ==> roots[i].ConfigBlock?
  }

  /** The logical lines of a block. */
  function LogicalLines(c: Command): seq<string>
    decreases c, 1
  {
    match c
    case Literal(line) => [line]
    case ConfigBlock(_, children) => [OpenLine(c)] + AllLines(children) + [CloseLine(c)]
    case EditBlock(_, children) => [OpenLine(c)] + AllLines(children) + [CloseLine(c)]
    case _ => []
  }

  function AllLines(cs: seq<Command>): seq<string>
    decreases cs, 0
  {
    if cs == [] then [] else LogicalLines(cs[0]) + AllLines(cs[1..])
  }

  lemma {:induction false} AllLinesAppend(a: seq<Command>, b: seq<Command>)
    ensures AllLines(a + b) == AllLines(a) + AllLines(b)
  {
    hide LogicalLines;
    if a == [] {
      assert a + b == b;
    } else {
      var all := a + b;
      assert all[0] == a[0] && all[1..] == a[1..] + b;
      AllLinesAppend(a[1..], b);
      assert AllLines(all) == LogicalLines(a[0]) + AllLines(all[1..]);
    }
  }

  lemma {:induction false} AllScopedAppend(a: seq<Command>, b: seq<Command>)
    requires AllScoped(a) && AllScoped(b)
    ensures AllScoped(a + b)
  {
    hide Scoped;
    if a == [] {
      assert a + b == b;
    } else {
      AllScopedAppend(a[1..], b);
      assert (a + b)[1..] == a[1..] + b;
    }
  }

  // ----- the parser inverts the printer

  /** The lines of the open blocks, outermost first, without their closers. */
  function OpenLines(stack: seq<Command>): seq<string>
    requires forall i :: 0 <= i < |stack| ==> IsBlock(stack[i])
    decreases |stack|
  {
    if stack == [] then []
    else
      var top := stack[|stack| - 1];
      assert IsBlock(top);
      OpenLines(stack[..|stack| - 1]) + [OpenLine(top)] + AllLines(top.children)
  }

  /** Everything read so far. */
  function ReadLines(s: Scopes): seq<string>
    requires Sane(s)
  {
    AllLines(s.roots) + OpenLines(s.stack)
  }

  ghost predicate ScopesOk(s: Scopes) {
    && Sane(s) && ProperRoots(s.roots)
    && (s.stack != [] ==> s.stack[0].ConfigBlock?)
    && forall i :: 0 <= i < |s.stack| ==> AllScoped(s.stack[i].children)
  }

  lemma OneLine(c: Command)
    ensures AllLines([c]) == LogicalLines(c) && (Scoped(c) ==> AllScoped([c]))
  {
    assert [c][1..] == [];
  }

  lemma PutReads(s: Scopes, node: Command)
    requires Sane(s)
    ensures ReadLines(Put(s, node)) == ReadLines(s) + LogicalLines(node)
  {
    hide LogicalLines;
    OneLine(node);
    if s.stack == [] {
      AllLinesAppend(s.roots, [node]);
    } else {
      var top := s.stack[|s.stack| - 1];
      AllLinesAppend(top.children, [node]);
      assert Put(s, node).stack[..|s.stack| - 1] == s.stack[..|s.stack| - 1];
    }
  }

  lemma PutOk(s: Scopes, node: Command)
    requires ScopesOk(s) && Scoped(node) && (s.stack == [] ==> node.ConfigBlock?)
    ensures ScopesOk(Put(s, node))
  {
    hide Scoped, AllScoped;
    OneLine(node);
    if s.stack == [] {
      AllScopedAppend(s.roots, [node]);
    } else {
      AllScopedAppend(s.stack[|s.stack| - 1].children, [node]);
    }
  }

  lemma PushReads(s: Scopes, block: Command)
    requires Sane(s) && IsBlock(block) && block.children == []
    ensures ReadLines(Push(s, block)) == ReadLines(s) + [OpenLine(block)]
  {
    assert (s.stack + [block])[..|s.stack|] == s.stack;
  }

  lemma CloseReads(s: Scopes)
    requires Sane(s) && s.stack != []
    ensures ReadLines(Close(s)) == ReadLines(s) + [CloseLine(s.stack[|s.stack| - 1])]
  {
    var top := s.stack[|s.stack| - 1];
    var s1 := s.(stack := s.stack[..|s.stack| - 1]);
    PutReads(s1, top);
    assert LogicalLines(top) == [OpenLine(top)] + AllLines(top.children) + [CloseLine(top)];
  }

  lemma CloseOk(s: Scopes)
    requires ScopesOk(s) && s.stack != []
    ensures ScopesOk(Close(s))
  {
    hide AllScoped;
    var top := s.stack[|s.stack| - 1];
    BlockScoped(top);
    PutOk(s.(stack := s.stack[..|s.stack| - 1]), top);
  }

  lemma BlockScoped(block: Command)
    requires IsBlock(block) && AllScoped(block.children)
    ensures Scoped(block)
  {
  }

  lemma FeedKeeps(s: Scopes, line: string)
    requires ScopesOk(s)
    ensures var r := FeedCommand(s, line);
            r.Next? ==> ScopesOk(r.scopes) && ReadLines(r.scopes) == ReadLines(s) + [line]
  {
    hide ReadLines, Put, Close, AllScoped, ProperRoots;
    if StartsWith(line, "config ") {
      assert "config " + line[7..] == line;
      PushReads(s, ConfigBlock(line[7..], []));
      NoneScoped();
    } else if StartsWith(line, "edit ") {
      assert "edit " + line[5..] == line;
      PushReads(s, EditBlock(line[5..], []));
      NoneScoped();
    } else if s.stack != [] {
      if line == "next" || line == "end" {
        CloseReads(s);
        CloseOk(s);
      } else {
        PutReads(s, Literal(line));
        PutOk(s, Literal(line));
      }
    }
  }

  lemma NoneScoped()
    ensures AllScoped([])
  {
  }

  lemma {:induction false} ParseSound(s: Scopes, commands: seq<string>)
    requires ScopesOk(s) && ParseFrom(s, commands, None).Accepted?
    ensures var roots := ParseFrom(s, commands, None).roots;
            ProperRoots(roots) && AllLines(roots) == ReadLines(s) + commands
    decreases |commands|
  {
    hide FeedCommand, ProperRoots;
    assert ProperRoots(s.roots);
    if commands != [] {
      FeedKeeps(s, commands[0]);
      ParseSound(FeedCommand(s, commands[0]).scopes, commands[1..]);
    }
  }

  lemma {:induction false} FeedLines(s: Scopes, c: Command, more: seq<string>, failure: Option<Error>)
    requires Sane(s) && Scoped(c) && (s.stack == [] ==> c.ConfigBlock?)
    ensures ParseFrom(s, LogicalLines(c) + more, failure) == ParseFrom(Put(s, c), more, failure)
    decreases c, 1
  {
    hide AllLines, AllScoped, Put, OpenLine, PutAll;
    if c.Literal? {
      assert ([c.line] + more)[1..] == more;
    } else {
      var s1 := Push(s, WithBody(c, []));
      var lines := LogicalLines(c) + more;
      var close := [CloseLine(c)] + more;
      assert lines == [OpenLine(c)] + (AllLines(c.children) + close);
      FeedOpener(s, c);
      FeedAllLines(s1, c.children, close, failure);
      PutAllTop(s, WithBody(c, []), c.children);
      assert [] + c.children == c.children && WithBody(c, c.children) == c;
      assert close[1..] == more;
      FeedCloser(s, c);
    }
  }

  lemma FeedOpener(s: Scopes, c: Command)
    requires Sane(s) && IsBlock(c) && (s.stack == [] ==> c.ConfigBlock?)
    ensures FeedCommand(s, OpenLine(c)) == Next(Push(s, WithBody(c, [])))
  {
    hide Close, Put;
    KeywordLines(c);
  }

  lemma FeedCloser(s: Scopes, c: Command)
    requires Sane(s) && IsBlock(c)
    ensures FeedCommand(Push(s, c), CloseLine(c)) == Next(Put(s, c))
  {
    hide Put;
    assert (s.stack + [c])[..|s.stack|] == s.stack;
  }

  lemma KeywordLines(c: Command)
    requires IsBlock(c)
    ensures c.ConfigBlock? ==> StartsWith(OpenLine(c), "config ") && OpenLine(c)[7..] == c.value
    ensures c.EditBlock? ==> StartsWith(OpenLine(c), "edit ") && OpenLine(c)[5..] == c.value
    ensures c.EditBlock? ==> !StartsWith(OpenLine(c), "config ")
  {
    if c.EditBlock? {
      assert OpenLine(c)[0] == 'e' && "config "[0] == 'c';
    }
  }

  function PutAll(s: Scopes, cs: seq<Command>): (r: Scopes)
    requires Sane(s)
    ensures Sane(r) && |r.stack| == |s.stack|
    decreases |cs|
  {
    if cs == [] then s else PutAll(Put(s, cs[0]), cs[1..])
  }

  lemma {:induction false} PutAllTop(s: Scopes, block: Command, cs: seq<Command>)
    requires Sane(s) && IsBlock(block)
    ensures var r := PutAll(Push(s, block), cs);
            r == Push(s, WithBody(block, block.children + cs))
    decreases |cs|
  {
    if cs == [] {
      assert block.children + [] == block.children;
    } else {
      PutAllTop(s, WithChild(block, cs[0]), cs[1..]);
      assert (s.stack + [block])[..|s.stack|] == s.stack;
      assert block.children + [cs[0]] + cs[1..] == block.children + cs;
    }
  }

  lemma {:induction false} FeedAllLines(s: Scopes, cs: seq<Command>, more: seq<string>, failure: Option<Error>)
    requires Sane(s) && AllScoped(cs) && (s.stack == [] ==> forall i :: 0 <= i < |cs| ==> cs[i].ConfigBlock?)
    ensures ParseFrom(s, AllLines(cs) + more, failure) == ParseFrom(PutAll(s, cs), more, failure)
    decreases cs, 0
  {
    hide LogicalLines, Scoped, Put, ParseFrom;
    if cs == [] {
      assert AllLines(cs) + more == more;
    } else {
      FeedLines(s, cs[0], AllLines(cs[1..]) + more, failure);
      assert LogicalLines(cs[0]) + (AllLines(cs[1..]) + more) == AllLines(cs) + more;
      FeedAllLines(Put(s, cs[0]), cs[1..], more, failure);
    }
  }

  lemma {:induction false} PutAllRoots(roots: seq<Command>, cs: seq<Command>)
    ensures PutAll(Scopes(roots, []), cs) == Scopes(roots + cs, [])
    decreases |cs|
  {
    if cs == [] {
      assert roots + [] == roots;
    } else {
      PutAllRoots(roots + [cs[0]], cs[1..]);
      assert roots + [cs[0]] + cs[1..] == roots + cs;
    }
  }

  /**
   Parser and printer are inverse: a command sequence is accepted with these roots if and only if the
   roots are well scoped, `config` blocks only, and their lines are the sequence.
   */
  lemma ParseExactly(commands: seq<string>, roots: seq<Command>)
    ensures ParseCommands(commands) == Accepted(roots) <==> ProperRoots(roots) && AllLines(roots) == commands
  {
    hide AllLines, AllScoped, PutAll, ParseFrom;
    NothingRead();
    if ParseCommands(commands) == Accepted(roots) {
      ParseSound(NOTHING, commands);
    }
    if ProperRoots(roots) && AllLines(roots) == commands {
      FeedAllLines(NOTHING, roots, [], None);
      PutAllRoots([], roots);
      assert commands + [] == commands && [] + roots == roots;
      ParseDone(roots);
    }
  }

  lemma NothingRead()
    ensures ScopesOk(NOTHING) && ReadLines(NOTHING) == []
  {
  }

  lemma ParseDone(roots: seq<Command>)
    ensures ParseFrom(Scopes(roots, []), [], None) == Accepted(roots)
  {
  }

  // ----- errors

  /** The closers the open scopes still need, innermost first. */
  function MissingClosers(stack: seq<Command>): seq<string>
    requires forall i :: 0 <= i < |stack| ==> IsBlock(stack[i])
    decreases |stack|
  {
    if stack == [] then []
    else
      assert IsBlock(stack[|stack| - 1]);
      [CloseLine(stack[|stack| - 1])] + MissingClosers(stack[..|stack| - 1])
  }

  lemma {:induction false} ClosersAccepted(s: Scopes)
    requires Sane(s)
    ensures ParseFrom(s, MissingClosers(s.stack), None).Accepted?
    decreases |s.stack|
  {
    if s.stack != [] {
      var top := s.stack[|s.stack| - 1];
      var lines := MissingClosers(s.stack);
      assert lines[0] == CloseLine(top) && lines[1..] == MissingClosers(s.stack[..|s.stack| - 1]);
      assert FeedCommand(s, lines[0]) == Next(Close(s));
      SameClosers(s);
      ClosersAccepted(Close(s));
    }
  }

  lemma SameClosers(s: Scopes)
    requires Sane(s) && s.stack != []
    ensures MissingClosers(Close(s).stack) == MissingClosers(s.stack[..|s.stack| - 1])
  {
    if |s.stack| > 1 {
      var below := s.stack[..|s.stack| - 1];
      assert Close(s).stack[..|s.stack| - 2] == below[..|s.stack| - 2];
    }
  }

  /** `UnmatchedScope` means the commands so far are good and only closers are missing. */
  lemma {:induction false} UnmatchedCanBeClosed(s: Scopes, commands: seq<string>) returns (closers: seq<string>)
    requires Sane(s) && ParseFrom(s, commands, None) == Malformed(UnmatchedScope)
    ensures closers != [] && ParseFrom(s, commands + closers, None).Accepted?
    decreases |commands|
  {
    hide FeedCommand;
    FeedErrors(s, if commands == [] then "" else commands[0]);
    if commands == [] {
      closers := MissingClosers(s.stack);
      ClosersAccepted(s);
      assert commands + closers == closers;
    } else {
      closers := UnmatchedCanBeClosed(FeedCommand(s, commands[0]).scopes, commands[1..]);
      assert (commands + closers)[1..] == commands[1..] + closers;
    }
  }

  lemma FeedErrors(s: Scopes, line: string)
    requires Sane(s)
    ensures FeedCommand(s, line) != Bad(UnmatchedScope)
  {
  }

  /** Every other error is final: nothing that could follow makes the file acceptable. */
  lemma {:induction false} ErrorsAreFinal(s: Scopes, commands: seq<string>, more: seq<string>)
    requires Sane(s) && ParseFrom(s, commands, None).Malformed?
    requires ParseFrom(s, commands, None) != Malformed(UnmatchedScope)
    ensures ParseFrom(s, commands + more, None) == ParseFrom(s, commands, None)
    decreases |commands|
  {
    hide FeedCommand;
    if commands != [] {
      assert (commands + more)[0] == commands[0] && (commands + more)[1..] == commands[1..] + more;
      if FeedCommand(s, commands[0]).Next? {
        ErrorsAreFinal(FeedCommand(s, commands[0]).scopes, commands[1..], more);
      }
    }
  }

  lemma {:induction false} FailurePassesOn(s: Scopes, commands: seq<string>, failure: Option<Error>)
    requires Sane(s) && failure.Some?
    ensures ParseFrom(s, commands, failure).Malformed?
    decreases |commands|
  {
    hide FeedCommand;
    if commands != [] && FeedCommand(s, commands[0]).Next? {
      FailurePassesOn(FeedCommand(s, commands[0]).scopes, commands[1..], failure);
    }
  }

  /**
   A startup file is accepted with these roots if and only if the roots are well-scoped `config`
   blocks and the file reads as their logical lines.
   */
  lemma StartupExactly(lines: seq<string>, roots: seq<Command>)
    ensures ParseStartup(lines) == Accepted(roots) <==> ProperRoots(roots) && Reads(lines, AllLines(roots))
  {
    hide Reads, Commands, AllLines, ProperRoots, ParseFrom;
    var produced := Commands(lines);
    if produced.failure.Some? {
      FailurePassesOn(NOTHING, produced.commands, produced.failure);
    } else {
      ParseExactly(produced.commands, roots);
      CommandsExactly(lines, produced.commands);
    }
    CommandsExactly(lines, AllLines(roots));
  }

  // ----- what is sent

  function PhysicalLines(line: string): seq<string> {
    if '\n' in line then SplitLines(line) else [line]
  }

  /** The physical lines of logical ones. */
  function Physical(lines: seq<string>): seq<string> {
    if lines == [] then [] else PhysicalLines(lines[0]) + Physical(lines[1..])
  }

  lemma {:induction false} PhysicalAppend(a: seq<string>, b: seq<string>)
    ensures Physical(a + b) == Physical(a) + Physical(b)
  {
    hide PhysicalLines;
    if a == [] {
      assert a + b == b;
    } else {
      var all := a + b;
      assert all[0] == a[0] && all[1..] == a[1..] + b;
      PhysicalAppend(a[1..], b);
      assert Physical(all) == PhysicalLines(a[0]) + Physical(all[1..]);
    }
  }

  lemma LinesOfAppend(a: seq<CommandSpec>, b: seq<CommandSpec>)
    ensures LinesOf(a + b) == LinesOf(a) + LinesOf(b)
  {
  }

  lemma PhysicalOne(line: string)
    ensures Physical([line]) == LinesOf(FlattenLine(line))
    ensures '\n' !in line ==> LinesOf([Plain(line)]) == Physical([line])
  {
    assert [line][1..] == [];
    QuotedLinesInert(line, 0);
  }

  lemma {:induction false} FlattenSends(c: Command)
    requires Scoped(c)
    ensures LinesOf(Flatten(c)) == Physical(LogicalLines(c))
    decreases c, 1
  {
    hide Physical, LinesOf, FlattenLine, AllLines, FlattenAll, AllScoped;
    if c.Literal? {
      PhysicalOne(c.line);
    } else {
      var begin := FlattenLine(OpenLine(c));
      var body := FlattenAll(c.children);
      FlattenAllSends(c.children);
      PhysicalOne(OpenLine(c));
      PhysicalOne(CloseLine(c));
      LinesOfAppend(begin, body);
      LinesOfAppend(begin + body, [Plain(CloseLine(c))]);
      PhysicalAppend([OpenLine(c)], AllLines(c.children));
      PhysicalAppend([OpenLine(c)] + AllLines(c.children), [CloseLine(c)]);
    }
  }

  lemma {:induction false} FlattenAllSends(cs: seq<Command>)
    requires AllScoped(cs)
    ensures LinesOf(FlattenAll(cs)) == Physical(AllLines(cs))
    decreases cs, 0
  {
    hide LinesOf, Physical, Flatten, LogicalLines, Scoped;
    if cs == [] {
      NothingSent();
    } else {
      FlattenSends(cs[0]);
      FlattenAllSends(cs[1..]);
      LinesOfAppend(Flatten(cs[0]), FlattenAll(cs[1..]));
      PhysicalAppend(LogicalLines(cs[0]), AllLines(cs[1..]));
    }
  }

  lemma NothingSent()
    ensures LinesOf([]) == [] && Physical([]) == []
  {
  }

  /** Flattening what was accepted sends the commands of the file, each physical line by itself. */
  lemma AcceptedIsSent(commands: seq<string>)
    requires ParseCommands(commands).Accepted?
    ensures LinesOf(FlattenAll(ParseCommands(commands).roots)) == Physical(commands)
  {
    hide ParseCommands, AllLines, LinesOf, Physical;
    ParseExactly(commands, ParseCommands(commands).roots);
    FlattenAllSends(ParseCommands(commands).roots);
  }

  // ----- the parser in place

  /** `parse_startup_config`: blocks under construction on a stack, one error for each misplaced line. */
  method Parse(lines: seq<string>) returns (outcome: Outcome)
    ensures outcome == ParseStartup(lines)
    ensures outcome.Accepted? ==> ProperRoots(outcome.roots)
  {
    hide Commands, Put, ProperRoots, AllScoped, ScopesOk;
    var produced := Commands(lines);
    var scopes := NOTHING;
    NothingRead();
    for i := 0 to |produced.commands|
      invariant ScopesOk(scopes) && Sane(scopes)
      invariant ParseStartup(lines) == ParseFrom(scopes, produced.commands[i..], produced.failure)
    {
      var line := produced.commands[i];
      assert produced.commands[i..][0] == line && produced.commands[i..][1..] == produced.commands[i + 1..];
      FeedKeeps(scopes, line);
      if StartsWith(line, "config ") {
        scopes := Push(scopes, ConfigBlock(line[7..], []));
      } else if StartsWith(line, "edit ") {
        if scopes.stack == [] {
          return Malformed(EditOutsideConfig);
        }
        scopes := Push(scopes, EditBlock(line[5..], []));
      } else if line == "next" {
        if scopes.stack == [] || !scopes.stack[|scopes.stack| - 1].EditBlock? {
          return Malformed(NextOutsideEdit);
        }
        scopes := Close(scopes);
      } else if line == "end" {
        if scopes.stack == [] || !scopes.stack[|scopes.stack| - 1].ConfigBlock? {
          return Malformed(EndOutsideConfig);
        }
        scopes := Close(scopes);
      } else {
        if scopes.stack == [] {
          return Malformed(CommandOutsideConfig);
        }
        scopes := Put(scopes, Literal(line));
      }
    }
    assert produced.commands[|produced.commands|..] == [];
    if produced.failure.Some? {
      return Malformed(produced.failure.value);
    }
    if scopes.stack != [] {
      return Malformed(UnmatchedScope);
    }
    RootsProper(scopes);
    return Accepted(scopes.roots);
  }

  lemma RootsProper(s: Scopes)
    requires ScopesOk(s)
    ensures ProperRoots(s.roots)
  {
  }
}
