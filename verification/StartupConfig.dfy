/**
 The startup configuration file: physical lines become logical commands, and commands become
 nested blocks (fortinet/common/features/startup_config.py).
 */
module StartupConfig {
  import opened Text
  import opened CliCommands

  // ----- the quote automaton

  /** Inside which quote, and whether the previous character was a backslash. */
  datatype Quoting = Quoting(quote: Option<char>, escaped: bool)

  function ScanChar(q: Quoting, c: char): Quoting {
    if q.escaped then q.(escaped := false)
    else if c == '\\' then q.(escaped := true)
    else if q.quote == Some(c) then q.(quote := None)
    else if q.quote.None? && (c == '\'' || c == '"') then q.(quote := Some(c))
    else q
  }

  function ScanChars(q: Quoting, line: string): Quoting
    decreases |line|
  {
    if line == "" then q else ScanChar(ScanChars(q, line[..|line| - 1]), line[|line| - 1])
  }

  /** A physical line: escapes do not reach across its end, quotes do. */
  function ScanLine(quote: Option<char>, line: string): Quoting {
    ScanChars(Quoting(quote, false), line)
  }

  /** The command goes on after this line. */
  predicate Continues(q: Quoting) {
    q.quote.Some? || q.escaped
  }

  datatype Error =
    | UnterminatedQuote(startLine: nat)
    | UnfinishedContinuation(startLine: nat)
    | EditOutsideConfig
    | NextOutsideEdit
    | EndOutsideConfig
    | CommandOutsideConfig
    | UnmatchedScope

  predicate SkippedLine(line: string) {
    var text := LStrip(line);
    text == "" || text[0] == '#'
  }

  /** The lines of one logical command: the first is trimmed on the left, the last on the right. */
  function Glue(lines: seq<string>): (r: seq<string>)
    ensures |r| == |lines|
  {
    seq(|lines|, i requires 0 <= i < |lines| =>
      var first := if i == 0 then LStrip(lines[i]) else lines[i];
      if i == |lines| - 1 then RStrip(first) else first)
  }

  /** What a generator yields before it is exhausted or raises. */
  datatype Yield = Yield(commands: seq<string>, failure: Option<Error>)

  /** The automaton's loop: `pending` are the lines of the command so far. */
  function CommandsFrom(lines: seq<string>, number: nat, pending: seq<string>, quote: Option<char>,
      startLine: nat): Yield
    decreases |lines|
  {
    if lines == [] then
      Yield([], if pending == [] then None
                else Some(if quote.Some? then UnterminatedQuote(startLine) else UnfinishedContinuation(startLine)))
    else if pending == [] && SkippedLine(lines[0]) then CommandsFrom(lines[1..], number + 1, [], quote, startLine)
    else
      var line := if pending == [] then LStrip(lines[0]) else lines[0];
      var started := if pending == [] then number else startLine;
      var q := ScanLine(quote, line);
      if Continues(q) then CommandsFrom(lines[1..], number + 1, pending + [line], q.quote, started)
      else
        var rest := CommandsFrom(lines[1..], number + 1, [], None, started);
        rest.(commands := [JoinLines(pending + [RStrip(line)])] + rest.commands)
  }

  /** `_startup_config_commands`. */
  function Commands(lines: seq<string>): Yield {
    CommandsFrom(lines, 1, [], None, 0)
  }

  // ----- what the automaton accepts, said without the automaton

  /** The quote state after whole physical lines. */
  function QuoteAfter(lines: seq<string>): Quoting
    decreases |lines|
  {
    if lines == [] then Quoting(None, false)
    else ScanLine(QuoteAfter(lines[..|lines| - 1]).quote, lines[|lines| - 1])
  }

  /** The lines as they are scanned: the first one without its indentation. */
  function Scanned(lines: seq<string>): (r: seq<string>)
    ensures |r| == |lines|
  {
    if lines == [] then [] else [LStrip(lines[0])] + lines[1..]
  }

  /** These lines are one command: it starts with text, and only at its end nothing is open. */
  ghost predicate IsCommand(lines: seq<string>) {
    && lines != [] && !SkippedLine(lines[0])
    && !Continues(QuoteAfter(Scanned(lines)))
    && forall k :: 0 < k < |lines| ==> Continues(QuoteAfter(Scanned(lines)[..k]))
  }

  /** The commands are the lines of the file, grouped, without the blank lines and comments between them. */
  ghost predicate Reads(lines: seq<string>, commands: seq<string>)
    decreases |lines|
  {
    if lines == [] then commands == []
    else if SkippedLine(lines[0]) then Reads(lines[1..], commands)
    else
      && commands != []
      && exists n :: 0 < n <= |lines| && IsCommand(lines[..n])
                     && commands[0] == JoinLines(Glue(lines[..n])) && Reads(lines[n..], commands[1..])
  }

  lemma ScannedAppend(taken: seq<string>, line: string)
    requires taken != []
    ensures Scanned(taken + [line]) == Scanned(taken) + [line]
    ensures QuoteAfter(Scanned(taken + [line])) == ScanLine(QuoteAfter(Scanned(taken)).quote, line)
  {
    hide LStrip, ScanLine;
    assert (taken + [line])[1..] == taken[1..] + [line];
    QuoteAppend(Scanned(taken), line);
  }

  lemma QuoteAppend(lines: seq<string>, line: string)
    ensures QuoteAfter(lines + [line]) == ScanLine(QuoteAfter(lines).quote, line)
  {
    assert (lines + [line])[..|lines|] == lines;
  }

  lemma GlueAppend(taken: seq<string>, line: string)
    requires taken != []
    ensures Glue(taken + [line]) == Scanned(taken) + [RStrip(line)]
  {
    hide LStrip, RStrip;
    var all := taken + [line];
    assert all[0] == taken[0] && all[|taken|] == line;
    forall i | 0 < i < |taken| ensures Glue(all)[i] == Scanned(taken)[i] {
      assert all[i] == taken[i];
    }
  }

  lemma ScannedPrefix(lines: seq<string>, k: nat)
    requires 0 < k <= |lines|
    ensures Scanned(lines)[..k] == Scanned(lines[..k])
  {
  }

  lemma ScannedOne(line: string)
    ensures Scanned([line]) == [LStrip(line)] && Glue([line]) == [RStrip(LStrip(line))]
    ensures QuoteAfter(Scanned([line])) == ScanLine(None, LStrip(line))
  {
    assert [LStrip(line)][..0] == [];
  }

  /** A command has begun with these lines and is not over. */
  ghost predicate IsPartial(taken: seq<string>) {
    && taken != [] && !SkippedLine(taken[0])
    && forall k :: 0 < k <= |taken| ==> Continues(QuoteAfter(Scanned(taken)[..k]))
  }

  lemma PartialAppend(taken: seq<string>, line: string)
    requires IsPartial(taken)
    ensures var all := taken + [line];
            if Continues(QuoteAfter(Scanned(all))) then IsPartial(all) else IsCommand(all)
  {
    hide QuoteAfter, Continues, SkippedLine;
    var all := taken + [line];
    ScannedAppend(taken, line);
    forall k | 0 < k <= |taken| ensures Scanned(all)[..k] == Scanned(taken)[..k] {
    }
    assert Scanned(all)[..|all|] == Scanned(all);
  }

  lemma PartialOne(line: string)
    requires !SkippedLine(line)
    ensures if Continues(ScanLine(None, LStrip(line))) then IsPartial([line]) else IsCommand([line])
  {
    ScannedOne(line);
    assert Scanned([line])[..1] == Scanned([line]);
  }

  /** What the automaton yields is a reading of the lines. */
  lemma {:induction false} GatherReads(taken: seq<string>, lines: seq<string>, number: nat, start: nat) returns (n: nat)
    requires IsPartial(taken)
    requires CommandsFrom(lines, number, Scanned(taken), QuoteAfter(Scanned(taken)).quote, start).failure.None?
    ensures var cs := CommandsFrom(lines, number, Scanned(taken), QuoteAfter(Scanned(taken)).quote, start).commands;
            && cs != [] && 0 < n <= |lines| && IsCommand(taken + lines[..n])
            && cs[0] == JoinLines(Glue(taken + lines[..n])) && Reads(lines[n..], cs[1..])
    decreases |lines|, 1
  {
    hide IsCommand, IsPartial, QuoteAfter, Scanned, Glue, JoinLines, ScanLine, SkippedLine, Continues, Reads, LStrip,
         RStrip;
    assert taken != [] by { PartialNonEmpty(taken); }
    ScannedAppend(taken, lines[0]);
    GlueAppend(taken, lines[0]);
    PartialAppend(taken, lines[0]);
    if Continues(QuoteAfter(Scanned(taken + [lines[0]]))) {
      n := GatherReads(taken + [lines[0]], lines[1..], number + 1, start);
      assert taken + [lines[0]] + lines[1..][..n] == taken + lines[..n + 1];
      assert lines[1..][n..] == lines[n + 1..];
      n := n + 1;
    } else {
      n := 1;
      assert lines[..1] == [lines[0]];
      YieldsReading(lines[1..], number + 1, start);
    }
  }

  lemma PartialNonEmpty(taken: seq<string>)
    requires IsPartial(taken)
    ensures taken != [] && Scanned(taken) != []
  {
  }

  lemma {:induction false} YieldsReading(lines: seq<string>, number: nat, start: nat)
    requires CommandsFrom(lines, number, [], None, start).failure.None?
    ensures Reads(lines, CommandsFrom(lines, number, [], None, start).commands)
    decreases |lines|, 1
  {
    hide IsCommand, QuoteAfter, Scanned, Glue, JoinLines, ScanLine, SkippedLine, Continues;
    if lines != [] {
      if SkippedLine(lines[0]) {
        YieldsReading(lines[1..], number + 1, start);
      } else {
        var n := YieldsCommand(lines, number, start);
        assert IsCommand(lines[..n]);
      }
    }
  }

  lemma {:induction false} YieldsCommand(lines: seq<string>, number: nat, start: nat) returns (n: nat)
    requires lines != [] && !SkippedLine(lines[0])
    requires CommandsFrom(lines, number, [], None, start).failure.None?
    ensures var cs := CommandsFrom(lines, number, [], None, start).commands;
            && cs != [] && 0 < n <= |lines| && IsCommand(lines[..n])
            && cs[0] == JoinLines(Glue(lines[..n])) && Reads(lines[n..], cs[1..])
    decreases |lines|, 0
  {
    hide IsCommand, IsPartial, QuoteAfter, Scanned, Glue, JoinLines, ScanLine, SkippedLine, Reads, LStrip, RStrip;
    ScannedOne(lines[0]);
    PartialOne(lines[0]);
    assert lines[..1] == [lines[0]];
    var line := LStrip(lines[0]);
    if Continues(ScanLine(None, line)) {
      assert [] + [line] == [line];
      n := GatherReads([lines[0]], lines[1..], number + 1, number);
      assert [lines[0]] + lines[1..][..n] == lines[..n + 1];
      assert lines[1..][n..] == lines[n + 1..];
      n := n + 1;
    } else {
      n := 1;
      assert [] + [RStrip(line)] == [RStrip(line)];
      YieldsReading(lines[1..], number + 1, number);
    }
  }

  /** Every reading of the lines is what the automaton yields. */
  lemma {:induction false} GatherYields(taken: seq<string>, lines: seq<string>, number: nat, start: nat, n: nat,
      cs: seq<string>)
    requires IsPartial(taken) && cs != [] && 0 < n <= |lines| && IsCommand(taken + lines[..n])
    requires cs[0] == JoinLines(Glue(taken + lines[..n])) && Reads(lines[n..], cs[1..])
    ensures CommandsFrom(lines, number, Scanned(taken), QuoteAfter(Scanned(taken)).quote, start) == Yield(cs, None)
    decreases |lines|, 1
  {
    hide IsPartial, QuoteAfter, Scanned, Glue, JoinLines, ScanLine, SkippedLine, Reads, LStrip, RStrip;
    assert taken != [] by { PartialNonEmpty(taken); }
    PartialNonEmpty(taken);
    ScannedAppend(taken, lines[0]);
    GlueAppend(taken, lines[0]);
    PartialAppend(taken, lines[0]);
    var all := taken + lines[..n];
    var next := taken + [lines[0]];
    assert lines[..n] == [lines[0]] + lines[1..][..n - 1];
    assert all == next + lines[1..][..n - 1];
    if n == 1 {
      assert lines[..1] == [lines[0]];
      ReadingYields(lines[1..], number + 1, start, cs[1..]);
    } else {
      ScannedPrefix(all, |next|);
      assert all[..|next|] == next;
      assert lines[1..][n - 1..] == lines[n..];
      GatherYields(next, lines[1..], number + 1, start, n - 1, cs);
    }
  }

  lemma {:induction false} ReadingYields(lines: seq<string>, number: nat, start: nat, cs: seq<string>)
    requires Reads(lines, cs)
    ensures CommandsFrom(lines, number, [], None, start) == Yield(cs, None)
    decreases |lines|, 1
  {
    hide IsCommand, QuoteAfter, Scanned, Glue, JoinLines, ScanLine, SkippedLine, LStrip, RStrip;
    if lines != [] {
      if SkippedLine(lines[0]) {
        ReadingYields(lines[1..], number + 1, start, cs);
      } else {
        var n :| 0 < n <= |lines| && IsCommand(lines[..n]) && cs[0] == JoinLines(Glue(lines[..n]))
            && Reads(lines[n..], cs[1..]);
        CommandYields(lines, number, start, cs, n);
      }
    }
  }

  lemma {:induction false} CommandYields(lines: seq<string>, number: nat, start: nat, cs: seq<string>, n: nat)
    requires lines != [] && !SkippedLine(lines[0]) && cs != []
    requires 0 < n <= |lines| && IsCommand(lines[..n]) && cs[0] == JoinLines(Glue(lines[..n]))
    requires Reads(lines[n..], cs[1..])
    ensures CommandsFrom(lines, number, [], None, start) == Yield(cs, None)
    decreases |lines|, 0
  {
    hide IsPartial, QuoteAfter, Scanned, Glue, JoinLines, ScanLine, SkippedLine, LStrip, RStrip, Reads;
    var line := LStrip(lines[0]);
    ScannedOne(lines[0]);
    PartialOne(lines[0]);
    assert [] + [RStrip(line)] == [RStrip(line)] && [] + [line] == [line];
    if n == 1 {
      assert lines[..1] == [lines[0]];
      ReadingYields(lines[1..], number + 1, number, cs[1..]);
    } else {
      assert lines[..n] == [lines[0]] + lines[1..][..n - 1];
      ScannedPrefix(lines[..n], 1);
      assert lines[..n][..1] == [lines[0]];
      assert lines[1..][n - 1..] == lines[n..];
      GatherYields([lines[0]], lines[1..], number + 1, number, n - 1, cs);
    }
  }

  /**
   The generator runs to its end and yields these commands if and only if they are the lines of the
   file, cut where nothing is quoted or escaped, without the blank lines and comments in between.
   */
  lemma CommandsExactly(lines: seq<string>, commands: seq<string>)
    ensures Commands(lines) == Yield(commands, None) <==> Reads(lines, commands)
  {
    hide Reads, CommandsFrom;
    if Commands(lines) == Yield(commands, None) {
      YieldsReading(lines, 1, 0);
    }
    if Reads(lines, commands) {
      ReadingYields(lines, 1, 0, commands);
    }
  }

  // ----- quoted data is never structure

  lemma {:induction false} ScanAppend(q: Quoting, a: string, b: string)
    ensures ScanChars(q, a + b) == ScanChars(ScanChars(q, a), b)
    decreases |b|
  {
    hide ScanChar;
    if b == "" {
      assert a + b == a;
    } else {
      assert (a + b)[..|a + b| - 1] == a + b[..|b| - 1];
      ScanAppend(q, a, b[..|b| - 1]);
    }
  }

  predicate ProperQuote(quote: Option<char>) {
    quote.Some? ==> quote.value == '\'' || quote.value == '"'
  }

  lemma {:induction false} ScanProper(q: Quoting, s: string)
    requires ProperQuote(q.quote)
    ensures ProperQuote(ScanChars(q, s).quote)
    decreases |s|
  {
    if s != "" {
      ScanProper(q, s[..|s| - 1]);
    }
  }

  lemma {:induction false} QuoteProper(lines: seq<string>)
    ensures ProperQuote(QuoteAfter(lines).quote)
    decreases |lines|
  {
    if lines != [] {
      QuoteProper(lines[..|lines| - 1]);
      ScanProper(Quoting(QuoteAfter(lines[..|lines| - 1]).quote, false), lines[|lines| - 1]);
    }
  }

  /** White space neither opens nor closes a quote. */
  lemma {:induction false} ScanBlank(q: Quoting, s: string)
    requires Blank(s) && ProperQuote(q.quote)
    ensures ScanChars(q, s).quote == q.quote
    decreases |s|
  {
    if s != "" {
      ScanBlank(q, s[..|s| - 1]);
      assert IsSpace(s[|s| - 1]);
    }
  }

  lemma ScanTrimmed(quote: Option<char>, line: string)
    requires ProperQuote(quote)
    ensures ScanLine(quote, RStrip(line)).quote == ScanLine(quote, line).quote
  {
    var kept := RStrip(line);
    assert line == kept + line[|kept|..];
    ScanAppend(Quoting(quote, false), kept, line[|kept|..]);
    ScanProper(Quoting(quote, false), kept);
    ScanBlank(ScanLine(quote, kept), line[|kept|..]);
  }

  function TrailingBackslashes(s: string): nat
    decreases |s|
  {
    if s == "" || s[|s| - 1] != '\\' then 0 else 1 + TrailingBackslashes(s[..|s| - 1])
  }

  /** A line ends escaped exactly when an odd number of backslashes ends it. */
  lemma {:induction false} EscapedAtEnd(quote: Option<char>, s: string)
    ensures ScanLine(quote, s).escaped <==> TrailingBackslashes(s) % 2 == 1
    decreases |s|
  {
    if s != "" {
      EscapedAtEnd(quote, s[..|s| - 1]);
    }
  }

  lemma {:induction false} SplitJoin(lines: seq<string>)
    requires lines != [] && forall i :: 0 <= i < |lines| ==> '\n' !in lines[i]
    ensures SplitLines(JoinLines(lines)) == lines
  {
    if |lines| == 1 {
      SplitOne(lines[0], "");
      assert lines[0] + "" == lines[0];
    } else {
      SplitJoin(lines[1..]);
      SplitMore(lines[0], JoinLines(lines[1..]));
      assert lines == [lines[0]] + lines[1..];
      assert lines[0] + "\n" + JoinLines(lines[1..]) == lines[0] + ("\n" + JoinLines(lines[1..]));
    }
  }

  lemma {:induction false} SplitOne(line: string, rest: string)
    requires '\n' !in line && rest == ""
    ensures SplitLines(line) == [line]
  {
    if line != "" {
      SplitOne(line[1..], rest);
      assert [line[0]] + line[1..] == line;
    }
  }

  lemma {:induction false} SplitMore(line: string, rest: string)
    requires '\n' !in line
    ensures SplitLines(line + ("\n" + rest)) == [line] + SplitLines(rest)
  {
    var s := line + ("\n" + rest);
    if line == "" {
      assert s == "\n" + rest && s[1..] == rest;
    } else {
      assert s[1..] == line[1..] + ("\n" + rest);
      SplitMore(line[1..], rest);
      assert [line[0]] + line[1..] == line;
    }
  }

  /** The logical command of some physical lines. */
  function Logical(lines: seq<string>): string {
    JoinLines(Glue(lines))
  }

  lemma LogicalSplits(lines: seq<string>)
    requires lines != [] && forall i :: 0 <= i < |lines| ==> '\n' !in lines[i]
    ensures SplitLines(Logical(lines)) == Glue(lines)
  {
    hide LStrip, RStrip;
    forall i | 0 <= i < |lines| ensures '\n' !in Glue(lines)[i] {
      var first := if i == 0 then LStrip(lines[i]) else lines[i];
      StripKeeps(lines[i]);
      StripKeeps(first);
    }
    SplitJoin(Glue(lines));
  }

  lemma StripKeeps(s: string)
    requires '\n' !in s
    ensures '\n' !in LStrip(s) && '\n' !in RStrip(s)
  {
  }

  lemma GlueScanned(lines: seq<string>)
    requires lines != []
    ensures var last := Scanned(lines)[|lines| - 1];
            Glue(lines) == Scanned(lines)[..|lines| - 1] + [RStrip(last)]
  {
    hide LStrip, RStrip;
  }

  /**
   A command that is yielded ends outside quotes, and everywhere before its last line something is
   still open. It ends unescaped if and only if trimming its last line on the right does not lay
   bare an odd number of backslashes.
   */
  lemma YieldedClosed(lines: seq<string>)
    requires IsCommand(lines) && forall i :: 0 <= i < |lines| ==> '\n' !in lines[i]
    ensures var physical := SplitLines(Logical(lines));
            var last := RStrip(Scanned(lines)[|lines| - 1]);
            && physical == Glue(lines)
            && QuoteAfter(physical).quote == None
            && (!QuoteAfter(physical).escaped <==> TrailingBackslashes(last) % 2 == 0)
            && forall k :: 0 < k < |physical| ==> Continues(QuoteAfter(physical[..k]))
  {
    hide LStrip, RStrip, Scanned, Glue, ScanLine;
    LogicalSplits(lines);
    GlueScanned(lines);
    var s := Scanned(lines);
    var init := s[..|lines| - 1];
    var last := s[|lines| - 1];
    assert s == init + [last];
    QuoteAppend(init, last);
    QuoteAppend(init, RStrip(last));
    QuoteProper(init);
    ScanTrimmed(QuoteAfter(init).quote, last);
    EscapedAtEnd(QuoteAfter(init).quote, RStrip(last));
    forall k | 0 < k < |lines| ensures Continues(QuoteAfter(Glue(lines)[..k])) {
      assert Glue(lines)[..k] == s[..k];
    }
  }

  /** Trimming can leave a command escaped that was not: a backslash before trailing white space. */
  lemma TrimmedIntoEscape()
    ensures Commands(["set x \\ "]) == Yield(["set x \\"], None)
    ensures ScanLine(None, "set x \\").escaped
  {
    hide LStrip, RStrip, ScanLine;
    TrailingScan();
    TrailingTrim();
    assert [] + ["set x \\"] == ["set x \\"] && JoinLines(["set x \\"]) == "set x \\";
  }

  lemma TrailingScan()
    ensures ScanLine(None, "set x \\") == Quoting(None, true)
    ensures ScanLine(None, "set x \\ ") == Quoting(None, false)
  {
    var kept := "set x \\";
    PlainScan("set x ");
    assert kept[..|kept| - 1] == "set x " && kept[|kept| - 1] == '\\';
    var line := "set x \\ ";
    assert line[..|line| - 1] == kept && line[|line| - 1] == ' ';
  }

  lemma TrailingTrim()
    ensures LStrip("set x \\ ") == "set x \\ " && RStrip("set x \\ ") == "set x \\"
  {
    var kept := "set x \\";
    assert kept + " " == "set x \\ " && kept[|kept| - 1] == '\\';
    RStripBlank(kept);
    LStripOf("", kept + " ");
    assert "" + (kept + " ") == kept + " ";
  }

  /** Text without quotes and backslashes leaves the automaton where it is. */
  lemma {:induction false} PlainScan(s: string)
    requires forall i :: 0 <= i < |s| ==> s[i] !in "\\'\""
    ensures ScanChars(Quoting(None, false), s) == Quoting(None, false)
    decreases |s|
  {
    if s != "" {
      PlainScan(s[..|s| - 1]);
    }
  }

  /** All but the first physical line of a command are sent as data, even a line that reads `end`. */
  lemma QuotedLinesInert(command: string, i: nat)
    requires i < |FlattenLine(command)|
    ensures var specs := FlattenLine(command);
            && LinesOf(specs) == (if '\n' in command then SplitLines(command) else [command])
            && (i > 0 ==> specs[i].continuation && !specs[i].ClosesScope() && !specs[i].MayChangeContext())
            && (i == 0 ==> !specs[i].continuation)
  {
    hide Quotes, SplitLines, Strip;
  }

  // ----- the automaton in place

  /** The inner loop: one physical line, character by character. */
  method ScanPhysicalLine(quote: Option<char>, line: string) returns (after: Option<char>, escaped: bool)
    ensures Quoting(after, escaped) == ScanLine(quote, line)
  {
    after, escaped := quote, false;
    for i := 0 to |line|
      invariant Quoting(after, escaped) == ScanLine(quote, line[..i])
    {
      var character := line[i];
      assert line[..i + 1][..i] == line[..i];
      if escaped {
        escaped := false;
      } else if character == '\\' {
        escaped := true;
      } else if after == Some(character) {
        after := None;
      } else if after.None? && (character == '\'' || character == '"') {
        after := Some(character);
      }
    }
    assert line[..|line|] == line;
  }

  lemma CommandsOne(lines: seq<string>, i: nat, pending: seq<string>, quote: Option<char>, startLine: nat)
    requires i < |lines|
    ensures var line := if pending == [] then LStrip(lines[i]) else lines[i];
            var started := if pending == [] then i + 1 else startLine;
            var q := ScanLine(quote, line);
            var r := CommandsFrom(lines[i..], i + 1, pending, quote, startLine);
            if pending == [] && SkippedLine(lines[i]) then
              r == CommandsFrom(lines[i + 1..], i + 2, [], quote, startLine)
            else if Continues(q) then r == CommandsFrom(lines[i + 1..], i + 2, pending + [line], q.quote, started)
            else
              var rest := CommandsFrom(lines[i + 1..], i + 2, [], None, started);
              r == rest.(commands := [JoinLines(pending + [RStrip(line)])] + rest.commands)
  {
    hide ScanLine, LStrip, RStrip, SkippedLine, JoinLines;
    assert lines[i..][0] == lines[i] && lines[i..][1..] == lines[i + 1..];
  }

  lemma CommandsEnd(lines: seq<string>, pending: seq<string>, quote: Option<char>, startLine: nat)
    ensures CommandsFrom(lines[|lines|..], |lines| + 1, pending, quote, startLine)
         == Yield([], if pending == [] then None
                      else Some(if quote.Some? then UnterminatedQuote(startLine)
                                else UnfinishedContinuation(startLine)))
  {
  }

  /** `_startup_config_commands`: `pending` collects the lines of the command in progress. */
  method CollectCommands(lines: seq<string>) returns (commands: seq<string>, failure: Option<Error>)
    ensures Yield(commands, failure) == Commands(lines)
  {
    hide ScanLine, LStrip, RStrip, SkippedLine, JoinLines, CommandsFrom;
    commands := [];
    assert lines[0..] == lines;
    var pending: seq<string> := [];
    var quote: Option<char> := None;
    var startLine := 0;
    for i := 0 to |lines|
      invariant var rest := CommandsFrom(lines[i..], i + 1, pending, quote, startLine);
                Commands(lines) == rest.(commands := commands + rest.commands)
      invariant pending == [] ==> quote == None
    {
      CommandsOne(lines, i, pending, quote, startLine);
      var line := lines[i];
      var skipped := false;
      if pending == [] {
        skipped := SkippedLine(line);
        if !skipped {
          line := LStrip(line);
          startLine := i + 1;
        }
      }
      if !skipped {
        var after, escaped := ScanPhysicalLine(quote, line);
        quote := after;
        if after.Some? || escaped {
          pending := pending + [line];
        } else {
          var command := JoinLines(pending + [RStrip(line)]);
          commands := commands + [command];
          pending := [];
        }
      }
    }
    CommandsEnd(lines, pending, quote, startLine);
    failure := if pending == [] then None
               else Some(if quote.Some? then UnterminatedQuote(startLine) else UnfinishedContinuation(startLine));
  }
}
