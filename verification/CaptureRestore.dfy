/**
 From a captured difference to a startup configuration: what `diff_config` prints is what
 `parse_startup_config` reads back (fortinet/common/features/capture_config.py,
 fortinet/common/features/startup_config.py).
 */
module CaptureRestore {
  import opened Text
  import opened CliCommands
  import opened ConfigLine
  import opened ConfigDiff
  import opened ConfigDelta
  import opened StartupConfig
  import P = StartupParser

  function Trimmed(lines: seq<string>): (r: seq<string>)
    ensures |r| == |lines|
  {
    if lines == [] then [] else [Strip(lines[0])] + Trimmed(lines[1..])
  }

  lemma {:induction false} TrimmedAppend(a: seq<string>, b: seq<string>)
    ensures Trimmed(a + b) == Trimmed(a) + Trimmed(b)
  {
    hide Strip;
    if a == [] {
      assert a + b == b;
    } else {
      var all := a + b;
      assert all[0] == a[0] && all[1..] == a[1..] + b;
      TrimmedAppend(a[1..], b);
      assert Trimmed(all) == [Strip(a[0])] + Trimmed(all[1..]);
      assert Trimmed(a) == [Strip(a[0])] + Trimmed(a[1..]);
    }
  }

  /** Quotes are balanced on the line and no backslash ends it. */
  predicate Balanced(text: string) {
    !Continues(ScanLine(None, text)) && '\n' !in text
  }

  /** The startup parser sees the scope keyword the capture saw. */
  predicate KeywordShown(n: Node) {
    var text := LStrip(n.original);
    && (n.kind == Config ==> StartsWith(text, "config "))
    && (n.kind == Edit ==> StartsWith(text, "edit "))
  }

  predicate Shown(n: Node)
    decreases n, 1
  {
    KeywordShown(n) && AllShown(n.children)
  }

  predicate AllShown(nodes: seq<Node>)
    decreases nodes, 0
  {
    nodes == [] || (Shown(nodes[0]) && AllShown(nodes[1..]))
  }

  predicate Clean(n: Node)
    decreases n, 1
  {
    Balanced(LStrip(n.original)) && AllClean(n.children)
  }

  predicate AllClean(nodes: seq<Node>)
    decreases nodes, 0
  {
    nodes == [] || (Clean(nodes[0]) && AllClean(nodes[1..]))
  }

  /** Nothing but `config` blocks at the top level. */
  predicate ConfigsOnly(nodes: seq<Node>) {
    forall i :: 0 <= i < |nodes| ==> nodes[i].kind == Config
  }

  // ----- the delta inherits what the current configuration has

  lemma {:induction false} CutInherits(x: Node, n: Node)
    requires Cut(x, n) && Clean(n)
    ensures Clean(x) && x.kind == n.kind && (Shown(n) ==> Shown(x))
    decreases n, 1
  {
    hide Balanced, LStrip;
    if x != n {
      ThinnedInherits(x.children, n.children);
    }
  }

  lemma {:induction false} ThinnedInherits(xs: seq<Node>, nodes: seq<Node>)
    requires Thinned(xs, nodes) && AllClean(nodes)
    ensures AllClean(xs) && (AllShown(nodes) ==> AllShown(xs)) && (ConfigsOnly(nodes) ==> ConfigsOnly(xs))
    decreases nodes, 0
  {
    hide Cut, Shown, Clean;
    if xs != [] {
      if Thinned(xs, nodes[1..]) {
        ThinnedInherits(xs, nodes[1..]);
      } else {
        CutInherits(xs[0], nodes[0]);
        ThinnedInherits(xs[1..], nodes[1..]);
      }
    }
  }

  // ----- the blocks the startup parser will build

  function ToCommand(n: Node): Command
    requires Shown(n)
    decreases n, 1
  {
    var text := LStrip(n.original);
    match n.kind
    case Leaf => Literal(text)
    case Config => ConfigBlock(text[7..], ToCommands(n.children))
    case Edit => EditBlock(text[5..], ToCommands(n.children))
  }

  function ToCommands(nodes: seq<Node>): (r: seq<Command>)
    requires AllShown(nodes)
    ensures |r| == |nodes|
    decreases nodes, 0
  {
    if nodes == [] then [] else [ToCommand(nodes[0])] + ToCommands(nodes[1..])
  }

  lemma TextOf(n: Node)
    requires WellFormed(n)
    ensures var text := LStrip(n.original);
            && text != "" && text[0] != '#' && Strip(n.original) == text
            && !IsSpace(text[0]) && !IsSpace(text[|text| - 1])
  {
    hide NormalizeLine, LStrip, RStrip;
    var indent, text := SplitIndent(n.original);
    if text == "" {
      NormalizeNothing(n.original);
    } else {
      NormalizeFirst(indent, text);
      StripTight(text);
    }
  }

  lemma NormalizeNothing(s: string)
    requires LStrip(s) == "" && s == RStrip(s)
    ensures NormalizeLine(s) == ""
  {
    hide NormalizeLine, IsSpace;
    assert s == "";
    NormalizedNothing();
  }

  lemma NormalizedNothing()
    ensures NormalizeLine("") == ""
  {
    assert LiteralLine("") == "" && Mask("") == "";
  }

  /** What looks like a scope keyword to the startup parser does so to the capture. */
  lemma KeywordsAgree(n: Node, keyword: string)
    requires WellFormed(n) && (keyword == "config" || keyword == "edit")
    ensures StartsWith(LStrip(n.original), keyword + " ") ==> StartsWith(n.normalized, keyword + " ")
  {
    hide NormalizeLine, LStrip, RStrip, Blank, IsSpace, Skipped, Closes, KindOf, AllWellFormed;
    TextOf(n);
    var indent, text := SplitIndent(n.original);
    if StartsWith(text, keyword + " ") {
      NormalizeKeyword(indent, text, keyword);
    }
  }

  lemma ClosersAgree(n: Node)
    requires WellFormed(n)
    ensures LStrip(n.original) != "next" && LStrip(n.original) != "end"
  {
    hide NormalizeLine, LStrip, RStrip, Blank, KindOf, AllWellFormed;
    var indent, text := SplitIndent(n.original);
    if text == "next" || text == "end" {
      NormalizeWord(indent, text);
    }
  }

  lemma KindOfKeyword(normalized: string)
    ensures StartsWith(normalized, "config ") ==> KindOf(normalized) == Config
    ensures StartsWith(normalized, "edit ") ==> KindOf(normalized) == Edit
  {
    if StartsWith(normalized, "edit ") {
      assert normalized[0] == 'e' && "config "[0] == 'c';
    }
  }

  lemma KindIs(n: Node)
    requires WellFormed(n)
    ensures n.kind == KindOf(n.normalized)
  {
    hide NormalizeLine, RStrip, KindOf, Skipped, Closes, AllWellFormed;
  }

  /** The scope keyword of a node's text, if it has one, is the one of its kind. */
  lemma TextKind(n: Node)
    requires WellFormed(n)
    ensures StartsWith(LStrip(n.original), "config ") ==> n.kind == Config
    ensures StartsWith(LStrip(n.original), "edit ") ==> n.kind == Edit
  {
    hide WellFormed, LStrip, KindOf, StartsWith;
    KeywordsAgree(n, "config");
    KeywordsAgree(n, "edit");
    assert "config" + " " == "config " && "edit" + " " == "edit ";
    KindOfKeyword(n.normalized);
    KindIs(n);
  }

  lemma LeafText(n: Node)
    requires WellFormed(n) && n.kind == Leaf
    ensures P.IsLeaf(LStrip(n.original))
  {
    hide WellFormed, LStrip;
    TextKind(n);
    ClosersAgree(n);
  }

  /** The printout of a node, trimmed: its text, its body, its closer. */
  lemma RenderParts(n: Node)
    requires WellFormed(n)
    ensures Trimmed(Render(n)) == [LStrip(n.original)] + Trimmed(RenderAll(n.children)) + Trimmed(Closer(n))
  {
    hide WellFormed, LStrip, RStrip, Strip, Trimmed, RenderAll, Closer;
    TextOf(n);
    TrimmedOne(n.original);
    TrimmedAppend([n.original], RenderAll(n.children));
    TrimmedAppend([n.original] + RenderAll(n.children), Closer(n));
  }

  lemma {:induction false} ToCommandScoped(n: Node)
    requires Shown(n) && WellFormed(n)
    ensures P.Scoped(ToCommand(n)) && (n.kind == Config ==> ToCommand(n).ConfigBlock?)
    ensures P.LogicalLines(ToCommand(n)) == Trimmed(Render(n))
    decreases n, 1
  {
    hide NormalizeLine, LStrip, RStrip, P.IsLeaf, P.AllLines, Trimmed, RenderAll, Strip, Closer, Skipped, Closes,
         KindOf;
    var text := LStrip(n.original);
    if n.kind == Leaf {
      LeafText(n);
      LeafParts(n);
    } else {
      RenderParts(n);
      ToCommandsScoped(n.children);
      CloserTrimmed(n);
      OpenerText(n);
    }
  }

  lemma LeafParts(n: Node)
    requires WellFormed(n) && n.kind == Leaf
    ensures Trimmed(Render(n)) == [LStrip(n.original)]
  {
    hide NormalizeLine, LStrip, RStrip, Strip;
    TextOf(n);
    TrimmedOne(n.original);
    assert RenderAll(n.children) == [] && Render(n) == [n.original];
  }

  lemma OpenerText(n: Node)
    requires Shown(n) && n.kind != Leaf
    ensures OpenLine(ToCommand(n)) == LStrip(n.original)
  {
    hide LStrip, AllShown, ToCommands;
    var text := LStrip(n.original);
    assert text == text[..if n.kind == Config then 7 else 5] + text[if n.kind == Config then 7 else 5..];
  }

  lemma TrimmedOne(line: string)
    ensures Trimmed([line]) == [Strip(line)] && Trimmed([]) == []
  {
    assert [line][1..] == [];
  }

  lemma CloserTrimmed(n: Node)
    requires n.kind != Leaf
    ensures Trimmed(Closer(n)) == [if n.kind == Config then "end" else "next"]
  {
    hide LStrip, RStrip;
    var word := if n.kind == Config then "end" else "next";
    IndentBlank(n.original);
    LStripOf(Indent(n.original), word);
    StripTight(word);
    TrimmedOne(Indent(n.original) + word);
  }

  lemma {:induction false} ToCommandsScoped(nodes: seq<Node>)
    requires AllShown(nodes) && AllWellFormed(nodes)
    ensures P.AllScoped(ToCommands(nodes))
    ensures P.AllLines(ToCommands(nodes)) == Trimmed(RenderAll(nodes))
    ensures forall i :: 0 <= i < |nodes| && nodes[i].kind == Config ==> ToCommands(nodes)[i].ConfigBlock?
    decreases nodes, 0
  {
    hide Shown, WellFormed, P.Scoped, P.LogicalLines, ToCommand, Render, Trimmed;
    if nodes == [] {
      TrimmedOne("");
    } else {
      ToCommandScoped(nodes[0]);
      ToCommandsScoped(nodes[1..]);
      var rest := ToCommands(nodes[1..]);
      assert ([ToCommand(nodes[0])] + rest)[1..] == rest;
      TrimmedAppend(Render(nodes[0]), RenderAll(nodes[1..]));
    }
  }

  // ----- every printed line is one command

  predicate SingleLine(line: string) {
    !SkippedLine(line) && Balanced(LStrip(line))
  }

  predicate AllSingle(lines: seq<string>) {
    forall i :: 0 <= i < |lines| ==> SingleLine(lines[i])
  }

  lemma {:induction false} SingleLinesYield(lines: seq<string>, number: nat, start: nat)
    requires AllSingle(lines)
    ensures CommandsFrom(lines, number, [], None, start) == Yield(Trimmed(lines), None)
    decreases |lines|
  {
    hide LStrip, RStrip, SkippedLine, ScanLine;
    if lines != [] {
      SingleLinesYield(lines[1..], number + 1, number);
      assert [] + [RStrip(LStrip(lines[0]))] == [RStrip(LStrip(lines[0]))];
      assert SingleLine(lines[0]);
    }
  }

  lemma {:induction false} RenderSingle(n: Node)
    requires Clean(n) && WellFormed(n)
    ensures AllSingle(Render(n))
    decreases n, 1
  {
    hide NormalizeLine, LStrip, RStrip, Balanced, SingleLine, RenderAll;
    TextOf(n);
    OwnSingle(n.original);
    RenderAllSingle(n.children);
    if n.kind != Leaf {
      CloserSingle(n);
    }
  }

  lemma OwnSingle(line: string)
    requires var text := LStrip(line); Balanced(text) && text != "" && text[0] != '#'
    ensures SingleLine(line)
  {
  }

  lemma CloserSingle(n: Node)
    requires n.kind != Leaf
    ensures AllSingle(Closer(n))
  {
    hide LStrip, RStrip, Indent, Blank;
    var word := if n.kind == Config then "end" else "next";
    IndentBlank(n.original);
    LStripOf(Indent(n.original), word);
    PlainScan(word);
    OwnSingle(Indent(n.original) + word);
  }

  lemma {:induction false} RenderAllSingle(nodes: seq<Node>)
    requires AllClean(nodes) && AllWellFormed(nodes)
    ensures AllSingle(RenderAll(nodes))
    decreases nodes, 0
  {
    hide Clean, WellFormed, SingleLine, Render;
    if nodes != [] {
      RenderSingle(nodes[0]);
      RenderAllSingle(nodes[1..]);
    }
  }

  lemma {:induction false} SinglePhysical(lines: seq<string>)
    requires AllSingle(lines)
    ensures P.Physical(Trimmed(lines)) == Trimmed(lines)
  {
    hide LStrip, RStrip, SkippedLine, ScanLine;
    if lines != [] {
      assert SingleLine(lines[0]);
      StripKeeps(LStrip(lines[0]));
      SinglePhysical(lines[1..]);
      assert Trimmed(lines)[1..] == Trimmed(lines[1..]);
    }
  }

  // ----- counting scopes

  /** Plus one for a scope keyword, minus one for a closer. */
  function Depth(line: string): int {
    if StartsWith(line, "config ") || StartsWith(line, "edit ") then 1
    else if line == "next" || line == "end" then -1
    else 0
  }

  function Depths(lines: seq<string>): int {
    if lines == [] then 0 else Depth(lines[0]) + Depths(lines[1..])
  }

  lemma {:induction false} DepthsAppend(a: seq<string>, b: seq<string>)
    ensures Depths(a + b) == Depths(a) + Depths(b)
  {
    hide Depth;
    if a == [] {
      assert a + b == b;
    } else {
      DepthsAppend(a[1..], b);
      assert (a + b)[1..] == a[1..] + b;
    }
  }

  lemma DepthsOne(line: string)
    ensures Depths([line]) == Depth(line)
  {
    assert [line][1..] == [];
  }

  lemma {:induction false} ScopedDepth(c: Command)
    requires P.Scoped(c)
    ensures Depths(P.LogicalLines(c)) == 0
    decreases c, 1
  {
    hide P.AllLines, P.AllScoped, Depths;
    if c.Literal? {
      DepthsOne(c.line);
    } else {
      AllScopedDepth(c.children);
      DepthsAppend([OpenLine(c)], P.AllLines(c.children));
      DepthsAppend([OpenLine(c)] + P.AllLines(c.children), [CloseLine(c)]);
      DepthsOne(OpenLine(c));
      DepthsOne(CloseLine(c));
      P.KeywordLines(c);
    }
  }

  lemma {:induction false} AllScopedDepth(cs: seq<Command>)
    requires P.AllScoped(cs)
    ensures Depths(P.AllLines(cs)) == 0
    decreases cs, 0
  {
    hide P.Scoped, P.LogicalLines;
    if cs != [] {
      ScopedDepth(cs[0]);
      AllScopedDepth(cs[1..]);
      DepthsAppend(P.LogicalLines(cs[0]), P.AllLines(cs[1..]));
    }
  }

  lemma TextDepth(n: Node)
    requires WellFormed(n)
    ensures Depth(LStrip(n.original)) == if n.kind != Leaf && KeywordShown(n) then 1 else 0
  {
    hide WellFormed, LStrip;
    TextKind(n);
    ClosersAgree(n);
  }

  lemma {:induction false} RenderDepth(n: Node)
    requires WellFormed(n)
    ensures Depths(Trimmed(Render(n))) <= 0
    ensures Depths(Trimmed(Render(n))) == 0 <==> Shown(n)
    decreases n, 1
  {
    hide NormalizeLine, LStrip, RStrip, KeywordShown, Depth, Depths, Trimmed, RenderAll, Strip, Closer, Render;
    var text := LStrip(n.original);
    var body := Trimmed(RenderAll(n.children));
    TextDepth(n);
    RenderParts(n);
    DepthsOne(text);
    DepthsAppend([text], body);
    DepthsAppend([text] + body, Trimmed(Closer(n)));
    RenderAllDepth(n.children);
    CloserDepth(n);
    if n.kind == Leaf {
      LeafShown(n);
    }
  }

  lemma LeafShown(n: Node)
    requires WellFormed(n) && n.kind == Leaf
    ensures Shown(n) && Depths(Trimmed(RenderAll(n.children))) == 0
  {
    hide NormalizeLine, RStrip, LStrip, Strip, Skipped, Closes, KindOf;
  }

  lemma CloserDepth(n: Node)
    ensures Depths(Trimmed(Closer(n))) == if n.kind == Leaf then 0 else -1
  {
    hide Strip, LStrip, Indent;
    if n.kind != Leaf {
      CloserTrimmed(n);
      DepthsOne(if n.kind == Config then "end" else "next");
    }
  }

  /** Printing closes at least the scopes the startup parser sees opened, and no more iff it sees all. */
  lemma {:induction false} RenderAllDepth(nodes: seq<Node>)
    requires AllWellFormed(nodes)
    ensures Depths(Trimmed(RenderAll(nodes))) <= 0
    ensures Depths(Trimmed(RenderAll(nodes))) == 0 <==> AllShown(nodes)
    decreases nodes, 0
  {
    hide WellFormed, Shown, Render, Depth;
    if nodes != [] {
      RenderDepth(nodes[0]);
      RenderAllDepth(nodes[1..]);
      TrimmedAppend(Render(nodes[0]), RenderAll(nodes[1..]));
      DepthsAppend(Trimmed(Render(nodes[0])), Trimmed(RenderAll(nodes[1..])));
    }
  }

  // ----- capture, then restore

  lemma HeadAndTail(nodes: seq<Node>)
    requires AllWellFormed(nodes) && AllShown(nodes) && !ConfigsOnly(nodes)
    ensures nodes != [] && WellFormed(nodes[0]) && Shown(nodes[0])
    ensures AllWellFormed(nodes[1..]) && AllShown(nodes[1..])
    ensures nodes[0].kind == Config ==> !ConfigsOnly(nodes[1..])
    ensures Trimmed(RenderAll(nodes)) == Trimmed(Render(nodes[0])) + Trimmed(RenderAll(nodes[1..]))
  {
    hide WellFormed, Shown, Render, Trimmed;
    TrimmedAppend(Render(nodes[0]), RenderAll(nodes[1..]));
    if nodes[0].kind == Config {
      var k :| 0 <= k < |nodes| && nodes[k].kind != Config;
      assert nodes[1..][k - 1] == nodes[k];
    }
  }

  lemma {:induction false} StrayRootRejected(roots: seq<Command>, nodes: seq<Node>)
    requires AllWellFormed(nodes) && AllShown(nodes) && !ConfigsOnly(nodes)
    ensures P.ParseFrom(P.Scopes(roots, []), Trimmed(RenderAll(nodes)), None).Malformed?
    decreases |nodes|
  {
    hide WellFormed, Shown, AllWellFormed, AllShown, ConfigsOnly, Render, RenderAll, Trimmed, ToCommand,
         P.Put, P.Scoped, P.LogicalLines, P.ParseFrom;
    HeadAndTail(nodes);
    var n := nodes[0];
    var rest := Trimmed(RenderAll(nodes[1..]));
    if n.kind == Config {
      ToCommandScoped(n);
      P.FeedLines(P.Scopes(roots, []), ToCommand(n), rest, None);
      PutRoot(roots, ToCommand(n));
      StrayRootRejected(roots + [ToCommand(n)], nodes[1..]);
    } else {
      StrayLine(roots, n, rest);
    }
  }

  lemma PutRoot(roots: seq<Command>, c: Command)
    ensures P.Put(P.Scopes(roots, []), c) == P.Scopes(roots + [c], [])
  {
  }

  lemma StrayLine(roots: seq<Command>, n: Node, rest: seq<string>)
    requires WellFormed(n) && Shown(n) && n.kind != Config
    ensures P.ParseFrom(P.Scopes(roots, []), Trimmed(Render(n)) + rest, None).Malformed?
  {
    hide WellFormed, LStrip, Trimmed, RenderAll, Render, Closer;
    var text := LStrip(n.original);
    RenderParts(n);
    TextKind(n);
    ClosersAgree(n);
    assert (Trimmed(Render(n)) + rest)[0] == text;
  }

  /**
   A printed forest with balanced lines is a good startup configuration exactly when it has only
   `config` blocks at the top and every scope keyword is followed by a space; what it then sends are
   its own lines, trimmed.
   */
  lemma RenderedIsAccepted(nodes: seq<Node>)
    requires AllWellFormed(nodes) && AllClean(nodes)
    ensures var lines := RenderAll(nodes);
            var outcome := P.ParseStartup(lines);
            && (outcome.Accepted? <==> AllShown(nodes) && ConfigsOnly(nodes))
            && (outcome.Accepted? ==> LinesOf(FlattenAll(outcome.roots)) == Trimmed(lines))
  {
    hide AllWellFormed, AllClean, AllShown, RenderAll, Trimmed, P.AllScoped, P.AllLines, ToCommands, LinesOf,
         P.Physical,
         P.ParseFrom, Depths, ConfigsOnly, FlattenAll;
    var lines := RenderAll(nodes);
    RenderAllSingle(nodes);
    SingleLinesYield(lines, 1, 0);
    SinglePhysical(lines);
    RenderAllDepth(nodes);
    var outcome := P.ParseCommands(Trimmed(lines));
    if outcome.Accepted? {
      P.ParseExactly(Trimmed(lines), outcome.roots);
      AllScopedDepth(outcome.roots);
      P.AcceptedIsSent(Trimmed(lines));
      if !ConfigsOnly(nodes) {
        StrayRootRejected([], nodes);
      }
    }
    if AllShown(nodes) && ConfigsOnly(nodes) {
      ToCommandsScoped(nodes);
      ConfigRoots(nodes);
      P.ParseExactly(Trimmed(lines), ToCommands(nodes));
    }
  }

  lemma ConfigRoots(nodes: seq<Node>)
    requires AllShown(nodes) && AllWellFormed(nodes) && ConfigsOnly(nodes)
    ensures P.ProperRoots(ToCommands(nodes))
  {
    ToCommandsScoped(nodes);
  }

  /**
   The captured difference restores: if the current configuration holds only `config` blocks at the
   top, its lines have balanced quotes and no trailing backslash, and its scope keywords are followed
   by a space, then the printed delta is an accepted startup configuration, and what it sends are the
   delta's own lines, trimmed.
   */
  lemma CapturedDeltaRestores(baseline: seq<string>, current: seq<string>, track: bool)
    requires AllClean(Parse(current)) && AllShown(Parse(current)) && ConfigsOnly(Parse(current))
    ensures var lines := DiffConfig(baseline, current, track);
            var outcome := P.ParseStartup(lines);
            outcome.Accepted? && LinesOf(FlattenAll(outcome.roots)) == Trimmed(lines)
  {
    hide Parse, Delta, Thinned, AllClean, AllShown, ConfigsOnly, AllWellFormed, AllFull, P.ParseStartup, FlattenAll,
         LinesOf,
         Trimmed;
    var delta := Delta(Parse(baseline), Parse(current), {}, track);
    ParseWellFormed(current);
    DeltaThinned(Parse(baseline), Parse(current), {}, track);
    ThinnedWellFormed(delta, Parse(current));
    ThinnedInherits(delta, Parse(current));
    RenderedIsAccepted(delta);
  }
}
