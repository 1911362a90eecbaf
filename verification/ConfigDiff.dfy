/**
 FortiOS configurations as forests, their printer and parser, and the structural difference of
 two of them (fortinet/common/config_diff.py). A configuration is the list of its lines.
 */
module ConfigDiff {
  import opened Text
  import opened ConfigLine

  datatype Kind = Leaf | Config | Edit

  /**
   A line and what is nested in it. `parse_config` appends to nodes while they are on its stack;
   here a block holds its finished children and joins its parent when it is closed.
   */
  datatype Node = Node(original: string, normalized: string, kind: Kind, children: seq<Node>)

  predicate IsEncrypted(n: Node) {
    Contains(n.normalized, ENCRYPTED)
  }

  function KindOf(normalized: string): Kind {
    if StartsWith(normalized, "config ") then Config
    else if StartsWith(normalized, "edit ") then Edit
    else Leaf
  }

  // ----- the printer

  function Indent(original: string): string {
    original[..|original| - |LStrip(original)|]
  }

  function Closer(n: Node): seq<string> {
    match n.kind
    case Leaf => []
    case Config => [Indent(n.original) + "end"]
    case Edit => [Indent(n.original) + "next"]
  }

  function Render(n: Node): seq<string>
    decreases n, 1
  {
    [n.original] + RenderAll(n.children) + Closer(n)
  }

  function RenderAll(nodes: seq<Node>): seq<string>
    decreases nodes, 0
  {
    if nodes == [] then [] else Render(nodes[0]) + RenderAll(nodes[1..])
  }

  // ----- the parser

  /** Nothing to parse: a blank line or a comment. */
  predicate Skipped(normalized: string) {
    normalized == "" || normalized[0] == '#'
  }

  predicate Closes(normalized: string) {
    normalized == "next" || normalized == "end"
  }

  function Adopt(parent: Node, child: Node): Node {
    parent.(children := parent.children + [child])
  }

  /** The innermost open block is finished. */
  function Pop(stack: seq<Node>): (r: seq<Node>)
    requires |stack| > 1
    ensures |r| == |stack| - 1
  {
    stack[..|stack| - 2] + [Adopt(stack[|stack| - 2], stack[|stack| - 1])]
  }

  /** One raw line. The root is at the bottom of the stack, and a closer never removes it. */
  function Feed(stack: seq<Node>, raw: string): (r: seq<Node>)
    requires stack != []
    ensures r != []
  {
    var original := RStrip(raw);
    var normalized := NormalizeLine(original);
    if Skipped(normalized) then stack
    else if Closes(normalized) then (if |stack| > 1 then Pop(stack) else stack)
    else
      var node := Node(original, normalized, KindOf(normalized), []);
      if node.kind == Leaf then stack[..|stack| - 1] + [Adopt(stack[|stack| - 1], node)]
      else stack + [node]
  }

  function FeedAll(stack: seq<Node>, lines: seq<string>): (r: seq<Node>)
    requires stack != []
    ensures r != []
    decreases |lines|
  {
    if lines == [] then stack else FeedAll(Feed(stack, lines[0]), lines[1..])
  }

  /** The input ended: blocks still open stay where they are. */
  function CloseAll(stack: seq<Node>): Node
    requires stack != []
    decreases |stack|
  {
    if |stack| == 1 then stack[0] else CloseAll(Pop(stack))
  }

  /** `config` blocks that hold nothing are dropped, innermost first; `edit` blocks stay. */
  function Prune(n: Node): Node
    decreases n, 1
  {
    n.(children := PruneAll(n.children))
  }

  function PruneAll(nodes: seq<Node>): seq<Node>
    decreases nodes, 0
  {
    if nodes == [] then []
    else
      var first := Prune(nodes[0]);
      (if first.kind == Config && first.children == [] then [] else [first]) + PruneAll(nodes[1..])
  }

  const ROOT := Node("", "", Leaf, [])

  function Parse(lines: seq<string>): seq<Node> {
    PruneAll(CloseAll(FeedAll([ROOT], lines)).children)
  }

  // ----- what every parsed forest looks like

  /** The node is what its own line says. */
  predicate WellFormed(n: Node)
    decreases n, 1
  {
    && n.original == RStrip(n.original) && n.normalized == NormalizeLine(n.original)
    && !Skipped(n.normalized) && !Closes(n.normalized)
    && n.kind == KindOf(n.normalized)
    && (n.kind == Leaf ==> n.children == [])
    && AllWellFormed(n.children)
  }

  predicate AllWellFormed(nodes: seq<Node>)
    decreases nodes, 0
  {
    nodes == [] || (WellFormed(nodes[0]) && AllWellFormed(nodes[1..]))
  }

  /** No `config` block is empty. */
  predicate Full(n: Node)
    decreases n, 1
  {
    (n.kind == Config ==> n.children != []) && AllFull(n.children)
  }

  predicate AllFull(nodes: seq<Node>)
    decreases nodes, 0
  {
    nodes == [] || (Full(nodes[0]) && AllFull(nodes[1..]))
  }

  lemma {:induction false} WellFormedAppend(a: seq<Node>, b: seq<Node>)
    requires AllWellFormed(a) && AllWellFormed(b)
    ensures AllWellFormed(a + b)
  {
    hide WellFormed;
    if a == [] {
      assert a + b == b;
    } else {
      var all := a + b;
      assert all[0] == a[0] && all[1..] == a[1..] + b;
      WellFormedAppend(a[1..], b);
    }
  }

  ghost predicate StackWellFormed(stack: seq<Node>) {
    && stack != [] && AllWellFormed(stack[0].children)
    && forall i :: 1 <= i < |stack| ==> WellFormed(stack[i]) && stack[i].kind != Leaf
  }

  lemma AdoptWellFormed(parent: Node, child: Node)
    requires AllWellFormed(parent.children) && WellFormed(child)
    ensures AllWellFormed(Adopt(parent, child).children)
    ensures WellFormed(parent) && parent.kind != Leaf ==> WellFormed(Adopt(parent, child))
  {
    assert AllWellFormed([child]);
    WellFormedAppend(parent.children, [child]);
  }

  lemma PopWellFormed(stack: seq<Node>)
    requires StackWellFormed(stack) && |stack| > 1
    ensures StackWellFormed(Pop(stack))
  {
    hide WellFormed;
    var parent := stack[|stack| - 2];
    assert |stack| > 2 ==> AllWellFormed(parent.children) by { ChildrenWellFormed(stack, |stack| - 2); }
    AdoptWellFormed(parent, stack[|stack| - 1]);
  }

  lemma ChildrenWellFormed(stack: seq<Node>, i: nat)
    requires StackWellFormed(stack) && i < |stack|
    ensures AllWellFormed(stack[i].children)
  {
  }

  lemma FeedWellFormed(stack: seq<Node>, raw: string)
    requires StackWellFormed(stack)
    ensures StackWellFormed(Feed(stack, raw))
  {
    hide NormalizeLine, RStrip, WellFormed, AllWellFormed, Adopt, Pop;
    var original := RStrip(raw);
    var normalized := NormalizeLine(original);
    if |stack| > 1 {
      PopWellFormed(stack);
    }
    if !Skipped(normalized) && !Closes(normalized) {
      var node := Node(original, normalized, KindOf(normalized), []);
      NewWellFormed(raw, node);
      ChildrenWellFormed(stack, |stack| - 1);
      AdoptWellFormed(stack[|stack| - 1], node);
      assert Adopt(stack[|stack| - 1], node).kind == stack[|stack| - 1].kind by { AdoptKind(stack[|stack| - 1], node); }
    }
  }

  lemma AdoptKind(parent: Node, child: Node)
    ensures Adopt(parent, child).kind == parent.kind
  {
  }

  lemma NewWellFormed(raw: string, node: Node)
    requires var normalized := NormalizeLine(RStrip(raw));
             && !Skipped(normalized) && !Closes(normalized)
             && node == Node(RStrip(raw), normalized, KindOf(normalized), [])
    ensures WellFormed(node)
  {
    hide NormalizeLine;
    RStripTwice(raw);
  }

  lemma {:induction false} RStripTwice(s: string)
    ensures RStrip(RStrip(s)) == RStrip(s)
  {
    StripTightEnd(RStrip(s));
  }

  lemma StripTightEnd(s: string)
    requires s == "" || !IsSpace(s[|s| - 1])
    ensures RStrip(s) == s
  {
  }

  lemma {:induction false} FeedAllWellFormed(stack: seq<Node>, lines: seq<string>)
    requires StackWellFormed(stack)
    ensures StackWellFormed(FeedAll(stack, lines))
    decreases |lines|
  {
    hide StackWellFormed, Feed;
    assert stack != [] by { StackNonEmpty(stack); }
    if lines != [] {
      FeedWellFormed(stack, lines[0]);
      FeedAllWellFormed(Feed(stack, lines[0]), lines[1..]);
    }
  }

  lemma StackNonEmpty(stack: seq<Node>)
    requires StackWellFormed(stack)
    ensures stack != []
  {
  }

  lemma {:induction false} CloseAllWellFormed(stack: seq<Node>)
    requires StackWellFormed(stack)
    ensures AllWellFormed(CloseAll(stack).children)
    decreases |stack|
  {
    hide WellFormed, AllWellFormed;
    if |stack| > 1 {
      PopWellFormed(stack);
      CloseAllWellFormed(Pop(stack));
    }
  }

  lemma {:induction false} PruneWellFormed(n: Node)
    requires WellFormed(n)
    ensures WellFormed(Prune(n)) && AllFull(Prune(n).children)
    decreases n, 1
  {
    PruneAllWellFormed(n.children);
  }

  lemma {:induction false} PruneAllWellFormed(nodes: seq<Node>)
    requires AllWellFormed(nodes)
    ensures AllWellFormed(PruneAll(nodes)) && AllFull(PruneAll(nodes))
    decreases nodes, 0
  {
    hide NormalizeLine;
    if nodes != [] {
      PruneWellFormed(nodes[0]);
      PruneAllWellFormed(nodes[1..]);
      var first := Prune(nodes[0]);
      var rest := PruneAll(nodes[1..]);
      assert ([first] + rest)[1..] == rest;
      assert [] + rest == rest;
    }
  }

  lemma {:induction false} PruneFull(n: Node)
    requires Full(n)
    ensures Prune(n) == n
    decreases n, 1
  {
    PruneAllFull(n.children);
  }

  /** Pruning changes nothing once no `config` block is empty. */
  lemma {:induction false} PruneAllFull(nodes: seq<Node>)
    requires AllFull(nodes)
    ensures PruneAll(nodes) == nodes
    decreases nodes, 0
  {
    if nodes != [] {
      PruneFull(nodes[0]);
      PruneAllFull(nodes[1..]);
    }
  }

  /** Every parsed forest is well formed and has no empty `config` block. */
  lemma ParseWellFormed(lines: seq<string>)
    ensures AllWellFormed(Parse(lines)) && AllFull(Parse(lines))
  {
    FeedAllWellFormed([ROOT], lines);
    CloseAllWellFormed(FeedAll([ROOT], lines));
    PruneAllWellFormed(CloseAll(FeedAll([ROOT], lines)).children);
  }

  // ----- printing and parsing again

  lemma {:induction false} FeedAllAppend(stack: seq<Node>, a: seq<string>, b: seq<string>)
    requires stack != []
    ensures FeedAll(stack, a + b) == FeedAll(FeedAll(stack, a), b)
    decreases |a|
  {
    hide Feed;
    if a == [] {
      assert a + b == b;
    } else {
      assert (a + b)[0] == a[0] && (a + b)[1..] == a[1..] + b;
      FeedAllAppend(Feed(stack, a[0]), a[1..], b);
    }
  }

  /** The stack with more children in its innermost block. */
  function Extend(stack: seq<Node>, nodes: seq<Node>): (r: seq<Node>)
    requires stack != []
    ensures |r| == |stack|
  {
    var top := stack[|stack| - 1];
    stack[..|stack| - 1] + [top.(children := top.children + nodes)]
  }

  lemma FeedOne(stack: seq<Node>, line: string)
    requires stack != []
    ensures FeedAll(stack, [line]) == Feed(stack, line)
  {
    hide Feed;
    assert FeedAll(Feed(stack, line), []) == Feed(stack, line);
  }

  lemma FeedCloser(stack: seq<Node>, n: Node)
    requires |stack| > 1 && n.kind != Leaf && n.original == RStrip(n.original)
    ensures FeedAll(stack, Closer(n)) == Pop(stack)
  {
    hide NormalizeLine, RStrip, LStrip, FeedAll, Feed, Pop, Blank, Indent, IsSpace;
    var word := if n.kind == Config then "end" else "next";
    var line := Indent(n.original) + word;
    FeedOne(stack, line);
    IndentBlank(n.original);
    CloserWords(word);
    NormalizeWord(Indent(n.original), word);
    FeedClosing(stack, line);
  }

  lemma CloserWords(word: string)
    requires word == "end" || word == "next"
    ensures forall i :: 0 <= i < |word| ==> !IsSpace(word[i])
  {
  }

  lemma FeedClosing(stack: seq<Node>, line: string)
    requires |stack| > 1 && RStrip(line) == line
    requires NormalizeLine(line) == "end" || NormalizeLine(line) == "next"
    ensures Feed(stack, line) == Pop(stack)
  {
    hide NormalizeLine, RStrip, Pop;
  }

  lemma IndentBlank(original: string)
    ensures Blank(Indent(original))
  {
  }

  lemma FeedOpener(stack: seq<Node>, n: Node)
    requires stack != [] && WellFormed(n)
    ensures var started := n.(children := []);
            FeedAll(stack, [n.original]) == if n.kind == Leaf then Extend(stack, [n]) else stack + [started]
  {
    hide NormalizeLine, RStrip, FeedAll;
    FeedOne(stack, n.original);
  }

  lemma {:induction false} FeedRender(stack: seq<Node>, n: Node)
    requires stack != [] && WellFormed(n)
    ensures FeedAll(stack, Render(n)) == Extend(stack, [n])
    decreases n, 1
  {
    hide NormalizeLine, RStrip, FeedAll, Skipped, Closes, KindOf, Extend, Pop, Indent;
    FeedOpener(stack, n);
    if n.kind == Leaf {
      assert RenderAll(n.children) == [];
      assert Render(n) == [n.original];
    } else {
      var started := stack + [n.(children := [])];
      var body := RenderAll(n.children);
      RenderSplit(stack, started, n);
      FeedRenderAll(started, n.children);
      FilledBlock(stack, n);
      FeedCloser(stack + [n], n);
      PopLast(stack, n);
    }
  }

  /** The opening line, the body and the closing line are fed one after another. */
  lemma RenderSplit(stack: seq<Node>, started: seq<Node>, n: Node)
    requires stack != [] && started != [] && FeedAll(stack, [n.original]) == started
    ensures FeedAll(started, RenderAll(n.children)) != []
    ensures FeedAll(stack, Render(n)) == FeedAll(FeedAll(started, RenderAll(n.children)), Closer(n))
  {
    hide FeedAll, RenderAll, Closer;
    var body := RenderAll(n.children);
    FeedAllAppend(stack, [n.original], body + Closer(n));
    assert [n.original] + (body + Closer(n)) == Render(n);
    FeedAllAppend(started, body, Closer(n));
  }

  lemma FilledBlock(stack: seq<Node>, n: Node)
    ensures Extend(stack + [n.(children := [])], n.children) == stack + [n]
  {
    assert [] + n.children == n.children;
    assert (stack + [n.(children := [])])[..|stack|] == stack;
  }

  lemma PopLast(stack: seq<Node>, n: Node)
    requires stack != []
    ensures Pop(stack + [n]) == Extend(stack, [n])
  {
    assert (stack + [n])[..|stack| - 1] == stack[..|stack| - 1];
  }

  lemma FeedNothing(stack: seq<Node>)
    requires stack != []
    ensures FeedAll(stack, []) == stack && Extend(stack, []) == stack
  {
    var top := stack[|stack| - 1];
    assert top.(children := top.children + []) == top;
  }

  /** Reading what was printed adds exactly the nodes printed. */
  lemma {:induction false} FeedRenderAll(stack: seq<Node>, nodes: seq<Node>)
    requires stack != [] && AllWellFormed(nodes)
    ensures FeedAll(stack, RenderAll(nodes)) == Extend(stack, nodes)
    decreases nodes, 0
  {
    hide FeedAll, WellFormed, Render;
    if nodes == [] {
      FeedNothing(stack);
    } else {
      FeedAllAppend(stack, Render(nodes[0]), RenderAll(nodes[1..]));
      FeedRender(stack, nodes[0]);
      FeedRenderAll(Extend(stack, [nodes[0]]), nodes[1..]);
      assert [nodes[0]] + nodes[1..] == nodes;
      var top := stack[|stack| - 1];
      assert top.children + [nodes[0]] + nodes[1..] == top.children + nodes;
    }
  }

  /** A well-formed forest without empty `config` blocks is what its own printout parses to. */
  lemma RenderParses(nodes: seq<Node>)
    requires AllWellFormed(nodes) && AllFull(nodes)
    ensures Parse(RenderAll(nodes)) == nodes
  {
    hide FeedAll, RenderAll, PruneAll;
    FeedRenderAll([ROOT], nodes);
    assert Extend([ROOT], nodes)[0].children == [] + nodes == nodes;
    PruneAllFull(nodes);
  }

  /** Parsing what a parse prints gives the parse again, whatever the lines were. */
  lemma ParseFixpoint(lines: seq<string>)
    ensures Parse(RenderAll(Parse(lines))) == Parse(lines)
  {
    hide Parse;
    ParseWellFormed(lines);
    RenderParses(Parse(lines));
  }

  // ----- what pruning keeps

  /** The lines of all leaves and `edit` blocks, in order. */
  function Substance(n: Node): seq<string>
    decreases n, 1
  {
    (if n.kind == Config then [] else [n.original]) + AllSubstance(n.children)
  }

  function AllSubstance(nodes: seq<Node>): seq<string>
    decreases nodes, 0
  {
    if nodes == [] then [] else Substance(nodes[0]) + AllSubstance(nodes[1..])
  }

  lemma {:induction false} PruneKeeps(n: Node)
    ensures Substance(Prune(n)) == Substance(n)
    decreases n, 1
  {
    PruneAllKeeps(n.children);
  }

  /** Pruning loses no leaf and no `edit` block, not even an empty one, and moves none. */
  lemma {:induction false} PruneAllKeeps(nodes: seq<Node>)
    ensures AllSubstance(PruneAll(nodes)) == AllSubstance(nodes)
    decreases nodes, 0
  {
    if nodes != [] {
      PruneKeeps(nodes[0]);
      PruneAllKeeps(nodes[1..]);
      var first := Prune(nodes[0]);
      var rest := PruneAll(nodes[1..]);
      assert ([first] + rest)[1..] == rest && [] + rest == rest;
    }
  }

  // ----- the parser in place

  /** `_prune_empty_config_blocks`: the children that remain are collected in a loop. */
  method PruneEmptyBlocks(n: Node) returns (r: Node)
    ensures r == Prune(n)
    decreases n
  {
    hide PruneAll;
    var children: seq<Node> := [];
    for i := 0 to |n.children|
      invariant PruneAll(n.children) == children + PruneAll(n.children[i..])
    {
      var child := PruneEmptyBlocks(n.children[i]);
      PruneNext(n.children, i, child);
      if !(child.kind == Config && child.children == []) {
        children := children + [child];
      }
    }
    PruneNone(n.children[|n.children|..]);
    r := n.(children := children);
  }

  lemma PruneNext(nodes: seq<Node>, i: nat, pruned: Node)
    requires i < |nodes| && pruned == Prune(nodes[i])
    ensures PruneAll(nodes[i..])
         == (if pruned.kind == Config && pruned.children == [] then [] else [pruned]) + PruneAll(nodes[i + 1..])
  {
    hide Prune;
    assert nodes[i..][0] == nodes[i] && nodes[i..][1..] == nodes[i + 1..];
  }

  lemma PruneNone(nodes: seq<Node>)
    requires nodes == []
    ensures PruneAll(nodes) == []
  {
  }

  /** `parse_config`: one pass over the lines with a stack of open blocks. */
  method ParseConfig(lines: seq<string>) returns (forest: seq<Node>)
    ensures forest == Parse(lines)
    ensures AllWellFormed(forest) && AllFull(forest)
  {
    hide NormalizeLine, WellFormed, AllWellFormed, AllFull;
    var stack := [ROOT];
    for i := 0 to |lines|
      invariant stack != []
      invariant FeedAll([ROOT], lines) == FeedAll(stack, lines[i..])
    {
      assert lines[i..][0] == lines[i] && lines[i..][1..] == lines[i + 1..];
      var before := stack;
      var original := RStrip(lines[i]);
      var normalized := NormalizeLine(original);
      if normalized == "" || normalized[0] == '#' {
      } else if normalized == "next" || normalized == "end" {
        if |stack| > 1 {
          stack := Pop(stack);
        }
      } else {
        var kind := Leaf;
        if StartsWith(normalized, "config ") {
          kind := Config;
        } else if StartsWith(normalized, "edit ") {
          kind := Edit;
        }
        var node := Node(original, normalized, kind, []);
        if kind == Leaf {
          stack := stack[..|stack| - 1] + [Adopt(stack[|stack| - 1], node)];
        } else {
          stack := stack + [node];
        }
      }
      assert stack == Feed(before, lines[i]);
    }
    assert lines[|lines|..] == [];
    while |stack| > 1
      invariant stack != [] && CloseAll(stack) == CloseAll(FeedAll([ROOT], lines))
      decreases |stack|
    {
      stack := Pop(stack);
    }
    var root := PruneEmptyBlocks(stack[0]);
    forest := root.children;
    ParseWellFormed(lines);
  }
}
