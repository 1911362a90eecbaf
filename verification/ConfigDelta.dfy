/**
 The structural difference of two configurations: what of the current one the baseline lacks
 (`_delta_nodes` and `diff_config` in fortinet/common/config_diff.py).
 */
module ConfigDelta {
  import opened Text
  import opened ConfigLine
  import opened ConfigDiff

  predicate Same(a: Node, b: Node) {
    a.kind == b.kind && a.normalized == b.normalized
  }

  /** `_find_match`: the first node from `from` on that is not used up and has the target's line. */
  function FindMatch(nodes: seq<Node>, target: Node, used: set<nat>, from: nat): (r: Option<nat>)
    requires from <= |nodes|
    ensures r.Some? ==> from <= r.value < |nodes| && r.value !in used && Same(nodes[r.value], target)
    ensures r.Some? ==> forall i :: from <= i < r.value ==> i in used || !Same(nodes[i], target)
    ensures r.None? ==> forall i :: from <= i < |nodes| ==> i in used || !Same(nodes[i], target)
    decreases |nodes| - from
  {
    if from == |nodes| then None
    else if from !in used && Same(nodes[from], target) then Some(from)
    else FindMatch(nodes, target, used, from + 1)
  }

  /** An encrypted leaf whose stored secret differs from its counterpart's. */
  predicate Reencrypted(node: Node, counterpart: Node) {
    IsEncrypted(node) && LiteralLine(node.original) != LiteralLine(counterpart.original)
  }

  /** What is emitted for a node that has a counterpart. */
  function Difference(node: Node, counterpart: Node, track: bool): seq<Node>
    decreases node, 1
  {
    if node.kind == Leaf then
      if track && Reencrypted(node, counterpart) then [node] else []
    else
      var children := Delta(counterpart.children, node.children, {}, track);
      if children == [] then []
      else if node.kind == Edit then [node]
      else [node.(children := children)]
  }

  function Delta(baseline: seq<Node>, current: seq<Node>, used: set<nat>, track: bool): seq<Node>
    decreases current, 0
  {
    if current == [] then []
    else
      match FindMatch(baseline, current[0], used, 0)
      case None => [current[0]] + Delta(baseline, current[1..], used, track)
      case Some(index) =>
        Difference(current[0], baseline[index], track) + Delta(baseline, current[1..], used + {index}, track)
  }

  /** `diff_config`, as lines. */
  function DiffConfig(baseline: seq<string>, current: seq<string>, track: bool): seq<string> {
    RenderAll(Delta(Parse(baseline), Parse(current), {}, track))
  }

  // ----- no difference to itself

  lemma {:induction false} SelfDifference(node: Node, track: bool)
    ensures Difference(node, node, track) == []
    decreases node, 1
  {
    SelfDelta(node.children, 0, {}, track);
  }

  /** The k-th of several equal siblings is matched with the k-th. */
  lemma {:induction false} SelfDelta(nodes: seq<Node>, k: nat, used: set<nat>, track: bool)
    requires k <= |nodes| && (forall i :: i in used <==> 0 <= i < k)
    ensures Delta(nodes, nodes[k..], used, track) == []
    decreases nodes, 0, |nodes| - k
  {
    hide Difference;
    if k < |nodes| {
      assert nodes[k..][0] == nodes[k] && nodes[k..][1..] == nodes[k + 1..];
      SelfDifference(nodes[k], track);
      SelfDelta(nodes, k + 1, used + {k}, track);
    }
  }

  /** The difference of a configuration to itself is empty, for all line sequences and both settings. */
  lemma SelfDiffEmpty(lines: seq<string>, track: bool)
    ensures DiffConfig(lines, lines, track) == []
  {
    hide Parse, Delta;
    var forest := Parse(lines);
    SelfDelta(forest, 0, {}, track);
    assert forest[0..] == forest;
  }

  // ----- what the difference consists of

  /** `x` is the node, or for a `config` block the node with a thinned, non-empty body. */
  predicate Cut(x: Node, node: Node)
    decreases node, 1
  {
    || x == node
    || (node.kind == Config && x == node.(children := x.children) && x.children != []
        && Thinned(x.children, node.children))
  }

  /** `xs` is what remains of the forest after deleting nodes, in the forest's order. */
  predicate Thinned(xs: seq<Node>, nodes: seq<Node>)
    decreases nodes, 0
  {
    || xs == []
    || (nodes != [] && (|| Thinned(xs, nodes[1..])
                        || (Cut(xs[0], nodes[0]) && Thinned(xs[1..], nodes[1..]))))
  }

  lemma {:induction false} DifferenceCut(node: Node, counterpart: Node, track: bool)
    ensures var d := Difference(node, counterpart, track); d == [] || (|d| == 1 && Cut(d[0], node))
    decreases node, 1
  {
    if node.kind == Config {
      DeltaThinned(counterpart.children, node.children, {}, track);
    }
  }

  /**
   The delta is the current forest with nodes deleted: in the current order, leaves and `edit`
   blocks complete and unmodified, only `config` blocks reduced to the part that differs.
   */
  lemma {:induction false} DeltaThinned(baseline: seq<Node>, current: seq<Node>, used: set<nat>, track: bool)
    ensures Thinned(Delta(baseline, current, used, track), current)
    decreases current, 0
  {
    hide Difference;
    if current != [] {
      match FindMatch(baseline, current[0], used, 0)
      case None =>
        var rest := Delta(baseline, current[1..], used, track);
        DeltaThinned(baseline, current[1..], used, track);
        assert ([current[0]] + rest)[1..] == rest;
      case Some(index) =>
        var d := Difference(current[0], baseline[index], track);
        var rest := Delta(baseline, current[1..], used + {index}, track);
        DeltaThinned(baseline, current[1..], used + {index}, track);
        DifferenceCut(current[0], baseline[index], track);
        assert [] + rest == rest;
        assert d != [] ==> (d + rest)[0] == d[0] && (d + rest)[1..] == rest;
    }
  }

  lemma {:induction false} CutWellFormed(x: Node, node: Node)
    requires Cut(x, node) && WellFormed(node) && Full(node)
    ensures WellFormed(x) && Full(x) && Same(x, node) && x.original == node.original
    decreases node, 1
  {
    hide NormalizeLine;
    if x != node {
      ThinnedWellFormed(x.children, node.children);
    }
  }

  lemma {:induction false} ThinnedWellFormed(xs: seq<Node>, nodes: seq<Node>)
    requires Thinned(xs, nodes) && AllWellFormed(nodes) && AllFull(nodes)
    ensures AllWellFormed(xs) && AllFull(xs)
    decreases nodes, 0
  {
    hide Cut, WellFormed, Full;
    if xs != [] {
      if Thinned(xs, nodes[1..]) {
        ThinnedWellFormed(xs, nodes[1..]);
      } else {
        CutWellFormed(xs[0], nodes[0]);
        ThinnedWellFormed(xs[1..], nodes[1..]);
      }
    }
  }

  /** The printed delta parses back to the delta. */
  lemma DiffParses(baseline: seq<string>, current: seq<string>, track: bool)
    ensures Parse(DiffConfig(baseline, current, track)) == Delta(Parse(baseline), Parse(current), {}, track)
  {
    hide Parse, Delta, Thinned, AllWellFormed, AllFull;
    ParseWellFormed(current);
    DeltaThinned(Parse(baseline), Parse(current), {}, track);
    ThinnedWellFormed(Delta(Parse(baseline), Parse(current), {}, track), Parse(current));
    RenderParses(Delta(Parse(baseline), Parse(current), {}, track));
  }

  // ----- paths

  type Key = (Kind, string)

  function KeyOf(n: Node): Key {
    (n.kind, n.normalized)
  }

  /** The forest has a node at the end of this path of normalized lines. */
  predicate HasPath(nodes: seq<Node>, path: seq<Key>)
    decreases nodes
  {
    nodes != [] && (Leads(nodes[0], path) || HasPath(nodes[1..], path))
  }

  predicate Leads(n: Node, path: seq<Key>)
    decreases n
  {
    path != [] && KeyOf(n) == path[0] && (|path| == 1 || HasPath(n.children, path[1..]))
  }

  lemma {:induction false} LeadsIn(nodes: seq<Node>, i: nat, path: seq<Key>)
    requires i < |nodes| && Leads(nodes[i], path)
    ensures HasPath(nodes, path)
  {
    hide Leads;
    if i > 0 {
      LeadsIn(nodes[1..], i - 1, path);
    }
  }

  lemma {:induction false} HasPathAppend(a: seq<Node>, b: seq<Node>, path: seq<Key>)
    ensures HasPath(a + b, path) <==> HasPath(a, path) || HasPath(b, path)
  {
    hide Leads;
    if a == [] {
      assert a + b == b;
    } else {
      assert (a + b)[0] == a[0] && (a + b)[1..] == a[1..] + b;
      HasPathAppend(a[1..], b, path);
    }
  }

  lemma {:induction false} DifferencePaths(node: Node, counterpart: Node, track: bool, path: seq<Key>)
    requires Same(node, counterpart) && WellFormed(node)
    ensures Leads(node, path) ==> Leads(counterpart, path) || HasPath(Difference(node, counterpart, track), path)
    ensures HasPath(Difference(node, counterpart, track), path) ==> Leads(node, path)
    decreases node, 1
  {
    hide NormalizeLine;
    var d := Difference(node, counterpart, track);
    if path != [] {
      DeltaPaths(counterpart.children, node.children, {}, track, path[1..]);
    }
    if d != [] {
      OnePath(d[0], path);
      assert d == [d[0]];
    }
    if path != [] {
      NoPath(path[1..]);
    }
  }

  lemma OnePath(n: Node, path: seq<Key>)
    ensures HasPath([n], path) <==> Leads(n, path)
  {
    assert [n][1..] == [];
  }

  lemma NoPath(path: seq<Key>)
    ensures !HasPath([], path)
  {
  }

  /** Every path of the current forest is in the baseline or in the delta; the delta has no others. */
  lemma {:induction false} DeltaPaths(baseline: seq<Node>, current: seq<Node>, used: set<nat>, track: bool,
      path: seq<Key>)
    requires AllWellFormed(current)
    ensures HasPath(current, path) ==> HasPath(baseline, path) || HasPath(Delta(baseline, current, used, track), path)
    ensures HasPath(Delta(baseline, current, used, track), path) ==> HasPath(current, path)
    decreases current, 0
  {
    hide Difference, Leads, WellFormed;
    if current != [] {
      match FindMatch(baseline, current[0], used, 0)
      case None =>
        var rest := Delta(baseline, current[1..], used, track);
        DeltaPaths(baseline, current[1..], used, track, path);
        HasPathAppend([current[0]], rest, path);
        OnePath(current[0], path);
      case Some(index) =>
        var d := Difference(current[0], baseline[index], track);
        var rest := Delta(baseline, current[1..], used + {index}, track);
        DeltaPaths(baseline, current[1..], used + {index}, track, path);
        DifferencePaths(current[0], baseline[index], track, path);
        HasPathAppend(d, rest, path);
        if Leads(baseline[index], path) {
          LeadsIn(baseline, index, path);
        }
    }
  }

  /**
   Adding the delta to the baseline gives every path of the current configuration and no other:
   paths(baseline) with paths(delta) are paths(baseline) with paths(current).
   */
  lemma DiffPaths(baseline: seq<string>, current: seq<string>, track: bool, path: seq<Key>)
    ensures var b := Parse(baseline);
            var c := Parse(current);
            var d := Parse(DiffConfig(baseline, current, track));
            && (HasPath(b, path) || HasPath(d, path) <==> HasPath(b, path) || HasPath(c, path))
            && (HasPath(d, path) ==> HasPath(c, path))
  {
    hide Parse, Delta, HasPath, AllWellFormed, AllFull, DiffConfig;
    DiffParses(baseline, current, track);
    ParseWellFormed(current);
    DeltaPaths(Parse(baseline), Parse(current), {}, track, path);
  }

  // ----- duplicate siblings

  /** The nodes with this key, in order. */
  function Copies(nodes: seq<Node>, key: Key): seq<Node> {
    if nodes == [] then [] else (if KeyOf(nodes[0]) == key then [nodes[0]] else []) + Copies(nodes[1..], key)
  }

  /** Those of them from `from` on that are not used up. */
  function Unused(nodes: seq<Node>, used: set<nat>, key: Key, from: nat): seq<Node>
    requires from <= |nodes|
    decreases |nodes| - from
  {
    if from == |nodes| then []
    else
      (if from !in used && KeyOf(nodes[from]) == key then [nodes[from]] else []) + Unused(nodes, used, key, from + 1)
  }

  /**
   What is emitted of the copies of a leaf: the k-th current copy is held against the k-th copy of the
   baseline, and counts only if its secret was stored anew and that is tracked; copies in excess are new.
   */
  function Excess(current: seq<Node>, baseline: seq<Node>, track: bool): seq<Node>
    decreases |current|
  {
    if current == [] then []
    else if baseline == [] then current
    else
      (if track && Reencrypted(current[0], baseline[0]) then [current[0]] else [])
      + Excess(current[1..], baseline[1..], track)
  }

  lemma {:induction false} UnusedAll(nodes: seq<Node>, key: Key, from: nat)
    requires from <= |nodes|
    ensures Unused(nodes, {}, key, from) == Copies(nodes[from..], key)
    decreases |nodes| - from
  {
    if from < |nodes| {
      UnusedAll(nodes, key, from + 1);
      assert nodes[from..][0] == nodes[from] && nodes[from..][1..] == nodes[from + 1..];
    }
  }

  /** Using up a node matters only to its own key, where it is the first of those not used up. */
  lemma {:induction false} UseFirst(nodes: seq<Node>, used: set<nat>, key: Key, index: nat, from: nat)
    requires from <= |nodes| && index < |nodes| && index !in used
    requires forall i :: from <= i < index && i !in used ==> KeyOf(nodes[i]) != KeyOf(nodes[index])
    ensures var before, after := Unused(nodes, used, key, from), Unused(nodes, used + {index}, key, from);
            if index >= from && KeyOf(nodes[index]) == key then before == [nodes[index]] + after else before == after
    decreases |nodes| - from
  {
    if from < |nodes| {
      UseFirst(nodes, used, key, index, from + 1);
    }
  }

  lemma {:induction false} NoneUnused(nodes: seq<Node>, used: set<nat>, target: Node, from: nat)
    requires from <= |nodes| && forall i :: from <= i < |nodes| ==> i in used || !Same(nodes[i], target)
    ensures Unused(nodes, used, KeyOf(target), from) == []
    decreases |nodes| - from
  {
    if from < |nodes| {
      NoneUnused(nodes, used, target, from + 1);
    }
  }

  lemma {:induction false} CopiesAppend(a: seq<Node>, b: seq<Node>, key: Key)
    ensures Copies(a + b, key) == Copies(a, key) + Copies(b, key)
  {
    if a == [] {
      assert a + b == b;
    } else {
      assert (a + b)[0] == a[0] && (a + b)[1..] == a[1..] + b;
      CopiesAppend(a[1..], b, key);
    }
  }

  lemma CopiesOfOne(node: Node, key: Key)
    ensures Copies([node], key) == if KeyOf(node) == key then [node] else []
  {
    assert [node][1..] == [];
  }

  /** What a node with a counterpart adds to the copies of a leaf. */
  lemma DifferenceCopies(node: Node, counterpart: Node, track: bool, key: Key)
    requires key.0 == Leaf
    ensures Copies(Difference(node, counterpart, track), key)
         == if KeyOf(node) == key && track && Reencrypted(node, counterpart) then [node] else []
  {
    hide Reencrypted, Delta;
    var d := Difference(node, counterpart, track);
    if d != [] {
      CopiesOfOne(d[0], key);
    }
  }

  /**
   Duplicate leaves, at any depth: of the siblings with one line, the delta has exactly those copies that
   are in excess of the baseline's, and with tracking those stored anew as well, in their order.
   */
  lemma {:induction false} LeafCopies(baseline: seq<Node>, current: seq<Node>, used: set<nat>, track: bool, key: Key)
    requires key.0 == Leaf
    ensures Copies(Delta(baseline, current, used, track), key)
         == Excess(Copies(current, key), Unused(baseline, used, key, 0), track)
    decreases |current|
  {
    hide Difference, Reencrypted, Unused;
    if current != [] {
      var node, rest := current[0], current[1..];
      match FindMatch(baseline, node, used, 0)
      case None =>
        LeafCopies(baseline, rest, used, track, key);
        CopiesAppend([node], Delta(baseline, rest, used, track), key);
        CopiesOfOne(node, key);
        NoneUnused(baseline, used, node, 0);
        ExcessOfNone(Copies(rest, key), track);
        ExcessOfNone(Copies(current, key), track);
        assert Delta(baseline, current, used, track) == [node] + Delta(baseline, rest, used, track);
        if KeyOf(node) == key {
          assert Unused(baseline, used, key, 0) == [];
          assert Copies(Delta(baseline, current, used, track), key) == [node] + Copies(rest, key);
        } else {
          assert Copies(current, key) == Copies(rest, key);
        }
      case Some(index) =>
        LeafCopies(baseline, rest, used + {index}, track, key);
        CopiesAppend(Difference(node, baseline[index], track), Delta(baseline, rest, used + {index}, track), key);
        DifferenceCopies(node, baseline[index], track, key);
        UseFirst(baseline, used, key, index, 0);
        ExcessOfPair(node, Copies(rest, key), baseline[index], Unused(baseline, used + {index}, key, 0), track);
        assert Delta(baseline, current, used, track)
            == Difference(node, baseline[index], track) + Delta(baseline, rest, used + {index}, track);
        if KeyOf(node) != key {
          assert Copies(current, key) == Copies(rest, key);
        }
    }
  }

  lemma ExcessOfPair(node: Node, current: seq<Node>, counterpart: Node, baseline: seq<Node>, track: bool)
    ensures Excess([node] + current, [counterpart] + baseline, track)
         == (if track && Reencrypted(node, counterpart) then [node] else []) + Excess(current, baseline, track)
  {
    assert ([node] + current)[1..] == current && ([counterpart] + baseline)[1..] == baseline;
  }

  lemma ExcessOfNone(current: seq<Node>, track: bool)
    ensures Excess(current, [], track) == current
  {
  }

  /** Without tracking it is the last copies, as many as the baseline is short of. */
  lemma {:induction false} ExcessUntracked(current: seq<Node>, baseline: seq<Node>)
    ensures Excess(current, baseline, false) == if |current| <= |baseline| then [] else current[|baseline|..]
    decreases |current|
  {
    if current != [] && baseline != [] {
      ExcessUntracked(current[1..], baseline[1..]);
    }
  }

  /** Of each top-level leaf line, the printed delta has just those copies. */
  lemma DiffLeafCopies(baseline: seq<string>, current: seq<string>, track: bool, key: Key)
    requires key.0 == Leaf
    ensures var b := Copies(Parse(baseline), key);
            var c := Copies(Parse(current), key);
            var d := Copies(Parse(DiffConfig(baseline, current, track)), key);
            && d == Excess(c, b, track)
            && (!track ==> d == if |c| <= |b| then [] else c[|b|..])
  {
    hide Parse, Delta, DiffConfig, Copies, Unused, Excess;
    DiffParses(baseline, current, track);
    LeafCopies(Parse(baseline), Parse(current), {}, track, key);
    UnusedAll(Parse(baseline), key, 0);
    assert Parse(baseline)[0..] == Parse(baseline);
    ExcessUntracked(Copies(Parse(current), key), Copies(Parse(baseline), key));
  }

  // ----- the algorithm in place

  /** `_find_match`: a linear search. */
  method FindMatchIn(nodes: seq<Node>, target: Node, used: set<nat>) returns (found: Option<nat>)
    ensures found == FindMatch(nodes, target, used, 0)
  {
    for i := 0 to |nodes|
      invariant FindMatch(nodes, target, used, 0) == FindMatch(nodes, target, used, i)
    {
      if i !in used && nodes[i].kind == target.kind && nodes[i].normalized == target.normalized {
        return Some(i);
      }
    }
    return None;
  }

  /** The loop body of `_delta_nodes` for a node that has a counterpart. */
  method Emit(node: Node, counterpart: Node, track: bool) returns (result: seq<Node>)
    ensures result == Difference(node, counterpart, track)
    decreases node, 1
  {
    if node.kind == Leaf {
      return if track && Reencrypted(node, counterpart) then [node] else [];
    }
    var children := DeltaNodes(counterpart.children, node.children, track);
    if children == [] {
      return [];
    }
    // An edit is the boundary at which an entry can be replayed: it is emitted whole.
    if node.kind == Edit {
      return [node];
    }
    return [node.(children := children)];
  }

  lemma DeltaFrom(baseline: seq<Node>, current: seq<Node>, i: nat, used: set<nat>, track: bool)
    requires i < |current|
    ensures Delta(baseline, current[i..], used, track) ==
            match FindMatch(baseline, current[i], used, 0) {
              case None => [current[i]] + Delta(baseline, current[i + 1..], used, track)
              case Some(index) =>
                Difference(current[i], baseline[index], track)
                + Delta(baseline, current[i + 1..], used + {index}, track)
            }
  {
    hide Difference, FindMatch;
    assert current[i..][0] == current[i] && current[i..][1..] == current[i + 1..];
  }

  /** `_delta_nodes`: `result` grows and `used` marks the baseline nodes already matched. */
  method DeltaNodes(baseline: seq<Node>, current: seq<Node>, track: bool) returns (result: seq<Node>)
    ensures result == Delta(baseline, current, {}, track)
    decreases current, 0
  {
    hide Delta, Difference, FindMatch;
    result := [];
    var used: set<nat> := {};
    assert current[0..] == current;
    for i := 0 to |current|
      invariant Delta(baseline, current, {}, track) == result + Delta(baseline, current[i..], used, track)
    {
      DeltaFrom(baseline, current, i, used, track);
      var found := FindMatchIn(baseline, current[i], used);
      if found.None? {
        result := result + [current[i]];
      } else {
        var emitted := Emit(current[i], baseline[found.value], track);
        result := result + emitted;
        used := used + {found.value};
      }
    }
    assert current[|current|..] == [];
    NothingLeft(baseline, used, track);
  }

  lemma NothingLeft(baseline: seq<Node>, used: set<nat>, track: bool)
    ensures Delta(baseline, [], used, track) == []
  {
  }

  /** `diff_config` up to joining the lines. */
  method DiffConfigLines(baseline: seq<string>, current: seq<string>, track: bool) returns (lines: seq<string>)
    ensures lines == DiffConfig(baseline, current, track)
  {
    hide Parse, Render, Delta, AllWellFormed, AllFull, NormalizeLine;
    var baselineTree := ParseConfig(baseline);
    var currentTree := ParseConfig(current);
    var delta := DeltaNodes(baselineTree, currentTree, track);
    lines := [];
    for i := 0 to |delta|
      invariant RenderAll(delta) == lines + RenderAll(delta[i..])
    {
      assert delta[i..][0] == delta[i] && delta[i..][1..] == delta[i + 1..];
      lines := lines + Render(delta[i]);
    }
    assert delta[|delta|..] == [];
  }
}
