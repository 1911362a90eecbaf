/**
 Strings and sequences as Python's `str` methods see them: whitespace trimming,
 prefixes, lower-casing, splitting at newlines.
 */
module Text {

  datatype Option<+T> = None | Some(value: T)

  /** The characters `str.isspace` accepts, which `strip`, `lstrip` and `rstrip` remove. */
  predicate IsSpace(c: char) {
    var n := c as int;
    || 9 <= n <= 13
    || 28 <= n <= 32
    || n == 0x85 || n == 0xA0 || n == 0x1680
    || 0x2000 <= n <= 0x200A
    || n == 0x2028 || n == 0x2029 || n == 0x202F || n == 0x205F || n == 0x3000
  }

  predicate Blank(s: string) {
    forall i :: 0 <= i < |s| ==> IsSpace(s[i])
  }

  function LStrip(s: string): (r: string)
    ensures |r| <= |s| && r == s[|s| - |r|..]
    ensures Blank(s[..|s| - |r|])
    ensures r != "" ==> !IsSpace(r[0])
  {
    if s != "" && IsSpace(s[0]) then
      var r := LStrip(s[1..]);
      assert s[..|s| - |r|] == [s[0]] + s[1..][..|s| - 1 - |r|];
      r
    else s
  }

  function RStrip(s: string): (r: string)
    ensures |r| <= |s| && r == s[..|r|]
    ensures Blank(s[|r|..])
    ensures r != "" ==> !IsSpace(r[|r| - 1])
  {
    if s != "" && IsSpace(s[|s| - 1]) then
      var r := RStrip(s[..|s| - 1]);
      assert s[|r|..] == s[..|s| - 1][|r|..] + [s[|s| - 1]];
      r
    else s
  }

  function Strip(s: string): string {
    RStrip(LStrip(s))
  }

  function LowerChar(c: char): char {
    if 'A' <= c <= 'Z' then c + 32 as char else c
  }

  function Lower(s: string): (r: string)
    ensures |r| == |s|
  {
    seq(|s|, i requires 0 <= i < |s| => LowerChar(s[i]))
  }

  predicate StartsWith(s: string, prefix: string) {
    prefix <= s
  }

  predicate Contains(s: string, part: string) {
    part <= s || (s != "" && Contains(s[1..], part))
  }

  /** `s.split("\n")`: the physical lines of a logical line. */
  function SplitLines(s: string): (lines: seq<string>)
    ensures |lines| >= 1
    ensures forall i :: 0 <= i < |lines| ==> '\n' !in lines[i]
  {
    if s == "" then [""]
    else
      var rest := SplitLines(s[1..]);
      if s[0] == '\n' then [""] + rest else [[s[0]] + rest[0]] + rest[1..]
  }

  /** `"\n".join(lines)`. */
  function JoinLines(lines: seq<string>): string {
    if lines == [] then ""
    else if |lines| == 1 then lines[0]
    else lines[0] + "\n" + JoinLines(lines[1..])
  }

  /** The concatenation of a sequence of sequences. */
  function Concat<T>(parts: seq<seq<T>>): seq<T> {
    if parts == [] then [] else parts[0] + Concat(parts[1..])
  }

  lemma {:induction false} ConcatAppend<T>(parts: seq<seq<T>>, more: seq<seq<T>>)
    ensures Concat(parts + more) == Concat(parts) + Concat(more)
  {
    if parts == [] {
      assert parts + more == more;
    } else {
      var all := parts + more;
      assert all[0] == parts[0] && all[1..] == parts[1..] + more;
      ConcatAppend(parts[1..], more);
      assert Concat(all) == parts[0] + Concat(all[1..]);
    }
  }

  /** The parts, with more at the end of the last one. */
  function ExtendLast<T>(parts: seq<seq<T>>, more: seq<T>): (r: seq<seq<T>>)
    ensures |r| == |parts|
  {
    if parts == [] then [] else parts[..|parts| - 1] + [parts[|parts| - 1] + more]
  }

  lemma ConcatExtend<T>(parts: seq<seq<T>>, more: seq<T>)
    requires parts != []
    ensures Concat(ExtendLast(parts, more)) == Concat(parts) + more
  {
    var init, last := parts[..|parts| - 1], parts[|parts| - 1];
    assert parts == init + [last];
    ConcatAppend(init, [last]);
    ConcatAppend(init, [last + more]);
    assert Concat([last]) == last && Concat([last + more]) == last + more;
  }

  lemma ExtendExtend<T>(parts: seq<seq<T>>, first: seq<T>, second: seq<T>)
    ensures ExtendLast(ExtendLast(parts, first), second) == ExtendLast(parts, first + second)
  {
    if parts != [] {
      var last := parts[|parts| - 1];
      assert last + first + second == last + (first + second);
    }
  }

  lemma ExtendNothing<T>(parts: seq<seq<T>>)
    ensures ExtendLast(parts, []) == parts
  {
    if parts != [] {
      var last := parts[|parts| - 1];
      assert last + [] == last && parts == parts[..|parts| - 1] + [last];
    }
  }

  lemma {:induction false} LStripOf(indent: string, text: string)
    requires Blank(indent) && (text == "" || !IsSpace(text[0]))
    ensures LStrip(indent + text) == text
  {
    hide IsSpace;
    if indent == "" {
      assert indent + text == text;
    } else {
      var line := indent + text;
      assert line[0] == indent[0] && line[1..] == indent[1..] + text;
      LStripOf(indent[1..], text);
      assert LStrip(line) == LStrip(line[1..]);
    }
  }

  lemma StripTight(text: string)
    requires text == "" || (!IsSpace(text[0]) && !IsSpace(text[|text| - 1]))
    ensures Strip(text) == text && LStrip(text) == text && RStrip(text) == text
  {
  }

  /** A trimmed line is its indentation and its text. */
  lemma SplitIndent(line: string) returns (indent: string, text: string)
    requires line == RStrip(line)
    ensures line == indent + text && Blank(indent) && text == LStrip(line)
    ensures text == "" || (!IsSpace(text[0]) && !IsSpace(text[|text| - 1]))
  {
    text := LStrip(line);
    indent := line[..|line| - |text|];
    if text != "" {
      assert text[|text| - 1] == line[|line| - 1];
    }
  }

  lemma RStripBlank(s: string)
    requires s != "" && !IsSpace(s[|s| - 1])
    ensures RStrip(s + " ") == s
  {
    assert (s + " ")[..|s|] == s;
  }
}
