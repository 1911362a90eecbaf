/**
 Single configuration lines: how fortinet/common/config_diff.py normalizes them.
 */
module ConfigLine {
  import opened Text

  predicate IsBlank(c: char) {
    c == ' ' || c == '\t'
  }

  /** `re.sub(r"[ \t]+", " ", line)`. */
  function Collapse(s: string): string {
    if s == "" then ""
    else if IsBlank(s[0]) then
      if |s| > 1 && IsBlank(s[1]) then Collapse(s[1..]) else " " + Collapse(s[1..])
    else [s[0]] + Collapse(s[1..])
  }

  predicate IsWord(c: char) {
    'a' <= c <= 'z' || 'A' <= c <= 'Z' || '0' <= c <= '9' || c == '_'
  }

  /** Where the last word of the line begins. */
  function LastWord(s: string): (k: nat)
    ensures k <= |s|
    ensures forall i :: k <= i < |s| ==> !IsSpace(s[i])
    ensures k > 0 ==> IsSpace(s[k - 1])
  {
    if s == "" || IsSpace(s[|s| - 1]) then |s| else LastWord(s[..|s| - 1])
  }

  const ENCRYPTED := "ENC <encrypted>"

  /** `re.sub(r"\bENC\s+\S+$", "ENC <encrypted>", line)`: only the last word can match `\S+$`. */
  function Mask(s: string): string {
    var k := LastWord(s);
    var head := RStrip(s[..k]);
    if k < |s| && 3 <= |head| < k && head[|head| - 3..] == "ENC" && (|head| > 3 ==> !IsWord(head[|head| - 4])) then
      head[..|head| - 3] + ENCRYPTED
    else s
  }

  function LiteralLine(line: string): string {
    Strip(Collapse(line))
  }

  function NormalizeLine(line: string): string {
    Mask(LiteralLine(line))
  }

  // ----- collapsing blanks

  lemma {:induction false} CollapseAppend(a: string, b: string)
    requires b == "" || !IsBlank(b[0])
    ensures Collapse(a + b) == Collapse(a) + Collapse(b)
  {
    if a == "" {
      assert a + b == b;
    } else {
      assert (a + b)[0] == a[0] && (a + b)[1..] == a[1..] + b;
      assert |a| == 1 ==> a[1..] + b == b;
      CollapseAppend(a[1..], b);
    }
  }

  lemma {:induction false} CollapseSpaces(s: string)
    requires Blank(s)
    ensures Blank(Collapse(s))
  {
    if s != "" {
      CollapseSpaces(s[1..]);
    }
  }

  lemma {:induction false} CollapseEnds(s: string)
    requires s != "" && !IsSpace(s[|s| - 1])
    ensures var r := Collapse(s); r != "" && r[|r| - 1] == s[|s| - 1] && (!IsBlank(s[0]) ==> r[0] == s[0])
  {
    if |s| > 1 {
      CollapseEnds(s[1..]);
    } else {
      assert Collapse(s[1..]) == "";
    }
  }

  /** Words without blanks stay as they are. */
  lemma {:induction false} CollapseWord(word: string, rest: string)
    requires forall i :: 0 <= i < |word| ==> !IsBlank(word[i])
    ensures Collapse(word + rest) == word + Collapse(rest)
  {
    if word == "" {
      assert word + rest == rest;
    } else {
      assert (word + rest)[1..] == word[1..] + rest;
      CollapseWord(word[1..], rest);
    }
  }

  /** Indentation does not matter, and the text of a line keeps its first and last character. */
  lemma LiteralOf(indent: string, text: string)
    requires Blank(indent) && text != "" && !IsSpace(text[0]) && !IsSpace(text[|text| - 1])
    ensures LiteralLine(indent + text) == Collapse(text)
    ensures Collapse(text) != "" && Collapse(text)[0] == text[0]
  {
    CollapseAppend(indent, text);
    CollapseSpaces(indent);
    CollapseEnds(text);
    LStripOf(Collapse(indent), Collapse(text));
    StripTight(Collapse(text));
  }

  // ----- masking

  lemma MaskPrefix(s: string, prefix: string)
    requires prefix <= s && 'E' !in prefix
    ensures prefix <= Mask(s)
  {
    hide LastWord, RStrip, IsWord, IsSpace;
    var k := LastWord(s);
    var head := RStrip(s[..k]);
    if Mask(s) != s {
      assert head[|head| - 3] == 'E' && head[|head| - 3] == s[|head| - 3];
      assert forall i :: 0 <= i < |prefix| ==> s[i] == prefix[i] && s[i] != 'E';
      assert |head| - 3 >= |prefix|;
    }
  }

  lemma {:induction false} OneWord(s: string)
    requires forall i :: 0 <= i < |s| ==> !IsSpace(s[i])
    ensures LastWord(s) == 0 && Mask(s) == s
  {
    if s != "" {
      OneWord(s[..|s| - 1]);
    }
  }

  /** A line that is one word, wherever it is indented, is normalized to that word. */
  lemma NormalizeWord(indent: string, word: string)
    requires Blank(indent) && word != "" && forall i :: 0 <= i < |word| ==> !IsSpace(word[i])
    ensures NormalizeLine(indent + word) == word && RStrip(indent + word) == indent + word
  {
    LiteralOf(indent, word);
    CollapseWord(word, "");
    assert word + "" == word;
    OneWord(word);
  }

  /** A keyword and the blank after it survive normalization. */
  lemma NormalizeKeyword(indent: string, text: string, keyword: string)
    requires Blank(indent) && text != "" && !IsSpace(text[0]) && !IsSpace(text[|text| - 1])
    requires keyword + " " <= text && 'E' !in keyword && forall i :: 0 <= i < |keyword| ==> !IsBlank(keyword[i])
    ensures keyword + " " <= NormalizeLine(indent + text)
  {
    LiteralOf(indent, text);
    var rest := text[|keyword|..];
    assert text == keyword + rest && rest[0] == ' ';
    CollapseWord(keyword, rest);
    CollapseBlankHead(rest);
    assert Collapse(text)[..|keyword| + 1] == keyword + " ";
    MaskPrefix(Collapse(text), keyword + " ");
  }

  lemma {:induction false} CollapseBlankHead(s: string)
    requires s != "" && IsBlank(s[0])
    ensures Collapse(s) != "" && Collapse(s)[0] == ' '
  {
    if |s| > 1 && IsBlank(s[1]) {
      CollapseBlankHead(s[1..]);
    }
  }

  /** The first character of the text decides whether the line is a comment. */
  lemma NormalizeFirst(indent: string, text: string)
    requires Blank(indent) && text != "" && !IsSpace(text[0]) && !IsSpace(text[|text| - 1])
    ensures NormalizeLine(indent + text) != ""
    ensures NormalizeLine(indent + text)[0] == text[0]
  {
    LiteralOf(indent, text);
    MaskFirst(Collapse(text));
  }

  lemma MaskFirst(s: string)
    requires s != ""
    ensures Mask(s) != "" && Mask(s)[0] == s[0]
  {
    hide LastWord, RStrip, IsWord, IsSpace;
    var k := LastWord(s);
    var head := RStrip(s[..k]);
    if Mask(s) != s {
      if |head| == 3 {
        assert head[0] == 'E' && ENCRYPTED[0] == 'E';
      }
    }
  }

  lemma {:induction false} LastWordAt(before: string, word: string)
    requires (before == "" || IsSpace(before[|before| - 1])) && forall i :: 0 <= i < |word| ==> !IsSpace(word[i])
    ensures LastWord(before + word) == |before|
  {
    hide IsSpace;
    if word == "" {
      assert before + word == before;
    } else {
      LastWordAt(before, word[..|word| - 1]);
      assert (before + word)[..|before + word| - 1] == before + word[..|word| - 1];
    }
  }

  /** Only that a field is encrypted counts, not how: the secret after `ENC` is masked. */
  lemma MaskSecret(head: string, secret: string)
    requires secret != "" && (forall i :: 0 <= i < |secret| ==> !IsSpace(secret[i]))
    requires head == "" || !IsWord(head[|head| - 1])
    ensures Mask(head + "ENC " + secret) == head + ENCRYPTED
  {
    hide LastWord, RStrip, IsSpace;
    var marked := head + "ENC";
    var before := marked + " ";
    var line := before + secret;
    assert head + "ENC " + secret == line;
    assert !IsSpace('C') && IsSpace(' ') by { SpaceOrNot(); }
    LastWordAt(before, secret);
    assert line[..|before|] == before;
    RStripBlank(marked);
    assert marked[|marked| - 3..] == "ENC" && marked[..|marked| - 3] == head;
  }

  lemma SpaceOrNot()
    ensures !IsSpace('C') && IsSpace(' ')
  {
  }
}
