/**
 The terminal's retained buffer, updated in place (`Terminal` in fortinet/common/terminal.py).
 Each method is proved equal to the function of the same name in TerminalSpec.
 */
module Terminal {
  import opened Text
  import opened CliCommands
  import opened TerminalSpec

  class TerminalBuffer {
    const limit: nat
    var buffer: seq<byte>
    ghost var received: seq<byte>
    ghost var consumed: seq<seq<byte>>
    ghost var lost: seq<seq<byte>>

    ghost function Model(): Stream
      reads this
    {
      Stream(buffer, limit, received, consumed, lost)
    }

    ghost predicate Valid()
      reads this
    {
      Conserves(Model())
    }

    constructor (limit: nat)
      ensures Valid() && Model() == Opened(limit)
    {
      this.limit := limit;
      buffer, received, consumed, lost := [], [], [[]], [];
    }

    /** `_match`: one search for each pattern, keeping the earliest end. */
    method Match(patterns: seq<Pattern>) returns (winner: Option<Hit>)
      ensures Wins(patterns, buffer, winner)
    {
      winner := None;
      for i := 0 to |patterns|
        invariant Wins(patterns[..i], buffer, winner)
      {
        var found := patterns[i](buffer);
        if found.Some? && (winner.None? || found.value < winner.value.end) {
          winner := Some(Hit(i, found.value));
        }
      }
      assert patterns[..|patterns|] == patterns;
    }

    method Expect(patterns: seq<Pattern>, arrivals: seq<Arrival>) returns (outcome: Outcome)
      requires Valid() && Honest(patterns)
      modifies this
      ensures Valid()
      ensures (Model(), outcome) == TerminalSpec.Expect(old(Model()), patterns, arrivals, false)
    {
      hide Winner;
      ExpectConserves(Model(), patterns, arrivals, false);
      var news := false;
      var next := 0;
      var result := Match(patterns);
      WinnerUnique(patterns, buffer, result, Winner(patterns, buffer));
      while result.None?
        invariant next <= |arrivals| && result == Winner(patterns, buffer)
        invariant TerminalSpec.Expect(old(Model()), patterns, arrivals, false)
               == TerminalSpec.Expect(Model(), patterns, arrivals[next..], news)
        decreases |arrivals| - next
      {
        if next == |arrivals| {
          return TimedOut(buffer, news);
        }
        var arrival := arrivals[next];
        assert arrivals[next..][0] == arrival && arrivals[next..][1..] == arrivals[next + 1..];
        next := next + 1;
        match arrival
        case Broken =>
          return ReaderFailed;
        case Quiet =>
        case Chunk(data) =>
          if data != [] {
            buffer := buffer + data;
            received := received + data;
            if |buffer| > limit {
              return Overflow;
            }
            news := true;
            result := Match(patterns);
            WinnerUnique(patterns, buffer, result, Winner(patterns, buffer));
          }
      }
      var hit := result.value;
      var data := buffer[..hit.end];
      var stable := patterns[hit.index](data);
      buffer := buffer[hit.end..];
      consumed := ExtendLast(consumed, data);
      outcome := Matched(hit.index, data, stable.Some?);
    }

    /** `close`, as far as the buffer goes: what it held is lost, and the stream goes on without it. */
    method Close()
      requires Valid()
      modifies this`buffer, this`consumed, this`lost
      ensures Valid() && Model() == Closed(old(Model()))
      ensures received == old(Weave(consumed, lost) + buffer) == Weave(consumed, lost)
      ensures Concat(lost) == old(Concat(lost)) + old(buffer)
    {
      ClosedConserves(Model());
      ConcatAppend(lost, [buffer]);
      assert Concat([buffer]) == buffer;
      consumed, lost := consumed + [[]], lost + [buffer];
      buffer := [];
    }

    method DiscardPrefix(data: seq<byte>)
      requires Valid()
      modifies this
      ensures Valid() && Model() == TerminalSpec.DiscardPrefix(old(Model()), data)
    {
      DiscardConserves(Model(), data);
      if data == [] || !(data <= buffer) {
        ExtendNothing(consumed);
        return;
      }
      consumed := ExtendLast(consumed, data);
      buffer := buffer[|data|..];
    }
  }
}
