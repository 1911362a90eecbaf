/**
 Buffered reads from the serial console (`Terminal` in fortinet/common/terminal.py).

 A regular expression is an oracle: given the buffer it says where its first match ends,
 if it matches. What the read queue hands over during one `expect` is the list of
 `Arrival`s; the list running out is the deadline.
 */
module TerminalSpec {
  import opened Text
  import opened CliCommands
  import Q = ByteQueue

  type Pattern = seq<byte> -> Option<nat>

  /** A match ends within the text that was searched. */
  ghost predicate Honest(patterns: seq<Pattern>) {
    forall i, text :: 0 <= i < |patterns| && patterns[i](text).Some? ==> patterns[i](text).value <= |text|
  }

  // ----- which pattern wins

  datatype Hit = Hit(index: nat, end: nat)

  /** The match that ends earliest, and of those the one of the pattern listed first. */
  ghost predicate Wins(patterns: seq<Pattern>, text: seq<byte>, winner: Option<Hit>) {
    match winner
    case None => forall i :: 0 <= i < |patterns| ==> patterns[i](text).None?
    case Some(hit) =>
      && hit.index < |patterns| && patterns[hit.index](text) == Some(hit.end)
      && forall i :: 0 <= i < |patterns| && patterns[i](text).Some? ==>
          if i < hit.index then hit.end < patterns[i](text).value else hit.end <= patterns[i](text).value
  }

  lemma WinnerUnique(patterns: seq<Pattern>, text: seq<byte>, a: Option<Hit>, b: Option<Hit>)
    requires Wins(patterns, text, a) && Wins(patterns, text, b)
    ensures a == b
  {
    if a.Some? && b.Some? {
      assert patterns[a.value.index](text).Some? && patterns[b.value.index](text).Some?;
    }
  }

  /** The winner among the patterns, found from the last one backwards. */
  function Winner(patterns: seq<Pattern>, text: seq<byte>): (winner: Option<Hit>)
    ensures Wins(patterns, text, winner)
  {
    if patterns == [] then None
    else
      var last := |patterns| - 1;
      var earlier := Winner(patterns[..last], text);
      match patterns[last](text)
      case None => earlier
      case Some(end) => if earlier.Some? && earlier.value.end <= end then earlier else Some(Hit(last, end))
  }

  // ----- the buffer

  /**
   The rest is the whole history. `received` is what came in. Each `close` ends one connection, so what
   left the buffer comes in one part for each connection, and `lost` holds what each `close` threw away.
   */
  datatype Stream = Stream(
    buffer: seq<byte>,
    limit: nat,
    received: seq<byte>,
    consumed: seq<seq<byte>>,
    lost: seq<seq<byte>>)

  function Opened(limit: nat): Stream {
    Stream([], limit, [], [[]], [])
  }

  /** What was consumed, with what was lost in between. */
  function Weave(consumed: seq<seq<byte>>, lost: seq<seq<byte>>): seq<byte>
    requires |consumed| == |lost| + 1
    decreases |lost|
  {
    if lost == [] then consumed[0]
    else Weave(consumed[..|lost|], lost[..|lost| - 1]) + lost[|lost| - 1] + consumed[|lost|]
  }

  /** Every byte received was consumed, was lost at a `close`, or is retained: once each, and in order. */
  predicate Conserves(t: Stream) {
    |t.consumed| == |t.lost| + 1 && t.received == Weave(t.consumed, t.lost) + t.buffer
  }

  lemma WeaveExtend(consumed: seq<seq<byte>>, lost: seq<seq<byte>>, data: seq<byte>)
    requires |consumed| == |lost| + 1
    ensures Weave(ExtendLast(consumed, data), lost) == Weave(consumed, lost) + data
  {
    var n := |lost|;
    assert ExtendLast(consumed, data)[..n] == consumed[..n] && ExtendLast(consumed, data)[n] == consumed[n] + data;
  }

  lemma {:induction false} WeaveLength(consumed: seq<seq<byte>>, lost: seq<seq<byte>>)
    requires |consumed| == |lost| + 1
    ensures |Weave(consumed, lost)| == |Concat(consumed)| + |Concat(lost)|
    ensures Concat(lost) == [] ==> Weave(consumed, lost) == Concat(consumed)
    decreases |lost|
  {
    var n := |lost|;
    assert consumed == consumed[..n] + [consumed[n]];
    ConcatAppend(consumed[..n], [consumed[n]]);
    assert Concat([consumed[n]]) == consumed[n];
    if n == 0 {
      assert consumed[..0] == [];
    } else {
      WeaveLength(consumed[..n], lost[..n - 1]);
      assert lost == lost[..n - 1] + [lost[n - 1]];
      ConcatAppend(lost[..n - 1], [lost[n - 1]]);
      assert Concat([lost[n - 1]]) == lost[n - 1];
    }
  }

  /**
   Nothing is ever missing but what a `close` threw away: the bytes received are the bytes consumed and
   the bytes retained exactly when nothing was retained at any `close`.
   */
  lemma NothingMissing(t: Stream)
    requires Conserves(t)
    ensures t.received == Concat(t.consumed) + t.buffer <==> Concat(t.lost) == []
  {
    WeaveLength(t.consumed, t.lost);
  }

  datatype Arrival = Chunk(data: seq<byte>) | Quiet | Broken

  /** `stable` tells whether the pattern still matches when it sees only the bytes consumed. */
  datatype Outcome =
    | Matched(index: nat, data: seq<byte>, stable: bool)
    | TimedOut(data: seq<byte>, news: bool)
    | Overflow
    | ReaderFailed

  function Receive(t: Stream, data: seq<byte>): Stream {
    t.(buffer := t.buffer + data, received := t.received + data)
  }

  function Consume(t: Stream, count: nat): Stream
    requires count <= |t.buffer|
  {
    t.(buffer := t.buffer[count..], consumed := ExtendLast(t.consumed, t.buffer[..count]))
  }

  function Expect(t: Stream, patterns: seq<Pattern>, arrivals: seq<Arrival>, news: bool): (Stream, Outcome)
    requires Honest(patterns)
    decreases |arrivals|
  {
    match Winner(patterns, t.buffer)
    case Some(hit) =>
      var data := t.buffer[..hit.end];
      (Consume(t, hit.end), Matched(hit.index, data, patterns[hit.index](data).Some?))
    case None =>
      if arrivals == [] then (t, TimedOut(t.buffer, news))
      else
        match arrivals[0]
        case Broken => (t, ReaderFailed)
        case Quiet => Expect(t, patterns, arrivals[1..], news)
        case Chunk(data) =>
          var t1 := Receive(t, data);
          if data == [] then Expect(t, patterns, arrivals[1..], news)
          else if |t1.buffer| > t1.limit then (t1, Overflow)
          else Expect(t1, patterns, arrivals[1..], true)
  }

  /** A caller gives back bytes it has used; anything but a prefix of the buffer is refused. */
  function DiscardPrefix(t: Stream, data: seq<byte>): Stream {
    if data <= t.buffer then Consume(t, |data|) else t
  }

  /** Closing throws the retained bytes away; the next connection starts with nothing. */
  function Closed(t: Stream): Stream {
    t.(buffer := [], consumed := t.consumed + [[]], lost := t.lost + [t.buffer])
  }

  lemma ClosedConserves(t: Stream)
    requires Conserves(t)
    ensures Conserves(Closed(t)) && Closed(t).received == t.received
  {
    var r, n := Closed(t), |t.lost|;
    assert r.consumed[..n + 1] == t.consumed && r.lost[..n] == t.lost;
  }

  /** The bytes among the arrivals. */
  function Incoming(arrivals: seq<Arrival>): seq<byte> {
    if arrivals == [] then []
    else (if arrivals[0].Chunk? then arrivals[0].data else []) + Incoming(arrivals[1..])
  }

  lemma {:induction false} IncomingAppend(a: seq<Arrival>, b: seq<Arrival>)
    ensures Incoming(a + b) == Incoming(a) + Incoming(b)
  {
    if a == [] {
      assert a + b == b;
    } else {
      IncomingAppend(a[1..], b);
      assert (a + b)[1..] == a[1..] + b;
    }
  }

  // ----- what one `expect` does

  /** How many arrivals `expect` takes in before it stops. */
  function Used(t: Stream, patterns: seq<Pattern>, arrivals: seq<Arrival>): (used: nat)
    ensures used <= |arrivals|
    decreases |arrivals|
  {
    if Winner(patterns, t.buffer).Some? || arrivals == [] || arrivals[0].Broken? then 0
    else
      var t1 := Receive(t, Incoming(arrivals[..1]));
      if t1 != t && |t1.buffer| > t1.limit then 1 else 1 + Used(t1, patterns, arrivals[1..])
  }

  /** What the buffer holds once the first `k` arrivals are in. */
  function Seen(t: Stream, arrivals: seq<Arrival>, k: nat): seq<byte>
    requires k <= |arrivals|
  {
    t.buffer + Incoming(arrivals[..k])
  }

  lemma SeenNext(t: Stream, arrivals: seq<Arrival>, k: nat)
    requires 0 < k <= |arrivals|
    ensures Seen(t, arrivals, k) == Seen(Receive(t, Incoming(arrivals[..1])), arrivals[1..], k - 1)
  {
    IncomingAppend(arrivals[..1], arrivals[1..][..k - 1]);
    assert arrivals[..1] + arrivals[1..][..k - 1] == arrivals[..k];
  }

  /** `expect` does not stop too late: before each arrival it took in, no pattern matched. */
  lemma {:induction false} NoMatchBefore(t: Stream, patterns: seq<Pattern>, arrivals: seq<Arrival>, k: nat)
    requires k < Used(t, patterns, arrivals)
    ensures Winner(patterns, Seen(t, arrivals, k)).None? && !arrivals[k].Broken?
    ensures |Seen(t, arrivals, k)| <= t.limit || Seen(t, arrivals, k) == t.buffer
    decreases k
  {
    hide Winner;
    if k == 0 {
      assert Seen(t, arrivals, 0) == t.buffer;
    } else {
      var t1 := Receive(t, Incoming(arrivals[..1]));
      SeenNext(t, arrivals, k);
      NoMatchBefore(t1, patterns, arrivals[1..], k - 1);
      assert Incoming(arrivals[..1]) == [] || t1 != t;
    }
  }

  /** The outcome fits what the buffer held in the end, and the bytes are accounted for. */
  ghost predicate Fits(t: Stream, patterns: seq<Pattern>, arrivals: seq<Arrival>, news: bool, used: nat,
      text: seq<byte>,
                       r: Stream, outcome: Outcome)
  {
    && t.buffer <= text && r.received == t.received + text[|t.buffer|..] && r.limit == t.limit && r.lost == t.lost
    && match outcome {
         case Matched(index, data, stable) =>
           && Wins(patterns, text, Some(Hit(index, |data|)))
           && stable == patterns[index](data).Some?
           && text == data + r.buffer && r.consumed == ExtendLast(t.consumed, data)
         case TimedOut(data, more) =>
           && used == |arrivals| && Wins(patterns, text, None)
           && data == r.buffer == text && r.consumed == t.consumed
           && (more <==> news || text != t.buffer)
         case Overflow => |text| > t.limit && r.buffer == text && r.consumed == t.consumed
         case ReaderFailed =>
           used < |arrivals| && arrivals[used].Broken? && r.buffer == text && r.consumed == t.consumed
       }
  }

  /**
   `expect` consumes through the end of the match that ends earliest in what it has received when it
   stops, and otherwise consumes nothing.
   */
  lemma {:induction false} ExpectFits(t: Stream, patterns: seq<Pattern>, arrivals: seq<Arrival>, news: bool)
    requires Honest(patterns)
    ensures var used := Used(t, patterns, arrivals);
            var (r, outcome) := Expect(t, patterns, arrivals, news);
            Fits(t, patterns, arrivals, news, used, Seen(t, arrivals, used), r, outcome)
    decreases |arrivals|
  {
    hide Winner;
    var used := Used(t, patterns, arrivals);
    if used == 0 {
      assert Seen(t, arrivals, 0) == t.buffer;
    } else {
      var data := if arrivals[0].Chunk? then arrivals[0].data else [];
      assert Incoming(arrivals[..1]) == data;
      var t1 := Receive(t, data);
      SeenNext(t, arrivals, used);
      if data != [] && |t1.buffer| > t.limit {
        assert Seen(t1, arrivals[1..], 0) == t1.buffer;
      } else {
        assert data == [] ==> t1 == t;
        ExpectFits(t1, patterns, arrivals[1..], news || data != []);
        FitsLater(t, patterns, arrivals, news, data, used - 1, Seen(t, arrivals, used));
      }
    }
  }

  lemma FitsLater(t: Stream, patterns: seq<Pattern>, arrivals: seq<Arrival>, news: bool, data: seq<byte>, used: nat,
                  text: seq<byte>)
    requires Honest(patterns) && arrivals != [] && t.buffer + data <= text
    requires var (r, outcome) := Expect(Receive(t, data), patterns, arrivals[1..], news || data != []);
             Fits(Receive(t, data), patterns, arrivals[1..], news || data != [], used, text, r, outcome)
    ensures var (r, outcome) := Expect(Receive(t, data), patterns, arrivals[1..], news || data != []);
            Fits(t, patterns, arrivals, news, used + 1, text, r, outcome)
  {
    hide Winner, Wins, Expect;
    assert t.received + data + text[|t.buffer + data|..] == t.received + text[|t.buffer|..];
  }

  lemma ExpectConserves(t: Stream, patterns: seq<Pattern>, arrivals: seq<Arrival>, news: bool)
    requires Honest(patterns) && Conserves(t)
    ensures Conserves(Expect(t, patterns, arrivals, news).0)
  {
    hide Expect, Wins, Weave, ExtendLast;
    ExpectFits(t, patterns, arrivals, news);
    var text := Seen(t, arrivals, Used(t, patterns, arrivals));
    var (r, outcome) := Expect(t, patterns, arrivals, news);
    assert t.received + text[|t.buffer|..] == Weave(t.consumed, t.lost) + text;
    if outcome.Matched? {
      WeaveExtend(t.consumed, t.lost, outcome.data);
    }
  }

  lemma DiscardConserves(t: Stream, data: seq<byte>)
    requires Conserves(t)
    ensures var r := DiscardPrefix(t, data);
            && Conserves(r) && r.received == t.received && r.lost == t.lost
            && r.consumed == if data <= t.buffer then ExtendLast(t.consumed, data) else t.consumed
  {
    hide Weave;
    if data <= t.buffer {
      assert t.buffer[..|data|] == data && t.buffer == data + t.buffer[|data|..];
      WeaveExtend(t.consumed, t.lost, data);
    }
  }

  /**
   Unmatched data is retained across calls: a call that times out and a second call find what one
   call over all the arrivals would have found.
   */
  lemma {:induction false} TimeoutIsInvisible(t: Stream, patterns: seq<Pattern>, first: seq<Arrival>,
      second: seq<Arrival>, news: bool)
    requires Honest(patterns) && Expect(t, patterns, first, news).1.TimedOut?
    ensures var (t1, timeout) := Expect(t, patterns, first, news);
            Expect(t, patterns, first + second, news) == Expect(t1, patterns, second, timeout.news)
    decreases |first|
  {
    hide Winner;
    if first == [] {
      assert first + second == second;
    } else {
      assert (first + second)[0] == first[0] && (first + second)[1..] == first[1..] + second;
      var data := if first[0].Chunk? then first[0].data else [];
      if data == [] {
        TimeoutIsInvisible(t, patterns, first[1..], second, news);
      } else {
        TimeoutIsInvisible(Receive(t, data), patterns, first[1..], second, true);
      }
    }
  }

  // ----- where the arrivals come from

  /** The results of `get` as `expect` sees them: a timeout and a closed queue bring nothing, a failure raises. */
  function Arrivals(results: seq<Q.Return>): (arrivals: seq<Arrival>)
    ensures |arrivals| == |results|
  {
    seq(|results|, i requires 0 <= i < |results| =>
      match results[i]
      case Bytes(data) => Chunk(data)
      case Failure => Broken
      case _ => Quiet)
  }

  lemma {:induction false} ArrivalsDelivered(results: seq<Q.Return>)
    ensures Incoming(Arrivals(results)) == Q.Delivered(results)
    decreases |results|
  {
    if results != [] {
      var n := |results| - 1;
      ArrivalsDelivered(results[..n]);
      assert Arrivals(results) == Arrivals(results[..n]) + Arrivals(results)[n..];
      IncomingAppend(Arrivals(results[..n]), Arrivals(results)[n..]);
      assert Arrivals(results)[n..][1..] == [];
    }
  }

  lemma {:induction false} IncomingPrefix(arrivals: seq<Arrival>, k: nat)
    requires k <= |arrivals|
    ensures Incoming(arrivals[..k]) <= Incoming(arrivals)
  {
    assert arrivals == arrivals[..k] + arrivals[k..];
    IncomingAppend(arrivals[..k], arrivals[k..]);
  }

  /**
   From the reader thread to the terminal: however the threads step, the bytes `expect` receives are a
   prefix of those the reader offered to the queue; once it has used every result, the rest of them is
   still queued or on its way, as long as the queue is open.
   */
  lemma ReadsTheQueue(t: Stream, patterns: seq<Pattern>, news: bool, limit: nat, moves: seq<Q.Move>)
    requires Honest(patterns) && limit >= 1
    ensures var w := Q.Steps(Q.Start(limit), moves);
            var arrivals := Arrivals(w.results);
            var r := Expect(t, patterns, arrivals, news).0;
            && t.received <= r.received && r.received[|t.received|..] <= w.offered
            && (Used(t, patterns, arrivals) == |arrivals| && Q.Open(w.queue) ==>
                  t.received + w.offered == r.received + Concat(w.queue.chunks) + w.rest)
  {
    hide Expect, Winner, Wins, Q.Steps, Concat, Q.Delivered, Used;
    var w := Q.Steps(Q.Start(limit), moves);
    var arrivals := Arrivals(w.results);
    var used := Used(t, patterns, arrivals);
    ExpectFits(t, patterns, arrivals, news);
    assert Seen(t, arrivals, used)[|t.buffer|..] == Incoming(arrivals[..used]);
    Q.InOrder(limit, moves);
    ArrivalsDelivered(w.results);
    IncomingPrefix(arrivals, used);
    if used == |arrivals| && Q.Open(w.queue) {
      assert arrivals[..used] == arrivals;
      assert t.received + (Q.Delivered(w.results) + Concat(w.queue.chunks) + w.rest)
          == t.received + Q.Delivered(w.results) + Concat(w.queue.chunks) + w.rest;
    }
  }
}
