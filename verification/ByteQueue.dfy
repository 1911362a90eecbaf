/**
 The bounded byte queue between the terminal's reader and writer threads and the
 launcher (`_ByteQueue` in fortinet/common/terminal.py).

 Everything the code does while it holds the condition's lock is one atomic step. The
 class performs those steps in place. `World` puts a producer inside `put`, a consumer
 inside `get` or `get_one`, and a third party that may close or fail the queue, and lets
 them step in any order; `wait` parks a thread until some other step notifies it.
 */
module ByteQueue {
  import opened Text
  import opened CliCommands

  datatype Queue = Queue(limit: nat, chunks: seq<seq<byte>>, size: int, closed: bool, failed: bool)

  function Empty(limit: nat): Queue {
    Queue(limit, [], 0, false, false)
  }

  predicate Open(q: Queue) {
    !q.closed && !q.failed
  }

  /** `put` has to wait. */
  predicate Full(q: Queue) {
    Open(q) && q.size >= q.limit
  }

  /** `get` has to wait. */
  predicate Dry(q: Queue) {
    Open(q) && q.chunks == []
  }

  /** The bytes `put` can move in one go. */
  function Fitting(q: Queue, data: seq<byte>): seq<byte>
    requires q.size < q.limit
  {
    if |data| <= q.limit - q.size then data else data[..q.limit - q.size]
  }

  function Push(q: Queue, data: seq<byte>): Queue
    requires q.size < q.limit
  {
    var chunk := Fitting(q, data);
    q.(chunks := q.chunks + [chunk], size := q.size + |chunk|)
  }

  datatype Fetch = All | One

  /** What `get` (all chunks joined) or `get_one` (the oldest chunk) takes. */
  function Fetched(q: Queue, fetch: Fetch): seq<byte>
    requires q.chunks != []
  {
    if fetch == All then Concat(q.chunks) else q.chunks[0]
  }

  function Pull(q: Queue, fetch: Fetch): Queue
    requires q.chunks != []
  {
    if fetch == All then q.(chunks := [], size := 0)
    else q.(chunks := q.chunks[1..], size := q.size - |q.chunks[0]|)
  }

  /** The size field counts the queued bytes, within the limit, and every chunk has some. */
  ghost predicate Sound(q: Queue) {
    && q.limit >= 1
    && 0 <= q.size == |Concat(q.chunks)| <= q.limit
    && (forall i :: 0 <= i < |q.chunks| ==> q.chunks[i] != [])
  }

  lemma PushSound(q: Queue, data: seq<byte>)
    requires Sound(q) && q.size < q.limit && data != []
    ensures Sound(Push(q, data)) && Fitting(q, data) != [] && Fitting(q, data) <= data
    ensures Concat(Push(q, data).chunks) == Concat(q.chunks) + Fitting(q, data)
  {
    ConcatAppend(q.chunks, [Fitting(q, data)]);
    assert Concat([Fitting(q, data)]) == Fitting(q, data);
  }

  lemma PullSound(q: Queue, fetch: Fetch)
    requires Sound(q) && q.chunks != []
    ensures Sound(Pull(q, fetch)) && Fetched(q, fetch) != []
    ensures Concat(q.chunks) == Fetched(q, fetch) + Concat(Pull(q, fetch).chunks)
  {
  }

  // ----- the queue in place

  /** What a step of `put` did: `Stopped` when the queue is closed or failed. */
  datatype PutOutcome = Moved(count: nat) | PutWaits | Stopped

  /** What a step of `get` did; `Drained` when the queue is closed and holds nothing. */
  datatype GetOutcome = Took(data: seq<byte>) | GetWaits | Raised | Drained

  class ByteBuffer {
    const limit: nat
    var chunks: seq<seq<byte>>
    var size: int
    var closed: bool
    var failed: bool

    ghost function Model(): Queue
      reads this
    {
      Queue(limit, chunks, size, closed, failed)
    }

    ghost predicate Valid()
      reads this
    {
      Sound(Model())
    }

    constructor (limit: nat)
      requires limit >= 1
      ensures Valid() && Model() == Empty(limit)
    {
      this.limit := limit;
      chunks, size, closed, failed := [], 0, false, false;
    }

    /** One pass of `put` through its critical section, with `data` still to go. */
    method PutSome(data: seq<byte>) returns (outcome: PutOutcome)
      requires Valid() && data != []
      modifies this`chunks, this`size
      ensures Valid()
      ensures outcome.PutWaits? <==> Full(old(Model()))
      ensures outcome.Stopped? <==> !Open(old(Model()))
      ensures outcome.Moved? ==> 0 < outcome.count <= |data|
      ensures Concat(chunks) == old(Concat(chunks)) + if outcome.Moved? then data[..outcome.count] else []
      ensures Model() == if outcome.Moved? then Push(old(Model()), data) else old(Model())
      ensures outcome.Moved? ==> size == limit || outcome.count == |data|
    {
      if closed || failed {
        return Stopped;
      }
      if size >= limit {
        return PutWaits;
      }
      PushSound(Model(), data);
      var available := limit - size;
      var chunk := if |data| <= available then data else data[..available];
      chunks := chunks + [chunk];
      size := size + |chunk|;
      outcome := Moved(|chunk|);
    }

    /** One pass of `get` or `get_one` through its critical section. */
    method Get(fetch: Fetch) returns (outcome: GetOutcome)
      requires Valid()
      modifies this`chunks, this`size
      ensures Valid()
      ensures outcome.Raised? <==> old(failed)
      ensures outcome.GetWaits? <==> Dry(old(Model()))
      ensures outcome.Drained? <==> old(closed && !failed && chunks == [])
      ensures outcome.Took? ==> outcome.data != [] && old(Concat(chunks)) == outcome.data + Concat(chunks)
      ensures outcome.Took? && fetch == All ==> chunks == []
      ensures outcome.Took? && fetch == One ==> chunks == old(chunks[1..])
      ensures !outcome.Took? ==> Model() == old(Model())
    {
      if failed {
        return Raised;
      }
      if chunks == [] {
        return if closed then Drained else GetWaits;
      }
      PullSound(Model(), fetch);
      if fetch == All {
        var data: seq<byte> := [];
        for i := 0 to |chunks|
          invariant Concat(chunks) == data + Concat(chunks[i..])
        {
          data := data + chunks[i];
          assert chunks[i..][0] == chunks[i] && chunks[i..][1..] == chunks[i + 1..];
        }
        outcome := Took(data);
        chunks, size := [], 0;
      } else {
        outcome := Took(chunks[0]);
        size := size - |chunks[0]|;
        chunks := chunks[1..];
      }
    }

    method Close()
      requires Valid()
      modifies this`closed
      ensures Valid() && Model() == old(Model()).(closed := true)
    {
      closed := true;
    }

    method Fail()
      requires Valid()
      modifies this`failed
      ensures Valid() && Model() == old(Model()).(failed := true)
    {
      failed := true;
    }
  }

  // ----- the threads around it

  /** What a call of `get` or `get_one` came back with. */
  datatype Return = Bytes(data: seq<byte>) | TimedOut | EndOfQueue | Failure

  /** A call of `get` or `get_one` in progress; `expired` once the deadline of a timed call has passed. */
  datatype Call = Call(fetch: Fetch, timed: bool, expired: bool, waiting: bool)

  /**
   `rest` is what the current `put` has still to move, none when no `put` is in progress.
   `offered`, `accepted` and `results` tell what happened so far: the bytes `put` was given,
   those it moved into the queue, and what the consumer's calls returned.
   */
  datatype World = World(
    queue: Queue,
    rest: seq<byte>,
    putWaiting: bool,
    call: Option<Call>,
    offered: seq<byte>,
    accepted: seq<byte>,
    results: seq<Return>)

  function Start(limit: nat): World {
    World(Empty(limit), [], false, None, [], [], [])
  }

  /** `notify_all`: nobody waits any more. */
  function Notified(w: World): World {
    w.(putWaiting := false, call := if w.call.Some? then Some(w.call.value.(waiting := false)) else None)
  }

  datatype Move =
    | BeginPut(data: seq<byte>)
    | RunProducer
    | BeginGet(fetch: Fetch, timed: bool)
    | Expire
    | RunConsumer
    | CloseQueue
    | FailQueue

  function ProducerStep(w: World): World {
    if w.rest == [] || w.putWaiting then w
    else if Full(w.queue) then w.(putWaiting := true)
    else if !Open(w.queue) then w.(rest := [])
    else
      var chunk := Fitting(w.queue, w.rest);
      Notified(w.(queue := Push(w.queue, w.rest), rest := w.rest[|chunk|..], accepted := w.accepted + chunk))
  }

  function Finish(w: World, r: Return): World {
    w.(call := None, results := w.results + [r])
  }

  function ConsumerStep(w: World): World {
    if w.call.None? || w.call.value.waiting then w
    else if Dry(w.queue) then
      if w.call.value.expired then Finish(w, TimedOut) else w.(call := Some(w.call.value.(waiting := true)))
    else if w.queue.failed then Finish(w, Failure)
    else if w.queue.chunks == [] then Finish(w, EndOfQueue)
    else
      var fetch := w.call.value.fetch;
      Finish(Notified(w.(queue := Pull(w.queue, fetch))), Bytes(Fetched(w.queue, fetch)))
  }

  function Step(w: World, m: Move): World {
    match m
    case BeginPut(data) => if w.rest == [] then w.(rest := data, offered := w.offered + data) else w
    case RunProducer => ProducerStep(w)
    case BeginGet(fetch, timed) => if w.call.None? then w.(call := Some(Call(fetch, timed, false, false))) else w
    case Expire =>
      if w.call.Some? && w.call.value.timed then w.(call := Some(w.call.value.(expired := true, waiting := false)))
      else w
    case RunConsumer => ConsumerStep(w)
    case CloseQueue => Notified(w.(queue := w.queue.(closed := true)))
    case FailQueue => Notified(w.(queue := w.queue.(failed := true)))
  }

  function Steps(w: World, moves: seq<Move>): World
    decreases |moves|
  {
    if moves == [] then w else Step(Steps(w, moves[..|moves| - 1]), moves[|moves| - 1])
  }

  lemma {:induction false} StepsMore(w: World, first: seq<Move>, second: seq<Move>)
    ensures Steps(w, first + second) == Steps(Steps(w, first), second)
    decreases |second|
  {
    if second == [] {
      assert first + second == first;
    } else {
      StepsMore(w, first, second[..|second| - 1]);
      assert (first + second)[..|first + second| - 1] == first + second[..|second| - 1];
    }
  }

  function Delivered(results: seq<Return>): seq<byte> {
    if results == [] then []
    else Delivered(results[..|results| - 1]) + if results[|results| - 1].Bytes? then results[|results| - 1].data else []
  }

  lemma DeliveredMore(results: seq<Return>, r: Return)
    ensures Delivered(results + [r]) == Delivered(results) + if r.Bytes? then r.data else []
  {
    assert (results + [r])[..|results|] == results;
  }

  /** Holds whatever the threads did, in whatever order. */
  ghost predicate Inv(w: World) {
    && Sound(w.queue)
    && w.accepted == Delivered(w.results) + Concat(w.queue.chunks)
    && w.accepted <= w.offered
    && (Open(w.queue) ==> w.offered == w.accepted + w.rest)
    && (w.putWaiting ==> Full(w.queue) && w.rest != [])
    && (w.call.Some? && w.call.value.waiting ==> Dry(w.queue))
    && (EndOfQueue in w.results ==> w.queue.closed && w.queue.chunks == [])
    && (Failure in w.results ==> w.queue.failed)
  }

  lemma ProducerKept(w: World)
    requires Inv(w)
    ensures Inv(ProducerStep(w))
  {
    if w.rest != [] && !w.putWaiting && !Full(w.queue) && Open(w.queue) {
      PushSound(w.queue, w.rest);
      var chunk := Fitting(w.queue, w.rest);
      assert w.rest == chunk + w.rest[|chunk|..];
    }
  }

  lemma ConsumerKept(w: World)
    requires Inv(w)
    ensures Inv(ConsumerStep(w))
  {
    hide Concat, Delivered, Fetched;
    var r := ConsumerStep(w);
    if r.results != w.results {
      DeliveredMore(w.results, r.results[|w.results|]);
      if r.results[|w.results|].Bytes? {
        PullSound(w.queue, w.call.value.fetch);
      }
    }
  }

  lemma StepKept(w: World, m: Move)
    requires Inv(w)
    ensures Inv(Step(w, m))
  {
    hide Concat, Delivered;
    match m
    case RunProducer => ProducerKept(w);
    case RunConsumer => ConsumerKept(w);
    case _ =>
  }

  lemma {:induction false} StepsKept(w: World, moves: seq<Move>)
    requires Inv(w)
    ensures Inv(Steps(w, moves))
    decreases |moves|
  {
    if moves != [] {
      StepsKept(w, moves[..|moves| - 1]);
      StepKept(Steps(w, moves[..|moves| - 1]), moves[|moves| - 1]);
    }
  }

  lemma StartKept(limit: nat, moves: seq<Move>)
    requires limit >= 1
    ensures Inv(Steps(Start(limit), moves))
  {
    StepsKept(Start(limit), moves);
  }

  // ----- what every interleaving guarantees

  /**
   First in, first out, nothing lost or repeated: what the consumer got, then what is queued, is a
   prefix of what the producer offered; it is all of it but the `put` in progress while the queue
   is open. The size field never leaves its bounds.
   */
  lemma InOrder(limit: nat, moves: seq<Move>)
    requires limit >= 1
    ensures var w := Steps(Start(limit), moves);
            && Delivered(w.results) + Concat(w.queue.chunks) <= w.offered
            && (Open(w.queue) ==> w.offered == Delivered(w.results) + Concat(w.queue.chunks) + w.rest)
            && 0 <= w.queue.size == |Concat(w.queue.chunks)| <= limit
            && (forall i :: 0 <= i < |w.queue.chunks| ==> w.queue.chunks[i] != [])
  {
    hide Concat, Delivered;
    StartKept(limit, moves);
    LimitKept(Start(limit), moves);
  }

  lemma {:induction false} LimitKept(w: World, moves: seq<Move>)
    ensures Steps(w, moves).queue.limit == w.queue.limit
    decreases |moves|
  {
    hide Step;
    if moves != [] {
      LimitKept(w, moves[..|moves| - 1]);
      StepLimit(Steps(w, moves[..|moves| - 1]), moves[|moves| - 1]);
    }
  }

  lemma StepLimit(w: World, m: Move)
    ensures Step(w, m).queue.limit == w.queue.limit
  {
    hide Concat;
  }

  /**
   No wake-up is lost: a thread that waits still has reason to, and the two never wait for each
   other.
   */
  lemma NoLostWakeup(limit: nat, moves: seq<Move>)
    requires limit >= 1
    ensures var w := Steps(Start(limit), moves);
            && (w.putWaiting ==> w.queue.size >= limit && Open(w.queue))
            && (w.call.Some? && w.call.value.waiting ==> w.queue.chunks == [] && Open(w.queue))
            && !(w.putWaiting && w.call.Some? && w.call.value.waiting)
  {
    StartKept(limit, moves);
    LimitKept(Start(limit), moves);
  }

  /** Nothing is accepted into a queue that is closed or failed, or delivered from a failed one. */
  ghost predicate Shuts(w: World, r: World) {
    && !Open(r.queue) && r.accepted == w.accepted
    && (w.queue.closed ==> r.queue.closed)
    && (w.queue.failed ==> r.queue.failed && Delivered(r.results) == Delivered(w.results))
  }

  lemma ShutStep(w: World, m: Move)
    requires !Open(w.queue)
    ensures Shuts(w, Step(w, m))
  {
    hide Concat, Delivered;
    var r := Step(w, m);
    if r.results != w.results {
      DeliveredMore(w.results, r.results[|w.results|]);
    }
  }

  lemma {:induction false} Shut(w: World, moves: seq<Move>)
    requires !Open(w.queue)
    ensures Shuts(w, Steps(w, moves))
    decreases |moves|
  {
    hide Step;
    if moves != [] {
      Shut(w, moves[..|moves| - 1]);
      ShutStep(Steps(w, moves[..|moves| - 1]), moves[|moves| - 1]);
    }
  }

  /**
   A consumer that is told the queue has ended has had every byte that was ever accepted, and
   nothing will be accepted after that: the writer thread exits only when closed and drained.
   */
  lemma EndMeansDrained(limit: nat, moves: seq<Move>, more: seq<Move>)
    requires limit >= 1 && EndOfQueue in Steps(Start(limit), moves).results
    ensures var w := Steps(Start(limit), moves);
            w.queue.closed && Delivered(w.results) == w.accepted == Steps(Start(limit), moves + more).accepted
  {
    StartKept(limit, moves);
    Shut(Steps(Start(limit), moves), more);
    StepsMore(Start(limit), moves, more);
    assert Concat<byte>([]) == [];
  }

  /** No call has a deadline: the writer thread's are such. */
  ghost predicate Untimed(moves: seq<Move>) {
    forall i :: 0 <= i < |moves| && moves[i].BeginGet? ==> !moves[i].timed
  }

  lemma {:induction false} UntimedCalls(limit: nat, moves: seq<Move>)
    requires Untimed(moves)
    ensures var w := Steps(Start(limit), moves);
            TimedOut !in w.results && (w.call.Some? ==> !w.call.value.timed && !w.call.value.expired)
    decreases |moves|
  {
    hide Concat;
    if moves != [] {
      UntimedCalls(limit, moves[..|moves| - 1]);
    }
  }

  /**
   The writer thread stops at the first call that returns no bytes. Without a failure that call
   found the queue closed and drained, so by then every byte accepted has been delivered.
   */
  lemma WriterStopsDrained(limit: nat, moves: seq<Move>, i: nat)
    requires limit >= 1 && Untimed(moves)
    requires var w := Steps(Start(limit), moves); !w.queue.failed && i < |w.results| && !w.results[i].Bytes?
    ensures var w := Steps(Start(limit), moves); w.queue.closed && Delivered(w.results) == w.accepted
  {
    hide Step, Delivered;
    var w := Steps(Start(limit), moves);
    StartKept(limit, moves);
    UntimedCalls(limit, moves);
    assert w.results[i] in w.results;
    EndMeansDrained(limit, moves, []);
  }

  /** After a failure nothing more is delivered: bytes still queued then are lost. */
  lemma FailureEndsDelivery(limit: nat, moves: seq<Move>, more: seq<Move>)
    requires limit >= 1 && Steps(Start(limit), moves).queue.failed
    ensures Delivered(Steps(Start(limit), moves + more).results) == Delivered(Steps(Start(limit), moves).results)
  {
    StartKept(limit, moves);
    Shut(Steps(Start(limit), moves), more);
    StepsMore(Start(limit), moves, more);
  }

  // ----- progress

  /** One turn for each thread: the consumer calls `get` or `get_one`, the producer goes on. */
  function Round(w: World, fetch: Fetch): World {
    Step(Step(Step(w, BeginGet(fetch, false)), RunConsumer), RunProducer)
  }

  function Rounds(w: World, fetch: Fetch, n: nat): World {
    if n == 0 then w else Round(Rounds(w, fetch, n - 1), fetch)
  }

  /** A `get_one` is under way and leaves something in the queue. */
  predicate Partial(w: World) {
    w.call.Some? && w.call.value.fetch == One && |w.queue.chunks| > 1
  }

  lemma NothingQueued(q: Queue)
    requires Sound(q) && q.chunks == []
    ensures q.size == 0 < q.limit
  {
  }

  /** The consumer makes room: all of it, unless it takes one of several chunks. */
  lemma ConsumerFrees(w: World, fetch: Fetch)
    requires Inv(w) && Open(w.queue)
    ensures var r := Step(Step(w, BeginGet(fetch, false)), RunConsumer);
            && Inv(r) && Open(r.queue) && r.queue.limit == w.queue.limit && r.queue.size < r.queue.limit
            && r.offered == w.offered && r.rest == w.rest && (r.call.Some? ==> r.queue.chunks == [])
            && (fetch == All && !Partial(w) ==> r.queue.chunks == [])
  {
    hide Concat, Delivered, Fetched, Sound;
    var w1 := Step(w, BeginGet(fetch, false));
    StepKept(w, BeginGet(fetch, false));
    StepKept(w1, RunConsumer);
    if w1.queue.chunks == [] {
      NothingQueued(w1.queue);
    } else {
      FetchFrees(w1.queue, w1.call.value.fetch);
    }
  }

  lemma FetchFrees(q: Queue, fetch: Fetch)
    requires Sound(q) && q.chunks != []
    ensures Pull(q, fetch).size < q.limit
  {
  }

  /** What a round moves: a byte at least, and all that the limit allows after the consumer has emptied the queue. */
  lemma RoundMoves(w: World, fetch: Fetch)
    requires Inv(w) && Open(w.queue)
    ensures var r := Round(w, fetch);
            && Inv(r) && Open(r.queue) && r.queue.limit == w.queue.limit && r.offered == w.offered
            && !(fetch == All && Partial(r))
            && |r.rest| <= (if w.rest == [] then 0 else |w.rest| - 1)
            && (fetch == All && !Partial(w) ==>
                  |r.rest| <= if |w.rest| <= w.queue.limit then 0 else |w.rest| - w.queue.limit)
  {
    hide Inv, Step, Concat, Sound;
    ConsumerFrees(w, fetch);
    ProducerMoves(Step(Step(w, BeginGet(fetch, false)), RunConsumer));
  }

  lemma ProducerMoves(w: World)
    requires Inv(w) && Open(w.queue) && w.queue.size < w.queue.limit && (w.call.Some? ==> w.queue.chunks == [])
    ensures var r := Step(w, RunProducer);
            && Inv(r) && Open(r.queue) && r.queue.limit == w.queue.limit && r.offered == w.offered
            && !Partial(r)
            && |r.rest| <= (if w.rest == [] then 0 else |w.rest| - 1)
            && (w.queue.chunks == [] ==>
                  |r.rest| <= if |w.rest| <= w.queue.limit then 0 else |w.rest| - w.queue.limit)
  {
    hide Concat, Delivered, Sound;
    StepKept(w, RunProducer);
    if w.queue.chunks == [] {
      NothingQueued(w.queue);
    }
  }

  /** How much of a `put` is left after that many rounds of `get` at most. */
  function LeftOver(w: World, n: nat): nat {
    var moved := (if n > 0 && Partial(w) then n - 1 else n) * w.queue.limit;
    if |w.rest| <= moved then 0 else |w.rest| - moved
  }

  lemma {:induction false} RoundsMove(w: World, fetch: Fetch, n: nat)
    requires Inv(w) && Open(w.queue)
    ensures var r := Rounds(w, fetch, n);
            && Inv(r) && Open(r.queue) && r.queue.limit == w.queue.limit && r.offered == w.offered
            && (n > 0 ==> !(fetch == All && Partial(r)))
            && |r.rest| <= (if |w.rest| <= n then 0 else |w.rest| - n)
            && (fetch == All ==> |r.rest| <= LeftOver(w, n))
  {
    hide Inv, Round, Partial;
    if n > 0 {
      var before := Rounds(w, fetch, n - 1);
      RoundsMove(w, fetch, n - 1);
      RoundMoves(before, fetch);
      var limit := w.queue.limit;
      assert n * limit == (n - 1) * limit + limit;
      if n > 1 {
        assert (n - 1) * limit == (n - 2) * limit + limit;
      }
    }
  }

  /**
   However the two threads got where they are, a `put` of any length goes through when they take turns
   while the queue is open. With `get_one` every round moves a byte at least; with `get` every round
   moves as much as the limit allows, except for a first one that only ends a `get_one`.
   */
  lemma PutCompletes(limit: nat, moves: seq<Move>, fetch: Fetch, n: nat)
    requires limit >= 1
    requires var w := Steps(Start(limit), moves);
             && Open(w.queue)
             && |w.rest| <= match fetch { case One => n case All => (if n > 0 && Partial(w) then n - 1 else n) * limit }
    ensures var w := Steps(Start(limit), moves);
            var r := Rounds(w, fetch, n); r.rest == [] && r.accepted == r.offered == w.offered
  {
    hide Step, Delivered, Concat, Rounds, Partial;
    StartKept(limit, moves);
    LimitKept(Start(limit), moves);
    RoundsMove(Steps(Start(limit), moves), fetch, n);
  }

  /** The writer thread on its own: it fetches one chunk after another. */
  function WriterTurns(w: World, n: nat): World
    decreases n
  {
    if n == 0 then w else WriterTurns(Step(Step(w, BeginGet(One, false)), RunConsumer), n - 1)
  }

  lemma WriterTurn(w: World)
    requires Inv(w) && w.queue.closed && !w.queue.failed
    ensures var r := Step(Step(w, BeginGet(One, false)), RunConsumer);
            && Inv(r) && r.queue.closed && !r.queue.failed
            && (EndOfQueue in w.results ==> EndOfQueue in r.results)
            && (if w.queue.chunks == [] then EndOfQueue in r.results else |r.queue.chunks| < |w.queue.chunks|)
  {
    hide Concat, Delivered;
    StepKept(w, BeginGet(One, false));
    StepKept(Step(w, BeginGet(One, false)), RunConsumer);
    var r := Step(Step(w, BeginGet(One, false)), RunConsumer);
    assert r.results[|w.results|] in r.results;
  }

  lemma {:induction false} WriterEnds(w: World, n: nat)
    requires Inv(w) && w.queue.closed && !w.queue.failed && (EndOfQueue in w.results || n > |w.queue.chunks|)
    ensures Inv(WriterTurns(w, n)) && EndOfQueue in WriterTurns(w, n).results
    decreases n
  {
    hide Inv, Step;
    if n > 0 {
      WriterTurn(w);
      WriterEnds(Step(Step(w, BeginGet(One, false)), RunConsumer), n - 1);
    }
  }

  /** A queue that was closed and did not fail is emptied to the last byte, and then the writer exits. */
  lemma WriterDrains(limit: nat, moves: seq<Move>, n: nat)
    requires limit >= 1
    requires var w := Steps(Start(limit), moves); w.queue.closed && !w.queue.failed && n > |w.queue.chunks|
    ensures var r := WriterTurns(Steps(Start(limit), moves), n);
            EndOfQueue in r.results && Delivered(r.results) == r.accepted
  {
    hide Step, Delivered;
    StartKept(limit, moves);
    WriterEnds(Steps(Start(limit), moves), n);
  }
}
