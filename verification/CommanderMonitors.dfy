/**
 What a run of the scheduler may look like, told only in terms of its trace.

 Each monitor reads the trace one entry at a time, keeps what it needs to judge the
 next entry, and turns `ok` off for good at the first entry it does not allow. The
 monitors know nothing of the scheduler's fields.
 */
module CommanderMonitors {
  import opened Text
  import opened CliCommands
  import opened CommanderSpec

  // ----- at most one command at a time, and never outside its own login session

  datatype SessionView =
    SessionView(ok: bool, flight: Option<nat>, started: nat, sent: bool, epoch: nat, recovering: bool, error: bool)

  function SessionStep(v: SessionView, e: Entry): SessionView {
    match e
    case Took(a) =>
      v.(ok := v.ok && v.flight.None? && !v.recovering && a.epoch == v.epoch,
         flight := Some(a.number), started := v.epoch, sent := false)
    case Sent(a) =>
      v.(ok := v.ok && v.flight == Some(a.number) && !v.sent && !v.recovering && !v.error && a.epoch == v.epoch,
         sent := true)
    case Ended(a, ending) =>
      v.(ok := v.ok && v.flight == Some(a.number)
               && (ending == Credited ==> v.sent && a.epoch == v.started == v.epoch && !v.recovering && !v.error),
         flight := None)
    case SessionEnded => v.(epoch := v.epoch + 1, recovering := true)
    case SessionRestored => v.(recovering := false)
    case ErrorNoted(_, _) => v.(error := true)
    case ErrorCleared => v.(ok := v.ok && v.error, error := false)
    case Ready => v.(ok := v.ok && v.flight.None?)
    case _ => v
  }

  // ----- features in list order, one at a time; cleanup in between, in its own order

  /** `activated` lists every activation; an error is signed with the one it arose in. */
  datatype QueueView = QueueView(
    ok: bool,
    enqueued: seq<nat>,
    waiting: seq<nat>,
    activated: seq<nat>,
    active: Option<nat>,
    outcomes: seq<(nat, bool)>,
    ready: bool)

  function QueueStep(v: QueueView, tidying: seq<nat>, e: Entry): QueueView {
    match e
    case Enqueued(ids) => v.(enqueued := v.enqueued + ids, waiting := v.waiting + ids, ready := false)
    case Activated(id) =>
      if v.waiting == [] then v.(ok := false)
      else v.(ok := v.ok && !v.ready && v.active.None? && tidying == [] && v.waiting[0] == id,
              waiting := v.waiting[1..], activated := v.activated + [id], active := Some(id))
    case Completed(id) =>
      v.(ok := v.ok && v.active == Some(id), outcomes := v.outcomes + [(id, true)], active := None)
    case Failed(who) =>
      if who.Some? then v.(ok := v.ok && v.active == who, outcomes := v.outcomes + [(who.value, false)], active := None)
      else v.(ok := v.ok && v.active.None?)
    case Took(_) => v.(ok := v.ok && !v.ready)
    case ErrorNoted(who, activation) =>
      v.(ok := v.ok && (who.Some? ==> 1 <= activation <= |v.activated| && v.activated[activation - 1] == who.value))
    case Ready => v.(ok := v.ok && v.waiting == [] && v.active.None? && tidying == [], ready := true)
    case _ => v
  }

  /**
   `queued` lists every cleanup command ever queued; `tidying` holds the places in that list of those
   that are queued or in flight, oldest first.
   */
  datatype TidyView = TidyView(ok: bool, queued: seq<CommandSpec>, tidying: seq<nat>, next: nat, sends: nat)

  function Range(from: nat, count: nat): (r: seq<nat>)
    ensures |r| == count
    ensures forall i :: 0 <= i < count ==> r[i] == from + i
  {
    seq(count, i requires 0 <= i < count => from + i)
  }

  function Append(v: TidyView, commands: seq<CommandSpec>): TidyView {
    v.(queued := v.queued + commands, tidying := v.tidying + Range(v.next, |commands|), next := v.next + |commands|)
  }

  function TidyStep(v: TidyView, e: Entry): TidyView {
    match e
    case CleanupQueued(commands) => Append(v, commands)
    case ConsoleReleased(restoring) => Append(v, restoring)
    case Took(a) =>
      if a.token.None? then v
      else v.(ok := v.ok && v.tidying != [] && v.tidying[0] == a.token.value && v.sends <= MAX_COMMAND_RECOVERY_RETRIES
                    && a.token.value < |v.queued| && a.spec == v.queued[a.token.value],
              sends := v.sends + 1)
    case Ended(a, ending) =>
      if a.token.None? || ending == Interrupted then v
      else if v.tidying == [] then v.(ok := false)
      else v.(ok := v.ok && v.tidying[0] == a.token.value, tidying := v.tidying[1..], sends := 0)
    case Failed(_) => v.(sends := 0)
    case _ => v
  }

  // ----- a replay starts where the block was first submitted

  datatype ReplayView = ReplayView(ok: bool, submittedAt: Option<Context>, due: Option<Context>, aborted: bool)

  predicate IsAbort(a: Attempt) {
    a.spec == ABORT && a.blockIndex.None? && a.token.None?
  }

  function ReplayStep(v: ReplayView, e: Entry): ReplayView {
    match e
    case Submitted(_, context) => v.(submittedAt := context, due := None)
    case Restarted(_) => v.(due := v.submittedAt, aborted := false)
    case Took(a) =>
      if IsAbort(a) then
        v.(ok := v.ok && v.due.Some? && !v.aborted && a.before != v.due, aborted := true)
      else v.(ok := v.ok && (v.due.Some? ==> a.before == v.due), due := None)
    case Failed(_) => v.(due := None)
    case _ => v
  }

  // ----- a block is sent in order, from the start again after each restart

  datatype BlockView = BlockView(
    ok: bool,
    commands: seq<CommandSpec>,
    next: nat,
    credited: nat,
    unsent: bool,
    abandoned: bool,
    restarts: seq<nat>,
    lines: seq<string>)

  function Count(restarts: seq<nat>, index: nat): nat {
    if restarts == [] then 0
    else Count(restarts[..|restarts| - 1], index) + if restarts[|restarts| - 1] == index then 1 else 0
  }

  function BlockStep(v: BlockView, e: Entry): BlockView {
    match e
    case Submitted(block, _) => BlockView(v.ok, block, 0, 0, false, false, [], [])
    case Took(a) =>
      if a.blockIndex.None? then v
      else v.(ok := v.ok && !v.abandoned && v.next < |v.commands| && v.credited == v.next && !v.unsent
                    && a.blockIndex.value == v.next && a.spec == v.commands[v.next],
              next := v.next + 1, unsent := true)
    case Sent(a) =>
      if a.blockIndex.None? then v
      else v.(ok := v.ok && v.unsent && a.blockIndex.value + 1 == v.next <= |v.commands|
          && a.spec == v.commands[v.next - 1],
              lines := v.lines + [a.spec.line],
              unsent := false)
    case Ended(a, ending) =>
      if a.blockIndex.None? || ending != Credited then v
      else v.(ok := v.ok && !v.unsent && a.blockIndex.value + 1 == v.next, credited := v.next)
    case Restarted(index) =>
      if index.None? then v.(ok := false)
      else v.(ok := v.ok && !v.abandoned && !v.unsent && index.value + 1 == v.next && v.credited < v.next
                    && Count(v.restarts, index.value) < MAX_COMMAND_RECOVERY_RETRIES,
              restarts := v.restarts + [index.value], next := 0, credited := 0)
    case Abandoned => v.(abandoned := true)
    case Completed(_) => BlockView(v.ok, [], 0, 0, false, false, [], [])
    case Failed(who) => if who.Some? then BlockView(v.ok, [], 0, 0, false, false, [], []) else v
    case BlockDone => v.(ok := v.ok && (v.abandoned || (v.credited == v.next == |v.commands| && !v.unsent)))
    case _ => v
  }

  // ----- a borrowed console output mode is given back

  datatype ConsoleView = ConsoleView(ok: bool, taken: bool, changed: bool)

  function ConsoleStep(v: ConsoleView, e: Entry): ConsoleView {
    match e
    case ConsoleTaken => v.(ok := v.ok && !v.taken, taken := true, changed := false)
    case ConsoleChanged => v.(ok := v.ok && v.taken && !v.changed, changed := true)
    case ConsoleReleased(restoring) =>
      v.(ok := v.ok && v.taken && restoring == (if v.changed then CONSOLE_RESTORE else []), taken := false)
    case Completed(_) => v.(ok := v.ok && !v.taken)
    case Failed(who) => v.(ok := v.ok && (who.Some? ==> !v.taken))
    case _ => v
  }

  // ----- a capturing command's output is exactly what was consumed while it ran

  datatype CaptureView = CaptureView(ok: bool, consumed: seq<byte>, start: nat)

  function CaptureStep(v: CaptureView, e: Entry): CaptureView {
    match e
    case Consumed(data) => v.(consumed := v.consumed + data)
    case Took(a) => v.(ok := v.ok && a.output == [], start := |v.consumed|)
    case Ended(a, ending) =>
      v.(ok := v.ok && v.start <= |v.consumed|
               && (ending == Credited && a.spec.Captures() ==> a.output == v.consumed[v.start..]))
    case _ => v
  }

  // ----- all of them together

  datatype Views = Views(
    session: SessionView,
    queue: QueueView,
    tidy: TidyView,
    replay: ReplayView,
    block: BlockView,
    console: ConsoleView,
    capture: CaptureView)

  const START := Views(
    SessionView(true, None, 0, false, 0, false, false),
    QueueView(true, [], [], [], None, [], false),
    TidyView(true, [], [], 0, 0),
    ReplayView(true, None, None, false),
    BlockView(true, [], 0, 0, false, false, [], []),
    ConsoleView(true, false, false),
    CaptureView(true, [], 0))

  function Advance(v: Views, e: Entry): Views {
    Views(SessionStep(v.session, e), QueueStep(v.queue, v.tidy.tidying, e), TidyStep(v.tidy, e),
        ReplayStep(v.replay, e),
          BlockStep(v.block, e), ConsoleStep(v.console, e), CaptureStep(v.capture, e))
  }

  function Watch(trace: seq<Entry>): Views {
    if trace == [] then START else Advance(Watch(trace[..|trace| - 1]), trace[|trace| - 1])
  }

  predicate Accepted(v: Views) {
    v.session.ok && v.queue.ok && v.tidy.ok && v.replay.ok && v.block.ok && v.console.ok && v.capture.ok
  }

  lemma WatchNote(s: State, e: Entry)
    ensures Watch(Note(s, e).trace) == Advance(Watch(s.trace), e)
  {
    assert (s.trace + [e])[..|s.trace|] == s.trace;
  }
}
