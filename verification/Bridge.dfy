/**
 * One direction of the SSH byte bridge: a bounded queue of chunks, a closed flag and two wakers,
 * shared by a reading and a writing endpoint that run on different threads.
 *
 * Every access to shared state is one step, so a run interleaves the two endpoints at each pop,
 * push, flag access, registration and wake.  A waker is a flag: registering sets it, waking takes it
 * and notifies whoever had registered.  A notification is consumed by the next poll of its endpoint.
 */
module Bridge {
  import opened Basics

  /** Where `poll_read` and the reader's drop stand; `n` is the room in the caller's buffer. */
  datatype ReaderPc =
    | Idle
    | Begin(n: nat)
    | Wake(n: nat)
    | Copy(n: nat)
    | Check(n: nat)
    | Register(n: nat)
    | PopAgain(n: nat)
    | WakeAgain(n: nat)
    | CheckAgain(n: nat)
    | Parked
    | CloseStore
    | CloseWakeReader
    | CloseWakeWriter
    | Gone

  /** Where `poll_write`, `shutdown` and the writer's drop stand. */
  datatype WriterPc =
    | Idle
    | Check(input: seq<Byte>)
    | Push(input: seq<Byte>)
    | WakeReader(count: nat)
    | Register(input: seq<Byte>)
    | IsFull(input: seq<Byte>)
    | Parked
    | CloseStore(drop: bool)
    | CloseWakeReader(drop: bool)
    | CloseWakeWriter(drop: bool)
    | Gone

  datatype ReadResult = Bytes(count: nat) | Eof
  datatype WriteResult = Wrote(count: nat) | BrokenPipe

  datatype Pipe = Pipe(queue: seq<seq<Byte>>, closed: bool, readerWaker: bool, writerWaker: bool)

  datatype Reader = Reader(pc: ReaderPc, current: seq<Byte>, notified: bool, last: Option<ReadResult>)

  /** `late`: when the waker was last registered the reader had left, its last wake over without a notification. */
  datatype Writer = Writer(pc: WriterPc, notified: bool, last: Option<WriteResult>, late: bool)

  /**
   * What has happened: bytes taken from writers and given to readers, the byte counts their calls have
   * returned, and whether a chunk was pushed since the reader last found the queue empty.
   */
  datatype History = History(accepted: seq<Byte>, delivered: seq<Byte>, wrote: nat, gave: nat, pushed: bool)

  datatype World = World(capacity: nat, chunkBytes: nat, pipe: Pipe, reader: Reader, writer: Writer, past: History)

  function Empty(capacity: nat, chunkBytes: nat): World {
    World(capacity, chunkBytes, Pipe([], false, false, false), Reader(ReaderPc.Idle, [], false, None),
          Writer(WriterPc.Idle, false, None, false), History([], [], 0, 0, false))
  }

  /** `AtomicWaker::wake` on either waker of the pipe: the waker is taken and its task notified. */
  function WakesReader(w: World): World {
    w.(pipe := w.pipe.(readerWaker := false),
       reader := w.reader.(notified := w.reader.notified || w.pipe.readerWaker))
  }

  function WakesWriter(w: World): World {
    w.(pipe := w.pipe.(writerWaker := false),
       writer := w.writer.(notified := w.writer.notified || w.pipe.writerWaker))
  }

  // ------------------------------------------------------------------ the reader

  predicate ReaderRuns(w: World) {
    !w.reader.pc.Idle? && !w.reader.pc.Parked? && !w.reader.pc.Gone?
  }

  function ReaderAt(w: World, pc: ReaderPc): World {
    w.(reader := w.reader.(pc := pc))
  }

  function StartRead(w: World, n: nat): World {
    w.(reader := if n == 0 then Reader(ReaderPc.Idle, w.reader.current, false, Some(Bytes(0)))
                 else Reader(Begin(n), w.reader.current, false, None))
  }

  function ReadDone(w: World, result: ReadResult): World {
    w.(reader := w.reader.(pc := ReaderPc.Idle, last := Some(result)))
  }

  /** Pop the queue: with a chunk go on to `found`, without one to `missed`. */
  function PopStep(w: World, found: ReaderPc, missed: ReaderPc): World {
    if w.pipe.queue != [] then
      w.(pipe := w.pipe.(queue := w.pipe.queue[1..]),
         reader := w.reader.(pc := found, current := w.pipe.queue[0]))
    else ReaderAt(w, missed).(past := w.past.(pushed := false))
  }

  function CopyOut(w: World, n: nat): World {
    var count := Min(n, |w.reader.current|);
    w.(reader := w.reader.(pc := ReaderPc.Idle, current := w.reader.current[count..], last := Some(Bytes(count))),
       past := w.past.(delivered := w.past.delivered + w.reader.current[..count], gave := w.past.gave + count))
  }

  function ReaderStep(w: World): World
    requires ReaderRuns(w)
  {
    match w.reader.pc
    case Begin(n) =>
      if w.reader.current != [] then ReaderAt(w, Copy(n)) else PopStep(w, Wake(n), ReaderPc.Check(n))
    case Wake(n) => ReaderAt(WakesWriter(w), if w.reader.current != [] then Copy(n) else ReaderPc.Check(n))
    case Copy(n) => CopyOut(w, n)
    case Check(n) => if w.pipe.closed then ReadDone(w, Eof) else ReaderAt(w, ReaderPc.Register(n))
    case Register(n) => ReaderAt(w.(pipe := w.pipe.(readerWaker := true)), PopAgain(n))
    case PopAgain(n) => PopStep(w, WakeAgain(n), CheckAgain(n))
    case WakeAgain(n) => ReaderAt(WakesWriter(w), Begin(n))
    case CheckAgain(n) => if w.pipe.closed then ReadDone(w, Eof) else ReaderAt(w, ReaderPc.Parked)
    case CloseStore => ReaderAt(w.(pipe := w.pipe.(closed := true)), ReaderPc.CloseWakeReader)
    case CloseWakeReader => ReaderAt(WakesReader(w), ReaderPc.CloseWakeWriter)
    case CloseWakeWriter => ReaderAt(WakesWriter(w), ReaderPc.Gone)
  }

  // ------------------------------------------------------------------ the writer

  predicate WriterRuns(w: World) {
    !w.writer.pc.Idle? && !w.writer.pc.Parked? && !w.writer.pc.Gone?
  }

  function WriterAt(w: World, pc: WriterPc): World {
    w.(writer := w.writer.(pc := pc))
  }

  function StartWrite(w: World, input: seq<Byte>): World {
    w.(writer := if input == [] then Writer(WriterPc.Idle, false, Some(Wrote(0)), w.writer.late)
                 else Writer(WriterPc.Check(input), false, None, w.writer.late))
  }

  function WriteDone(w: World, result: WriteResult): World {
    w.(writer := w.writer.(pc := WriterPc.Idle, last := Some(result)),
       past := if result.Wrote? then w.past.(wrote := w.past.wrote + result.count) else w.past)
  }

  function PushStep(w: World, input: seq<Byte>): World {
    var count := Min(|input|, w.chunkBytes);
    if |w.pipe.queue| < w.capacity then
      w.(pipe := w.pipe.(queue := w.pipe.queue + [input[..count]]),
         writer := w.writer.(pc := WakeReader(count)),
         past := w.past.(accepted := w.past.accepted + input[..count], pushed := true))
    else WriterAt(w, WriterPc.Register(input))
  }

  function RegisterStep(w: World, input: seq<Byte>): World {
    w.(pipe := w.pipe.(writerWaker := true),
       writer := w.writer.(pc := IsFull(input), late := w.reader.pc.Gone? && !w.writer.notified))
  }

  function WriterStep(w: World): World
    requires WriterRuns(w)
  {
    match w.writer.pc
    case Check(input) => if w.pipe.closed then WriteDone(w, BrokenPipe) else WriterAt(w, Push(input))
    case Push(input) => PushStep(w, input)
    case WakeReader(count) => WriteDone(WakesReader(w), Wrote(count))
    case Register(input) => RegisterStep(w, input)
    case IsFull(input) => WriterAt(w, if |w.pipe.queue| == w.capacity then WriterPc.Parked else WriterPc.Check(input))
    case CloseStore(drop) => WriterAt(w.(pipe := w.pipe.(closed := true)), WriterPc.CloseWakeReader(drop))
    case CloseWakeReader(drop) => WriterAt(WakesReader(w), WriterPc.CloseWakeWriter(drop))
    case CloseWakeWriter(drop) => WriterAt(WakesWriter(w), if drop then WriterPc.Gone else WriterPc.Idle)
  }

  // ------------------------------------------------------------------ runs

  datatype Event =
    | Read(n: nat)
    | DropReader
    | ReaderMoves
    | Write(input: seq<Byte>)
    | Shutdown
    | DropWriter
    | WriterMoves

  predicate ReaderFree(w: World) {
    w.reader.pc.Idle? || w.reader.pc.Parked?
  }

  predicate WriterFree(w: World) {
    w.writer.pc.Idle? || w.writer.pc.Parked?
  }

  predicate Enabled(w: World, ev: Event) {
    match ev
    case Read(_) => ReaderFree(w)
    case DropReader => ReaderFree(w)
    case ReaderMoves => ReaderRuns(w)
    case Write(_) => WriterFree(w)
    case Shutdown => WriterFree(w)
    case DropWriter => WriterFree(w)
    case WriterMoves => WriterRuns(w)
  }

  function Apply(w: World, ev: Event): World
    requires Enabled(w, ev)
  {
    match ev
    case Read(n) => StartRead(w, n)
    case DropReader => ReaderAt(w, ReaderPc.CloseStore)
    case ReaderMoves => ReaderStep(w)
    case Write(input) => StartWrite(w, input)
    case Shutdown => WriterAt(w, WriterPc.CloseStore(false))
    case DropWriter => WriterAt(w, WriterPc.CloseStore(true))
    case WriterMoves => WriterStep(w)
  }

  predicate Feasible(w: World, events: seq<Event>)
    decreases |events|
  {
    events == [] || (Enabled(w, events[0]) && Feasible(Apply(w, events[0]), events[1..]))
  }

  function Run(w: World, events: seq<Event>): World
    requires Feasible(w, events)
    decreases |events|
  {
    if events == [] then w else Run(Apply(w, events[0]), events[1..])
  }

  // ------------------------------------------------------------------ invariant

  predicate Conserves(w: World) {
    && w.past.accepted == w.past.delivered + w.reader.current + Flatten(w.pipe.queue)
    && |w.pipe.queue| <= w.capacity
  }

  /** The counts returned are the bytes moved; a writer about to return still owes its own. */
  predicate CountsInv(w: World) {
    && |w.past.accepted| == w.past.wrote + (if w.writer.pc.WakeReader? then w.writer.pc.count else 0)
    && |w.past.delivered| == w.past.gave
  }

  predicate CurrentInv(w: World) {
    var pc := w.reader.pc;
    && (pc.Check? || pc.Register? || pc.PopAgain? || pc.CheckAgain? || pc.Parked? ==> w.reader.current == [])
    && (pc.Wake? || pc.WakeAgain? || pc.Copy? ==> w.reader.current != [])
  }

  predicate ChunksInv(w: World) {
    var pc := w.writer.pc;
    && w.chunkBytes > 0
    && (forall i :: 0 <= i < |w.pipe.queue| ==> 0 < |w.pipe.queue[i]| <= w.chunkBytes)
    && (pc.Check? || pc.Push? || pc.Register? || pc.IsFull? ==> pc.input != [])
  }

  /** After registering, the reader is notified or its waker is in place and whoever acted still has to wake it. */
  predicate ReaderInv(w: World) {
    var pc := w.reader.pc;
    !w.reader.notified ==>
      && (pc.PopAgain? || pc.CheckAgain? || pc.Parked? ==> w.pipe.readerWaker)
      && (pc.CheckAgain? || pc.Parked? ==> w.pipe.queue == [] || w.writer.pc.WakeReader?)
      && (pc.Parked? ==> !w.pipe.closed || w.writer.pc.CloseWakeReader?)
  }

  predicate WriterInv(w: World) {
    var pc := w.writer.pc;
    !w.writer.notified ==>
      && (pc.IsFull? || pc.Parked? ==> w.pipe.writerWaker)
      && (pc.Parked? ==> |w.pipe.queue| == w.capacity || w.reader.pc.Wake? || w.reader.pc.WakeAgain?)
  }

  /** Between the reader's last empty pop and its look at the flag, the queue fills only by a push. */
  predicate EofInv(w: World) {
    var pc := w.reader.pc;
    pc.Check? || pc.Register? || pc.CheckAgain? ==> (w.pipe.queue == [] <==> !w.past.pushed)
  }

  predicate ReaderLeaving(w: World) {
    w.reader.pc.CloseWakeReader? || w.reader.pc.CloseWakeWriter? || w.reader.pc.Gone?
  }

  /** A writer that found the pipe open and now sees it closed had it closed by the reader. */
  predicate ClosedInv(w: World) {
    var pc := w.writer.pc;
    w.pipe.closed && (pc.Push? || pc.Register? || pc.IsFull? || pc.Parked?) ==> ReaderLeaving(w)
  }

  /** Once registered, the writer stays without a notification from a reader that left only if it came late. */
  predicate LateInv(w: World) {
    w.writer.pc.IsFull? || w.writer.pc.Parked? ==>
      (w.writer.late <==> w.reader.pc.Gone? && !w.writer.notified)
  }

  predicate Inv(w: World) {
    Conserves(w) && CountsInv(w) && CurrentInv(w) && ChunksInv(w) && ReaderInv(w) && WriterInv(w) && EofInv(w) && ClosedInv(w) && LateInv(w)
  }

  lemma PopConserves(w: World, found: ReaderPc, missed: ReaderPc)
    requires Conserves(w) && w.reader.current == []
    ensures Conserves(PopStep(w, found, missed))
  {
    var v := PopStep(w, found, missed);
    if w.pipe.queue != [] {
      assert Flatten(w.pipe.queue) == v.reader.current + Flatten(v.pipe.queue);
      assert w.past.accepted == w.past.delivered + Flatten(w.pipe.queue);
    }
  }

  lemma CopyConserves(w: World, n: nat)
    requires Conserves(w)
    ensures Conserves(CopyOut(w, n))
  {
    var v := CopyOut(w, n);
    assert w.reader.current == w.reader.current[..Min(n, |w.reader.current|)] + v.reader.current;
  }

  lemma PushConserves(w: World, input: seq<Byte>)
    requires Conserves(w)
    ensures Conserves(PushStep(w, input))
  {
    FlattenSnoc(w.pipe.queue, input[..Min(|input|, w.chunkBytes)]);
  }

  lemma ReaderConserves(w: World)
    requires Conserves(w) && CurrentInv(w) && ReaderRuns(w)
    ensures Conserves(ReaderStep(w))
  {
    match w.reader.pc
    case Begin(n) =>
      if w.reader.current == [] {
        PopConserves(w, Wake(n), ReaderPc.Check(n));
      }
    case Copy(n) => CopyConserves(w, n);
    case PopAgain(n) => PopConserves(w, WakeAgain(n), CheckAgain(n));
    case _ =>
  }

  lemma WriterConserves(w: World)
    requires Conserves(w) && WriterRuns(w)
    ensures Conserves(WriterStep(w))
  {
    match w.writer.pc
    case Push(input) => PushConserves(w, input);
    case _ =>
  }

  lemma ReaderCounts(w: World)
    requires CountsInv(w) && ReaderRuns(w)
    ensures CountsInv(ReaderStep(w))
  {
  }

  lemma WriterCounts(w: World)
    requires CountsInv(w) && WriterRuns(w)
    ensures CountsInv(WriterStep(w))
  {
  }

  lemma ReaderShape(w: World)
    requires CurrentInv(w) && ChunksInv(w) && ReaderRuns(w)
    ensures CurrentInv(ReaderStep(w)) && ChunksInv(ReaderStep(w))
  {
  }

  lemma WriterShape(w: World)
    requires CurrentInv(w) && ChunksInv(w) && WriterRuns(w)
    ensures CurrentInv(WriterStep(w)) && ChunksInv(WriterStep(w))
  {
  }

  lemma ReaderKeepsReader(w: World)
    requires ReaderInv(w) && ReaderRuns(w)
    ensures ReaderInv(ReaderStep(w))
  {
  }

  lemma ReaderKeepsWriter(w: World)
    requires WriterInv(w) && ReaderRuns(w)
    ensures WriterInv(ReaderStep(w))
  {
  }

  lemma ReaderKeepsEof(w: World)
    requires EofInv(w) && CurrentInv(w) && ReaderRuns(w)
    ensures EofInv(ReaderStep(w))
  {
  }

  lemma WriterKeepsReader(w: World)
    requires ReaderInv(w) && WriterRuns(w)
    ensures ReaderInv(WriterStep(w))
  {
  }

  lemma WriterKeepsWriter(w: World)
    requires WriterInv(w) && WriterRuns(w)
    ensures WriterInv(WriterStep(w))
  {
  }

  lemma WriterKeepsEof(w: World)
    requires EofInv(w) && WriterRuns(w)
    ensures EofInv(WriterStep(w))
  {
  }

  lemma ReaderKeepsClosed(w: World)
    requires ClosedInv(w) && LateInv(w) && WriterInv(w) && ReaderRuns(w)
    ensures ClosedInv(ReaderStep(w)) && LateInv(ReaderStep(w))
  {
  }

  lemma WriterKeepsClosed(w: World)
    requires ClosedInv(w) && LateInv(w) && WriterRuns(w)
    ensures ClosedInv(WriterStep(w)) && LateInv(WriterStep(w))
  {
  }

  lemma StartKeeps(w: World, ev: Event)
    requires Inv(w) && Enabled(w, ev) && !ev.ReaderMoves? && !ev.WriterMoves?
    ensures Inv(Apply(w, ev))
  {
  }

  lemma StepKeeps(w: World, ev: Event)
    requires Inv(w) && Enabled(w, ev)
    ensures Inv(Apply(w, ev))
  {
    if ev.ReaderMoves? {
      ReaderConserves(w);
      ReaderCounts(w);
      ReaderShape(w);
      ReaderKeepsReader(w);
      ReaderKeepsWriter(w);
      ReaderKeepsEof(w);
      ReaderKeepsClosed(w);
    } else if ev.WriterMoves? {
      WriterConserves(w);
      WriterCounts(w);
      WriterShape(w);
      WriterKeepsReader(w);
      WriterKeepsWriter(w);
      WriterKeepsEof(w);
      WriterKeepsClosed(w);
    } else {
      StartKeeps(w, ev);
    }
  }

  lemma {:induction false} RunKeeps(w: World, events: seq<Event>)
    requires Inv(w) && Feasible(w, events)
    ensures Inv(Run(w, events))
    decreases |events|
  {
    if events != [] {
      StepKeeps(w, events[0]);
      RunKeeps(Apply(w, events[0]), events[1..]);
    }
  }

  // ------------------------------------------------------------------ main results

  /**
   * In every run: no byte is lost, repeated or reordered, the queue and its chunks keep their bounds,
   * and the counts returned to the callers are the bytes moved.
   */
  lemma BytesConserved(capacity: nat, chunkBytes: nat, events: seq<Event>)
    requires capacity > 0 && chunkBytes > 0 && Feasible(Empty(capacity, chunkBytes), events)
    ensures var w := Run(Empty(capacity, chunkBytes), events);
            && w.past.accepted == w.past.delivered + w.reader.current + Flatten(w.pipe.queue)
            && |w.pipe.queue| <= w.capacity
            && (forall i :: 0 <= i < |w.pipe.queue| ==> 0 < |w.pipe.queue[i]| <= w.chunkBytes)
            && |w.past.delivered| == w.past.gave
            && (!w.writer.pc.WakeReader? ==> |w.past.accepted| == w.past.wrote)
  {
    RunKeeps(Empty(capacity, chunkBytes), events);
  }

  /**
   * No lost wake-up for the reader: one that returned Pending while a chunk is queued or the pipe is
   * closed has been notified, or the writer's next step is the wake that will notify it.
   */
  lemma ReaderIsWoken(capacity: nat, chunkBytes: nat, events: seq<Event>)
    requires capacity > 0 && chunkBytes > 0 && Feasible(Empty(capacity, chunkBytes), events)
    requires var w := Run(Empty(capacity, chunkBytes), events);
             w.reader.pc.Parked? && (w.pipe.queue != [] || w.pipe.closed)
    ensures var w := Run(Empty(capacity, chunkBytes), events);
            || w.reader.notified
            || (WriterRuns(w) && WriterStep(w).reader.notified)
  {
    RunKeeps(Empty(capacity, chunkBytes), events);
  }

  /** A writer that returned Pending on a full queue is notified once the reader has made room. */
  lemma WriterIsWoken(capacity: nat, chunkBytes: nat, events: seq<Event>)
    requires capacity > 0 && chunkBytes > 0 && Feasible(Empty(capacity, chunkBytes), events)
    requires Run(Empty(capacity, chunkBytes), events).writer.pc.Parked?
    ensures var w := Run(Empty(capacity, chunkBytes), events);
            |w.pipe.queue| < w.capacity ==> w.writer.notified || (ReaderRuns(w) && ReaderStep(w).writer.notified)
  {
    RunKeeps(Empty(capacity, chunkBytes), events);
  }

  /** The writer is notified, now or by what is left of the reader's close. */
  predicate WokenByClose(w: World) {
    || w.writer.notified
    || (ReaderRuns(w) && ReaderStep(w).writer.notified)
    || (ReaderRuns(w) && ReaderRuns(ReaderStep(w)) && ReaderStep(ReaderStep(w)).writer.notified)
  }

  /**
   * A writer parked on a closed pipe is woken by the close if and only if its registration did not come
   * after the reader's last wake, and equally if and only if it is notified already or the reader has
   * not left yet.
   */
  lemma CloseWakesIff(capacity: nat, chunkBytes: nat, events: seq<Event>)
    requires capacity > 0 && chunkBytes > 0 && Feasible(Empty(capacity, chunkBytes), events)
    requires var w := Run(Empty(capacity, chunkBytes), events); w.writer.pc.Parked? && w.pipe.closed
    ensures var w := Run(Empty(capacity, chunkBytes), events);
            && (WokenByClose(w) <==> !w.writer.late)
            && (WokenByClose(w) <==> w.writer.notified || !w.reader.pc.Gone?)
  {
    RunKeeps(Empty(capacity, chunkBytes), events);
  }

  lemma {:induction false} NoBytesNoChunks(chunks: seq<seq<Byte>>)
    requires forall i :: 0 <= i < |chunks| ==> |chunks[i]| > 0
    ensures Flatten(chunks) == [] <==> chunks == []
  {
    if chunks != [] {
      assert |Flatten(chunks)| >= |chunks[0]|;
    }
  }

  /** The end of the stream is reported from the look at the flag, with nothing else changed. */
  lemma EofStep(w: World)
    requires w.reader.last != Some(Eof) && ReaderRuns(w) && ReaderStep(w).reader.last == Some(Eof)
    ensures (w.reader.pc.Check? || w.reader.pc.CheckAgain?) && ReaderStep(w).past == w.past
  {
  }

  lemma DrainedIffUnpushed(w: World)
    requires Conserves(w) && ChunksInv(w) && CurrentInv(w) && EofInv(w)
    requires w.reader.pc.Check? || w.reader.pc.CheckAgain?
    ensures w.past.accepted == w.past.delivered <==> !w.past.pushed
  {
    NoBytesNoChunks(w.pipe.queue);
    assert |w.past.accepted| == |w.past.delivered| + |Flatten(w.pipe.queue)|;
  }

  /** End of stream is reported with everything delivered exactly when no push slipped in since the last pop. */
  lemma EofDrainedIff(capacity: nat, chunkBytes: nat, events: seq<Event>)
    requires capacity > 0 && chunkBytes > 0 && Feasible(Empty(capacity, chunkBytes), events)
    requires var w := Run(Empty(capacity, chunkBytes), events);
             w.reader.last != Some(Eof) && ReaderRuns(w) && ReaderStep(w).reader.last == Some(Eof)
    ensures var w := Run(Empty(capacity, chunkBytes), events);
            ReaderStep(w).past.accepted == ReaderStep(w).past.delivered <==> !w.past.pushed
  {
    RunKeeps(Empty(capacity, chunkBytes), events);
    var w := Run(Empty(capacity, chunkBytes), events);
    EofStep(w);
    DrainedIffUnpushed(w);
  }

  // ------------------------------------------------------------------ reading after the writer closed

  /** The pipe is closed for good and the poll under way has not overlooked anything. */
  predicate Settled(w: World) {
    && w.pipe.closed && !w.writer.pc.Push?
    && (w.reader.pc.Check? || w.reader.pc.Register? || w.reader.pc.PopAgain? || w.reader.pc.CheckAgain? ==> w.pipe.queue == [])
    && (w.reader.last == Some(Eof) ==> w.pipe.queue == [] && w.reader.current == [])
  }

  lemma SettledReader(w: World)
    requires CurrentInv(w) && Settled(w) && ReaderRuns(w)
    ensures Settled(ReaderStep(w)) && ReaderStep(w).past.accepted == w.past.accepted
  {
  }

  lemma SettledWriter(w: World)
    requires Settled(w) && WriterRuns(w)
    ensures Settled(WriterStep(w)) && WriterStep(w).past.accepted == w.past.accepted
  {
  }

  lemma SettledStays(w: World, ev: Event)
    requires CurrentInv(w) && Settled(w) && Enabled(w, ev)
    ensures Settled(Apply(w, ev)) && Apply(w, ev).past.accepted == w.past.accepted
  {
    if ev.ReaderMoves? {
      SettledReader(w);
    } else if ev.WriterMoves? {
      SettledWriter(w);
    }
  }

  lemma {:induction false} SettledRun(w: World, events: seq<Event>)
    requires Inv(w) && Settled(w) && Feasible(w, events)
    ensures Settled(Run(w, events)) && Run(w, events).past.accepted == w.past.accepted && Inv(Run(w, events))
    decreases |events|
  {
    if events != [] {
      SettledStays(w, events[0]);
      StepKeeps(w, events[0]);
      SettledRun(Apply(w, events[0]), events[1..]);
    }
  }

  /**
   * A read begun after the close reports the end of the stream only when everything ever accepted has
   * been delivered, and nothing is accepted any more.
   */
  lemma EofAfterClose(capacity: nat, chunkBytes: nat, before: seq<Event>, n: nat, after: seq<Event>)
    requires capacity > 0 && chunkBytes > 0 && n > 0 && Feasible(Empty(capacity, chunkBytes), before)
    requires var w := Run(Empty(capacity, chunkBytes), before);
             w.pipe.closed && Enabled(w, Read(n)) && Feasible(StartRead(w, n), after)
    ensures var w := Run(Empty(capacity, chunkBytes), before);
            var v := Run(StartRead(w, n), after);
            && v.past.accepted == w.past.accepted
            && (v.reader.last == Some(Eof) ==> v.past.delivered == v.past.accepted)
  {
    RunKeeps(Empty(capacity, chunkBytes), before);
    var w := Run(Empty(capacity, chunkBytes), before);
    StepKeeps(w, Read(n));
    SettledRun(StartRead(w, n), after);
  }

  // ------------------------------------------------------------------ what the code does not promise

  lemma {:induction false} OneMore(w: World, events: seq<Event>, ev: Event)
    requires Feasible(w, events) && Enabled(Run(w, events), ev)
    ensures Feasible(w, events + [ev]) && Run(w, events + [ev]) == Apply(Run(w, events), ev)
    decreases |events|
  {
    if events == [] {
      assert events + [ev] == [ev];
      assert Feasible(Apply(w, ev), [ev][1..]);
    } else {
      assert (events + [ev])[1..] == events[1..] + [ev];
      OneMore(Apply(w, events[0]), events[1..], ev);
    }
  }

  /** Two steps at a time, for spelling out short runs. */
  lemma TwoMore(w: World, events: seq<Event>, first: Event, second: Event)
    requires Feasible(w, events) && Enabled(Run(w, events), first) && Enabled(Apply(Run(w, events), first), second)
    ensures Feasible(w, events + [first, second])
    ensures Run(w, events + [first, second]) == Apply(Apply(Run(w, events), first), second)
  {
    OneMore(w, events, first);
    OneMore(w, events + [first], second);
    assert events + [first] + [second] == events + [first, second];
  }

  /** The writer pushes one byte and finishes the call, while the reader stands anywhere. */
  lemma WritesOne(w: World, events: seq<Event>, b: Byte)
    requires Feasible(w, events)
    requires var v := Run(w, events); WriterFree(v) && !v.pipe.closed && |v.pipe.queue| < v.capacity && v.chunkBytes == 1
    ensures var all := events + [Write([b]), WriterMoves, WriterMoves, WriterMoves];
            var v := Run(w, events);
            && Feasible(w, all) && Run(w, all).pipe == v.pipe.(queue := v.pipe.queue + [[b]], readerWaker := false)
            && Run(w, all).reader == v.reader.(notified := v.reader.notified || v.pipe.readerWaker)
            && Run(w, all).past == v.past.(accepted := v.past.accepted + [b], wrote := v.past.wrote + 1, pushed := true)
            && Run(w, all).writer == Writer(WriterPc.Idle, false, Some(Wrote(1)), v.writer.late)
            && Run(w, all).capacity == v.capacity && Run(w, all).chunkBytes == 1
  {
    var v := Run(w, events);
    TwoMore(w, events, Write([b]), WriterMoves);
    assert Apply(Apply(v, Write([b])), WriterMoves).writer.pc == Push([b]);
    assert [b][..1] == [b];
    TwoMore(w, events + [Write([b]), WriterMoves], WriterMoves, WriterMoves);
    assert events + [Write([b]), WriterMoves] + [WriterMoves, WriterMoves]
        == events + [Write([b]), WriterMoves, WriterMoves, WriterMoves];
  }

  /** A push and a close between the reader's pop and its look at the flag: end of stream with a byte queued. */
  lemma EofMayComeEarly() returns (events: seq<Event>)
    ensures Feasible(Empty(1, 1), events)
    ensures var w := Run(Empty(1, 1), events); w.reader.last == Some(Eof) && w.past.delivered == [] && w.past.accepted == [7]
  {
    var start := Empty(1, 1);
    TwoMore(start, [], Read(1), ReaderMoves);
    events := [] + [Read(1), ReaderMoves];
    WritesOne(start, events, 7);
    events := events + [Write([7]), WriterMoves, WriterMoves, WriterMoves];
    TwoMore(start, events, Shutdown, WriterMoves);
    events := events + [Shutdown, WriterMoves];
    OneMore(start, events, ReaderMoves);
    events := events + [ReaderMoves];
  }

  /** The reader is dropped and finishes closing, while the writer stands anywhere with no waker in place. */
  lemma ReaderLeaves(w: World, events: seq<Event>)
    requires Feasible(w, events)
    requires var v := Run(w, events); ReaderFree(v) && !v.pipe.writerWaker
    ensures var all := events + [DropReader, ReaderMoves, ReaderMoves, ReaderMoves];
            var v := Run(w, events);
            && Feasible(w, all) && Run(w, all).reader.pc == ReaderPc.Gone && Run(w, all).writer == v.writer
            && Run(w, all).pipe.queue == v.pipe.queue && Run(w, all).pipe.closed
            && Run(w, all).capacity == v.capacity && Run(w, all).chunkBytes == v.chunkBytes
  {
    var v := Run(w, events);
    TwoMore(w, events, DropReader, ReaderMoves);
    assert Apply(Apply(v, DropReader), ReaderMoves).reader.pc == ReaderPc.CloseWakeReader;
    TwoMore(w, events + [DropReader, ReaderMoves], ReaderMoves, ReaderMoves);
    assert events + [DropReader, ReaderMoves] + [ReaderMoves, ReaderMoves]
        == events + [DropReader, ReaderMoves, ReaderMoves, ReaderMoves];
  }

  /** A writer past its look at the flag finds the queue full and parks. */
  lemma WriterParks(w: World, events: seq<Event>)
    requires Feasible(w, events)
    requires var v := Run(w, events); v.writer.pc.Push? && |v.pipe.queue| == v.capacity
    ensures var all := events + [WriterMoves, WriterMoves] + [WriterMoves];
            var v := Run(w, events);
            && Feasible(w, all) && Run(w, all).writer.pc.Parked? && Run(w, all).writer.notified == v.writer.notified
            && Run(w, all).reader == v.reader && Run(w, all).pipe.closed == v.pipe.closed
  {
    TwoMore(w, events, WriterMoves, WriterMoves);
    OneMore(w, events + [WriterMoves, WriterMoves], WriterMoves);
  }

  /**
   * A close between the writer's look at the flag and its registration: the writer parks on a full
   * queue with the reader gone and no notification, and nothing but a call of its own can follow.
   */
  lemma WriterMayMissClose() returns (events: seq<Event>)
    ensures Feasible(Empty(1, 1), events)
    ensures var w := Run(Empty(1, 1), events);
            && w.writer.pc.Parked? && !w.writer.notified && w.pipe.closed && w.reader.pc.Gone?
            && forall ev :: Enabled(w, ev) ==> ev.Write? || ev.Shutdown? || ev.DropWriter?
  {
    var start := Empty(1, 1);
    assert Run(start, []) == start;
    WritesOne(start, [], 7);
    events := [] + [Write([7]), WriterMoves, WriterMoves, WriterMoves];
    TwoMore(start, events, Write([8]), WriterMoves);
    events := events + [Write([8]), WriterMoves];
    ReaderLeaves(start, events);
    events := events + [DropReader, ReaderMoves, ReaderMoves, ReaderMoves];
    WriterParks(start, events);
    events := events + [WriterMoves, WriterMoves] + [WriterMoves];
  }

  // ------------------------------------------------------------------ the pipe in place

  /** The shared pipe and the two tasks as mutable state; each method is one atomic access of the code. */
  class BytePipe {
    const capacity: nat
    const chunkBytes: nat
    var queue: seq<seq<Byte>>
    var closed: bool
    var readerWaker: bool
    var writerWaker: bool
    var reader: ReaderPc
    var current: seq<Byte>
    var readerNotified: bool
    var lastRead: Option<ReadResult>
    var writer: WriterPc
    var writerNotified: bool
    var lastWrite: Option<WriteResult>
    ghost var late: bool
    ghost var past: History

    ghost function View(): World
      reads this
    {
      World(capacity, chunkBytes, Pipe(queue, closed, readerWaker, writerWaker),
            Reader(reader, current, readerNotified, lastRead),
            Writer(writer, writerNotified, lastWrite, late), past)
    }

    constructor (chunks: nat, bytes: nat)
      requires chunks > 0
      ensures View() == Empty(chunks, bytes)
    {
      capacity, chunkBytes := chunks, bytes;
      queue, closed, readerWaker, writerWaker := [], false, false, false;
      reader, current, readerNotified, lastRead := ReaderPc.Idle, [], false, None;
      writer, writerNotified, lastWrite, late := WriterPc.Idle, false, None, false;
      past := History([], [], 0, 0, false);
    }

    method WakeWriter()
      modifies `writerWaker, `writerNotified
      ensures View() == WakesWriter(old(View()))
    {
      if writerWaker {
        writerNotified := true;
      }
      writerWaker := false;
    }

    method WakeReader()
      modifies `readerWaker, `readerNotified
      ensures View() == WakesReader(old(View()))
    {
      if readerWaker {
        readerNotified := true;
      }
      readerWaker := false;
    }

    method PopQueue(found: ReaderPc, missed: ReaderPc)
      modifies `queue, `current, `reader, `past
      ensures View() == PopStep(old(View()), found, missed)
    {
      if queue != [] {
        current, queue, reader := queue[0], queue[1..], found;
      } else {
        reader, past := missed, past.(pushed := false);
      }
    }

    /** The byte-by-byte copy out of `current`. */
    method Drain(n: nat) returns (output: seq<Byte>)
      modifies `current, `reader, `lastRead, `past
      ensures View() == CopyOut(old(View()), n)
      ensures output == old(current)[..Min(n, |old(current)|)]
    {
      var count := Min(n, |current|);
      output := [];
      while |output| < count
        modifies `current
        invariant |output| <= count && output == old(current)[..|output|] && current == old(current)[|output|..]
      {
        output := output + [current[0]];
        current := current[1..];
      }
      reader, lastRead := ReaderPc.Idle, Some(Bytes(count));
      past := past.(delivered := past.delivered + output, gave := past.gave + count);
    }

    method PushQueue(input: seq<Byte>)
      modifies `queue, `writer, `past
      ensures View() == PushStep(old(View()), input)
    {
      var count := Min(|input|, chunkBytes);
      if |queue| < capacity {
        queue, writer := queue + [input[..count]], WriterPc.WakeReader(count);
        past := past.(accepted := past.accepted + input[..count], pushed := true);
      } else {
        writer := WriterPc.Register(input);
      }
    }

    method ReaderMoves()
      requires ReaderRuns(View())
      modifies this
      ensures View() == ReaderStep(old(View()))
    {
      match reader
      case Begin(n) =>
        if current != [] {
          reader := Copy(n);
        } else {
          PopQueue(Wake(n), ReaderPc.Check(n));
        }
      case Wake(n) =>
        WakeWriter();
        reader := if current != [] then Copy(n) else ReaderPc.Check(n);
      case Copy(n) =>
        var _ := Drain(n);
      case Check(n) =>
        if closed {
          reader, lastRead := ReaderPc.Idle, Some(Eof);
        } else {
          reader := ReaderPc.Register(n);
        }
      case Register(n) => readerWaker, reader := true, PopAgain(n);
      case PopAgain(n) => PopQueue(WakeAgain(n), CheckAgain(n));
      case WakeAgain(n) =>
        WakeWriter();
        reader := Begin(n);
      case CheckAgain(n) =>
        if closed {
          reader, lastRead := ReaderPc.Idle, Some(Eof);
        } else {
          reader := ReaderPc.Parked;
        }
      case CloseStore => closed, reader := true, ReaderPc.CloseWakeReader;
      case CloseWakeReader =>
        WakeReader();
        reader := ReaderPc.CloseWakeWriter;
      case CloseWakeWriter =>
        WakeWriter();
        reader := ReaderPc.Gone;
    }

    method WriterMoves()
      requires WriterRuns(View())
      modifies this
      ensures View() == WriterStep(old(View()))
    {
      match writer
      case Check(input) =>
        if closed {
          writer, lastWrite := WriterPc.Idle, Some(BrokenPipe);
        } else {
          writer := Push(input);
        }
      case Push(input) => PushQueue(input);
      case WakeReader(count) =>
        WakeReader();
        writer, lastWrite := WriterPc.Idle, Some(Wrote(count));
        past := past.(wrote := past.wrote + count);
      case Register(input) =>
        writerWaker, writer := true, IsFull(input);
        late := reader.Gone? && !writerNotified;
      case IsFull(input) =>
        if |queue| == capacity {
          writer := WriterPc.Parked;
        } else {
          writer := WriterPc.Check(input);
        }
      case CloseStore(drop) => closed, writer := true, WriterPc.CloseWakeReader(drop);
      case CloseWakeReader(drop) =>
        WakeReader();
        writer := WriterPc.CloseWakeWriter(drop);
      case CloseWakeWriter(drop) =>
        WakeWriter();
        writer := if drop then WriterPc.Gone else WriterPc.Idle;
    }
  }
}
