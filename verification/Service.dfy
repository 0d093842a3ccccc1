/**
 * The policy session channel: queued responses, a replaceable snapshot and partial writes feeding
 * one stream that the peer decodes frame by frame.
 */
module Service {
  import opened Basics
  import opened Frame
  import Utf8

  const RESPONSE_QUEUE_LIMIT := 8

  datatype ServiceError = BadFrame(error: FrameError) | Resource | Closed | WriteZero | Io

  datatype QueuedFrame = QueuedFrame(bytes: seq<Byte>, sensitive: bool)

  datatype ReadResult = ReadBytes(data: seq<Byte>) | ReadFailed | ReadPending

  datatype WriteResult = Wrote(count: nat) | WriteFailed | WritePending

  datatype PollResult = Pending | Messages(texts: seq<Text>) | Failed(error: ServiceError)

  datatype Channel = Channel(
    decoder: Decoder,
    responses: seq<QueuedFrame>,
    snapshot: Option<seq<Byte>>,
    writing: Option<QueuedFrame>,
    offset: nat,
    limit: nat,
    eof: bool)

  function Idle(limit: nat): Channel {
    Channel(Fresh(limit), [], None, None, 0, limit, false)
  }

  function QueueResponse(c: Channel, text: Text, sensitive: bool): Result<Channel, ServiceError> {
    if |c.responses| >= RESPONSE_QUEUE_LIMIT then Err(Resource)
    else match EncodeFrame(text, c.limit)
         case Err(e) => Err(BadFrame(e))
         case Ok(bytes) => Ok(c.(responses := c.responses + [QueuedFrame(bytes, sensitive)]))
  }

  function ReplaceSnapshot(c: Channel, text: Text): Result<Channel, ServiceError> {
    match EncodeFrame(text, c.limit)
    case Err(e) => Err(BadFrame(e))
    case Ok(bytes) => Ok(c.(snapshot := Some(bytes)))
  }

  /** The reading half of a poll: the new channel, and the messages or the error that ends the poll. */
  function Receive(c: Channel, read: ReadResult): (Channel, Result<seq<Text>, ServiceError>) {
    if c.eof then (c, Ok([]))
    else match read
         case ReadPending => (c, Ok([]))
         case ReadFailed => (c, Err(Io))
         case ReadBytes(data) =>
           if data == [] then (c.(eof := true), Ok([]))
           else
             var (decoder, r) := Push(c.decoder, data);
             (c.(decoder := decoder), if r.Ok? then Ok(r.value) else Err(BadFrame(r.error)))
  }

  /** Picks the next frame when none is being written: responses before the snapshot. */
  function Select(c: Channel): Channel {
    if c.writing.Some? then c
    else if c.responses != [] then
      c.(writing := Some(c.responses[0]), responses := c.responses[1..], offset := 0)
    else if c.snapshot.Some? then
      c.(writing := Some(QueuedFrame(c.snapshot.value, false)), snapshot := None, offset := 0)
    else c.(offset := 0)
  }

  /** The writing half, on a channel whose frame is selected. */
  function Transmit(c: Channel, write: WriteResult): (Channel, Option<ServiceError>) {
    if c.writing.None? then (c, None)
    else match write
         case WritePending => (c, None)
         case WriteFailed => (c, Some(Io))
         case Wrote(n) =>
           if n == 0 then (c, Some(WriteZero))
           else if c.offset + n == |c.writing.value.bytes| then (c.(writing := None, offset := 0), None)
           else (c.(offset := c.offset + n), None)
  }

  function PollChannel(c: Channel, read: ReadResult, write: WriteResult): (Channel, PollResult) {
    var (c1, received) := Receive(c, read);
    if received.Err? then (c1, Failed(received.error))
    else
      var (c2, failure) := Transmit(Select(c1), write);
      if failure.Some? then (c2, Failed(failure.value))
      else if c2.eof && c2.writing.None? && c2.responses == [] && c2.snapshot.None? then (c2, Failed(Closed))
      else (c2, if received.value == [] then Pending else Messages(received.value))
  }

  /** Bytes the stream took from this poll. */
  function Sent(c: Channel, read: ReadResult, write: WriteResult): seq<Byte> {
    var (c1, received) := Receive(c, read);
    var c2 := Select(c1);
    if received.Ok? && c2.writing.Some? && write.Wrote? && c2.offset + write.count <= |c2.writing.value.bytes|
    then c2.writing.value.bytes[c2.offset..c2.offset + write.count] else []
  }

  class SessionChannel {
    const decoder: FrameDecoder
    const limit: nat
    var responses: seq<QueuedFrame>
    var snapshot: Option<seq<Byte>>
    var writing: Option<QueuedFrame>
    var offset: nat
    var eof: bool

    ghost function View(): Channel
      reads this, decoder
    {
      Channel(decoder.View(), responses, snapshot, writing, offset, limit, eof)
    }

    constructor (limit: nat)
      requires limit > 0
      ensures View() == Idle(limit) && fresh(decoder)
    {
      decoder := new FrameDecoder(limit);
      this.limit, responses, snapshot, writing, offset, eof := limit, [], None, None, 0, false;
    }

    method Enqueue(text: Text, sensitive: bool) returns (r: Result<(), ServiceError>)
      modifies this
      ensures match QueueResponse(old(View()), text, sensitive)
              case Ok(next) => View() == next && r.Ok?
              case Err(e) => View() == old(View()) && r == Err(e)
    {
      if |responses| >= RESPONSE_QUEUE_LIMIT {
        return Err(Resource);
      }
      var encoded := EncodeFrame(text, limit);
      if encoded.Err? {
        return Err(BadFrame(encoded.error));
      }
      responses := responses + [QueuedFrame(encoded.value, sensitive)];
      return Ok(());
    }

    method OfferSnapshot(text: Text) returns (r: Result<(), ServiceError>)
      modifies this
      ensures match ReplaceSnapshot(old(View()), text)
              case Ok(next) => View() == next && r.Ok?
              case Err(e) => View() == old(View()) && r == Err(e)
    {
      var encoded := EncodeFrame(text, limit);
      if encoded.Err? {
        return Err(BadFrame(encoded.error));
      }
      snapshot := Some(encoded.value);
      return Ok(());
    }

    method ReadOnce(read: ReadResult) returns (r: Result<seq<Text>, ServiceError>)
      modifies this, decoder
      ensures (View(), r) == Receive(old(View()), read)
    {
      if eof {
        return Ok([]);
      }
      match read
      case ReadPending => return Ok([]);
      case ReadFailed => return Err(Io);
      case ReadBytes(data) =>
        if data == [] {
          eof := true;
          return Ok([]);
        }
        var decoded := decoder.PushBytes(data);
        return if decoded.Ok? then Ok(decoded.value) else Err(BadFrame(decoded.error));
    }

    method SelectFrame()
      modifies this
      ensures View() == Select(old(View()))
    {
      if writing.None? {
        if responses != [] {
          writing, responses := Some(responses[0]), responses[1..];
        } else if snapshot.Some? {
          writing, snapshot := Some(QueuedFrame(snapshot.value, false)), None;
        }
        offset := 0;
      }
    }

    method WriteOnce(write: WriteResult) returns (failure: Option<ServiceError>)
      modifies this
      ensures (View(), failure) == Transmit(old(View()), write)
    {
      if writing.None? {
        return None;
      }
      match write
      case WritePending => return None;
      case WriteFailed => return Some(Io);
      case Wrote(n) =>
        if n == 0 {
          return Some(WriteZero);
        }
        offset := offset + n;
        if offset == |writing.value.bytes| {
          writing, offset := None, 0;
        }
        return None;
    }

    method Poll(read: ReadResult, write: WriteResult) returns (r: PollResult)
      modifies this, decoder
      ensures (View(), r) == PollChannel(old(View()), read, write)
    {
      var received := ReadOnce(read);
      if received.Err? {
        return Failed(received.error);
      }
      SelectFrame();
      var failure := WriteOnce(write);
      if failure.Some? {
        return Failed(failure.value);
      }
      if eof && writing.None? && responses == [] && snapshot.None? {
        return Failed(Closed);
      }
      return if received.value == [] then Pending else Messages(received.value);
    }
  }

  // ------------------------------------------------------------------ the stream over a whole run

  /** A frame handed to the stream, and whether it was a snapshot. */
  datatype Item = Item(bytes: seq<Byte>, isSnapshot: bool)

  datatype World = World(
    channel: Channel,
    output: seq<Byte>,                // everything the stream took
    done: seq<Item>,                  // frames completely written, oldest first
    writingSnapshot: bool,            // kind of the frame being written
    accepted: seq<seq<Byte>>,         // responses whose queueing succeeded
    offered: seq<seq<Byte>>)          // snapshots whose replacement succeeded

  datatype Event =
    | Queue(text: Text, sensitive: bool)
    | Offer(text: Text)
    | PollOnce(read: ReadResult, write: WriteResult)

  /** The stream takes at most what it was given. */
  predicate Enabled(w: World, ev: Event) {
    match ev
    case PollOnce(read, write) =>
      var c := Select(Receive(w.channel, read).0);
      c.writing.Some? && write.Wrote? ==> c.offset + write.count <= |c.writing.value.bytes|
    case _ => true
  }

  function Apply(w: World, ev: Event): World {
    match ev
    case Queue(text, sensitive) =>
      (match QueueResponse(w.channel, text, sensitive)
       case Err(_) => w
       case Ok(c) => w.(channel := c, accepted := w.accepted + [EncodeFrame(text, w.channel.limit).value]))
    case Offer(text) =>
      (match ReplaceSnapshot(w.channel, text)
       case Err(_) => w
       case Ok(c) => w.(channel := c, offered := w.offered + [EncodeFrame(text, w.channel.limit).value]))
    case PollOnce(read, write) =>
      var (c1, received) := Receive(w.channel, read);
      if received.Err? then w.(channel := c1) else Written(Selected(w.(channel := c1)), write)
  }

  function Selected(w: World): World {
    w.(channel := Select(w.channel),
       writingSnapshot := if w.channel.writing.Some? then w.writingSnapshot else w.channel.responses == [])
  }

  function Written(w: World, write: WriteResult): World {
    var (c, _) := Transmit(w.channel, write);
    if w.channel.writing.None? || !write.Wrote? then w.(channel := c)
    else
      var frame := w.channel.writing.value.bytes;
      var end := Min(w.channel.offset + write.count, |frame|);
      w.(channel := c,
         output := w.output + (if w.channel.offset <= end then frame[w.channel.offset..end] else []),
         done := if c.writing.None? then w.done + [Item(frame, w.writingSnapshot)] else w.done)
  }

  /** The world step is the channel's own poll, and the output grows by what the stream took. */
  lemma PollRefines(w: World, read: ReadResult, write: WriteResult)
    requires Enabled(w, PollOnce(read, write))
    ensures Apply(w, PollOnce(read, write)).channel == PollChannel(w.channel, read, write).0
    ensures Apply(w, PollOnce(read, write)).output == w.output + Sent(w.channel, read, write)
  {
  }

  predicate Feasible(w: World, events: seq<Event>)
    decreases |events|
  {
    events == [] || (Enabled(w, events[0]) && Feasible(Apply(w, events[0]), events[1..]))
  }

  function Run(w: World, events: seq<Event>): World
    decreases |events|
  {
    if events == [] then w else Run(Apply(w, events[0]), events[1..])
  }

  function Start(limit: nat): World {
    World(Idle(limit), [], [], false, [], [])
  }

  // ------------------------------------------------------------------ invariant

  predicate IsFrame(bytes: seq<Byte>, limit: nat) {
    |bytes| > 4 && Utf8.Valid(bytes[4..]) && EncodeFrame(bytes[4..], limit) == Ok(bytes)
  }

  function BytesOf(items: seq<Item>): seq<Byte> {
    if items == [] then [] else BytesOf(items[..|items| - 1]) + items[|items| - 1].bytes
  }

  /** The frames of one kind, in the order they were written. */
  function OfKind(items: seq<Item>, snapshots: bool): seq<seq<Byte>> {
    if items == [] then []
    else OfKind(items[..|items| - 1], snapshots)
         + (if items[|items| - 1].isSnapshot == snapshots then [items[|items| - 1].bytes] else [])
  }

  function Frames(queue: seq<QueuedFrame>): seq<seq<Byte>> {
    if queue == [] then [] else [queue[0].bytes] + Frames(queue[1..])
  }

  /** `a` is `b` with some elements left out. */
  predicate Subsequence<T(==)>(a: seq<T>, b: seq<T>) {
    || a == []
    || (b != [] && a[|a| - 1] == b[|b| - 1] && Subsequence(a[..|a| - 1], b[..|b| - 1]))
    || (b != [] && Subsequence(a, b[..|b| - 1]))
  }

  /** The frames started so far, including the one being written. */
  function StartedItems(w: World): seq<Item> {
    w.done + (if w.channel.writing.Some? then [Item(w.channel.writing.value.bytes, w.writingSnapshot)] else [])
  }

  function PendingSnapshot(c: Channel): seq<seq<Byte>> {
    if c.snapshot.Some? then [c.snapshot.value] else []
  }

  ghost predicate FramesInv(w: World) {
    && (forall i :: 0 <= i < |w.done| ==> IsFrame(w.done[i].bytes, w.channel.limit))
    && (forall i :: 0 <= i < |w.channel.responses| ==> IsFrame(w.channel.responses[i].bytes, w.channel.limit))
    && (w.channel.snapshot.Some? ==> IsFrame(w.channel.snapshot.value, w.channel.limit))
    && (w.channel.writing.Some? ==> IsFrame(w.channel.writing.value.bytes, w.channel.limit))
  }

  ghost predicate OutputInv(w: World) {
    && (w.channel.writing.Some? ==> w.channel.offset < |w.channel.writing.value.bytes|)
    && w.output == BytesOf(w.done)
                   + (if w.channel.writing.Some? then w.channel.writing.value.bytes[..w.channel.offset] else [])
  }

  ghost predicate OrderInv(w: World) {
    && OfKind(StartedItems(w), false) + Frames(w.channel.responses) == w.accepted
    && Subsequence(OfKind(StartedItems(w), true) + PendingSnapshot(w.channel), w.offered)
  }

  ghost predicate Inv(w: World) {
    FramesInv(w) && OutputInv(w) && OrderInv(w)
  }

  lemma {:induction false} SubsequenceDrop<T>(a: seq<T>, b: seq<T>)
    requires a != [] && Subsequence(a, b)
    ensures Subsequence(a[..|a| - 1], b)
    decreases |b|
  {
    if !(a[|a| - 1] == b[|b| - 1] && Subsequence(a[..|a| - 1], b[..|b| - 1])) {
      SubsequenceDrop(a, b[..|b| - 1]);
    }
  }

  lemma DropTail<T>(a: seq<T>, tail: seq<T>, b: seq<T>)
    requires |tail| <= 1 && Subsequence(a + tail, b)
    ensures Subsequence(a, b)
  {
    if tail == [] {
      assert a + tail == a;
    } else {
      assert (a + tail)[..|a + tail| - 1] == a;
      SubsequenceDrop(a + tail, b);
    }
  }

  lemma SubsequenceSnoc<T>(a: seq<T>, b: seq<T>, x: T)
    requires Subsequence(a, b)
    ensures Subsequence(a + [x], b + [x])
  {
    assert (a + [x])[..|a|] == a && (b + [x])[..|b|] == b;
  }

  lemma OfKindSnoc(items: seq<Item>, item: Item, snapshots: bool)
    ensures OfKind(items + [item], snapshots)
            == OfKind(items, snapshots) + (if item.isSnapshot == snapshots then [item.bytes] else [])
  {
    assert (items + [item])[..|items|] == items;
  }

  lemma {:induction false} FramesSnoc(queue: seq<QueuedFrame>, f: QueuedFrame)
    ensures Frames(queue + [f]) == Frames(queue) + [f.bytes]
  {
    if queue == [] {
      assert queue + [f] == [f] && [f][1..] == [];
    } else {
      assert (queue + [f])[1..] == queue[1..] + [f];
      FramesSnoc(queue[1..], f);
    }
  }

  lemma EncodedIsFrame(text: Text, limit: nat)
    requires EncodeFrame(text, limit).Ok?
    ensures IsFrame(EncodeFrame(text, limit).value, limit)
  {
    assert EncodeFrame(text, limit).value[4..] == text;
  }

  lemma QueueKeeps(w: World, text: Text, sensitive: bool)
    requires Inv(w)
    ensures Inv(Apply(w, Queue(text, sensitive)))
  {
    if QueueResponse(w.channel, text, sensitive).Ok? {
      EncodedIsFrame(text, w.channel.limit);
      FramesSnoc(w.channel.responses, QueuedFrame(EncodeFrame(text, w.channel.limit).value, sensitive));
      assert StartedItems(Apply(w, Queue(text, sensitive))) == StartedItems(w);
    }
  }

  lemma OfferKeeps(w: World, text: Text)
    requires Inv(w)
    ensures Inv(Apply(w, Offer(text)))
  {
    if ReplaceSnapshot(w.channel, text).Ok? {
      EncodedIsFrame(text, w.channel.limit);
      var bytes := EncodeFrame(text, w.channel.limit).value;
      var started := OfKind(StartedItems(w), true);
      DropTail(started, PendingSnapshot(w.channel), w.offered);
      SubsequenceSnoc(started, w.offered, bytes);
      assert StartedItems(Apply(w, Offer(text))) == StartedItems(w);
    }
  }

  lemma SelectKeeps(w: World)
    requires Inv(w)
    ensures Inv(Selected(w))
  {
    SelectKeepsOrder(w);
    SelectKeepsFrames(w);
  }

  lemma SelectKeepsFrames(w: World)
    requires FramesInv(w) && OutputInv(w)
    ensures FramesInv(Selected(w)) && OutputInv(Selected(w))
  {
    var next := Selected(w).channel;
    if next.writing.Some? {
      assert next.writing.value.bytes[..0] == [];
      assert IsFrame(next.writing.value.bytes, w.channel.limit);
    }
  }

  lemma SelectKeepsOrder(w: World)
    requires OrderInv(w)
    ensures OrderInv(Selected(w))
  {
    if w.channel.writing.None? && w.channel.responses != [] {
      SelectResponseKeepsOrder(w);
    } else if w.channel.writing.None? && w.channel.snapshot.Some? {
      SelectSnapshotKeepsOrder(w);
    } else {
      assert StartedItems(Selected(w)) == StartedItems(w);
    }
  }

  lemma SelectResponseKeepsOrder(w: World)
    requires OrderInv(w) && w.channel.writing.None? && w.channel.responses != []
    ensures OrderInv(Selected(w))
  {
    var head, rest := w.channel.responses[0].bytes, Frames(w.channel.responses[1..]);
    var next := Selected(w);
    assert StartedItems(w) == w.done && StartedItems(next) == w.done + [Item(head, false)];
    OfKindSnoc(w.done, Item(head, false), false);
    OfKindSnoc(w.done, Item(head, false), true);
    var replies := OfKind(w.done, false);
    assert w.accepted == replies + ([head] + rest) == replies + [head] + rest;
    assert OfKind(StartedItems(next), true) == OfKind(w.done, true);
    assert PendingSnapshot(next.channel) == PendingSnapshot(w.channel);
  }

  lemma SelectSnapshotKeepsOrder(w: World)
    requires OrderInv(w) && w.channel.writing.None? && w.channel.responses == [] && w.channel.snapshot.Some?
    ensures OrderInv(Selected(w))
  {
    var bytes := w.channel.snapshot.value;
    var next := Selected(w);
    assert StartedItems(w) == w.done && StartedItems(next) == w.done + [Item(bytes, true)];
    OfKindSnoc(w.done, Item(bytes, true), false);
    OfKindSnoc(w.done, Item(bytes, true), true);
    assert OfKind(StartedItems(next), false) == OfKind(w.done, false);
    assert OfKind(w.done, true) + [bytes] + [] == OfKind(w.done, true) + [bytes];
  }

  lemma WriteKeeps(w: World, write: WriteResult)
    requires Inv(w)
    requires w.channel.writing.Some? && write.Wrote? ==> w.channel.offset + write.count <= |w.channel.writing.value.bytes|
    ensures Inv(Written(w, write))
  {
    WriteKeepsOutput(w, write);
    WriteKeepsFrames(w, write);
    WriteKeepsOrder(w, write);
  }

  lemma WriteKeepsOrder(w: World, write: WriteResult)
    requires OrderInv(w)
    ensures OrderInv(Written(w, write))
  {
    WriteKeepsStarted(w, write);
    var next := Written(w, write);
    assert next.channel.responses == w.channel.responses && next.channel.snapshot == w.channel.snapshot;
  }

  lemma WriteKeepsStarted(w: World, write: WriteResult)
    ensures StartedItems(Written(w, write)) == StartedItems(w)
  {
  }

  lemma WriteKeepsFrames(w: World, write: WriteResult)
    requires FramesInv(w)
    ensures FramesInv(Written(w, write))
  {
  }

  lemma WriteKeepsOutput(w: World, write: WriteResult)
    requires OutputInv(w)
    requires w.channel.writing.Some? && write.Wrote? ==> w.channel.offset + write.count <= |w.channel.writing.value.bytes|
    ensures OutputInv(Written(w, write))
  {
    if w.channel.writing.Some? && write.Wrote? {
      var frame := w.channel.writing.value.bytes;
      var end := w.channel.offset + write.count;
      PieceExtends(BytesOf(w.done), frame, w.channel.offset, end);
      BytesOfSnoc(w.done, Item(frame, w.writingSnapshot));
    }
  }

  lemma PieceExtends(before: seq<Byte>, frame: seq<Byte>, from: nat, end: nat)
    requires from <= end <= |frame|
    ensures before + frame[..from] + frame[from..end] == before + frame[..end]
    ensures frame[..|frame|] == frame
  {
    assert frame[..from] + frame[from..end] == frame[..end];
  }

  lemma BytesOfSnoc(items: seq<Item>, item: Item)
    ensures BytesOf(items + [item]) == BytesOf(items) + item.bytes
  {
    assert (items + [item])[..|items|] == items;
  }

  lemma ReceiveKeeps(w: World, read: ReadResult)
    requires Inv(w)
    ensures Inv(w.(channel := Receive(w.channel, read).0))
  {
    var next := w.(channel := Receive(w.channel, read).0);
    assert next.channel == w.channel.(decoder := next.channel.decoder, eof := next.channel.eof);
    assert StartedItems(next) == StartedItems(w);
  }

  lemma PollKeeps(w: World, read: ReadResult, write: WriteResult)
    requires Inv(w) && Enabled(w, PollOnce(read, write))
    ensures Inv(Apply(w, PollOnce(read, write)))
  {
    ReceiveKeeps(w, read);
    var (c1, received) := Receive(w.channel, read);
    if received.Ok? {
      var w1 := w.(channel := c1);
      SelectKeeps(w1);
      WriteKeeps(Selected(w1), write);
    }
  }

  lemma StepKeeps(w: World, ev: Event)
    requires Inv(w) && Enabled(w, ev)
    ensures Inv(Apply(w, ev))
  {
    match ev
    case Queue(text, sensitive) => QueueKeeps(w, text, sensitive);
    case Offer(text) => OfferKeeps(w, text);
    case PollOnce(read, write) => PollKeeps(w, read, write);
  }

  lemma StepKeepsLimit(w: World, ev: Event)
    ensures Apply(w, ev).channel.limit == w.channel.limit
  {
  }

  lemma {:induction false} RunKeeps(w: World, events: seq<Event>)
    requires Inv(w) && Feasible(w, events)
    ensures Inv(Run(w, events)) && Run(w, events).channel.limit == w.channel.limit
    decreases |events|
  {
    if events != [] {
      StepKeeps(w, events[0]);
      StepKeepsLimit(w, events[0]);
      RunKeeps(Apply(w, events[0]), events[1..]);
    }
  }

  // ------------------------------------------------------------------ what the peer sees

  /** The texts of complete frames. */
  function TextsOf(items: seq<Item>, limit: nat): (texts: seq<Text>)
    requires forall i :: 0 <= i < |items| ==> IsFrame(items[i].bytes, limit)
    ensures |texts| == |items| && AllEncodable(texts, limit)
  {
    if items == [] then []
    else
      var last := items[|items| - 1];
      assert IsFrame(last.bytes, limit);
      TextsOf(items[..|items| - 1], limit) + [last.bytes[4..]]
  }

  lemma {:induction false} BytesAreEncodings(items: seq<Item>, limit: nat)
    requires forall i :: 0 <= i < |items| ==> IsFrame(items[i].bytes, limit)
    ensures BytesOf(items) == EncodeAll(TextsOf(items, limit), limit)
  {
    if items != [] {
      var front, last := items[..|items| - 1], items[|items| - 1];
      BytesAreEncodings(front, limit);
      EncodeAllSnoc(TextsOf(front, limit), last.bytes[4..], limit);
    }
  }

  /**
   * The policy stream end to end.  However the channel was used and however the network cuts its
   * output, the peer's decoder never fails and yields exactly the frames completely written, in
   * order.  The responses among them are the first accepted ones, none missing and none
   * reordered, and the snapshots are an in-order selection of those offered.
   */
  lemma PeerDecodesStream(limit: nat, events: seq<Event>, chunks: seq<seq<Byte>>)
    requires limit > 0 && Feasible(Start(limit), events)
    requires Flatten(chunks) == Run(Start(limit), events).output
    ensures var w := Run(Start(limit), events);
            && (forall i :: 0 <= i < |w.done| ==> IsFrame(w.done[i].bytes, limit))
            && PushAll(Fresh(limit), chunks).1 == Ok(TextsOf(w.done, limit))
            && IsPrefix(OfKind(w.done, false), w.accepted)
            && Subsequence(OfKind(w.done, true), w.offered)
  {
    RunKeeps(Start(limit), events);
    var w := Run(Start(limit), events);
    ChunksDoNotMatter(Fresh(limit), chunks);
    OutputDecodes(w);
    DoneIsInOrder(w);
  }

  lemma OutputDecodes(w: World)
    requires FramesInv(w) && OutputInv(w)
    ensures Push(Fresh(w.channel.limit), w.output).1 == Ok(TextsOf(w.done, w.channel.limit))
  {
    var limit := w.channel.limit;
    BytesAreEncodings(w.done, limit);
    var texts := TextsOf(w.done, limit);
    var rest := if w.channel.writing.Some? then w.channel.writing.value.bytes[..w.channel.offset] else [];
    DecodesAll(texts, limit, rest);
    if w.channel.writing.Some? {
      PartialFrame(w.channel.writing.value.bytes[4..], limit, w.channel.offset);
    }
    assert texts + [] == texts;
  }

  lemma DoneIsInOrder(w: World)
    requires OrderInv(w)
    ensures IsPrefix(OfKind(w.done, false), w.accepted)
    ensures Subsequence(OfKind(w.done, true), w.offered)
  {
    DropTail(OfKind(StartedItems(w), true), PendingSnapshot(w.channel), w.offered);
    StartedKind(w, true);
    DropTail(OfKind(w.done, true), Current(w, true), w.offered);
    StartedKind(w, false);
  }

  /** The frame being written, if it is of the given kind. */
  function Current(w: World, snapshots: bool): seq<seq<Byte>> {
    if w.channel.writing.Some? && w.writingSnapshot == snapshots then [w.channel.writing.value.bytes] else []
  }

  lemma StartedKind(w: World, snapshots: bool)
    ensures OfKind(StartedItems(w), snapshots) == OfKind(w.done, snapshots) + Current(w, snapshots)
  {
    if w.channel.writing.Some? {
      OfKindSnoc(w.done, Item(w.channel.writing.value.bytes, w.writingSnapshot), snapshots);
    } else {
      assert StartedItems(w) == w.done;
      assert OfKind(w.done, snapshots) + [] == OfKind(w.done, snapshots);
    }
  }

  /** When nothing is left to write, every accepted response has been delivered. */
  lemma DrainedMeansDelivered(limit: nat, events: seq<Event>)
    requires limit > 0 && Feasible(Start(limit), events)
    requires var c := Run(Start(limit), events).channel; c.writing.None? && c.responses == []
    ensures OfKind(Run(Start(limit), events).done, false) == Run(Start(limit), events).accepted
  {
    RunKeeps(Start(limit), events);
    var w := Run(Start(limit), events);
    assert StartedItems(w) == w.done;
  }
}
