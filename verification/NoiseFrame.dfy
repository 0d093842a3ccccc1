/**
 * Framing of the Noise record layer: a two-byte length, the `FrameReader` that never asks for more
 * than the current frame still needs, and the loops that drive a lower byte stream which may accept
 * or deliver any part of a buffer, stall, end or fail.
 */
module NoiseFrame {
  import opened Basics

  /** What one call of the lower stream answers. */
  datatype Answer = Progress(count: nat) | Pending | Eof | Failed

  // ------------------------------------------------------------------ one frame

  function FrameBytes(message: seq<Byte>): seq<Byte>
    requires |message| < 0x1_0000
  {
    [|message| / 256, |message| % 256] + message
  }

  /** `frame`: empty and oversized messages are refused. */
  function Frame(message: seq<Byte>, limit: nat): Option<seq<Byte>> {
    if message == [] || |message| > limit || |message| > 0xffff then None else Some(FrameBytes(message))
  }

  function Header(data: seq<Byte>): nat
    requires |data| >= 2
  {
    (data[0] as int) * 256 + data[1]
  }

  lemma HeaderReadsBack(message: seq<Byte>, data: seq<Byte>)
    requires |message| < 0x1_0000 && 2 <= |data| <= |message| + 2 && data == FrameBytes(message)[..|data|]
    ensures Header(data) == |message|
  {
    assert data[0] == FrameBytes(message)[0] && data[1] == FrameBytes(message)[1];
  }

  // ------------------------------------------------------------------ the reader's own steps

  datatype FrameReader = FrameReader(data: seq<Byte>, expected: Option<nat>)

  const FRESH := FrameReader([], None)

  predicate BadLength(length: nat, limit: nat) {
    length == 0 || length > limit
  }

  /** `push`: the bytes stay in the reader even when the header they complete is refused. */
  function Push(r: FrameReader, input: seq<Byte>, limit: nat): (FrameReader, bool) {
    if |r.data| + |input| > limit + 2 then (r, false)
    else
      var data := r.data + input;
      if r.expected.None? && |data| >= 2 then
        if BadLength(Header(data), limit) then (FrameReader(data, None), false)
        else (FrameReader(data, Some(Header(data) + 2)), true)
      else (FrameReader(data, r.expected), true)
  }

  function Take(r: FrameReader): (FrameReader, Option<seq<Byte>>) {
    if r.expected.None? || |r.data| != r.expected.value || r.expected.value < 2 then (r, None)
    else (FRESH, Some(r.data[2..]))
  }

  function RemainingCapacity(r: FrameReader, limit: nat): nat {
    if r.expected.Some? then SatSub(r.expected.value, |r.data|)
    else Min(SatSub(2, |r.data|), limit + 2)
  }

  // ------------------------------------------------------------------ the loops over the lower stream

  datatype ReadError = BadFrame | EndOfStream | IoError
  datatype ReadStatus = Got(message: seq<Byte>) | Stalled | Broken(error: ReadError)
  datatype ReadOutcome = ReadOutcome(reader: FrameReader, wire: seq<Byte>, status: ReadStatus)

  /**
   * The loop of `read_frame`.  `wire` holds the bytes the lower stream has ready: an answer
   * Progress(c) hands over at most that many of them, and with none ready the stream stalls.
   */
  function ReadLoop(r: FrameReader, wire: seq<Byte>, limit: nat, answers: seq<Answer>): ReadOutcome
    decreases |answers|
  {
    var capacity := RemainingCapacity(r, limit);
    if capacity == 0 then ReadOutcome(r, wire, Broken(BadFrame))
    else if answers == [] then ReadOutcome(r, wire, Stalled)
    else match answers[0]
         case Pending => ReadOutcome(r, wire, Stalled)
         case Eof => ReadOutcome(r, wire, Broken(EndOfStream))
         case Failed => ReadOutcome(r, wire, Broken(IoError))
         case Progress(count) =>
           if count > capacity || count == 0 then ReadOutcome(r, wire, Broken(IoError))
           else if wire == [] then ReadOutcome(r, wire, Stalled)
           else
             var got := Min(count, |wire|);
             var (pushed, ok) := Push(r, wire[..got], limit);
             var (taken, message) := Take(pushed);
             if !ok then ReadOutcome(pushed, wire[got..], Broken(BadFrame))
             else if message.Some? then ReadOutcome(taken, wire[got..], Got(message.value))
             else ReadLoop(taken, wire[got..], limit, answers[1..])
  }

  function ReadFrame(r: FrameReader, wire: seq<Byte>, limit: nat, answers: seq<Answer>): ReadOutcome {
    var (taken, message) := Take(r);
    if message.Some? then ReadOutcome(taken, wire, Got(message.value)) else ReadLoop(taken, wire, limit, answers)
  }

  datatype FlushStatus = Flushed | Waiting | FlushFailed
  datatype FlushOutcome = FlushOutcome(offset: nat, status: FlushStatus)

  /** The loop of `flush_bytes`. */
  function FlushLoop(size: nat, offset: nat, answers: seq<Answer>): (r: FlushOutcome)
    requires offset <= size
    ensures offset <= r.offset <= size && (r.status.Flushed? <==> r.offset == size)
    decreases |answers|
  {
    if offset == size then FlushOutcome(offset, Flushed)
    else if answers == [] then FlushOutcome(offset, Waiting)
    else match answers[0]
         case Pending => FlushOutcome(offset, Waiting)
         case Progress(count) =>
           if 0 < count <= size - offset then FlushLoop(size, offset + count, answers[1..])
           else FlushOutcome(offset, FlushFailed)
         case _ => FlushOutcome(offset, FlushFailed)
  }

  // ------------------------------------------------------------------ any peer: when the reader is stuck

  /** Waiting for a header, or for the rest of a frame whose length was accepted. */
  predicate Healthy(r: FrameReader, limit: nat) {
    match r.expected
    case None => |r.data| < 2
    case Some(e) => 2 <= |r.data| < e && e == Header(r.data) + 2 && !BadLength(Header(r.data), limit)
  }

  /** Exactly a refused header has been read. */
  predicate Poisoned(r: FrameReader, limit: nat) {
    r.expected.None? && |r.data| == 2 && BadLength(Header(r.data), limit)
  }

  lemma CapacityZeroIff(r: FrameReader, limit: nat)
    requires Healthy(r, limit) || Poisoned(r, limit)
    ensures RemainingCapacity(r, limit) == 0 <==> Poisoned(r, limit)
    ensures Take(r).1.None?
  {
  }

  lemma PushKeepsHealth(r: FrameReader, input: seq<Byte>, limit: nat)
    requires Healthy(r, limit) && 0 < |input| <= RemainingCapacity(r, limit)
    ensures var (pushed, ok) := Push(r, input, limit);
            && (!ok <==> Poisoned(pushed, limit))
            && (ok ==> Healthy(Take(pushed).0, limit))
  {
    var (pushed, ok) := Push(r, input, limit);
    if r.expected.Some? {
      assert Header(pushed.data) == Header(r.data);
    }
  }

  lemma {:induction false} LoopKeepsHealth(r: FrameReader, wire: seq<Byte>, limit: nat, answers: seq<Answer>)
    requires Healthy(r, limit) || Poisoned(r, limit)
    ensures var o := ReadLoop(r, wire, limit, answers);
            && (Healthy(o.reader, limit) || Poisoned(o.reader, limit))
            && (o.status == Broken(BadFrame) <==> Poisoned(o.reader, limit))
    decreases |answers|
  {
    CapacityZeroIff(r, limit);
    if Healthy(r, limit) && answers != [] && answers[0].Progress? {
      var count := answers[0].count;
      if 0 < count <= RemainingCapacity(r, limit) && wire != [] {
        var got := Min(count, |wire|);
        PushKeepsHealth(r, wire[..got], limit);
        var (pushed, ok) := Push(r, wire[..got], limit);
        if ok && Take(pushed).1.None? {
          LoopKeepsHealth(Take(pushed).0, wire[got..], limit, answers[1..]);
        }
      }
    }
  }

  /** One call of `read_frame`: the bytes ready at the lower stream and its answers. */
  datatype Call = Call(wire: seq<Byte>, answers: seq<Answer>)

  function Calls(r: FrameReader, limit: nat, calls: seq<Call>): FrameReader
    decreases |calls|
  {
    if calls == [] then r
    else Calls(ReadFrame(r, calls[0].wire, limit, calls[0].answers).reader, limit, calls[1..])
  }

  lemma {:induction false} CallsKeepHealth(r: FrameReader, limit: nat, calls: seq<Call>)
    requires Healthy(r, limit) || Poisoned(r, limit)
    ensures var v := Calls(r, limit, calls); Healthy(v, limit) || Poisoned(v, limit)
    decreases |calls|
  {
    if calls != [] {
      CapacityZeroIff(r, limit);
      LoopKeepsHealth(r, calls[0].wire, limit, calls[0].answers);
      CallsKeepHealth(ReadFrame(r, calls[0].wire, limit, calls[0].answers).reader, limit, calls[1..]);
    }
  }

  /**
   * Against any peer and any lower stream, after any calls of `read_frame`: it asks for a buffer of
   * size zero exactly when the reader holds a refused header, and then every further call reports the
   * bad frame without reading a byte.
   */
  lemma ZeroCapacityMeansBadHeader(limit: nat, calls: seq<Call>, next: Call)
    ensures var r := Calls(FRESH, limit, calls);
            var o := ReadFrame(r, next.wire, limit, next.answers);
            && (RemainingCapacity(r, limit) == 0 <==> |r.data| == 2 && r.expected.None? && BadLength(Header(r.data), limit))
            && (RemainingCapacity(r, limit) == 0 ==> o == ReadOutcome(r, next.wire, Broken(BadFrame)))
            && (o.status == Broken(BadFrame) ==> RemainingCapacity(o.reader, limit) == 0)
  {
    CallsKeepHealth(FRESH, limit, calls);
    var r := Calls(FRESH, limit, calls);
    CapacityZeroIff(r, limit);
    LoopKeepsHealth(r, next.wire, limit, next.answers);
    CapacityZeroIff(ReadFrame(r, next.wire, limit, next.answers).reader, limit);
  }

  // ------------------------------------------------------------------ an honest peer: exactly the frame, no more

  predicate Partial(r: FrameReader, message: seq<Byte>) {
    match r.expected
    case None => |r.data| < 2
    case Some(e) => e == |message| + 2 && 2 <= |r.data| < e
  }

  predicate Fits(message: seq<Byte>, limit: nat) {
    0 < |message| <= limit && |message| < 0x1_0000
  }

  /** What the reader holds, what is on the wire and what is still to come make up this frame and a rest. */
  predicate Ahead(r: FrameReader, wire: seq<Byte>, more: seq<Byte>, message: seq<Byte>, rest: seq<Byte>)
    requires |message| < 0x1_0000
  {
    r.data + wire + more == FrameBytes(message) + rest && Partial(r, message)
  }

  lemma DataIsFrontOfFrame(data: seq<Byte>, after: seq<Byte>, message: seq<Byte>, rest: seq<Byte>)
    requires |message| < 0x1_0000 && data + after == FrameBytes(message) + rest && |data| <= |message| + 2
    ensures data == FrameBytes(message)[..|data|]
  {
    assert (data + after)[..|data|] == data;
    assert (FrameBytes(message) + rest)[..|data|] == FrameBytes(message)[..|data|];
  }

  lemma PushAdvances(r: FrameReader, wire: seq<Byte>, more: seq<Byte>, message: seq<Byte>, rest: seq<Byte>, limit: nat, got: nat)
    requires Fits(message, limit) && Ahead(r, wire, more, message, rest)
    requires 0 < got <= RemainingCapacity(r, limit) && got <= |wire|
    ensures var (pushed, ok) := Push(r, wire[..got], limit);
            && ok
            && pushed.data == r.data + wire[..got] && |pushed.data| <= |message| + 2
            && pushed.data + wire[got..] + more == FrameBytes(message) + rest
            && (|pushed.data| < |message| + 2 ==> Partial(pushed, message))
            && (|pushed.data| == |message| + 2 ==> pushed.expected == Some(|message| + 2))
  {
    var data := r.data + wire[..got];
    assert data + (wire[got..] + more) == r.data + wire + more;
    assert data + wire[got..] + more == data + (wire[got..] + more);
    DataIsFrontOfFrame(data, wire[got..] + more, message, rest);
    if |data| >= 2 {
      HeaderReadsBack(message, data);
    }
  }

  lemma WholeFrameTaken(pushed: FrameReader, after: seq<Byte>, message: seq<Byte>, rest: seq<Byte>)
    requires |message| < 0x1_0000 && pushed.data + after == FrameBytes(message) + rest
    requires |pushed.data| == |message| + 2 && pushed.expected == Some(|message| + 2)
    ensures Take(pushed) == (FRESH, Some(message)) && after == rest
  {
    DataIsFrontOfFrame(pushed.data, after, message, rest);
    assert pushed.data == FrameBytes(message);
    assert FrameBytes(message)[2..] == message;
    assert (pushed.data + after)[|pushed.data|..] == after;
    assert (FrameBytes(message) + rest)[|pushed.data|..] == rest;
  }

  /** What `read_frame` promises on a stream that starts with a well-formed frame. */
  predicate ExactRead(o: ReadOutcome, more: seq<Byte>, message: seq<Byte>, rest: seq<Byte>)
    requires |message| < 0x1_0000
  {
    match o.status
    case Got(m) => m == message && o.reader == FRESH && o.wire + more == rest
    case Stalled => Ahead(o.reader, o.wire, more, message, rest)
    case Broken(error) => error != BadFrame && Ahead(o.reader, o.wire, more, message, rest)
  }

  lemma {:induction false} LoopReadsExactly(r: FrameReader, wire: seq<Byte>, more: seq<Byte>, message: seq<Byte>,
                                            rest: seq<Byte>, limit: nat, answers: seq<Answer>)
    requires Fits(message, limit) && Ahead(r, wire, more, message, rest)
    ensures ExactRead(ReadLoop(r, wire, limit, answers), more, message, rest)
    decreases |answers|
  {
    if answers != [] && answers[0].Progress? {
      var count := answers[0].count;
      if 0 < count <= RemainingCapacity(r, limit) && wire != [] {
        var got := Min(count, |wire|);
        PushAdvances(r, wire, more, message, rest, limit, got);
        var pushed := Push(r, wire[..got], limit).0;
        if |pushed.data| == |message| + 2 {
          assert pushed.data + (wire[got..] + more) == pushed.data + wire[got..] + more;
          WholeFrameTaken(pushed, wire[got..] + more, message, rest);
        } else {
          LoopReadsExactly(pushed, wire[got..], more, message, rest, limit, answers[1..]);
        }
      }
    }
  }

  /**
   * Every read schedule takes exactly the frame: the message comes out whole, the reader is left empty
   * and not one byte behind the frame has been consumed.
   */
  lemma ReadsExactly(r: FrameReader, wire: seq<Byte>, more: seq<Byte>, message: seq<Byte>, rest: seq<Byte>,
                     limit: nat, answers: seq<Answer>)
    requires Fits(message, limit) && Ahead(r, wire, more, message, rest)
    ensures ExactRead(ReadFrame(r, wire, limit, answers), more, message, rest)
  {
    LoopReadsExactly(r, wire, more, message, rest, limit, answers);
  }

  /** A whole frame ready on the wire is read in two answers. */
  lemma ReadsWhole(message: seq<Byte>, limit: nat)
    requires Fits(message, limit)
    ensures ReadFrame(FRESH, FrameBytes(message), limit, [Progress(2), Progress(|message|)])
            == ReadOutcome(FRESH, [], Got(message))
  {
    var wire, answers := FrameBytes(message), [Progress(2), Progress(|message|)];
    var held := FrameReader(wire[..2], Some(|message| + 2));
    assert [] + wire[..2] == wire[..2] && answers[1..] == [Progress(|message|)];
    HeaderReadsBack(message, wire[..2]);
    assert ReadFrame(FRESH, wire, limit, answers) == ReadLoop(held, wire[2..], limit, answers[1..]);
    assert wire[2..] == message && wire[..2] + message == wire;
    assert message[..|message|] == message && message[|message|..] == [];
  }

  /** One byte of a frame and the end of the stream: the byte stays in the reader. */
  lemma EndsInHeader(wire: seq<Byte>, limit: nat)
    requires |wire| == 1
    ensures ReadFrame(FRESH, wire, limit, [Progress(1), Eof])
            == ReadOutcome(FrameReader(wire, None), [], Broken(EndOfStream))
  {
    var answers := [Progress(1), Eof];
    assert [] + wire[..1] == wire && wire[1..] == [] && answers[1..] == [Eof];
    assert ReadFrame(FRESH, wire, limit, answers) == ReadLoop(FrameReader(wire, None), [], limit, answers[1..]);
  }

  /** With nothing on the wire and nothing buffered, nothing happens. */
  lemma ReadsNothing(limit: nat, answers: seq<Answer>)
    ensures var o := ReadFrame(FRESH, [], limit, answers);
            o.reader == FRESH && o.wire == [] && !o.status.Got? && o.status != Broken(BadFrame)
  {
  }

  // ------------------------------------------------------------------ in place

  /** `FrameReader` with its fields, and the loops as they run. */
  class FrameBuffer {
    var data: seq<Byte>
    var expected: Option<nat>

    ghost function View(): FrameReader
      reads this
    {
      FrameReader(data, expected)
    }

    constructor ()
      ensures View() == FRESH
    {
      data, expected := [], None;
    }

    method PushBytes(input: seq<Byte>, limit: nat) returns (ok: bool)
      modifies this
      ensures (View(), ok) == Push(old(View()), input, limit)
    {
      if |data| + |input| > limit + 2 {
        return false;
      }
      data := data + input;
      if expected.None? && |data| >= 2 {
        var length := (data[0] as int) * 256 + data[1];
        if length == 0 || length > limit {
          return false;
        }
        expected := Some(length + 2);
      }
      return true;
    }

    method TakeFrame() returns (message: Option<seq<Byte>>)
      modifies this
      ensures (View(), message) == Take(old(View()))
    {
      if expected.None? || |data| != expected.value || expected.value < 2 {
        return None;
      }
      message := Some(data[2..]);
      data, expected := [], None;
    }

    method Capacity(limit: nat) returns (capacity: nat)
      ensures capacity == RemainingCapacity(View(), limit)
    {
      capacity := if expected.Some? then SatSub(expected.value, |data|) else Min(SatSub(2, |data|), limit + 2);
    }

    /** One lower read and what it leads to; None when the loop goes on. */
    method ReadOnce(wire: seq<Byte>, limit: nat, answer: Answer) returns (left: seq<Byte>, status: Option<ReadStatus>)
      requires RemainingCapacity(View(), limit) > 0
      modifies this
      ensures forall more: seq<Answer> {:trigger [answer] + more} ::
                ReadLoop(old(View()), wire, limit, [answer] + more)
                == if status.Some? then ReadOutcome(View(), left, status.value) else ReadLoop(View(), left, limit, more)
    {
      assert forall more: seq<Answer> :: ([answer] + more)[1..] == more && ([answer] + more)[0] == answer;
      left := wire;
      var capacity := Capacity(limit);
      match answer
      case Pending => status := Some(Stalled);
      case Eof => status := Some(Broken(EndOfStream));
      case Failed => status := Some(Broken(IoError));
      case Progress(count) =>
        if count > capacity || count == 0 {
          status := Some(Broken(IoError));
        } else if wire == [] {
          status := Some(Stalled);
        } else {
          var got := Min(count, |wire|);
          var ok := PushBytes(wire[..got], limit);
          left := wire[got..];
          if !ok {
            status := Some(Broken(BadFrame));
          } else {
            var message := TakeFrame();
            status := if message.Some? then Some(Got(message.value)) else None;
          }
        }
    }

    method ReadFrameLoop(wire: seq<Byte>, limit: nat, answers: seq<Answer>) returns (left: seq<Byte>, status: ReadStatus)
      modifies this
      ensures ReadOutcome(View(), left, status) == ReadFrame(old(View()), wire, limit, answers)
    {
      var taken := TakeFrame();
      left := wire;
      if taken.Some? {
        status := Got(taken.value);
        return;
      }
      var i := 0;
      ghost var whole := ReadLoop(View(), wire, limit, answers);
      while true
        invariant i <= |answers| && ReadLoop(View(), left, limit, answers[i..]) == whole
        decreases |answers| - i
      {
        var capacity := Capacity(limit);
        if capacity == 0 {
          return left, Broken(BadFrame);
        }
        if i == |answers| {
          return left, Stalled;
        }
        assert answers[i..] == [answers[i]] + answers[i + 1..];
        var next: Option<ReadStatus>;
        left, next := ReadOnce(left, limit, answers[i]);
        if next.Some? {
          return left, next.value;
        }
        i := i + 1;
      }
    }
  }

  /** `flush_bytes`: returns what the lower stream took. */
  method FlushBytes(bytes: seq<Byte>, start: nat, answers: seq<Answer>) returns (offset: nat, sent: seq<Byte>, status: FlushStatus)
    requires start <= |bytes|
    ensures FlushOutcome(offset, status) == FlushLoop(|bytes|, start, answers)
    ensures start <= offset <= |bytes| && sent == bytes[start..offset]
  {
    offset, sent := start, [];
    var i := 0;
    while offset < |bytes|
      invariant start <= offset <= |bytes| && sent == bytes[start..offset] && i <= |answers|
      invariant FlushLoop(|bytes|, offset, answers[i..]) == FlushLoop(|bytes|, start, answers)
      decreases |bytes| - offset
    {
      if i == |answers| {
        return offset, sent, Waiting;
      }
      match answers[i] {
        case Pending => return offset, sent, Waiting;
        case Progress(count) =>
          if !(0 < count <= |bytes| - offset) {
            return offset, sent, FlushFailed;
          }
          assert answers[i..][1..] == answers[i + 1..];
          sent := sent + bytes[offset..offset + count];
          offset := offset + count;
        case _ => return offset, sent, FlushFailed;
      }
      i := i + 1;
    }
    status := Flushed;
  }
}
