/** The length-prefixed frames of the policy stream: encoder, incremental decoder and their laws. */
module Frame {
  import opened Basics
  import Utf8

  const U32_MAX := 0xffff_ffff

  datatype FrameError = Length | Utf8Error

  type Text = s: seq<Byte> | Utf8.Valid(s) witness []

  function ToBe32(n: int): (b: seq<Byte>)
    requires 0 <= n <= U32_MAX
    ensures |b| == 4
  {
    var a := n / 256;
    var b := a / 256;
    [b / 256, b % 256, a % 256, n % 256]
  }

  function FromBe32(b: seq<Byte>): (n: int)
    requires |b| == 4
    ensures 0 <= n <= U32_MAX
  {
    (((b[0] as int) * 256 + b[1]) * 256 + b[2]) * 256 + b[3]
  }

  lemma Be32RoundTrip(n: int)
    requires 0 <= n <= U32_MAX
    ensures FromBe32(ToBe32(n)) == n
  {
  }

  function EncodeFrame(text: Text, limit: nat): Result<seq<Byte>, FrameError> {
    if text == [] || |text| > limit || |text| > U32_MAX then Err(Length)
    else Ok(ToBe32(|text|) + text)
  }

  // ------------------------------------------------------------------ decoder

  datatype Decoder = Decoder(buffer: seq<Byte>, expected: Option<nat>, limit: nat)

  datatype Fed = Quiet | Delivered(text: Text) | Bad(error: FrameError)

  function Fresh(limit: nat): Decoder {
    Decoder([], None, limit)
  }

  predicate BadLength(d: Decoder)
    requires |d.buffer| >= 4
  {
    var length := FromBe32(d.buffer[..4]);
    length == 0 || length > d.limit
  }

  /** One turn of the loop in `push`. */
  function Feed(d: Decoder, byte: Byte): (Decoder, Fed) {
    if |d.buffer| >= d.limit + 4 then
      (d, Bad(Length))
    else
      var d1 := d.(buffer := d.buffer + [byte]);
      if d1.expected.None? && |d1.buffer| >= 4 then
        if BadLength(d1) then (d1, Bad(Length))
        else Deliver(d1.(expected := Some(FromBe32(d1.buffer[..4]))))
      else
        Deliver(d1)
  }

  function Deliver(d: Decoder): (Decoder, Fed) {
    if d.expected.None? || |d.buffer| < d.expected.value + 4 then
      (d, Quiet)
    else
      var end := 4 + d.expected.value;
      var payload := d.buffer[4..end];
      (Decoder(d.buffer[end..], None, d.limit), if Utf8.Valid(payload) then Delivered(payload) else Bad(Utf8Error))
  }

  /** A whole `push`; an error discards the frames of the same call. */
  function Push(d: Decoder, input: seq<Byte>): (Decoder, Result<seq<Text>, FrameError>)
    decreases |input|
  {
    if input == [] then
      (d, Ok([]))
    else
      var (next, fed) := Feed(d, input[0]);
      match fed
      case Bad(e) => (next, Err(e))
      case Quiet => Push(next, input[1..])
      case Delivered(text) => Prepend([text], Push(next, input[1..]))
  }

  function Prepend(texts: seq<Text>, rest: (Decoder, Result<seq<Text>, FrameError>))
    : (Decoder, Result<seq<Text>, FrameError>)
  {
    (rest.0, if rest.1.Ok? then Ok(texts + rest.1.value) else rest.1)
  }

  lemma PrependTwice(a: seq<Text>, b: seq<Text>, rest: (Decoder, Result<seq<Text>, FrameError>))
    ensures Prepend(a, Prepend(b, rest)) == Prepend(a + b, rest)
    ensures Prepend([], rest) == rest
  {
    if rest.1.Ok? {
      assert a + (b + rest.1.value) == a + b + rest.1.value;
      assert [] + rest.1.value == rest.1.value;
    }
  }

  class FrameDecoder {
    var buffer: seq<Byte>
    var expected: Option<nat>
    const limit: nat

    ghost function View(): Decoder
      reads this
    {
      Decoder(buffer, expected, limit)
    }

    constructor (limit: nat)
      requires limit > 0
      ensures View() == Fresh(limit)
    {
      buffer, expected, this.limit := [], None, limit;
    }

    method PushBytes(input: seq<Byte>) returns (r: Result<seq<Text>, FrameError>)
      modifies this
      ensures (View(), r) == Push(old(View()), input)
    {
      var frames: seq<Text> := [];
      PrependTwice([], [], Push(View(), input));
      assert input[0..] == input;
      for i := 0 to |input|
        invariant Push(old(View()), input) == Prepend(frames, Push(View(), input[i..]))
      {
        assert input[i..][1..] == input[i + 1..];
        if |buffer| >= limit + 4 {
          return Err(Length);
        }
        buffer := buffer + [input[i]];
        if expected.None? && |buffer| >= 4 {
          var length := FromBe32(buffer[..4]);
          if length == 0 || length > limit {
            return Err(Length);
          }
          expected := Some(length);
        }
        if expected.Some? && |buffer| >= expected.value + 4 {
          var payload := buffer[4..4 + expected.value];
          buffer := buffer[4 + expected.value..];
          expected := None;
          if !Utf8.Valid(payload) {
            return Err(Utf8Error);
          }
          PrependTwice(frames, [payload], Push(View(), input[i + 1..]));
          frames := frames + [payload];
        }
      }
      assert input[|input|..] == [] && frames + [] == frames;
      return Ok(frames);
    }
  }

  // ------------------------------------------------------------------ fragmentation

  function Then(first: (Decoder, Result<seq<Text>, FrameError>), input: seq<Byte>)
    : (Decoder, Result<seq<Text>, FrameError>)
  {
    if first.1.Err? then first else Prepend(first.1.value, Push(first.0, input))
  }

  /** Cutting the input anywhere changes nothing, errors included. */
  lemma {:induction false} PushSplits(d: Decoder, a: seq<Byte>, b: seq<Byte>)
    ensures Push(d, a + b) == Then(Push(d, a), b)
    decreases |a|
  {
    if a == [] {
      assert a + b == b;
      PrependTwice([], [], Push(d, b));
    } else {
      assert (a + b)[1..] == a[1..] + b;
      var (next, fed) := Feed(d, a[0]);
      PushSplits(next, a[1..], b);
      if fed.Delivered? {
        var rest := Push(next, a[1..]);
        if rest.1.Ok? {
          PrependTwice([fed.text], rest.1.value, Push(rest.0, b));
        }
      }
    }
  }

  /** Pushing chunk after chunk, stopping at the first error. */
  function PushAll(d: Decoder, chunks: seq<seq<Byte>>): (Decoder, Result<seq<Text>, FrameError>)
    decreases |chunks|
  {
    if chunks == [] then (d, Ok([]))
    else
      var first := Push(d, chunks[0]);
      if first.1.Err? then first else Prepend(first.1.value, PushAll(first.0, chunks[1..]))
  }

  lemma {:induction false} ChunksDoNotMatter(d: Decoder, chunks: seq<seq<Byte>>)
    ensures PushAll(d, chunks) == Push(d, Flatten(chunks))
    decreases |chunks|
  {
    if chunks != [] {
      PushSplits(d, chunks[0], Flatten(chunks[1..]));
      var first := Push(d, chunks[0]);
      if first.1.Ok? {
        ChunksDoNotMatter(first.0, chunks[1..]);
      }
    }
  }

  // ------------------------------------------------------------------ decoding inverts encoding

  predicate Encodable(text: Text, limit: nat) {
    EncodeFrame(text, limit).Ok?
  }

  predicate AllEncodable(texts: seq<Text>, limit: nat) {
    forall i :: 0 <= i < |texts| ==> Encodable(texts[i], limit)
  }

  /** Any proper prefix of a frame is buffered without complaint. */
  lemma {:induction false} PartialFrame(text: Text, limit: nat, k: nat)
    requires Encodable(text, limit) && k < |text| + 4
    ensures var bytes := EncodeFrame(text, limit).value;
            Push(Fresh(limit), bytes[..k])
            == (Decoder(bytes[..k], if k >= 4 then Some(|text|) else None, limit), Ok([]))
    decreases k
  {
    var bytes := EncodeFrame(text, limit).value;
    if k > 0 {
      PartialFrame(text, limit, k - 1);
      LastByte(bytes, k);
      PushSplits(Fresh(limit), bytes[..k - 1], [bytes[k - 1]]);
      var d := Decoder(bytes[..k - 1], if k - 1 >= 4 then Some(|text|) else None, limit);
      Be32RoundTrip(|text|);
      if k >= 4 { assert bytes[..k][..4] == ToBe32(|text|); }
      assert d.buffer + [bytes[k - 1]] == bytes[..k];
      PushOne(d, bytes[k - 1]);
      PrependTwice([], [], Push(d, [bytes[k - 1]]));
    }
  }

  lemma LastByte(bytes: seq<Byte>, k: nat)
    requires 0 < k <= |bytes|
    ensures bytes[..k] == bytes[..k - 1] + [bytes[k - 1]]
  {
  }

  lemma PushOne(d: Decoder, byte: Byte)
    ensures var (next, fed) := Feed(d, byte);
            Push(d, [byte]) == (next, match fed case Bad(e) => Err(e) case Quiet => Ok([]) case Delivered(t) => Ok([t]))
  {
    assert [byte][1..] == [];
    var (_, fed) := Feed(d, byte);
    if fed.Delivered? { assert [fed.text] + [] == [fed.text]; }
  }

  lemma WholeFrame(text: Text, limit: nat)
    requires Encodable(text, limit)
    ensures Push(Fresh(limit), EncodeFrame(text, limit).value) == (Fresh(limit), Ok([text]))
  {
    var bytes := EncodeFrame(text, limit).value;
    var k := |bytes| - 1;
    PartialFrame(text, limit, k);
    assert bytes == bytes[..k] + [bytes[k]];
    PushSplits(Fresh(limit), bytes[..k], [bytes[k]]);
    var d := Push(Fresh(limit), bytes[..k]).0;
    assert d.buffer + [bytes[k]] == bytes;
    assert bytes[4..4 + |text|] == text;
    PushOne(d, bytes[k]);
    PrependTwice([], [], Push(d, [bytes[k]]));
  }

  function EncodeAll(texts: seq<Text>, limit: nat): seq<Byte>
    requires AllEncodable(texts, limit)
  {
    if texts == [] then [] else EncodeFrame(texts[0], limit).value + EncodeAll(texts[1..], limit)
  }

  lemma {:induction false} EncodeAllSnoc(texts: seq<Text>, last: Text, limit: nat)
    requires AllEncodable(texts, limit)
    requires Encodable(last, limit)
    ensures EncodeAll(texts + [last], limit) == EncodeAll(texts, limit) + EncodeFrame(last, limit).value
  {
    if texts == [] {
      assert texts + [last] == [last] && [last][1..] == [];
    } else {
      assert (texts + [last])[1..] == texts[1..] + [last];
      EncodeAllSnoc(texts[1..], last, limit);
    }
  }

  /** Decoding concatenated frames, with whatever follows them, yields the frames first. */
  lemma {:induction false} DecodesAll(texts: seq<Text>, limit: nat, rest: seq<Byte>)
    requires AllEncodable(texts, limit)
    ensures Push(Fresh(limit), EncodeAll(texts, limit) + rest) == Prepend(texts, Push(Fresh(limit), rest))
    decreases |texts|
  {
    if texts == [] {
      assert EncodeAll(texts, limit) + rest == rest;
      PrependTwice([], [], Push(Fresh(limit), rest));
    } else {
      var head := EncodeFrame(texts[0], limit).value;
      var tail := EncodeAll(texts[1..], limit) + rest;
      assert EncodeAll(texts, limit) + rest == head + tail;
      WholeFrame(texts[0], limit);
      PushSplits(Fresh(limit), head, tail);
      DecodesAll(texts[1..], limit, rest);
      PrependTwice([texts[0]], texts[1..], Push(Fresh(limit), rest));
      assert [texts[0]] + texts[1..] == texts;
    }
  }

  /**
   * However the concatenated frames are cut into chunks, the decoder returns exactly the texts that
   * were encoded and ends as good as new.
   */
  lemma FragmentationRoundTrip(texts: seq<Text>, limit: nat, chunks: seq<seq<Byte>>)
    requires AllEncodable(texts, limit)
    requires Flatten(chunks) == EncodeAll(texts, limit)
    ensures PushAll(Fresh(limit), chunks) == (Fresh(limit), Ok(texts))
  {
    ChunksDoNotMatter(Fresh(limit), chunks);
    DecodesAll(texts, limit, []);
    assert EncodeAll(texts, limit) + [] == EncodeAll(texts, limit);
    assert texts + [] == texts;
  }

  // ------------------------------------------------------------------ bounded buffer, sticky error

  /** A length the decoder has refused; it stays in the buffer. */
  ghost predicate Poisoned(d: Decoder) {
    d.expected.None? && 4 <= |d.buffer| <= d.limit + 4 && BadLength(d)
  }

  ghost predicate Healthy(d: Decoder) {
    match d.expected
    case None => |d.buffer| < 4
    case Some(length) =>
      4 <= |d.buffer| < length + 4 && 0 < length <= d.limit && length == FromBe32(d.buffer[..4])
  }

  /**
   * From a fresh decoder every push leaves it healthy or poisoned, so the buffer never exceeds
   * `limit + 4`; it is poisoned exactly when the push reported a bad length.
   */
  lemma {:induction false} PushKeeps(d: Decoder, input: seq<Byte>)
    requires Healthy(d) && d.limit > 0
    ensures var (end, r) := Push(d, input);
            && end.limit == d.limit && |end.buffer| <= d.limit + 4
            && (if r == Err(Length) then Poisoned(end) else Healthy(end))
    decreases |input|
  {
    if input != [] {
      var (next, fed) := Feed(d, input[0]);
      FeedKeeps(d, input[0]);
      if !fed.Bad? {
        PushKeeps(next, input[1..]);
      }
    }
  }

  lemma FeedKeeps(d: Decoder, byte: Byte)
    requires Healthy(d) && d.limit > 0
    ensures var (next, fed) := Feed(d, byte);
            && next.limit == d.limit && |next.buffer| <= d.limit + 4
            && (if fed == Bad(Length) then Poisoned(next) else Healthy(next))
  {
    if d.expected.Some? {
      assert (d.buffer + [byte])[..4] == d.buffer[..4];
    }
  }

  /** Once a length was refused, every later nonempty push fails the same way. */
  lemma BadLengthRepeats(d: Decoder, input: seq<Byte>)
    requires Poisoned(d) && input != []
    ensures Push(d, input).1 == Err(Length) && Poisoned(Push(d, input).0)
  {
    if |d.buffer| < d.limit + 4 {
      assert (d.buffer + [input[0]])[..4] == d.buffer[..4];
    }
  }
}
