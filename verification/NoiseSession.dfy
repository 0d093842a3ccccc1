/**
 * Two Noise endpoints over a pair of lower byte streams: the handshake, the handover to transport
 * records, and reading and writing through partial, stalled and failing lower calls.
 *
 * The cipher is ideal: what is sealed under a record number opens under that number and no other
 * assumption is made.  Errors close nothing here except a failed handshake, as in the code.
 */
module NoiseSession {
  import opened Basics
  import opened NoiseFrame

  const MAX_HANDSHAKE := 4096
  const MAX_PLAINTEXT := 16384
  const MAX_CIPHERTEXT := 16400
  const RECORD_LIMIT := 0x1_0000_0000

  datatype Side = Client | Server

  function Other(side: Side): Side {
    if side.Client? then Server else Client
  }

  /** Sealing and opening records of one side by number, and the one handshake message each side sends. */
  datatype Cipher = Cipher(
    seal: (Side, nat, seq<Byte>) -> seq<Byte>,
    unseal: (Side, nat, seq<Byte>) -> Option<seq<Byte>>,
    hello: Side -> seq<Byte>,
    greets: (Side, seq<Byte>) -> bool)

  ghost predicate Ideal(c: Cipher) {
    && (forall side, n, p :: |c.seal(side, n, p)| == |p| + 16 && c.unseal(side, n, c.seal(side, n, p)) == Some(p))
    && (forall side :: 0 < |c.hello(side)| <= MAX_HANDSHAKE && c.greets(side, c.hello(side)))
  }

  datatype Phase = Shaking | Open | Dead

  /** What a side has composed; `records` lists the plaintext of every sealed record. */
  datatype Sending = Sending(outbound: seq<Byte>, offset: nat, said: bool, sent: nat, records: seq<seq<Byte>>)

  datatype Receiving = Receiving(
    reader: FrameReader, heard: bool, received: nat, plaintext: seq<Byte>, used: nat, delivered: seq<Byte>)

  datatype Peer = Peer(side: Side, phase: Phase, send: Sending, recv: Receiving)

  const SILENT := Sending([], 0, false, 0, [])
  const DEAF := Receiving(FRESH, false, 0, [], 0, [])

  /** The client starts with its greeting framed, the server with nothing to say. */
  function NewPeer(c: Cipher, side: Side): Peer
    requires |c.hello(side)| < 0x1_0000
  {
    Peer(side, Shaking, if side.Client? then SILENT.(outbound := FrameBytes(c.hello(side)), said := true) else SILENT, DEAF)
  }

  datatype Status = Done(count: nat) | Again | AtEnd | Error

  /** The peer after a call, what is left of its incoming bytes and what it put on the outgoing stream. */
  datatype Moved = Moved(peer: Peer, wire: seq<Byte>, emitted: seq<Byte>, status: Status)

  // ------------------------------------------------------------------ sending

  datatype Flush = Flush(send: Sending, emitted: seq<Byte>, status: FlushStatus)

  /** `flush_wrapped`: a finished buffer is cleared. */
  function FlushSend(s: Sending, answers: seq<Answer>): Flush
    requires s.offset <= |s.outbound|
  {
    var o := FlushLoop(|s.outbound|, s.offset, answers);
    Flush(if o.status.Flushed? then s.(outbound := [], offset := 0) else s.(offset := o.offset),
          s.outbound[s.offset..o.offset], o.status)
  }

  function SealNext(c: Cipher, side: Side, s: Sending, input: seq<Byte>): (Sending, Status) {
    if input == [] then (s, Done(0))
    else if s.sent >= RECORD_LIMIT then (s, Error)
    else
      var part := input[..Min(|input|, MAX_PLAINTEXT)];
      match Frame(c.seal(side, s.sent, part), MAX_CIPHERTEXT)
      case None => (s, Error)
      case Some(frame) =>
        (s.(outbound := frame, offset := 0, sent := s.sent + 1, records := s.records + [part]), Done(|part|))
  }

  function Write(c: Cipher, p: Peer, wire: seq<Byte>, input: seq<Byte>, answers: seq<Answer>): Moved
    requires p.send.offset <= |p.send.outbound|
  {
    var flushed := if p.send.outbound != [] then FlushSend(p.send, answers) else Flush(p.send, [], Flushed);
    match flushed.status
    case Waiting => Moved(p.(send := flushed.send), wire, flushed.emitted, Again)
    case FlushFailed => Moved(p.(send := flushed.send), wire, flushed.emitted, Error)
    case Flushed =>
      var (send, status) := SealNext(c, p.side, flushed.send, input);
      Moved(p.(send := send), wire, flushed.emitted, status)
  }

  /** `flush` and `shutdown_write`, up to the lower call that follows them. */
  function FlushAll(p: Peer, wire: seq<Byte>, answers: seq<Answer>): Moved
    requires p.send.offset <= |p.send.outbound|
  {
    var flushed := FlushSend(p.send, answers);
    Moved(p.(send := flushed.send), wire, flushed.emitted,
          match flushed.status case Flushed => Done(0) case Waiting => Again case FlushFailed => Error)
  }

  // ------------------------------------------------------------------ receiving

  function CopyPlaintext(r: Receiving, room: nat): (Receiving, nat)
    requires r.used <= |r.plaintext|
  {
    var count := Min(|r.plaintext| - r.used, room);
    if room == 0 then (r, 0)
    else if r.used + count == |r.plaintext| then
      (r.(plaintext := [], used := 0, delivered := r.delivered + r.plaintext[r.used..]), count)
    else
      (r.(used := r.used + count, delivered := r.delivered + r.plaintext[r.used..r.used + count]), count)
  }

  /** A record that clear to something, taken over as the current plaintext. */
  function Accept(r: Receiving, plaintext: seq<Byte>): Receiving {
    r.(received := r.received + 1, plaintext := plaintext, used := 0)
  }

  predicate Usable(clear: Option<seq<Byte>>) {
    clear.Some? && 0 < |clear.value| <= MAX_PLAINTEXT
  }

  function Read(c: Cipher, p: Peer, wire: seq<Byte>, room: nat, answers: seq<Answer>): Moved
    requires p.recv.used <= |p.recv.plaintext|
  {
    if p.recv.used < |p.recv.plaintext| then
      var (recv, count) := CopyPlaintext(p.recv, room);
      Moved(p.(recv := recv), wire, [], Done(count))
    else if p.recv.received >= RECORD_LIMIT then Moved(p, wire, [], Error)
    else
      var o := ReadFrame(p.recv.reader, wire, MAX_CIPHERTEXT, answers);
      var r := p.recv.(reader := o.reader);
      match o.status
      case Stalled => Moved(p.(recv := r), o.wire, [], Again)
      case Broken(error) => Moved(p.(recv := r), o.wire, [], if error.EndOfStream? then AtEnd else Error)
      case Got(message) =>
        var clear := c.unseal(Other(p.side), r.received, message);
        if !Usable(clear) then Moved(p.(recv := r), o.wire, [], Error)
        else
          var (recv, count) := CopyPlaintext(Accept(r, clear.value), room);
          Moved(p.(recv := recv), o.wire, [], Done(count))
  }

  // ------------------------------------------------------------------ handshake

  /** Handover: the transport starts with empty buffers whatever the handshake left in its own. */
  function Finish(p: Peer): Peer {
    if p.send.said && p.recv.heard then
      p.(phase := Open, send := p.send.(outbound := [], offset := 0), recv := p.recv.(reader := FRESH))
    else p.(phase := Dead)
  }

  function Finished(p: Peer, wire: seq<Byte>, emitted: seq<Byte>): Moved {
    var q := Finish(p);
    Moved(q, wire, emitted, if q.phase.Open? then Done(0) else Error)
  }

  /** The server's reply, composed once the greeting has been read, and its first flush. */
  function Reply(c: Cipher, p: Peer, wire: seq<Byte>, emitted: seq<Byte>, answers: seq<Answer>): Moved {
    match Frame(c.hello(p.side), MAX_HANDSHAKE)
    case None => Moved(p.(phase := Dead), wire, emitted, Error)
    case Some(frame) =>
      var flushed := FlushSend(p.send.(outbound := frame, offset := 0, said := true), answers);
      var q, all := p.(send := flushed.send), emitted + flushed.emitted;
      match flushed.status
      case Flushed => Finished(q, wire, all)
      case Waiting => Moved(q, wire, all, Again)
      case FlushFailed => Moved(q.(phase := Dead), wire, all, Error)
  }

  /** Reading the peer's greeting, with what was flushed before it. */
  function Greet(c: Cipher, p: Peer, wire: seq<Byte>, emitted: seq<Byte>, puts: seq<Answer>, gets: seq<Answer>): Moved {
    var o := ReadFrame(p.recv.reader, wire, MAX_HANDSHAKE, gets);
    var q := p.(recv := p.recv.(reader := o.reader));
    match o.status
    case Stalled => Moved(q, o.wire, emitted, Again)
    case Broken(_) => Moved(q.(phase := Dead), o.wire, emitted, Error)
    case Got(message) =>
      if !c.greets(Other(p.side), message) then Moved(q.(phase := Dead), o.wire, emitted, Error)
      else
        var h := q.(recv := q.recv.(heard := true));
        if p.side.Server? then Reply(c, h, o.wire, emitted, puts) else Finished(h, o.wire, emitted)
  }

  /** `PendingHandshake::drive`. */
  function Drive(c: Cipher, p: Peer, wire: seq<Byte>, puts: seq<Answer>, gets: seq<Answer>): Moved
    requires p.send.offset <= |p.send.outbound|
  {
    if p.send.outbound == [] then Greet(c, p, wire, [], puts, gets)
    else
      var flushed := FlushSend(p.send, puts);
      var q := p.(send := flushed.send);
      match flushed.status
      case Waiting => Moved(q, wire, flushed.emitted, Again)
      case FlushFailed => Moved(q.(phase := Dead), wire, flushed.emitted, Error)
      case Flushed =>
        if p.side.Server? then Finished(q, wire, flushed.emitted)
        else Greet(c, q, wire, flushed.emitted, [], gets)
  }

  // ------------------------------------------------------------------ runs

  datatype Op =
    | Shake(puts: seq<Answer>, gets: seq<Answer>)
    | Send(input: seq<Byte>, answers: seq<Answer>)
    | Sync(answers: seq<Answer>)
    | Receive(room: nat, answers: seq<Answer>)

  predicate CanStep(p: Peer, op: Op) {
    && p.send.offset <= |p.send.outbound| && p.recv.used <= |p.recv.plaintext|
    && (if op.Shake? then p.phase.Shaking? else p.phase.Open?)
  }

  function StepPeer(c: Cipher, p: Peer, wire: seq<Byte>, op: Op): Moved
    requires CanStep(p, op)
  {
    match op
    case Shake(puts, gets) => Drive(c, p, wire, puts, gets)
    case Send(input, answers) => Write(c, p, wire, input, answers)
    case Sync(answers) => FlushAll(p, wire, answers)
    case Receive(room, answers) => Read(c, p, wire, room, answers)
  }

  /** `up` carries client bytes to the server, `down` the other way. */
  datatype World = World(client: Peer, server: Peer, up: seq<Byte>, down: seq<Byte>)

  datatype Event = Event(side: Side, op: Op)

  predicate Enabled(w: World, ev: Event) {
    CanStep(if ev.side.Client? then w.client else w.server, ev.op)
  }

  function Apply(c: Cipher, w: World, ev: Event): World
    requires Enabled(w, ev)
  {
    if ev.side.Client? then
      var m := StepPeer(c, w.client, w.down, ev.op);
      World(m.peer, w.server, w.up + m.emitted, m.wire)
    else
      var m := StepPeer(c, w.server, w.up, ev.op);
      World(w.client, m.peer, m.wire, w.down + m.emitted)
  }

  predicate Feasible(c: Cipher, w: World, events: seq<Event>)
    decreases |events|
  {
    events == [] || (Enabled(w, events[0]) && Feasible(c, Apply(c, w, events[0]), events[1..]))
  }

  function Run(c: Cipher, w: World, events: seq<Event>): World
    requires Feasible(c, w, events)
    decreases |events|
  {
    if events == [] then w else Run(c, Apply(c, w, events[0]), events[1..])
  }

  function Start(c: Cipher): World
    requires |c.hello(Client)| < 0x1_0000 && |c.hello(Server)| < 0x1_0000
  {
    World(NewPeer(c, Client), NewPeer(c, Server), [], [])
  }

  // ------------------------------------------------------------------ the byte stream a side composes

  ghost predicate GoodRecords(records: seq<seq<Byte>>) {
    forall i :: 0 <= i < |records| ==> 0 < |records[i]| <= MAX_PLAINTEXT
  }

  function Sealed(c: Cipher, side: Side, n: nat, record: seq<Byte>): seq<Byte> {
    var sealed := c.seal(side, n, record);
    if |sealed| < 0x1_0000 then FrameBytes(sealed) else []
  }

  /** The frames of all records from number `from` on. */
  function FramesFrom(c: Cipher, side: Side, records: seq<seq<Byte>>, from: nat): seq<Byte>
    requires from <= |records|
    decreases |records| - from
  {
    if from == |records| then [] else Sealed(c, side, from, records[from]) + FramesFrom(c, side, records, from + 1)
  }

  lemma {:induction false} FramesSnoc(c: Cipher, side: Side, records: seq<seq<Byte>>, last: seq<Byte>, from: nat)
    requires from <= |records|
    ensures FramesFrom(c, side, records + [last], from)
         == FramesFrom(c, side, records, from) + Sealed(c, side, |records|, last)
    decreases |records| - from
  {
    var longer := records + [last];
    if from == |records| {
      assert FramesFrom(c, side, longer, from + 1) == [];
    } else {
      FramesSnoc(c, side, records, last, from + 1);
      assert longer[from] == records[from];
    }
  }

  /** What the receiver has still to take of the sender's stream. */
  function Remaining(c: Cipher, side: Side, s: Sending, r: Receiving): seq<Byte>
    requires r.received <= |s.records| && |c.hello(side)| < 0x1_0000
  {
    if r.heard then FramesFrom(c, side, s.records, r.received)
    else (if s.said then FrameBytes(c.hello(side)) else []) + FramesFrom(c, side, s.records, 0)
  }

  /** The message the receiver is in the middle of, if one has been composed. */
  function NextMessage(c: Cipher, side: Side, s: Sending, r: Receiving): Option<seq<Byte>> {
    if !r.heard then if s.said then Some(c.hello(side)) else None
    else if r.received < |s.records| then Some(c.seal(side, r.received, s.records[r.received]))
    else None
  }

  function Unsent(s: Sending): seq<Byte> {
    if s.offset <= |s.outbound| then s.outbound[s.offset..] else []
  }

  // ------------------------------------------------------------------ invariant

  /** Bytes held, in flight and unsent are exactly what the receiver has yet to take. */
  ghost predicate Stream(c: Cipher, side: Side, s: Sending, wire: seq<Byte>, r: Receiving) {
    && |c.hello(side)| < 0x1_0000
    && r.received <= |s.records| && (s.records != [] ==> s.said)
    && (r.heard ==> s.said) && (!r.heard ==> r.received == 0)
    && r.reader.data + wire + Unsent(s) == Remaining(c, side, s, r)
    && (match NextMessage(c, side, s, r)
        case None => r.reader == FRESH
        case Some(m) => Partial(r.reader, m))
  }

  ghost predicate Delivers(s: Sending, r: Receiving) {
    && r.received <= |s.records| && r.used <= |r.plaintext|
    && r.delivered + r.plaintext[r.used..] == Flatten(s.records[..r.received])
  }

  ghost predicate SendInv(s: Sending) {
    s.offset <= |s.outbound| && s.sent == |s.records| <= RECORD_LIMIT && GoodRecords(s.records)
  }

  /** Where a side's own handshake stands. */
  predicate ShakeInv(p: Peer) {
    && (p.phase.Open? ==> p.send.said && p.recv.heard)
    && (!p.phase.Open? ==> p.send.records == [] && p.recv.received == 0)
    && (p.side.Client? ==> p.send.said)
    && (p.phase.Shaking? && p.side.Client? ==> !p.recv.heard)
    && (p.phase.Shaking? && p.recv.heard ==> p.recv.reader == FRESH)
    && (p.phase.Shaking? && p.side.Server? ==> p.send.said == p.recv.heard && (p.send.said <==> p.send.outbound != []))
  }

  ghost predicate PeerInv(p: Peer) {
    SendInv(p.send) && ShakeInv(p)
  }

  ghost predicate Inv(c: Cipher, w: World) {
    && w.client.side == Client && w.server.side == Server
    && PeerInv(w.client) && PeerInv(w.server)
    && Stream(c, Client, w.client.send, w.up, w.server.recv) && Delivers(w.client.send, w.server.recv)
    && Stream(c, Server, w.server.send, w.down, w.client.recv) && Delivers(w.server.send, w.client.recv)
  }

  // ------------------------------------------------------------------ sending keeps it

  /** A flush moves bytes from the buffer to the stream and does nothing else. */
  lemma FlushMoves(s: Sending, answers: seq<Answer>)
    requires s.offset <= |s.outbound|
    ensures var f := FlushSend(s, answers);
            && f.emitted + Unsent(f.send) == Unsent(s)
            && f.send == s.(outbound := f.send.outbound, offset := f.send.offset)
            && f.send.offset <= |f.send.outbound|
            && (f.status.Flushed? <==> f.send.outbound == [])
  {
    var o := FlushLoop(|s.outbound|, s.offset, answers);
    assert s.outbound[s.offset..] == s.outbound[s.offset..o.offset] + s.outbound[o.offset..];
  }

  lemma MovedStream(c: Cipher, side: Side, s: Sending, t: Sending, emitted: seq<Byte>, wire: seq<Byte>, r: Receiving)
    requires Stream(c, side, s, wire, r) && t == s.(outbound := t.outbound, offset := t.offset)
    requires emitted + Unsent(t) == Unsent(s)
    ensures Stream(c, side, t, wire + emitted, r)
  {
    assert r.reader.data + (wire + emitted) + Unsent(t) == r.reader.data + wire + (emitted + Unsent(t));
    assert Remaining(c, side, t, r) == Remaining(c, side, s, r);
  }

  lemma FlushKeeps(c: Cipher, side: Side, s: Sending, wire: seq<Byte>, r: Receiving, answers: seq<Answer>)
    requires Stream(c, side, s, wire, r) && SendInv(s)
    ensures var f := FlushSend(s, answers);
            && Stream(c, side, f.send, wire + f.emitted, r) && SendInv(f.send)
            && f.send.records == s.records && f.send.said == s.said
            && (f.status.Flushed? <==> f.send.outbound == [])
  {
    var f := FlushSend(s, answers);
    FlushMoves(s, answers);
    MovedStream(c, side, s, f.send, f.emitted, wire, r);
  }

  lemma RemainingGrows(c: Cipher, side: Side, s: Sending, t: Sending, r: Receiving, part: seq<Byte>)
    requires r.received <= |s.records| && |c.hello(side)| < 0x1_0000
    requires t.records == s.records + [part] && t.said == s.said
    requires !r.heard ==> r.received == 0
    ensures Remaining(c, side, t, r) == Remaining(c, side, s, r) + Sealed(c, side, |s.records|, part)
  {
    FramesSnoc(c, side, s.records, part, r.received);
  }

  lemma ComposedStream(c: Cipher, side: Side, s: Sending, t: Sending, wire: seq<Byte>, r: Receiving, part: seq<Byte>)
    requires Stream(c, side, s, wire, r) && s.outbound == [] && s.said
    requires t == Sending(Sealed(c, side, |s.records|, part), 0, true, t.sent, s.records + [part])
    ensures Stream(c, side, t, wire, r)
  {
    RemainingGrows(c, side, s, t, r, part);
    assert Unsent(s) == [] && Unsent(t) == t.outbound;
    assert r.reader.data + wire + Unsent(s) == r.reader.data + wire;
  }

  /** A write refuses, or seals the front of the input as the next record. */
  lemma SealShape(c: Cipher, side: Side, s: Sending, input: seq<Byte>)
    requires Ideal(c) && s.said
    ensures var t := SealNext(c, side, s, input).0;
            var part := input[..Min(|input|, MAX_PLAINTEXT)];
            if input == [] || s.sent >= RECORD_LIMIT then t == s
            else t == Sending(Sealed(c, side, s.sent, part), 0, true, s.sent + 1, s.records + [part])
  {
    var part := input[..Min(|input|, MAX_PLAINTEXT)];
    assert |c.seal(side, s.sent, part)| == |part| + 16;
  }

  lemma LongerKeeps(s: Sending, t: Sending, r: Receiving, part: seq<Byte>)
    requires SendInv(s) && Delivers(s, r) && s.sent < RECORD_LIMIT && 0 < |part| <= MAX_PLAINTEXT
    requires t.offset == 0 && t.sent == s.sent + 1 && t.records == s.records + [part]
    ensures SendInv(t) && Delivers(t, r)
  {
    assert t.records[..r.received] == s.records[..r.received];
  }

  lemma SealKeepsStream(c: Cipher, side: Side, s: Sending, wire: seq<Byte>, r: Receiving, input: seq<Byte>)
    requires Ideal(c) && s.said && s.outbound == [] && Stream(c, side, s, wire, r) && s.sent == |s.records|
    ensures Stream(c, side, SealNext(c, side, s, input).0, wire, r)
  {
    SealShape(c, side, s, input);
    var t := SealNext(c, side, s, input).0;
    if input != [] && s.sent < RECORD_LIMIT {
      ComposedStream(c, side, s, t, wire, r, input[..Min(|input|, MAX_PLAINTEXT)]);
    }
  }

  lemma SealKeeps(c: Cipher, side: Side, s: Sending, r: Receiving, input: seq<Byte>)
    requires Ideal(c) && s.said && SendInv(s) && Delivers(s, r)
    ensures var t := SealNext(c, side, s, input).0; SendInv(t) && Delivers(t, r) && t.said
  {
    SealShape(c, side, s, input);
    var t := SealNext(c, side, s, input).0;
    if input != [] && s.sent < RECORD_LIMIT {
      LongerKeeps(s, t, r, input[..Min(|input|, MAX_PLAINTEXT)]);
    }
  }

  lemma WriteKeeps(c: Cipher, p: Peer, wire: seq<Byte>, out: seq<Byte>, r: Receiving, input: seq<Byte>, answers: seq<Answer>)
    requires Ideal(c) && PeerInv(p) && p.phase.Open?
    requires Stream(c, p.side, p.send, out, r) && Delivers(p.send, r)
    ensures var m := Write(c, p, wire, input, answers);
            && PeerInv(m.peer) && m.wire == wire && m.peer.recv == p.recv && m.peer.side == p.side
            && Stream(c, p.side, m.peer.send, out + m.emitted, r) && Delivers(m.peer.send, r)
  {
    if p.send.outbound != [] {
      FlushKeeps(c, p.side, p.send, out, r, answers);
      var f := FlushSend(p.send, answers);
      if f.status.Flushed? {
        SealKeepsStream(c, p.side, f.send, out + f.emitted, r, input);
        SealKeeps(c, p.side, f.send, r, input);
      }
    } else {
      assert out + [] == out;
      SealKeepsStream(c, p.side, p.send, out, r, input);
      SealKeeps(c, p.side, p.send, r, input);
    }
  }

  lemma SyncKeeps(c: Cipher, p: Peer, wire: seq<Byte>, out: seq<Byte>, r: Receiving, answers: seq<Answer>)
    requires PeerInv(p) && p.phase.Open?
    requires Stream(c, p.side, p.send, out, r) && Delivers(p.send, r)
    ensures var m := FlushAll(p, wire, answers);
            && PeerInv(m.peer) && m.wire == wire && m.peer.recv == p.recv && m.peer.side == p.side
            && Stream(c, p.side, m.peer.send, out + m.emitted, r) && Delivers(m.peer.send, r)
  {
    FlushKeeps(c, p.side, p.send, out, r, answers);
  }

  // ------------------------------------------------------------------ receiving keeps it

  lemma CopyKeeps(s: Sending, r: Receiving, room: nat)
    requires Delivers(s, r)
    ensures var v := CopyPlaintext(r, room).0; Delivers(s, v) && v == r.(plaintext := v.plaintext, used := v.used, delivered := v.delivered)
  {
    var (v, count) := CopyPlaintext(r, room);
    assert v.delivered + v.plaintext[v.used..] == r.delivered + r.plaintext[r.used..];
  }

  /** `read_frame` on the receiver's side: the next message whole, or the stream where it was. */
  lemma NextRead(c: Cipher, side: Side, s: Sending, wire: seq<Byte>, r: Receiving, limit: nat, answers: seq<Answer>)
    requires Stream(c, side, s, wire, r)
    requires var next := NextMessage(c, side, s, r); next.Some? ==> Fits(next.value, limit)
    ensures var o := ReadFrame(r.reader, wire, limit, answers);
            && o.status != Broken(BadFrame)
            && (o.status.Got? ==> NextMessage(c, side, s, r) == Some(o.status.message) && o.reader == FRESH
                                  && FrameBytes(o.status.message) + (o.wire + Unsent(s)) == Remaining(c, side, s, r))
            && (!o.status.Got? ==> Stream(c, side, s, o.wire, r.(reader := o.reader)))
  {
    var o := ReadFrame(r.reader, wire, limit, answers);
    match NextMessage(c, side, s, r)
    case None =>
      assert Remaining(c, side, s, r) == [];
      assert |r.reader.data + wire + Unsent(s)| == 0;
      ReadsNothing(limit, answers);
    case Some(m) =>
      var rest := Remaining(c, side, s, r)[|m| + 2..];
      HeadOfRemaining(c, side, s, r, m);
      ReadsExactly(r.reader, wire, Unsent(s), m, rest, limit, answers);
  }

  /** The stream left begins with the frame of the next message. */
  lemma HeadOfRemaining(c: Cipher, side: Side, s: Sending, r: Receiving, m: seq<Byte>)
    requires r.received <= |s.records| && |c.hello(side)| < 0x1_0000 && |m| < 0x1_0000
    requires NextMessage(c, side, s, r) == Some(m)
    ensures var all := Remaining(c, side, s, r);
            |all| >= |m| + 2 && all == FrameBytes(m) + all[|m| + 2..]
            && all[|m| + 2..] == if r.heard then FramesFrom(c, side, s.records, r.received + 1) else FramesFrom(c, side, s.records, 0)
  {
  }

  lemma SameBehind(front: seq<Byte>, a: seq<Byte>, b: seq<Byte>)
    requires front + a == front + b
    ensures a == b
  {
    assert (front + a)[|front|..] == a && (front + b)[|front|..] == b;
  }

  lemma AcceptKeeps(c: Cipher, side: Side, s: Sending, wire: seq<Byte>, r: Receiving)
    requires Stream(c, side, s, wire, r) && Delivers(s, r) && r.heard && r.received < |s.records| && r.used == |r.plaintext|
    ensures Delivers(s, Accept(r, s.records[r.received]))
  {
    var v := Accept(r, s.records[r.received]);
    assert s.records[..v.received] == s.records[..r.received] + [s.records[r.received]];
    FlattenSnoc(s.records[..r.received], s.records[r.received]);
    assert r.plaintext[r.used..] == [] && v.plaintext[v.used..] == v.plaintext;
  }

  lemma AcceptStream(c: Cipher, side: Side, s: Sending, wire: seq<Byte>, r: Receiving, m: seq<Byte>, left: seq<Byte>)
    requires Stream(c, side, s, wire, r) && r.heard && NextMessage(c, side, s, r) == Some(m) && |m| < 0x1_0000
    requires FrameBytes(m) + (left + Unsent(s)) == Remaining(c, side, s, r)
    ensures Stream(c, side, s, left, Accept(r.(reader := FRESH), s.records[r.received]))
  {
    var next := FramesFrom(c, side, s.records, r.received + 1);
    assert Remaining(c, side, s, r) == FrameBytes(m) + next;
    SameBehind(FrameBytes(m), left + Unsent(s), next);
    assert FRESH.data + left + Unsent(s) == left + Unsent(s);
  }

  /** What a read can be handed: an ideal record of the right number, and nothing else. */
  lemma ReadKeeps(c: Cipher, p: Peer, wire: seq<Byte>, s: Sending, room: nat, answers: seq<Answer>)
    requires Ideal(c) && PeerInv(p) && p.phase.Open? && SendInv(s)
    requires Stream(c, Other(p.side), s, wire, p.recv) && Delivers(s, p.recv)
    ensures var m := Read(c, p, wire, room, answers);
            && PeerInv(m.peer) && m.emitted == [] && m.peer.send == p.send && m.peer.side == p.side
            && Stream(c, Other(p.side), s, m.wire, m.peer.recv) && Delivers(s, m.peer.recv)
  {
    var side, r := Other(p.side), p.recv;
    if r.used < |r.plaintext| {
      CopyKeeps(s, r, room);
    } else if r.received < RECORD_LIMIT {
      NextFits(c, side, s, r);
      NextRead(c, side, s, wire, r, MAX_CIPHERTEXT, answers);
      var o := ReadFrame(r.reader, wire, MAX_CIPHERTEXT, answers);
      if o.status.Got? {
        AcceptKeeps(c, side, s, wire, r);
        AcceptStream(c, side, s, wire, r, o.status.message, o.wire);
        CopyKeeps(s, Accept(r.(reader := FRESH), s.records[r.received]), room);
      }
    }
  }

  lemma NextFits(c: Cipher, side: Side, s: Sending, r: Receiving)
    requires Ideal(c) && SendInv(s) && r.heard && r.received <= |s.records|
    ensures var next := NextMessage(c, side, s, r);
            next.Some? ==> Fits(next.value, MAX_CIPHERTEXT) && r.received < |s.records|
                           && c.unseal(side, r.received, next.value) == Some(s.records[r.received])
                           && Usable(c.unseal(side, r.received, next.value))
  {
    if r.received < |s.records| {
      assert |c.seal(side, r.received, s.records[r.received])| == |s.records[r.received]| + 16;
    }
  }

  // ------------------------------------------------------------------ the handshake keeps it

  /** Both directions as one side sees them: `q` listens to it over `out`, `s` talks to it over `wire`. */
  ghost predicate Linked(c: Cipher, p: Peer, wire: seq<Byte>, out: seq<Byte>, s: Sending, q: Receiving) {
    && Stream(c, p.side, p.send, out, q) && Delivers(p.send, q)
    && Stream(c, Other(p.side), s, wire, p.recv) && Delivers(s, p.recv)
  }

  ghost predicate Kept(c: Cipher, m: Moved, side: Side, out: seq<Byte>, s: Sending, q: Receiving) {
    m.peer.side == side && PeerInv(m.peer) && Linked(c, m.peer, m.wire, out + m.emitted, s, q)
  }

  /** Handover with both buffers empty: nothing is thrown away. */
  lemma FinishKeeps(c: Cipher, p: Peer, wire: seq<Byte>, emitted: seq<Byte>, out: seq<Byte>, s: Sending, q: Receiving)
    requires SendInv(p.send) && p.send.records == [] && p.send.said && p.recv.heard
    requires p.send.outbound == [] && p.recv.reader == FRESH
    requires Linked(c, p, wire, out + emitted, s, q)
    ensures Finish(p) == p.(phase := Open)
    ensures Kept(c, Finished(p, wire, emitted), p.side, out, s, q)
  {
  }

  lemma HearKeeps(c: Cipher, side: Side, s: Sending, wire: seq<Byte>, r: Receiving, left: seq<Byte>)
    requires Stream(c, side, s, wire, r) && !r.heard && s.said
    requires FrameBytes(c.hello(side)) + (left + Unsent(s)) == Remaining(c, side, s, r)
    ensures Stream(c, side, s, left, r.(reader := FRESH, heard := true))
  {
    var front, v := FrameBytes(c.hello(side)), r.(reader := FRESH, heard := true);
    assert front + (left + Unsent(s)) == front + FramesFrom(c, side, s.records, 0);
    SameBehind(front, left + Unsent(s), FramesFrom(c, side, s.records, 0));
    assert v.reader.data + left + Unsent(s) == left + Unsent(s);
  }

  lemma HelloKeeps(c: Cipher, side: Side, s: Sending, wire: seq<Byte>, r: Receiving)
    requires Stream(c, side, s, wire, r) && !s.said && s.outbound == []
    ensures Stream(c, side, s.(outbound := FrameBytes(c.hello(side)), offset := 0, said := true), wire, r)
  {
    var t := s.(outbound := FrameBytes(c.hello(side)), offset := 0, said := true);
    assert |r.reader.data + wire + Unsent(s)| == 0;
    assert Unsent(t) == t.outbound;
    assert Remaining(c, side, t, r) == FrameBytes(c.hello(side)) + [];
  }

  /** Stopping where the handshake stands, alive or not, throws nothing away either. */
  lemma StopKeeps(c: Cipher, p: Peer, phase: Phase, wire: seq<Byte>, emitted: seq<Byte>, out: seq<Byte>,
                  s: Sending, q: Receiving, status: Status)
    requires PeerInv(p) && p.phase.Shaking? && !phase.Open? && Linked(c, p, wire, out + emitted, s, q)
    ensures Kept(c, Moved(p.(phase := phase), wire, emitted, status), p.side, out, s, q)
  {
  }

  lemma FlushedKeeps(c: Cipher, p: Peer, wire: seq<Byte>, out: seq<Byte>, s: Sending, q: Receiving, answers: seq<Answer>)
    requires SendInv(p.send) && Linked(c, p, wire, out, s, q)
    ensures var f := FlushSend(p.send, answers);
            && SendInv(f.send) && Linked(c, p.(send := f.send), wire, out + f.emitted, s, q)
            && f.send.records == p.send.records && f.send.said == p.send.said
            && (f.status.Flushed? <==> f.send.outbound == [])
  {
    FlushKeeps(c, p.side, p.send, out, q, answers);
  }

  lemma ReplyKeeps(c: Cipher, p: Peer, wire: seq<Byte>, emitted: seq<Byte>, out: seq<Byte>, s: Sending, q: Receiving,
                   answers: seq<Answer>)
    requires Ideal(c) && p.side.Server? && p.phase.Shaking? && SendInv(p.send) && p.send.records == []
    requires !p.send.said && p.send.outbound == [] && p.recv.heard && p.recv.reader == FRESH && p.recv.received == 0
    requires Linked(c, p, wire, out + emitted, s, q)
    ensures Kept(c, Reply(c, p, wire, emitted, answers), p.side, out, s, q)
  {
    var t := p.send.(outbound := FrameBytes(c.hello(p.side)), offset := 0, said := true);
    assert 0 < |c.hello(p.side)| <= MAX_HANDSHAKE;
    HelloKeeps(c, p.side, p.send, out + emitted, q);
    FlushedKeeps(c, p.(send := t), wire, out + emitted, s, q, answers);
    var f := FlushSend(t, answers);
    var moved, all := p.(send := f.send), emitted + f.emitted;
    assert out + emitted + f.emitted == out + all;
    match f.status
    case Flushed => FinishKeeps(c, moved, wire, all, out, s, q);
    case Waiting => StopKeeps(c, moved, Shaking, wire, all, out, s, q, Again);
    case FlushFailed => StopKeeps(c, moved, Dead, wire, all, out, s, q, Error);
  }

  /** Reading the greeting: it comes whole and genuine, or the handshake stays where it was. */
  lemma GreetingKeeps(c: Cipher, p: Peer, wire: seq<Byte>, out: seq<Byte>, s: Sending, q: Receiving, gets: seq<Answer>)
    requires Ideal(c) && !p.recv.heard && Linked(c, p, wire, out, s, q)
    ensures var o := ReadFrame(p.recv.reader, wire, MAX_HANDSHAKE, gets);
            if o.status.Got? then
              && c.greets(Other(p.side), o.status.message) && o.reader == FRESH
              && Linked(c, p.(recv := p.recv.(reader := FRESH, heard := true)), o.wire, out, s, q)
            else Linked(c, p.(recv := p.recv.(reader := o.reader)), o.wire, out, s, q)
  {
    var side := Other(p.side);
    assert 0 < |c.hello(side)| <= MAX_HANDSHAKE && c.greets(side, c.hello(side));
    NextRead(c, side, s, wire, p.recv, MAX_HANDSHAKE, gets);
    var o := ReadFrame(p.recv.reader, wire, MAX_HANDSHAKE, gets);
    if o.status.Got? {
      HearKeeps(c, side, s, wire, p.recv, o.wire);
    }
  }

  lemma GreetKeeps(c: Cipher, p: Peer, wire: seq<Byte>, emitted: seq<Byte>, out: seq<Byte>, s: Sending, q: Receiving,
                   puts: seq<Answer>, gets: seq<Answer>)
    requires Ideal(c) && PeerInv(p) && p.phase.Shaking? && p.send.outbound == []
    requires Linked(c, p, wire, out + emitted, s, q)
    ensures Kept(c, Greet(c, p, wire, emitted, puts, gets), p.side, out, s, q)
  {
    GreetingKeeps(c, p, wire, out + emitted, s, q, gets);
    var o := ReadFrame(p.recv.reader, wire, MAX_HANDSHAKE, gets);
    var moved := p.(recv := p.recv.(reader := o.reader));
    var h := moved.(recv := moved.recv.(heard := true));
    match o.status
    case Stalled => StopKeeps(c, moved, Shaking, o.wire, emitted, out, s, q, Again);
    case Broken(_) => StopKeeps(c, moved, Dead, o.wire, emitted, out, s, q, Error);
    case Got(_) =>
      if p.side.Server? {
        ReplyKeeps(c, h, o.wire, emitted, out, s, q, puts);
      } else {
        FinishKeeps(c, h, o.wire, emitted, out, s, q);
      }
  }

  lemma DriveKeeps(c: Cipher, p: Peer, wire: seq<Byte>, out: seq<Byte>, s: Sending, q: Receiving,
                   puts: seq<Answer>, gets: seq<Answer>)
    requires Ideal(c) && PeerInv(p) && p.phase.Shaking? && Linked(c, p, wire, out, s, q)
    ensures Kept(c, Drive(c, p, wire, puts, gets), p.side, out, s, q)
  {
    if p.send.outbound == [] {
      assert out + [] == out;
      GreetKeeps(c, p, wire, [], out, s, q, puts, gets);
    } else {
      FlushedKeeps(c, p, wire, out, s, q, puts);
      var f := FlushSend(p.send, puts);
      var moved := p.(send := f.send);
      match f.status
      case Waiting => StopKeeps(c, moved, Shaking, wire, f.emitted, out, s, q, Again);
      case FlushFailed => StopKeeps(c, moved, Dead, wire, f.emitted, out, s, q, Error);
      case Flushed =>
        if p.side.Server? {
          FinishKeeps(c, moved, wire, f.emitted, out, s, q);
        } else {
          GreetKeeps(c, moved, wire, f.emitted, out, s, q, [], gets);
        }
    }
  }

  // ------------------------------------------------------------------ every step, every run

  lemma PeerStepKeeps(c: Cipher, p: Peer, wire: seq<Byte>, out: seq<Byte>, s: Sending, q: Receiving, op: Op)
    requires Ideal(c) && PeerInv(p) && CanStep(p, op) && Linked(c, p, wire, out, s, q) && SendInv(s)
    ensures Kept(c, StepPeer(c, p, wire, op), p.side, out, s, q)
  {
    match op
    case Shake(puts, gets) => DriveKeeps(c, p, wire, out, s, q, puts, gets);
    case Send(input, answers) => WriteKeeps(c, p, wire, out, q, input, answers);
    case Sync(answers) => SyncKeeps(c, p, wire, out, q, answers);
    case Receive(room, answers) =>
      ReadKeeps(c, p, wire, s, room, answers);
      assert out + [] == out;
  }

  lemma StepKeeps(c: Cipher, w: World, ev: Event)
    requires Ideal(c) && Inv(c, w) && Enabled(w, ev)
    ensures Inv(c, Apply(c, w, ev))
  {
    if ev.side.Client? {
      PeerStepKeeps(c, w.client, w.down, w.up, w.server.send, w.server.recv, ev.op);
    } else {
      PeerStepKeeps(c, w.server, w.up, w.down, w.client.send, w.client.recv, ev.op);
    }
  }

  lemma {:induction false} RunKeeps(c: Cipher, w: World, events: seq<Event>)
    requires Ideal(c) && Inv(c, w) && Feasible(c, w, events)
    ensures Inv(c, Run(c, w, events))
    decreases |events|
  {
    if events != [] {
      StepKeeps(c, w, events[0]);
      RunKeeps(c, Apply(c, w, events[0]), events[1..]);
    }
  }

  lemma StartStream(c: Cipher, side: Side)
    requires |c.hello(side)| < 0x1_0000
    ensures Stream(c, side, NewPeer(c, side).send, [], DEAF) && Delivers(NewPeer(c, side).send, DEAF)
  {
    var s := NewPeer(c, side).send;
    assert Unsent(s) == s.outbound;
    assert FRESH.data + [] + Unsent(s) == Unsent(s);
    assert FramesFrom(c, side, s.records, 0) == [];
  }

  lemma StartHolds(c: Cipher)
    requires Ideal(c)
    ensures |c.hello(Client)| < 0x1_0000 && |c.hello(Server)| < 0x1_0000 && Inv(c, Start(c))
  {
    assert 0 < |c.hello(Client)| <= MAX_HANDSHAKE && 0 < |c.hello(Server)| <= MAX_HANDSHAKE;
    StartStream(c, Client);
    StartStream(c, Server);
  }

  // ------------------------------------------------------------------ main results

  /** The plaintext a side's writes have accepted. */
  function Accepted(s: Sending): seq<Byte> {
    Flatten(s.records)
  }

  lemma WriteAccepts(c: Cipher, p: Peer, wire: seq<Byte>, input: seq<Byte>, answers: seq<Answer>)
    requires Ideal(c) && p.send.said && p.send.offset <= |p.send.outbound|
    ensures var m := Write(c, p, wire, input, answers);
            if m.status.Done? then m.status.count <= |input| && Accepted(m.peer.send) == Accepted(p.send) + input[..m.status.count]
            else m.peer.send.records == p.send.records
  {
    var flushed := if p.send.outbound != [] then FlushSend(p.send, answers) else Flush(p.send, [], Flushed);
    if flushed.status.Flushed? {
      SealShape(c, p.side, flushed.send, input);
      var part := input[..Min(|input|, MAX_PLAINTEXT)];
      FlattenSnoc(p.send.records, part);
      assert input[..0] == [];
      assert |c.seal(p.side, flushed.send.sent, part)| == |part| + 16;
    }
  }

  lemma {:induction false} FlattenFront(chunks: seq<seq<Byte>>, n: nat)
    requires n <= |chunks|
    ensures IsPrefix(Flatten(chunks[..n]), Flatten(chunks))
  {
    assert chunks == chunks[..n] + chunks[n..];
    FlattenConcat(chunks[..n], chunks[n..]);
  }

  lemma DeliveredInOrder(s: Sending, r: Receiving)
    requires Delivers(s, r)
    ensures IsPrefix(r.delivered, Accepted(s))
  {
    FlattenFront(s.records, r.received);
    var front := Flatten(s.records[..r.received]);
    assert front[..|r.delivered|] == r.delivered;
    assert Accepted(s)[..|front|][..|r.delivered|] == Accepted(s)[..|r.delivered|];
  }

  /**
   * For every schedule of partial lower writes, partial reads, stalls and failures, through the
   * handshake and any number of records: what either side has delivered is a prefix of what the other
   * side's writes accepted.
   */
  lemma DeliveredIsPrefix(c: Cipher, events: seq<Event>)
    requires Ideal(c) && |c.hello(Client)| < 0x1_0000 && |c.hello(Server)| < 0x1_0000
    requires Feasible(c, Start(c), events)
    ensures var w := Run(c, Start(c), events);
            && IsPrefix(w.server.recv.delivered, Accepted(w.client.send))
            && IsPrefix(w.client.recv.delivered, Accepted(w.server.send))
  {
    StartHolds(c);
    RunKeeps(c, Start(c), events);
    var w := Run(c, Start(c), events);
    DeliveredInOrder(w.client.send, w.server.recv);
    DeliveredInOrder(w.server.send, w.client.recv);
  }

  /** While a message is missing, the reader holds less than the stream still owes it. */
  lemma HeldIsPartial(c: Cipher, side: Side, s: Sending, wire: seq<Byte>, r: Receiving)
    requires Ideal(c) && SendInv(s) && Stream(c, side, s, wire, r) && r.heard
    ensures r.received < |s.records| ==> |r.reader.data| < |Remaining(c, side, s, r)|
  {
    NextFits(c, side, s, r);
    if r.received < |s.records| {
      HeadOfRemaining(c, side, s, r, NextMessage(c, side, s, r).value);
    }
  }

  lemma NothingOutstanding(c: Cipher, side: Side, s: Sending, r: Receiving)
    requires Ideal(c) && SendInv(s) && Stream(c, side, s, [], r) && Delivers(s, r)
    requires Unsent(s) == [] && r.heard && r.plaintext == []
    ensures r.delivered == Accepted(s)
  {
    HeldIsPartial(c, side, s, [], r);
    assert |r.reader.data + [] + Unsent(s)| == |r.reader.data|;
    assert s.records[..r.received] == s.records;
    assert r.delivered + r.plaintext[r.used..] == r.delivered;
  }

  /** Nothing stays behind: with the sender's buffer flushed and its stream read empty, all of it has arrived. */
  lemma DrainedMeansDelivered(c: Cipher, events: seq<Event>)
    requires Ideal(c) && |c.hello(Client)| < 0x1_0000 && |c.hello(Server)| < 0x1_0000
    requires Feasible(c, Start(c), events)
    ensures var w := Run(c, Start(c), events);
            && (w.up == [] && w.client.send.outbound == [] && w.server.recv.heard && w.server.recv.plaintext == [] ==>
                  w.server.recv.delivered == Accepted(w.client.send))
            && (w.down == [] && w.server.send.outbound == [] && w.client.recv.heard && w.client.recv.plaintext == [] ==>
                  w.client.recv.delivered == Accepted(w.server.send))
  {
    StartHolds(c);
    RunKeeps(c, Start(c), events);
    var w := Run(c, Start(c), events);
    if w.up == [] && w.client.send.outbound == [] && w.server.recv.heard && w.server.recv.plaintext == [] {
      NothingOutstanding(c, Client, w.client.send, w.server.recv);
    }
    if w.down == [] && w.server.send.outbound == [] && w.client.recv.heard && w.client.recv.plaintext == [] {
      NothingOutstanding(c, Server, w.server.send, w.client.recv);
    }
  }

  // ------------------------------------------------------------------ the end of the stream

  /** Nothing of the next record has left the sender. */
  predicate AtBoundary(c: Cipher, side: Side, s: Sending, r: Receiving) {
    r.received <= |s.records| && Unsent(s) == FramesFrom(c, side, s.records, r.received)
  }

  lemma BoundaryIff(c: Cipher, side: Side, s: Sending, r: Receiving)
    requires Stream(c, side, s, [], r) && r.heard
    ensures r.reader == FRESH <==> AtBoundary(c, side, s, r)
  {
    assert r.reader.data + [] + Unsent(s) == r.reader.data + Unsent(s);
    if AtBoundary(c, side, s, r) {
      assert |r.reader.data + Unsent(s)| == |Unsent(s)|;
    }
  }

  /** What a read that reports the end says of the sender. */
  ghost predicate EndsHonestly(c: Cipher, p: Peer, wire: seq<Byte>, s: Sending, room: nat, answers: seq<Answer>)
    requires p.recv.used <= |p.recv.plaintext|
  {
    var m := Read(c, p, wire, room, answers);
    m.status.AtEnd? && m.wire == [] ==>
      && m.peer.recv.received <= |s.records|
      && m.peer.recv.delivered == Flatten(s.records[..m.peer.recv.received])
      && (m.peer.recv.reader == FRESH <==> AtBoundary(c, Other(p.side), s, m.peer.recv))
  }

  lemma EndOfRead(c: Cipher, p: Peer, wire: seq<Byte>, s: Sending, room: nat, answers: seq<Answer>)
    requires Ideal(c) && PeerInv(p) && p.phase.Open? && SendInv(s)
    requires Stream(c, Other(p.side), s, wire, p.recv) && Delivers(s, p.recv)
    ensures EndsHonestly(c, p, wire, s, room, answers)
  {
    ReadKeeps(c, p, wire, s, room, answers);
    var m := Read(c, p, wire, room, answers);
    if m.status.AtEnd? && m.wire == [] {
      assert m.peer.recv.plaintext[m.peer.recv.used..] == [];
      BoundaryIff(c, Other(p.side), s, m.peer.recv);
    }
  }

  /**
   * In every run, a read that reports the end of an exhausted stream has delivered every whole record it
   * was sent; the stream was cut inside a record if and only if the reader is left holding a part of one,
   * which the reported end does not show.
   */
  lemma EndIsCleanIff(c: Cipher, events: seq<Event>, room: nat, answers: seq<Answer>)
    requires Ideal(c) && |c.hello(Client)| < 0x1_0000 && |c.hello(Server)| < 0x1_0000
    requires Feasible(c, Start(c), events)
    ensures var w := Run(c, Start(c), events);
            && (Enabled(w, Event(Client, Receive(room, answers))) ==>
                  EndsHonestly(c, w.client, w.down, w.server.send, room, answers))
            && (Enabled(w, Event(Server, Receive(room, answers))) ==>
                  EndsHonestly(c, w.server, w.up, w.client.send, room, answers))
  {
    StartHolds(c);
    RunKeeps(c, Start(c), events);
    var w := Run(c, Start(c), events);
    if Enabled(w, Event(Client, Receive(room, answers))) {
      EndOfRead(c, w.client, w.down, w.server.send, room, answers);
    }
    if Enabled(w, Event(Server, Receive(room, answers))) {
      EndOfRead(c, w.server, w.up, w.client.send, room, answers);
    }
  }

  lemma Then(c: Cipher, w: World, ev: Event, rest: seq<Event>)
    requires Enabled(w, ev) && Feasible(c, Apply(c, w, ev), rest)
    ensures Feasible(c, w, [ev] + rest) && Run(c, w, [ev] + rest) == Run(c, Apply(c, w, ev), rest)
  {
    assert ([ev] + rest)[1..] == rest;
  }

  const SPOKEN := Sending([], 0, true, 0, [])
  const LISTENING := Receiving(FRESH, true, 0, [], 0, [])

  lemma FlushesAll(s: Sending)
    requires s.offset == 0 && s.outbound != []
    ensures FlushSend(s, [Progress(|s.outbound|)]) == Flush(s.(outbound := [], offset := 0), s.outbound, Flushed)
  {
    var answers := [Progress(|s.outbound|)];
    assert FlushLoop(|s.outbound|, 0, answers) == FlushLoop(|s.outbound|, |s.outbound|, answers[1..]);
    assert s.outbound[0..|s.outbound|] == s.outbound;
  }

  function HelloFrame(c: Cipher, side: Side): seq<Byte> {
    if |c.hello(side)| < 0x1_0000 then FrameBytes(c.hello(side)) else []
  }

  lemma ClientGreets(c: Cipher)
    requires Ideal(c)
    ensures var n := |HelloFrame(c, Client)|;
            Drive(c, Peer(Client, Shaking, Sending(HelloFrame(c, Client), 0, true, 0, []), DEAF), [], [Progress(n)], [])
            == Moved(Peer(Client, Shaking, SPOKEN, DEAF), [], HelloFrame(c, Client), Again)
  {
    assert 0 < |c.hello(Client)| <= MAX_HANDSHAKE;
    FlushesAll(Sending(HelloFrame(c, Client), 0, true, 0, []));
  }

  lemma ServerReplies(c: Cipher)
    requires Ideal(c)
    ensures Drive(c, Peer(Server, Shaking, SILENT, DEAF), HelloFrame(c, Client), [Progress(|HelloFrame(c, Server)|)],
                  [Progress(2), Progress(|c.hello(Client)|)])
            == Moved(Peer(Server, Open, SPOKEN, LISTENING), [], HelloFrame(c, Server), Done(0))
  {
    assert 0 < |c.hello(Client)| <= MAX_HANDSHAKE && c.greets(Client, c.hello(Client));
    assert 0 < |c.hello(Server)| <= MAX_HANDSHAKE;
    ReadsWhole(c.hello(Client), MAX_HANDSHAKE);
    FlushesAll(SILENT.(outbound := HelloFrame(c, Server), offset := 0, said := true));
  }

  lemma ClientHears(c: Cipher)
    requires Ideal(c)
    ensures Drive(c, Peer(Client, Shaking, SPOKEN, DEAF), HelloFrame(c, Server), [], [Progress(2), Progress(|c.hello(Server)|)])
            == Moved(Peer(Client, Open, SPOKEN, LISTENING), [], [], Done(0))
  {
    assert 0 < |c.hello(Server)| <= MAX_HANDSHAKE && c.greets(Server, c.hello(Server));
    ReadsWhole(c.hello(Server), MAX_HANDSHAKE);
  }

  /** Both sides open, nothing sent since. */
  function Opened(): World {
    World(Peer(Client, Open, SPOKEN, LISTENING), Peer(Server, Open, SPOKEN, LISTENING), [], [])
  }

  /** Any run of two open sides goes on from a handshake. */
  lemma Handshakes(c: Cipher, rest: seq<Event>) returns (events: seq<Event>)
    requires Ideal(c) && |c.hello(Client)| < 0x1_0000 && |c.hello(Server)| < 0x1_0000
    requires Feasible(c, Opened(), rest)
    ensures Feasible(c, Start(c), events) && Run(c, Start(c), events) == Run(c, Opened(), rest)
  {
    var e1 := Event(Client, Shake([Progress(|HelloFrame(c, Client)|)], []));
    var e2 := Event(Server, Shake([Progress(|HelloFrame(c, Server)|)], [Progress(2), Progress(|c.hello(Client)|)]));
    var e3 := Event(Client, Shake([], [Progress(2), Progress(|c.hello(Server)|)]));
    var w1 := World(Peer(Client, Shaking, SPOKEN, DEAF), NewPeer(c, Server), HelloFrame(c, Client), []);
    var w2 := World(Peer(Client, Shaking, SPOKEN, DEAF), Peer(Server, Open, SPOKEN, LISTENING), [], HelloFrame(c, Server));
    ClientGreets(c);
    assert [] + HelloFrame(c, Client) == HelloFrame(c, Client);
    assert Apply(c, Start(c), e1) == w1;
    ServerReplies(c);
    assert [] + HelloFrame(c, Server) == HelloFrame(c, Server);
    assert Apply(c, w1, e2) == w2;
    ClientHears(c);
    assert Apply(c, w2, e3) == Opened();
    Then(c, w2, e3, rest);
    Then(c, w1, e2, [e3] + rest);
    Then(c, Start(c), e1, [e2] + ([e3] + rest));
    events := [e1] + ([e2] + ([e3] + rest));
  }

  /** The server seals one byte and only the first byte of the record goes out. */
  lemma SendsOneByte(c: Cipher) returns (events: seq<Event>)
    requires Ideal(c)
    ensures Feasible(c, Opened(), events)
    ensures var v := Run(c, Opened(), events);
            v.client == Opened().client && |v.down| == 1 && Accepted(v.server.send) == [7]
  {
    var e4, e5 := Event(Server, Send([7], [])), Event(Server, Sync([Progress(1)]));
    var record := Sealed(c, Server, 0, [7]);
    SealShape(c, Server, SPOKEN, [7]);
    assert [7][..1] == [7] && [] + [[7]] == [[7]];
    assert |c.seal(Server, 0, [7])| == 17;
    var w4 := Opened().(server := Peer(Server, Open, Sending(record, 0, true, 1, [[7]]), LISTENING));
    assert Apply(c, Opened(), e4) == w4;
    var answers := [Progress(1)];
    assert FlushLoop(|record|, 0, answers) == FlushLoop(|record|, 1, answers[1..]) == FlushOutcome(1, Waiting);
    Then(c, w4, e5, []);
    Then(c, Opened(), e4, [e5] + []);
    events := [e4] + ([e5] + []);
    var seven: seq<Byte> := [7];
    FlattenTwo(seven, seven);
  }

  lemma CutRead(c: Cipher, wire: seq<Byte>)
    requires |wire| == 1
    ensures var m := Read(c, Opened().client, wire, 1, [Progress(1), Eof]);
            m.status.AtEnd? && m.wire == [] && m.peer.recv.delivered == [] && m.peer.recv.reader != FRESH
  {
    EndsInHeader(wire, MAX_CIPHERTEXT);
  }

  /** A record cut off after its first byte ends the stream as if it were complete. */
  lemma EndMayCutRecord(c: Cipher) returns (events: seq<Event>)
    requires Ideal(c) && |c.hello(Client)| < 0x1_0000 && |c.hello(Server)| < 0x1_0000
    ensures Feasible(c, Start(c), events)
    ensures var w := Run(c, Start(c), events);
            && Enabled(w, Event(Client, Receive(1, [Progress(1), Eof]))) && Accepted(w.server.send) == [7]
            && var m := Read(c, w.client, w.down, 1, [Progress(1), Eof]);
               m.status.AtEnd? && m.wire == [] && m.peer.recv.delivered == [] && m.peer.recv.reader != FRESH
  {
    var sending := SendsOneByte(c);
    events := Handshakes(c, sending);
    CutRead(c, Run(c, Start(c), events).down);
  }

  // ------------------------------------------------------------------ the handover

  lemma OpenIsFresh(c: Cipher, p: Peer, wire: seq<Byte>, puts: seq<Answer>, gets: seq<Answer>)
    requires p.phase.Shaking? && p.send.offset <= |p.send.outbound|
    ensures var m := Drive(c, p, wire, puts, gets);
            m.peer.phase.Open? ==>
              m.peer.recv.reader == FRESH && m.peer.send.outbound == [] && m.peer.recv.received == p.recv.received
  {
  }

  /** The side has just opened: all it said is out, and its incoming stream stands at the first record. */
  ghost predicate HandedOver(c: Cipher, p: Peer, wire: seq<Byte>, out: seq<Byte>, s: Sending, q: Receiving) {
    && |c.hello(p.side)| < 0x1_0000 && q.received <= |p.send.records|
    && p.recv.reader == FRESH && p.recv.received == 0
    && wire + Unsent(s) == FramesFrom(c, Other(p.side), s.records, 0)
    && q.reader.data + out == Remaining(c, p.side, p.send, q)
  }

  lemma LinkedHandover(c: Cipher, p: Peer, wire: seq<Byte>, out: seq<Byte>, s: Sending, q: Receiving)
    requires Linked(c, p, wire, out, s, q) && p.recv.heard && p.recv.reader == FRESH && p.recv.received == 0
    requires p.send.outbound == []
    ensures HandedOver(c, p, wire, out, s, q)
  {
    assert p.recv.reader.data + wire + Unsent(s) == wire + Unsent(s);
    assert Unsent(p.send) == [];
    assert q.reader.data + out + Unsent(p.send) == q.reader.data + out;
  }

  lemma DriveHandsOver(c: Cipher, p: Peer, wire: seq<Byte>, out: seq<Byte>, s: Sending, q: Receiving,
                       puts: seq<Answer>, gets: seq<Answer>)
    requires PeerInv(p) && p.phase.Shaking? && Kept(c, Drive(c, p, wire, puts, gets), p.side, out, s, q)
    ensures var m := Drive(c, p, wire, puts, gets);
            m.peer.phase.Open? ==> HandedOver(c, m.peer, m.wire, out + m.emitted, s, q)
  {
    OpenIsFresh(c, p, wire, puts, gets);
    var m := Drive(c, p, wire, puts, gets);
    if m.peer.phase.Open? {
      LinkedHandover(c, m.peer, m.wire, out + m.emitted, s, q);
    }
  }

  /**
   * The handover loses and over-reads no byte: in every run, the call that opens a side leaves the
   * incoming stream exactly at the first record frame and has put all the side said on its stream.
   */
  lemma HandoverExact(c: Cipher, events: seq<Event>, puts: seq<Answer>, gets: seq<Answer>)
    requires Ideal(c) && |c.hello(Client)| < 0x1_0000 && |c.hello(Server)| < 0x1_0000
    requires Feasible(c, Start(c), events)
    ensures var w := Run(c, Start(c), events);
            && (Enabled(w, Event(Client, Shake(puts, gets))) ==>
                  var m := Drive(c, w.client, w.down, puts, gets);
                  m.peer.phase.Open? ==> HandedOver(c, m.peer, m.wire, w.up + m.emitted, w.server.send, w.server.recv))
            && (Enabled(w, Event(Server, Shake(puts, gets))) ==>
                  var m := Drive(c, w.server, w.up, puts, gets);
                  m.peer.phase.Open? ==> HandedOver(c, m.peer, m.wire, w.down + m.emitted, w.client.send, w.client.recv))
  {
    StartHolds(c);
    RunKeeps(c, Start(c), events);
    var w := Run(c, Start(c), events);
    if w.client.phase.Shaking? {
      DriveKeeps(c, w.client, w.down, w.up, w.server.send, w.server.recv, puts, gets);
      DriveHandsOver(c, w.client, w.down, w.up, w.server.send, w.server.recv, puts, gets);
    }
    if w.server.phase.Shaking? {
      DriveKeeps(c, w.server, w.up, w.down, w.client.send, w.client.recv, puts, gets);
      DriveHandsOver(c, w.server, w.up, w.down, w.client.send, w.client.recv, puts, gets);
    }
  }

  /** A read never meets a bad frame or a record that does not open: it fails only where the stream below does. */
  predicate FailsOnlyBelow(c: Cipher, p: Peer, wire: seq<Byte>, room: nat, answers: seq<Answer>) {
    p.recv.used <= |p.recv.plaintext| && Read(c, p, wire, room, answers).status.Error? ==>
      || p.recv.received >= RECORD_LIMIT
      || (var o := ReadFrame(p.recv.reader, wire, MAX_CIPHERTEXT, answers); o.status == Broken(IoError))
  }

  lemma ReadIsClean(c: Cipher, p: Peer, wire: seq<Byte>, s: Sending, room: nat, answers: seq<Answer>)
    requires Ideal(c) && p.recv.heard && SendInv(s) && Stream(c, Other(p.side), s, wire, p.recv)
    ensures FailsOnlyBelow(c, p, wire, room, answers)
  {
    NextFits(c, Other(p.side), s, p.recv);
    NextRead(c, Other(p.side), s, wire, p.recv, MAX_CIPHERTEXT, answers);
  }

  /** So it is in every run, for any next read of either side. */
  lemma ReadsFailOnlyBelow(c: Cipher, events: seq<Event>, room: nat, answers: seq<Answer>)
    requires Ideal(c) && |c.hello(Client)| < 0x1_0000 && |c.hello(Server)| < 0x1_0000
    requires Feasible(c, Start(c), events)
    ensures var w := Run(c, Start(c), events);
            && (w.client.phase.Open? ==> FailsOnlyBelow(c, w.client, w.down, room, answers))
            && (w.server.phase.Open? ==> FailsOnlyBelow(c, w.server, w.up, room, answers))
  {
    StartHolds(c);
    RunKeeps(c, Start(c), events);
    var w := Run(c, Start(c), events);
    if w.client.phase.Open? {
      ReadIsClean(c, w.client, w.down, w.server.send, room, answers);
    }
    if w.server.phase.Open? {
      ReadIsClean(c, w.server, w.up, w.client.send, room, answers);
    }
  }

  // ------------------------------------------------------------------ in place

  /** `PendingHandshake` and `Wrapped` with their buffers and counters updated by each call. */
  class Connection {
    const cipher: Cipher
    const side: Side
    var phase: Phase
    var outbound: seq<Byte>
    var offset: nat
    var said: bool
    var heard: bool
    var inbound: FrameBuffer
    var plaintext: seq<Byte>
    var used: nat
    var sent: nat
    var received: nat
    ghost var records: seq<seq<Byte>>
    ghost var delivered: seq<Byte>

    ghost function View(): Peer
      reads this, inbound
    {
      Peer(side, phase, Sending(outbound, offset, said, sent, records),
           Receiving(inbound.View(), heard, received, plaintext, used, delivered))
    }

    ghost predicate Valid()
      reads this
    {
      offset <= |outbound| && used <= |plaintext|
    }

    constructor (cipher: Cipher, side: Side)
      requires |cipher.hello(side)| < 0x1_0000
      ensures Valid() && View() == NewPeer(cipher, side) && this.cipher == cipher && fresh(inbound)
    {
      this.cipher, this.side, phase := cipher, side, Shaking;
      outbound := if side.Client? then FrameBytes(cipher.hello(side)) else [];
      offset, said, heard, sent, received := 0, side.Client?, false, 0, 0;
      inbound := new FrameBuffer();
      plaintext, used, records, delivered := [], 0, [], [];
    }

    method FlushOutbound(answers: seq<Answer>) returns (emitted: seq<Byte>, status: FlushStatus)
      requires Valid()
      modifies `outbound, `offset
      ensures Valid()
      ensures var f := FlushSend(old(View()).send, answers);
              View() == old(View()).(send := f.send) && emitted == f.emitted && status == f.status
    {
      offset, emitted, status := FlushBytes(outbound, offset, answers);
      if status.Flushed? {
        outbound, offset := [], 0;
      }
    }

    method WriteBytes(input: seq<Byte>, answers: seq<Answer>) returns (emitted: seq<Byte>, status: Status)
      requires Valid()
      modifies `outbound, `offset, `sent, `records
      ensures Valid()
      ensures forall wire :: Moved(View(), wire, emitted, status) == Write(cipher, old(View()), wire, input, answers)
    {
      emitted := [];
      if outbound != [] {
        var flushed;
        emitted, flushed := FlushOutbound(answers);
        match flushed {
          case Waiting => return emitted, Again;
          case FlushFailed => return emitted, Error;
          case Flushed =>
        }
      }
      if input == [] {
        return emitted, Done(0);
      }
      if sent >= RECORD_LIMIT {
        return emitted, Error;
      }
      var part := input[..Min(|input|, MAX_PLAINTEXT)];
      var framed := Frame(cipher.seal(side, sent, part), MAX_CIPHERTEXT);
      if framed.None? {
        return emitted, Error;
      }
      outbound, offset, sent := framed.value, 0, sent + 1;
      records := records + [part];
      status := Done(|part|);
    }

    method CopyOut(room: nat) returns (output: seq<Byte>)
      requires Valid()
      modifies `plaintext, `used, `delivered
      ensures Valid()
      ensures var (recv, count) := CopyPlaintext(old(View()).recv, room);
              View() == old(View()).(recv := recv) && |output| == count && delivered == old(delivered) + output
    {
      if room == 0 {
        return [];
      }
      var count := Min(|plaintext| - used, room);
      output := plaintext[used..used + count];
      used := used + count;
      delivered := delivered + output;
      if used == |plaintext| {
        plaintext, used := [], 0;
      }
    }

    method ReadBytes(wire: seq<Byte>, room: nat, answers: seq<Answer>)
      returns (left: seq<Byte>, output: seq<Byte>, status: Status)
      requires Valid()
      modifies `plaintext, `used, `delivered, `received, inbound
      ensures Valid() && delivered == old(delivered) + output
      ensures Moved(View(), left, [], status) == Read(cipher, old(View()), wire, room, answers)
    {
      left, output := wire, [];
      if used < |plaintext| {
        output := CopyOut(room);
        return left, output, Done(|output|);
      }
      if received >= RECORD_LIMIT {
        return left, output, Error;
      }
      var got;
      left, got := inbound.ReadFrameLoop(wire, MAX_CIPHERTEXT, answers);
      match got
      case Stalled => status := Again;
      case Broken(error) => status := if error.EndOfStream? then AtEnd else Error;
      case Got(message) =>
        var clear := cipher.unseal(Other(side), received, message);
        if !Usable(clear) {
          status := Error;
        } else {
          received, plaintext, used := received + 1, clear.value, 0;
          output := CopyOut(room);
          status := Done(|output|);
        }
    }

    method FinishHandshake() returns (status: Status)
      requires Valid()
      modifies `phase, `outbound, `offset, `inbound
      ensures Valid() && (inbound == old(inbound) || fresh(inbound))
      ensures View() == Finish(old(View())) && status == if phase.Open? then Done(0) else Error
    {
      if said && heard {
        phase, outbound, offset := Open, [], 0;
        inbound := new FrameBuffer();
        status := Done(0);
      } else {
        phase, status := Dead, Error;
      }
    }

    method SendReply(wire: seq<Byte>, before: seq<Byte>, answers: seq<Answer>) returns (emitted: seq<Byte>, status: Status)
      requires Valid()
      modifies `phase, `outbound, `offset, `said, `inbound
      ensures Valid() && (inbound == old(inbound) || fresh(inbound))
      ensures Moved(View(), wire, emitted, status) == Reply(cipher, old(View()), wire, before, answers)
    {
      var framed := Frame(cipher.hello(side), MAX_HANDSHAKE);
      if framed.None? {
        phase := Dead;
        return before, Error;
      }
      outbound, offset, said := framed.value, 0, true;
      var flushed;
      emitted, flushed := FlushOutbound(answers);
      emitted := before + emitted;
      match flushed
      case Flushed => status := FinishHandshake();
      case Waiting => status := Again;
      case FlushFailed => phase, status := Dead, Error;
    }

    method ReadGreeting(wire: seq<Byte>, before: seq<Byte>, puts: seq<Answer>, gets: seq<Answer>)
      returns (left: seq<Byte>, emitted: seq<Byte>, status: Status)
      requires Valid()
      modifies `phase, `outbound, `offset, `said, `heard, `inbound, inbound
      ensures Valid() && (inbound == old(inbound) || fresh(inbound))
      ensures Moved(View(), left, emitted, status) == Greet(cipher, old(View()), wire, before, puts, gets)
    {
      var got;
      left, got := inbound.ReadFrameLoop(wire, MAX_HANDSHAKE, gets);
      emitted := before;
      match got
      case Stalled => status := Again;
      case Broken(_) => phase, status := Dead, Error;
      case Got(message) =>
        if !cipher.greets(Other(side), message) {
          phase, status := Dead, Error;
        } else {
          heard := true;
          if side.Server? {
            emitted, status := SendReply(left, before, puts);
          } else {
            status := FinishHandshake();
          }
        }
    }

    method DriveHandshake(wire: seq<Byte>, puts: seq<Answer>, gets: seq<Answer>)
      returns (left: seq<Byte>, emitted: seq<Byte>, status: Status)
      requires Valid()
      modifies `phase, `outbound, `offset, `said, `heard, `inbound, inbound
      ensures Valid() && (inbound == old(inbound) || fresh(inbound))
      ensures Moved(View(), left, emitted, status) == Drive(cipher, old(View()), wire, puts, gets)
    {
      if outbound == [] {
        left, emitted, status := ReadGreeting(wire, [], puts, gets);
        return;
      }
      var flushed;
      emitted, flushed := FlushOutbound(puts);
      left := wire;
      match flushed
      case Waiting => status := Again;
      case FlushFailed => phase, status := Dead, Error;
      case Flushed =>
        if side.Server? {
          status := FinishHandshake();
        } else {
          left, emitted, status := ReadGreeting(wire, emitted, [], gets);
        }
    }
  }
}
