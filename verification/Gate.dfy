/**
 * A policy flow: the sniffer holds everything back until the buffered prefix is allowed, then the
 * prefix goes to the stack and two pumps copy the rest.
 */
module Gate {
  import opened Basics
  import opened Sniff
  import opened Rules

  /** What `mux.poll_read` gives. */
  datatype Read = Data(bytes: seq<Byte>) | Eof | NotReady | Broken

  /** One turn of the sniff loop: whether the deadline has passed, and the read if one is made. */
  datatype Tick = Tick(expired: bool, read: Read)

  datatype WriteResult = Wrote(count: nat) | WriteBroken | WriteNotReady

  datatype Ruling = Admitted | Denied | Undecided | ReadBroken

  // ------------------------------------------------------------------ the sniff loop

  function NextTick(ticks: seq<Tick>): Tick {
    if ticks == [] then Tick(false, NotReady) else ticks[0]
  }

  function RuleOn(p: Policy, c: Classification): Ruling {
    if c.Complete? && Allowed(p, c.observed) then Admitted else Denied
  }

  /** A read returns between one byte and the buffer offered to it. */
  predicate ReadFits(max: nat, prefix: seq<Byte>, read: Read) {
    read.Data? ==> 1 <= |read.bytes| <= Min(SatSub(max, |prefix|), 1024)
  }

  predicate Fits(max: nat, prefix: seq<Byte>, ticks: seq<Tick>)
    decreases |ticks|
  {
    ticks == [] || (ReadFits(max, prefix, ticks[0].read)
                    && (ticks[0].read.Data? ==> Fits(max, prefix + ticks[0].read.bytes, ticks[1..])))
  }

  /** The ruling of the loop and the prefix it has buffered. */
  function SniffRun(p: Policy, max: nat, prefix: seq<Byte>, ticks: seq<Tick>): (Ruling, seq<Byte>)
    decreases |ticks|
  {
    var t := NextTick(ticks);
    var c := ClassifyTcp(prefix, |prefix| >= max || t.expired);
    if c.Complete? then (RuleOn(p, c), prefix)
    else match t.read
         case NotReady => (Undecided, prefix)
         case Broken => (ReadBroken, prefix)
         case Eof => (RuleOn(p, ClassifyTcp(prefix, true)), prefix)
         case Data(bytes) => SniffRun(p, max, prefix + bytes, ticks[1..])
  }

  /** The bytes the loop's reads have returned. */
  function Consumed(p: Policy, max: nat, prefix: seq<Byte>, ticks: seq<Tick>): seq<Byte>
    decreases |ticks|
  {
    var t := NextTick(ticks);
    if ClassifyTcp(prefix, |prefix| >= max || t.expired).Complete? || !t.read.Data? then []
    else t.read.bytes + Consumed(p, max, prefix + t.read.bytes, ticks[1..])
  }

  /** The loop buffers exactly what it reads, in order. */
  lemma {:induction false} BuffersWhatItReads(p: Policy, max: nat, prefix: seq<Byte>, ticks: seq<Tick>)
    ensures SniffRun(p, max, prefix, ticks).1 == prefix + Consumed(p, max, prefix, ticks)
    decreases |ticks|
  {
    var t := NextTick(ticks);
    if !ClassifyTcp(prefix, |prefix| >= max || t.expired).Complete? && t.read.Data? {
      BuffersWhatItReads(p, max, prefix + t.read.bytes, ticks[1..]);
      var more := Consumed(p, max, prefix + t.read.bytes, ticks[1..]);
      assert prefix + t.read.bytes + more == prefix + (t.read.bytes + more);
    }
  }

  // ------------------------------------------------------------------ the flow object

  datatype Flow = Flow(sniffing: bool, policy: Policy, max: nat, prefix: seq<Byte>, allowed: bool, offset: nat)

  datatype Report = Progress(written: nat) | Pending | Failed

  function Ruled(f: Flow, ticks: seq<Tick>): (Flow, Ruling) {
    if f.allowed then (f, Admitted)
    else
      var (ruling, prefix) := SniffRun(f.policy, f.max, f.prefix, ticks);
      (f.(prefix := prefix, allowed := ruling.Admitted?), ruling)
  }

  /** Writes the prefix of an allowed flow to the stack, at most `maxWrite` bytes of it. */
  function Drain(f: Flow, write: WriteResult, maxWrite: nat): (Flow, Report) {
    if f.offset >= |f.prefix| then (f.(sniffing := false, offset := 0), Progress(0))
    else if maxWrite == 0 then (f, Pending)
    else match write
         case WriteNotReady => (f, Pending)
         case WriteBroken => (f, Failed)
         case Wrote(n) =>
           if n == 0 then (f, Failed)
           else if f.offset + n == |f.prefix| then (f.(sniffing := false, offset := 0), Progress(n))
           else (f.(offset := f.offset + n), Progress(n))
  }

  function PollSniff(f: Flow, ticks: seq<Tick>, write: WriteResult, maxWrite: nat): (Flow, Report) {
    if !f.sniffing then (f, Progress(0))
    else
      var (f1, ruling) := Ruled(f, ticks);
      match ruling
      case Admitted => Drain(f1, write, maxWrite)
      case Undecided => (f1, Pending)
      case _ => (f1, Failed)
  }

  class PolicyFlow {
    const policy: Policy
    const maxBytes: nat
    var sniffing: bool
    var prefix: seq<Byte>
    var allowed: bool
    var offset: nat

    ghost function View(): Flow
      reads this
    {
      Flow(sniffing, policy, maxBytes, prefix, allowed, offset)
    }

    constructor (policy: Policy, maxBytes: nat)
      ensures View() == Flow(true, policy, maxBytes, [], false, 0)
    {
      this.policy, this.maxBytes := policy, maxBytes;
      sniffing, prefix, allowed, offset := true, [], false, 0;
    }

    /**
     * The sniff loop ends because every turn either rules or buffers at least one of the
     * `maxBytes - |prefix|` bytes left, and a full prefix is always ruled on.
     */
    method SniffLoop(ticks: seq<Tick>) returns (ruling: Ruling)
      requires !allowed && Fits(maxBytes, prefix, ticks)
      modifies this`prefix, this`allowed
      ensures (View(), ruling) == Ruled(old(View()), ticks)
    {
      var i := 0;
      assert ticks[0..] == ticks;
      while true
        invariant i <= |ticks| && !allowed && Fits(maxBytes, prefix, ticks[i..])
        invariant SniffRun(policy, maxBytes, prefix, ticks[i..]) == SniffRun(policy, maxBytes, old(prefix), ticks)
        decreases SatSub(maxBytes, |prefix|)
      {
        var tick := if i < |ticks| then ticks[i] else Tick(false, NotReady);
        assert tick == NextTick(ticks[i..]);
        var complete := |prefix| >= maxBytes || tick.expired;
        var c := ClassifyTcp(prefix, complete);
        if c.Complete? {
          var fine := ObservedAllowed(policy, c.observed);
          allowed := fine;
          return if fine then Admitted else Denied;
        }
        CompleteDecides(prefix);
        match tick.read
        case NotReady => return Undecided;
        case Broken => return ReadBroken;
        case Eof =>
          var last := ClassifyTcp(prefix, true);
          var fine := ObservedAllowed(policy, last.observed);
          allowed := fine;
          return if fine then Admitted else Denied;
        case Data(bytes) =>
          assert ticks[i..][1..] == ticks[i + 1..];
          prefix := prefix + bytes;
          i := i + 1;
      }
    }

    method Poll(ticks: seq<Tick>, write: WriteResult, maxWrite: nat) returns (r: Report)
      requires Fits(maxBytes, prefix, ticks)
      modifies this
      ensures (View(), r) == PollSniff(old(View()), ticks, write, maxWrite)
    {
      if !sniffing {
        return Progress(0);
      }
      if !allowed {
        var ruling := SniffLoop(ticks);
        if ruling.Undecided? {
          return Pending;
        }
        if !ruling.Admitted? {
          return Failed;
        }
      }
      if offset < |prefix| {
        if maxWrite == 0 {
          return Pending;
        }
        match write
        case WriteNotReady => return Pending;
        case WriteBroken => return Failed;
        case Wrote(n) =>
          if n == 0 {
            return Failed;
          }
          offset := offset + n;
          if offset == |prefix| {
            sniffing, offset := false, 0;
          }
          return Progress(n);
      }
      sniffing, offset := false, 0;
      return Progress(0);
    }
  }

  // ------------------------------------------------------------------ fragmentation does not matter

  /** The ticks deliver the stream: each chunk is its next piece, and the end comes at its end. */
  predicate Delivers(stream: seq<Byte>, at: nat, ticks: seq<Tick>)
    requires at <= |stream|
    decreases |ticks|
  {
    ticks == [] || match ticks[0].read
                   case Data(bytes) =>
                     && at + |bytes| <= |stream| && stream[at..at + |bytes|] == bytes
                     && Delivers(stream, at + |bytes|, ticks[1..])
                   case Eof => at == |stream|
                   case _ => true
  }

  predicate InTime(ticks: seq<Tick>) {
    forall i :: 0 <= i < |ticks| ==> !ticks[i].expired
  }

  /** The bytes the sniffer may look at. */
  function Window(stream: seq<Byte>, max: nat): seq<Byte> {
    stream[..Min(max, |stream|)]
  }

  /** A verdict on the bytes read so far is the verdict on the window. */
  lemma VerdictOnWindow(max: nat, stream: seq<Byte>, at: nat)
    requires at <= |stream| && at <= max && ClassifyTcp(stream[..at], at >= max).Complete?
    ensures ClassifyTcp(Window(stream, max), true) == ClassifyTcp(stream[..at], at >= max)
  {
    if at < max {
      assert Window(stream, max) == stream[..at] + stream[at..Min(max, |stream|)];
      VerdictStable(stream[..at], stream[at..Min(max, |stream|)], true);
    }
  }

  /** A ruling, where there is one, is that on the window; the buffered prefix is the front of the stream. */
  predicate RulesLikeWindow(p: Policy, max: nat, stream: seq<Byte>, run: (Ruling, seq<Byte>)) {
    && (run.0.Admitted? || run.0.Denied? ==> run.0 == RuleOn(p, ClassifyTcp(Window(stream, max), true)))
    && |run.1| <= max && IsPrefix(run.1, stream)
  }

  /**
   * However the stream is cut into reads, and wherever the loop was interrupted before, a ruling
   * made before the deadline is the one on the first `max` bytes of the stream as a whole.
   */
  lemma {:induction false} RulingIgnoresFragmentation(p: Policy, max: nat, stream: seq<Byte>, at: nat, ticks: seq<Tick>)
    requires at <= |stream| && at <= max
    requires Fits(max, stream[..at], ticks) && Delivers(stream, at, ticks) && InTime(ticks)
    ensures RulesLikeWindow(p, max, stream, SniffRun(p, max, stream[..at], ticks))
    decreases |ticks|
  {
    var t := NextTick(ticks);
    var c := ClassifyTcp(stream[..at], at >= max);
    if c.Complete? {
      VerdictOnWindow(max, stream, at);
    } else if t.read.Data? {
      var bytes := t.read.bytes;
      assert stream[..at] + bytes == stream[..at + |bytes|];
      RulingIgnoresFragmentation(p, max, stream, at + |bytes|, ticks[1..]);
    } else if t.read.Eof? {
      assert Window(stream, max) == stream[..at];
    }
  }

  // ------------------------------------------------------------------ whole runs of a flow

  /** One pump poll: bytes read from its source and how many of those buffered it wrote. */
  datatype Move = Move(read: seq<Byte>, written: nat)

  /** The arguments of a poll and what the four endpoints do in it. */
  datatype Poll = Poll(
    maxStackToMux: nat,
    maxMuxToStack: nat,
    maxTotal: nat,
    ticks: seq<Tick>,
    write: WriteResult,
    up: Move,
    down: Move)

  datatype World = World(
    flow: Flow,
    upBuffer: seq<Byte>,
    downBuffer: seq<Byte>,
    muxIn: seq<Byte>,       // everything read from the mux
    stackOut: seq<Byte>,    // everything written to the stack
    stackIn: seq<Byte>,     // everything read from the stack
    muxOut: seq<Byte>,      // everything written to the mux
    cleared: seq<Byte>)     // the prefix that was allowed through

  /** A pump copies in order and writes at most what it was allowed. */
  predicate PumpObeys(buffer: seq<Byte>, m: Move, max: nat) {
    m.written <= |buffer + m.read| && m.written <= max
  }

  function AfterGate(w: World, p: Poll): (Flow, Report) {
    PollSniff(w.flow, p.ticks, p.write, Min(p.maxMuxToStack, p.maxTotal))
  }

  function GateWritten(w: World, p: Poll): nat {
    var r := AfterGate(w, p).1;
    if r.Progress? then r.written else 0
  }

  /** The pumps run only once the flow is past the sniffer. */
  predicate Pumping(w: World, p: Poll) {
    AfterGate(w, p).1.Progress? && !AfterGate(w, p).0.sniffing
  }

  predicate Enabled(w: World, p: Poll) {
    && Fits(w.flow.max, w.flow.prefix, p.ticks)
    && (p.write.Wrote? && w.flow.sniffing ==>
          w.flow.offset + p.write.count <= Min(|Ruled(w.flow, p.ticks).0.prefix|, w.flow.offset + Min(p.maxMuxToStack, p.maxTotal)))
    && PumpObeys(w.upBuffer, p.up, Min(p.maxStackToMux, p.maxTotal))
    && PumpObeys(w.downBuffer, p.down,
                 Min(p.maxMuxToStack, SatSub(SatSub(p.maxTotal, p.up.written), GateWritten(w, p))))
  }

  /** What a sniffing flow reads from the mux: nothing any more once its prefix is allowed. */
  function ReadByGate(f: Flow, ticks: seq<Tick>): seq<Byte> {
    if f.allowed then [] else Consumed(f.policy, f.max, f.prefix, ticks)
  }

  /** The sniffing part of a poll. */
  function Sniffed(w: World, p: Poll): World {
    var (f, r) := AfterGate(w, p);
    var seen := Ruled(w.flow, p.ticks).0.prefix;
    if !w.flow.sniffing then w
    else
      w.(flow := f,
         muxIn := w.muxIn + ReadByGate(w.flow, p.ticks),
         stackOut := w.stackOut + (if r.Progress? && w.flow.offset + r.written <= |seen|
                                   then seen[w.flow.offset..w.flow.offset + r.written] else []),
         cleared := if f.sniffing then w.cleared else seen)
  }

  function Pumped(w: World, p: Poll): World {
    var up, down := w.upBuffer + p.up.read, w.downBuffer + p.down.read;
    if p.up.written > |up| || p.down.written > |down| then w
    else
      w.(upBuffer := up[p.up.written..],
         stackIn := w.stackIn + p.up.read,
         muxOut := w.muxOut + up[..p.up.written],
         downBuffer := down[p.down.written..],
         muxIn := w.muxIn + p.down.read,
         stackOut := w.stackOut + down[..p.down.written])
  }

  function Apply(w: World, p: Poll): World {
    if Pumping(w, p) then Pumped(Sniffed(w, p), p) else Sniffed(w, p)
  }

  function Run(w: World, polls: seq<Poll>): World
    decreases |polls|
  {
    if polls == [] then w else Run(Apply(w, polls[0]), polls[1..])
  }

  predicate Feasible(w: World, polls: seq<Poll>)
    decreases |polls|
  {
    polls == [] || (Enabled(w, polls[0]) && Feasible(Apply(w, polls[0]), polls[1..]))
  }

  function Start(policy: Policy, max: nat): World {
    World(Flow(true, policy, max, [], false, 0), [], [], [], [], [], [], [])
  }

  /** Some classification of the prefix, complete or not, is allowed by the policy. */
  ghost predicate Justified(p: Policy, prefix: seq<Byte>) {
    exists complete :: RuleOn(p, ClassifyTcp(prefix, complete)).Admitted?
  }

  ghost predicate Inv(w: World) {
    var f := w.flow;
    if f.sniffing then
      && w.upBuffer == w.downBuffer == w.stackIn == w.muxOut == []
      && w.muxIn == f.prefix && f.offset <= |f.prefix| && w.stackOut == f.prefix[..f.offset]
      && (if f.allowed then Justified(f.policy, f.prefix) else f.offset == 0)
    else
      && w.muxIn == w.stackOut + w.downBuffer
      && w.stackIn == w.muxOut + w.upBuffer
      && Justified(f.policy, w.cleared) && IsPrefix(w.cleared, w.muxIn)
  }

  lemma {:induction false} AdmittedIsJustified(p: Policy, max: nat, prefix: seq<Byte>, ticks: seq<Tick>)
    ensures var (ruling, seen) := SniffRun(p, max, prefix, ticks);
            IsPrefix(prefix, seen) && (ruling.Admitted? ==> Justified(p, seen))
    decreases |ticks|
  {
    var t := NextTick(ticks);
    var c := ClassifyTcp(prefix, |prefix| >= max || t.expired);
    if !c.Complete? && t.read.Data? {
      AdmittedIsJustified(p, max, prefix + t.read.bytes, ticks[1..]);
      var seen := SniffRun(p, max, prefix, ticks).1;
      assert seen[..|prefix|] == seen[..|prefix + t.read.bytes|][..|prefix|];
    }
  }

  /** A ruling only extends the prefix, and allows it only with a reason. */
  lemma RuledKeeps(f: Flow, ticks: seq<Tick>)
    requires if f.allowed then Justified(f.policy, f.prefix) else f.offset == 0
    ensures var (g, ruling) := Ruled(f, ticks);
            && g == f.(prefix := g.prefix, allowed := ruling.Admitted?) && IsPrefix(f.prefix, g.prefix)
            && g.prefix == f.prefix + ReadByGate(f, ticks)
            && (if g.allowed then Justified(f.policy, g.prefix) else f.offset == 0)
  {
    if !f.allowed {
      AdmittedIsJustified(f.policy, f.max, f.prefix, ticks);
      BuffersWhatItReads(f.policy, f.max, f.prefix, ticks);
    }
  }

  /** What a drain wrote lies in the prefix, and the gate opens exactly when all of it is out. */
  lemma DrainKeeps(f: Flow, write: WriteResult, maxWrite: nat)
    requires f.sniffing && f.offset <= |f.prefix| && (write.Wrote? ==> f.offset + write.count <= |f.prefix|)
    ensures var (g, r) := Drain(f, write, maxWrite);
            if r.Progress? then
              && f.offset + r.written <= |f.prefix|
              && g == if f.offset + r.written == |f.prefix| then f.(sniffing := false, offset := 0)
                      else f.(offset := f.offset + r.written)
            else g == f
  {
  }

  lemma FrontGrows(all: seq<Byte>, before: seq<Byte>, from: nat, n: nat)
    requires from <= |before| && IsPrefix(before, all) && from + n <= |all|
    ensures before[..from] + all[from..from + n] == all[..from + n]
  {
    assert before[..from] == all[..from];
  }

  /** The world after the gate has moved on by `n` bytes of an allowed prefix and some are left. */
  lemma DrainStays(w: World, f: Flow, n: nat)
    requires Inv(w) && w.flow.sniffing && f == w.flow.(prefix := f.prefix, allowed := true)
    requires IsPrefix(w.flow.prefix, f.prefix) && Justified(f.policy, f.prefix) && f.offset + n <= |f.prefix|
    ensures Inv(w.(flow := f.(offset := f.offset + n), muxIn := f.prefix,
                   stackOut := w.stackOut + f.prefix[f.offset..f.offset + n]))
  {
    FrontGrows(f.prefix, w.flow.prefix, f.offset, n);
  }

  /** The world after the rest of the prefix has gone out. */
  lemma DrainOpens(w: World, f: Flow)
    requires Inv(w) && w.flow.sniffing && f == w.flow.(prefix := f.prefix, allowed := true)
    requires IsPrefix(w.flow.prefix, f.prefix) && Justified(f.policy, f.prefix)
    ensures Inv(w.(flow := f.(sniffing := false, offset := 0), muxIn := f.prefix,
                   stackOut := w.stackOut + f.prefix[f.offset..|f.prefix|], cleared := f.prefix))
  {
    FrontGrows(f.prefix, w.flow.prefix, f.offset, |f.prefix| - f.offset);
    assert f.prefix[..|f.prefix|] == f.prefix;
  }

  /** Without progress the prefix may have grown and nothing has gone out. */
  lemma WaitKeeps(w: World, f: Flow)
    requires Inv(w) && w.flow.sniffing && f == w.flow.(prefix := f.prefix, allowed := f.allowed)
    requires IsPrefix(w.flow.prefix, f.prefix) && (if f.allowed then Justified(f.policy, f.prefix) else f.offset == 0)
    ensures Inv(w.(flow := f, muxIn := f.prefix))
  {
    assert f.prefix[..f.offset] == w.flow.prefix[..f.offset];
  }

  lemma StuckGate(w: World, p: Poll)
    requires Inv(w) && Enabled(w, p) && w.flow.sniffing && !AfterGate(w, p).1.Progress?
    ensures Inv(Sniffed(w, p))
  {
    RuledKeeps(w.flow, p.ticks);
    var (f, ruling) := Ruled(w.flow, p.ticks);
    if ruling.Admitted? {
      DrainKeeps(f, p.write, Min(p.maxMuxToStack, p.maxTotal));
    }
    WaitKeeps(w, f);
    assert w.stackOut + [] == w.stackOut;
  }

  lemma MovingGate(w: World, p: Poll)
    requires Inv(w) && Enabled(w, p) && w.flow.sniffing && AfterGate(w, p).1.Progress?
    ensures Inv(Sniffed(w, p))
  {
    RuledKeeps(w.flow, p.ticks);
    var f := Ruled(w.flow, p.ticks).0;
    DrainKeeps(f, p.write, Min(p.maxMuxToStack, p.maxTotal));
    var (g, r) := AfterGate(w, p);
    if g.sniffing {
      DrainStays(w, f, r.written);
    } else {
      DrainOpens(w, f);
    }
  }

  lemma SniffedKeeps(w: World, p: Poll)
    requires Inv(w) && Enabled(w, p)
    ensures Inv(Sniffed(w, p))
  {
    if w.flow.sniffing {
      if AfterGate(w, p).1.Progress? {
        MovingGate(w, p);
      } else {
        StuckGate(w, p);
      }
    }
  }

  lemma PumpedKeeps(w: World, p: Poll)
    requires Inv(w) && !w.flow.sniffing
    ensures Inv(Pumped(w, p))
  {
    var up, down := w.upBuffer + p.up.read, w.downBuffer + p.down.read;
    if p.up.written <= |up| && p.down.written <= |down| {
      SplitBuffer(w.muxOut, w.upBuffer, p.up);
      SplitBuffer(w.stackOut, w.downBuffer, p.down);
      var muxIn := w.muxIn + p.down.read;
      assert muxIn[..|w.cleared|] == w.muxIn[..|w.cleared|];
    }
  }

  lemma SplitBuffer(out: seq<Byte>, buffer: seq<Byte>, m: Move)
    requires m.written <= |buffer + m.read|
    ensures out + buffer + m.read == out + (buffer + m.read)[..m.written] + (buffer + m.read)[m.written..]
  {
    var all := buffer + m.read;
    assert all == all[..m.written] + all[m.written..];
  }

  lemma PolicyFixed(w: World, p: Poll)
    ensures Apply(w, p).flow.policy == w.flow.policy
  {
  }

  lemma StepKeeps(w: World, p: Poll)
    requires Inv(w) && Enabled(w, p)
    ensures Inv(Apply(w, p))
  {
    SniffedKeeps(w, p);
    if Pumping(w, p) {
      PumpedKeeps(Sniffed(w, p), p);
    }
  }

  lemma {:induction false} RunKeeps(w: World, polls: seq<Poll>)
    requires Inv(w) && Feasible(w, polls)
    ensures Inv(Run(w, polls)) && Run(w, polls).flow.policy == w.flow.policy
    decreases |polls|
  {
    if polls != [] {
      StepKeeps(w, polls[0]);
      PolicyFixed(w, polls[0]);
      RunKeeps(Apply(w, polls[0]), polls[1..]);
    }
  }

  /** In every run both outputs are prefixes of their inputs: each byte once and in order. */
  lemma CopiesInOrder(policy: Policy, max: nat, polls: seq<Poll>)
    requires Feasible(Start(policy, max), polls)
    ensures var w := Run(Start(policy, max), polls);
            IsPrefix(w.stackOut, w.muxIn) && IsPrefix(w.muxOut, w.stackIn)
  {
    RunKeeps(Start(policy, max), polls);
  }

  /**
   * The gate.  Until its prefix is allowed a flow has moved no byte in either direction.  While the
   * allowed prefix is being drained it is exactly what was read and has been allowed as classified;
   * after that it is the front of everything read.
   */
  lemma NothingPassesUnjudged(policy: Policy, max: nat, polls: seq<Poll>)
    requires Feasible(Start(policy, max), polls)
    ensures var w := Run(Start(policy, max), polls);
            && (w.flow.sniffing && !w.flow.allowed ==> w.stackOut == [] && w.muxOut == [] && w.stackIn == [])
            && (w.flow.sniffing && w.flow.allowed ==> w.muxIn == w.flow.prefix && Justified(policy, w.flow.prefix)
                                                      && w.muxOut == [] && w.stackIn == [])
            && (!w.flow.sniffing ==> IsPrefix(w.cleared, w.muxIn) && Justified(policy, w.cleared))
  {
    RunKeeps(Start(policy, max), polls);
  }

  // ------------------------------------------------------------------ the verdict behind every byte

  /** No deadline passes in the run. */
  predicate OnTime(polls: seq<Poll>) {
    forall i :: 0 <= i < |polls| ==> InTime(polls[i].ticks)
  }

  /** As long as the flow is unruled its reads deliver this stream. */
  predicate Feeds(stream: seq<Byte>, w: World, polls: seq<Poll>)
    decreases |polls|
  {
    polls == []
    || ((w.flow.sniffing && !w.flow.allowed ==>
           |w.flow.prefix| <= |stream| && Delivers(stream, |w.flow.prefix|, polls[0].ticks))
        && Feeds(stream, Apply(w, polls[0]), polls[1..]))
  }

  function WindowRuling(f: Flow, stream: seq<Byte>): Ruling {
    RuleOn(f.policy, ClassifyTcp(Window(stream, f.max), true))
  }

  /** What has been let through, or is about to be, has the ruling on the window behind it. */
  predicate Backed(f: Flow, stream: seq<Byte>) {
    && (f.sniffing ==> |f.prefix| <= f.max && IsPrefix(f.prefix, stream))
    && (f.allowed || !f.sniffing ==> WindowRuling(f, stream).Admitted?)
  }

  lemma RuledIsBacked(f: Flow, stream: seq<Byte>, ticks: seq<Tick>)
    requires f.sniffing && Backed(f, stream) && Fits(f.max, f.prefix, ticks)
    requires !f.allowed ==> Delivers(stream, |f.prefix|, ticks) && InTime(ticks)
    ensures var (g, ruling) := Ruled(f, ticks);
            Backed(g, stream) && g.policy == f.policy && g.max == f.max && (ruling.Admitted? ==> g.allowed)
  {
    if !f.allowed {
      assert stream[..|f.prefix|] == f.prefix;
      RulingIgnoresFragmentation(f.policy, f.max, stream, |f.prefix|, ticks);
    }
  }

  lemma GateIsBacked(f: Flow, stream: seq<Byte>, ticks: seq<Tick>, write: WriteResult, maxWrite: nat)
    requires Backed(f, stream) && Fits(f.max, f.prefix, ticks)
    requires f.sniffing && !f.allowed ==> Delivers(stream, |f.prefix|, ticks) && InTime(ticks)
    ensures Backed(PollSniff(f, ticks, write, maxWrite).0, stream)
  {
    if f.sniffing {
      RuledIsBacked(f, stream, ticks);
    }
  }

  lemma FlowAfter(w: World, p: Poll)
    ensures Apply(w, p).flow == AfterGate(w, p).0
  {
  }

  lemma {:induction false} RunIsBacked(w: World, polls: seq<Poll>, stream: seq<Byte>)
    requires Feasible(w, polls) && OnTime(polls) && Backed(w.flow, stream) && Feeds(stream, w, polls)
    ensures Backed(Run(w, polls).flow, stream)
    decreases |polls|
  {
    if polls != [] {
      var p := polls[0];
      GateIsBacked(w.flow, stream, p.ticks, p.write, Min(p.maxMuxToStack, p.maxTotal));
      FlowAfter(w, p);
      RunIsBacked(Apply(w, p), polls[1..], stream);
    }
  }

  /**
   * When no deadline passes, a byte has moved in either direction only if the classification of the
   * first `max` bytes of the whole stream is allowed, however the stream was cut and however the polls
   * were limited.
   */
  lemma VerdictBehindEveryByte(policy: Policy, max: nat, polls: seq<Poll>, stream: seq<Byte>)
    requires Feasible(Start(policy, max), polls) && OnTime(polls) && Feeds(stream, Start(policy, max), polls)
    ensures var w := Run(Start(policy, max), polls);
            w.stackOut != [] || w.muxOut != [] || w.stackIn != [] ==>
              RuleOn(policy, ClassifyTcp(Window(stream, max), true)).Admitted?
  {
    RunKeeps(Start(policy, max), polls);
    RunIsBacked(Start(policy, max), polls, stream);
    MaxFixed(Start(policy, max), polls);
  }

  lemma {:induction false} MaxFixed(w: World, polls: seq<Poll>)
    ensures Run(w, polls).flow.max == w.flow.max
    decreases |polls|
  {
    if polls != [] {
      FlowAfter(w, polls[0]);
      MaxFixed(Apply(w, polls[0]), polls[1..]);
    }
  }

  // ------------------------------------------------------------------ the budget of a poll

  /** Bytes a poll reports as written, in both directions. */
  function Reported(w: World, p: Poll): nat {
    GateWritten(w, p) + (if Pumping(w, p) then p.up.written + p.down.written else 0)
  }

  /** Whatever else happens in it, a poll with these limits reports no more than its total. */
  ghost predicate BudgetHolds(w: World, s: nat, m: nat, t: nat) {
    forall p :: Enabled(w, p) && p.maxStackToMux == s && p.maxMuxToStack == m && p.maxTotal == t ==> Reported(w, p) <= t
  }

  /** The poll that drains what is left of the prefix and then moves all the upload pump is offered. */
  function DrainAndUpload(n: nat, s: nat, m: nat, t: nat): Poll {
    Poll(s, m, t, [], Wrote(n), Move(seq(Min(s, t), _ => 0), Min(s, t)), Move([], 0))
  }

  lemma DrainOverruns(w: World, s: nat, m: nat, t: nat)
    requires w.flow.sniffing && w.flow.allowed && w.flow.offset < |w.flow.prefix|
    requires |w.flow.prefix| - w.flow.offset <= Min(m, t)
    ensures var n := |w.flow.prefix| - w.flow.offset;
            var p := DrainAndUpload(n, s, m, t);
            Enabled(w, p) && Reported(w, p) == n + Min(s, t)
  {
  }

  /** A gate that opens in this poll has written what was left of its prefix. */
  lemma DrainedPolls(w: World, p: Poll)
    requires w.flow.sniffing && w.flow.allowed && w.flow.offset <= |w.flow.prefix| && Enabled(w, p)
    ensures Pumping(w, p) ==> GateWritten(w, p) == |w.flow.prefix| - w.flow.offset
    ensures GateWritten(w, p) <= Min(p.maxMuxToStack, p.maxTotal)
  {
  }

  /**
   * For a flow whose allowed prefix has `n` bytes left to drain, the budget of a poll holds if and only
   * if those cannot all go in it, or they leave room for all the upload pump may write: the pump that
   * follows a drained prefix is offered the whole budget again.
   */
  lemma BudgetKeptIff(w: World, s: nat, m: nat, t: nat)
    requires w.flow.sniffing && w.flow.allowed && w.flow.offset <= |w.flow.prefix|
    ensures var n := |w.flow.prefix| - w.flow.offset;
            BudgetHolds(w, s, m, t) <==> n > Min(m, t) || n + Min(s, t) <= t
  {
    var n := |w.flow.prefix| - w.flow.offset;
    if !(n > Min(m, t) || n + Min(s, t) <= t) {
      DrainOverruns(w, s, m, t);
      assert Reported(w, DrainAndUpload(n, s, m, t)) > t;
    } else {
      forall p | Enabled(w, p) && p.maxStackToMux == s && p.maxMuxToStack == m && p.maxTotal == t
        ensures Reported(w, p) <= t
      {
        DrainedPolls(w, p);
      }
    }
  }

  /** A ruling and drain write at most the prefix they end with, and what they are allowed. */
  lemma UnruledPolls(w: World, p: Poll)
    requires w.flow.sniffing && !w.flow.allowed && w.flow.offset == 0 && Enabled(w, p)
    ensures GateWritten(w, p) <= Min(p.maxMuxToStack, p.maxTotal)
    ensures Pumping(w, p) ==> GateWritten(w, p) >= |w.flow.prefix|
  {
    AdmittedIsJustified(w.flow.policy, w.flow.max, w.flow.prefix, p.ticks);
  }

  /** Before a ruling the budget holds when the prefix already buffered cannot go in one poll, or the limits leave room. */
  lemma BudgetKeptUnruled(w: World, s: nat, m: nat, t: nat)
    requires w.flow.sniffing && !w.flow.allowed && w.flow.offset == 0
    requires |w.flow.prefix| > Min(m, t) || Min(m, t) + Min(s, t) <= t
    ensures BudgetHolds(w, s, m, t)
  {
    forall p | Enabled(w, p) && p.maxStackToMux == s && p.maxMuxToStack == m && p.maxTotal == t
      ensures Reported(w, p) <= t
    {
      UnruledPolls(w, p);
    }
  }

  /** Past the sniffer the budget always holds. */
  lemma BudgetKeptWhenOpen(w: World, s: nat, m: nat, t: nat)
    requires !w.flow.sniffing
    ensures BudgetHolds(w, s, m, t)
  {
  }

  /** One byte in, ruled on and drained, one byte out: two bytes reported in a poll limited to one. */
  lemma BudgetMayBreak() returns (policy: Policy, p: Poll)
    ensures Feasible(Start(policy, 1), [p]) && p.maxTotal == 1 && Reported(Start(policy, 1), p) == 2
  {
    policy := Policy([], Allow, Allow);
    var ticks := [Tick(false, Data([0])), Tick(false, NotReady)];
    p := Poll(1, 1, 1, ticks, Wrote(1), Move([0], 1), Move([], 0));
    var w := Start(policy, 1);
    assert [] + [0] == [0] && ticks[1..] == [Tick(false, NotReady)];
    EmptyNeedsMore();
    CompleteDecides([0]);
    assert SniffRun(policy, 1, [0], ticks[1..]) == (Admitted, [0]);
    assert SniffRun(policy, 1, [], ticks) == (Admitted, [0]);
    assert Enabled(w, p);
    assert Feasible(Apply(w, p), [p][1..]);
  }
}
