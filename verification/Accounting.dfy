/**
 * Durable quota accounts and token buckets.
 *
 * Each operation is first a function on values, which the protocol modules reason about, and then
 * a method of the object that updates its fields, proved against that function.  A failing
 * operation changes nothing, so the functions return the new value only on success.
 */
module Accounting {
  import opened Basics

  datatype QuotaError = Invalid | State | Exhausted | Overflow | Clock

  // ------------------------------------------------------------------ quota account

  datatype Account = Account(
    limit: Option<U64>,
    charged: U64,
    credit: U64,
    block: U64,
    debitPending: bool,
    refundPending: bool)

  function NewAccount(limit: Option<U64>, charged: U64, block: U64): Result<Account, QuotaError> {
    if block == 0 || (limit.Some? && charged > limit.value) then
      Err(Invalid)
    else
      Ok(Account(limit, charged, 0, block, false, false))
  }

  function RequestCredit(a: Account): Result<(Account, U64), QuotaError> {
    if a.credit != 0 || a.debitPending || a.refundPending then
      Err(State)
    else
      var available := if a.limit.Some? then SatSub(a.limit.value, a.charged) else a.block;
      var amount := Min(available, a.block);
      if amount == 0 then Err(Exhausted) else Ok((a.(debitPending := true), amount))
  }

  function CommitCredit(a: Account, amount: U64): Result<Account, QuotaError> {
    if !a.debitPending || amount == 0 || amount > a.block then
      Err(State)
    else if a.charged + amount > U64_MAX then
      Err(Overflow)
    else if a.limit.Some? && a.charged + amount > a.limit.value then
      Err(Exhausted)
    else
      Ok(a.(charged := a.charged + amount, credit := amount, debitPending := false))
  }

  function FailCredit(a: Account): Account {
    a.(debitPending := false, credit := 0)
  }

  function Charge(a: Account, bytes: U64): Result<Account, QuotaError> {
    if bytes > a.credit then Err(Exhausted) else Ok(a.(credit := a.credit - bytes))
  }

  function RequestRefund(a: Account): Result<(Account, U64), QuotaError> {
    if a.debitPending || a.refundPending || a.credit == 0 then
      Err(State)
    else
      Ok((a.(refundPending := true), a.credit))
  }

  function CommitRefund(a: Account, refund: U64): Result<Account, QuotaError> {
    if !a.refundPending || refund == 0 || refund != a.credit || a.charged < refund then
      Err(State)
    else
      Ok(a.(charged := a.charged - refund, credit := 0, refundPending := false))
  }

  function FailRefund(a: Account): Account {
    a.(refundPending := false, credit := 0)
  }

  class QuotaAccount {
    var limitBytes: Option<U64>
    var durableCharged: U64
    var creditRemaining: U64
    var blockBytes: U64
    var debitPending: bool
    var refundPending: bool

    ghost function View(): Account
      reads this
    {
      Account(limitBytes, durableCharged, creditRemaining, blockBytes, debitPending, refundPending)
    }

    constructor (limit: Option<U64>, charged: U64, block: U64)
      requires NewAccount(limit, charged, block).Ok?
      ensures View() == NewAccount(limit, charged, block).value
    {
      limitBytes, durableCharged, creditRemaining := limit, charged, 0;
      blockBytes, debitPending, refundPending := block, false, false;
    }

    method TryRequestCredit() returns (r: Result<U64, QuotaError>)
      modifies this
      ensures match RequestCredit(old(View()))
              case Ok(next) => View() == next.0 && r == Ok(next.1)
              case Err(e) => View() == old(View()) && r == Err(e)
    {
      if creditRemaining != 0 || debitPending || refundPending {
        return Err(State);
      }
      var available := if limitBytes.Some? then SatSub(limitBytes.value, durableCharged) else blockBytes;
      var amount := Min(available, blockBytes);
      if amount == 0 {
        return Err(Exhausted);
      }
      debitPending := true;
      return Ok(amount);
    }

    method TryCommitCredit(amount: U64) returns (r: Result<(), QuotaError>)
      modifies this
      ensures match CommitCredit(old(View()), amount)
              case Ok(next) => View() == next && r.Ok?
              case Err(e) => View() == old(View()) && r == Err(e)
    {
      if !debitPending || amount == 0 || amount > blockBytes {
        return Err(State);
      }
      if durableCharged + amount > U64_MAX {
        return Err(Overflow);
      }
      var next := durableCharged + amount;
      if limitBytes.Some? && next > limitBytes.value {
        return Err(Exhausted);
      }
      durableCharged := next;
      creditRemaining := amount;
      debitPending := false;
      return Ok(());
    }

    method TryCharge(bytes: U64) returns (r: Result<(), QuotaError>)
      modifies this
      ensures match Charge(old(View()), bytes)
              case Ok(next) => View() == next && r.Ok?
              case Err(e) => View() == old(View()) && r == Err(e)
    {
      if bytes > creditRemaining {
        return Err(Exhausted);
      }
      creditRemaining := creditRemaining - bytes;
      return Ok(());
    }

    method TryRequestRefund() returns (r: Result<U64, QuotaError>)
      modifies this
      ensures match RequestRefund(old(View()))
              case Ok(next) => View() == next.0 && r == Ok(next.1)
              case Err(e) => View() == old(View()) && r == Err(e)
    {
      if debitPending || refundPending {
        return Err(State);
      }
      var refund := creditRemaining;
      if refund == 0 {
        return Err(State);
      }
      refundPending := true;
      return Ok(refund);
    }

    method TryCommitRefund(refund: U64) returns (r: Result<(), QuotaError>)
      modifies this
      ensures match CommitRefund(old(View()), refund)
              case Ok(next) => View() == next && r.Ok?
              case Err(e) => View() == old(View()) && r == Err(e)
    {
      if !refundPending || refund == 0 || refund != creditRemaining {
        return Err(State);
      }
      if durableCharged < refund {
        return Err(State);
      }
      durableCharged := durableCharged - refund;
      creditRemaining := 0;
      refundPending := false;
      return Ok(());
    }

    method AbandonCredit()
      modifies this
      ensures View() == FailCredit(old(View()))
    {
      debitPending := false;
      creditRemaining := 0;
    }

    method AbandonRefund()
      modifies this
      ensures View() == FailRefund(old(View()))
    {
      refundPending := false;
      creditRemaining := 0;
    }

    /** A checkpoint gives back exactly the unspent credit, in one request and commit; a failed commit leaves the request. */
    method CheckpointRefund() returns (r: Result<U64, QuotaError>)
      modifies this
      ensures match RequestRefund(old(View()))
              case Err(e) => View() == old(View()) && r == Err(e)
              case Ok(asked) =>
                (match CommitRefund(asked.0, asked.1)
                 case Err(e) => View() == asked.0 && r == Err(e)
                 case Ok(next) => View() == next && r == Ok(asked.1))
      ensures r.Ok? <==> !old(debitPending) && !old(refundPending) && 0 < old(creditRemaining) <= old(durableCharged)
      ensures r.Ok? ==> r.value == old(creditRemaining) <= old(durableCharged)
                        && View() == old(View()).(charged := old(durableCharged) - r.value, credit := 0)
    {
      var asked := TryRequestRefund();
      if asked.Err? {
        return asked;
      }
      var done := TryCommitRefund(asked.value);
      if done.Err? {
        return Err(done.error);
      }
      return asked;
    }
  }

  // ------------------------------------------------------------------ token bucket

  const NANOS := 1_000_000_000

  datatype Bucket = Bucket(rate: U64, burst: U64, tokens: U64, last: U64, fraction: U64) {
    ghost predicate Valid() {
      0 < rate && 0 < burst && tokens <= burst && fraction < NANOS
    }

    /** Billionths of a byte produced up to `now`, with the carry of earlier refills. */
    function Produced(now: U64): int {
      (now - last) * rate + fraction
    }
  }

  function NewBucket(rate: U64, burst: U64, now: U64): (r: Result<Bucket, QuotaError>)
    ensures r.Ok? ==> r.value.Valid() && r.value.last == now
  {
    if rate == 0 || burst == 0 then Err(Invalid) else Ok(Bucket(rate, burst, burst, now, 0))
  }

  function Refill(b: Bucket, now: U64): (r: Result<Bucket, QuotaError>)
    ensures r.Ok? && b.Valid() ==> r.value.Valid() && r.value.last == now
  {
    if now < b.last then
      Err(Clock)
    else
      assert 0 <= (now - b.last) * b.rate;
      var produced := b.Produced(now);
      if produced > U64_MAX then
        Err(Overflow)
      else
        var added := produced / NANOS;
        Ok(b.(fraction := produced % NANOS,
              tokens := Min(Min(b.tokens + added, U64_MAX), b.burst),
              last := now))
  }

  function Take(b: Bucket, requested: U64, now: U64): Result<(Bucket, U64), QuotaError> {
    match Refill(b, now)
    case Err(e) => Err(e)
    case Ok(full) =>
      var granted := Min(requested, full.tokens);
      Ok((full.(tokens := full.tokens - granted), granted))
  }

  function Refund(b: Bucket, bytes: U64): Bucket {
    b.(tokens := Min(Min(b.tokens + bytes, U64_MAX), b.burst))
  }

  function NanosUntil(b: Bucket, bytes: U64, now: U64): Result<(Bucket, U64), QuotaError>
    requires b.rate > 0
  {
    match Refill(b, now)
    case Err(e) => Err(e)
    case Ok(full) =>
      if full.tokens >= bytes then
        Ok((full, 0))
      else
        var numerator := (bytes - full.tokens) * NANOS;
        if numerator + (full.rate - 1) > U64_MAX then
          Err(Overflow)
        else
          CeilingFits(numerator, full.rate);
          Ok((full, (numerator + (full.rate - 1)) / full.rate))
  }

  lemma CeilingFits(numerator: nat, rate: nat)
    requires rate > 0
    ensures 0 <= (numerator + (rate - 1)) / rate <= numerator + (rate - 1)
    ensures (numerator + (rate - 1)) / rate * rate >= numerator
  {
    var n := numerator + (rate - 1);
    var q := n / rate;
    assert n == q * rate + n % rate;
    MulGrows(q, rate);
  }

  lemma MulGrows(q: int, rate: int)
    requires rate > 0
    ensures q >= 0 ==> q * rate >= q
    ensures q < 0 ==> q * rate <= -rate
  {
    if q < 0 {
      assert (q + 1) * rate <= 0;
    }
  }

  class TokenBucket {
    var rate: U64
    var burst: U64
    var tokens: U64
    var lastNanos: U64
    var fractional: U64

    ghost function View(): Bucket
      reads this
    {
      Bucket(rate, burst, tokens, lastNanos, fractional)
    }

    ghost predicate Valid()
      reads this
    {
      View().Valid()
    }

    constructor (rate: U64, burst: U64, now: U64)
      requires rate > 0 && burst > 0
      ensures Valid() && View() == NewBucket(rate, burst, now).value
    {
      this.rate, this.burst, tokens := rate, burst, burst;
      lastNanos, fractional := now, 0;
    }

    method RefillTo(now: U64) returns (r: Result<(), QuotaError>)
      requires Valid()
      modifies this
      ensures Valid()
      ensures match Refill(old(View()), now)
              case Ok(next) => View() == next && r.Ok?
              case Err(e) => View() == old(View()) && r == Err(e)
    {
      if now < lastNanos {
        return Err(Clock);
      }
      var elapsed := now - lastNanos;
      var produced := elapsed * rate + fractional;
      if produced > U64_MAX {
        return Err(Overflow);
      }
      assert elapsed * rate >= 0;
      var added := produced / NANOS;
      fractional := produced % NANOS;
      tokens := Min(Min(tokens + added, U64_MAX), burst);
      lastNanos := now;
      return Ok(());
    }

    method TakeUpTo(requested: U64, now: U64) returns (r: Result<U64, QuotaError>)
      requires Valid()
      modifies this
      ensures Valid()
      ensures match Take(old(View()), requested, now)
              case Ok(next) => View() == next.0 && r == Ok(next.1)
              case Err(e) => View() == old(View()) && r == Err(e)
    {
      var refilled := RefillTo(now);
      if refilled.Err? {
        return Err(refilled.error);
      }
      var granted := Min(requested, tokens);
      tokens := tokens - granted;
      return Ok(granted);
    }

    method WaitFor(bytes: U64, now: U64) returns (r: Result<U64, QuotaError>)
      requires Valid()
      modifies this
      ensures Valid()
      ensures match NanosUntil(old(View()), bytes, now)
              case Ok(next) => View() == next.0 && r == Ok(next.1)
              case Err(e) => r == Err(e)
      ensures match Refill(old(View()), now)
              case Ok(full) => View() == full
              case Err(_) => View() == old(View())
    {
      var refilled := RefillTo(now);
      if refilled.Err? {
        return Err(refilled.error);
      }
      if tokens >= bytes {
        return Ok(0);
      }
      var numerator := (bytes - tokens) * NANOS;
      if numerator > U64_MAX || numerator + (rate - 1) > U64_MAX {
        return Err(Overflow);
      }
      CeilingFits(numerator, rate);
      return Ok((numerator + (rate - 1)) / rate);
    }

    method GiveBack(bytes: U64)
      requires Valid()
      modifies this
      ensures Valid() && View() == Refund(old(View()), bytes)
    {
      tokens := Min(Min(tokens + bytes, U64_MAX), burst);
    }
  }

  // ------------------------------------------------------------------ bucket laws

  lemma ElapsedSplits(t0: int, t1: int, t2: int, rate: int)
    ensures (t2 - t0) * rate == (t1 - t0) * rate + (t2 - t1) * rate
  {
  }

  /** Stopping half way loses nothing: the carried fraction makes two refills equal to one. */
  lemma RefillTwice(b: Bucket, t1: U64, t2: U64)
    requires b.Valid() && b.last <= t1 <= t2 && Refill(b, t2).Ok?
    ensures Refill(b, t1).Ok?
    ensures Refill(Refill(b, t1).value, t2) == Refill(b, t2)
  {
    ElapsedSplits(b.last, t1, t2, b.rate);
    ElapsedNonNegative(b.last, t1, b.rate);
    ElapsedNonNegative(t1, t2, b.rate);
    CarryIsExact(b.Produced(t1), (t2 - t1) * b.rate);
  }

  lemma ElapsedNonNegative(t0: int, t1: int, rate: int)
    requires t0 <= t1 && rate >= 0
    ensures (t1 - t0) * rate >= 0
  {
  }

  lemma CarryIsExact(p: nat, q: nat)
    ensures (p + q) / NANOS == p / NANOS + (q + p % NANOS) / NANOS
    ensures (p + q) % NANOS == (q + p % NANOS) % NANOS
  {
  }

  ghost predicate Ascending(from: U64, times: seq<U64>, to: U64)
    decreases |times|
  {
    if times == [] then from <= to else from <= times[0] && Ascending(times[0], times[1..], to)
  }

  function RefillAll(b: Bucket, times: seq<U64>, to: U64): Result<Bucket, QuotaError>
    decreases |times|
  {
    if times == [] then
      Refill(b, to)
    else
      match Refill(b, times[0])
      case Err(e) => Err(e)
      case Ok(next) => RefillAll(next, times[1..], to)
  }

  /** Any schedule of intermediate refills ends with the tokens, fraction and clock of a single one. */
  lemma {:induction false} RefillsCompose(b: Bucket, times: seq<U64>, to: U64)
    requires b.Valid() && Ascending(b.last, times, to) && Refill(b, to).Ok?
    ensures RefillAll(b, times, to) == Refill(b, to)
    decreases |times|
  {
    if times != [] {
      AscendingBounds(times[0], times[1..], to);
      RefillTwice(b, times[0], to);
      RefillsCompose(Refill(b, times[0]).value, times[1..], to);
    }
  }

  lemma {:induction false} AscendingBounds(from: U64, times: seq<U64>, to: U64)
    requires Ascending(from, times, to)
    ensures from <= to
    decreases |times|
  {
    if times != [] {
      AscendingBounds(times[0], times[1..], to);
    }
  }

  /**
   * Exactly when a wait is long enough: after `delay` nanoseconds `bytes` are there if and only if
   * the delay and the carried fraction together produce what is missing.
   */
  lemma LongEnough(b: Bucket, bytes: U64, delay: nat)
    requires b.Valid() && b.tokens < bytes <= b.burst
    requires b.last + delay <= U64_MAX && Refill(b, b.last + delay).Ok?
    ensures Refill(b, b.last + delay).value.tokens >= bytes
            <==> delay * b.rate + b.fraction >= (bytes - b.tokens) * NANOS
  {
    var produced := b.Produced(b.last + delay);
    assert produced == delay * b.rate + b.fraction;
    var missing := bytes - b.tokens;
    assert delay * b.rate >= 0;
    if produced >= missing * NANOS {
      assert produced / NANOS >= missing;
    } else {
      assert produced / NANOS < missing;
    }
  }

  /** Waiting for as long as `nanos_until` says makes the bytes available. */
  lemma WaitSuffices(b: Bucket, bytes: U64, now: U64)
    requires b.Valid() && bytes <= b.burst && NanosUntil(b, bytes, now).Ok?
    requires var (full, wait) := NanosUntil(b, bytes, now).value;
             now + wait <= U64_MAX && Refill(full, now + wait).Ok?
    ensures var (full, wait) := NanosUntil(b, bytes, now).value;
            Refill(full, now + wait).value.tokens >= bytes
  {
    var (full, wait) := NanosUntil(b, bytes, now).value;
    if full.tokens < bytes {
      CeilingFits((bytes - full.tokens) * NANOS, full.rate);
      LongEnough(full, bytes, wait);
    }
  }

  datatype BucketOp =
    | TakeOp(requested: U64, now: U64)
    | RefundOp(bytes: U64)
    | QueryOp(now: U64)
    | WaitOp(bytes: U64, now: U64)

  /** One call: the bucket afterwards and the change of (bytes granted - bytes refunded). */
  function CallBucket(b: Bucket, op: BucketOp): (r: (Bucket, int))
    requires b.Valid()
    ensures r.0.Valid()
  {
    match op
    case TakeOp(n, now) => (match Take(b, n, now) case Ok(t) => (t.0, t.1) case Err(_) => (b, 0))
    case RefundOp(n) => (Refund(b, n), 0 - n)
    case QueryOp(now) => (match Refill(b, now) case Ok(t) => (t, 0) case Err(_) => (b, 0))
    case WaitOp(_, now) => (match Refill(b, now) case Ok(t) => (t, 0) case Err(_) => (b, 0))
  }

  function RunBucket(b: Bucket, ops: seq<BucketOp>): (r: (Bucket, int))
    requires b.Valid()
    ensures r.0.Valid()
    decreases |ops|
  {
    if ops == [] then (b, 0)
    else
      var (next, delta) := CallBucket(b, ops[0]);
      var (end, rest) := RunBucket(next, ops[1..]);
      (end, delta + rest)
  }

  /** No call creates tokens faster than the rate: net grants plus what is left grow by rate x time. */
  lemma CallKeepsRate(b: Bucket, op: BucketOp)
    requires b.Valid()
    ensures var (next, delta) := CallBucket(b, op);
            && next.last >= b.last && next.rate == b.rate && next.burst == b.burst
            && NANOS * (delta + next.tokens) + next.fraction
               <= NANOS * b.tokens + b.fraction + b.rate * (next.last - b.last)
  {
    if !op.RefundOp? {
      var now := op.now;
      if Refill(b, now).Ok? {
        assert (now - b.last) * b.rate == b.rate * (now - b.last);
        var p := b.Produced(now);
        assert p == NANOS * (p / NANOS) + p % NANOS;
      }
    }
  }

  /**
   * Rate bound over every run: a bucket created at `start` never grants, net of refunds, more than
   * its burst plus rate x elapsed time.
   */
  lemma {:induction false} RunKeepsRate(b: Bucket, ops: seq<BucketOp>)
    requires b.Valid()
    ensures var (end, net) := RunBucket(b, ops);
            && end.last >= b.last && end.rate == b.rate
            && NANOS * (net + end.tokens) + end.fraction
               <= NANOS * b.tokens + b.fraction + b.rate * (end.last - b.last)
    decreases |ops|
  {
    if ops != [] {
      var (next, delta) := CallBucket(b, ops[0]);
      CallKeepsRate(b, ops[0]);
      RunKeepsRate(next, ops[1..]);
      var (end, rest) := RunBucket(next, ops[1..]);
      assert RunBucket(b, ops) == (end, delta + rest);
      ElapsedAdds(b.last, next.last, end.last, b.rate);
    }
  }

  lemma ElapsedAdds(t0: int, t1: int, t2: int, rate: int)
    ensures rate * (t2 - t0) == rate * (t1 - t0) + rate * (t2 - t1)
  {
  }

  lemma RateBound(rate: U64, burst: U64, start: U64, ops: seq<BucketOp>)
    requires rate > 0 && burst > 0
    ensures var (end, net) := RunBucket(NewBucket(rate, burst, start).value, ops);
            NANOS * net <= NANOS * burst + rate * (end.last - start)
  {
    RunKeepsRate(NewBucket(rate, burst, start).value, ops);
  }

  // ------------------------------------------------------------------ a bucket that overflowed

  /** At this moment the time since the last refill produces more than 64 bits can hold. */
  predicate Overflows(b: Bucket, t: U64) {
    Refill(b, t) == Err(Overflow)
  }

  /** The failed refill leaves the clock where it was, so every later one fails as well. */
  lemma OverflowStays(b: Bucket, t: U64, now: U64)
    requires b.Valid() && Overflows(b, t) && t <= now
    ensures Overflows(b, now)
  {
    assert (now - b.last) * b.rate == (t - b.last) * b.rate + (now - t) * b.rate by {
      ElapsedSplits(b.last, t, now, b.rate);
    }
    ElapsedNonNegative(t, now, b.rate);
  }

  /** No call of the run looks at a clock before `t`. */
  predicate AllAfter(t: U64, ops: seq<BucketOp>) {
    forall i :: 0 <= i < |ops| && !ops[i].RefundOp? ==> t <= ops[i].now
  }

  /** A bucket that has overflowed grants nothing ever again, whatever is refunded to it. */
  lemma {:induction false} OverflowIsForGood(b: Bucket, t: U64, ops: seq<BucketOp>)
    requires b.Valid() && Overflows(b, t) && AllAfter(t, ops)
    ensures var (end, net) := RunBucket(b, ops); end.Valid() && Overflows(end, t) && net <= 0
    decreases |ops|
  {
    if ops != [] {
      var op := ops[0];
      if !op.RefundOp? {
        OverflowStays(b, t, op.now);
      }
      OverflowIsForGood(CallBucket(b, op).0, t, ops[1..]);
    }
  }
}
