/**
 * Splitting one global token bucket across the scheduled users of a poll, and giving back what
 * their flows did not write.
 */
module Rate {
  import opened Basics
  import opened Accounting

  type U32 = x: int | 0 <= x < 0x1_0000_0000

  /** The optional buckets of one user. */
  datatype Rates = Rates(upload: Option<Bucket>, download: Option<Bucket>, combined: Option<Bucket>)

  datatype Grant = Grant(stackToMux: U64, muxToStack: U64, combined: U64)

  /**
   * One scheduled user: `eligible` means it has a traffic entry with no write in flight and not
   * failed, `want` is the smaller of its quota budget and its deficit.
   */
  datatype Turn = Turn(weight: U32, eligible: bool, want: U64, rates: Rates)

  ghost predicate ValidBucket(b: Option<Bucket>) {
    b.Some? ==> b.value.Valid()
  }

  ghost predicate ValidRates(r: Rates) {
    ValidBucket(r.upload) && ValidBucket(r.download) && ValidBucket(r.combined)
  }

  // ------------------------------------------------------------------ shares

  function Sum(xs: seq<int>): int {
    if xs == [] then 0 else Sum(xs[..|xs| - 1]) + xs[|xs| - 1]
  }

  function Weights(turns: seq<Turn>): (ws: seq<int>)
    ensures |ws| == |turns|
    ensures forall i :: 0 <= i < |ws| ==> ws[i] == turns[i].weight
  {
    if turns == [] then [] else Weights(turns[..|turns| - 1]) + [turns[|turns| - 1].weight]
  }

  /** The fold with `saturating_add` that the scheduler uses for the total weight. */
  method TotalWeight(turns: seq<Turn>) returns (total: U64)
    ensures total == Min(Sum(Weights(turns)), U64_MAX)
  {
    total := 0;
    for i := 0 to |turns|
      invariant total == Min(Sum(Weights(turns[..i])), U64_MAX)
    {
      assert turns[..i + 1][..i] == turns[..i];
      SumSnoc(Weights(turns[..i]), turns[i].weight);
      WeightsNonNegative(turns[..i]);
      total := Min(total + turns[i].weight, U64_MAX);
    }
    assert turns[..|turns|] == turns;
  }

  lemma SumSnoc(xs: seq<int>, x: int)
    ensures Sum(xs + [x]) == Sum(xs) + x
  {
    assert (xs + [x])[..|xs|] == xs;
  }

  lemma {:induction false} PrefixSum(xs: seq<int>, k: nat)
    requires k < |xs| && forall i :: 0 <= i < |xs| ==> xs[i] >= 0
    ensures 0 <= Sum(xs[..k]) && Sum(xs[..k]) + xs[k] <= Sum(xs)
    decreases |xs|
  {
    var front := xs[..|xs| - 1];
    if k < |front| {
      assert xs[..k] == front[..k];
      PrefixSum(front, k);
    } else {
      assert xs[..k] == front;
      if front != [] {
        PrefixSum(front, |front| - 1);
        assert front[..|front| - 1] + [front[|front| - 1]] == front;
      }
    }
  }

  lemma {:induction false} WeightsNonNegative(turns: seq<Turn>)
    ensures 0 <= Sum(Weights(turns)) <= |turns| * 0xffff_ffff
  {
    if turns != [] {
      var front := turns[..|turns| - 1];
      WeightsNonNegative(front);
      SumSnoc(Weights(front), turns[|turns| - 1].weight);
    }
  }

  /** With fewer than 2^32 users the total weight never saturates. */
  lemma NoSaturation(turns: seq<Turn>)
    requires |turns| <= 0x1_0000_0000
    ensures Sum(Weights(turns)) <= U64_MAX
  {
    WeightsNonNegative(turns);
  }

  function WeightedShare(available: U64, weight: U64, total: U64): U64 {
    if total == 0 then 0
    else
      QuotientNonNegative(available, weight, total);
      Min(available * weight / total, U64_MAX)
  }

  lemma QuotientNonNegative(available: nat, weight: nat, total: nat)
    requires total > 0
    ensures 0 <= available * weight / total
  {
    assert available * weight >= 0;
    DivisionLaw(available * weight, total);
  }

  lemma DivisionLaw(n: nat, d: nat)
    requires d > 0
    ensures 0 <= n / d && n / d * d <= n < n / d * d + d
  {
    assert n == n / d * d + n % d;
  }

  function Shares(turns: seq<Turn>, available: U64, total: U64): (ss: seq<int>)
    ensures |ss| == |turns|
    ensures forall i :: 0 <= i < |ss| ==> ss[i] == WeightedShare(available, turns[i].weight, total)
  {
    if turns == [] then []
    else Shares(turns[..|turns| - 1], available, total)
         + [WeightedShare(available, turns[|turns| - 1].weight, total)]
  }

  lemma ShareScaled(available: U64, weight: U64, total: U64)
    requires total > 0
    ensures WeightedShare(available, weight, total) * total <= available * weight
  {
    DivisionLaw(available * weight, total);
    var quotient := available * weight / total;
    var share := WeightedShare(available, weight, total);
    assert share <= quotient;
    MulMonotone(share, quotient, total);
  }

  lemma MulMonotone(x: int, y: int, k: nat)
    requires x <= y
    ensures x * k <= y * k
  {
  }

  lemma {:induction false} SharesScaled(turns: seq<Turn>, available: U64, total: U64)
    requires total > 0
    ensures Sum(Shares(turns, available, total)) * total <= available * Sum(Weights(turns))
  {
    if turns != [] {
      var front, last := turns[..|turns| - 1], turns[|turns| - 1];
      SharesScaled(front, available, total);
      ShareScaled(available, last.weight, total);
      SumSnoc(Shares(front, available, total), WeightedShare(available, last.weight, total));
      SumSnoc(Weights(front), last.weight);
      Distribute(Sum(Shares(front, available, total)), WeightedShare(available, last.weight, total), total);
      Distribute(Sum(Weights(front)), last.weight, available);
    }
  }

  lemma Distribute(x: int, y: int, k: int)
    ensures (x + y) * k == x * k + y * k
    ensures k * (x + y) == k * x + k * y
  {
  }

  /** The shares of one poll never add up to more than what is available. */
  lemma SharesFit(turns: seq<Turn>, available: U64, total: U64)
    requires Sum(Weights(turns)) <= total
    ensures Sum(Shares(turns, available, total)) <= available
  {
    if total == 0 {
      ZeroShares(turns, available);
    } else {
      SharesScaled(turns, available, total);
      MulMonotone(Sum(Weights(turns)), total, available);
      CancelFactor(Sum(Shares(turns, available, total)), available, total);
    }
  }

  lemma CancelFactor(x: int, y: int, k: nat)
    requires k > 0 && x * k <= y * k
    ensures x <= y
  {
    if x > y {
      MulMonotone(y + 1, x, k);
      Distribute(y, 1, k);
    }
  }

  lemma {:induction false} ZeroShares(turns: seq<Turn>, available: U64)
    ensures Sum(Shares(turns, available, 0)) == 0
  {
    if turns != [] {
      ZeroShares(turns[..|turns| - 1], available);
      SumSnoc(Shares(turns[..|turns| - 1], available, 0), 0);
    }
  }

  // ------------------------------------------------------------------ one user's buckets

  function TakeFrom(b: Option<Bucket>, n: U64, now: U64): (r: Result<(Option<Bucket>, U64), QuotaError>)
    ensures r.Ok? ==> r.value.1 <= n
  {
    if b.None? then Ok((None, n))
    else match Take(b.value, n, now)
         case Ok(t) => Ok((Some(t.0), t.1))
         case Err(e) => Err(e)
  }

  /** `take_rate_grant`: on an error, buckets charged before it stay charged. */
  function TakeGrant(r: Rates, budget: U64, now: U64): (out: (Rates, Result<Grant, QuotaError>))
    ensures out.1.Ok? ==>
              out.1.value.stackToMux <= out.1.value.combined && out.1.value.muxToStack <= out.1.value.combined <= budget
  {
    match TakeFrom(r.combined, budget, now)
    case Err(e) => (r, Err(e))
    case Ok(c) =>
      var r1 := r.(combined := c.0);
      match TakeFrom(r.upload, c.1, now)
      case Err(e) => (r1, Err(e))
      case Ok(u) =>
        var r2 := r1.(upload := u.0);
        match TakeFrom(r.download, c.1, now)
        case Err(e) => (r2, Err(e))
        case Ok(d) => (r2.(download := d.0), Ok(Grant(d.1, u.1, c.1)))
  }

  function GiveBackTo(b: Option<Bucket>, n: U64): Option<Bucket> {
    if b.None? then None else Some(Refund(b.value, n))
  }

  function RefundGrant(r: Rates, g: Grant, stackWritten: U64, muxWritten: U64): Rates {
    Rates(GiveBackTo(r.upload, SatSub(g.muxToStack, muxWritten)),
          GiveBackTo(r.download, SatSub(g.stackToMux, stackWritten)),
          GiveBackTo(r.combined, SatSub(g.combined, stackWritten + muxWritten)))
  }

  /** What a bucket is worth after paying for `n` bytes at `now`. */
  function Paid(b: Option<Bucket>, n: U64, now: U64): Option<Bucket> {
    if b.None? || Refill(b.value, now).Err? || Refill(b.value, now).value.tokens < n then b
    else Some(Refill(b.value, now).value.(tokens := Refill(b.value, now).value.tokens - n))
  }

  ghost predicate Within(g: Grant, stackWritten: U64, muxWritten: U64) {
    stackWritten <= g.stackToMux && muxWritten <= g.muxToStack && stackWritten + muxWritten <= g.combined
  }

  /** A flow that writes within its grant pays each bucket for exactly the bytes it wrote. */
  lemma FlowPaysExactly(r: Rates, budget: U64, now: U64, stackWritten: U64, muxWritten: U64)
    requires ValidRates(r) && TakeGrant(r, budget, now).1.Ok?
    requires Within(TakeGrant(r, budget, now).1.value, stackWritten, muxWritten)
    ensures var (taken, g) := TakeGrant(r, budget, now);
            RefundGrant(taken, g.value, stackWritten, muxWritten)
            == Rates(Paid(r.upload, muxWritten, now), Paid(r.download, stackWritten, now),
                     Paid(r.combined, stackWritten + muxWritten, now))
  {
    var c := TakeFrom(r.combined, budget, now).value;
    var u := TakeFrom(r.upload, c.1, now).value;
    var d := TakeFrom(r.download, c.1, now).value;
    TakeThenGiveBack(r.combined, budget, now, stackWritten + muxWritten);
    TakeThenGiveBack(r.upload, c.1, now, muxWritten);
    TakeThenGiveBack(r.download, c.1, now, stackWritten);
  }

  lemma TakeThenGiveBack(b: Option<Bucket>, n: U64, now: U64, used: U64)
    requires ValidBucket(b) && TakeFrom(b, n, now).Ok? && used <= TakeFrom(b, n, now).value.1
    ensures var (rest, got) := TakeFrom(b, n, now).value;
            GiveBackTo(rest, SatSub(got, used)) == Paid(b, used, now)
  {
  }

  // ------------------------------------------------------------------ the scheduling loop

  /** What the scheduler sees of the global bucket: none configured, an error, or its tokens. */
  datatype Pool = Unlimited | Unreadable | Tokens(available: U64)

  function PoolOf(global: Option<Bucket>, now: U64): Pool {
    if global.None? then Unlimited
    else match Refill(global.value, now)
         case Err(_) => Unreadable
         case Ok(full) => Tokens(full.tokens)
  }

  /** The budget a user is meant to get, before any other user has touched the global bucket. */
  function Budget(pool: Pool, t: Turn, total: U64): U64 {
    match pool
    case Unlimited => t.want
    case Unreadable => 0
    case Tokens(available) => Min(t.want, WeightedShare(available, t.weight, total))
  }

  /** The plan for one user, computed from its own share alone. */
  function Planned(pool: Pool, t: Turn, total: U64, now: U64): (Rates, Option<Grant>) {
    if !t.eligible then (t.rates, None)
    else
      var (rates, g) := TakeGrant(t.rates, Budget(pool, t, total), now);
      (rates, if g.Ok? then Some(g.value) else None)
  }

  function AllPlanned(pool: Pool, turns: seq<Turn>, total: U64, now: U64): (ps: seq<(Rates, Option<Grant>)>)
    ensures |ps| == |turns|
  {
    if turns == [] then []
    else AllPlanned(pool, turns[..|turns| - 1], total, now) + [Planned(pool, turns[|turns| - 1], total, now)]
  }

  /** What a user's turn keeps out of the global bucket: its grant, or all of it on an error. */
  function Held(pool: Pool, t: Turn, total: U64, now: U64): (h: U64)
    ensures h <= (if t.eligible then Budget(pool, t, total) else 0)
  {
    if !t.eligible then 0
    else
      var g := TakeGrant(t.rates, Budget(pool, t, total), now).1;
      if g.Ok? then g.value.combined else Budget(pool, t, total)
  }

  function AllHeld(pool: Pool, turns: seq<Turn>, total: U64, now: U64): (hs: seq<int>)
    ensures |hs| == |turns|
    ensures forall i :: 0 <= i < |hs| ==> hs[i] == Held(pool, turns[i], total, now)
  {
    if turns == [] then []
    else AllHeld(pool, turns[..|turns| - 1], total, now) + [Held(pool, turns[|turns| - 1], total, now)]
  }

  lemma {:induction false} HeldWithinShares(available: U64, turns: seq<Turn>, total: U64, now: U64)
    ensures 0 <= Sum(AllHeld(Tokens(available), turns, total, now)) <= Sum(Shares(turns, available, total))
  {
    if turns != [] {
      var front, last := turns[..|turns| - 1], turns[|turns| - 1];
      HeldWithinShares(available, front, total, now);
      SumSnoc(AllHeld(Tokens(available), front, total, now), Held(Tokens(available), last, total, now));
      SumSnoc(Shares(front, available, total), WeightedShare(available, last.weight, total));
    }
  }

  /** A second look at a bucket in the same instant changes nothing. */
  lemma RefillIsIdle(b: Bucket)
    requires b.Valid()
    ensures Refill(b, b.last) == Ok(b)
  {
    assert (b.last - b.last) * b.rate == 0;
  }

  /** `bucket.take(budget, now).unwrap_or(0)`, or the whole budget without a global bucket. */
  function Draw(b: Option<Bucket>, budget: U64, now: U64): (Option<Bucket>, U64) {
    if b.None? then (None, budget)
    else match Take(b.value, budget, now)
         case Ok(t) => (Some(t.0), t.1)
         case Err(_) => (b, 0)
  }

  /** One user's turn on the bucket as earlier users left it. */
  function Served(b: Option<Bucket>, pool: Pool, t: Turn, total: U64, now: U64): (Option<Bucket>, (Rates, Option<Grant>)) {
    if !t.eligible then (b, (t.rates, None))
    else
      var weighted := if pool.Tokens? then WeightedShare(pool.available, t.weight, total) else U64_MAX;
      var (drawn, got) := Draw(b, Min(t.want, weighted), now);
      var (rates, g) := TakeGrant(t.rates, got, now);
      (if g.Ok? then GiveBackTo(drawn, SatSub(got, g.value.combined)) else drawn,
       (rates, if g.Ok? then Some(g.value) else None))
  }

  function ServedAll(b: Option<Bucket>, pool: Pool, turns: seq<Turn>, total: U64, now: U64)
    : (r: (Option<Bucket>, seq<(Rates, Option<Grant>)>))
    ensures |r.1| == |turns|
  {
    if turns == [] then (b, [])
    else
      var (front, plan) := ServedAll(b, pool, turns[..|turns| - 1], total, now);
      var (after, last) := Served(front, pool, turns[|turns| - 1], total, now);
      (after, plan + [last])
  }

  /** The global bucket as `available` leaves it for the loop. */
  function Opened(global: Option<Bucket>, now: U64): Option<Bucket> {
    if PoolOf(global, now).Tokens? then Some(Refill(global.value, now).value) else global
  }

  method ServeTurn(global: Option<Bucket>, pool: Pool, t: Turn, total: U64, now: U64)
    returns (after: Option<Bucket>, rates: Rates, grant: Option<Grant>)
    ensures (after, (rates, grant)) == Served(global, pool, t, total, now)
  {
    if !t.eligible {
      return global, t.rates, None;
    }
    var weighted := if pool.Tokens? then WeightedShare(pool.available, t.weight, total) else U64_MAX;
    var budget := Min(t.want, weighted);
    var (drawn, got) := Draw(global, budget, now);
    var (next, g) := TakeGrant(t.rates, got, now);
    rates := next;
    if g.Ok? {
      grant := Some(g.value);
      after := GiveBackTo(drawn, SatSub(got, g.value.combined));
    } else {
      grant, after := None, drawn;
    }
  }

  /** The loop of `poll_instance` over the scheduled users. */
  method Schedule(global: Option<Bucket>, turns: seq<Turn>, now: U64)
    returns (after: Option<Bucket>, plan: seq<(Rates, Option<Grant>)>, total: U64)
    ensures total == Min(Sum(Weights(turns)), U64_MAX)
    ensures (after, plan) == ServedAll(Opened(global, now), PoolOf(global, now), turns, total, now)
  {
    total := TotalWeight(turns);
    var pool := PoolOf(global, now);
    plan, after := [], Opened(global, now);
    assert turns[..0] == [];
    for i := 0 to |turns|
      invariant (after, plan) == ServedAll(Opened(global, now), pool, turns[..i], total, now)
    {
      assert turns[..i + 1][..i] == turns[..i];
      var rates, grant;
      after, rates, grant := ServeTurn(after, pool, turns[i], total, now);
      plan := plan + [(rates, grant)];
    }
    assert turns[..|turns|] == turns;
  }

  // ------------------------------------------------------------------ nobody is starved

  /** The bucket as the loop carries it: fresh from `available`, or as unreadable as before. */
  ghost predicate Carries(global: Option<Bucket>, pool: Pool, now: U64) {
    match pool
    case Unlimited => global.None?
    case Unreadable => global.Some? && global.value.Valid() && Refill(global.value, now).Err?
    case Tokens(_) => global.Some? && global.value.Valid() && global.value.last == now
  }

  /** With its share still in the bucket a user gets exactly what was planned for it. */
  lemma ServedAsPlanned(global: Option<Bucket>, pool: Pool, t: Turn, total: U64, now: U64)
    requires Carries(global, pool, now)
    requires pool.Tokens? ==> WeightedShare(pool.available, t.weight, total) <= global.value.tokens
    ensures var (after, plan) := Served(global, pool, t, total, now);
            && plan == Planned(pool, t, total, now)
            && (!pool.Tokens? ==> after == global)
            && (pool.Tokens? ==> after == Some(global.value.(tokens := global.value.tokens - Held(pool, t, total, now))))
  {
    if pool.Tokens? {
      RefillIsIdle(global.value);
    }
  }

  /** The bucket is lower by `held` tokens and otherwise the same. */
  ghost predicate Lowered(full: Bucket, held: int, after: Option<Bucket>) {
    0 <= held <= full.tokens && after == Some(full.(tokens := full.tokens - held))
  }

  ghost predicate AsPlanned(start: Option<Bucket>, pool: Pool, turns: seq<Turn>, total: U64, now: U64) {
    var (after, plan) := ServedAll(start, pool, turns, total, now);
    && plan == AllPlanned(pool, turns, total, now)
    && Carries(after, pool, now) && (!pool.Tokens? ==> after == start)
    && (pool.Tokens? ==> start.Some? && Lowered(start.value, Sum(AllHeld(pool, turns, total, now)), after))
  }

  lemma ServesNext(start: Option<Bucket>, pool: Pool, turns: seq<Turn>, i: nat, total: U64, now: U64)
    requires i < |turns| && Carries(start, pool, now) && AsPlanned(start, pool, turns[..i], total, now)
    requires pool.Tokens? ==> start.value.tokens == pool.available
                              && Sum(Shares(turns, pool.available, total)) <= pool.available
    ensures AsPlanned(start, pool, turns[..i + 1], total, now)
  {
    assert turns[..i + 1][..i] == turns[..i];
    HeldPrefix(pool, turns, i, total, now);
    if pool.Tokens? {
      ShareIsThere(turns, i, pool.available, total, now);
    }
    ServedAsPlanned(ServedAll(start, pool, turns[..i], total, now).0, pool, turns[i], total, now);
  }

  lemma {:induction false} ServesAll(start: Option<Bucket>, pool: Pool, turns: seq<Turn>, i: nat, total: U64, now: U64)
    requires i <= |turns| && Carries(start, pool, now)
    requires pool.Tokens? ==> start.value.tokens == pool.available
                              && Sum(Shares(turns, pool.available, total)) <= pool.available
    ensures AsPlanned(start, pool, turns[..i], total, now)
    decreases i
  {
    if i > 0 {
      ServesAll(start, pool, turns, i - 1, total, now);
      ServesNext(start, pool, turns, i - 1, total, now);
    }
  }

  /**
   * Nobody starves: each user draws on the shared bucket after the ones before it, yet receives exactly
   * the grant planned from its own share, and the bucket ends lower by exactly what the turns hold.
   */
  lemma NobodyStarves(global: Option<Bucket>, turns: seq<Turn>, now: U64)
    requires ValidBucket(global) && Sum(Weights(turns)) <= U64_MAX
    ensures 0 <= Sum(Weights(turns))
    ensures AsPlanned(Opened(global, now), PoolOf(global, now), turns, Sum(Weights(turns)), now)
  {
    WeightsNonNegative(turns);
    var pool, total := PoolOf(global, now), Sum(Weights(turns));
    if pool.Tokens? {
      SharesFit(turns, pool.available, total);
    }
    ServesAll(Opened(global, now), pool, turns, |turns|, total, now);
    assert turns[..|turns|] == turns;
  }

  lemma {:induction false} SumOfSame(xs: seq<int>, x: int)
    requires forall i :: 0 <= i < |xs| ==> xs[i] == x
    ensures Sum(xs) == |xs| * x
    decreases |xs|
  {
    if xs != [] {
      SumOfSame(xs[..|xs| - 1], x);
      Distribute(|xs| - 1, 1, x);
    }
  }

  /** Out of a full bucket of the largest size each share at a saturated total is the user's weight. */
  lemma {:induction false} SaturatedShares(turns: seq<Turn>)
    ensures Shares(turns, U64_MAX, U64_MAX) == Weights(turns)
  {
    if turns != [] {
      SaturatedShares(turns[..|turns| - 1]);
      assert U64_MAX * turns[|turns| - 1].weight / U64_MAX == turns[|turns| - 1].weight;
    }
  }

  /** Whatever is available, the shares do not add up to more. */
  ghost predicate SharesAlwaysFit(turns: seq<Turn>, total: U64) {
    forall a: U64 :: Sum(Shares(turns, a, total)) <= a
  }

  lemma FitsWithin(turns: seq<Turn>, total: U64)
    requires Sum(Weights(turns)) <= total
    ensures SharesAlwaysFit(turns, total)
  {
    forall a: U64
      ensures Sum(Shares(turns, a, total)) <= a
    {
      SharesFit(turns, a, total);
    }
  }

  lemma OverrunsBeyond(turns: seq<Turn>)
    requires Sum(Weights(turns)) > U64_MAX
    ensures !SharesAlwaysFit(turns, U64_MAX)
  {
    SaturatedShares(turns);
    assert Sum(Shares(turns, U64_MAX, U64_MAX)) > U64_MAX;
  }

  /** The shares of a poll fit every bucket if and only if the total weight fits 64 bits. */
  lemma SharesFitIff(turns: seq<Turn>)
    ensures 0 <= Sum(Weights(turns))
    ensures SharesAlwaysFit(turns, Min(Sum(Weights(turns)), U64_MAX)) <==> Sum(Weights(turns)) <= U64_MAX
  {
    WeightsNonNegative(turns);
    if Sum(Weights(turns)) <= U64_MAX {
      FitsWithin(turns, Sum(Weights(turns)));
    } else {
      OverrunsBeyond(turns);
    }
  }

  /** Every user has work for more than its share and no rate limit of its own. */
  predicate Greedy(turns: seq<Turn>) {
    forall i :: 0 <= i < |turns| ==>
      turns[i].eligible && turns[i].want >= turns[i].weight && turns[i].rates == Rates(None, None, None)
  }

  function Granted(plan: seq<(Rates, Option<Grant>)>): (gs: seq<int>)
    ensures |gs| == |plan|
    ensures forall i :: 0 <= i < |gs| ==> gs[i] == GrantedOne(plan[i].1)
  {
    if plan == [] then [] else Granted(plan[..|plan| - 1]) + [GrantedOne(plan[|plan| - 1].1)]
  }

  function GrantedOne(g: Option<Grant>): int {
    if g.Some? then g.value.combined else 0
  }

  lemma OneGrantFits(b: Bucket, pool: Pool, t: Turn, total: U64, now: U64)
    requires b.Valid() && b.last == now
    ensures var (after, plan) := Served(Some(b), pool, t, total, now);
            && after == Some(b.(tokens := after.value.tokens))
            && 0 <= GrantedOne(plan.1) && after.value.tokens + GrantedOne(plan.1) <= b.tokens
  {
    RefillIsIdle(b);
  }

  /** Whatever the shares, the grants of a poll never exceed the tokens that were there. */
  lemma {:induction false} GrantsFit(b: Bucket, pool: Pool, turns: seq<Turn>, total: U64, now: U64)
    requires b.Valid() && b.last == now
    ensures var (after, plan) := ServedAll(Some(b), pool, turns, total, now);
            && after.Some? && after == Some(b.(tokens := after.value.tokens))
            && 0 <= Sum(Granted(plan)) && after.value.tokens + Sum(Granted(plan)) <= b.tokens
    decreases |turns|
  {
    if turns != [] {
      var front := turns[..|turns| - 1];
      GrantsFit(b, pool, front, total, now);
      var (after, plan) := ServedAll(Some(b), pool, front, total, now);
      OneGrantFits(after.value, pool, turns[|turns| - 1], total, now);
      var last := Served(after, pool, turns[|turns| - 1], total, now).1;
      assert (plan + [last])[..|plan|] == plan;
      SumSnoc(Granted(plan), GrantedOne(last.1));
    }
  }

  lemma {:induction false} GreedyPlan(turns: seq<Turn>, now: U64)
    requires Greedy(turns)
    ensures Granted(AllPlanned(Tokens(U64_MAX), turns, U64_MAX, now)) == Shares(turns, U64_MAX, U64_MAX)
    decreases |turns|
  {
    if turns != [] {
      var n := |turns| - 1;
      GreedyPlan(turns[..n], now);
      SaturatedShares(turns);
      var plan := AllPlanned(Tokens(U64_MAX), turns[..n], U64_MAX, now);
      var last := Planned(Tokens(U64_MAX), turns[n], U64_MAX, now);
      assert WeightedShare(U64_MAX, turns[n].weight, U64_MAX) == Shares(turns, U64_MAX, U64_MAX)[n] == turns[n].weight;
      assert (plan + [last])[..n] == plan;
    }
  }

  /**
   * Users with enough to do all get their planned grants out of a full bucket of the largest size if and
   * only if the total weight fits 64 bits; otherwise somebody is left short.
   */
  lemma NobodyStarvesIff(b: Bucket, turns: seq<Turn>, now: U64)
    requires b.Valid() && b.last == now && b.tokens == U64_MAX && Greedy(turns)
    ensures 0 <= Sum(Weights(turns))
    ensures var total := Min(Sum(Weights(turns)), U64_MAX);
            ServedAll(Some(b), Tokens(U64_MAX), turns, total, now).1 == AllPlanned(Tokens(U64_MAX), turns, total, now)
            <==> Sum(Weights(turns)) <= U64_MAX
  {
    WeightsNonNegative(turns);
    if Sum(Weights(turns)) <= U64_MAX {
      SharesFit(turns, U64_MAX, Sum(Weights(turns)));
      ServesAll(Some(b), Tokens(U64_MAX), turns, |turns|, Sum(Weights(turns)), now);
      assert turns[..|turns|] == turns;
    } else {
      GrantsFit(b, Tokens(U64_MAX), turns, U64_MAX, now);
      GreedyPlan(turns, now);
      SaturatedShares(turns);
    }
  }

  /** Such a list: 2^32 + 2 users of the largest weight, each with work for more than its share. */
  lemma SaturatedSharesOverrun() returns (turns: seq<Turn>)
    ensures Greedy(turns) && Sum(Weights(turns)) > U64_MAX && Sum(Shares(turns, U64_MAX, U64_MAX)) > U64_MAX
  {
    turns := seq(0x1_0000_0002, _ => Turn(0xffff_ffff, true, U64_MAX, Rates(None, None, None)));
    SumOfSame(Weights(turns), 0xffff_ffff);
    SaturatedShares(turns);
  }

  // ------------------------------------------------------------------ a global bucket that overflowed

  /** Nobody gets a byte. */
  predicate AllEmpty(plan: seq<(Rates, Option<Grant>)>) {
    forall i :: 0 <= i < |plan| ==> GrantedOne(plan[i].1) == 0
  }

  lemma {:induction false} UnreadableServes(b: Bucket, turns: seq<Turn>, total: U64, now: U64)
    requires b.Valid() && Refill(b, now).Err?
    ensures var (after, plan) := ServedAll(Some(b), Unreadable, turns, total, now); after == Some(b) && AllEmpty(plan)
    decreases |turns|
  {
    if turns != [] {
      UnreadableServes(b, turns[..|turns| - 1], total, now);
    }
  }

  lemma {:induction false} EmptyRefunds(b: Bucket, plan: seq<(Rates, Option<Grant>)>, written: seq<Written>)
    requires b.Valid() && |plan| == |written| && AllEmpty(plan)
    ensures RefundedAll(Some(b), plan, written) == Some(b)
    decreases |plan|
  {
    if plan != [] {
      var n := |plan| - 1;
      EmptyRefunds(b, plan[..n], written[..n]);
      assert GrantedOne(plan[n].1) == 0;
    }
  }

  /**
   * Once the global bucket has overflowed, every later poll grants nothing to anybody and leaves the
   * bucket as it is: all limited users are starved for good.
   */
  lemma OverflowStarvesAll(b: Bucket, t: U64, turns: seq<Turn>, written: seq<Written>, total: U64, now: U64)
    requires b.Valid() && Overflows(b, t) && t <= now && |turns| == |written|
    ensures Opened(Some(b), now) == Some(b)
    ensures var (after, plan) := ServedAll(Opened(Some(b), now), PoolOf(Some(b), now), turns, total, now);
            AllEmpty(plan) && RefundedAll(after, plan, written) == Some(b)
  {
    OverflowStays(b, t, now);
    UnreadableServes(b, turns, total, now);
    EmptyRefunds(b, ServedAll(Some(b), Unreadable, turns, total, now).1, written);
  }

  lemma ShareIsThere(turns: seq<Turn>, k: nat, available: U64, total: U64, now: U64)
    requires k < |turns| && Sum(Shares(turns, available, total)) <= available
    ensures Sum(AllHeld(Tokens(available), turns[..k], total, now)) + WeightedShare(available, turns[k].weight, total)
            <= available
  {
    assert Shares(turns[..k], available, total) == Shares(turns, available, total)[..k];
    PrefixSum(Shares(turns, available, total), k);
    HeldWithinShares(available, turns[..k], total, now);
  }

  // ------------------------------------------------------------------ refunds after the flows ran

  /** Bytes a flow wrote in each direction. */
  datatype Written = Written(stack: U64, mux: U64)

  function Total(w: Written): nat {
    w.stack + w.mux
  }

  /** `refund_rate` on the global bucket. */
  function Refunded(b: Option<Bucket>, g: Option<Grant>, w: Written): Option<Bucket> {
    if g.None? then b else GiveBackTo(b, SatSub(g.value.combined, Total(w)))
  }

  function RefundedAll(b: Option<Bucket>, plan: seq<(Rates, Option<Grant>)>, written: seq<Written>): Option<Bucket>
    requires |plan| == |written|
  {
    if plan == [] then b
    else
      var n := |plan| - 1;
      Refunded(RefundedAll(b, plan[..n], written[..n]), plan[n].1, written[n])
  }

  method RefundAll(after: Option<Bucket>, plan: seq<(Rates, Option<Grant>)>, written: seq<Written>) returns (final: Option<Bucket>)
    requires |plan| == |written|
    ensures final == RefundedAll(after, plan, written)
  {
    final := after;
    assert plan[..0] == [];
    for i := 0 to |plan|
      invariant final == RefundedAll(after, plan[..i], written[..i])
    {
      assert plan[..i + 1][..i] == plan[..i] && written[..i + 1][..i] == written[..i];
      var grant := plan[i].1;
      if grant.Some? && final.Some? {
        final := Some(Refund(final.value, SatSub(grant.value.combined, written[i].stack + written[i].mux)));
      }
    }
    assert plan[..|plan|] == plan && written[..|plan|] == written;
  }

  /** What stays out of the bucket once a user is refunded: its bytes up to the grant, or all of it on an error. */
  function Kept(pool: Pool, t: Turn, w: Written, total: U64, now: U64): int {
    var grant := Planned(pool, t, total, now).1;
    if grant.Some? then Min(Total(w), grant.value.combined) else Held(pool, t, total, now)
  }

  function AllKept(pool: Pool, turns: seq<Turn>, ws: seq<Written>, total: U64, now: U64): (ks: seq<int>)
    requires |turns| == |ws|
    ensures |ks| == |turns|
    ensures forall i :: 0 <= i < |ks| ==> ks[i] == Kept(pool, turns[i], ws[i], total, now)
  {
    if turns == [] then []
    else
      var n := |turns| - 1;
      AllKept(pool, turns[..n], ws[..n], total, now) + [Kept(pool, turns[n], ws[n], total, now)]
  }

  /** What a grant of `h` tokens costs in the end. */
  function Spent(g: Option<Grant>, w: Written, h: nat): int {
    if g.Some? then Min(Total(w), h) else h
  }

  /** A refund returns what was held and not used. */
  lemma RefundReturns(full: Bucket, tokens: int, g: Option<Grant>, w: Written, h: U64)
    requires full.Valid() && 0 <= tokens && tokens + h <= full.tokens && (g.Some? ==> h == g.value.combined)
    ensures 0 <= Spent(g, w, h) <= h
    ensures Refunded(Some(full.(tokens := tokens)), g, w) == Some(full.(tokens := tokens + h - Spent(g, w, h)))
  {
  }

  lemma KeptIsSpent(pool: Pool, t: Turn, w: Written, total: U64, now: U64)
    ensures var g, h := Planned(pool, t, total, now).1, Held(pool, t, total, now);
            (g.Some? ==> h == g.value.combined) && Kept(pool, t, w, total, now) == Spent(g, w, h)
  {
  }

  /** Each grant took what is held for it, and costs in the end what is kept. */
  ghost predicate Settled(plan: seq<(Rates, Option<Grant>)>, written: seq<Written>, held: seq<int>, kept: seq<int>) {
    && |plan| == |written| == |held| == |kept|
    && forall i :: 0 <= i < |plan| ==> SettledOne(plan[i].1, written[i], held[i], kept[i])
  }

  ghost predicate SettledOne(g: Option<Grant>, w: Written, held: int, kept: int) {
    0 <= held <= U64_MAX && (g.Some? ==> held == g.value.combined) && kept == Spent(g, w, held)
  }

  lemma LastSettled(plan: seq<(Rates, Option<Grant>)>, written: seq<Written>, held: seq<int>, kept: seq<int>)
    requires Settled(plan, written, held, kept) && plan != []
    ensures var n := |plan| - 1;
            && Settled(plan[..n], written[..n], held[..n], kept[..n])
            && SettledOne(plan[n].1, written[n], held[n], kept[n])
  {
  }

  /** Refunding all grants, with `extra` tokens out of the bucket for other reasons. */
  lemma {:induction false} RefundsCompose(full: Bucket, after: Option<Bucket>, plan: seq<(Rates, Option<Grant>)>,
                                          written: seq<Written>, held: seq<int>, kept: seq<int>, extra: nat)
    requires full.Valid() && Settled(plan, written, held, kept) && Lowered(full, extra + Sum(held), after)
    ensures 0 <= Sum(kept) <= Sum(held)
    ensures Lowered(full, extra + Sum(kept), RefundedAll(after, plan, written))
    decreases |plan|
  {
    if plan != [] {
      var n := |plan| - 1;
      LastSettled(plan, written, held, kept);
      RefundsCompose(full, after, plan[..n], written[..n], held[..n], kept[..n], extra + held[n]);
      RefundReturns(full, full.tokens - extra - held[n] - Sum(kept[..n]), plan[n].1, written[n], held[n]);
    }
  }

  lemma PlanIsSettled(pool: Pool, turns: seq<Turn>, written: seq<Written>, total: U64, now: U64)
    requires |turns| == |written|
    ensures Settled(AllPlanned(pool, turns, total, now), written, AllHeld(pool, turns, total, now),
                    AllKept(pool, turns, written, total, now))
  {
    forall i | 0 <= i < |turns|
      ensures SettledOne(AllPlanned(pool, turns, total, now)[i].1, written[i], AllHeld(pool, turns, total, now)[i],
                         AllKept(pool, turns, written, total, now)[i])
    {
      PlannedAt(pool, turns, i, total, now);
      KeptIsSpent(pool, turns[i], written[i], total, now);
    }
  }

  lemma AllRefunded(full: Bucket, after: Option<Bucket>, plan: seq<(Rates, Option<Grant>)>, written: seq<Written>,
                    held: seq<int>, kept: seq<int>)
    requires full.Valid() && Settled(plan, written, held, kept) && Lowered(full, Sum(held), after)
    ensures Lowered(full, Sum(kept), RefundedAll(after, plan, written))
  {
    RefundsCompose(full, after, plan, written, held, kept, 0);
  }

  /** Refunding a whole plan leaves the bucket lower by what its users keep. */
  lemma PlanIsRefunded(full: Bucket, after: Option<Bucket>, pool: Pool, turns: seq<Turn>, written: seq<Written>,
                       total: U64, now: U64)
    requires full.Valid() && |turns| == |written| && Lowered(full, Sum(AllHeld(pool, turns, total, now)), after)
    ensures Lowered(full, Sum(AllKept(pool, turns, written, total, now)),
                    RefundedAll(after, AllPlanned(pool, turns, total, now), written))
  {
    PlanIsSettled(pool, turns, written, total, now);
    AllRefunded(full, after, AllPlanned(pool, turns, total, now), written, AllHeld(pool, turns, total, now),
                AllKept(pool, turns, written, total, now));
  }

  // ------------------------------------------------------------------ a whole poll

  /** Schedule, let the flows write, refund. */
  method PollOnce(global: Option<Bucket>, turns: seq<Turn>, written: seq<Written>, now: U64)
    returns (final: Option<Bucket>, plan: seq<(Rates, Option<Grant>)>)
    requires ValidBucket(global) && |turns| == |written|
    ensures |plan| == |written|
    ensures var total := Min(Sum(Weights(turns)), U64_MAX);
            && 0 <= total && plan == ServedAll(Opened(global, now), PoolOf(global, now), turns, total, now).1
            && final == RefundedAll(ServedAll(Opened(global, now), PoolOf(global, now), turns, total, now).0, plan, written)
    ensures Sum(Weights(turns)) <= U64_MAX && PoolOf(global, now).Tokens? ==>
              && 0 <= Sum(Weights(turns))
              && plan == AllPlanned(PoolOf(global, now), turns, Sum(Weights(turns)), now)
              && Lowered(Refill(global.value, now).value,
                         Sum(AllKept(PoolOf(global, now), turns, written, Sum(Weights(turns)), now)), final)
  {
    var after, total;
    after, plan, total := Schedule(global, turns, now);
    final := RefundAll(after, plan, written);
    if Sum(Weights(turns)) <= U64_MAX && PoolOf(global, now).Tokens? {
      NobodyStarves(global, turns, now);
      PollConserves(global, turns, written, now);
    }
  }

  /** Conservation: after a poll the bucket is lower by exactly what the users keep. */
  lemma PollConserves(global: Option<Bucket>, turns: seq<Turn>, written: seq<Written>, now: U64)
    requires ValidBucket(global) && PoolOf(global, now).Tokens? && |turns| == |written|
    requires 0 <= Sum(Weights(turns)) <= U64_MAX
    requires AsPlanned(Opened(global, now), PoolOf(global, now), turns, Sum(Weights(turns)), now)
    ensures var pool, total := PoolOf(global, now), Sum(Weights(turns));
            var (after, plan) := ServedAll(Opened(global, now), pool, turns, total, now);
            Lowered(Refill(global.value, now).value, Sum(AllKept(pool, turns, written, total, now)),
                    RefundedAll(after, plan, written))
  {
    var full, total := Refill(global.value, now).value, Sum(Weights(turns));
    var pool := PoolOf(global, now);
    PlanIsRefunded(full, ServedAll(Opened(global, now), pool, turns, total, now).0, pool, turns, written, total, now);
  }

  /** What a user ought to pay: the bytes its flow wrote, or its whole draw when its own buckets failed. */
  function Owed(pool: Pool, t: Turn, w: Written, total: U64, now: U64): int {
    if Planned(pool, t, total, now).1.Some? then Total(w) else Held(pool, t, total, now)
  }

  function AllOwed(pool: Pool, turns: seq<Turn>, ws: seq<Written>, total: U64, now: U64): (os: seq<int>)
    requires |turns| == |ws|
    ensures |os| == |turns|
    ensures forall i :: 0 <= i < |os| ==> os[i] == Owed(pool, turns[i], ws[i], total, now)
  {
    if turns == [] then []
    else
      var n := |turns| - 1;
      AllOwed(pool, turns[..n], ws[..n], total, now) + [Owed(pool, turns[n], ws[n], total, now)]
  }

  /** The user's flow wrote no more than its combined grant. */
  predicate Honest(pool: Pool, t: Turn, w: Written, total: U64, now: U64) {
    var grant := Planned(pool, t, total, now).1;
    grant.Some? ==> Total(w) <= grant.value.combined
  }

  lemma {:induction false} SumsAgreeIff(a: seq<int>, b: seq<int>)
    requires |a| == |b| && forall i :: 0 <= i < |a| ==> a[i] <= b[i]
    ensures Sum(a) <= Sum(b)
    ensures Sum(a) == Sum(b) <==> a == b
    decreases |a|
  {
    if a != [] {
      var n := |a| - 1;
      SumsAgreeIff(a[..n], b[..n]);
      assert a == a[..n] + [a[n]] && b == b[..n] + [b[n]];
    }
  }

  /**
   * The poll charges the global bucket for exactly the bytes written, plus the draws of users whose own
   * buckets failed, if and only if every flow stayed within its combined grant; otherwise it charges less.
   */
  lemma PaysExactlyIff(pool: Pool, turns: seq<Turn>, written: seq<Written>, total: U64, now: U64)
    requires |turns| == |written|
    ensures Sum(AllKept(pool, turns, written, total, now)) <= Sum(AllOwed(pool, turns, written, total, now))
    ensures Sum(AllKept(pool, turns, written, total, now)) == Sum(AllOwed(pool, turns, written, total, now))
            <==> forall i :: 0 <= i < |turns| ==> Honest(pool, turns[i], written[i], total, now)
  {
    var kept, owed := AllKept(pool, turns, written, total, now), AllOwed(pool, turns, written, total, now);
    SumsAgreeIff(kept, owed);
    forall i | 0 <= i < |turns|
      ensures kept[i] == owed[i] <==> Honest(pool, turns[i], written[i], total, now)
    {
    }
    if kept == owed {
      forall i | 0 <= i < |turns|
        ensures Honest(pool, turns[i], written[i], total, now)
      {
        assert kept[i] == owed[i];
      }
    }
  }

  lemma HeldPrefix(pool: Pool, turns: seq<Turn>, i: nat, total: U64, now: U64)
    requires i < |turns|
    ensures var h := Sum(AllHeld(pool, turns[..i], total, now));
            && Sum(AllHeld(pool, turns[..i + 1], total, now)) == h + Held(pool, turns[i], total, now)
            && h + Held(pool, turns[i], total, now) <= Sum(AllHeld(pool, turns, total, now))
  {
    var all := AllHeld(pool, turns, total, now);
    assert AllHeld(pool, turns[..i], total, now) == all[..i];
    assert AllHeld(pool, turns[..i + 1], total, now) == all[..i] + [all[i]];
    SumSnoc(all[..i], all[i]);
    PrefixSum(all, i);
  }

  lemma {:induction false} PlannedAt(pool: Pool, turns: seq<Turn>, k: nat, total: U64, now: U64)
    requires k < |turns|
    ensures AllPlanned(pool, turns, total, now)[k] == Planned(pool, turns[k], total, now)
    decreases |turns|
  {
    if k < |turns| - 1 {
      PlannedAt(pool, turns[..|turns| - 1], k, total, now);
    }
  }
}
