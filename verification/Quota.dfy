/**
 * The quota protocol: one user's account, its cached and stored records, and the writes in flight.
 *
 * `Advance` is the body of the per-user loop of `advance_quota`; everything that comes from outside
 * (clock, whether the user has flows, what a reply channel holds, whether the storage queue accepts
 * a write) is in `Env`.  `World` adds the storage worker, spending, crashes and restarts.
 */
module Quota {
  import opened Basics
  import opened Accounting

  /** The part of a stored user record that metering reads and writes. */
  datatype Record = Record(limit: Option<U64>, charged: U64)

  datatype Pending = Pending(amount: U64, record: Record)

  datatype Traffic = Traffic(
    quota: Account,
    debit: Option<Pending>,
    refund: Option<Pending>,
    failed: bool,
    checkpointAt: nat)

  datatype User = User(traffic: Option<Traffic>, cached: Option<Record>)

  datatype Reply = Empty | Done | Failed

  datatype Env = Env(
    active: bool,
    now: nat,
    interval: nat,
    block: U64,
    ratesValid: bool,
    debitReply: Reply,
    refundReply: Reply,
    encodes: bool,
    accepts: bool)

  /** What one turn of the loop leaves: the user, a write handed to storage, whether flows stop. */
  datatype Outcome = Outcome(user: User, put: Option<Record>, stopped: bool)

  // ------------------------------------------------------------------ one turn of advance_quota

  function Advance(u: User, e: Env): Outcome {
    if u.traffic.Some? then
      Settle(u.traffic.value, u.cached, e)
    else if !e.active then
      Outcome(u, None, false)
    else if u.cached.None? then
      Outcome(u, None, true)
    else
      match NewAccount(u.cached.value.limit, u.cached.value.charged, e.block)
      case Err(_) => Outcome(u, None, true)
      case Ok(quota) =>
        if !e.ratesValid then Outcome(u, None, true)
        else Settle(Traffic(quota, None, None, false, e.now + e.interval), u.cached, e)
  }

  function Settle(t: Traffic, cached: Option<Record>, e: Env): Outcome {
    if t.failed then
      if e.active then Outcome(User(Some(t), cached), None, true)
      else Outcome(User(None, cached), None, false)
    else if t.debit.None? then
      SettleRefund(t, cached, e)
    else
      match e.debitReply
      case Empty => Outcome(User(Some(t), cached), None, false)
      case Failed => Outcome(User(Some(t.(quota := FailCredit(t.quota), debit := None, failed := true)), cached), None, true)
      case Done =>
        match CommitCredit(t.quota, t.debit.value.amount)
        case Err(_) => Outcome(User(Some(t.(debit := None, failed := true)), cached), None, true)
        case Ok(quota) => SettleRefund(t.(quota := quota, debit := None), Some(t.debit.value.record), e)
  }

  function SettleRefund(t: Traffic, cached: Option<Record>, e: Env): Outcome {
    if t.refund.None? then
      Demand(t, cached, e)
    else
      match e.refundReply
      case Empty => Outcome(User(Some(t), cached), None, false)
      case Failed =>
        Outcome(User(Some(t.(quota := FailRefund(t.quota), refund := None, failed := true)), cached), None, e.active)
      case Done =>
        match CommitRefund(t.quota, t.refund.value.amount)
        case Err(_) => Outcome(User(Some(t.(refund := None, failed := true)), cached), None, e.active)
        case Ok(quota) =>
          var record := Some(t.refund.value.record);
          if !e.active then Outcome(User(None, record), None, false)
          else Demand(t.(quota := quota, refund := None, checkpointAt := e.now + e.interval), record, e)
  }

  function Demand(t: Traffic, cached: Option<Record>, e: Env): Outcome {
    if !e.active || e.now >= t.checkpointAt then DemandRefund(t, cached, e)
    else if t.quota.credit != 0 then Outcome(User(Some(t), cached), None, false)
    else DemandCredit(t, cached, e)
  }

  function DemandRefund(t: Traffic, cached: Option<Record>, e: Env): Outcome {
    match RequestRefund(t.quota)
    case Err(_) =>
      if t.quota.credit != 0 then Outcome(User(Some(t.(failed := true)), cached), None, false)
      else if !e.active then Outcome(User(None, cached), None, false)
      else Outcome(User(Some(t.(checkpointAt := e.now + e.interval)), cached), None, false)
    case Ok(asked) =>
      var (quota, amount) := asked;
      if cached.None? || cached.value.charged < amount || !e.encodes || !e.accepts then
        Outcome(User(Some(t.(quota := FailRefund(quota), failed := true)), cached), None, false)
      else
        var record := cached.value.(charged := cached.value.charged - amount);
        Outcome(User(Some(t.(quota := quota, refund := Some(Pending(amount, record)))), cached), Some(record), false)
  }

  function DemandCredit(t: Traffic, cached: Option<Record>, e: Env): Outcome {
    match RequestCredit(t.quota)
    case Err(Exhausted) => Outcome(User(Some(t), cached), None, true)
    case Err(_) => Outcome(User(Some(t.(failed := true)), cached), None, true)
    case Ok(asked) =>
      var (quota, amount) := asked;
      if cached.None? || cached.value.charged + amount > U64_MAX || !e.encodes || !e.accepts then
        Outcome(User(Some(t.(quota := FailCredit(quota), failed := true)), cached), None, true)
      else
        var record := cached.value.(charged := cached.value.charged + amount);
        Outcome(User(Some(t.(quota := quota, debit := Some(Pending(amount, record)))), cached), Some(record), false)
  }

  // ------------------------------------------------------------------ the loop over all users

  type UserId = string

  class Meter {
    var traffic: map<UserId, Traffic>
    var users: map<UserId, Record>

    ghost function View(id: UserId): User
      reads this
    {
      User(if id in traffic then Some(traffic[id]) else None,
           if id in users then Some(users[id]) else None)
    }

    constructor (users: map<UserId, Record>)
      ensures this.users == users && traffic == map[]
    {
      this.users, traffic := users, map[];
    }

    /** Give unused credit back: at a checkpoint, or because the user has no flows left. */
    method AskRefund(id: UserId, e: Env) returns (put: Option<Record>, stopped: bool)
      requires id in traffic
      modifies `traffic
      ensures traffic - {id} == old(traffic) - {id}
      ensures Outcome(View(id), put, stopped) == DemandRefund(old(traffic)[id], At(users, id), e)
    {
      put, stopped := None, false;
      var t := traffic[id];
      var asked := RequestRefund(t.quota);
      if asked.Err? {
        if t.quota.credit != 0 {
          traffic := traffic[id := t.(failed := true)];
        } else if !e.active {
          traffic := traffic - {id};
        } else {
          traffic := traffic[id := t.(checkpointAt := e.now + e.interval)];
        }
        return;
      }
      var (quota, amount) := asked.value;
      if id !in users || users[id].charged < amount || !e.encodes || !e.accepts {
        traffic := traffic[id := t.(quota := FailRefund(quota), failed := true)];
        return;
      }
      var record := users[id].(charged := users[id].charged - amount);
      traffic := traffic[id := t.(quota := quota, refund := Some(Pending(amount, record)))];
      put := Some(record);
    }

    /** Ask for the next block of credit. */
    method AskCredit(id: UserId, e: Env) returns (put: Option<Record>, stopped: bool)
      requires id in traffic
      modifies `traffic
      ensures traffic - {id} == old(traffic) - {id}
      ensures Outcome(View(id), put, stopped) == DemandCredit(old(traffic)[id], At(users, id), e)
    {
      put, stopped := None, true;
      var t := traffic[id];
      var asked := RequestCredit(t.quota);
      if asked.Err? {
        if asked.error != Exhausted {
          traffic := traffic[id := t.(failed := true)];
        }
        return;
      }
      var (quota, amount) := asked.value;
      if id !in users || users[id].charged + amount > U64_MAX || !e.encodes || !e.accepts {
        traffic := traffic[id := t.(quota := FailCredit(quota), failed := true)];
        return;
      }
      var record := users[id].(charged := users[id].charged + amount);
      traffic := traffic[id := t.(quota := quota, debit := Some(Pending(amount, record)))];
      put, stopped := Some(record), false;
    }

    /** With nothing in flight: a refund when one is due, else credit when there is none left. */
    method Ask(id: UserId, e: Env) returns (put: Option<Record>, stopped: bool)
      requires id in traffic
      modifies `traffic
      ensures traffic - {id} == old(traffic) - {id}
      ensures Outcome(View(id), put, stopped) == Demand(old(traffic)[id], At(users, id), e)
    {
      put, stopped := None, false;
      if !e.active || e.now >= traffic[id].checkpointAt {
        put, stopped := AskRefund(id, e);
      } else if traffic[id].quota.credit == 0 {
        put, stopped := AskCredit(id, e);
      }
    }

    /** A pending refund is settled on its reply before anything else is asked for. */
    method CollectRefund(id: UserId, e: Env) returns (put: Option<Record>, stopped: bool)
      requires id in traffic
      modifies this
      ensures traffic - {id} == old(traffic) - {id} && users - {id} == old(users) - {id}
      ensures Outcome(View(id), put, stopped) == SettleRefund(old(traffic)[id], At(old(users), id), e)
    {
      put, stopped := None, false;
      var t := traffic[id];
      if t.refund.Some? {
        match e.refundReply {
          case Empty => return;
          case Failed =>
            traffic := traffic[id := t.(quota := FailRefund(t.quota), refund := None, failed := true)];
            return None, e.active;
          case Done =>
            var settled := CommitRefund(t.quota, t.refund.value.amount);
            if settled.Err? {
              traffic := traffic[id := t.(refund := None, failed := true)];
              return None, e.active;
            }
            users := users[id := t.refund.value.record];
            if !e.active {
              traffic := traffic - {id};
              return;
            }
            traffic := traffic[id := t.(quota := settled.value, refund := None, checkpointAt := e.now + e.interval)];
        }
      }
      put, stopped := Ask(id, e);
    }

    /** A pending debit is settled first; a failed user is stopped or dropped. */
    method CollectDebit(id: UserId, e: Env) returns (put: Option<Record>, stopped: bool)
      requires id in traffic
      modifies this
      ensures traffic - {id} == old(traffic) - {id} && users - {id} == old(users) - {id}
      ensures Outcome(View(id), put, stopped) == Settle(old(traffic)[id], At(old(users), id), e)
    {
      put, stopped := None, false;
      var t := traffic[id];
      if t.failed {
        if !e.active {
          traffic := traffic - {id};
        }
        return None, e.active;
      }
      if t.debit.Some? {
        match e.debitReply {
          case Empty => return;
          case Failed =>
            traffic := traffic[id := t.(quota := FailCredit(t.quota), debit := None, failed := true)];
            return None, true;
          case Done =>
            var settled := CommitCredit(t.quota, t.debit.value.amount);
            if settled.Err? {
              traffic := traffic[id := t.(debit := None, failed := true)];
              return None, true;
            }
            users := users[id := t.debit.value.record];
            traffic := traffic[id := t.(quota := settled.value, debit := None)];
        }
      }
      put, stopped := CollectRefund(id, e);
    }

    /** One turn of the loop body: an entry is made for a user with new flows, then its writes are settled. */
    method TakeTurn(id: UserId, e: Env) returns (put: Option<Record>, stopped: bool)
      modifies this
      ensures traffic - {id} == old(traffic) - {id} && users - {id} == old(users) - {id}
      ensures Outcome(View(id), put, stopped) == Advance(old(View(id)), e)
    {
      if id !in traffic {
        if !e.active {
          return None, false;
        }
        if id !in users {
          return None, true;
        }
        var quota := NewAccount(users[id].limit, users[id].charged, e.block);
        if quota.Err? || !e.ratesValid {
          return None, true;
        }
        traffic := traffic[id := Traffic(quota.value, None, None, false, e.now + e.interval)];
      }
      put, stopped := CollectDebit(id, e);
    }

    /** Every user takes exactly its own turn, whatever order the loop visits them in. */
    method AdvanceQuota(active: set<UserId>, env: UserId -> Env)
      returns (stopped: set<UserId>, puts: map<UserId, Record>)
      requires forall id :: env(id).active <==> id in active
      modifies this
      ensures forall id :: Turned(old(View(id)), env(id), View(id), id in stopped, At(puts, id))
    {
      stopped, puts := {}, map[];
      var all := active + traffic.Keys;
      var left := all;
      while left != {}
        invariant left <= all == active + old(traffic).Keys
        invariant stopped <= all - left && puts.Keys <= all - left
        invariant forall id :: id !in all || id in left ==> View(id) == old(View(id))
        invariant forall id :: id in all - left ==>
          Turned(old(View(id)), env(id), View(id), id in stopped, At(puts, id))
        decreases left
      {
        var id :| id in left;
        left := left - {id};
        ghost var t, u := traffic, users;
        var put, stop := TakeTurn(id, env(id));
        OthersUnchanged(t, traffic, id);
        OthersUnchanged(u, users, id);
        if stop { stopped := stopped + {id}; }
        if put.Some? { puts := puts[id := put.value]; }
      }
    }
  }

  lemma OthersUnchanged<T>(before: map<UserId, T>, after: map<UserId, T>, id: UserId)
    requires after - {id} == before - {id}
    ensures forall other :: other != id ==>
              (other in after <==> other in before) && (other in before ==> after[other] == before[other])
  {
    forall other | other != id
      ensures (other in after <==> other in before) && (other in before ==> after[other] == before[other])
    {
      assert other in after <==> other in after - {id};
      assert other in before <==> other in before - {id};
    }
  }

  function At(m: map<UserId, Record>, id: UserId): Option<Record> {
    if id in m then Some(m[id]) else None
  }

  ghost predicate Turned(before: User, e: Env, after: User, stopped: bool, put: Option<Record>) {
    Advance(before, e) == Outcome(after, put, stopped)
  }

  // ------------------------------------------------------------------ the world of one user

  /** The write in flight: queued at the worker, or executed with its answer in the reply channel. */
  datatype Flight = Idle | Queued(record: Record) | Answered(ok: bool)

  /** A read of the record by an authentication or an administrative command. */
  datatype Read = Asked | Served(record: Record, recent: bool)   // recent: no quota write confirmed since

  type ReadId = nat

  datatype World = World(
    user: User,
    flight: Flight,
    stored: Record,
    base: nat,      // stored charge when the run began
    total: nat,     // bytes charged since then
    clean: bool,    // no write has failed and nothing has crashed
    lookups: map<ReadId, Read>)

  datatype Event =
    | Poll(env: Env)
    | Spend(bytes: U64)
    | WorkerWrites
    | WorkerFails(written: bool)   // error or lost worker; the record may have reached the disk
    | Ask(id: ReadId)
    | Serve(id: ReadId)
    | Collect(id: ReadId)          // the record read goes into the cache, whatever has happened since
    | Evict
    | Crash(written: bool)

  function InFlight(u: User): Option<Pending> {
    if u.traffic.None? then None
    else if u.traffic.value.debit.Some? then u.traffic.value.debit
    else u.traffic.value.refund
  }

  predicate Alive(u: User) {
    u.traffic.Some? && !u.traffic.value.failed
  }

  predicate Resting(u: User) {
    Alive(u) && InFlight(u).None?
  }

  predicate Hears(flight: Flight, reply: Reply) {
    reply == (match flight case Answered(ok) => (if ok then Done else Failed) case _ => Empty)
  }

  /** The interval between checkpoints is positive by configuration. */
  predicate Enabled(w: World, ev: Event) {
    match ev
    case Poll(env) =>
      && env.interval > 0
      && (w.user.traffic.Some? ==>
            && (w.user.traffic.value.debit.Some? ==> Hears(w.flight, env.debitReply))
            && (w.user.traffic.value.refund.Some? ==> Hears(w.flight, env.refundReply)))
    case Spend(_) => Resting(w.user)
    case WorkerWrites => w.flight.Queued?
    case WorkerFails(_) => w.flight.Queued?
    case Ask(id) => id !in w.lookups
    case Serve(id) => id in w.lookups && w.lookups[id].Asked?
    case Collect(id) => id in w.lookups && w.lookups[id].Served?
    case Evict => true
    case Crash(_) => true
  }

  /** The world after a poll: a new write goes to the worker, a settled one leaves the channel. */
  function Land(w: World, turn: Outcome): World {
    w.(user := turn.user,
       flight := if turn.put.Some? then Queued(turn.put.value)
                 else if InFlight(turn.user).Some? then w.flight else Idle,
       clean := w.clean && (turn.user.traffic.Some? ==> !turn.user.traffic.value.failed))
  }

  /** A poll that finds a confirmation makes every record read before it out of date. */
  function Outdated(lookups: map<ReadId, Read>): map<ReadId, Read> {
    map id | id in lookups :: match lookups[id] case Asked => Asked case Served(r, _) => Served(r, false)
  }

  function Polled(w: World, e: Env): World {
    Land(w, Advance(w.user, e)).(lookups := if w.flight == Answered(true) then Outdated(w.lookups) else w.lookups)
  }

  function Cache(w: World, r: Option<Record>): World {
    w.(user := w.user.(cached := r))
  }

  function Spent(w: World, bytes: U64): World
    requires Resting(w.user)
  {
    match Charge(w.user.traffic.value.quota, bytes)
    case Err(_) => w
    case Ok(quota) =>
      w.(user := w.user.(traffic := Some(w.user.traffic.value.(quota := quota))), total := w.total + bytes)
  }

  function Apply(w: World, ev: Event): World
    requires Enabled(w, ev)
  {
    match ev
    case Poll(env) => Polled(w, env)
    case Spend(bytes) => Spent(w, bytes)
    case WorkerWrites => w.(stored := w.flight.record, flight := Answered(true))
    case WorkerFails(written) =>
      w.(stored := if written then w.flight.record else w.stored, flight := Answered(false), clean := false)
    case Ask(id) => w.(lookups := w.lookups[id := Asked])
    case Serve(id) => w.(lookups := w.lookups[id := Served(w.stored, true)])
    case Collect(id) => Cache(w, Some(w.lookups[id].record)).(lookups := w.lookups - {id})
    case Evict => Cache(w, None)
    case Crash(written) =>
      w.(user := User(None, None), flight := Idle, clean := false, lookups := map[],
         stored := if written && w.flight.Queued? then w.flight.record else w.stored)
  }

  predicate Feasible(w: World, events: seq<Event>)
    decreases |events|
  {
    events == [] || (Enabled(w, events[0]) && Feasible(Apply(w, events[0]), events[1..]))
  }

  function Run(w: World, events: seq<Event>): World
    requires Feasible(w, events)
    decreases |events|
  {
    if events == [] then w else Run(Apply(w, events[0]), events[1..])
  }

  ghost predicate Initial(w: World) {
    w == World(User(None, None), Idle, w.stored, w.stored.charged, 0, true, map[])
  }

  // ------------------------------------------------------------------ four invariants

  /** Credit bought and not yet spent, by a user with nothing in flight. */
  function Spare(u: User): nat {
    if Resting(u) then u.traffic.value.quota.credit else 0
  }

  /** What any record must cover at this moment. */
  function Floor(w: World): nat {
    w.base + w.total + Spare(w.user)
  }

  ghost predicate FlightInv(w: World, p: Pending) {
    && p.record.limit == w.stored.limit
    && (match w.flight
        case Idle => false
        case Queued(r) => r == p.record
        case Answered(ok) => ok ==> w.stored == p.record)
  }

  ghost predicate AliveInv(w: World, t: Traffic) {
    var q := t.quota;
    && q.limit == w.stored.limit && q.credit <= q.charged && q.block > 0
    && q.debitPending == t.debit.Some? && q.refundPending == t.refund.Some? && !(t.debit.Some? && t.refund.Some?)
    && (t.debit.None? && t.refund.None? ==> w.flight.Idle?)
    && (t.debit.Some? ==> q.credit == 0 && 0 < t.debit.value.amount <= q.block && FlightInv(w, t.debit.value)
                          && (q.limit.Some? ==> q.charged + t.debit.value.amount <= q.limit.value))
    && (t.refund.Some? ==> 0 < t.refund.value.amount == q.credit && FlightInv(w, t.refund.value))
  }

  /** The account and its writes fit together, whatever is cached. */
  ghost predicate AccountInv(w: World) {
    && (w.user.cached.Some? ==> w.user.cached.value.limit == w.stored.limit)
    && (!Alive(w.user) ==> w.flight.Idle? && InFlight(w.user).None?)
    && (Alive(w.user) ==> AliveInv(w, w.user.traffic.value))
  }

  /** A confirmed write is waiting that the account will accept: its record replaces whatever is cached. */
  predicate Replaces(w: World) {
    && w.flight == Answered(true)
    && (w.user.traffic.Some? && w.user.traffic.value.debit.Some? ==>
          w.user.traffic.value.quota.charged + w.user.traffic.value.debit.value.amount <= U64_MAX)
  }

  /** A record that can be cached without the charge ever falling short. */
  predicate Safe(w: World, r: Record) {
    Replaces(w) || r.charged >= Floor(w)
  }

  /** No byte charged is missing from the store, nor from any record that may be stored next. */
  ghost predicate CoverInv(w: World) {
    && w.stored.charged >= Floor(w)
    && (w.user.cached.Some? ==> Safe(w, w.user.cached.value))
    && (Alive(w.user) && w.user.traffic.value.debit.Some? ==>
          w.user.traffic.value.debit.value.record.charged >= w.base + w.total + w.user.traffic.value.debit.value.amount)
    && (Alive(w.user) && w.user.traffic.value.refund.Some? ==>
          w.user.traffic.value.refund.value.record.charged >= w.base + w.total)
  }

  /** No charge goes past the limit, or past the initial charge when that was already higher. */
  ghost predicate Fits(w: World, charged: int) {
    w.stored.limit.Some? ==> charged <= Max(w.stored.limit.value, w.base)
  }

  /** The limit is reached and no credit left: the account asks for nothing any more. */
  predicate UsedUp(q: Account) {
    q.limit.Some? && q.charged >= q.limit.value && q.credit == 0
  }

  /** A record that can be cached without the limit being passed: the account knows of all it has charged. */
  predicate Within(w: World, r: Record) {
    || Replaces(w)
    || (Resting(w.user) ==> r.charged <= w.user.traffic.value.quota.charged || UsedUp(w.user.traffic.value.quota))
  }

  /** The account and every record that may be stored next stay within the limit. */
  ghost predicate LimitInv(w: World) {
    && Fits(w, w.stored.charged)
    && (w.user.cached.Some? ==> Fits(w, w.user.cached.value.charged) && Within(w, w.user.cached.value))
    && (Alive(w.user) ==> AliveLimit(w.user.traffic.value))
  }

  ghost predicate AliveLimit(t: Traffic) {
    var q := t.quota;
    && (q.limit.Some? ==> q.charged <= q.limit.value)
    && (t.debit.Some? ==> t.debit.value.record.charged <= q.charged + t.debit.value.amount)
    && (t.refund.Some? ==> t.refund.value.record.charged <= q.charged - t.refund.value.amount)
  }

  /** The record says what the account says, and in a clean run exactly what was charged. */
  ghost predicate Current(w: World, r: Record) {
    || Replaces(w)
    || (&& (Resting(w.user) ==> r.charged == w.user.traffic.value.quota.charged || UsedUp(w.user.traffic.value.quota))
        && (w.clean && InFlight(w.user).None? ==> r.charged == Floor(w)))
  }

  ghost predicate ExactInv(w: World) {
    && (w.user.cached.Some? ==> Current(w, w.user.cached.value))
    && (w.clean && InFlight(w.user).None? ==> w.stored.charged == Floor(w))
    && (w.user.traffic.Some? && w.user.traffic.value.failed ==> !w.clean)
    && (w.flight == Answered(false) ==> !w.clean)
    && (Alive(w.user) ==> AliveExact(w, w.user.traffic.value))
  }

  ghost predicate AliveExact(w: World, t: Traffic) {
    var q := t.quota;
    && (w.clean ==> q.charged == w.base + w.total + q.credit)
    && (t.debit.None? && t.refund.None? ==> w.stored.charged == q.charged || UsedUp(q))
    && (t.debit.Some? ==> t.debit.value.record.charged == q.charged + t.debit.value.amount)
    && (t.refund.Some? ==> t.refund.value.record.charged == q.charged - t.refund.value.amount)
  }

  /** How much is known: the accounts fit; nothing charged is lost; the limit is kept; account and store agree. */
  datatype Level = Accounts | Coverage | Limit | Agreement

  predicate Covers(k: Level) { k.Coverage? || k.Agreement? }

  predicate Limits(k: Level) { k.Limit? || k.Agreement? }

  ghost predicate Inv(k: Level, w: World) {
    AccountInv(w) && (Covers(k) ==> CoverInv(w)) && (Limits(k) ==> LimitInv(w)) && (k.Agreement? ==> ExactInv(w))
  }

  // ------------------------------------------------------------------ every poll keeps them

  /** A user in good standing with nothing in flight; a new entry is about to ask for credit. */
  ghost predicate AtRest(k: Level, w: World, t: Traffic, cached: Option<Record>) {
    Inv(k, w) && w.user == User(Some(t), cached) && Resting(w.user)
  }

  lemma DemandRefundKeeps(k: Level, w: World, t: Traffic, cached: Option<Record>, e: Env)
    requires AtRest(k, w, t, cached)
    ensures Inv(k, Land(w, DemandRefund(t, cached, e)))
  {
  }

  lemma DemandCreditKeeps(k: Level, w: World, t: Traffic, cached: Option<Record>, e: Env)
    requires AtRest(k, w, t, cached) && t.quota.credit == 0
    ensures Inv(k, Land(w, DemandCredit(t, cached, e)))
  {
  }

  lemma DemandKeeps(k: Level, w: World, t: Traffic, cached: Option<Record>, e: Env)
    requires AtRest(k, w, t, cached)
    ensures Inv(k, Land(w, Demand(t, cached, e)))
  {
    if !e.active || e.now >= t.checkpointAt {
      DemandRefundKeeps(k, w, t, cached, e);
    } else if t.quota.credit == 0 {
      DemandCreditKeeps(k, w, t, cached, e);
    }
  }

  /** A demand leaves no trace of the flight it started from. */
  lemma DemandForgetsFlight(w: World, t: Traffic, cached: Option<Record>, e: Env, flight: Flight)
    requires t.debit.None? && t.refund.None?
    ensures Land(w, Demand(t, cached, e)) == Land(w.(flight := flight), Demand(t, cached, e))
  {
  }

  /** The account as the confirmed refund leaves it. */
  lemma RefundSettles(k: Level, w: World, t: Traffic, cached: Option<Record>, checkpoint: nat)
    returns (next: Traffic, settled: World)
    requires Inv(k, w) && w.user == User(Some(t), cached) && Alive(w.user) && t.debit.None?
    requires t.refund.Some? && w.flight == Answered(true)
    ensures CommitRefund(t.quota, t.refund.value.amount).Ok?
    ensures next == t.(quota := CommitRefund(t.quota, t.refund.value.amount).value, refund := None, checkpointAt := checkpoint)
    ensures settled == w.(user := User(Some(next), Some(t.refund.value.record)), flight := Idle)
    ensures AtRest(k, settled, next, Some(t.refund.value.record)) && next.quota.credit == 0
  {
    next := t.(quota := CommitRefund(t.quota, t.refund.value.amount).value, refund := None, checkpointAt := checkpoint);
    settled := w.(user := User(Some(next), Some(t.refund.value.record)), flight := Idle);
  }

  lemma LeavesKeep(k: Level, w: World, cached: Option<Record>)
    requires w.user.traffic.Some? && AtRest(k, w, w.user.traffic.value, cached) && w.user.traffic.value.quota.credit == 0
    ensures Inv(k, w.(user := User(None, cached)))
  {
  }

  lemma ConfirmedRefundKeeps(k: Level, w: World, t: Traffic, cached: Option<Record>, e: Env)
    requires Inv(k, w) && w.user == User(Some(t), cached) && Alive(w.user) && t.debit.None?
    requires t.refund.Some? && e.refundReply.Done? && w.flight == Answered(true)
    ensures Inv(k, Land(w, SettleRefund(t, cached, e)))
  {
    var next, settled := RefundSettles(k, w, t, cached, e.now + e.interval);
    var record := Some(t.refund.value.record);
    if e.active {
      assert SettleRefund(t, cached, e) == Demand(next, record, e);
      DemandKeeps(k, settled, next, record, e);
      DemandForgetsFlight(settled, next, record, e, w.flight);
    } else {
      assert SettleRefund(t, cached, e) == Outcome(User(None, record), None, false);
      LeavesKeep(k, settled, record);
    }
  }

  lemma UnconfirmedRefundKeeps(k: Level, w: World, t: Traffic, cached: Option<Record>, e: Env)
    requires Inv(k, w) && w.user == User(Some(t), cached) && Alive(w.user) && t.debit.None?
    requires t.refund.Some? && Hears(w.flight, e.refundReply) && !e.refundReply.Done?
    ensures Inv(k, Land(w, SettleRefund(t, cached, e)))
  {
  }

  lemma SettleRefundKeeps(k: Level, w: World, t: Traffic, cached: Option<Record>, e: Env)
    requires Inv(k, w) && w.user == User(Some(t), cached) && Alive(w.user) && t.debit.None?
    requires t.refund.Some? ==> Hears(w.flight, e.refundReply)
    ensures Inv(k, Land(w, SettleRefund(t, cached, e)))
  {
    if t.refund.None? {
      DemandKeeps(k, w, t, cached, e);
    } else if e.refundReply.Done? {
      ConfirmedRefundKeeps(k, w, t, cached, e);
    } else {
      UnconfirmedRefundKeeps(k, w, t, cached, e);
    }
  }

  /** The account as the confirmed debit leaves it. */
  lemma DebitSettles(k: Level, w: World, t: Traffic, cached: Option<Record>) returns (next: Traffic, settled: World)
    requires Inv(k, w) && w.user == User(Some(t), cached) && Alive(w.user)
    requires t.debit.Some? && w.flight == Answered(true) && t.quota.charged + t.debit.value.amount <= U64_MAX
    ensures CommitCredit(t.quota, t.debit.value.amount).Ok?
    ensures next == t.(quota := CommitCredit(t.quota, t.debit.value.amount).value, debit := None)
    ensures settled == w.(user := User(Some(next), Some(t.debit.value.record)), flight := Idle)
    ensures AtRest(k, settled, next, Some(t.debit.value.record))
  {
    next := t.(quota := CommitCredit(t.quota, t.debit.value.amount).value, debit := None);
    settled := w.(user := User(Some(next), Some(t.debit.value.record)), flight := Idle);
  }

  lemma ConfirmedDebitKeeps(k: Level, w: World, t: Traffic, cached: Option<Record>, e: Env)
    requires Inv(k, w) && w.user == User(Some(t), cached) && Alive(w.user)
    requires t.debit.Some? && e.debitReply.Done? && w.flight == Answered(true)
    requires t.quota.charged + t.debit.value.amount <= U64_MAX
    ensures Inv(k, Land(w, Settle(t, cached, e)))
  {
    var next, settled := DebitSettles(k, w, t, cached);
    var record := Some(t.debit.value.record);
    assert Settle(t, cached, e) == SettleRefund(next, record, e) == Demand(next, record, e);
    DemandKeeps(k, settled, next, record, e);
    DemandForgetsFlight(settled, next, record, e, w.flight);
  }

  /** A failed user, or a debit that is unanswered, failed or refused by the account. */
  lemma UnsettledKeeps(k: Level, w: World, t: Traffic, cached: Option<Record>, e: Env)
    requires Inv(k, w) && w.user == User(Some(t), cached) && Enabled(w, Poll(e))
    requires t.failed || (t.debit.Some? && (e.debitReply.Done? ==> t.quota.charged + t.debit.value.amount > U64_MAX))
    ensures Inv(k, Land(w, Settle(t, cached, e)))
  {
  }

  lemma SettleKeeps(k: Level, w: World, t: Traffic, cached: Option<Record>, e: Env)
    requires Inv(k, w) && w.user == User(Some(t), cached) && Enabled(w, Poll(e))
    ensures Inv(k, Land(w, Settle(t, cached, e)))
  {
    if !t.failed && t.debit.None? {
      SettleRefundKeeps(k, w, t, cached, e);
    } else if !t.failed && e.debitReply.Done? && t.quota.charged + t.debit.value.amount <= U64_MAX {
      ConfirmedDebitKeeps(k, w, t, cached, e);
    } else {
      UnsettledKeeps(k, w, t, cached, e);
    }
  }

  /** A new entry opens the account on the cached record and asks for credit at once. */
  lemma NewEntryKeeps(k: Level, w: World, t: Traffic, e: Env)
    requires Inv(k, w) && w.user.traffic.None? && w.user.cached.Some? && e.active && e.interval > 0
    requires NewAccount(w.user.cached.value.limit, w.user.cached.value.charged, e.block) == Ok(t.quota)
    requires t == Traffic(t.quota, None, None, false, e.now + e.interval)
    ensures Inv(k, Land(w, Settle(t, w.user.cached, e)))
  {
    assert Settle(t, w.user.cached, e) == DemandCredit(t, w.user.cached, e);
  }

  lemma PollKeeps(k: Level, w: World, e: Env)
    requires Inv(k, w) && Enabled(w, Poll(e))
    ensures Inv(k, Land(w, Advance(w.user, e)))
  {
    if w.user.traffic.Some? {
      SettleKeeps(k, w, w.user.traffic.value, w.user.cached, e);
    } else if e.active && w.user.cached.Some? && e.ratesValid {
      match NewAccount(w.user.cached.value.limit, w.user.cached.value.charged, e.block)
      case Err(_) =>
      case Ok(quota) => NewEntryKeeps(k, w, Traffic(quota, None, None, false, e.now + e.interval), e);
    }
  }

  // ------------------------------------------------------------------ records read and collected later

  /** A record served keeps its promise until a quota write is confirmed. */
  ghost predicate LookupInv(k: Level, w: World, x: Read) {
    x.Served? ==>
      && x.record.limit == w.stored.limit
      && (Covers(k) ==> x.record.charged >= w.base)
      && (Limits(k) ==> Fits(w, x.record.charged))
      && (k.Agreement? && x.recent ==> Safe(w, x.record) && Current(w, x.record))
  }

  ghost predicate LookupsInv(k: Level, w: World) {
    forall id :: id in w.lookups ==> LookupInv(k, w, w.lookups[id])
  }

  ghost predicate AllInv(k: Level, w: World) {
    Inv(k, w) && LookupsInv(k, w)
  }

  /** Which records may be collected: any; safe ones; ones within the limit; those read since the last confirmation. */
  predicate Permits(k: Level, w: World, ev: Event)
    requires Enabled(w, ev)
  {
    ev.Collect? ==>
      && (k.Coverage? ==> Safe(w, w.lookups[ev.id].record))
      && (k.Limit? ==> Within(w, w.lookups[ev.id].record))
      && (k.Agreement? ==> w.lookups[ev.id].recent)
  }

  /** Without a confirmation to collect, a poll cannot put a good record out of date. */
  lemma RecordSurvivesPoll(w: World, e: Env, r: Record)
    requires Inv(Agreement, w) && Enabled(w, Poll(e)) && w.flight != Answered(true) && Safe(w, r) && Current(w, r)
    ensures var v := Land(w, Advance(w.user, e)); Safe(v, r) && Current(v, r)
  {
  }

  lemma PolledLookups(k: Level, w: World, e: Env)
    requires AllInv(k, w) && Enabled(w, Poll(e))
    ensures LookupsInv(k, Polled(w, e))
  {
    var v := Polled(w, e);
    forall id | id in v.lookups
      ensures LookupInv(k, v, v.lookups[id])
    {
      var x := w.lookups[id];
      assert LookupInv(k, w, x);
      if k.Agreement? && x.Served? && x.recent && w.flight != Answered(true) {
        RecordSurvivesPoll(w, e, x.record);
      }
    }
  }

  lemma SpendKeeps(k: Level, w: World, bytes: U64)
    requires Inv(k, w) && Enabled(w, Spend(bytes))
    ensures Inv(k, Spent(w, bytes))
  {
  }

  lemma SpendSpares(w: World, bytes: U64, r: Record)
    requires Inv(Agreement, w) && Enabled(w, Spend(bytes)) && Safe(w, r) && Current(w, r)
    ensures Safe(Spent(w, bytes), r) && Current(Spent(w, bytes), r)
  {
  }

  lemma SpentLookups(k: Level, w: World, bytes: U64)
    requires AllInv(k, w) && Enabled(w, Spend(bytes))
    ensures LookupsInv(k, Spent(w, bytes))
  {
    var v := Spent(w, bytes);
    forall id | id in v.lookups
      ensures LookupInv(k, v, v.lookups[id])
    {
      var x := w.lookups[id];
      assert LookupInv(k, w, x);
      if k.Agreement? && x.Served? && x.recent {
        SpendSpares(w, bytes, x.record);
      }
    }
  }

  lemma WriteKeeps(k: Level, w: World)
    requires AllInv(k, w) && Enabled(w, WorkerWrites)
    ensures AllInv(k, Apply(w, WorkerWrites))
  {
    var v := Apply(w, WorkerWrites);
    forall id | id in v.lookups
      ensures LookupInv(k, v, v.lookups[id])
    {
      assert LookupInv(k, w, w.lookups[id]);
    }
  }

  lemma FailureKeeps(k: Level, w: World, written: bool)
    requires AllInv(k, w) && Enabled(w, WorkerFails(written))
    ensures AllInv(k, Apply(w, WorkerFails(written)))
  {
    var v := Apply(w, WorkerFails(written));
    forall id | id in v.lookups
      ensures LookupInv(k, v, v.lookups[id])
    {
      assert LookupInv(k, w, w.lookups[id]);
    }
  }

  lemma SameLookup(k: Level, w: World, v: World, x: Read)
    requires LookupInv(k, w, x) && v == w.(user := v.user, lookups := v.lookups) && v.user == w.user.(cached := v.user.cached)
    ensures LookupInv(k, v, x)
  {
  }

  ghost predicate MayCache(k: Level, w: World, r: Record) {
    && r.limit == w.stored.limit
    && (Covers(k) ==> Safe(w, r))
    && (Limits(k) ==> Fits(w, r.charged) && Within(w, r))
    && (k.Agreement? ==> Current(w, r))
  }

  lemma CachedKeeps(k: Level, w: World, cached: Option<Record>)
    requires Inv(k, w)
    requires cached.Some? ==> MayCache(k, w, cached.value)
    ensures Inv(k, Cache(w, cached))
  {
  }

  /** What is cached or looked up has no part in the invariants of the rest. */
  lemma CacheKeeps(k: Level, w: World, cached: Option<Record>, lookups: map<ReadId, Read>)
    requires Inv(k, w)
    requires cached.Some? ==> MayCache(k, w, cached.value)
    requires forall id :: id in lookups ==> LookupInv(k, w, lookups[id])
    ensures AllInv(k, Cache(w, cached).(lookups := lookups))
  {
    var v := Cache(w, cached).(lookups := lookups);
    CachedKeeps(k, w, cached);
    LookupsApart(k, Cache(w, cached), v);
    forall id | id in v.lookups
      ensures LookupInv(k, v, v.lookups[id])
    {
      SameLookup(k, w, v, lookups[id]);
    }
  }

  lemma ReadKeeps(k: Level, w: World, ev: Event)
    requires AllInv(k, w) && Enabled(w, ev) && Permits(k, w, ev)
    requires ev.Ask? || ev.Serve? || ev.Collect? || ev.Evict?
    ensures AllInv(k, Apply(w, ev))
  {
    match ev
    case Ask(id) =>
      CacheKeeps(k, w, w.user.cached, w.lookups[id := Asked]);
    case Serve(id) =>
      assert LookupInv(k, w, Served(w.stored, true));
      CacheKeeps(k, w, w.user.cached, w.lookups[id := Served(w.stored, true)]);
    case Collect(id) =>
      assert LookupInv(k, w, w.lookups[id]);
      CacheKeeps(k, w, Some(w.lookups[id].record), w.lookups - {id});
    case Evict =>
      CacheKeeps(k, w, None, w.lookups);
  }

  lemma CrashKeeps(k: Level, w: World, written: bool)
    requires AllInv(k, w)
    ensures AllInv(k, Apply(w, Crash(written)))
  {
  }

  lemma StepKeeps(k: Level, w: World, ev: Event)
    requires AllInv(k, w) && Enabled(w, ev) && Permits(k, w, ev)
    ensures AllInv(k, Apply(w, ev)) && Apply(w, ev).base == w.base
  {
    match ev
    case Poll(env) =>
      PollKeeps(k, w, env);
      PolledLookups(k, w, env);
      LookupsApart(k, Land(w, Advance(w.user, env)), Polled(w, env));
    case Spend(bytes) =>
      SpendKeeps(k, w, bytes);
      SpentLookups(k, w, bytes);
    case WorkerWrites => WriteKeeps(k, w);
    case WorkerFails(written) => FailureKeeps(k, w, written);
    case Crash(written) => CrashKeeps(k, w, written);
    case _ => ReadKeeps(k, w, ev);
  }

  lemma LookupsApart(k: Level, w: World, v: World)
    requires Inv(k, w) && v == w.(lookups := v.lookups)
    ensures Inv(k, v)
  {
  }

  predicate PermitsAll(k: Level, w: World, events: seq<Event>)
    requires Feasible(w, events)
    decreases |events|
  {
    events == [] || (Permits(k, w, events[0]) && PermitsAll(k, Apply(w, events[0]), events[1..]))
  }

  lemma {:induction false} RunKeeps(k: Level, w: World, events: seq<Event>)
    requires AllInv(k, w) && Feasible(w, events) && PermitsAll(k, w, events)
    ensures AllInv(k, Run(w, events)) && Run(w, events).base == w.base
    decreases |events|
  {
    if events != [] {
      StepKeeps(k, w, events[0]);
      RunKeeps(k, Apply(w, events[0]), events[1..]);
    }
  }

  // ------------------------------------------------------------------ main results

  lemma InitialHolds(w: World, k: Level)
    requires Initial(w)
    ensures AllInv(k, w)
  {
  }

  /** Every record collected was read after the last confirmation of a quota write. */
  predicate OnlyRecent(w: World, events: seq<Event>)
    requires Feasible(w, events)
  {
    PermitsAll(Agreement, w, events)
  }

  /**
   * Crash safety: in every run that collects recent records only, the stored charge covers the initial
   * charge and every byte charged since, and stays within the limit (or the initial charge, when that
   * was already above it).
   */
  lemma CrashSafe(w: World, events: seq<Event>)
    requires Initial(w) && Feasible(w, events) && OnlyRecent(w, events)
    ensures var end := Run(w, events);
            && w.stored.charged + end.total <= end.stored.charged
            && (end.stored.limit.Some? ==> end.stored.charged <= Max(end.stored.limit.value, w.stored.charged))
  {
    InitialHolds(w, Agreement);
    RunKeeps(Agreement, w, events);
  }

  /** Nothing charged is lost in any run that collects safe records only, old or new. */
  lemma SafeRecordsCover(w: World, events: seq<Event>)
    requires Initial(w) && Feasible(w, events) && PermitsAll(Coverage, w, events)
    ensures w.stored.charged + Run(w, events).total <= Run(w, events).stored.charged
  {
    InitialHolds(w, Coverage);
    RunKeeps(Coverage, w, events);
  }

  /**
   * A write the worker confirmed is accepted by the account, because nothing was spent meanwhile: a
   * refund always, a debit if and only if the account's charge does not leave 64 bits, whatever records
   * were collected.
   */
  lemma ConfirmedWriteAcceptedIff(w: World, events: seq<Event>)
    requires Initial(w) && Feasible(w, events)
    requires Run(w, events).flight == Answered(true)
    ensures var t := Run(w, events).user.traffic;
            && t.Some?
            && (t.value.debit.Some? ==> (CommitCredit(t.value.quota, t.value.debit.value.amount).Ok?
                                         <==> t.value.quota.charged + t.value.debit.value.amount <= U64_MAX))
            && (t.value.debit.Some? && t.value.quota.limit.Some? ==>
                  CommitCredit(t.value.quota, t.value.debit.value.amount).Ok?)
            && (t.value.refund.Some? ==> CommitRefund(t.value.quota, t.value.refund.value.amount).Ok?)
  {
    InitialHolds(w, Accounts);
    AnyPermitted(w, events);
    RunKeeps(Accounts, w, events);
  }

  lemma {:induction false} AnyPermitted(w: World, events: seq<Event>)
    requires Feasible(w, events)
    ensures PermitsAll(Accounts, w, events)
    decreases |events|
  {
    if events != [] {
      AnyPermitted(Apply(w, events[0]), events[1..]);
    }
  }

  /** With recent records only, a confirmed write is always accepted. */
  lemma ConfirmedWriteAccepted(w: World, events: seq<Event>)
    requires Initial(w) && Feasible(w, events) && OnlyRecent(w, events)
    requires Run(w, events).flight == Answered(true)
    ensures var t := Run(w, events).user.traffic;
            && t.Some?
            && (t.value.debit.Some? ==> CommitCredit(t.value.quota, t.value.debit.value.amount).Ok?)
            && (t.value.refund.Some? ==> CommitRefund(t.value.quota, t.value.refund.value.amount).Ok?)
  {
    InitialHolds(w, Agreement);
    RunKeeps(Agreement, w, events);
  }

  /** Without failures or crashes an idle user is stored with exactly the bytes charged to it. */
  lemma CleanRunIsExact(w: World, events: seq<Event>)
    requires Initial(w) && Feasible(w, events) && OnlyRecent(w, events)
    requires Run(w, events).clean && Run(w, events).user.traffic.None?
    ensures Run(w, events).stored.charged == w.stored.charged + Run(w, events).total
  {
    InitialHolds(w, Agreement);
    RunKeeps(Agreement, w, events);
  }

  // ------------------------------------------------------------------ exactly which records may be collected

  predicate Covered(w: World) {
    w.base + w.total <= w.stored.charged
  }

  /** However it goes on, with safe records collected from here, the stored charge never falls short. */
  ghost predicate StaysCovered(w: World) {
    forall events :: Feasible(w, events) && PermitsAll(Coverage, w, events) ==> Covered(Run(w, events))
  }

  /** A record that is safe to collect keeps the charge covered in every continuation. */
  lemma SafeStaysCovered(w: World, id: ReadId)
    requires AllInv(Coverage, w) && Enabled(w, Collect(id)) && Safe(w, w.lookups[id].record)
    ensures StaysCovered(Apply(w, Collect(id)))
  {
    var v := Apply(w, Collect(id));
    StepKeeps(Coverage, w, Collect(id));
    forall events | Feasible(v, events) && PermitsAll(Coverage, v, events)
      ensures Covered(Run(v, events))
    {
      RunKeeps(Coverage, v, events);
    }
  }

  /** A quiet poll: replies as the channels have them, everything else granted. */
  function Quiet(w: World, active: bool): Env {
    var reply := match w.flight case Answered(ok) => (if ok then Done else Failed) case _ => Empty;
    Env(active, 0, 1, 1, true, reply, reply, true, true)
  }

  lemma Extended(k: Level, w: World, ev: Event, rest: seq<Event>)
    requires Enabled(w, ev) && !ev.Collect? && Feasible(Apply(w, ev), rest) && PermitsAll(k, Apply(w, ev), rest)
    ensures Feasible(w, [ev] + rest) && PermitsAll(k, w, [ev] + rest) && Run(w, [ev] + rest) == Run(Apply(w, ev), rest)
  {
    assert ([ev] + rest)[1..] == rest;
  }

  lemma {:induction false} Chained(w: World, first: seq<Event>, second: seq<Event>)
    requires Feasible(w, first) && PermitsAll(Coverage, w, first)
    requires Feasible(Run(w, first), second) && PermitsAll(Coverage, Run(w, first), second)
    ensures Feasible(w, first + second) && PermitsAll(Coverage, w, first + second)
    ensures Run(w, first + second) == Run(Run(w, first), second)
    decreases |first|
  {
    if first == [] {
      assert first + second == second;
    } else {
      assert (first + second)[1..] == first[1..] + second;
      Chained(Apply(w, first[0]), first[1..], second);
    }
  }

  /** A user without an entry whose cached record is short of the bytes charged. */
  ghost predicate Short(w: World) {
    && w.user.traffic.None? && w.flight.Idle? && w.user.cached.Some?
    && w.user.cached.value.charged < w.base + w.total
    && w.user.cached.value.charged < U64_MAX
    && (w.user.cached.value.limit.Some? ==> w.user.cached.value.charged < w.user.cached.value.limit.value)
  }

  /** Such a user buys one byte of credit on the short record and spends it. */
  lemma ShortBreaks(w: World) returns (events: seq<Event>)
    requires Short(w)
    ensures Feasible(w, events) && PermitsAll(Coverage, w, events)
    ensures !Covered(Run(w, events)) && Run(w, events).clean == w.clean
  {
    var e1, e3 := Quiet(w, true), Quiet(w.(flight := Answered(true)), true);
    var w1 := Apply(w, Poll(e1));
    var record := w.user.cached.value;
    var bought := record.(charged := record.charged + 1);
    assert w1.flight == Queued(bought);
    var w2 := Apply(w1, WorkerWrites);
    var w3 := Apply(w2, Poll(e3));
    assert Resting(w3.user) && w3.user.traffic.value.quota.credit == 1;
    var w4 := Apply(w3, Spend(1));
    assert w4.stored == bought && w4.total == w.total + 1;
    Extended(Coverage, w3, Spend(1), []);
    Extended(Coverage, w2, Poll(e3), [Spend(1)] + []);
    Extended(Coverage, w1, WorkerWrites, [Poll(e3)] + ([Spend(1)] + []));
    Extended(Coverage, w, Poll(e1), [WorkerWrites] + ([Poll(e3)] + ([Spend(1)] + [])));
    events := [Poll(e1)] + ([WorkerWrites] + ([Poll(e3)] + ([Spend(1)] + [])));
  }

  /** The user's entry is gone, with its spare credit spent and the cached record as it was. */
  predicate Left(w: World, v: World) {
    && v.user == User(None, w.user.cached) && v.flight.Idle?
    && v.base == w.base && v.total == w.total + Spare(w.user)
  }

  lemma FailedLeaves(w: World) returns (events: seq<Event>)
    requires AccountInv(w) && w.user.traffic.Some? && w.user.traffic.value.failed
    ensures Feasible(w, events) && PermitsAll(Coverage, w, events) && Left(w, Run(w, events)) && Run(w, events).clean == w.clean
  {
    events := [Poll(Quiet(w, false))] + [];
    Extended(Coverage, w, Poll(Quiet(w, false)), []);
  }

  lemma RestingLeaves(w: World) returns (events: seq<Event>)
    requires AccountInv(w) && Resting(w.user)
    ensures Feasible(w, events) && PermitsAll(Coverage, w, events) && Left(w, Run(w, events)) && Run(w, events).clean == w.clean
  {
    var credit := w.user.traffic.value.quota.credit;
    var w1 := Apply(w, Spend(credit));
    assert w1.user.traffic.value.quota.credit == 0;
    Extended(Coverage, w1, Poll(Quiet(w1, false)), []);
    Extended(Coverage, w, Spend(credit), [Poll(Quiet(w1, false))] + []);
    events := [Spend(credit)] + ([Poll(Quiet(w1, false))] + []);
  }

  lemma RefusedLeaves(w: World) returns (events: seq<Event>)
    requires AccountInv(w) && w.flight == Answered(false)
    ensures Feasible(w, events) && PermitsAll(Coverage, w, events) && Left(w, Run(w, events))
  {
    var e := Quiet(w, false);
    var w1 := Apply(w, Poll(e));
    assert w1.user.traffic.value.failed && AccountInv(w1);
    var rest := FailedLeaves(w1);
    Extended(Coverage, w, Poll(e), rest);
    events := [Poll(e)] + rest;
  }

  /** Whatever a user is in the middle of, unless a write has been confirmed, it can lose its entry. */
  lemma Leaves(w: World) returns (events: seq<Event>)
    requires AccountInv(w) && w.flight != Answered(true)
    ensures Feasible(w, events) && PermitsAll(Coverage, w, events) && Left(w, Run(w, events))
    ensures w.flight.Idle? ==> Run(w, events).clean == w.clean
  {
    if w.user.traffic.None? {
      events := [];
    } else if w.user.traffic.value.failed {
      events := FailedLeaves(w);
    } else if Resting(w.user) {
      events := RestingLeaves(w);
    } else if w.flight.Queued? {
      var w1 := Apply(w, WorkerFails(false));
      assert AccountInv(w1);
      var rest := RefusedLeaves(w1);
      Extended(Coverage, w, WorkerFails(false), rest);
      events := [WorkerFails(false)] + rest;
    } else {
      events := RefusedLeaves(w);
    }
  }

  /** A record that is not safe is short of the limit too, because everything stored so far was within it. */
  lemma UnsafeIsLow(w: World, r: Record)
    requires Inv(Agreement, w) && LookupInv(Coverage, w, Served(r, false)) && !Safe(w, r)
    ensures w.flight != Answered(true) && r.charged < Floor(w) <= w.stored.charged
    ensures r.limit.Some? ==> r.charged < r.limit.value
  {
  }

  lemma UnsafeBreaks(w: World, id: ReadId) returns (events: seq<Event>)
    requires AllInv(Agreement, w) && Enabled(w, Collect(id)) && !Safe(w, w.lookups[id].record)
    ensures var v := Apply(w, Collect(id));
            && Feasible(v, events) && PermitsAll(Coverage, v, events) && !Covered(Run(v, events))
            && (w.flight.Idle? ==> Run(v, events).clean == w.clean)
  {
    var r, v := w.lookups[id].record, Apply(w, Collect(id));
    assert LookupInv(Agreement, w, w.lookups[id]);
    UnsafeIsLow(w, r);
    var leaving := Leaves(v);
    var breaking := ShortBreaks(Run(v, leaving));
    Chained(v, leaving, breaking);
    events := leaving + breaking;
  }

  /**
   * Exactly which record may be collected.  After any run that collected recent records only, putting a
   * record that was read before into the cache keeps the charge covered in every continuation if and
   * only if the record covers what has been charged and the spare credit, or a confirmed write is about
   * to replace it; for a user with nothing in flight, if and only if it covers both.
   */
  lemma CollectIsSafeIff(start: World, before: seq<Event>, id: ReadId)
    requires Initial(start) && Feasible(start, before) && OnlyRecent(start, before)
    requires Enabled(Run(start, before), Collect(id))
    ensures var w := Run(start, before);
            var r := w.lookups[id].record;
            && (StaysCovered(Apply(w, Collect(id))) <==> Safe(w, r))
            && (Resting(w.user) ==> (Safe(w, r) <==> r.charged >= w.base + w.total + w.user.traffic.value.quota.credit))
  {
    InitialHolds(start, Agreement);
    RunKeeps(Agreement, start, before);
    var w := Run(start, before);
    if Safe(w, w.lookups[id].record) {
      LowerLevel(w);
      SafeStaysCovered(w, id);
    } else {
      var events := UnsafeBreaks(w, id);
      assert !Covered(Run(Apply(w, Collect(id)), events));
    }
  }

  lemma LowerLevel(w: World)
    requires AllInv(Agreement, w)
    ensures AllInv(Coverage, w)
  {
    forall id | id in w.lookups
      ensures LookupInv(Coverage, w, w.lookups[id])
    {
      assert LookupInv(Agreement, w, w.lookups[id]);
    }
  }

  /** The operational half: a record read since the last confirmation of a quota write is safe and within the limit. */
  lemma RecentIsSafe(start: World, before: seq<Event>, id: ReadId)
    requires Initial(start) && Feasible(start, before) && OnlyRecent(start, before)
    requires Enabled(Run(start, before), Collect(id)) && Run(start, before).lookups[id].recent
    ensures var w := Run(start, before); Safe(w, w.lookups[id].record) && Within(w, w.lookups[id].record)
  {
    InitialHolds(start, Agreement);
    RunKeeps(Agreement, start, before);
    assert LookupInv(Agreement, Run(start, before), Run(start, before).lookups[id]);
  }

  // ------------------------------------------------------------------ exactly which records keep the limit

  /** However it goes on, with records within the limit collected from here, the limit is never passed. */
  ghost predicate StaysLimited(w: World) {
    forall events :: Feasible(w, events) && PermitsAll(Limit, w, events) ==> Fits(Run(w, events), Run(w, events).stored.charged)
  }

  lemma WithinStaysLimited(w: World, id: ReadId)
    requires AllInv(Limit, w) && Enabled(w, Collect(id)) && Within(w, w.lookups[id].record)
    ensures StaysLimited(Apply(w, Collect(id)))
  {
    var v := Apply(w, Collect(id));
    StepKeeps(Limit, w, Collect(id));
    forall events | Feasible(v, events) && PermitsAll(Limit, v, events)
      ensures Fits(Run(v, events), Run(v, events).stored.charged)
    {
      RunKeeps(Limit, v, events);
    }
  }

  /** The cached record is ahead of an account below its limit that has no credit left. */
  ghost predicate Ahead(w: World) {
    && AccountInv(w) && Resting(w.user) && w.user.cached.Some? && w.stored.limit.Some?
    && var q := w.user.traffic.value.quota;
    && var l := w.stored.limit.value;
    && q.credit == 0 && q.charged < l
    && q.charged < w.user.cached.value.charged <= U64_MAX - (l - q.charged)
  }

  /** The user buys another block on the record that is ahead, and the record is stored. */
  lemma BuysBlock(w: World) returns (v: World, amount: U64)
    requires Ahead(w) && w.user.traffic.value.checkpointAt > 0
    ensures Enabled(w, Poll(Quiet(w, true))) && Enabled(Apply(w, Poll(Quiet(w, true))), WorkerWrites)
    ensures v == Apply(Apply(w, Poll(Quiet(w, true))), WorkerWrites)
    ensures 0 < amount <= w.stored.limit.value - w.user.traffic.value.quota.charged
    ensures v.stored == w.user.cached.value.(charged := w.user.cached.value.charged + amount) && v.base == w.base
    ensures v.flight == Answered(true) && AccountInv(v)
    ensures var t := w.user.traffic.value;
            v.user == w.user.(traffic := Some(t.(quota := t.quota.(debitPending := true), debit := Some(Pending(amount, v.stored)))))
  {
    var w1 := Apply(w, Poll(Quiet(w, true)));
    amount := w1.user.traffic.value.debit.value.amount;
    v := Apply(w1, WorkerWrites);
  }

  /** While the limit is not passed, the block is confirmed and spent, and the record is still ahead. */
  lemma SpendsBlock(w: World, v: World, amount: U64) returns (v1: World, v2: World)
    requires Ahead(w) && w.user.traffic.value.checkpointAt > 0
    requires 0 < amount <= w.stored.limit.value - w.user.traffic.value.quota.charged
    requires v.stored == w.user.cached.value.(charged := w.user.cached.value.charged + amount) && v.base == w.base
    requires v.flight == Answered(true) && AccountInv(v) && v.stored.charged <= w.stored.limit.value
    requires var t := w.user.traffic.value;
             v.user == w.user.(traffic := Some(t.(quota := t.quota.(debitPending := true), debit := Some(Pending(amount, v.stored)))))
    ensures Enabled(v, Poll(Quiet(v, true))) && v1 == Apply(v, Poll(Quiet(v, true)))
    ensures Enabled(v1, Spend(amount)) && v2 == Apply(v1, Spend(amount))
    ensures Ahead(v2) && v2.user.traffic.value.checkpointAt > 0 && v2.base == w.base && v2.stored.limit == w.stored.limit
    ensures v2.user.traffic.value.quota.charged == w.user.traffic.value.quota.charged + amount
  {
    v1 := Apply(v, Poll(Quiet(v, true)));
    assert Resting(v1.user) && v1.user.traffic.value.quota.credit == amount && v1.user.cached == Some(v.stored);
    v2 := Apply(v1, Spend(amount));
  }

  /** Block after block the account reaches its limit, and the record goes past it. */
  lemma {:induction false} AheadPasses(w: World) returns (events: seq<Event>)
    requires Ahead(w) && w.user.traffic.value.checkpointAt > 0
    ensures Feasible(w, events) && PermitsAll(Limit, w, events)
    ensures var end := Run(w, events);
            end.stored.limit == w.stored.limit && end.base == w.base && end.stored.charged > w.stored.limit.value
    decreases w.stored.limit.value - w.user.traffic.value.quota.charged
  {
    var v, amount := BuysBlock(w);
    var e := Quiet(w, true);
    events := [];
    if v.stored.charged <= w.stored.limit.value {
      var v1, v2 := SpendsBlock(w, v, amount);
      var rest := AheadPasses(v2);
      Extended(Limit, v1, Spend(amount), rest);
      Extended(Limit, v, Poll(Quiet(v, true)), [Spend(amount)] + rest);
      events := [Poll(Quiet(v, true))] + ([Spend(amount)] + rest);
    }
    Extended(Limit, Apply(w, Poll(e)), WorkerWrites, events);
    Extended(Limit, w, Poll(e), [WorkerWrites] + events);
    events := [Poll(e)] + ([WorkerWrites] + events);
  }

  /** The spare credit is spent, and a checkpoint moved ahead. */
  lemma GetsAhead(w: World) returns (e: Env, v: World)
    requires AccountInv(w) && Resting(w.user) && w.user.traffic.value.quota.credit == 0
    ensures Enabled(w, Poll(e)) && v == Apply(w, Poll(e)) && AccountInv(v)
    ensures v == w.(user := w.user.(traffic := v.user.traffic), lookups := v.lookups) && Resting(v.user)
    ensures v.user.traffic.value.quota == w.user.traffic.value.quota && v.user.traffic.value.checkpointAt > 0
  {
    e := Quiet(w, true).(now := w.user.traffic.value.checkpointAt);
    v := Apply(w, Poll(e));
  }

  lemma BeyondPasses(w: World) returns (events: seq<Event>)
    requires AccountInv(w) && Resting(w.user) && Ahead(Apply(w, Spend(w.user.traffic.value.quota.credit)))
    ensures Feasible(w, events) && PermitsAll(Limit, w, events)
    ensures var end := Run(w, events);
            end.stored.limit == w.stored.limit && end.base == w.base && end.stored.charged > w.stored.limit.value
  {
    var credit := w.user.traffic.value.quota.credit;
    var w1 := Apply(w, Spend(credit));
    var e, w2 := GetsAhead(w1);
    var rest := AheadPasses(w2);
    Extended(Limit, w1, Poll(e), rest);
    Extended(Limit, w, Spend(credit), [Poll(e)] + rest);
    events := [Spend(credit)] + ([Poll(e)] + rest);
  }

  /**
   * Exactly which record keeps the limit.  After any run that collected records within the limit, putting
   * an older one into the cache keeps the stored charge within it in every continuation if it is not ahead
   * of a resting account that can still buy; and only if, as long as 64 bits hold what would be stored.
   */
  lemma CollectKeepsLimitIff(start: World, before: seq<Event>, id: ReadId)
    requires Initial(start) && start.stored.limit.Some? && start.stored.charged <= start.stored.limit.value
    requires Feasible(start, before) && PermitsAll(Limit, start, before)
    requires Enabled(Run(start, before), Collect(id))
    ensures var w := Run(start, before);
            var r := w.lookups[id].record;
            && (Within(w, r) ==> StaysLimited(Apply(w, Collect(id))))
            && (StaysLimited(Apply(w, Collect(id))) ==>
                  || Within(w, r)
                  || r.charged + start.stored.limit.value - w.user.traffic.value.quota.charged > U64_MAX)
  {
    InitialHolds(start, Limit);
    RunKeeps(Limit, start, before);
    KeepsLimit(start, before);
    var w := Run(start, before);
    var r, v := w.lookups[id].record, Apply(w, Collect(id));
    assert LookupInv(Limit, w, w.lookups[id]);
    if Within(w, r) {
      WithinStaysLimited(w, id);
    } else if r.charged + start.stored.limit.value - w.user.traffic.value.quota.charged <= U64_MAX {
      var events := BeyondPasses(v);
      assert !Fits(Run(v, events), Run(v, events).stored.charged);
    }
  }

  /** The limit is kept in any run that collects records within it only, old or new. */
  lemma WithinRecordsKeepLimit(w: World, events: seq<Event>)
    requires Initial(w) && Feasible(w, events) && PermitsAll(Limit, w, events)
    ensures w.stored.limit.Some? ==> Run(w, events).stored.charged <= Max(w.stored.limit.value, w.stored.charged)
  {
    InitialHolds(w, Limit);
    RunKeeps(Limit, w, events);
    KeepsLimit(w, events);
  }

  lemma {:induction false} KeepsLimit(w: World, events: seq<Event>)
    requires AllInv(Limit, w) && Feasible(w, events) && PermitsAll(Limit, w, events)
    ensures Run(w, events).stored.limit == w.stored.limit
    decreases |events|
  {
    if events != [] {
      StepKeeps(Limit, w, events[0]);
      KeepsLimit(Apply(w, events[0]), events[1..]);
    }
  }

  // ------------------------------------------------------------------ a record collected too late

  lemma {:induction false} Joined(w: World, first: seq<Event>, second: seq<Event>)
    requires Feasible(w, first) && Feasible(Run(w, first), second)
    ensures Feasible(w, first + second) && Run(w, first + second) == Run(Run(w, first), second)
    decreases |first|
  {
    if first == [] {
      assert first + second == second;
    } else {
      assert (first + second)[1..] == first[1..] + second;
      Joined(Apply(w, first[0]), first[1..], second);
    }
  }

  /** The run goes on by one event. */
  lemma Then(start: World, before: seq<Event>, w: World, ev: Event) returns (events: seq<Event>, v: World)
    requires Feasible(start, before) && Run(start, before) == w && Enabled(w, ev)
    ensures v == Apply(w, ev) && Feasible(start, events) && Run(start, events) == v
  {
    v := Apply(w, ev);
    assert [ev][1..] == [];
    Joined(start, before, [ev]);
    events := before + [ev];
  }

  /** A user stored with charge `c`. */
  function NewUser(c: U64, limit: Option<U64>): World {
    World(User(None, None), Idle, Record(limit, c), c, 0, true, map[])
  }

  function Active(reply: Reply): Env {
    Env(true, 0, 1, 100, true, reply, reply, true, true)
  }

  function Gone(reply: Reply): Env {
    Active(reply).(active := false)
  }

  /** 100 bytes of credit in hand, with this charge stored and that record cached. */
  function Bought(c: U64, limit: Option<U64>, base: nat, cached: U64, lookups: map<ReadId, Read>): World {
    World(User(Some(Traffic(Account(limit, c, 100, 100, false, false), None, None, false, 1)), Some(Record(limit, cached))), Idle,
          Record(limit, c), base, 0, true, lookups)
  }

  /** The record is read and cached, and the first debit queued. */
  lemma FirstDebit(c: U64, limit: Option<U64>) returns (events: seq<Event>, v: World)
    requires c + 100 <= (if limit.Some? then limit.value else U64_MAX)
    ensures Feasible(NewUser(c, limit), events) && v == Run(NewUser(c, limit), events)
    ensures var record := Record(limit, c + 100);
            v == World(User(Some(Traffic(Account(limit, c, 0, 100, true, false), Some(Pending(100, record)), None, false, 1)),
                            Some(Record(limit, c))), Queued(record), Record(limit, c), c, 0, true, map[])
  {
    var w := NewUser(c, limit);
    events, v := Then(w, [], w, Ask(0));
    events, v := Then(w, events, v, Serve(0));
    events, v := Then(w, events, v, Collect(0));
    assert v.lookups == map[] && v.user == User(None, Some(Record(limit, c)));
    events, v := Then(w, events, v, Poll(Active(Empty)));
  }

  /** The record is read while the debit is queued, and again after it has been stored. */
  lemma ReadTwice(c: U64, limit: Option<U64>) returns (events: seq<Event>, v: World)
    requires c + 100 <= (if limit.Some? then limit.value else U64_MAX)
    ensures Feasible(NewUser(c, limit), events) && v == Run(NewUser(c, limit), events)
    ensures var record := Record(limit, c + 100);
            v == World(User(Some(Traffic(Account(limit, c, 0, 100, true, false), Some(Pending(100, record)), None, false, 1)),
                            Some(Record(limit, c))), Answered(true), record, c, 0, true,
                       map[0 := Served(Record(limit, c), true), 1 := Served(record, true)])
  {
    var w := NewUser(c, limit);
    events, v := FirstDebit(c, limit);
    events, v := Then(w, events, v, Ask(0));
    events, v := Then(w, events, v, Serve(0));
    events, v := Then(w, events, v, WorkerWrites);
    events, v := Then(w, events, v, Ask(1));
    events, v := Then(w, events, v, Serve(1));
    assert v.lookups == map[0 := Served(Record(limit, c), true), 1 := Served(Record(limit, c + 100), true)];
  }

  /** The first record read is collected after the debit has been confirmed. */
  lemma StaleCached(c: U64, limit: Option<U64>) returns (events: seq<Event>, v: World)
    requires c + 100 <= (if limit.Some? then limit.value else U64_MAX)
    ensures Feasible(NewUser(c, limit), events) && v == Run(NewUser(c, limit), events)
    ensures v == Bought(c + 100, limit, c, c, map[1 := Served(Record(limit, c + 100), false)])
  {
    var w := NewUser(c, limit);
    events, v := ReadTwice(c, limit);
    events, v := Then(w, events, v, Poll(Active(Done)));
    assert v.lookups == map[0 := Served(Record(limit, c), false), 1 := Served(Record(limit, c + 100), false)];
    events, v := Then(w, events, v, Collect(0));
    assert v.lookups == map[1 := Served(Record(limit, c + 100), false)];
  }

  /**
   * A record read before a debit and cached after it: 40 of 100 bytes are spent, the other 60 refunded on
   * the old record, and the store ends 100 bytes short without any failure.
   */
  lemma StaleRecordLosesCharge() returns (events: seq<Event>)
    ensures Feasible(NewUser(1000, None), events)
    ensures var v := Run(NewUser(1000, None), events); v.clean && v.stored.charged == 940 && v.base + v.total == 1040
  {
    var start := NewUser(1000, None);
    var v;
    events, v := StaleCached(1000, None);
    events, v := Then(start, events, v, Spend(40));
    events, v := Then(start, events, v, Poll(Gone(Empty)));
    assert v.flight == Queued(Record(None, 940));
    events, v := Then(start, events, v, WorkerWrites);
  }

  /** At the end of the 64-bit range a late record makes the account refuse a write that was confirmed. */
  lemma StaleRecordRefusesWrite() returns (events: seq<Event>)
    ensures Feasible(NewUser(U64_MAX - 150, None), events)
    ensures var v := Run(NewUser(U64_MAX - 150, None), events);
            && v.flight == Answered(true) && v.user.traffic.Some? && v.user.traffic.value.debit.Some?
            && CommitCredit(v.user.traffic.value.quota, v.user.traffic.value.debit.value.amount).Err?
  {
    var c := U64_MAX - 150;
    var start := NewUser(c, None);
    var v;
    events, v := StaleCached(c, None);
    events, v := Then(start, events, v, Spend(100));
    events, v := Then(start, events, v, Poll(Active(Empty)));
    assert v.flight == Queued(Record(None, c + 100));
    events, v := Then(start, events, v, WorkerWrites);
  }

  /** The user leaves and gets its credit refunded on the old record. */
  lemma Departs(limit: U64) returns (events: seq<Event>, v: World)
    requires limit >= 1100
    ensures Feasible(NewUser(1000, Some(limit)), events) && v == Run(NewUser(1000, Some(limit)), events)
    ensures var record := Record(Some(limit), 900);
            v == World(User(None, Some(record)), Idle, record, 1000, 0, true, map[1 := Served(Record(Some(limit), 1100), false)])
  {
    var start := NewUser(1000, Some(limit));
    events, v := StaleCached(1000, Some(limit));
    events, v := Then(start, events, v, Poll(Gone(Empty)));
    assert v.flight == Queued(Record(Some(limit), 900));
    events, v := Then(start, events, v, WorkerWrites);
    events, v := Then(start, events, v, Poll(Gone(Done)));
    assert v.lookups == map[1 := Served(Record(Some(limit), 1100), false)];
  }

  /** It comes back, and the other record is still to be collected. */
  lemma Returns(limit: U64) returns (events: seq<Event>, v: World)
    requires limit >= 1100
    ensures Feasible(NewUser(1000, Some(limit)), events) && v == Run(NewUser(1000, Some(limit)), events)
    ensures v == Bought(1000, Some(limit), 1000, 1000, map[1 := Served(Record(Some(limit), 1100), false)])
  {
    var start := NewUser(1000, Some(limit));
    events, v := Departs(limit);
    events, v := Then(start, events, v, Poll(Active(Empty)));
    assert v.flight == Queued(Record(Some(limit), 1000));
    events, v := Then(start, events, v, WorkerWrites);
    events, v := Then(start, events, v, Poll(Active(Done)));
    assert v.lookups == map[1 := Served(Record(Some(limit), 1100), false)];
  }

  /** The late record is cached ahead of the account, and the credit in hand spent. */
  lemma GoesAhead(limit: U64) returns (events: seq<Event>, v: World)
    requires limit >= 1100
    ensures Feasible(NewUser(1000, Some(limit)), events) && v == Run(NewUser(1000, Some(limit)), events)
    ensures v == World(User(Some(Traffic(Account(Some(limit), 1000, 0, 100, false, false), None, None, false, 1)),
                            Some(Record(Some(limit), 1100))), Idle, Record(Some(limit), 1000), 1000, 100, true, map[])
  {
    var start := NewUser(1000, Some(limit));
    events, v := Returns(limit);
    events, v := Then(start, events, v, Collect(1));
    assert v.lookups == map[];
    events, v := Then(start, events, v, Spend(100));
  }

  /** Two late records, the second ahead of the account: 1200 bytes are stored under a limit of 1150. */
  lemma StaleRecordPassesLimit() returns (events: seq<Event>)
    ensures Feasible(NewUser(1000, Some(1150)), events)
    ensures var v := Run(NewUser(1000, Some(1150)), events); v.clean && v.stored == Record(Some(1150), 1200)
  {
    var start := NewUser(1000, Some(1150));
    var v;
    events, v := GoesAhead(1150);
    events, v := Then(start, events, v, Poll(Active(Empty)));
    assert v.flight == Queued(Record(Some(1150), 1200));
    events, v := Then(start, events, v, WorkerWrites);
  }

  // ------------------------------------------------------------------ graceful shutdown

  /** Polls still needed: debit or idle 3, refund 2, failed 1, gone 0. */
  function Rank(u: User): nat {
    if u.traffic.None? then 0
    else if u.traffic.value.failed then 1
    else if u.traffic.value.debit.None? && u.traffic.value.refund.Some? then 2
    else 3
  }

  /** A shutdown poll: no flows are left, and any outstanding write has been answered. */
  predicate Draining(u: User, e: Env) {
    && !e.active
    && (u.traffic.Some? && u.traffic.value.debit.Some? ==> !e.debitReply.Empty?)
    && (u.traffic.Some? && u.traffic.value.refund.Some? ==> !e.refundReply.Empty?)
  }

  lemma DrainStep(u: User, e: Env)
    requires Draining(u, e)
    ensures Rank(Advance(u, e).user) <= SatSub(Rank(u), 1)
  {
  }

  function AdvanceAll(u: User, envs: seq<Env>): User
    decreases |envs|
  {
    if envs == [] then u else AdvanceAll(Advance(u, envs[0]).user, envs[1..])
  }

  predicate AllDraining(u: User, envs: seq<Env>)
    decreases |envs|
  {
    envs == [] || (Draining(u, envs[0]) && AllDraining(Advance(u, envs[0]).user, envs[1..]))
  }

  lemma {:induction false} DrainRun(u: User, envs: seq<Env>)
    requires AllDraining(u, envs)
    ensures Rank(AdvanceAll(u, envs)) <= SatSub(Rank(u), |envs|)
    decreases |envs|
  {
    if envs != [] {
      DrainStep(u, envs[0]);
      DrainRun(Advance(u, envs[0]).user, envs[1..]);
    }
  }

  /** Whatever state a user is in, three answered shutdown polls leave no traffic entry. */
  lemma DrainsInThreePolls(u: User, envs: seq<Env>)
    requires |envs| >= 3 && AllDraining(u, envs)
    ensures AdvanceAll(u, envs).traffic.None?
  {
    DrainRun(u, envs);
  }
}
