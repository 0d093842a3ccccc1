/**
 * Authentication and credential revocation over one key-value store whose replies arrive late.
 *
 * Reads queued at the storage worker are answered in any order here, which allows every order the
 * worker's queue can produce.  A session that fails is dropped; tokens tie a reply to the read that
 * asked for it.
 */
module Revocation {
  import opened Basics

  type Digest = string
  type UserId = string
  type ClientId = string
  type Handle = nat
  type Token = nat

  datatype Credential = Credential(user: UserId, revoked: bool)

  datatype Auth =
    | Waiting
    | ReadingCredential(digest: Digest, token: Token)
    | ReadingUser(user: UserId)
    | WritingClock(user: UserId)
    | Authenticated(user: UserId)

  datatype Identity = Identity(user: UserId, digest: Option<Digest>)

  datatype Session = Session(server: bool, auth: Auth, digest: Option<Digest>, pendingFlows: seq<Identity>)

  datatype Flow = Flow(session: Handle, user: Option<UserId>, digest: Option<Digest>)

  type Changes = map<Digest, Option<Credential>>

  /** The administrative requests that touch credentials, and all others. */
  datatype Request =
    | AddCredential(user: UserId, digest: Digest)
    | RevokeCredential(digest: Digest)
    | DeleteUser(user: UserId)
    | OtherRequest(stops: set<UserId>)

  /** A numbered request of an administrative client; equal orders are byte-identical requests. */
  datatype Order = Order(client: ClientId, number: nat, request: Request)

  /** A client's last executed order; `at` is the place of its transaction in the log. */
  datatype Receipt = Receipt(order: Order, at: nat)

  datatype Commit = Commit(order: Order, changes: Changes)

  /** Receipts as stored with the changes they belong to, and every transaction executed so far. */
  datatype Ledger = Ledger(receipts: map<ClientId, Receipt>, log: seq<Commit>)

  /** The one administrative command in progress. */
  datatype Control =
    | Free
    | Reading(digest: Digest, token: Token)
    | Writing(order: Order, changes: Changes, flight: Flight)

  datatype Flight = Queued | Answered(ok: bool)

  datatype World = World(
    stored: map<Digest, Credential>,
    gets: map<Token, Digest>,                   // reads at the worker
    replies: map<Token, Option<Credential>>,    // answers not yet collected
    next: Token,
    cache: map<Digest, Credential>,
    loaded: set<Digest>,
    control: Control,
    sessions: map<Handle, Session>,
    flows: map<Handle, Flow>,
    unpurged: set<Digest>,                      // revoked in the store, sessions not yet swept
    ledger: Ledger)

  /** What the reply channel for a user record or clock write brings. */
  datatype UserReply = NotYet | Refused | NeedsClock | Finished | Lost

  datatype Event =
    | OpenSession(id: Handle, server: bool)
    | SendAuth(id: Handle, digest: Digest, accepted: bool)
    | Advance(id: Handle, reply: UserReply, accepted: bool)
    | ServerStatus(id: Handle, user: UserId)
    | DropSession(id: Handle)
    | AdmitFlow(id: Handle)
    | AttachFlow(id: Handle, flow: Handle)
    | DropFlows(gone: set<Handle>)
    | ServeGet(token: Token)
    | Administer(order: Order, accepted: bool)
    | FinishRead
    | AbortRead
    | CommitWrite
    | AbortWrite
    | FinishWrite
    | Crash(committed: bool)

  function Lookup(m: map<Digest, Credential>, d: Digest): Option<Credential> {
    if d in m then Some(m[d]) else None
  }

  function Update(m: map<Digest, Credential>, changes: Changes): map<Digest, Credential> {
    map d | d in m.Keys + changes.Keys && (d in changes ==> changes[d].Some?)
      :: if d in changes then changes[d].value else m[d]
  }

  // ------------------------------------------------------------------ sessions and flows

  predicate Grants(reply: Option<Credential>) {
    reply.Some? && !reply.value.revoked
  }

  function Without(w: World, id: Handle): World {
    w.(sessions := w.sessions - {id})
  }

  function Put(w: World, id: Handle, s: Session): World {
    w.(sessions := w.sessions[id := s])
  }

  /** An `auth` request: out of turn or refused by the store it ends the session. */
  function HandleAuth(w: World, id: Handle, digest: Digest, accepted: bool): (v: World)
    requires id in w.sessions
    ensures v.ledger == w.ledger && v.stored == w.stored && v.unpurged == w.unpurged
  {
    var s := w.sessions[id];
    if !s.auth.Waiting? || !accepted then Without(w, id)
    else
      Put(w.(gets := w.gets[w.next := digest], next := w.next + 1), id,
          s.(digest := Some(digest), auth := ReadingCredential(digest, w.next)))
  }

  datatype Progress = Hold | Fail | Move(auth: Auth)

  /** One step of an authentication on whatever replies have arrived. */
  function NextAuth(replies: map<Token, Option<Credential>>, auth: Auth, reply: UserReply, accepted: bool): Progress {
    match auth
    case ReadingCredential(digest, token) =>
      if token !in replies then Hold
      else if !Grants(replies[token]) then Move(Waiting)
      else if accepted then Move(ReadingUser(replies[token].value.user))
      else Fail
    case ReadingUser(user) =>
      (match reply
       case NotYet => Hold
       case Refused => Move(Waiting)
       case NeedsClock => if accepted then Move(WritingClock(user)) else Fail
       case Finished => Move(Authenticated(user))
       case Lost => Fail)
    case WritingClock(user) =>
      (match reply
       case NotYet => Hold
       case Finished => Move(Authenticated(user))
       case _ => Fail)
    case _ => Hold
  }

  function AdvanceAuth(w: World, id: Handle, reply: UserReply, accepted: bool): (v: World)
    requires id in w.sessions
    ensures v.ledger == w.ledger && v.stored == w.stored && v.unpurged == w.unpurged
  {
    match NextAuth(w.replies, w.sessions[id].auth, reply, accepted)
    case Hold => w
    case Fail => Without(w, id)
    case Move(auth) => Put(w, id, w.sessions[id].(auth := auth))
  }

  function Admit(w: World, id: Handle): (v: World)
    requires id in w.sessions && w.sessions[id].auth.Authenticated?
    ensures v.ledger == w.ledger && v.stored == w.stored && v.unpurged == w.unpurged
  {
    var s := w.sessions[id];
    if !s.server then w
    else Put(w, id, s.(pendingFlows := s.pendingFlows + [Identity(s.auth.user, s.digest)]))
  }

  function Attach(w: World, id: Handle, flow: Handle): (v: World)
    requires id in w.sessions
    ensures v.ledger == w.ledger && v.stored == w.stored && v.unpurged == w.unpurged
  {
    var s := w.sessions[id];
    if !s.server then w.(flows := w.flows[flow := Flow(id, None, None)])
    else if s.pendingFlows == [] then w
    else
      var identity := s.pendingFlows[0];
      Put(w.(flows := w.flows[flow := Flow(id, Some(identity.user), identity.digest)]), id,
          s.(pendingFlows := s.pendingFlows[1..]))
  }

  // ------------------------------------------------------------------ administration

  function RequiredRead(request: Request, loaded: set<Digest>): Option<Digest> {
    match request
    case AddCredential(_, d) => if d in loaded then None else Some(d)
    case RevokeCredential(d) => if d in loaded then None else Some(d)
    case _ => None
  }

  /** The credential changes of a request, or None when it is denied. */
  function Prepare(cache: map<Digest, Credential>, request: Request): Option<Changes> {
    match request
    case AddCredential(user, d) =>
      if d !in cache then Some(map[d := Some(Credential(user, false))])
      else if cache[d].user != user || cache[d].revoked then None
      else Some(map[])
    case RevokeCredential(d) =>
      if d !in cache then None else Some(map[d := Some(cache[d].(revoked := true))])
    case DeleteUser(user) => Some(map d | d in cache && cache[d].user == user :: None)
    case OtherRequest(_) => Some(map[])
  }

  function Stops(request: Request): set<UserId> {
    match request
    case DeleteUser(user) => {user}
    case OtherRequest(stops) => stops
    case _ => {}
  }

  datatype Decision = Replay | Execute | Refuse

  /** `check`: the last order again is answered from its receipt, the next one is executed. */
  function Decide(receipts: map<ClientId, Receipt>, order: Order): Decision {
    if order.client !in receipts then if order.number == 1 then Execute else Refuse
    else
      var last := receipts[order.client].order;
      if order == last then Replay else if order.number == last.number + 1 then Execute else Refuse
  }

  /** The call is answered from the receipt, with nothing read or written. */
  predicate Replays(w: World, order: Order) {
    w.control.Free? && RequiredRead(order.request, w.loaded).None? && Decide(w.ledger.receipts, order).Replay?
  }

  function HandleRequest(w: World, order: Order, accepted: bool): (v: World)
    requires w.control.Free?
    ensures v.ledger == w.ledger && v.stored == w.stored && v.unpurged == w.unpurged
  {
    var read := RequiredRead(order.request, w.loaded);
    if !accepted then w
    else if read.Some? then
      w.(gets := w.gets[w.next := read.value], next := w.next + 1, control := Reading(read.value, w.next))
    else if !Decide(w.ledger.receipts, order).Execute? then w
    else match Prepare(w.cache, order.request)
         case None => w
         case Some(changes) => w.(control := Writing(order, changes, Queued))
  }

  function Purged(changes: Changes): set<Digest> {
    set d | d in changes && (changes[d].Some? ==> changes[d].value.revoked)
  }

  predicate KeepsFlow(f: Flow, stopped: set<UserId>, purged: set<Digest>) {
    !(f.user.Some? && f.user.value in stopped) && !(f.digest.Some? && f.digest.value in purged)
  }

  predicate KeepsSession(s: Session, stopped: set<UserId>, purged: set<Digest>) {
    !(s.auth.Authenticated? && s.auth.user in stopped) && !(s.digest.Some? && s.digest.value in purged)
  }

  /** Those of stopped users and purged credentials go. */
  function KeptFlows(flows: map<Handle, Flow>, stopped: set<UserId>, purged: set<Digest>): map<Handle, Flow> {
    map f | f in flows && KeepsFlow(flows[f], stopped, purged) :: flows[f]
  }

  function KeptSessions(sessions: map<Handle, Session>, stopped: set<UserId>, purged: set<Digest>): map<Handle, Session> {
    map id | id in sessions && KeepsSession(sessions[id], stopped, purged) :: sessions[id]
  }

  /** `apply_admin_mutation`: caches follow the store, then revoked credentials and stopped users go. */
  function ApplyMutation(w: World, changes: Changes, stopped: set<UserId>): World {
    w.(cache := Update(w.cache, changes),
       loaded := w.loaded + changes.Keys,
       flows := KeptFlows(w.flows, stopped, Purged(changes)),
       sessions := KeptSessions(w.sessions, stopped, Purged(changes)))
  }

  /** The transaction: changes and receipt become durable together. */
  function Recorded(ledger: Ledger, order: Order, changes: Changes): Ledger {
    Ledger(ledger.receipts[order.client := Receipt(order, |ledger.log|)], ledger.log + [Commit(order, changes)])
  }

  function Executed(w: World): World
    requires w.control.Writing?
  {
    var c := w.control.changes;
    w.(stored := Update(w.stored, c),
       control := w.control.(flight := Answered(true)),
       unpurged := w.unpurged + (set d | d in c && c[d].Some? && c[d].value.revoked
                                         && !(d in w.stored && w.stored[d].revoked)),
       ledger := Recorded(w.ledger, w.control.order, c))
  }

  function Finish(w: World): World
    requires w.control.Writing? && w.control.flight.Answered?
  {
    var c := w.control;
    if !c.flight.ok then w.(control := Free)
    else ApplyMutation(w, c.changes, Stops(c.order.request)).(control := Free, unpurged := {})
  }

  function Collect(w: World): (v: World)
    requires w.control.Reading? && w.control.token in w.replies
    ensures v.ledger == w.ledger && v.stored == w.stored && v.unpurged == w.unpurged
  {
    var d, value := w.control.digest, w.replies[w.control.token];
    w.(control := Free, loaded := w.loaded + {d},
       cache := if value.Some? then w.cache[d := value.value] else w.cache)
  }

  /** What a restart leaves: the store, and nothing held in memory. */
  function Rebooted(w: World): World {
    w.(gets := map[], replies := map[], cache := map[], loaded := {}, control := Free,
       sessions := map[], flows := map[], unpurged := {})
  }

  // ------------------------------------------------------------------ runs

  predicate Enabled(w: World, ev: Event) {
    match ev
    case OpenSession(id, _) => id !in w.sessions
    case SendAuth(id, _, _) => id in w.sessions && w.sessions[id].server
    case Advance(id, _, _) => id in w.sessions
    case ServerStatus(id, _) => id in w.sessions && !w.sessions[id].server
    case DropSession(_) => true
    case AdmitFlow(id) => id in w.sessions && w.sessions[id].auth.Authenticated?
    case AttachFlow(id, flow) => id in w.sessions && flow !in w.flows
    case DropFlows(_) => true
    case ServeGet(token) => token in w.gets
    case Administer(_, _) => w.control.Free?
    case FinishRead => w.control.Reading? && w.control.token in w.replies
    case AbortRead => w.control.Reading?
    case CommitWrite => w.control.Writing? && w.control.flight.Queued?
    case AbortWrite => w.control.Writing? && w.control.flight.Queued?
    case FinishWrite => w.control.Writing? && w.control.flight.Answered?
    case Crash(_) => true
  }

  function Apply(w: World, ev: Event): World
    requires Enabled(w, ev)
  {
    match ev
    case OpenSession(id, server) => Put(w, id, Session(server, Waiting, None, []))
    case SendAuth(id, digest, accepted) => HandleAuth(w, id, digest, accepted)
    case Advance(id, reply, accepted) => AdvanceAuth(w, id, reply, accepted)
    case ServerStatus(id, user) => Put(w, id, w.sessions[id].(auth := Authenticated(user)))
    case DropSession(id) => Without(w, id)
    case AdmitFlow(id) => Admit(w, id)
    case AttachFlow(id, flow) => Attach(w, id, flow)
    case DropFlows(gone) => w.(flows := w.flows - gone)
    case ServeGet(token) =>
      w.(replies := w.replies[token := Lookup(w.stored, w.gets[token])], gets := w.gets - {token})
    case Administer(order, accepted) => HandleRequest(w, order, accepted)
    case FinishRead => Collect(w)
    case AbortRead => w.(control := Free)
    case CommitWrite => Executed(w)
    case AbortWrite => w.(control := w.control.(flight := Answered(false)))
    case FinishWrite => Finish(w)
    case Crash(committed) =>
      var durable := if committed && w.control.Writing? && w.control.flight.Queued? then Executed(w) else w;
      Rebooted(durable)
  }

  predicate Feasible(w: World, events: seq<Event>)
    decreases |events|
  {
    events == [] || (Enabled(w, events[0]) && Feasible(Apply(w, events[0]), events[1..]))
  }

  function Run(w: World, events: seq<Event>): World
    requires Feasible(w, events)
    decreases |events|
  {
    if events == [] then w else Run(Apply(w, events[0]), events[1..])
  }

  /** An instance starting on whatever the store holds. */
  function Start(stored: map<Digest, Credential>): World {
    World(stored, map[], map[], 0, map[], {}, Free, map[], map[], {}, Ledger(map[], []))
  }

  // ------------------------------------------------------------------ invariant

  /** Revoked in the store, and every session that could have missed it has been swept. */
  predicate Barred(w: World, d: Digest) {
    d in w.stored && w.stored[d].revoked && d !in w.unpurged
  }

  /** The session is not authenticated and no reply it waits for will authenticate it. */
  ghost predicate Stuck(w: World, s: Session) {
    match s.auth
    case Waiting => true
    case ReadingCredential(_, token) => token in w.replies ==> !Grants(w.replies[token])
    case _ => false
  }

  ghost predicate SessionInv(w: World, s: Session) {
    && (!s.server ==> s.digest.None? && s.pendingFlows == [])
    && (s.pendingFlows != [] ==> s.auth.Authenticated?)
    && (forall i :: 0 <= i < |s.pendingFlows| ==> s.pendingFlows[i].digest == s.digest)
    && (s.auth.ReadingCredential? ==>
          && s.digest == Some(s.auth.digest) && s.auth.token < w.next
          && (s.auth.token in w.gets ==> w.gets[s.auth.token] == s.auth.digest))
    && (s.digest.Some? && Barred(w, s.digest.value) ==> Stuck(w, s))
  }

  ghost predicate SessionsInv(w: World) {
    forall id :: id in w.sessions ==> SessionInv(w, w.sessions[id])
  }

  ghost predicate FlowsInv(w: World) {
    forall f :: f in w.flows && w.flows[f].digest.Some? ==> !Barred(w, w.flows[f].digest.value)
  }

  ghost predicate TokensInv(w: World) {
    && (forall t :: t in w.gets ==> t < w.next)
    && (forall t :: t in w.replies ==> t < w.next)
    && w.gets.Keys !! w.replies.Keys
  }

  /** Cached credentials agree with the store, except where an executed write is still unapplied. */
  ghost predicate CacheInv(w: World) {
    && w.cache.Keys <= w.loaded
    && (forall d :: d in w.loaded && !(w.control.Writing? && w.control.flight == Answered(true) && d in w.control.changes)
          ==> Lookup(w.cache, d) == Lookup(w.stored, d))
  }

  predicate Revokes(changes: Changes, d: Digest) {
    d in changes && changes[d].Some? && changes[d].value.revoked
  }

  predicate Deletes(changes: Changes, d: Digest) {
    d in changes && changes[d].None?
  }

  /** A change that is no deletion revokes, or adds a digest that is not there. */
  predicate SafeChanges(changes: Changes, stored: map<Digest, Credential>) {
    forall d :: d in changes && changes[d].Some? ==> changes[d].value.revoked || d !in stored
  }

  ghost predicate ControlInv(w: World) {
    match w.control
    case Free => w.unpurged == {}
    case Reading(d, token) =>
      && w.unpurged == {} && token < w.next
      && (token in w.gets ==> w.gets[token] == d)
      && (token in w.replies ==> w.replies[token] == Lookup(w.stored, d))
    case Writing(order, changes, flight) =>
      && (order.request.RevokeCredential? ==> Revokes(changes, order.request.digest))
      && (flight == Answered(true) ==>
            w.unpurged <= Purged(changes) && forall d :: d in changes ==> Lookup(w.stored, d) == changes[d])
      && (flight != Answered(true) ==>
            w.unpurged == {} && SafeChanges(changes, w.stored))
  }

  ghost predicate Inv(w: World) {
    SessionsInv(w) && FlowsInv(w) && TokensInv(w) && CacheInv(w) && ControlInv(w)
  }

  // ------------------------------------------------------------------ every step keeps it

  /** Steps that leave the store, the replies and the sweep alone. */
  ghost predicate SameBars(w: World, v: World) {
    v.stored == w.stored && v.unpurged == w.unpurged && v.replies == w.replies
  }

  lemma SessionFrame(w: World, v: World, s: Session)
    requires SessionInv(w, s) && SameBars(w, v) && w.next <= v.next
    requires forall t :: t in v.gets && t < w.next ==> t in w.gets && v.gets[t] == w.gets[t]
    ensures SessionInv(v, s)
  {
  }

  /** Replacing one session by a good one, with nothing else a session depends on changed. */
  lemma PutKeeps(w: World, v: World, id: Handle, s: Session)
    requires SessionsInv(w) && SameBars(w, v) && w.next <= v.next && v.sessions == w.sessions[id := s]
    requires forall t :: t in v.gets && t < w.next ==> t in w.gets && v.gets[t] == w.gets[t]
    requires SessionInv(v, s)
    ensures SessionsInv(v)
  {
    forall other | other in v.sessions
      ensures SessionInv(v, v.sessions[other])
    {
      if other != id {
        SessionFrame(w, v, w.sessions[other]);
      }
    }
  }

  lemma AuthKeeps(w: World, id: Handle, digest: Digest, accepted: bool)
    requires Inv(w) && Enabled(w, SendAuth(id, digest, accepted))
    ensures Inv(HandleAuth(w, id, digest, accepted))
  {
    var v := HandleAuth(w, id, digest, accepted);
    assert SessionInv(w, w.sessions[id]);
    if v.next > w.next {
      PutKeeps(w, v, id, v.sessions[id]);
    } else {
      FewerSessionsKeeps(w, v);
    }
  }

  lemma FewerSessionsKeeps(w: World, v: World)
    requires Inv(w) && v == w.(sessions := v.sessions, flows := v.flows)
    requires forall id :: id in v.sessions ==> id in w.sessions && v.sessions[id] == w.sessions[id]
    requires forall f :: f in v.flows ==> f in w.flows && v.flows[f] == w.flows[f]
    ensures Inv(v)
  {
    forall id | id in v.sessions
      ensures SessionInv(v, v.sessions[id])
    {
      SessionFrame(w, v, w.sessions[id]);
    }
  }

  lemma ReplaceKeeps(w: World, id: Handle, s: Session)
    requires Inv(w) && SessionInv(w, s)
    ensures Inv(Put(w, id, s))
  {
    var v := Put(w, id, s);
    SessionFrame(w, v, s);
    PutKeeps(w, v, id, s);
  }

  /** A step never takes a session past its credential unless the reply grants it. */
  lemma NextAuthSound(w: World, s: Session, reply: UserReply, accepted: bool)
    requires SessionInv(w, s)
    ensures var p := NextAuth(w.replies, s.auth, reply, accepted); p.Move? ==> SessionInv(w, s.(auth := p.auth))
  {
  }

  lemma AdvanceKeeps(w: World, id: Handle, reply: UserReply, accepted: bool)
    requires Inv(w) && Enabled(w, Advance(id, reply, accepted))
    ensures Inv(AdvanceAuth(w, id, reply, accepted))
  {
    NextAuthSound(w, w.sessions[id], reply, accepted);
    match NextAuth(w.replies, w.sessions[id].auth, reply, accepted)
    case Hold =>
    case Fail => FewerSessionsKeeps(w, Without(w, id));
    case Move(auth) => ReplaceKeeps(w, id, w.sessions[id].(auth := auth));
  }

  lemma AdmitKeeps(w: World, id: Handle)
    requires Inv(w) && Enabled(w, AdmitFlow(id))
    ensures Inv(Admit(w, id))
  {
    var s := w.sessions[id];
    assert SessionInv(w, s);
    if s.server {
      ReplaceKeeps(w, id, s.(pendingFlows := s.pendingFlows + [Identity(s.auth.user, s.digest)]));
    }
  }

  lemma FlowKeeps(w: World, flow: Handle, f: Flow)
    requires Inv(w) && (f.digest.Some? ==> !Barred(w, f.digest.value))
    ensures Inv(w.(flows := w.flows[flow := f]))
  {
    var v := w.(flows := w.flows[flow := f]);
    forall other | other in v.sessions
      ensures SessionInv(v, v.sessions[other])
    {
      SessionFrame(w, v, w.sessions[other]);
    }
  }

  lemma AttachKeeps(w: World, id: Handle, flow: Handle)
    requires Inv(w) && Enabled(w, AttachFlow(id, flow))
    ensures Inv(Attach(w, id, flow))
  {
    var s := w.sessions[id];
    assert SessionInv(w, s);
    if !s.server {
      FlowKeeps(w, flow, Flow(id, None, None));
    } else if s.pendingFlows != [] {
      var identity := s.pendingFlows[0];
      var f := Flow(id, Some(identity.user), identity.digest);
      FlowKeeps(w, flow, f);
      var v := w.(flows := w.flows[flow := f]);
      SessionFrame(w, v, s);
      ReplaceKeeps(v, id, s.(pendingFlows := s.pendingFlows[1..]));
    }
  }

  lemma ServeKeeps(w: World, token: Token)
    requires Inv(w) && token in w.gets
    ensures Inv(Apply(w, ServeGet(token)))
  {
    var v := Apply(w, ServeGet(token));
    forall id | id in v.sessions
      ensures SessionInv(v, v.sessions[id])
    {
      assert SessionInv(w, w.sessions[id]);
    }
  }

  lemma SameSessions(w: World, v: World)
    requires Inv(w) && SameBars(w, v) && v.sessions == w.sessions && v.flows == w.flows && w.next <= v.next
    requires forall t :: t in v.gets && t < w.next ==> t in w.gets && v.gets[t] == w.gets[t]
    ensures SessionsInv(v) && FlowsInv(v)
  {
    forall id | id in v.sessions
      ensures SessionInv(v, v.sessions[id])
    {
      SessionFrame(w, v, w.sessions[id]);
    }
  }

  /** Every change a request asks for deletes, revokes, or adds a digest the store does not have. */
  lemma ChangesAreSafe(w: World, request: Request)
    requires CacheInv(w) && w.control.Free? && RequiredRead(request, w.loaded).None?
    ensures var p := Prepare(w.cache, request);
            p.Some? ==> SafeChanges(p.value, w.stored)
  {
    if request.AddCredential? {
      assert Lookup(w.cache, request.digest) == Lookup(w.stored, request.digest);
    }
  }

  lemma RequestControl(w: World, order: Order, accepted: bool)
    requires CacheInv(w) && ControlInv(w) && TokensInv(w) && w.control.Free?
    ensures var v := HandleRequest(w, order, accepted); ControlInv(v) && CacheInv(v) && TokensInv(v)
  {
    if RequiredRead(order.request, w.loaded).None? {
      ChangesAreSafe(w, order.request);
    }
  }

  lemma RequestFrame(w: World, order: Order, accepted: bool)
    requires w.control.Free?
    ensures var v := HandleRequest(w, order, accepted);
            && v == w.(gets := v.gets, next := v.next, control := v.control) && w.next <= v.next
            && forall t :: t in v.gets && t < w.next ==> t in w.gets && v.gets[t] == w.gets[t]
  {
  }

  lemma RequestKeeps(w: World, order: Order, accepted: bool)
    requires Inv(w) && w.control.Free?
    ensures Inv(HandleRequest(w, order, accepted))
  {
    RequestControl(w, order, accepted);
    RequestFrame(w, order, accepted);
    SameSessions(w, HandleRequest(w, order, accepted));
  }

  lemma CollectKeeps(w: World)
    requires Inv(w) && Enabled(w, FinishRead)
    ensures Inv(Collect(w))
  {
    SameSessions(w, Collect(w));
  }

  /** A write leaves every bar in place except on records it deletes. */
  lemma BarsSurvive(w: World, d: Digest)
    requires ControlInv(w) && w.control.Writing? && w.control.flight.Queued?
    ensures Barred(Executed(w), d) <==> Barred(w, d) && !Deletes(w.control.changes, d)
  {
  }

  lemma ExecutedKeeps(w: World)
    requires Inv(w) && Enabled(w, CommitWrite)
    ensures Inv(Executed(w))
  {
    var v := Executed(w);
    forall id | id in v.sessions
      ensures SessionInv(v, v.sessions[id])
    {
      var s := w.sessions[id];
      assert SessionInv(w, s);
      if s.digest.Some? { BarsSurvive(w, s.digest.value); }
    }
    forall f | f in v.flows && v.flows[f].digest.Some?
      ensures !Barred(v, v.flows[f].digest.value)
    {
      BarsSurvive(w, v.flows[f].digest.value);
    }
  }

  lemma SweptCache(w: World)
    requires CacheInv(w) && ControlInv(w) && w.control.Writing? && w.control.flight == Answered(true)
    ensures CacheInv(Finish(w))
  {
  }

  /** The sweep leaves no session with a digest that became barred by it. */
  lemma SweptSessions(w: World)
    requires SessionsInv(w) && ControlInv(w) && w.control.Writing? && w.control.flight == Answered(true)
    ensures SessionsInv(Finish(w))
  {
    var v := Finish(w);
    forall id | id in v.sessions
      ensures SessionInv(v, v.sessions[id])
    {
      assert SessionInv(w, w.sessions[id]);
    }
  }

  lemma SweptFlows(w: World)
    requires FlowsInv(w) && ControlInv(w) && w.control.Writing? && w.control.flight == Answered(true)
    ensures FlowsInv(Finish(w))
  {
  }

  lemma FinishKeeps(w: World)
    requires Inv(w) && Enabled(w, FinishWrite)
    ensures Inv(Finish(w))
  {
    if w.control.flight.ok {
      SweptSessions(w);
      SweptFlows(w);
      SweptCache(w);
    } else {
      SameSessions(w, Finish(w));
    }
  }

  lemma RebootKeeps(w: World)
    requires Inv(w)
    ensures Inv(Rebooted(w))
  {
  }

  lemma CrashKeeps(w: World, committed: bool)
    requires Inv(w)
    ensures Inv(Apply(w, Crash(committed)))
  {
    if committed && w.control.Writing? && w.control.flight.Queued? {
      ExecutedKeeps(w);
      RebootKeeps(Executed(w));
    } else {
      RebootKeeps(w);
    }
  }

  lemma AbortKeeps(w: World, ev: Event)
    requires Inv(w) && Enabled(w, ev) && (ev.AbortRead? || ev.AbortWrite?)
    ensures Inv(Apply(w, ev))
  {
    SameSessions(w, Apply(w, ev));
  }

  lemma ClientStatusKeeps(w: World, id: Handle, user: UserId)
    requires Inv(w) && Enabled(w, ServerStatus(id, user))
    ensures Inv(Apply(w, ServerStatus(id, user)))
  {
    assert SessionInv(w, w.sessions[id]);
    ReplaceKeeps(w, id, w.sessions[id].(auth := Authenticated(user)));
  }

  lemma SessionStepKeeps(w: World, ev: Event)
    requires Inv(w) && Enabled(w, ev)
    requires ev.OpenSession? || ev.SendAuth? || ev.Advance? || ev.ServerStatus? || ev.DropSession?
          || ev.AdmitFlow? || ev.AttachFlow? || ev.DropFlows?
    ensures Inv(Apply(w, ev))
  {
    match ev
    case OpenSession(id, server) => ReplaceKeeps(w, id, Session(server, Waiting, None, []));
    case SendAuth(id, digest, accepted) => AuthKeeps(w, id, digest, accepted);
    case Advance(id, reply, accepted) => AdvanceKeeps(w, id, reply, accepted);
    case ServerStatus(id, user) => ClientStatusKeeps(w, id, user);
    case DropSession(id) => FewerSessionsKeeps(w, Without(w, id));
    case AdmitFlow(id) => AdmitKeeps(w, id);
    case AttachFlow(id, flow) => AttachKeeps(w, id, flow);
    case DropFlows(gone) => FewerSessionsKeeps(w, w.(flows := w.flows - gone));
  }

  lemma StepKeeps(w: World, ev: Event)
    requires Inv(w) && Enabled(w, ev)
    ensures Inv(Apply(w, ev))
  {
    match ev
    case ServeGet(token) => ServeKeeps(w, token);
    case Administer(order, accepted) => RequestKeeps(w, order, accepted);
    case FinishRead => CollectKeeps(w);
    case AbortRead => AbortKeeps(w, ev);
    case AbortWrite => AbortKeeps(w, ev);
    case CommitWrite => ExecutedKeeps(w);
    case FinishWrite => FinishKeeps(w);
    case Crash(committed) => CrashKeeps(w, committed);
    case _ => SessionStepKeeps(w, ev);
  }

  lemma {:induction false} RunKeeps(w: World, events: seq<Event>)
    requires Inv(w) && Feasible(w, events)
    ensures Inv(Run(w, events))
    decreases |events|
  {
    if events != [] {
      StepKeeps(w, events[0]);
      RunKeeps(Apply(w, events[0]), events[1..]);
    }
  }

  // ------------------------------------------------------------------ main results

  /** No server session or flow acts under the digest. */
  ghost predicate ShutOut(w: World, d: Digest) {
    && (forall id :: id in w.sessions && w.sessions[id].digest == Some(d) ==>
          (w.sessions[id].auth.Waiting? || w.sessions[id].auth.ReadingCredential?) && w.sessions[id].pendingFlows == [])
    && (forall f :: f in w.flows ==> w.flows[f].digest != Some(d))
  }

  lemma BarredMeansShutOut(w: World, d: Digest)
    requires Inv(w) && Barred(w, d)
    ensures ShutOut(w, d)
  {
    forall id | id in w.sessions && w.sessions[id].digest == Some(d)
      ensures (w.sessions[id].auth.Waiting? || w.sessions[id].auth.ReadingCredential?) && w.sessions[id].pendingFlows == []
    {
      assert SessionInv(w, w.sessions[id]);
    }
  }

  /** No step of the run deletes the record; it need not be there to begin with. */
  predicate NeverDeletes(w: World, events: seq<Event>, d: Digest)
    requires Feasible(w, events)
    decreases |events|
  {
    events == []
    || ((d in w.stored ==> d in Apply(w, events[0]).stored) && NeverDeletes(Apply(w, events[0]), events[1..], d))
  }

  lemma QuietStep(w: World, ev: Event)
    requires Enabled(w, ev) && !ev.CommitWrite? && !ev.Crash?
    ensures Apply(w, ev).ledger == w.ledger && Apply(w, ev).stored == w.stored && Apply(w, ev).unpurged <= w.unpurged
  {
  }

  /** Only deleting its record lifts a bar. */
  lemma BarredStep(w: World, ev: Event, d: Digest)
    requires Inv(w) && Enabled(w, ev) && Barred(w, d) && d in Apply(w, ev).stored
    ensures Barred(Apply(w, ev), d)
  {
    if ev.CommitWrite? || (ev.Crash? && ev.committed && w.control.Writing? && w.control.flight.Queued?) {
      BarsSurvive(w, d);
    } else if !ev.Crash? {
      QuietStep(w, ev);
    }
  }

  lemma {:induction false} BarredLasts(w: World, events: seq<Event>, d: Digest)
    requires Inv(w) && Feasible(w, events) && NeverDeletes(w, events, d) && Barred(w, d)
    ensures ShutOut(Run(w, events), d)
    decreases |events|
  {
    if events == [] {
      BarredMeansShutOut(w, d);
    } else {
      BarredStep(w, events[0], d);
      StepKeeps(w, events[0]);
      BarredLasts(Apply(w, events[0]), events[1..], d);
    }
  }

  /** From here on nothing acts under the digest, whatever happens short of deleting its record. */
  ghost predicate Lasting(w: World, d: Digest) {
    forall events :: Feasible(w, events) && NeverDeletes(w, events, d) ==> ShutOut(Run(w, events), d)
  }

  lemma BarredIsLasting(w: World, d: Digest)
    requires Inv(w) && Barred(w, d)
    ensures Lasting(w, d)
  {
    forall events | Feasible(w, events) && NeverDeletes(w, events, d)
      ensures ShutOut(Run(w, events), d)
    {
      BarredLasts(w, events, d);
    }
  }

  /**
   * Revocation is final.  Take any run from a start to a state where a revocation of `d` has been
   * written and let it return Ok: however the run goes on, as long as the record of `d` is not deleted
   * no server session is authenticated with `d`, none is past reading its credential, no admitted flow
   * waits under it and no flow carries it, whatever reads were in flight and however often the process
   * crashed.
   */
  lemma RevocationIsFinal(stored: map<Digest, Credential>, before: seq<Event>, d: Digest)
    requires Feasible(Start(stored), before)
    requires var w := Run(Start(stored), before);
             w.control.Writing? && w.control.order.request == RevokeCredential(d) && w.control.flight == Answered(true)
    ensures var w := Run(Start(stored), before);
            d in Finish(w).stored && Finish(w).stored[d].revoked && Lasting(Finish(w), d)
  {
    var w := Run(Start(stored), before);
    RunKeeps(Start(stored), before);
    FinishKeeps(w);
    BarredIsLasting(Finish(w), d);
  }

  // ------------------------------------------------------------------ in place

  /** The part of the instance state that `apply_admin_mutation` updates and a revocation depends on. */
  class Memory {
    var cache: map<Digest, Credential>
    var loaded: set<Digest>
    var flows: map<Handle, Flow>
    var sessions: map<Handle, Session>

    ghost predicate Shows(w: World)
      reads this
    {
      cache == w.cache && loaded == w.loaded && flows == w.flows && sessions == w.sessions
    }

    /** One credential change: the cache follows the store, a deleted or revoked one is to be purged. */
    method ApplyChange(d: Digest, change: Option<Credential>, purged: set<Digest>) returns (more: set<Digest>)
      modifies `cache, `loaded
      ensures cache == Update(old(cache), map[d := change]) && loaded == old(loaded) + {d}
      ensures more == purged + Purged(map[d := change])
    {
      more := purged;
      if change.None? || change.value.revoked {
        more := more + {d};
      }
      if change.Some? {
        cache := cache[d := change.value];
      } else {
        cache := cache - {d};
      }
      loaded := loaded + {d};
    }

    method ApplyChanges(changes: Changes) returns (purged: set<Digest>)
      modifies `cache, `loaded
      ensures cache == Update(old(cache), changes) && loaded == old(loaded) + changes.Keys && purged == Purged(changes)
    {
      purged := {};
      var left := changes.Keys;
      NothingApplied(cache, loaded, changes);
      while left != {}
        invariant left <= changes.Keys && Applied(old(cache), old(loaded), changes - left, cache, loaded, purged)
        decreases |left|
      {
        var d :| d in left;
        OneApplied(old(cache), old(loaded), changes, left, d, cache, loaded, purged);
        purged := ApplyChange(d, changes[d], purged);
        left := left - {d};
      }
      assert changes - left == changes;
    }

    /** `retain` on the flows, one by one. */
    method RetainFlows(stopped: set<UserId>, purged: set<Digest>)
      modifies `flows
      ensures flows == KeptFlows(old(flows), stopped, purged)
    {
      var left := flows.Keys;
      while left != {}
        invariant left <= flows.Keys <= old(flows).Keys && forall f :: f in flows ==> flows[f] == old(flows)[f]
        invariant forall f :: f in old(flows) && f !in left ==> (f in flows <==> KeepsFlow(old(flows)[f], stopped, purged))
        decreases |left|
      {
        var f :| f in left;
        if !KeepsFlow(flows[f], stopped, purged) {
          flows := flows - {f};
        }
        left := left - {f};
      }
    }

    method RetainSessions(stopped: set<UserId>, purged: set<Digest>)
      modifies `sessions
      ensures sessions == KeptSessions(old(sessions), stopped, purged)
    {
      var left := sessions.Keys;
      while left != {}
        invariant left <= sessions.Keys <= old(sessions).Keys && forall s :: s in sessions ==> sessions[s] == old(sessions)[s]
        invariant forall s :: s in old(sessions) && s !in left ==>
                    (s in sessions <==> KeepsSession(old(sessions)[s], stopped, purged))
        decreases |left|
      {
        var s :| s in left;
        if !KeepsSession(sessions[s], stopped, purged) {
          sessions := sessions - {s};
        }
        left := left - {s};
      }
    }

    method ApplyAdminMutation(changes: Changes, stopped: set<UserId>, ghost before: World)
      requires Shows(before)
      modifies this
      ensures Shows(ApplyMutation(before, changes, stopped))
    {
      var purged := ApplyChanges(changes);
      RetainFlows(stopped, purged);
      RetainSessions(stopped, purged);
    }
  }

  ghost predicate Applied(m: map<Digest, Credential>, l: set<Digest>, done: Changes,
                          cache: map<Digest, Credential>, loaded: set<Digest>, purged: set<Digest>) {
    cache == Update(m, done) && loaded == l + done.Keys && purged == Purged(done)
  }

  lemma NothingApplied(m: map<Digest, Credential>, l: set<Digest>, changes: Changes)
    ensures Applied(m, l, changes - changes.Keys, m, l, {})
  {
  }

  lemma OneUpdated(m: map<Digest, Credential>, changes: Changes, left: set<Digest>, d: Digest)
    requires d in left && left <= changes.Keys
    ensures Update(Update(m, changes - left), map[d := changes[d]]) == Update(m, changes - (left - {d}))
  {
  }

  lemma OnePurged(changes: Changes, left: set<Digest>, d: Digest)
    requires d in left && left <= changes.Keys
    ensures Purged(changes - (left - {d})) == Purged(changes - left) + Purged(map[d := changes[d]])
    ensures (changes - (left - {d})).Keys == (changes - left).Keys + {d}
  {
  }

  /** Changes of distinct digests can be applied one by one. */
  lemma OneApplied(m: map<Digest, Credential>, l: set<Digest>, changes: Changes, left: set<Digest>, d: Digest,
                   cache: map<Digest, Credential>, loaded: set<Digest>, purged: set<Digest>)
    requires d in left && left <= changes.Keys && Applied(m, l, changes - left, cache, loaded, purged)
    ensures Applied(m, l, changes - (left - {d}), Update(cache, map[d := changes[d]]), loaded + {d},
                    purged + Purged(map[d := changes[d]]))
  {
    OneUpdated(m, changes, left, d);
    OnePurged(changes, left, d);
  }
}
