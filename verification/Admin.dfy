/**
 * Administrative commands: a sequencer of per-client receipts, the one-at-a-time control protocol
 * around it, and exactly-once execution under retries, interleaved clients and crashes.
 */
module Admin {
  import opened Basics

  type ClientId = string
  type Bytes = seq<Byte>

  /** Changes to the key-value store, written in one transaction with the receipt. */
  type Changes = seq<(string, Option<Bytes>)>

  datatype AdminError = Invalid | ClientLimit | Sequence | State

  datatype Receipt = Receipt(number: U64, digest: Bytes, response: Bytes)

  datatype Decision = Execute | Replay(response: Bytes)

  // ------------------------------------------------------------------ sequencer

  predicate ValidClientId(id: ClientId) {
    0 < |id| <= 64 && forall i :: 0 <= i < |id| ==> IdChar(id[i])
  }

  predicate IdChar(c: char) {
    'a' <= c <= 'z' || 'A' <= c <= 'Z' || '0' <= c <= '9' || c == '-' || c == '_'
  }

  function CheckRequest(clients: map<ClientId, Receipt>, max: nat, id: ClientId, number: U64, digest: Bytes)
    : Result<Decision, AdminError>
  {
    if !ValidClientId(id) then Err(Invalid)
    else if id !in clients then
      if |clients| >= max then Err(ClientLimit)
      else if number == 1 then Ok(Execute)
      else Err(Sequence)
    else if number == clients[id].number && digest == clients[id].digest then Ok(Replay(clients[id].response))
    else if number == clients[id].number + 1 then Ok(Execute)
    else Err(Sequence)
  }

  function PrepareCommit(clients: map<ClientId, Receipt>, max: nat, id: ClientId, number: U64): Result<(), AdminError> {
    if !ValidClientId(id) then Err(Invalid)
    else if id !in clients && |clients| >= max then Err(ClientLimit)
    else if (id !in clients && number == 1) || (id in clients && number == clients[id].number + 1) then Ok(())
    else Err(State)
  }

  function ApplyCommit(clients: map<ClientId, Receipt>, max: nat, id: ClientId, r: Receipt)
    : Result<map<ClientId, Receipt>, AdminError>
  {
    match PrepareCommit(clients, max, id, r.number)
    case Err(e) => Err(e)
    case Ok(_) => Ok(clients[id := r])
  }

  class AdminSequencer {
    const maxClients: nat
    var clients: map<ClientId, Receipt>

    constructor (max: nat)
      requires max > 0
      ensures maxClients == max && clients == map[]
    {
      maxClients, clients := max, map[];
    }

    method Check(id: ClientId, number: U64, digest: Bytes) returns (r: Result<Decision, AdminError>)
      ensures r == CheckRequest(clients, maxClients, id, number, digest)
    {
      if !ValidClientId(id) {
        return Err(Invalid);
      }
      if id !in clients {
        if |clients| >= maxClients {
          return Err(ClientLimit);
        }
        return if number == 1 then Ok(Execute) else Err(Sequence);
      }
      var receipt := clients[id];
      if number == receipt.number && digest == receipt.digest {
        return Ok(Replay(receipt.response));
      }
      return if number == receipt.number + 1 then Ok(Execute) else Err(Sequence);
    }

    method Commit(id: ClientId, receipt: Receipt) returns (r: Result<(), AdminError>)
      modifies this
      ensures match ApplyCommit(old(clients), maxClients, id, receipt)
              case Ok(next) => clients == next && r.Ok?
              case Err(e) => clients == old(clients) && r == Err(e)
    {
      r := PrepareCommit(clients, maxClients, id, receipt.number);
      if r.Ok? {
        clients := clients[id := receipt];
      }
    }

    method RestoreOne(id: ClientId, receipt: Receipt) returns (r: Result<(), AdminError>)
      modifies this
      ensures r.Ok? <==> ValidClientId(id) && (id in old(clients) || |old(clients)| < maxClients)
      ensures clients == if r.Ok? then old(clients)[id := receipt] else old(clients)
    {
      if !ValidClientId(id) {
        return Err(Invalid);
      }
      if id !in clients && |clients| >= maxClients {
        return Err(ClientLimit);
      }
      clients := clients[id := receipt];
      return Ok(());
    }

    /** Start-up into a new sequencer: it succeeds exactly on valid receipts within the limit, and keeps them all. */
    method RestoreAll(stored: map<ClientId, Receipt>) returns (ok: bool)
      requires clients == map[]
      modifies this
      ensures ok <==> |stored| <= maxClients && forall id :: id in stored ==> ValidClientId(id)
      ensures ok ==> clients == stored
    {
      var left := stored.Keys;
      while left != {}
        invariant left <= stored.Keys
        invariant clients == map id | id in stored && id !in left :: stored[id]
        invariant |clients| <= maxClients && forall id :: id in clients ==> ValidClientId(id)
        decreases left
      {
        var id :| id in left;
        assert clients.Keys == stored.Keys - left;
        assert |stored.Keys| == |stored.Keys - left| + |left|;
        var r := RestoreOne(id, stored[id]);
        if r.Err? {
          return false;
        }
        AddedKey(map i | i in stored && i !in left :: stored[i], id, stored[id]);
        left := left - {id};
      }
      assert clients == stored;
      return true;
    }
  }

  // ------------------------------------------------------------------ control protocol

  /** A parsed request; `mutation` says whether it carries a client and sequence number. */
  datatype Request = Request(bytes: Bytes, digest: Bytes, client: ClientId, number: U64, kind: Kind)

  datatype Kind = Mutation | Query | Backup

  datatype Commit = Commit(client: ClientId, receipt: Receipt, changes: Changes)

  datatype Pending = NoPending | Writing(request: Request, commit: Commit) | Reading(request: Request) | BackingUp(request: Request)

  datatype Engine = Engine(clients: map<ClientId, Receipt>, max: nat, pending: Pending)

  datatype Reply = Empty | Done | Failed

  datatype Status = StatusPending | StatusIo | StatusResource | StatusInvalid | StatusDenied | StatusInternal

  datatype Outcome = Answer(response: Bytes) | Refuse(status: Status)

  /** What a call to `control` meets: the reply channel, the request's form and the store's queue. */
  datatype Env = Env(
    reply: Reply,
    readUsable: bool,
    tooLong: bool,
    parses: bool,
    needsRead: bool,
    query: Outcome,
    prepared: Result<(Bytes, Changes), Status>,
    accepts: bool)

  datatype Called = Called(engine: Engine, put: Option<Commit>, outcome: Outcome)

  function StatusOf(e: AdminError): Status {
    if e.ClientLimit? then StatusResource else StatusDenied
  }

  function Control(e: Engine, req: Request, env: Env): Called {
    if e.pending.NoPending? then
      FreshControl(e, req, env)
    else if e.pending.request.bytes != req.bytes || env.reply.Empty? then
      Called(e, None, Refuse(StatusPending))
    else
      var idle := e.(pending := NoPending);
      if env.reply.Failed? then Called(idle, None, Refuse(StatusIo))
      else match e.pending
           case Writing(_, commit) =>
             (match ApplyCommit(e.clients, e.max, commit.client, commit.receipt)
              case Err(_) => Called(idle, None, Refuse(StatusInternal))
              case Ok(clients) => Called(idle.(clients := clients), None, Answer(commit.receipt.response)))
           case Reading(_) => if env.readUsable then FreshControl(idle, req, env) else Called(idle, None, Refuse(StatusIo))
           case _ => Called(idle, None, env.query)
  }

  /** A request with nothing pending. */
  function FreshControl(e: Engine, req: Request, env: Env): Called
    requires e.pending.NoPending?
  {
    if env.tooLong then Called(e, None, Refuse(StatusResource))
    else if !env.parses then Called(e, None, Refuse(StatusInvalid))
    else if req.kind.Backup? then
      if env.accepts then Called(e.(pending := BackingUp(req)), None, Refuse(StatusPending))
      else Called(e, None, Refuse(StatusResource))
    else if env.needsRead then
      if env.accepts then Called(e.(pending := Reading(req)), None, Refuse(StatusPending))
      else Called(e, None, Refuse(StatusResource))
    else if req.kind.Query? then Called(e, None, env.query)
    else Mutate(e, req, env)
  }

  function Mutate(e: Engine, req: Request, env: Env): Called {
    match CheckRequest(e.clients, e.max, req.client, req.number, req.digest)
    case Err(error) => Called(e, None, Refuse(StatusOf(error)))
    case Ok(Replay(response)) => Called(e, None, Answer(response))
    case Ok(Execute) =>
      match env.prepared
      case Err(status) => Called(e, None, Refuse(status))
      case Ok(prepared) =>
        match PrepareCommit(e.clients, e.max, req.client, req.number)
        case Err(error) => Called(e, None, Refuse(StatusOf(error)))
        case Ok(_) =>
          var commit := Commit(req.client, Receipt(req.number, req.digest, prepared.0), prepared.1);
          if env.accepts then Called(e.(pending := Writing(req, commit)), Some(commit), Refuse(StatusPending))
          else Called(e, None, Refuse(StatusResource))
  }

  // ------------------------------------------------------------------ world

  datatype Flight = Idle | Queued(commit: Commit) | Answered(ok: bool)

  datatype World = World(
    engine: Engine,
    flight: Flight,
    stored: map<ClientId, Receipt>,
    log: seq<Commit>,                   // transactions executed, oldest first
    answers: seq<(Request, Bytes)>)     // successful answers to mutating requests

  datatype Event =
    | Call(request: Request, env: Env)
    | WorkerCommits
    | WorkerFails                       // the transaction is aborted
    | Crash(committed: bool)            // restart restores the receipts from the store

  /** Replies come from the worker, and equal bytes are the same request. */
  predicate Enabled(w: World, ev: Event) {
    match ev
    case Call(req, env) =>
      && (!w.engine.pending.NoPending? && w.engine.pending.request.bytes == req.bytes ==> w.engine.pending.request == req)
      && (w.engine.pending.Writing? ==>
            env.reply == (match w.flight case Answered(ok) => (if ok then Done else Failed) case _ => Empty))
    case WorkerCommits => w.flight.Queued?
    case WorkerFails => w.flight.Queued?
    case Crash(_) => true
  }

  /** `apply_values`: changes and receipt become visible together. */
  function Committed(w: World): World
    requires w.flight.Queued?
  {
    var c := w.flight.commit;
    w.(stored := w.stored[c.client := c.receipt], log := w.log + [c], flight := Answered(true))
  }

  function Land(w: World, called: Called, req: Request): World {
    w.(engine := called.engine,
       flight := if called.put.Some? then Queued(called.put.value)
                 else if called.engine.pending.Writing? then w.flight else Idle,
       answers := if called.outcome.Answer? && req.kind.Mutation?
                  then w.answers + [(req, called.outcome.response)] else w.answers)
  }

  function Apply(w: World, ev: Event): World
    requires Enabled(w, ev)
  {
    match ev
    case Call(req, env) => Land(w, Control(w.engine, req, env), req)
    case WorkerCommits => Committed(w)
    case WorkerFails => w.(flight := Answered(false))
    case Crash(committed) =>
      var durable := if committed && w.flight.Queued? then Committed(w) else w;
      durable.(engine := Engine(durable.stored, w.engine.max, NoPending), flight := Idle)
  }

  predicate Feasible(w: World, events: seq<Event>)
    decreases |events|
  {
    events == [] || (Enabled(w, events[0]) && Feasible(Apply(w, events[0]), events[1..]))
  }

  function Run(w: World, events: seq<Event>): World
    requires Feasible(w, events)
    decreases |events|
  {
    if events == [] then w else Run(Apply(w, events[0]), events[1..])
  }

  function Start(max: nat): World {
    World(Engine(map[], max, NoPending), Idle, map[], [], [])
  }

  // ------------------------------------------------------------------ invariant

  /** The transactions of one client, oldest first. */
  function LogOf(log: seq<Commit>, id: ClientId): seq<Commit> {
    if log == [] then []
    else
      var front, last := LogOf(log[..|log| - 1], id), log[|log| - 1];
      if last.client == id then front + [last] else front
  }

  ghost predicate Numbered(commits: seq<Commit>) {
    forall k :: 0 <= k < |commits| ==> commits[k].receipt.number == k + 1
  }

  ghost predicate ClientInv(log: seq<Commit>, stored: map<ClientId, Receipt>, id: ClientId) {
    var mine := LogOf(log, id);
    && Numbered(mine)
    && (id in stored ==> mine != [] && stored[id] == mine[|mine| - 1].receipt)
    && (id !in stored ==> mine == [])
  }

  ghost predicate StoreInv(w: World) {
    && |w.stored| <= w.engine.max
    && (forall id :: id in w.stored ==> ValidClientId(id))
    && (forall id :: ClientInv(w.log, w.stored, id))
  }

  ghost predicate FlightInv(w: World) {
    if w.engine.pending.Writing? then
      var c := w.engine.pending.commit;
      && PrepareCommit(w.engine.clients, w.engine.max, c.client, c.receipt.number).Ok?
      && c.client == w.engine.pending.request.client && c.receipt.number == w.engine.pending.request.number
      && match w.flight
         case Idle => false
         case Queued(queued) => queued == c && w.stored == w.engine.clients
         case Answered(ok) => w.stored == if ok then w.engine.clients[c.client := c.receipt] else w.engine.clients
    else
      && w.flight.Idle? && w.stored == w.engine.clients
      && (w.engine.pending.BackingUp? ==> w.engine.pending.request.kind.Backup?)
  }

  /** An answer is the response of the transaction with that client and number. */
  ghost predicate Answers(log: seq<Commit>, a: (Request, Bytes)) {
    var mine := LogOf(log, a.0.client);
    1 <= a.0.number <= |mine| && mine[a.0.number - 1].receipt.response == a.1
  }

  ghost predicate AnswersInv(w: World) {
    forall i :: 0 <= i < |w.answers| ==> Answers(w.log, w.answers[i])
  }

  ghost predicate Inv(w: World) {
    StoreInv(w) && FlightInv(w) && AnswersInv(w)
  }

  lemma LogOfSnoc(log: seq<Commit>, c: Commit, id: ClientId)
    ensures LogOf(log + [c], id) == LogOf(log, id) + (if c.client == id then [c] else [])
  {
    assert (log + [c])[..|log|] == log;
  }

  lemma CommitKeepsClient(w: World, c: Commit, id: ClientId)
    requires StoreInv(w) && w.stored == w.engine.clients
    requires PrepareCommit(w.stored, w.engine.max, c.client, c.receipt.number).Ok?
    ensures ClientInv(w.log + [c], w.stored[c.client := c.receipt], id)
  {
    assert ClientInv(w.log, w.stored, id);
    LogOfSnoc(w.log, c, id);
  }

  lemma CommitKeeps(w: World)
    requires Inv(w) && w.flight.Queued?
    ensures Inv(Committed(w))
  {
    var c := w.flight.commit;
    CommitKeepsStore(w, c);
    CommitKeepsAnswers(w, c);
  }

  lemma CommitKeepsStore(w: World, c: Commit)
    requires StoreInv(w) && w.stored == w.engine.clients
    requires PrepareCommit(w.stored, w.engine.max, c.client, c.receipt.number).Ok?
    ensures StoreInv(w.(log := w.log + [c], stored := w.stored[c.client := c.receipt]))
  {
    var log, stored := w.log + [c], w.stored[c.client := c.receipt];
    forall id
      ensures ClientInv(log, stored, id)
    {
      CommitKeepsClient(w, c, id);
    }
    AddedKey(w.stored, c.client, c.receipt);
  }

  lemma AddedKey(m: map<ClientId, Receipt>, id: ClientId, r: Receipt)
    ensures |m[id := r]| == if id in m then |m| else |m| + 1
  {
    assert m[id := r].Keys == m.Keys + {id};
    if id in m {
      assert m.Keys + {id} == m.Keys;
    }
  }

  lemma CommitKeepsAnswers(w: World, c: Commit)
    requires AnswersInv(w)
    ensures forall i :: 0 <= i < |w.answers| ==> Answers(w.log + [c], w.answers[i])
  {
    forall i | 0 <= i < |w.answers|
      ensures Answers(w.log + [c], w.answers[i])
    {
      assert Answers(w.log, w.answers[i]);
      LogOfSnoc(w.log, c, w.answers[i].0.client);
    }
  }

  /** Nothing a call does touches the store, so only the answer it gives is new. */
  lemma CallKeeps(w: World, req: Request, env: Env)
    requires Inv(w) && Enabled(w, Call(req, env))
    ensures Inv(Apply(w, Call(req, env))) && Apply(w, Call(req, env)).engine.max == w.engine.max
  {
    CallKeepsFlight(w, req, env);
    AnswerIsLogged(w, req, env);
  }

  lemma MutateKeepsFlight(w: World, e: Engine, req: Request, env: Env)
    requires e.pending.NoPending? && e.clients == w.stored
    ensures FlightInv(Land(w, Mutate(e, req, env), req))
  {
  }

  lemma FreshKeepsFlight(w: World, e: Engine, req: Request, env: Env)
    requires e.pending.NoPending? && e.clients == w.stored
    ensures FlightInv(Land(w, FreshControl(e, req, env), req))
  {
    MutateKeepsFlight(w, e, req, env);
  }

  lemma CallKeepsFlight(w: World, req: Request, env: Env)
    requires FlightInv(w) && Enabled(w, Call(req, env))
    ensures FlightInv(Apply(w, Call(req, env)))
    ensures Apply(w, Call(req, env)).engine.max == w.engine.max
  {
    if w.engine.pending.NoPending? {
      FreshKeepsFlight(w, w.engine, req, env);
    } else if w.engine.pending.Reading? {
      FreshKeepsFlight(w, w.engine.(pending := NoPending), req, env);
    }
  }

  /** A successful answer to a mutation is in the log already. */
  lemma AnswerIsLogged(w: World, req: Request, env: Env)
    requires Inv(w) && Enabled(w, Call(req, env))
    ensures var called := Control(w.engine, req, env);
            called.outcome.Answer? && req.kind.Mutation? ==> Answers(w.log, (req, called.outcome.response))
  {
    assert ClientInv(w.log, w.stored, req.client);
    if w.engine.pending.NoPending? {
      ReplayIsLogged(w, w.engine, req, env);
    } else if w.engine.pending.Reading? {
      ReplayIsLogged(w, w.engine.(pending := NoPending), req, env);
    }
  }

  lemma ReplayIsLogged(w: World, e: Engine, req: Request, env: Env)
    requires StoreInv(w) && e.pending.NoPending? && e.clients == w.stored
    ensures var called := FreshControl(e, req, env);
            called.outcome.Answer? && req.kind.Mutation? ==> Answers(w.log, (req, called.outcome.response))
  {
    assert ClientInv(w.log, w.stored, req.client);
  }

  lemma CrashKeeps(w: World, committed: bool)
    requires Inv(w)
    ensures Inv(Apply(w, Crash(committed)))
  {
    if committed && w.flight.Queued? {
      CommitKeeps(w);
    }
  }

  lemma StepKeeps(w: World, ev: Event)
    requires Inv(w) && Enabled(w, ev)
    ensures Inv(Apply(w, ev)) && Apply(w, ev).engine.max == w.engine.max
  {
    match ev
    case Call(req, env) => CallKeeps(w, req, env);
    case WorkerCommits => CommitKeeps(w);
    case WorkerFails =>
    case Crash(committed) => CrashKeeps(w, committed);
  }

  lemma {:induction false} RunKeeps(w: World, events: seq<Event>)
    requires Inv(w) && Feasible(w, events)
    ensures Inv(Run(w, events)) && Run(w, events).engine.max == w.engine.max
    decreases |events|
  {
    if events != [] {
      StepKeeps(w, events[0]);
      RunKeeps(Apply(w, events[0]), events[1..]);
    }
  }

  // ------------------------------------------------------------------ main results

  /**
   * Exactly once: in every run, for every client, the transactions executed are those of sequence
   * numbers 1 to n, once each and in order, and n is the number in the stored receipt.
   */
  lemma ExactlyOnce(max: nat, events: seq<Event>, id: ClientId)
    requires Feasible(Start(max), events)
    ensures var w := Run(Start(max), events);
            var mine := LogOf(w.log, id);
            && (forall k :: 0 <= k < |mine| ==> mine[k].receipt.number == k + 1)
            && |mine| == (if id in w.stored then w.stored[id].number else 0)
            && |w.stored| <= max
  {
    RunKeeps(Start(max), events);
    assert ClientInv(Run(Start(max), events).log, Run(Start(max), events).stored, id);
  }

  /** After a durable write the sequencer always accepts the receipt. */
  lemma DurableWriteAccepted(max: nat, events: seq<Event>)
    requires Feasible(Start(max), events) && Run(Start(max), events).flight == Answered(true)
    ensures var e := Run(Start(max), events).engine;
            && e.pending.Writing?
            && ApplyCommit(e.clients, e.max, e.pending.commit.client, e.pending.commit.receipt)
               == Ok(Run(Start(max), events).stored)
  {
    RunKeeps(Start(max), events);
  }

  /**
   * One answer per command: whenever two calls with the same client and number are answered, before
   * or after any retries and crashes, the answers are byte for byte the same.
   */
  lemma SameAnswerAlways(max: nat, events: seq<Event>, i: nat, j: nat)
    requires Feasible(Start(max), events)
    requires var a := Run(Start(max), events).answers;
             i < |a| && j < |a| && a[i].0.client == a[j].0.client && a[i].0.number == a[j].0.number
    ensures Run(Start(max), events).answers[i].1 == Run(Start(max), events).answers[j].1
  {
    RunKeeps(Start(max), events);
    var w := Run(Start(max), events);
    assert Answers(w.log, w.answers[i]) && Answers(w.log, w.answers[j]);
  }

  /** The request is the last one its client has had executed. */
  predicate IsLast(stored: map<ClientId, Receipt>, req: Request) {
    req.kind.Mutation? && req.client in stored
    && stored[req.client].number == req.number && stored[req.client].digest == req.digest
  }

  /** Nothing is in the way of an answer: no record is missing, or the one asked for has come. */
  predicate Unhindered(pending: Pending, env: Env) {
    && !env.tooLong && env.parses && !env.needsRead
    && (pending.NoPending? || (pending.Reading? && env.reply.Done? && env.readUsable))
  }

  /**
   * Resending the last command, with nothing pending or while a record it needs is being read: whatever
   * the call meets it writes nothing and leaves the receipts alone; it answers if and only if nothing
   * hinders it, and then with the recorded response.
   */
  lemma ResendReplays(max: nat, events: seq<Event>, req: Request, env: Env)
    requires Feasible(Start(max), events) && IsLast(Run(Start(max), events).stored, req)
    requires var pending := Run(Start(max), events).engine.pending; pending.NoPending? || pending == Reading(req)
    ensures var w := Run(Start(max), events);
            var c := Control(w.engine, req, env);
            && c.put.None? && c.engine == w.engine.(pending := c.engine.pending)
            && (c.engine.pending.NoPending? || c.engine.pending == Reading(req))
            && (c.outcome.Answer? <==> Unhindered(w.engine.pending, env))
            && (c.outcome.Answer? ==> c.outcome.response == w.stored[req.client].response && c.engine.pending.NoPending?)
  {
    RunKeeps(Start(max), events);
  }

  /** A resend that first has to load a record: the read is started, answered, and the response replayed. */
  lemma ResendReplaysAfterRead(max: nat, events: seq<Event>, req: Request, first: Env, second: Env)
    requires Feasible(Start(max), events) && IsLast(Run(Start(max), events).stored, req)
    requires Run(Start(max), events).engine.pending.NoPending?
    requires !first.tooLong && first.parses && first.needsRead && first.accepts
    requires second.reply.Done? && second.readUsable && !second.tooLong && second.parses && !second.needsRead
    ensures var w := Run(Start(max), events);
            var asked := Apply(w, Call(req, first));
            && Control(w.engine, req, first) == Called(asked.engine, None, Refuse(StatusPending))
            && asked.stored == w.stored && asked.log == w.log && Enabled(asked, Call(req, second))
            && Control(asked.engine, req, second) == Called(w.engine, None, Answer(w.stored[req.client].response))
            && Apply(asked, Call(req, second)).stored == w.stored && Apply(asked, Call(req, second)).log == w.log
  {
    RunKeeps(Start(max), events);
  }
}
