/**
 * What a replayed Ok of a revocation is worth.  A client that resends its last order is answered from
 * the receipt alone; the record may have been deleted and added again in the meantime.
 */
module Replay {
  import opened Basics
  import opened Revocation

  // ------------------------------------------------------------------ the store is its log

  /** The credentials after a log of transactions. */
  function StoreAfter(init: map<Digest, Credential>, log: seq<Commit>): map<Digest, Credential> {
    if log == [] then init else Update(StoreAfter(init, log[..|log| - 1]), log[|log| - 1].changes)
  }

  predicate SafeLog(init: map<Digest, Credential>, log: seq<Commit>) {
    log == [] || (SafeLog(init, log[..|log| - 1])
                  && SafeChanges(log[|log| - 1].changes, StoreAfter(init, log[..|log| - 1])))
  }

  /** Receipts name transactions of the log, and a logged revocation did revoke. */
  predicate Honest(ledger: Ledger) {
    && (forall c :: c in ledger.receipts ==>
          ledger.receipts[c].at < |ledger.log| && ledger.log[ledger.receipts[c].at].order == ledger.receipts[c].order)
    && (forall k :: 0 <= k < |ledger.log| && ledger.log[k].order.request.RevokeCredential? ==>
          Revokes(ledger.log[k].changes, ledger.log[k].order.request.digest))
  }

  predicate LedgerInv(init: map<Digest, Credential>, w: World) {
    w.stored == StoreAfter(init, w.ledger.log) && SafeLog(init, w.ledger.log) && Honest(w.ledger)
  }

  lemma ExecutedLedger(init: map<Digest, Credential>, w: World)
    requires ControlInv(w) && LedgerInv(init, w) && w.control.Writing? && w.control.flight.Queued?
    ensures LedgerInv(init, Executed(w))
  {
    var log := Executed(w).ledger.log;
    assert log[..|log| - 1] == w.ledger.log;
  }

  lemma {:induction false} RunLedger(init: map<Digest, Credential>, w: World, events: seq<Event>)
    requires Inv(w) && LedgerInv(init, w) && Feasible(w, events)
    ensures Inv(Run(w, events)) && LedgerInv(init, Run(w, events))
    decreases |events|
  {
    if events != [] {
      var ev := events[0];
      StepKeeps(w, ev);
      if ev.CommitWrite? {
        ExecutedLedger(init, w);
      } else if ev.Crash? {
        if ev.committed && w.control.Writing? && w.control.flight.Queued? {
          ExecutedLedger(init, w);
        }
      } else {
        QuietStep(w, ev);
      }
      RunLedger(init, Apply(w, ev), events[1..]);
    }
  }

  predicate RevokedIn(stored: map<Digest, Credential>, d: Digest) {
    d in stored && stored[d].revoked
  }

  predicate KeptSince(log: seq<Commit>, k: nat, d: Digest) {
    forall j :: k < j < |log| ==> !Deletes(log[j].changes, d)
  }

  /** Transaction `k` revoked the digest and none after it deleted the record. */
  predicate StandsSince(log: seq<Commit>, k: nat, d: Digest) {
    k < |log| && Revokes(log[k].changes, d) && KeptSince(log, k, d)
  }

  ghost predicate StandsFrom(log: seq<Commit>, at: nat, d: Digest) {
    exists k :: at <= k && StandsSince(log, k, d)
  }

  /** A digest once revoked is revoked now exactly when some revocation since has not been deleted. */
  lemma {:induction false} RevokedIffStands(init: map<Digest, Credential>, log: seq<Commit>, at: nat, d: Digest)
    requires SafeLog(init, log) && at < |log| && Revokes(log[at].changes, d)
    ensures RevokedIn(StoreAfter(init, log), d) <==> StandsFrom(log, at, d)
    decreases |log|
  {
    var n := |log| - 1;
    var front := log[..n];
    if Revokes(log[n].changes, d) {
      assert StandsSince(log, n, d);
    } else {
      RevokedIffStands(init, front, at, d);
      if StandsFrom(front, at, d) && !Deletes(log[n].changes, d) {
        var k :| at <= k && StandsSince(front, k, d);
        assert StandsSince(log, k, d);
      }
      if StandsFrom(log, at, d) {
        var k :| at <= k && StandsSince(log, k, d);
        assert k < n && StandsSince(front, k, d);
      }
    }
  }

  // ------------------------------------------------------------------ runs built step by step

  lemma Before(w: World, ev: Event, rest: seq<Event>, d: Digest)
    requires Enabled(w, ev) && (d in w.stored ==> d in Apply(w, ev).stored)
    requires Feasible(Apply(w, ev), rest) && NeverDeletes(Apply(w, ev), rest, d)
    ensures Feasible(w, [ev] + rest) && Run(w, [ev] + rest) == Run(Apply(w, ev), rest) && NeverDeletes(w, [ev] + rest, d)
  {
    assert ([ev] + rest)[1..] == rest;
  }

  lemma {:induction false} Joined(w: World, first: seq<Event>, second: seq<Event>, d: Digest)
    requires Feasible(w, first) && Feasible(Run(w, first), second)
    ensures Feasible(w, first + second) && Run(w, first + second) == Run(Run(w, first), second)
    ensures NeverDeletes(w, first, d) && NeverDeletes(Run(w, first), second, d) ==> NeverDeletes(w, first + second, d)
    decreases |first|
  {
    if first == [] {
      assert first + second == second;
    } else {
      assert (first + second)[1..] == first[1..] + second;
      Joined(Apply(w, first[0]), first[1..], second, d);
    }
  }

  /** A session that has just been authenticated with the digest. */
  predicate Acts(w: World, id: Handle, d: Digest) {
    id in w.sessions && w.sessions[id].server && w.sessions[id].digest == Some(d) && w.sessions[id].auth.Authenticated?
  }

  /** A new session asks with the digest and its read is answered. */
  lemma Asks(w: World, d: Digest, id: Handle) returns (v: World, events: seq<Event>)
    requires TokensInv(w) && id !in w.sessions
    ensures Feasible(w, events) && NeverDeletes(w, events, d) && v == Run(w, events)
    ensures v.ledger == w.ledger && v.stored == w.stored && v.control == w.control && v.loaded == w.loaded
    ensures id in v.sessions && v.sessions[id] == Session(true, ReadingCredential(d, w.next), Some(d), [])
    ensures w.next in v.replies && v.replies[w.next] == Lookup(w.stored, d)
  {
    var e1, e2, e3 := OpenSession(id, true), SendAuth(id, d, true), ServeGet(w.next);
    var w1 := Apply(w, e1);
    var w2 := Apply(w1, e2);
    assert w2.gets[w.next] == d;
    v := Apply(w2, e3);
    Before(w2, e3, [], d);
    Before(w1, e2, [e3] + [], d);
    Before(w, e1, [e2] + ([e3] + []), d);
    events := [e1] + ([e2] + ([e3] + []));
  }

  /** With the record there and not revoked, a new session authenticates. */
  lemma Authenticates(w: World, d: Digest, id: Handle) returns (events: seq<Event>)
    requires TokensInv(w) && d in w.stored && !w.stored[d].revoked && id !in w.sessions
    ensures Feasible(w, events) && NeverDeletes(w, events, d)
    ensures var v := Run(w, events);
            && Acts(v, id, d) && v.ledger == w.ledger && v.stored == w.stored && v.control == w.control
            && v.loaded == w.loaded
  {
    var v, asked := Asks(w, d, id);
    var e4, e5 := Advance(id, NotYet, true), Advance(id, Finished, true);
    var w4 := Apply(v, e4);
    assert w4.sessions[id].auth.ReadingUser?;
    Before(w4, e5, [], d);
    Before(v, e4, [e5] + [], d);
    Joined(w, asked, [e4] + ([e5] + []), d);
    events := asked + ([e4] + ([e5] + []));
  }

  /** An order that is next in line and needs no read is carried out in three steps. */
  lemma Executes(w: World, order: Order, d: Digest) returns (events: seq<Event>)
    requires w.control.Free? && RequiredRead(order.request, w.loaded).None?
    requires Decide(w.ledger.receipts, order).Execute? && Prepare(w.cache, order.request).Some?
    ensures Feasible(w, events)
    ensures var changes := Prepare(w.cache, order.request).value;
            var v := Run(w, events);
            && v.stored == Update(w.stored, changes) && v.cache == Update(w.cache, changes)
            && v.loaded == w.loaded + changes.Keys && v.control.Free?
            && v.ledger == Recorded(w.ledger, order, changes)
            && (!Deletes(changes, d) ==> NeverDeletes(w, events, d))
  {
    var changes := Prepare(w.cache, order.request).value;
    var e1 := Administer(order, true);
    var w1 := Apply(w, e1);
    var w2 := Apply(w1, CommitWrite);
    var w3 := Apply(w2, FinishWrite);
    events := [e1] + ([CommitWrite] + [FinishWrite]);
    assert Feasible(w3, []) && NeverDeletes(w3, [], d);
    assert [FinishWrite] + [] == [FinishWrite];
    Before(w2, FinishWrite, [], d);
    assert ([CommitWrite] + [FinishWrite])[1..] == [FinishWrite];
    assert events[1..] == [CommitWrite] + [FinishWrite];
    assert Run(w, events) == w3;
    if !Deletes(changes, d) {
      Before(w1, CommitWrite, [FinishWrite], d);
      Before(w, e1, [CommitWrite] + [FinishWrite], d);
    }
  }

  /** A record the cache knows nothing of is looked up, in three steps. */
  lemma Loads(w: World, order: Order, d: Digest) returns (events: seq<Event>)
    requires TokensInv(w) && w.control.Free? && d !in w.stored && RequiredRead(order.request, w.loaded) == Some(d)
    ensures Feasible(w, events) && NeverDeletes(w, events, d)
    ensures var v := Run(w, events);
            v.control.Free? && v.stored == w.stored && v.ledger == w.ledger && v.loaded == w.loaded + {d} && v.cache == w.cache
  {
    var e1 := Administer(order, true);
    var w1 := Apply(w, e1);
    assert w1.control == Reading(d, w.next) && w1.gets[w.next] == d;
    var w2 := Apply(w1, ServeGet(w.next));
    Before(w2, FinishRead, [], d);
    Before(w1, ServeGet(w.next), [FinishRead] + [], d);
    Before(w, e1, [ServeGet(w.next)] + ([FinishRead] + []), d);
    events := [e1] + ([ServeGet(w.next)] + ([FinishRead] + []));
  }

  /** The order of a client that is executed next. */
  function NextOrder(w: World, client: ClientId, request: Request): Order {
    Order(client, if client in w.ledger.receipts then w.ledger.receipts[client].order.number + 1 else 1, request)
  }

  predicate OthersKept(before: map<ClientId, Receipt>, after: map<ClientId, Receipt>, client: ClientId) {
    && after.Keys <= before.Keys + {client}
    && forall c :: c in before && c != client ==> c in after && after[c] == before[c]
  }

  /** With the record looked up, a digest without one is added for a user. */
  lemma AddsLoaded(w: World, client: ClientId, user: UserId, d: Digest) returns (events: seq<Event>)
    requires Inv(w) && w.control.Free? && d !in w.stored && d in w.loaded
    ensures Feasible(w, events) && NeverDeletes(w, events, d)
    ensures var v := Run(w, events);
            && v.control.Free? && d in v.stored && v.stored[d] == Credential(user, false)
            && w.loaded <= v.loaded && OthersKept(w.ledger.receipts, v.ledger.receipts, client)
  {
    assert Lookup(w.cache, d) == Lookup(w.stored, d);
    events := Executes(w, NextOrder(w, client, AddCredential(user, d)), d);
  }

  lemma AddsUnder(w: World, client: ClientId, user: UserId, d: Digest) returns (events: seq<Event>)
    requires Inv(w) && w.control.Free? && d !in w.stored
    ensures Feasible(w, events) && NeverDeletes(w, events, d)
    ensures var v := Run(w, events);
            && v.control.Free? && d in v.stored && v.stored[d] == Credential(user, false) && d in v.loaded
            && w.loaded <= v.loaded && OthersKept(w.ledger.receipts, v.ledger.receipts, client)
  {
    if d in w.loaded {
      events := AddsLoaded(w, client, user, d);
    } else {
      var loading := Loads(w, NextOrder(w, client, AddCredential(user, d)), d);
      RunKeeps(w, loading);
      var adding := AddsLoaded(Run(w, loading), client, user, d);
      Joined(w, loading, adding, d);
      events := loading + adding;
    }
  }

  /** A client creates a user, whose new id is `user`, and adds the digest for it. */
  lemma Adds(w: World, client: ClientId, user: UserId, d: Digest) returns (events: seq<Event>)
    requires Inv(w) && w.control.Free? && d !in w.stored
    ensures Feasible(w, events) && NeverDeletes(w, events, d)
    ensures var v := Run(w, events);
            && v.control.Free? && d in v.stored && v.stored[d] == Credential(user, false) && d in v.loaded
            && w.loaded <= v.loaded && OthersKept(w.ledger.receipts, v.ledger.receipts, client)
  {
    var creating := Executes(w, NextOrder(w, client, OtherRequest({})), d);
    RunKeeps(w, creating);
    var v := Run(w, creating);
    assert d !in v.stored;
    var adding := AddsUnder(v, client, user, d);
    Joined(w, creating, adding, d);
    events := creating + adding;
  }

  lemma {:induction false} Above(s: set<Handle>) returns (bound: Handle)
    ensures forall x :: x in s ==> x < bound
    decreases |s|
  {
    if s == {} {
      bound := 0;
    } else {
      var x :| x in s;
      var rest := Above(s - {x});
      bound := if x < rest then rest else x + 1;
      forall y | y in s
        ensures y < bound
      {
        assert y == x || y in s - {x};
      }
    }
  }

  /** Where the digest is not revoked, it can be used again without deleting anything, by a new user if need be. */
  lemma ActsAgain(w: World, client: ClientId, user: UserId, d: Digest) returns (events: seq<Event>, id: Handle)
    requires Inv(w) && w.control.Free? && !RevokedIn(w.stored, d)
    ensures Feasible(w, events) && NeverDeletes(w, events, d)
    ensures var v := Run(w, events);
            && Acts(v, id, d) && v.control.Free? && w.loaded <= v.loaded
            && OthersKept(w.ledger.receipts, v.ledger.receipts, client)
  {
    var adding: seq<Event> := [];
    if d !in w.stored {
      adding := Adds(w, client, user, d);
    }
    RunKeeps(w, adding);
    var v := Run(w, adding);
    id := Above(v.sessions.Keys);
    var entering := Authenticates(v, d, id);
    Joined(w, adding, entering, d);
    events := adding + entering;
  }

  // ------------------------------------------------------------------ main results

  lemma LastingNeedsRevoked(w: World, client: ClientId, user: UserId, d: Digest)
    requires Inv(w) && w.control.Free? && Lasting(w, d)
    ensures RevokedIn(w.stored, d)
  {
    if !RevokedIn(w.stored, d) {
      var events, id := ActsAgain(w, client, user, d);
      assert !ShutOut(Run(w, events), d);
    }
  }

  /**
   * The replayed Ok of a revocation is final if and only if the digest is revoked in the store at that
   * moment, which is so if and only if some revocation of it, the replayed one or a later one, has not
   * been followed by a deletion.
   */
  lemma ReplayIsFinalIff(stored: map<Digest, Credential>, before: seq<Event>, order: Order, d: Digest)
    requires Feasible(Start(stored), before) && order.request == RevokeCredential(d)
    requires Replays(Run(Start(stored), before), order)
    ensures var w := Run(Start(stored), before);
            && (Lasting(w, d) <==> RevokedIn(w.stored, d))
            && (Lasting(w, d) <==> StandsFrom(w.ledger.log, w.ledger.receipts[order.client].at, d))
  {
    RunLedger(stored, Start(stored), before);
    var w := Run(Start(stored), before);
    var at := w.ledger.receipts[order.client].at;
    assert Revokes(w.ledger.log[at].changes, d);
    RevokedIffStands(stored, w.ledger.log, at, d);
    if RevokedIn(w.stored, d) {
      BarredIsLasting(w, d);
    }
    if Lasting(w, d) {
      var user: UserId :| true;
      LastingNeedsRevoked(w, order.client, user, d);
    }
  }

  /** In particular it is final when nothing has deleted the record since the receipt was written. */
  lemma ReplayIsFinalUntilDeleted(stored: map<Digest, Credential>, before: seq<Event>, order: Order, d: Digest)
    requires Feasible(Start(stored), before) && order.request == RevokeCredential(d)
    requires Replays(Run(Start(stored), before), order)
    requires var ledger := Run(Start(stored), before).ledger;
             KeptSince(ledger.log, ledger.receipts[order.client].at, d)
    ensures Lasting(Run(Start(stored), before), d)
  {
    RunLedger(stored, Start(stored), before);
    var w := Run(Start(stored), before);
    assert StandsSince(w.ledger.log, w.ledger.receipts[order.client].at, d);
    ReplayIsFinalIff(stored, before, order, d);
  }

  // ------------------------------------------------------------------ a replayed Ok that is not final

  /** From an empty store: one client creates a user and adds its digest, and another revokes that. */
  lemma AddedAndRevoked(alice: UserId, d: Digest) returns (events: seq<Event>)
    ensures Feasible(Start(map[]), events)
    ensures var v := Run(Start(map[]), events);
            && v.control.Free? && d in v.loaded && d in v.cache && v.cache[d].user == alice
            && "a" in v.ledger.receipts && v.ledger.receipts["a"].order == Order("a", 1, RevokeCredential(d))
  {
    var start := Start(map[]);
    var adding := Adds(start, "b", alice, d);
    RunKeeps(start, adding);
    var w := Run(start, adding);
    assert Lookup(w.cache, d) == Lookup(w.stored, d);
    var revoking := Executes(w, Order("a", 1, RevokeCredential(d)), d);
    Joined(start, adding, revoking, d);
    events := adding + revoking;
  }

  lemma DeletedAgain(w: World, alice: UserId, d: Digest) returns (events: seq<Event>)
    requires Inv(w) && w.control.Free? && d in w.cache && w.cache[d].user == alice
    ensures Feasible(w, events)
    ensures var v := Run(w, events);
            && v.control.Free? && d !in v.stored && w.loaded <= v.loaded
            && OthersKept(w.ledger.receipts, v.ledger.receipts, "b")
  {
    events := Executes(w, NextOrder(w, "b", DeleteUser(alice)), d);
  }

  /** The user is deleted, another one created and given the credential, and a session authenticates with it. */
  lemma UsedAgain(w: World, alice: UserId, bob: UserId, d: Digest) returns (events: seq<Event>, id: Handle)
    requires Inv(w) && w.control.Free? && d in w.cache && w.cache[d].user == alice
    ensures Feasible(w, events)
    ensures var v := Run(w, events);
            && v.control.Free? && Acts(v, id, d) && w.loaded <= v.loaded && d in v.stored && v.stored[d].user == bob
            && OthersKept(w.ledger.receipts, v.ledger.receipts, "b")
  {
    var deleting := DeletedAgain(w, alice, d);
    RunKeeps(w, deleting);
    var v := Run(w, deleting);
    var adding := Adds(v, "b", bob, d);
    RunKeeps(v, adding);
    var u := Run(v, adding);
    id := Above(u.sessions.Keys);
    var entering := Authenticates(u, d, id);
    Joined(v, adding, entering, d);
    Joined(w, deleting, adding + entering, d);
    events := deleting + (adding + entering);
  }

  /**
   * Revoke the credential of one user, delete that user, add the credential for another, authenticate:
   * the first client's resent revocation is then answered Ok while a session acts under the digest.
   */
  lemma ReplayMayMislead(alice: UserId, bob: UserId, d: Digest) returns (before: seq<Event>, order: Order, id: Handle)
    requires alice != bob
    ensures Feasible(Start(map[]), before) && order == Order("a", 1, RevokeCredential(d))
    ensures var w := Run(Start(map[]), before);
            Replays(w, order) && Acts(w, id, d) && !ShutOut(w, d) && d in w.stored && w.stored[d].user == bob
  {
    order := Order("a", 1, RevokeCredential(d));
    var revoked := AddedAndRevoked(alice, d);
    RunKeeps(Start(map[]), revoked);
    var again;
    again, id := UsedAgain(Run(Start(map[]), revoked), alice, bob, d);
    Joined(Start(map[]), revoked, again, d);
    before := revoked + again;
  }
}
