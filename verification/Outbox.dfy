/** At-least-once consumption of the outbox under short leases, and checkpoints that only move forward. */
module Outbox {
  import opened Domain
  import opened Tables
  import opened Repository

  /** What a worker holds after a claim committed. */
  datatype ClaimedChange = ClaimedChange(event: Uuid, consumer: string, token: Uuid)

  function EventsOf(claims: seq<ClaimedChange>): (rows: seq<Uuid>)
    ensures |rows| == |claims| && forall i :: 0 <= i < |rows| ==> rows[i] == claims[i].event
  {
    seq(|claims|, i requires 0 <= i < |claims| => claims[i].event)
  }

  predicate Done(e: Event) {
    e.processedAt.Some? || e.deadLetteredAt.Some?
  }

  predicate Before(events: map<Uuid, Event>, d: Uuid, e: Uuid)
    requires d in events && e in events
  {
    || events[d].version < events[e].version
    || (events[d].version == events[e].version
        && (events[d].occurredAt < events[e].occurredAt || (events[d].occurredAt == events[e].occurredAt && d < e)))
  }

  predicate Claimable(events: map<Uuid, Event>, e: Uuid, now: Time) {
    && e in events
    && !Done(events[e])
    && events[e].availableAt <= now
    && (events[e].lease.Some? ==> events[e].lease.value.until < now)
    && !exists d <- events :: events[d].fact == events[e].fact && !Done(events[d]) && Before(events, d, e)
  }

  function LeaseAll(events: map<Uuid, Event>, chosen: set<Uuid>, lease: Lease): map<Uuid, Event> {
    map e <- events ::
      if e in chosen then events[e].(lease := Some(lease), attempts := events[e].attempts + 1) else events[e]
  }

  function AckAll(events: map<Uuid, Event>, owned: set<Uuid>, now: Time): map<Uuid, Event> {
    map e <- events :: if e in owned then Acked(events[e], now) else events[e]
  }

  /** The fence: only the latest claim of an unfinished event owns it. */
  predicate Owns(events: map<Uuid, Event>, c: ClaimedChange) {
    && c.event in events
    && events[c.event].lease.Some?
    && events[c.event].lease.value.owner == c.consumer
    && events[c.event].lease.value.token == c.token
  }

  function Acked(e: Event, now: Time): Event {
    e.(processedAt := Some(now), lease := None)
  }

  function Failed(e: Event, retryAt: Time, now: Time, maxAttempts: nat): Event {
    e.(availableAt := retryAt, lease := None, deadLetteredAt := if e.attempts >= maxAttempts then Some(now) else None)
  }

  function Renewed(e: Event, until: Time): Event
    requires e.lease.Some?
  {
    e.(lease := Some(e.lease.value.(until := until)))
  }

  // ---- the order rows are returned in -----------------------------------------------------

  predicate Earlier(events: map<Uuid, Event>, d: Uuid, e: Uuid)
    requires d in events && e in events
  {
    events[d].occurredAt < events[e].occurredAt || (events[d].occurredAt == events[e].occurredAt && d < e)
  }

  ghost predicate InOrder(events: map<Uuid, Event>, rows: seq<Uuid>)
    requires forall e <- rows :: e in events
  {
    forall i, j :: 0 <= i < j < |rows| ==> Earlier(events, rows[i], rows[j])
  }

  /** The rows are the first ones, up to the limit, of the candidates in order. */
  ghost predicate FirstRows(events: map<Uuid, Event>, candidates: set<Uuid>, limit: nat, rows: seq<Uuid>)
    requires candidates <= events.Keys
  {
    && (forall e <- rows :: e in candidates)
    && InOrder(events, rows)
    && |rows| <= limit
    && (forall c <- candidates :: c !in rows ==> |rows| == limit && forall e <- rows :: Earlier(events, e, c))
  }

  method Earliest(events: map<Uuid, Event>, candidates: set<Uuid>) returns (first: Uuid)
    requires candidates != {} && candidates <= events.Keys
    ensures first in candidates
    ensures forall c <- candidates :: c == first || Earlier(events, first, c)
  {
    first :| first in candidates;
    var rest := candidates - {first};
    while rest != {}
      invariant rest <= candidates && first in candidates && first !in rest
      invariant forall c <- candidates :: c in rest || c == first || Earlier(events, first, c)
      decreases |rest|
    {
      var c :| c in rest;
      rest := rest - {c};
      if Earlier(events, c, first) {
        first := c;
      }
    }
  }

  method SelectRows(events: map<Uuid, Event>, candidates: set<Uuid>, limit: nat) returns (rows: seq<Uuid>)
    requires candidates <= events.Keys
    ensures FirstRows(events, candidates, limit, rows)
  {
    rows := [];
    var rest := candidates;
    while rest != {} && |rows| < limit
      invariant rest <= candidates && |rows| <= limit
      invariant forall e <- rows :: e in candidates
      invariant forall c <- candidates :: c in rest <==> c !in rows
      invariant InOrder(events, rows)
      invariant forall c <- rest, e <- rows :: Earlier(events, e, c)
      decreases |rest|
    {
      var first := Earliest(events, rest);
      rows := rows + [first];
      rest := rest - {first};
    }
  }

  // ---- the change feed --------------------------------------------------------------------

  /** An event by its columns alone: unfinished, due, and under no lease that still runs. */
  ghost predicate IsDue(v: Event, now: Time) {
    && v.processedAt == None && v.deadLetteredAt == None && v.availableAt <= now
    && (v.lease == None || v.lease.value.until < now)
  }

  /** An event of the same fact, finished or not, that comes before e. */
  ghost predicate ComesFirst(events: map<Uuid, Event>, d: Uuid, e: Uuid)
    requires d in events && e in events
  {
    && events[d].fact == events[e].fact && d != e
    && (events[d].version < events[e].version
        || (events[d].version == events[e].version
            && (events[d].occurredAt < events[e].occurredAt || (events[d].occurredAt == events[e].occurredAt && d < e))))
  }

  ghost predicate IsOpen(v: Event) {
    v.processedAt == None && v.deadLetteredAt == None
  }

  ghost predicate Older(events: map<Uuid, Event>, d: Uuid, e: Uuid) {
    && d in events && e in events
    && (events[d].occurredAt < events[e].occurredAt || (events[d].occurredAt == events[e].occurredAt && d < e))
  }

  /** The event may be given out: it is due, and nothing unfinished comes before it. */
  ghost predicate IsNext(events: map<Uuid, Event>, e: Uuid, now: Time) {
    e in events && IsDue(events[e], now) && forall d <- events :: ComesFirst(events, d, e) ==> !IsOpen(events[d])
  }

  /** What a claim may return, read off the columns: events that are next and not locked, oldest first, and none of
      these is passed over unless the batch is full of older ones. */
  ghost predicate ClaimedRightly(events: map<Uuid, Event>, lockedRows: set<Uuid>, limit: int, now: Time, rows: seq<Uuid>) {
    && |rows| <= limit
    && (forall e <- rows :: IsNext(events, e, now) && e !in lockedRows)
    && (forall i, j :: 0 <= i < j < |rows| ==> Older(events, rows[i], rows[j]))
    && (forall e <- events :: IsNext(events, e, now) && e !in lockedRows && e !in rows ==>
                                |rows| == limit && forall d <- rows :: Older(events, d, e))
  }

  /** How the columns of a claimed event change. */
  ghost predicate LeasedTo(events: map<Uuid, Event>, after: map<Uuid, Event>, rows: seq<Uuid>, consumer: string, token: Uuid, until: Time) {
    && after.Keys == events.Keys
    && forall e <- events :: after[e] == if e in rows then events[e].(lease := Some(Lease(consumer, token, until)), attempts := events[e].attempts + 1)
                                         else events[e]
  }

  lemma ClaimableExactly(events: map<Uuid, Event>, e: Uuid, now: Time)
    requires e in events
    ensures Claimable(events, e, now) <==> IsNext(events, e, now)
  {
    assert forall d <- events :: events[d].fact == events[e].fact && Before(events, d, e) <==> ComesFirst(events, d, e);
  }

  /** The rows of a claim are right. */
  lemma ClaimIsRight(events: map<Uuid, Event>, lockedRows: set<Uuid>, limit: nat, now: Time, rows: seq<Uuid>)
    requires FirstRows(events, (set e <- events | Claimable(events, e, now) && e !in lockedRows), limit, rows)
    ensures ClaimedRightly(events, lockedRows, limit, now, rows)
  {
    forall e <- events ensures Claimable(events, e, now) <==> IsNext(events, e, now) {
      ClaimableExactly(events, e, now);
    }
    var candidates := set e <- events | Claimable(events, e, now) && e !in lockedRows;
    assert FirstRows(events, candidates, limit, rows);
    hide Claimable, IsNext;
    assert forall e :: e in candidates <==> e in events && IsNext(events, e, now) && e !in lockedRows;
    forall i, j | 0 <= i < j < |rows| ensures Older(events, rows[i], rows[j]) {
      assert Earlier(events, rows[i], rows[j]);
    }
    forall e <- candidates | e !in rows ensures |rows| == limit && forall d <- rows :: Older(events, d, e) {
      forall d <- rows ensures Older(events, d, e) {
        assert Earlier(events, d, e);
      }
    }
  }

  lemma LeasedToAll(events: map<Uuid, Event>, rows: seq<Uuid>, consumer: string, token: Uuid, until: Time)
    ensures LeasedTo(events, LeaseAll(events, (set e <- rows), Lease(consumer, token, until)), rows, consumer, token, until)
    ensures rows == [] ==> LeaseAll(events, (set e <- rows), Lease(consumer, token, until)) == events
  {
  }

  /** The lease of the event was given to this claim. */
  ghost predicate IsLeasedTo(v: Event, c: ClaimedChange) {
    exists until :: v.lease == Some(Lease(c.consumer, c.token, until))
  }

  lemma OwnsExactly(events: map<Uuid, Event>, c: ClaimedChange)
    ensures Owns(events, c) <==> c.event in events && IsLeasedTo(events[c.event], c)
  {
    if Owns(events, c) {
      var lease := events[c.event].lease.value;
      assert lease == Lease(c.consumer, c.token, lease.until);
    }
  }

  /** Every claim holds its event, and no two name the same one. */
  ghost predicate HoldAll(events: map<Uuid, Event>, claims: seq<ClaimedChange>) {
    && (forall c <- claims :: c.event in events && IsLeasedTo(events[c.event], c))
    && (forall i, j :: 0 <= i < j < |claims| ==> claims[i].event != claims[j].event)
  }

  ghost function OwnedOf(events: map<Uuid, Event>, claims: seq<ClaimedChange>): set<Uuid> {
    set c <- claims | Owns(events, c) :: c.event
  }

  lemma OwnedMore(events: map<Uuid, Event>, claims: seq<ClaimedChange>, c: ClaimedChange)
    ensures OwnedOf(events, claims + [c]) == OwnedOf(events, claims) + if Owns(events, c) then {c.event} else {}
  {
    hide Owns;
    assert forall d :: d in claims + [c] <==> d in claims || d == c;
  }

  lemma HoldAllMore(events: map<Uuid, Event>, claims: seq<ClaimedChange>, c: ClaimedChange)
    ensures HoldAll(events, claims + [c]) <==>
              HoldAll(events, claims) && c.event in events && IsLeasedTo(events[c.event], c) && forall d <- claims :: d.event != c.event
  {
    hide IsLeasedTo;
    var all, n := claims + [c], |claims|;
    assert forall d :: d in all <==> d in claims || d == c;
    assert all[n] == c && forall i :: 0 <= i < n ==> all[i] == claims[i];
  }

  /** As many events are owned as there are claims exactly when each claim holds one of its own. */
  lemma {:induction false} AllHeldExactly(events: map<Uuid, Event>, claims: seq<ClaimedChange>)
    ensures |OwnedOf(events, claims)| <= |claims|
    ensures |OwnedOf(events, claims)| == |claims| <==> HoldAll(events, claims)
    ensures HoldAll(events, claims) ==> OwnedOf(events, claims) == set c <- claims :: c.event
  {
    if claims != [] {
      var n := |claims| - 1;
      AllHeldExactly(events, claims[..n]);
      OwnsExactly(events, claims[n]);
      OwnedMore(events, claims[..n], claims[n]);
      HoldAllMore(events, claims[..n], claims[n]);
      assert claims == claims[..n] + [claims[n]];
      hide Owns, IsLeasedTo, HoldAll, OwnedOf;
    }
  }

  class ChangeFeed {
    const database: Database
    const maxAttempts: nat

    constructor (database: Database, maxAttempts: nat)
      ensures this.database == database && this.maxAttempts == maxAttempts
    {
      this.database, this.maxAttempts := database, maxAttempts;
    }

    /** Leases the first claimable events no other transaction has locked, all under one fresh token. */
    method Claim(consumer: string, limit: int, leaseUntil: Time, now: Time, lockedRows: set<Uuid>)
      returns (r: Result<seq<ClaimedChange>>)
      modifies database
      ensures r.Err? <==> limit < 1 || leaseUntil <= now
      ensures r.Err? || r.value == [] ==> database.Snapshot() == old(database.Snapshot())
      ensures r.Ok? ==>
                var events, token := old(database.events), old(database.uuids);
                var candidates := set e <- events | Claimable(events, e, now) && e !in lockedRows;
                var rows := EventsOf(r.value);
                && FirstRows(events, candidates, limit, rows)
                && (forall c <- r.value :: c == ClaimedChange(c.event, consumer, token))
                && (rows != [] ==> database.Snapshot() == old(database.Snapshot()).(
                      events := LeaseAll(events, (set e <- rows), Lease(consumer, token, leaseUntil)), uuids := token + 1))
      ensures r.Ok? ==> ClaimedRightly(old(database.events), lockedRows, limit, now, EventsOf(r.value))
      ensures r.Ok? ==> LeasedTo(old(database.events), database.events, EventsOf(r.value), consumer, old(database.uuids), leaseUntil)
    {
      if limit < 1 || leaseUntil <= now {
        return Err(ValueError);
      }
      var events := database.events;
      var candidates := set e <- events | Claimable(events, e, now) && e !in lockedRows;
      var rows := SelectRows(events, candidates, limit);
      ClaimIsRight(events, lockedRows, limit, now, rows);
      LeasedToAll(events, rows, consumer, database.uuids, leaseUntil);
      hide Claimable, FirstRows, ClaimedRightly, LeasedTo;
      if rows == [] {
        r := Ok([]);
        assert EventsOf(r.value) == rows;
        return;
      }
      var token := database.FreshUuid();
      database.events := LeaseAll(database.events, (set e <- rows), Lease(consumer, token, leaseUntil));
      r := Ok(seq(|rows|, i requires 0 <= i < |rows| => ClaimedChange(rows[i], consumer, token)));
      assert EventsOf(r.value) == rows;
    }

    /** Finishes every claim or none: a single lost lease fails the whole call. */
    method Ack(claims: seq<ClaimedChange>, now: Time) returns (ok: bool)
      modifies database
      ensures var events := old(database.events);
              var owned := set c <- claims | Owns(events, c) :: c.event;
              && ok == (|owned| == |claims|)
              && database.Snapshot() == if !ok then old(database.Snapshot()) else old(database.Snapshot()).(
                events := AckAll(events, owned, now))
      ensures ok <==> HoldAll(old(database.events), claims)
      ensures database.events == map e <- old(database.events) ::
                                   if ok && exists c <- claims :: c.event == e
                                   then old(database.events)[e].(processedAt := Some(now), lease := None) else old(database.events)[e]
    {
      var events := database.events;
      AllHeldExactly(events, claims);
      assert OwnedOf(events, claims) == set c <- claims | Owns(events, c) :: c.event;
      hide Owns, HoldAll;
      var owned := set c <- claims | Owns(events, c) :: c.event;
      if claims == [] {
        assert owned == {} && AckAll(events, {}, now) == events;
        return true;
      }
      var before := database.Snapshot();
      database.events := AckAll(events, owned, now);
      if |owned| != |claims| {
        database.Rollback(before);
        return false;
      }
      return true;
    }

    method Renew(c: ClaimedChange, leaseUntil: Time, now: Time) returns (ok: bool)
      modifies database
      ensures var events := old(database.events);
              && ok == (leaseUntil > now && Owns(events, c) && !Done(events[c.event]))
              && database.Snapshot() == if !ok then old(database.Snapshot()) else old(database.Snapshot()).(
                events := events[c.event := Renewed(events[c.event], leaseUntil)])
      ensures ok <==> leaseUntil > now && c.event in old(database.events) && IsLeasedTo(old(database.events)[c.event], c)
                      && IsOpen(old(database.events)[c.event])
      ensures ok ==> database.events == old(database.events)[
                c.event := old(database.events)[c.event].(lease := Some(Lease(c.consumer, c.token, leaseUntil)))]
    {
      OwnsExactly(database.events, c);
      if leaseUntil <= now {
        return false;
      }
      if !Owns(database.events, c) || Done(database.events[c.event]) {
        return false;
      }
      database.events := database.events[c.event := Renewed(database.events[c.event], leaseUntil)];
      return true;
    }

    /** Releases the event for a later retry, or dead-letters it once its attempts are used up. */
    method Fail(c: ClaimedChange, retryAt: Time, now: Time) returns (ok: bool)
      modifies database
      ensures var events := old(database.events);
              && ok == Owns(events, c)
              && database.Snapshot() == if !ok then old(database.Snapshot()) else old(database.Snapshot()).(
                events := events[c.event := Failed(events[c.event], retryAt, now, maxAttempts)])
      ensures ok <==> c.event in old(database.events) && IsLeasedTo(old(database.events)[c.event], c)
      ensures ok ==> var e := old(database.events)[c.event];
                     database.events == old(database.events)[c.event := Event(
                       e.fact, e.version, e.op, e.occurredAt, retryAt, e.attempts, None, e.processedAt,
                       if e.attempts < maxAttempts then None else Some(now))]
    {
      OwnsExactly(database.events, c);
      if !Owns(database.events, c) {
        return false;
      }
      database.events := database.events[c.event := Failed(database.events[c.event], retryAt, now, maxAttempts)];
      return true;
    }
  }
}
