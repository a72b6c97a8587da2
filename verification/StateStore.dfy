/** The durable event queue as an object whose methods update its tables. Each
    method runs in one transaction and reads the clock once; its effect is the
    transition of LeaseStore.dfy, whose guarantees over runs are in Fencing.dfy. */
module StateStore {
  import opened Labels
  import opened Records
  import Spec = LeaseStore

  class Store {
    var events: map<DeliveryId, Spec.Event>
    var claims: map<OpKey, Spec.Claim>
    var minted: nat

    function Db(): Spec.Db reads this { Spec.Db(events, claims, minted) }

    constructor ()
      ensures Db() == Spec.EMPTY_DB
    {
      events, claims, minted := map[], map[], 0;
    }

    predicate Live(d: DeliveryId, l: Lease, now: Time)
      reads this
      ensures Live(d, l, now) == Spec.Live(Db(), d, l, now)
    {
      && d in events
      && var e := events[d];
         e.status == Spec.InFlight && e.lease == Some(l) && e.expires.Some? && now < e.expires.value
    }

    method Mint(source: MintedBy) returns (l: Lease)
      modifies `minted
      ensures l == Lease(old(minted), source) && minted == old(minted) + 1
    {
      l := Lease(minted, source);
      minted := minted + 1;
    }

    /* ---- Native queue ---- */

    method RecoverInterrupted(now: Time)
      modifies `events
      ensures Db() == Spec.RecoverInterrupted(old(Db()), now)
    {
      var pending := events.Keys;
      var swept := events;
      while pending != {}
        invariant pending <= events.Keys && events == old(events)
        invariant swept.Keys == events.Keys
        invariant forall d :: d in events ==>
          swept[d] == if d !in pending && Spec.Abandoned(events[d], now)
                      then Spec.Released(events[d]) else events[d]
        decreases |pending|
      {
        var d :| d in pending;
        pending := pending - {d};
        var e := events[d];
        if e.status == Spec.InFlight && e.payload.NativePayload?
           && (e.expires.None? || e.expires.value <= now)
        {
          swept := swept[d := e.(status := Spec.Retrying, lease := None, expires := None, nextRetry := None)];
        }
      }
      events := swept;
    }

    method Enqueue(id: string, name: string, body: string, now: Time) returns (added: bool)
      modifies `events
      ensures (Db(), added) == Spec.Enqueue(old(Db()), id, name, body, now)
    {
      var d := Webhook(id);
      added := d !in events;
      if added {
        events := events[d := Spec.Event(Spec.NativePayload(name, body), Spec.Queued, 0, now, None, None, None, None)];
      }
    }

    /** ORDER BY created_at LIMIT 1 over the rows that may start now. */
    method OldestEligible(now: Time) returns (found: Option<DeliveryId>)
      ensures found.Some? ==> Spec.Oldest(Db(), now, found.value)
      ensures found.None? ==> forall d :: d in events ==> !Spec.Eligible(events[d], now)
    {
      found := None;
      var pending := events.Keys;
      while pending != {}
        invariant pending <= events.Keys
        invariant found.Some? ==> found.value in events && Spec.Eligible(events[found.value], now)
        invariant forall d :: d in events && d !in pending && Spec.Eligible(events[d], now) ==>
          found.Some? && events[found.value].createdAt <= events[d].createdAt
        decreases |pending|
      {
        var d :| d in pending;
        pending := pending - {d};
        if Spec.Eligible(events[d], now)
           && (found.None? || events[d].createdAt < events[found.value].createdAt)
        {
          found := Some(d);
        }
      }
    }

    method ClaimNext(now: Time) returns (claim: Option<Spec.Claim>)
      modifies this
      ensures claim.Some? ==> (Db(), claim) == Spec.ClaimNext(old(Db()), claim.value.delivery, now)
      ensures claim.None? ==> Db() == Spec.RecoverInterrupted(old(Db()), now)
      ensures claim.None? ==> forall d :: d in events ==> !Spec.Eligible(events[d], now)
    {
      RecoverInterrupted(now);
      var row := OldestEligible(now);
      if row.None? {
        return None;
      }
      var l := Mint(NativeClaim);
      var e := events[row.value];
      events := events[row.value := e.(status := Spec.InFlight, attempts := e.attempts + 1,
                                       lease := Some(l), expires := Some(now + Spec.LEASE_SECONDS))];
      claim := Some(Spec.Claim(row.value, l));
    }

    /* ---- Leases ---- */

    method Heartbeat(d: DeliveryId, l: Lease, now: Time) returns (renewed: bool)
      modifies `events
      ensures (Db(), renewed) == Spec.Heartbeat(old(Db()), d, l, now)
    {
      renewed := Live(d, l, now);
      if renewed {
        events := events[d := events[d].(expires := Some(now + Spec.LEASE_SECONDS))];
      }
    }

    method AssertLease(d: DeliveryId, l: Lease, now: Time) returns (r: Spec.Reply<()>)
      ensures r == if Spec.Live(Db(), d, l, now) then Spec.Ok(()) else Spec.Raised(Spec.WORKER_LEASE_LOST)
    {
      if !Live(d, l, now) {
        return Spec.Raised(Spec.WORKER_LEASE_LOST);
      }
      r := Spec.Ok(());
    }

    method WriteCheckpoint(d: DeliveryId, cp: Checkpoint, held: Option<Lease>, now: Time) returns (r: Spec.Reply<()>)
      modifies `events
      ensures (Db(), r) == Spec.WriteCheckpoint(old(Db()), d, cp, held, now)
    {
      if d !in events || events[d].status != Spec.InFlight || (held.Some? && !Live(d, held.value, now)) {
        return Spec.Raised(Spec.WORKER_LEASE_LOST);
      }
      events := events[d := events[d].(checkpoint := Some(cp))];
      r := Spec.Ok(());
    }

    method Finish(d: DeliveryId, how: Spec.Closing, held: Option<Lease>, now: Time) returns (closed: bool)
      modifies `events
      ensures (Db(), closed) == Spec.Finish(old(Db()), d, how, held, now)
    {
      if d !in events || (held.Some? && !Live(d, held.value, now)) {
        return false;
      }
      var e := events[d].(lease := None, expires := None);
      match how {
        case Close(outcome) =>
          e := e.(status := Spec.Ended(outcome), nextRetry := None);
        case Again =>
          var attempt := if e.attempts > 0 then e.attempts - 1 else 0;
          var delay := Spec.RETRY_DELAYS[if attempt < 4 then attempt else 4];
          e := e.(status := Spec.Retrying, nextRetry := Some(now + delay));
      }
      events := events[d := e];
      closed := true;
    }

    /* ---- Operation claims ---- */

    method AssertOperation(k: OpKey, d: DeliveryId, l: Lease, now: Time) returns (r: Spec.Reply<()>)
      ensures r == if Spec.Owns(Db(), k, d, l, now) then Spec.Ok(())
                   else Spec.Raised(Spec.WORKER_OPERATION_LEASE_LOST)
    {
      if k in claims && claims[k] == Spec.Claim(d, l) && Live(d, l, now) {
        return Spec.Ok(());
      }
      r := Spec.Raised(Spec.WORKER_OPERATION_LEASE_LOST);
    }

    method ClaimOperation(k: OpKey, d: DeliveryId, l: Lease, now: Time) returns (r: Spec.Reply<bool>)
      modifies `claims
      ensures (Db(), r) == Spec.ClaimOperation(old(Db()), k, d, l, now)
    {
      if !Live(d, l, now) {
        return Spec.Raised(Spec.WORKER_LEASE_LOST);
      }
      if k in claims {
        var row := claims[k];
        if Live(row.delivery, row.lease, now) {
          return Spec.Ok(row.delivery == d && row.lease == l);
        }
      }
      claims := claims[k := Spec.Claim(d, l)];
      r := Spec.Ok(true);
    }

    method ClaimExternal(b: Binding, worker: string, request: string, now: Time) returns (r: Spec.Reply<Lease>)
      modifies this
      ensures (Db(), r) == Spec.ClaimExternal(old(Db()), b, worker, request, now)
    {
      var d := External(worker, request);
      var k := b.operationKey;
      var active := k in claims && Live(claims[k].delivery, claims[k].lease, now);
      if d in events {
        var e := events[d];
        if e.payload != Spec.ExternalPayload(b, worker) {
          return Spec.Raised(Spec.CLAIM_REQUEST_REUSED);
        }
        if e.status != Spec.InFlight || e.expires.None? || e.expires.value <= now || !active
           || claims[k].delivery != d || Some(claims[k].lease) != e.lease
        {
          return Spec.Raised(Spec.WORKER_LEASE_LOST);
        }
        return Spec.Ok(claims[k].lease);
      }
      if active {
        return Spec.Raised(Spec.ANOTHER_WORKER_OWNS_LEASE);
      }
      var l := Mint(ExternalClaim);
      events := events[d := Spec.Event(Spec.ExternalPayload(b, worker), Spec.InFlight, 1, now, None,
                                       Some(l), Some(now + Spec.LEASE_SECONDS), None)];
      claims := claims[k := Spec.Claim(d, l)];
      r := Spec.Ok(l);
    }

    method MoveExternalHead(d: DeliveryId, l: Lease, from: Sha, to: Sha, cp: Checkpoint, now: Time)
      returns (r: Spec.Reply<()>)
      modifies `events, `claims
      ensures (Db(), r) == Spec.MoveExternalHead(old(Db()), d, l, from, to, cp, now)
    {
      if !Live(d, l, now) || !events[d].payload.ExternalPayload? {
        return Spec.Raised(Spec.WORKER_LEASE_LOST);
      }
      var e := events[d];
      var b := e.payload.binding;
      if b.sha != from {
        if Spec.AlreadyMoved(e, from, to) {
          return Spec.Ok(());
        }
        return Spec.Raised(Spec.HEAD_CHANGED);
      }
      var k := Operation(b.repo, b.pr, to, b.phase);
      if k in claims && Live(claims[k].delivery, claims[k].lease, now) && claims[k] != Spec.Claim(d, l) {
        return Spec.Raised(Spec.ANOTHER_WORKER_OWNS_LEASE);
      }
      claims := claims[k := Spec.Claim(d, l)];
      events := events[d := e.(payload := e.payload.(binding := b.(sha := to, operationKey := k)),
                               checkpoint := Some(cp))];
      r := Spec.Ok(());
    }

    /** Compare-and-set on the expired lease; hands out no operation key. */
    method ReclaimExternal(d: DeliveryId, stale: Lease, now: Time) returns (l: Option<Lease>)
      modifies this
      ensures (Db(), l) == Spec.ReclaimExternal(old(Db()), d, stale, now)
    {
      if d !in events {
        return None;
      }
      var e := events[d];
      if !e.payload.ExternalPayload? || e.status != Spec.InFlight || e.lease != Some(stale)
         || e.expires.None? || now < e.expires.value
      {
        return None;
      }
      var minted := Mint(Reconciliation);
      events := events[d := e.(payload := e.payload.(worker := Spec.RECONCILER),
                               lease := Some(minted), expires := Some(now + Spec.LEASE_SECONDS))];
      l := Some(minted);
    }
  }
}
