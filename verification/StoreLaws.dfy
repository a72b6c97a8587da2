/** What the methods of the state store do, said without their bodies: when a
    call is granted, what it leaves alone, and how a lease can end. */
module StoreLaws {
  import opened Labels
  import opened Records
  import opened LeaseStore
  import opened Fencing

  /* ---- A lease ends by expiry or by its own finish ---- */

  predicate Finishes(c: Call, d: DeliveryId) { c.FinishCall? && c.d == d }

  predicate NeverFinished(trace: Trace, d: DeliveryId) {
    forall i :: 0 <= i < |trace| ==> !Finishes(trace[i].call, d)
  }

  /** No call, whoever makes it, ends or shortens a live lease but a finish of
      its own event. */
  lemma StepKeepsLive(db: Db, c: Call, d: DeliveryId, l: Lease, t: Time)
    requires Live(db, d, l, t) && !Finishes(c, d)
    ensures Live(Apply(db, c, t), d, l, t)
    ensures var e := db.events[d].expires.value;
      Apply(db, c, t).events[d].expires == Some(e) || Apply(db, c, t).events[d].expires == Some(t + LEASE_SECONDS)
  {
  }

  /** A lease that is live now stays live until the expiry it has now, in every
      run in which its own event is not finished. */
  lemma {:induction false} LeaseLastsUntilExpiry(db: Db, t: Time, trace: Trace, d: DeliveryId, l: Lease)
    requires Live(db, d, l, t) && db.events[d].expires.value <= t + LEASE_SECONDS
    requires Chronological(t, trace) && NeverFinished(trace, d)
    requires ClockAfter(t, trace) < db.events[d].expires.value
    ensures Live(Exec(db, trace), d, l, ClockAfter(t, trace))
    ensures db.events[d].expires.value <= Exec(db, trace).events[d].expires.value
    decreases |trace|
  {
    if trace != [] {
      var c, now := trace[0].call, trace[0].time;
      ClockOnlyGrows(now, trace[1..]);
      assert !Finishes(trace[0].call, d);
      StepKeepsLive(db, c, d, l, now);
      assert NeverFinished(trace[1..], d);
      LeaseLastsUntilExpiry(Apply(db, c, now), now, trace[1..], d, l);
    }
  }

  lemma {:induction false} ClockOnlyGrows(t: Time, trace: Trace)
    requires Chronological(t, trace)
    ensures t <= ClockAfter(t, trace)
    decreases |trace|
  {
    if trace != [] {
      ClockOnlyGrows(trace[0].time, trace[1..]);
    }
  }

  predicate ExpiriesBounded(db: Db, t: Time) {
    forall d :: d in db.events && db.events[d].expires.Some? ==> db.events[d].expires.value <= t + LEASE_SECONDS
  }

  lemma StepKeepsExpiriesBounded(db: Db, c: Call, t: Time, t': Time)
    requires ExpiriesBounded(db, t) && t <= t'
    ensures ExpiriesBounded(Apply(db, c, t'), t')
  {
  }

  lemma {:induction false} ReachableExpiriesAreBounded(db: Db, t: Time, trace: Trace)
    requires ExpiriesBounded(db, t) && Chronological(t, trace)
    ensures ExpiriesBounded(Exec(db, trace), ClockAfter(t, trace))
    decreases |trace|
  {
    if trace != [] {
      StepKeepsExpiriesBounded(db, trace[0].call, t, trace[0].time);
      ReachableExpiriesAreBounded(Apply(db, trace[0].call, trace[0].time), trace[0].time, trace[1..]);
    }
  }

  /** In every run from an empty store: a lease that is live at one moment and not
      at a later one was finished in between, or its expiry of that moment passed. */
  lemma LeaseEndsOnlyByExpiryOrFinish(past: Trace, future: Trace, t: Time, d: DeliveryId, l: Lease)
    requires Chronological(t, past + future)
    requires Live(Exec(EMPTY_DB, past), d, l, ClockAfter(t, past))
    requires !Live(Exec(EMPTY_DB, past + future), d, l, ClockAfter(t, past + future))
    ensures !NeverFinished(future, d)
         || Exec(EMPTY_DB, past).events[d].expires.value <= ClockAfter(t, past + future)
  {
    ExecAppend(EMPTY_DB, past, future);
    ClockAppend(t, past, future);
    ReachableExpiriesAreBounded(EMPTY_DB, t, past);
    var db, now := Exec(EMPTY_DB, past), ClockAfter(t, past);
    if NeverFinished(future, d) && ClockAfter(now, future) < db.events[d].expires.value {
      LeaseLastsUntilExpiry(db, now, future, d, l);
      assert false;
    }
  }

  /* ---- The native queue ---- */

  /** The event waits to be handed out: new, due for a retry, or a native one
      whose lease is gone. */
  predicate Waits(e: Event, t: Time) {
    || e.status == Queued
    || (e.status == Retrying && (e.nextRetry == None || e.nextRetry.value <= t))
    || (e.status == InFlight && e.payload.NativePayload? && (e.expires == None || e.expires.value <= t))
  }

  /** The sweep requeues exactly the running native events without an unexpired
      lease, for now and without a lease, and touches nothing else. */
  lemma SweepRequeuesExactlyExpired(db: Db, t: Time, d: DeliveryId)
    requires d in db.events
    ensures var e, swept := db.events[d], RecoverInterrupted(db, t);
      && swept.events.Keys == db.events.Keys && swept.claims == db.claims && swept.minted == db.minted
      && (if e.status == InFlight && e.payload.NativePayload? && (e.expires == None || e.expires.value <= t)
          then swept.events[d] == e.(status := Retrying, lease := None, expires := None, nextRetry := None)
          else swept.events[d] == e)
      && (Waits(e, t) <==> Waits(swept.events[d], t))
      && forall l :: Live(db, d, l, t) ==> Live(swept, d, l, t)
  {
  }

  /** An event is handed out exactly when it waits and none that waits is older.
      It gets a lease of full length that no event or claim has had; nobody's
      live lease is touched. */
  lemma ClaimNextHandsOutTheOldestWaiting(db: Db, pick: DeliveryId, t: Time)
    requires MintedLeases(db)
    ensures var (next, claim) := ClaimNext(db, pick, t);
      && (claim.Some? <==>
            && pick in db.events && Waits(db.events[pick], t)
            && forall other :: other in db.events && Waits(db.events[other], t)
                 ==> db.events[pick].createdAt <= db.events[other].createdAt)
      && (claim.Some? ==>
            && var l := claim.value.lease;
               && claim.value.delivery == pick && Live(next, pick, l, t)
               && next.events[pick].expires == Some(t + LEASE_SECONDS)
               && next.events[pick].attempts == db.events[pick].attempts + 1
               && next.events[pick].checkpoint == db.events[pick].checkpoint
               && next.events[pick].payload == db.events[pick].payload
               && (forall d :: d in db.events ==> db.events[d].lease != Some(l))
               && (forall k :: k in db.claims ==> db.claims[k].lease != l))
      && (forall d, l :: Live(db, d, l, t) ==> Live(next, d, l, t) && (claim.Some? ==> d != pick))
  {
    var swept := RecoverInterrupted(db, t);
    forall d | d in db.events
      ensures Waits(db.events[d], t) <==> Eligible(swept.events[d], t)
      ensures swept.events[d].createdAt == db.events[d].createdAt
    {
      SweepRequeuesExactlyExpired(db, t, d);
    }
    assert swept.events.Keys == db.events.Keys;
  }

  /** A delivery is recorded once; a repeated webhook changes nothing. */
  lemma EnqueueRecordsOnce(db: Db, id: string, name: string, body: string, t: Time)
    ensures var (next, added) := Enqueue(db, id, name, body, t);
      && (added <==> Webhook(id) !in db.events)
      && (!added ==> next == db)
      && (added ==>
            && next.events.Keys == db.events.Keys + {Webhook(id)} && next.claims == db.claims
            && next.events[Webhook(id)].payload == NativePayload(name, body)
            && next.events[Webhook(id)].attempts == 0 && Waits(next.events[Webhook(id)], t)
            && forall d :: d in db.events ==> next.events[d] == db.events[d])
      && Enqueue(next, id, name, body, t) == (next, false)
  {
  }

  /* ---- Leases ---- */

  /** A heartbeat gives a live lease its full length again, and nothing else. */
  lemma HeartbeatExtends(db: Db, d: DeliveryId, l: Lease, t: Time)
    ensures var (next, renewed) := Heartbeat(db, d, l, t);
      && (renewed <==> Live(db, d, l, t))
      && (!renewed ==> next == db)
      && (renewed ==>
            && next == db.(events := db.events[d := next.events[d]])
            && next.events[d] == db.events[d].(expires := next.events[d].expires)
            && forall t' :: t <= t' ==> (Live(next, d, l, t') <==> t' < t + LEASE_SECONDS))
  {
  }

  /** A checkpoint needs a running event and, if a lease is given, a live one. */
  lemma CheckpointNeedsRunningEvent(db: Db, d: DeliveryId, cp: Checkpoint, l: Option<Lease>, t: Time)
    ensures var (next, reply) := WriteCheckpoint(db, d, cp, l, t);
      if d in db.events && db.events[d].status == InFlight && (l.Some? ==> Live(db, d, l.value, t))
      then reply == Ok(()) && next == db.(events := db.events[d := db.events[d].(checkpoint := Some(cp))])
      else reply == Raised(WORKER_LEASE_LOST) && next == db
  {
  }

  /** The retry schedule in seconds. */
  lemma RetryScheduleIs(attempts: nat)
    ensures RetryDelay(attempts) ==
      if attempts <= 1 then 0 else if attempts == 2 then 120 else if attempts == 3 then 300
      else if attempts == 4 then 600 else 1200
    ensures RetryDelay(attempts) <= RetryDelay(attempts + 1)
  {
  }

  /** A finish under a dead lease changes nothing. An accepted one ends the lease:
      the event is over for good, or waits exactly from its retry delay on. */
  lemma FinishEndsTheLease(db: Db, d: DeliveryId, how: Closing, l: Option<Lease>, t: Time)
    ensures var (next, closed) := Finish(db, d, how, l, t);
      && (closed <==> d in db.events && (l.Some? ==> Live(db, d, l.value, t)))
      && (!closed ==> next == db)
      && (closed ==>
            && next == db.(events := db.events[d := next.events[d]])
            && next.events[d].checkpoint == db.events[d].checkpoint
            && next.events[d].payload == db.events[d].payload
            && (forall l', t' :: !Live(next, d, l', t'))
            && (how.Close? ==> next.events[d].status == Ended(how.outcome) && forall t' :: !Waits(next.events[d], t'))
            && (how.Again? ==> forall t' :: Waits(next.events[d], t') <==> t + RetryDelay(db.events[d].attempts) <= t'))
  {
  }

  /* ---- Operation claims ---- */

  /** Somebody else holds the key with a live lease. */
  ghost predicate HeldByOther(db: Db, k: OpKey, d: DeliveryId, l: Lease, t: Time) {
    exists d', l' :: (d', l') != (d, l) && Owns(db, k, d', l', t)
  }

  lemma HolderIsUnique(db: Db, k: OpKey, d: DeliveryId, l: Lease, t: Time)
    ensures HeldByOther(db, k, d, l, t) <==> Held(db, k, t) && db.claims[k] != Claim(d, l)
  {
    if Held(db, k, t) && db.claims[k] != Claim(d, l) {
      assert Owns(db, k, db.claims[k].delivery, db.claims[k].lease, t);
    }
  }

  /** A live worker gets the key exactly when no other live worker holds it; a
      granted claim makes it the owner, a refused one changes nothing. */
  lemma ClaimGrantsFreeKeysOnly(db: Db, k: OpKey, d: DeliveryId, l: Lease, t: Time)
    ensures var (next, reply) := ClaimOperation(db, k, d, l, t);
      && reply == (if !Live(db, d, l, t) then Raised(WORKER_LEASE_LOST) else Ok(!HeldByOther(db, k, d, l, t)))
      && (reply == Ok(true) ==>
            && Owns(next, k, d, l, t) && next.events == db.events
            && forall k' :: k' in db.claims && k' != k ==> k' in next.claims && next.claims[k'] == db.claims[k'])
      && (reply != Ok(true) ==> next == db)
  {
    HolderIsUnique(db, k, d, l, t);
  }

  /** An external request is granted to a new worker exactly when no live worker
      holds the key, and to a repeated one exactly while it still owns it. The
      granted lease owns the key; a refusal changes nothing. */
  lemma ExternalClaimGrantsFreeKeysOnly(db: Db, b: Binding, worker: string, request: string, t: Time)
    ensures var (next, reply) := ClaimExternal(db, b, worker, request, t);
      var d := External(worker, request);
      && (d in db.events ==>
            (reply.Ok? <==> db.events[d].payload == ExternalPayload(b, worker)
                            && exists l :: Owns(db, b.operationKey, d, l, t)))
      && (d !in db.events ==> (reply.Ok? <==> forall d', l' :: !Owns(db, b.operationKey, d', l', t)))
      && (reply.Ok? ==>
            && Owns(next, b.operationKey, d, reply.value, t)
            && next.events[d].payload == ExternalPayload(b, worker))
      && (reply.Ok? && d !in db.events ==>
            && next.events[d].expires == Some(t + LEASE_SECONDS) && next.events[d].checkpoint == None
            && next.events[d].attempts == 1 && next.events[d].createdAt == t
            && reply.value == Lease(db.minted, ExternalClaim) && next.minted == db.minted + 1)
      && (reply.Raised? || d in db.events ==> next == db)
      && (reply == Raised(CLAIM_REQUEST_REUSED) <==> d in db.events && db.events[d].payload != ExternalPayload(b, worker))
  {
    var d, k := External(worker, request), b.operationKey;
    if Held(db, k, t) {
      assert Owns(db, k, db.claims[k].delivery, db.claims[k].lease, t);
    }
    if d in db.events {
      forall l | Owns(db, k, d, l, t)
        ensures db.events[d].lease == Some(l)
      {
      }
    }
  }

  /** An external lease is taken over exactly when it has expired, once; the
      binding and the checkpoint stay, the worker becomes the reconciler, and the
      new lease of full length owns no key. */
  lemma ReclaimTakesExpiredLeasesOnly(db: Db, d: DeliveryId, stale: Lease, t: Time)
    requires MintedLeases(db)
    ensures var (next, l) := ReclaimExternal(db, d, stale, t);
      && (l.Some? <==>
            && d in db.events && db.events[d].payload.ExternalPayload? && db.events[d].status == InFlight
            && db.events[d].lease == Some(stale) && db.events[d].expires.Some? && db.events[d].expires.value <= t)
      && (l.None? ==> next == db)
      && (l.Some? ==>
            && Live(next, d, l.value, t) && next.events[d].expires == Some(t + LEASE_SECONDS)
            && next.events[d].payload == ExternalPayload(db.events[d].payload.binding, RECONCILER)
            && next.events[d].checkpoint == db.events[d].checkpoint && next.claims == db.claims
            && (forall k :: !Owns(next, k, d, l.value, t))
            && ReclaimExternal(next, d, stale, t).1.None?)
  {
  }

  /** The checkpoint records this very move as applied. */
  ghost predicate Applied(e: Event, from: Sha, to: Sha) {
    e.checkpoint.Some? && exists base :: e.checkpoint.value.head == Some(HeadIntent(from, to, base, true))
  }

  /** A move needs the event's own live external lease. From another commit than the
      bound one it is granted only as the repetition of an applied move, changing
      nothing; refused it changes nothing either. */
  lemma HeadMoveReplies(db: Db, d: DeliveryId, l: Lease, from: Sha, to: Sha, cp: Checkpoint, t: Time)
    ensures var (next, reply) := MoveExternalHead(db, d, l, from, to, cp, t);
      var live := Live(db, d, l, t) && db.events[d].payload.ExternalPayload?;
      && (!live ==> (next, reply) == (db, Raised(WORKER_LEASE_LOST)))
      && (live && db.events[d].payload.binding.sha != from ==>
            && next == db
            && (reply.Ok? <==> db.events[d].payload.binding.sha == to && Applied(db.events[d], from, to))
            && (reply.Raised? ==> reply == Raised(HEAD_CHANGED)))
      && (reply.Raised? ==> next == db)
      && (reply.Ok? ==> next.events[d].payload.binding.sha == to && next.events.Keys == db.events.Keys
                        && forall d' :: d' in db.events && d' != d ==> next.events[d'] == db.events[d'])
  {
    if Live(db, d, l, t) && db.events[d].checkpoint.Some? && db.events[d].checkpoint.value.head.Some? {
      var intent := db.events[d].checkpoint.value.head.value;
      assert intent == HeadIntent(intent.from, intent.to, intent.baseRef, intent.applied);
    }
  }
}
