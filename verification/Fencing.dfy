/** What the leases of the state store guarantee over whole runs. */
module Fencing {
  import opened Labels
  import opened Records
  import opened LeaseStore

  lemma StepKeepsMintedLeases(db: Db, c: Call, t: Time)
    requires MintedLeases(db)
    ensures MintedLeases(Apply(db, c, t))
    ensures db.minted <= Apply(db, c, t).minted
  {
  }

  /** One step cannot revive a lease that is no longer live. */
  lemma StepKeepsDeadLease(db: Db, c: Call, d: DeliveryId, l: Lease, t: Time)
    requires MintedLeases(db) && l.serial < db.minted
    requires !Live(db, d, l, t)
    ensures !Live(Apply(db, c, t), d, l, t)
  {
  }

  /** One step cannot take a key away from a holder that stays live. */
  lemma StepKeepsOwner(db: Db, c: Call, k: OpKey, d: DeliveryId, l: Lease, t: Time)
    requires MintedLeases(db)
    requires Owns(db, k, d, l, t) && Live(Apply(db, c, t), d, l, t)
    ensures Owns(Apply(db, c, t), k, d, l, t)
  {
  }

  /** A lease that expired, was finished or was replaced is dead for the rest
      of the run, whatever calls anyone makes. */
  lemma {:induction false} DeadLeaseStaysDead(db: Db, t: Time, trace: Trace, d: DeliveryId, l: Lease)
    requires MintedLeases(db) && l.serial < db.minted
    requires !Live(db, d, l, t) && Chronological(t, trace)
    ensures MintedLeases(Exec(db, trace)) && l.serial < Exec(db, trace).minted
    ensures !Live(Exec(db, trace), d, l, ClockAfter(t, trace))
    decreases |trace|
  {
    if trace != [] {
      var c, now := trace[0].call, trace[0].time;
      StepKeepsMintedLeases(db, c, now);
      StepKeepsDeadLease(db, c, d, l, now);
      DeadLeaseStaysDead(Apply(db, c, now), now, trace[1..], d, l);
    }
  }

  /** A dead lease is inert: no later heartbeat, checkpoint, finish, claim,
      assertion, head move or repeated acquisition under it is honoured. */
  lemma {:induction false} DeadLeaseIsInert(db: Db, t: Time, trace: Trace, d: DeliveryId, l: Lease, c: Call, now: Time)
    requires MintedLeases(db) && l.serial < db.minted
    requires !Live(db, d, l, t) && Chronological(t, trace) && ClockAfter(t, trace) <= now
    ensures !Honoured(Exec(db, trace), c, d, l, now)
  {
    DeadLeaseStaysDead(db, t, trace, d, l);
  }

  predicate HasEnded(db: Db, d: DeliveryId) { d in db.events && db.events[d].status.Ended? }

  /** Every caller of `finish` presents a lease. */
  predicate FinishedUnderLease(trace: Trace) {
    forall i :: 0 <= i < |trace| && trace[i].call.FinishCall? ==> trace[i].call.held.Some?
  }

  lemma StepKeepsEnded(db: Db, c: Call, d: DeliveryId, t: Time)
    requires HasEnded(db, d) && (c.FinishCall? ==> c.held.Some?)
    ensures HasEnded(Apply(db, c, t), d) && Apply(db, c, t).events[d] == db.events[d]
  {
  }

  /** A finished event is final: no later call changes it, no lease of it is
      live, and the queue never hands it out again. */
  lemma {:induction false} EndedIsNeverHandedOut(db: Db, trace: Trace, d: DeliveryId, pick: DeliveryId, l: Lease, t: Time)
    requires HasEnded(db, d) && FinishedUnderLease(trace)
    ensures HasEnded(Exec(db, trace), d) && Exec(db, trace).events[d] == db.events[d]
    ensures !Live(Exec(db, trace), d, l, t)
    ensures ClaimNext(Exec(db, trace), pick, t).1.Some? ==> pick != d
    decreases |trace|
  {
    if trace != [] {
      assert trace[0].call.FinishCall? ==> trace[0].call.held.Some?;
      StepKeepsEnded(db, trace[0].call, d, trace[0].time);
      EndedIsNeverHandedOut(Apply(db, trace[0].call, trace[0].time), trace[1..], d, pick, l, t);
    }
  }

  lemma {:induction false} ExecAppend(db: Db, a: Trace, b: Trace)
    ensures Exec(db, a + b) == Exec(Exec(db, a), b)
    decreases |a|
  {
    if a == [] {
      assert a + b == b;
    } else {
      assert (a + b)[1..] == a[1..] + b;
      ExecAppend(Apply(db, a[0].call, a[0].time), a[1..], b);
    }
  }

  /** Some store calls, every `finish` among them under a lease, lead from one
      store to the other. */
  ghost predicate ByLeasedCalls(db: Db, later: Db) {
    exists calls: Trace :: FinishedUnderLease(calls) && later == Exec(db, calls)
  }

  lemma NoCalls(db: Db)
    ensures ByLeasedCalls(db, db)
  {
    var none: Trace := [];
    assert FinishedUnderLease(none) && db == Exec(db, none);
  }

  lemma OneLeasedCall(db: Db, c: Call, t: Time)
    requires c.FinishCall? ==> c.held.Some?
    ensures ByLeasedCalls(db, Apply(db, c, t))
  {
    var calls: Trace := [At(t, c)];
    assert calls[1..] == [];
    assert FinishedUnderLease(calls) && Apply(db, c, t) == Exec(db, calls);
  }

  lemma LeasedCallsCompose(a: Db, b: Db, c: Db)
    requires ByLeasedCalls(a, b) && ByLeasedCalls(b, c)
    ensures ByLeasedCalls(a, c)
  {
    var first: Trace :| FinishedUnderLease(first) && b == Exec(a, first);
    var second: Trace :| FinishedUnderLease(second) && c == Exec(b, second);
    ExecAppend(a, first, second);
    assert FinishedUnderLease(first + second);
  }

  lemma {:induction false} ClockAppend(t: Time, a: Trace, b: Trace)
    ensures ClockAfter(t, a + b) == ClockAfter(ClockAfter(t, a), b)
    ensures Chronological(t, a + b) <==> Chronological(t, a) && Chronological(ClockAfter(t, a), b)
    decreases |a|
  {
    if a == [] {
      assert a + b == b;
    } else {
      assert (a + b)[1..] == a[1..] + b;
      ClockAppend(a[0].time, a[1..], b);
    }
  }

  lemma {:induction false} ReachableLeasesAreMinted(db: Db, trace: Trace)
    requires MintedLeases(db)
    ensures MintedLeases(Exec(db, trace)) && db.minted <= Exec(db, trace).minted
    decreases |trace|
  {
    if trace != [] {
      StepKeepsMintedLeases(db, trace[0].call, trace[0].time);
      ReachableLeasesAreMinted(Apply(db, trace[0].call, trace[0].time), trace[1..]);
    }
  }

  /** A holder that is still live at the end of a run still owns its key. */
  lemma {:induction false} LiveOwnerKeepsKey(db: Db, t: Time, trace: Trace, k: OpKey, d: DeliveryId, l: Lease)
    requires MintedLeases(db) && Chronological(t, trace)
    requires Owns(db, k, d, l, t)
    requires Live(Exec(db, trace), d, l, ClockAfter(t, trace))
    ensures Owns(Exec(db, trace), k, d, l, ClockAfter(t, trace))
    decreases |trace|
  {
    if trace != [] {
      var c, now := trace[0].call, trace[0].time;
      var next := Apply(db, c, now);
      StepKeepsMintedLeases(db, c, now);
      if !Live(next, d, l, now) {
        DeadLeaseStaysDead(next, now, trace[1..], d, l);
        assert false;
      }
      if !Live(db, d, l, now) {
        StepKeepsDeadLease(db, c, d, l, now);
        assert false;
      }
      StepKeepsOwner(db, c, k, d, l, now);
      LiveOwnerKeepsKey(next, now, trace[1..], k, d, l);
    }
  }

  /** No stealing in between: if an owner's assertion succeeds, another
      assertion on the same key succeeds later, and the first owner's succeeds
      again after that, then it was the same owner all along. */
  lemma OwnerHoldsBetweenAssertions(
      db: Db, t: Time, first: Trace, second: Trace,
      k: OpKey, d: DeliveryId, l: Lease, d': DeliveryId, l': Lease)
    requires MintedLeases(db) && Chronological(t, first + second)
    requires Owns(db, k, d, l, t)
    requires Owns(Exec(db, first), k, d', l', ClockAfter(t, first))
    requires Owns(Exec(db, first + second), k, d, l, ClockAfter(t, first + second))
    ensures d' == d && l' == l
  {
    ExecAppend(db, first, second);
    ClockAppend(t, first, second);
    var middle, now := Exec(db, first), ClockAfter(t, first);
    ReachableLeasesAreMinted(db, first);
    if !Live(middle, d, l, now) {
      DeadLeaseStaysDead(middle, now, second, d, l);
      assert false;
    }
    LiveOwnerKeepsKey(db, t, first, k, d, l);
  }

  /** The call at position `i` of a run from an empty store is an ownership
      assertion of (k, d, l), and it succeeds. */
  predicate AssertedAt(run: Trace, i: nat, k: OpKey, d: DeliveryId, l: Lease)
    requires i < |run|
  {
    && run[i].call == AssertOperationCall(k, d, l)
    && Owns(Exec(EMPTY_DB, run[..i]), k, d, l, run[i].time)
  }

  lemma {:induction false} ClockAtCall(t: Time, run: Trace, i: nat)
    requires i < |run| && Chronological(t, run)
    ensures ClockAfter(t, run[..i + 1]) == run[i].time
    ensures Chronological(t, run[..i + 1])
    decreases i
  {
    assert run[..i + 1][1..] == run[1..][..i];
    if i > 0 {
      ClockAtCall(run[0].time, run[1..], i - 1);
    }
  }

  lemma AssertionLeavesStore(run: Trace, i: nat, k: OpKey, d: DeliveryId, l: Lease)
    requires i < |run| && AssertedAt(run, i, k, d, l)
    ensures Exec(EMPTY_DB, run[..i + 1]) == Exec(EMPTY_DB, run[..i])
  {
    assert run[..i + 1] == run[..i] + [run[i]];
    ExecAppend(EMPTY_DB, run[..i], [run[i]]);
  }

  /** Fencing over whole runs: between two successful assertions of one owner
      no assertion by anybody else on that key ever succeeds. */
  lemma Fencing(run: Trace, t: Time, i: nat, m: nat, j: nat,
                k: OpKey, d: DeliveryId, l: Lease, d': DeliveryId, l': Lease)
    requires Chronological(t, run) && i < m < j < |run|
    requires AssertedAt(run, i, k, d, l) && AssertedAt(run, j, k, d, l)
    requires AssertedAt(run, m, k, d', l')
    ensures d' == d && l' == l
  {
    var db := Exec(EMPTY_DB, run[..i + 1]);
    var first, second := run[i + 1..m + 1], run[m + 1..j + 1];
    assert run[..m + 1] == run[..i + 1] + first;
    assert run[..j + 1] == run[..m + 1] + second;
    assert run[..j + 1] == run[..i + 1] + (first + second);
    ExecAppend(EMPTY_DB, run[..i + 1], first);
    ExecAppend(EMPTY_DB, run[..i + 1], first + second);
    ClockAtCall(t, run, i);
    ClockAtCall(t, run, m);
    ClockAtCall(t, run, j);
    ClockAppend(t, run[..i + 1], first);
    ClockAppend(t, run[..i + 1], first + second);
    AssertionLeavesStore(run, i, k, d, l);
    AssertionLeavesStore(run, m, k, d', l');
    AssertionLeavesStore(run, j, k, d, l);
    ReachableLeasesAreMinted(EMPTY_DB, run[..i + 1]);
    OwnerHoldsBetweenAssertions(db, run[i].time, first, second, k, d, l, d', l');
  }

  /* ---- External ownership ---- */

  /** Callers compute the operation key from the binding they send. */
  predicate WellKeyed(c: Call) {
    c.ClaimExternalCall? ==> c.b.operationKey == KeyOf(c.b)
  }

  predicate AllWellKeyed(trace: Trace) {
    forall i :: 0 <= i < |trace| ==> WellKeyed(trace[i].call)
  }

  predicate PayloadsWellKeyed(db: Db) {
    forall d :: d in db.events && db.events[d].payload.ExternalPayload?
      ==> db.events[d].payload.binding.operationKey == KeyOf(db.events[d].payload.binding)
  }

  /** An external event that runs under a lease minted by `claim_external`. */
  predicate ExternalHolder(db: Db, d: DeliveryId, l: Lease, t: Time) {
    && Live(db, d, l, t)
    && l.source == ExternalClaim
    && db.events[d].payload.ExternalPayload?
  }

  /** Every live externally claimed lease owns the claim row of the key
      computed from its own stored repository, PR, SHA and phase. */
  ghost predicate HoldersOwnTheirKey(db: Db, t: Time) {
    forall d, l :: ExternalHolder(db, d, l, t)
      ==> Owns(db, KeyOf(db.events[d].payload.binding), d, l, t)
  }

  lemma StepKeepsPayloadsWellKeyed(db: Db, c: Call, t: Time)
    requires PayloadsWellKeyed(db) && WellKeyed(c)
    ensures PayloadsWellKeyed(Apply(db, c, t))
  {
  }

  lemma StepKeepsExternalOwnership(db: Db, c: Call, t: Time, t': Time)
    requires MintedLeases(db) && PayloadsWellKeyed(db) && WellKeyed(c)
    requires HoldersOwnTheirKey(db, t) && t <= t'
    ensures HoldersOwnTheirKey(Apply(db, c, t'), t')
  {
    var next := Apply(db, c, t');
    forall d, l | ExternalHolder(next, d, l, t')
      ensures Owns(next, KeyOf(next.events[d].payload.binding), d, l, t')
    {
      if l.serial < db.minted {
        if !Live(db, d, l, t') {
          StepKeepsDeadLease(db, c, d, l, t');
          assert false;
        }
        assert ExternalHolder(db, d, l, t);
        StepKeepsOwner(db, c, KeyOf(db.events[d].payload.binding), d, l, t');
      }
    }
  }

  /** External ownership through any mix of other workers' claims, expiries,
      takeovers and head moves. */
  lemma {:induction false} ExternalOwnership(db: Db, t: Time, trace: Trace)
    requires MintedLeases(db) && PayloadsWellKeyed(db) && HoldersOwnTheirKey(db, t)
    requires Chronological(t, trace) && AllWellKeyed(trace)
    ensures PayloadsWellKeyed(Exec(db, trace))
    ensures HoldersOwnTheirKey(Exec(db, trace), ClockAfter(t, trace))
    decreases |trace|
  {
    if trace != [] {
      var c, now := trace[0].call, trace[0].time;
      assert WellKeyed(trace[0].call);
      StepKeepsMintedLeases(db, c, now);
      StepKeepsPayloadsWellKeyed(db, c, now);
      StepKeepsExternalOwnership(db, c, t, now);
      ExternalOwnership(Apply(db, c, now), now, trace[1..]);
    }
  }

  /** From an empty store the ownership invariant holds at the end of every run. */
  lemma ReachableHoldersOwnTheirKey(run: Trace, t: Time)
    requires Chronological(t, run) && AllWellKeyed(run)
    ensures HoldersOwnTheirKey(Exec(EMPTY_DB, run), ClockAfter(t, run))
  {
    ExternalOwnership(EMPTY_DB, t, run);
  }

  /** A head move never takes a key from another live holder, and a move that
      happens updates binding, checkpoint and claim together. */
  lemma MoveIsExclusiveAndAtomic(db: Db, d: DeliveryId, l: Lease, from: Sha, to: Sha, cp: Checkpoint, t: Time)
    requires Live(db, d, l, t) && db.events[d].payload.ExternalPayload?
    requires db.events[d].payload.binding.sha == from
    ensures
      var b := db.events[d].payload.binding;
      var key := Operation(b.repo, b.pr, to, b.phase);
      var (next, reply) := MoveExternalHead(db, d, l, from, to, cp, t);
      if exists d', l' :: (d', l') != (d, l) && Owns(db, key, d', l', t)
      then reply == Raised(ANOTHER_WORKER_OWNS_LEASE) && next == db
      else
        && reply == Ok(()) && Owns(next, key, d, l, t)
        && KeyOf(next.events[d].payload.binding) == key == next.events[d].payload.binding.operationKey
        && next.events[d].checkpoint == Some(cp)
        && next.events[d].payload.worker == db.events[d].payload.worker
  {
    var b := db.events[d].payload.binding;
    var key := Operation(b.repo, b.pr, to, b.phase);
    if Held(db, key, t) && db.claims[key] != Claim(d, l) {
      assert Owns(db, key, db.claims[key].delivery, db.claims[key].lease, t);
    }
  }
}
