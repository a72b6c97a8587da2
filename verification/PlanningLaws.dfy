/** When the intake and the reservations grant or refuse, and how long a
    planner's hold on an issue lasts, said on the rows themselves. */
module PlanningLaws {
  import opened Records
  import opened Intake
  import opened Planning

  /** Somebody plans this issue until a moment after `t`. */
  predicate HeldBy(db: Tables, n: nat, worker: string, lease: string, t: Time) {
    && n in db.rows && db.rows[n].status == Leased
    && db.rows[n].worker == Some(worker) && db.rows[n].lease == Some(lease)
    && db.rows[n].expires.Some? && t < db.rows[n].expires.value
  }

  predicate Busy(db: Tables, n: nat, t: Time) {
    n in db.rows && db.rows[n].status == Leased && db.rows[n].expires.Some? && t < db.rows[n].expires.value
  }

  /* ---- Issue leases ---- */

  /** An issue is granted exactly in its listed revision, and either to its live
      holder again, or if nobody holds it live, nothing is reserved, it awaits a
      planner or its lease ran out, and the lease token is a new one. A new grant
      changes status, holder and expiry of this row; everything else changes nothing. */
  lemma ClaimGrantsExactly(db: Tables, n: nat, generation: string, worker: string, lease: string, t: Time)
    ensures var (next, answer) := ClaimIssue(db, n, generation, worker, lease, t);
      && (answer == Granted <==>
            && n in db.rows && db.rows[n].generation == generation
            && (HeldBy(db, n, worker, lease, t)
                || (!Busy(db, n, t) && !(n in db.pubs && db.pubs[n].status == Prepared)
                    && db.rows[n].status in {AwaitingPlanner, Leased} && db.rows[n].lease != Some(lease))))
      && (answer == Granted && !HeldBy(db, n, worker, lease, t) ==>
            && HeldBy(next, n, worker, lease, t) && next.rows[n].expires == Some(t + 3600)
            && next.rows[n].generation == generation && next.rows[n].notes == db.rows[n].notes
            && next == db.(rows := db.rows[n := next.rows[n]]))
      && (answer.Denied? || HeldBy(db, n, worker, lease, t) ==> next == db)
  {
  }

  /** While somebody holds the issue live, every other planner's claim, renewal,
      reservation and takeover is refused and changes nothing. */
  lemma LiveHolderExcludesOthers(db: Tables, n: nat, generation: string, worker: string, lease: string, t: Time)
    requires n in db.rows && db.rows[n].status == Leased
    requires db.rows[n].expires.Some? && t < db.rows[n].expires.value
    requires db.rows[n].worker != Some(worker) || db.rows[n].lease != Some(lease)
    ensures ClaimIssue(db, n, generation, worker, lease, t).0 == db
    ensures ClaimIssue(db, n, generation, worker, lease, t).1
         == Denied(if db.rows[n].generation == generation then ANOTHER_PLANNER_OWNS_LEASE else ISSUE_CHANGED)
    ensures RenewIssue(db, n, generation, worker, lease, t) == (db, false)
    ensures forall initial :: Resume(db, n, initial, generation, worker, lease, t).1.Denied?
                              && Resume(db, n, initial, generation, worker, lease, t).0 == db
    ensures forall intent: Intent :: intent.issue == n ==>
              Prepare(db, intent, worker, lease, t) == (db, Denied(PLANNER_LEASE_LOST))
  {
  }

  /** Only the live holder renews, in the same revision, for a full length. */
  lemma RenewalIsTheHoldersOwn(db: Tables, n: nat, generation: string, worker: string, lease: string, t: Time)
    ensures var (next, renewed) := RenewIssue(db, n, generation, worker, lease, t);
      && (renewed <==> HeldBy(db, n, worker, lease, t) && db.rows[n].generation == generation)
      && (!renewed ==> next == db)
      && (renewed ==> next == db.(rows := db.rows[n := db.rows[n].(expires := Some(t + 3600))]))
  {
  }

  /** Observing, closing and confirming are the only deeds that take an issue
      from a planner whose lease has not run out. */
  predicate Takes(d: Deed, n: nat) {
    || (d.ObserveDeed? && d.issue.number == n)
    || (d.CloseDeed? && d.item.number == n)
    || (d.ActivateDeed? && d.n == n)
  }

  predicate InOrder(deeds: seq<Timed>, from: Time, until: Time)
    decreases |deeds|
  {
    deeds == [] || (from <= deeds[0].time < until && InOrder(deeds[1..], deeds[0].time, until))
  }

  predicate NoneTakes(deeds: seq<Timed>, n: nat) { forall i :: 0 <= i < |deeds| ==> !Takes(deeds[i].deed, n) }

  lemma DeedLeavesHolder(db: Tables, d: Deed, n: nat, worker: string, lease: string, t: Time)
    requires HeldBy(db, n, worker, lease, t) && !Takes(d, n)
    ensures HeldBy(Do(db, d, t), n, worker, lease, t)
    ensures Do(db, d, t).rows[n].expires in {db.rows[n].expires, Some(t + 3600)}
    ensures Do(db, d, t).rows[n].generation == db.rows[n].generation
  {
    match d {
      case ResumeDeed(m, initial, g, w, l) => ResumeShape(db, m, initial, g, w, l, t);
      case _ =>
    }
  }

  lemma {:induction false} HolderStays(
      db: Tables, deeds: seq<Timed>, n: nat, worker: string, lease: string, from: Time, until: Time)
    requires HeldBy(db, n, worker, lease, from) && until <= db.rows[n].expires.value && until <= from + 3600
    requires InOrder(deeds, from, until) && NoneTakes(deeds, n)
    ensures forall t :: t < until ==> HeldBy(Run(db, deeds), n, worker, lease, t)
    decreases |deeds|
  {
    if deeds != [] {
      var d, t := deeds[0].deed, deeds[0].time;
      assert !Takes(deeds[0].deed, n);
      DeedLeavesHolder(db, d, n, worker, lease, t);
      assert NoneTakes(deeds[1..], n);
      HolderStays(Do(db, d, t), deeds[1..], n, worker, lease, t, until);
    }
  }

  /** A granted issue is its planner's for the whole lease: through any deeds of
      anybody in that hour, other than an observation, closing or confirmation of
      this issue, no other planner's claim, renewal or takeover is granted. */
  lemma GrantExcludesOthersForItsTerm(
      db: Tables, n: nat, generation: string, worker: string, lease: string, t: Time, deeds: seq<Timed>,
      g: string, worker': string, lease': string, t': Time)
    requires ClaimIssue(db, n, generation, worker, lease, t).1 == Granted && !HeldBy(db, n, worker, lease, t)
    requires InOrder(deeds, t, t + 3600) && NoneTakes(deeds, n) && t' < t + 3600
    requires (worker', lease') != (worker, lease)
    ensures var later := Run(ClaimIssue(db, n, generation, worker, lease, t).0, deeds);
      && HeldBy(later, n, worker, lease, t')
      && ClaimIssue(later, n, g, worker', lease', t').1.Denied? && ClaimIssue(later, n, g, worker', lease', t').0 == later
      && RenewIssue(later, n, g, worker', lease', t') == (later, false)
      && forall initial :: Resume(later, n, initial, g, worker', lease', t').1.Denied?
  {
    ClaimGrantsExactly(db, n, generation, worker, lease, t);
    var granted := ClaimIssue(db, n, generation, worker, lease, t).0;
    HolderStays(granted, deeds, n, worker, lease, t, t + 3600);
    assert HeldBy(Run(granted, deeds), n, worker, lease, t');
    LiveHolderExcludesOthers(Run(granted, deeds), n, g, worker', lease', t');
  }

  /* ---- Observations ---- */

  /** What a scan says about an open issue, by what it found. */
  lemma ScanStatusMeans(x: Issue)
    ensures ScanStatus(x) == Linked <==> |x.strong| == 1 && x.ambiguous == []
    ensures ScanStatus(x) == NeedsLinkResolution <==> |x.strong| > 1 || x.ambiguous != []
    ensures ScanStatus(x) == AwaitingPlanner <==>
      x.strong == [] && x.ambiguous == [] && !x.held && !x.emptyBody && x.root && x.byOwner
    ensures x.held && x.strong == [] && x.ambiguous == [] ==> ScanStatus(x) == OnHold
    ensures !x.held && x.strong == [] && x.ambiguous == [] ==>
      && (x.emptyBody ==> ScanStatus(x) == NeedsTaskSpec)
      && (!x.emptyBody && !x.root ==> ScanStatus(x) == NotAgentRoot)
      && (!x.emptyBody && x.root && !x.byOwner ==> ScanStatus(x) == NeedsTriage)
  {
  }

  /** An observation leaves a planner alone that holds the very revision seen as
      claimable, and otherwise clears the lease; it files what was seen, except
      that an issue that ever had PRs is never shown as claimable again. */
  lemma ObservationMeans(db: Tables, x: Issue)
    ensures var next := ObserveIssue(db, x);
      var had := x.number in db.rows && Associated(db.rows[x.number].notes);
      && next.pubs == db.pubs && (forall n :: n in db.rows && n != x.number ==> n in next.rows && next.rows[n] == db.rows[n])
      && x.number in next.rows && next.rows[x.number].generation == x.generation
      && (if x.number in db.rows && db.rows[x.number].status == Leased && db.rows[x.number].generation == x.generation
             && ScanStatus(x) == AwaitingPlanner && !had
          then next == db
          else
            && next.rows[x.number].worker == None && next.rows[x.number].lease == None
            && next.rows[x.number].expires == None
            && next.rows[x.number].notes.linked == x.strong && next.rows[x.number].notes.ambiguous == x.ambiguous
            && next.rows[x.number].notes.previousLink ==
                 (if had then Association(db.rows[x.number].notes) else None)
            && next.rows[x.number].status ==
                 (if had && ScanStatus(x) == AwaitingPlanner then NeedsLinkResolution else ScanStatus(x)))
  {
  }

  /* ---- Reservations ---- */

  /** A reservation is made exactly by the live holder of the issue in the revision
      of the intent, for an issue and a branch nobody has reserved; a repeated
      call of the same owner and intent is granted and changes nothing. */
  lemma PrepareReservesExactly(db: Tables, intent: Intent, worker: string, lease: string, t: Time)
    ensures var (next, answer) := Prepare(db, intent, worker, lease, t);
      var n, owner := intent.issue, Ownership(Some(worker), Some(lease));
      var holds := HeldBy(db, n, worker, lease, t) && db.rows[n].generation == intent.generation;
      && (answer == Granted <==>
            && holds
            && (if n in db.pubs then db.pubs[n].id == PublicationId(intent, owner)
                else forall m :: m in db.pubs ==> db.pubs[m].intent.headRef != intent.headRef))
      && (answer == Granted && n !in db.pubs ==>
            next == db.(pubs := db.pubs[n :=
              Publication(PublicationId(intent, owner), intent.generation, owner, intent, Prepared, None)]))
      && (answer.Denied? || n in db.pubs ==> next == db)
  {
    if BranchTaken(db, intent) {
      var m :| m in db.pubs && m != intent.issue && db.pubs[m].intent.headRef == intent.headRef;
      assert db.pubs[m].intent.headRef == intent.headRef;
    }
  }

  /** A takeover is granted exactly while the reservation is pending and unchanged
      since it was read, in the issue's revision, and if nobody else holds the
      issue live and an expired lease token is not used again. */
  lemma ResumeGrantsExactly(
      db: Tables, n: nat, initial: Publication, generation: string, worker: string, lease: string, t: Time)
    ensures var (next, answer) := Resume(db, n, initial, generation, worker, lease, t);
      && (answer == Granted <==>
            && initial.status == Prepared && initial.generation == generation
            && n in db.pubs && db.pubs[n].id == initial.id && db.pubs[n].owner == initial.owner
            && db.pubs[n].status == Prepared
            && n in db.rows && db.rows[n].generation == generation
            && db.rows[n].status in {AwaitingPlanner, Leased}
            && (HeldBy(db, n, worker, lease, t) || (!Busy(db, n, t) && db.rows[n].lease != Some(lease))))
      && (answer == Granted ==>
            && HeldBy(next, n, worker, lease, t) && next.rows[n].expires == Some(t + 3600)
            && next.pubs[n] == db.pubs[n].(owner := Ownership(Some(worker), Some(lease)))
            && next == Tables(db.rows[n := next.rows[n]], db.pubs[n := next.pubs[n]]))
      && (answer.Denied? ==> next == db)
  {
  }

  /** A confirm call goes on exactly for the reservation it names, by its present
      owner, in its revision, and for no other PR than the one confirmed before;
      so once one PR is confirmed, no other ever is, by anybody. */
  lemma ConfirmReadsExactly(db: Tables, n: nat, id: PublicationId, generation: string, worker: string, lease: string, pr: nat)
    ensures MayConfirm(db, n, id, generation, Ownership(Some(worker), Some(lease)), pr) <==>
      && n in db.pubs && db.pubs[n].id == id && db.pubs[n].generation == generation
      && db.pubs[n].owner.worker == Some(worker) && db.pubs[n].owner.lease == Some(lease)
      && (db.pubs[n].pr == None || db.pubs[n].pr == Some(pr))
    ensures forall deeds: seq<Timed>, owner: Ownership ::
      Consistent(db) && n in db.pubs && db.pubs[n].pr.Some? && db.pubs[n].pr != Some(pr) ==>
        !MayConfirm(Run(db, deeds), n, id, generation, owner, pr)
  {
    forall deeds: seq<Timed>, owner: Ownership
      | Consistent(db) && n in db.pubs && db.pubs[n].pr.Some? && db.pubs[n].pr != Some(pr)
      ensures !MayConfirm(Run(db, deeds), n, id, generation, owner, pr)
    {
      RunKeepsConsistency(db, deeds);
    }
  }

  /** An activation is granted exactly if the reservation is the one that was read,
      names no other PR, and the issue is in its revision and not leased to another
      owner; then the issue is linked to this PR and free of any lease. */
  lemma ActivationLinksExactly(db: Tables, n: nat, seen: Publication, pr: nat)
    ensures var (next, answer) := Activate(db, n, seen, pr);
      && (answer == Granted <==>
            && n in db.pubs && db.pubs[n].id == seen.id && db.pubs[n].generation == seen.generation
            && (db.pubs[n].pr == None || db.pubs[n].pr == Some(pr))
            && n in db.rows && db.rows[n].generation == seen.generation
            && (db.rows[n].status == Leased ==> Ownership(db.rows[n].worker, db.rows[n].lease) == seen.owner))
      && (answer == Granted ==>
            && next.pubs[n] == db.pubs[n].(status := Applied, pr := Some(pr))
            && next.rows[n].status == Linked && next.rows[n].notes.linked == [pr]
            && next.rows[n].generation == db.rows[n].generation
            && next.rows[n].worker == None && next.rows[n].lease == None && next.rows[n].expires == None
            && next == Tables(db.rows[n := next.rows[n]], db.pubs[n := next.pubs[n]]))
      && (answer.Denied? ==> next == db)
  {
  }
}
