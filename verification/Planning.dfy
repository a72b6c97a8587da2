/** Runs of scans, planner leases, reservations, takeovers and confirmations. */
module Planning {
  import opened Records
  import opened Intake

  /** One transaction. A scan is a series of them. `item`, `initial` and `seen`
      are rows some earlier read returned; nothing is assumed about how stale
      they are. */
  datatype Deed =
    | ObserveDeed(issue: Issue)
    | CloseDeed(item: Item)
    | ClaimDeed(n: nat, generation: string, worker: string, lease: string)
    | RenewDeed(n: nat, generation: string, worker: string, lease: string)
    | PrepareDeed(intent: Intent, worker: string, lease: string)
    | ResumeDeed(n: nat, initial: Publication, generation: string, worker: string, lease: string)
    | ActivateDeed(n: nat, seen: Publication, pr: nat)

  datatype Timed = Timed(time: Time, deed: Deed)

  function Do(db: Tables, d: Deed, t: Time): Tables {
    match d
    case ObserveDeed(x) => ObserveIssue(db, x)
    case CloseDeed(x) => CloseItem(db, x)
    case ClaimDeed(n, g, w, l) => ClaimIssue(db, n, g, w, l, t).0
    case RenewDeed(n, g, w, l) => RenewIssue(db, n, g, w, l, t).0
    case PrepareDeed(intent, w, l) => Prepare(db, intent, w, l, t).0
    case ResumeDeed(n, initial, g, w, l) => Resume(db, n, initial, g, w, l, t).0
    case ActivateDeed(n, seen, pr) => Activate(db, n, seen, pr).0
  }

  function Run(db: Tables, deeds: seq<Timed>): Tables
    decreases |deeds|
  {
    if deeds == [] then db else Run(Do(db, deeds[0].deed, deeds[0].time), deeds[1..])
  }

  /* ---- Invariants ---- */

  /** A prepared publication and its leased issue have the same owner. */
  predicate Coupled(db: Tables) {
    forall n :: n in db.pubs && n in db.rows && db.pubs[n].status == Prepared && db.rows[n].status == Leased
      ==> db.pubs[n].owner == RowOwner(db.rows[n])
  }

  /** A reservation is filed under its own issue and says what its id says. */
  predicate WellFiled(db: Tables) {
    forall n :: n in db.pubs ==>
      && db.pubs[n].intent.issue == n
      && db.pubs[n].id.intent == db.pubs[n].intent
      && db.pubs[n].generation == db.pubs[n].intent.generation
      && (db.pubs[n].pr.Some? <==> db.pubs[n].status == Applied)
  }

  predicate BranchesApart(db: Tables) {
    forall m, n :: m in db.pubs && n in db.pubs && m != n
      ==> db.pubs[m].intent.headRef != db.pubs[n].intent.headRef
  }

  /** A row that ever held links is neither claimable nor claimed. */
  predicate AssociationSticks(db: Tables) {
    forall n :: n in db.rows && Associated(db.rows[n].notes)
      ==> db.rows[n].status != AwaitingPlanner && db.rows[n].status != Leased
  }

  predicate Consistent(db: Tables) { Coupled(db) && WellFiled(db) && BranchesApart(db) && AssociationSticks(db) }

  /** What never changes once written. */
  predicate Preserved(db: Tables, later: Tables) {
    && (forall n :: n in db.pubs ==>
          && n in later.pubs
          && later.pubs[n].id == db.pubs[n].id
          && later.pubs[n].intent == db.pubs[n].intent
          && later.pubs[n].generation == db.pubs[n].generation
          && (db.pubs[n].status == Applied ==> later.pubs[n].status == Applied)
          && (db.pubs[n].pr.Some? ==> later.pubs[n].pr == db.pubs[n].pr))
    && (forall n :: n in db.rows ==>
          n in later.rows && (Associated(db.rows[n].notes) ==> Associated(later.rows[n].notes)))
  }

  lemma PreservedIsTransitive(a: Tables, b: Tables, c: Tables)
    requires Preserved(a, b) && Preserved(b, c)
    ensures Preserved(a, c)
  {
  }

  /* ---- One scan ---- */

  lemma ObserveKeeps(db: Tables, n: nat, generation: string, status: IssueStatus, notes: Notes)
    requires Consistent(db) && status != Leased
    requires (notes.linked != [] || notes.ambiguous != []) ==> status != AwaitingPlanner
    requires notes.previousLink.Some? ==> status != AwaitingPlanner
    ensures Consistent(Observe(db, n, generation, status, notes))
    ensures Preserved(db, Observe(db, n, generation, status, notes))
  {
  }

  /** Putting a new or renewed lease on an issue row that nothing reserves for somebody else. */
  lemma GrantingKeeps(db: Tables, n: nat, row: IssueRow)
    requires Consistent(db) && n in db.rows && row.notes == db.rows[n].notes
    requires row.status == Leased && (db.rows[n].status == AwaitingPlanner || db.rows[n].status == Leased)
    requires !Reserved(db, n) || RowOwner(row) == RowOwner(db.rows[n])
    requires Reserved(db, n) ==> db.rows[n].status == Leased
    ensures Consistent(db.(rows := db.rows[n := row])) && Preserved(db, db.(rows := db.rows[n := row]))
  {
  }

  lemma LeaseDeedKeeps(db: Tables, d: Deed, t: Time)
    requires Consistent(db) && (d.ClaimDeed? || d.RenewDeed?)
    ensures Consistent(Do(db, d, t)) && Preserved(db, Do(db, d, t))
  {
    if Do(db, d, t) != db {
      GrantingKeeps(db, d.n, Do(db, d, t).rows[d.n]);
    }
  }

  /** Filing a reservation for a live holder, on a branch nobody reserved. */
  lemma FilingKeeps(db: Tables, pub: Publication)
    requires Consistent(db) && pub.intent.issue !in db.pubs && !BranchTaken(db, pub.intent)
    requires pub.id.intent == pub.intent && pub.generation == pub.intent.generation
    requires pub.status == Prepared && pub.pr.None?
    requires pub.intent.issue in db.rows ==> pub.owner == RowOwner(db.rows[pub.intent.issue])
    ensures Consistent(db.(pubs := db.pubs[pub.intent.issue := pub]))
    ensures Preserved(db, db.(pubs := db.pubs[pub.intent.issue := pub]))
  {
    forall m | m in db.pubs
      ensures db.pubs[m].intent.headRef != pub.intent.headRef
    {
      assert m != pub.intent.issue;
    }
  }

  lemma PrepareKeeps(db: Tables, intent: Intent, worker: string, lease: string, t: Time)
    requires Consistent(db)
    ensures Consistent(Prepare(db, intent, worker, lease, t).0)
    ensures Preserved(db, Prepare(db, intent, worker, lease, t).0)
  {
    if Prepare(db, intent, worker, lease, t).0 != db {
      FilingKeeps(db, Prepare(db, intent, worker, lease, t).0.pubs[intent.issue]);
    }
  }

  /** A takeover replaces the issue's lease and the reservation's owner together. */
  lemma ResumeShape(db: Tables, n: nat, initial: Publication, generation: string, worker: string, lease: string, t: Time)
    ensures var (next, answer) := Resume(db, n, initial, generation, worker, lease, t);
      if answer != Granted then next == db
      else
        && n in db.pubs && n in db.rows && db.pubs[n].status == Prepared
        && db.rows[n].status in {AwaitingPlanner, Leased}
        && next == Tables(db.rows[n := Granting(db.rows[n], worker, lease, t)],
                          db.pubs[n := db.pubs[n].(owner := Owner(worker, lease))])
  {
  }

  lemma ResumeKeeps(db: Tables, n: nat, initial: Publication, generation: string, worker: string, lease: string, t: Time,
                    next: Tables)
    requires Consistent(db) && next == Resume(db, n, initial, generation, worker, lease, t).0
    ensures Consistent(next) && Preserved(db, next)
  {
    ResumeShape(db, n, initial, generation, worker, lease, t);
    if next != db {
      var row := Granting(db.rows[n], worker, lease, t);
      assert !Associated(row.notes);
      ReplacingKeeps(db, n, row, db.pubs[n].(owner := Owner(worker, lease)));
    }
  }

  /** Replacing one issue row and its publication, both consistently. */
  lemma ReplacingKeeps(db: Tables, n: nat, row: IssueRow, pub: Publication)
    requires Consistent(db) && n in db.rows && n in db.pubs
    requires pub.id == db.pubs[n].id && pub.intent == db.pubs[n].intent && pub.generation == db.pubs[n].generation
    requires db.pubs[n].status == Applied ==> pub.status == Applied && pub.pr == db.pubs[n].pr
    requires pub.pr.Some? <==> pub.status == Applied
    requires pub.status == Prepared && row.status == Leased ==> pub.owner == RowOwner(row)
    requires Associated(row.notes) ==> row.status != AwaitingPlanner && row.status != Leased
    requires Associated(db.rows[n].notes) ==> Associated(row.notes)
    ensures Consistent(Tables(db.rows[n := row], db.pubs[n := pub]))
    ensures Preserved(db, Tables(db.rows[n := row], db.pubs[n := pub]))
  {
  }

  lemma ActivateKeeps(db: Tables, n: nat, seen: Publication, pr: nat, next: Tables)
    requires Consistent(db) && next == Activate(db, n, seen, pr).0
    ensures Consistent(next) && Preserved(db, next)
  {
    if Activate(db, n, seen, pr).1 == Granted {
      var r := db.rows[n];
      ReplacingKeeps(db, n, IssueRow(r.generation, Linked, r.notes.(linked := [pr]), None, None, None),
                     db.pubs[n].(status := Applied, pr := Some(pr)));
    }
  }

  lemma {:induction false} DoKeepsConsistency(db: Tables, d: Deed, t: Time)
    requires Consistent(db)
    ensures Consistent(Do(db, d, t)) && Preserved(db, Do(db, d, t))
  {
    match d {
      case ObserveDeed(x) =>
        ObserveKeeps(db, x.number, x.generation, ScanStatus(x), Notes(x.strong, x.ambiguous, None));
      case CloseDeed(x) => ObserveKeeps(db, x.number, x.row.generation, Closed, x.row.notes);
      case ClaimDeed(_, _, _, _) => LeaseDeedKeeps(db, d, t);
      case RenewDeed(_, _, _, _) => LeaseDeedKeeps(db, d, t);
      case PrepareDeed(intent, w, l) => PrepareKeeps(db, intent, w, l, t);
      case ResumeDeed(n, initial, g, w, l) => ResumeKeeps(db, n, initial, g, w, l, t, Do(db, d, t));
      case ActivateDeed(n, seen, pr) => ActivateKeeps(db, n, seen, pr, Do(db, d, t));
    }
  }

  /* ---- Whole runs ---- */

  /** Coupling, filing, branch exclusivity and sticky association hold in every
      reachable state, and what was written once stays written. */
  lemma {:induction false} RunKeepsConsistency(db: Tables, deeds: seq<Timed>)
    requires Consistent(db)
    ensures Consistent(Run(db, deeds)) && Preserved(db, Run(db, deeds))
    decreases |deeds|
  {
    if deeds != [] {
      var next := Do(db, deeds[0].deed, deeds[0].time);
      DoKeepsConsistency(db, deeds[0].deed, deeds[0].time);
      RunKeepsConsistency(next, deeds[1..]);
      PreservedIsTransitive(db, next, Run(db, deeds));
    }
  }

  lemma {:induction false} RunAppend(db: Tables, a: seq<Timed>, b: seq<Timed>)
    ensures Run(db, a + b) == Run(Run(db, a), b)
    decreases |a|
  {
    if a == [] {
      assert a + b == b;
    } else {
      assert (a + b)[1..] == a[1..] + b;
      RunAppend(Do(db, a[0].deed, a[0].time), a[1..], b);
    }
  }

  const EMPTY := Tables(map[], map[])

  /** Reservation coupling and immutability, from an empty store, at any two
      moments of any run. */
  lemma ReservationsAreCoupledAndImmutable(past: seq<Timed>, future: seq<Timed>, n: nat, m: nat)
    ensures var now, later := Run(EMPTY, past), Run(EMPTY, past + future);
      && (n in now.pubs && n in now.rows && now.pubs[n].status == Prepared && now.rows[n].status == Leased
          ==> now.pubs[n].owner == RowOwner(now.rows[n]))
      && (n in now.pubs ==>
            && n in later.pubs && later.pubs[n].intent == now.pubs[n].intent
            && later.pubs[n].id == now.pubs[n].id && later.pubs[n].generation == now.pubs[n].generation
            && (now.pubs[n].status == Applied ==> later.pubs[n].status == Applied && later.pubs[n].pr == now.pubs[n].pr))
      && (n in now.pubs && m in now.pubs && n != m ==> now.pubs[n].intent.headRef != now.pubs[m].intent.headRef)
  {
    RunKeepsConsistency(EMPTY, past);
    RunKeepsConsistency(Run(EMPTY, past), future);
    RunAppend(EMPTY, past, future);
  }

  /** Sticky association: a row that once held linked or ambiguous PRs is never
      again claimable or claimed, whatever scans, closures, reopenings, claims,
      takeovers and confirmations follow. */
  lemma AssociationIsForever(past: seq<Timed>, future: seq<Timed>, n: nat)
    requires n in Run(EMPTY, past).rows && Associated(Run(EMPTY, past).rows[n].notes)
    ensures n in Run(EMPTY, past + future).rows
    ensures Run(EMPTY, past + future).rows[n].status !in {AwaitingPlanner, Leased}
    ensures Associated(Run(EMPTY, past + future).rows[n].notes)
  {
    RunKeepsConsistency(EMPTY, past);
    RunKeepsConsistency(Run(EMPTY, past), future);
    RunAppend(EMPTY, past, future);
  }

  /** `owner` does not take the reservation of issue `n` (again) in these deeds. */
  predicate NeverResumes(deeds: seq<Timed>, n: nat, owner: Ownership) {
    forall i :: 0 <= i < |deeds| && deeds[i].deed.ResumeDeed? && deeds[i].deed.n == n
      ==> Owner(deeds[i].deed.worker, deeds[i].deed.lease) != owner
  }

  lemma DeedKeepsOtherOwners(db: Tables, d: Deed, t: Time, n: nat, owner: Ownership)
    requires n in db.pubs && db.pubs[n].owner != owner
    requires d.ResumeDeed? && d.n == n ==> Owner(d.worker, d.lease) != owner
    ensures n in Do(db, d, t).pubs && Do(db, d, t).pubs[n].owner != owner
  {
    match d {
      case ResumeDeed(m, initial, g, w, l) => ResumeShape(db, m, initial, g, w, l, t);
      case _ =>
    }
  }

  lemma {:induction false} OwnerChangesOnlyByResume(db: Tables, deeds: seq<Timed>, n: nat, owner: Ownership)
    requires NeverResumes(deeds, n, owner)
    requires n in db.pubs && db.pubs[n].owner != owner
    ensures n in Run(db, deeds).pubs && Run(db, deeds).pubs[n].owner != owner
    decreases |deeds|
  {
    if deeds != [] {
      DeedKeepsOtherOwners(db, deeds[0].deed, deeds[0].time, n, owner);
      OwnerChangesOnlyByResume(Do(db, deeds[0].deed, deeds[0].time), deeds[1..], n, owner);
    }
  }

  /** After a takeover the previous owner's new confirm calls fail until that
      owner takes the reservation over again. */
  lemma TakeoverShutsOutOldOwner(
      db: Tables, n: nat, initial: Publication, generation: string, worker: string, lease: string, t: Time,
      deeds: seq<Timed>, id: PublicationId, gen: string, pr: nat)
    requires Consistent(db) && n in db.pubs && db.pubs[n].owner != Owner(worker, lease)
    requires Resume(db, n, initial, generation, worker, lease, t).1 == Granted
    requires NeverResumes(deeds, n, db.pubs[n].owner)
    ensures var taken := Resume(db, n, initial, generation, worker, lease, t).0;
      !MayConfirm(Run(taken, deeds), n, id, gen, db.pubs[n].owner, pr)
  {
    var d := ResumeDeed(n, initial, generation, worker, lease);
    DoKeepsConsistency(db, d, t);
    OwnerChangesOnlyByResume(Do(db, d, t), deeds, n, db.pubs[n].owner);
  }

  /** A confirm call that read the row before a takeover cannot activate it
      while the new owner's lease is on the issue. */
  lemma StaleConfirmCannotOvertake(db: Tables, n: nat, seen: Publication, pr: nat)
    requires Consistent(db) && n in db.pubs && n in db.rows
    requires db.pubs[n].status == Prepared && db.rows[n].status == Leased
    requires seen.owner != db.pubs[n].owner
    ensures Activate(db, n, seen, pr) == (db, Denied(PLANNER_OWNERSHIP_CHANGED))
         || Activate(db, n, seen, pr) == (db, Denied(PUBLICATION_IDENTITY_CHANGED))
  {
    assert db.pubs[n].owner == RowOwner(db.rows[n]);
  }

  /** Confirming again after a lost response changes nothing and succeeds. */
  lemma ConfirmIsIdempotent(db: Tables, n: nat, seen: Publication, pr: nat)
    requires Activate(db, n, seen, pr).1 == Granted
    ensures var next := Activate(db, n, seen, pr).0;
      Activate(next, n, seen, pr) == (next, Granted)
  {
    var next := Activate(db, n, seen, pr).0;
    var again := Activate(next, n, seen, pr).0;
    assert again.rows[n] == next.rows[n] && again.pubs[n] == next.pubs[n];
    assert again.rows == next.rows && again.pubs == next.pubs;
  }

  /** No takeover of issue `n` is granted in these deeds. */
  predicate NoGrantedResume(db: Tables, deeds: seq<Timed>, n: nat)
    decreases |deeds|
  {
    deeds == []
    || (var d, t := deeds[0].deed, deeds[0].time;
        && !(d.ResumeDeed? && d.n == n && Resume(db, n, d.initial, d.generation, d.worker, d.lease, t).1 == Granted)
        && NoGrantedResume(Do(db, d, t), deeds[1..], n))
  }

  lemma {:induction false} OwnerStaysWithoutResume(db: Tables, deeds: seq<Timed>, n: nat)
    requires n in db.pubs && NoGrantedResume(db, deeds, n)
    ensures n in Run(db, deeds).pubs && Run(db, deeds).pubs[n].owner == db.pubs[n].owner
    decreases |deeds|
  {
    if deeds != [] {
      var d, t := deeds[0].deed, deeds[0].time;
      if d.ResumeDeed? {
        ResumeShape(db, d.n, d.initial, d.generation, d.worker, d.lease, t);
      }
      OwnerStaysWithoutResume(Do(db, d, t), deeds[1..], n);
    }
  }

  /** A reserved issue changes hands only by a granted takeover: in any run, from
      a reservation to any later moment at which it is still unconfirmed, whoever
      holds the issue, or is granted it there, is the reservation's first owner. */
  lemma ReservedIssueChangesHandsOnlyByResume(past: seq<Timed>, future: seq<Timed>, n: nat)
    requires n in Run(EMPTY, past).pubs && NoGrantedResume(Run(EMPTY, past), future, n)
    requires n in Run(EMPTY, past + future).pubs && Run(EMPTY, past + future).pubs[n].status == Prepared
    ensures var owner, later := Run(EMPTY, past).pubs[n].owner, Run(EMPTY, past + future);
      && later.pubs[n].owner == owner
      && (n in later.rows && later.rows[n].status == Leased ==> RowOwner(later.rows[n]) == owner)
      && (forall generation, worker, lease, t ::
            ClaimIssue(later, n, generation, worker, lease, t).1 == Granted ==> Owner(worker, lease) == owner)
  {
    RunKeepsConsistency(EMPTY, past);
    RunKeepsConsistency(Run(EMPTY, past), future);
    RunAppend(EMPTY, past, future);
    OwnerStaysWithoutResume(Run(EMPTY, past), future, n);
  }

  /* ---- What a scan leaves claimable ---- */

  /** The list holds issue `n` in this revision, and nothing speaks against planning it. */
  ghost predicate PlannableIn(issues: seq<Issue>, n: nat, generation: string) {
    exists i :: 0 <= i < |issues| && issues[i].number == n && issues[i].generation == generation && Plannable(issues[i])
  }

  /** An owner-written root task that nothing holds and no PR refers to. */
  predicate Plannable(x: Issue) {
    x.byOwner && x.root && !x.emptyBody && !x.held && x.strong == [] && x.ambiguous == []
  }

  lemma {:induction false} ObservedRow(db: Tables, issues: seq<Issue>, n: nat)
    requires n in ObserveAll(db, issues).rows && Listed(issues, n)
    requires ObserveAll(db, issues).rows[n].status == AwaitingPlanner
    ensures PlannableIn(issues, n, ObserveAll(db, issues).rows[n].generation)
    decreases |issues|
  {
    var front, x := issues[..|issues| - 1], issues[|issues| - 1];
    if x.number != n {
      assert Listed(front, n) by {
        var k :| 0 <= k < |issues| && issues[k].number == n;
        assert front[k].number == n;
      }
      ObservedRow(db, front, n);
      var i :| 0 <= i < |front| && front[i].number == n
        && front[i].generation == ObserveAll(db, front).rows[n].generation && Plannable(front[i]);
      assert issues[i] == front[i];
    } else {
      assert issues[|issues| - 1].number == n;
    }
  }

  /** What the closing pass does to one row. */
  lemma {:induction false} CloseAbsentAt(db: Tables, items: seq<Item>, issues: seq<Issue>, n: nat)
    ensures n in db.rows ==> n in CloseAbsent(db, items, issues).rows
    ensures n in CloseAbsent(db, items, issues).rows && n !in db.rows ==>
      exists i :: 0 <= i < |items| && items[i].number == n
    ensures n in db.rows && Listed(issues, n) ==> CloseAbsent(db, items, issues).rows[n] == db.rows[n]
    ensures n in db.rows && !Listed(issues, n)
            && (db.rows[n].status == Closed
                || exists i :: 0 <= i < |items| && items[i].number == n && items[i].row.status != Closed) ==>
      CloseAbsent(db, items, issues).rows[n].status == Closed
    decreases |items|
  {
    if items != [] {
      var front, x := items[..|items| - 1], items[|items| - 1];
      CloseAbsentAt(db, front, issues, n);
      if i :| 0 <= i < |items| && items[i].number == n && items[i].row.status != Closed {
        assert i < |front| ==> front[i] == items[i];
      }
      if i :| 0 <= i < |front| && front[i].number == n {
        assert items[i].number == n;
      }
    }
  }

  /** Right after an uninterrupted scan a claimable issue is open and plannable
      in exactly the listed revision, and never had a PR. */
  lemma ClaimableAfterScan(db: Tables, issues: seq<Issue>, items: seq<Item>, n: nat)
    requires Consistent(db) && ListsRows(items, ObserveAll(db, issues).rows)
    requires n in Scan(db, issues, items).rows && Scan(db, issues, items).rows[n].status == AwaitingPlanner
    ensures !Associated(Scan(db, issues, items).rows[n].notes)
    ensures PlannableIn(issues, n, Scan(db, issues, items).rows[n].generation)
  {
    ScanIsItsDeeds(db, issues, items, 0);
    RunKeepsConsistency(db, ScanDeeds(issues, items, 0));
    var seen := ObserveAll(db, issues);
    CloseAbsentAt(seen, items, issues, n);
    assert n in seen.rows;
    assert Listed(issues, n) by {
      var i :| 0 <= i < |items| && items[i].number == n;
      assert items[i].row == seen.rows[n];
    }
    ObservedRow(db, issues, n);
  }

  /* ---- A scan is a series of transactions ---- */

  function ObserveDeeds(issues: seq<Issue>, t: Time): seq<Timed> {
    if issues == [] then []
    else ObserveDeeds(issues[..|issues| - 1], t) + [Timed(t, ObserveDeed(issues[|issues| - 1]))]
  }

  function CloseDeeds(items: seq<Item>, issues: seq<Issue>, t: Time): seq<Timed> {
    if items == [] then []
    else
      var x := items[|items| - 1];
      CloseDeeds(items[..|items| - 1], issues, t) + if Closes(x, issues) then [Timed(t, CloseDeed(x))] else []
  }

  function ScanDeeds(issues: seq<Issue>, items: seq<Item>, t: Time): seq<Timed> {
    ObserveDeeds(issues, t) + CloseDeeds(items, issues, t)
  }

  /** So what every run keeps, a scan interleaved with other transactions keeps. */
  lemma ScanIsItsDeeds(db: Tables, issues: seq<Issue>, items: seq<Item>, t: Time)
    ensures Run(db, ScanDeeds(issues, items, t)) == Scan(db, issues, items)
  {
    ObservesAreDeeds(db, issues, t);
    ClosesAreDeeds(ObserveAll(db, issues), items, issues, t);
    RunAppend(db, ObserveDeeds(issues, t), CloseDeeds(items, issues, t));
  }

  lemma {:induction false} ObservesAreDeeds(db: Tables, issues: seq<Issue>, t: Time)
    ensures Run(db, ObserveDeeds(issues, t)) == ObserveAll(db, issues)
    decreases |issues|
  {
    if issues != [] {
      var front, last := issues[..|issues| - 1], issues[|issues| - 1];
      ObservesAreDeeds(db, front, t);
      RunAppend(db, ObserveDeeds(front, t), [Timed(t, ObserveDeed(last))]);
      assert Run(ObserveAll(db, front), [Timed(t, ObserveDeed(last))]) == ObserveIssue(ObserveAll(db, front), last);
    }
  }

  lemma {:induction false} ClosesAreDeeds(db: Tables, items: seq<Item>, issues: seq<Issue>, t: Time)
    ensures Run(db, CloseDeeds(items, issues, t)) == CloseAbsent(db, items, issues)
    decreases |items|
  {
    if items != [] {
      var front, x := items[..|items| - 1], items[|items| - 1];
      ClosesAreDeeds(db, front, issues, t);
      if Closes(x, issues) {
        RunAppend(db, CloseDeeds(front, issues, t), [Timed(t, CloseDeed(x))]);
        assert Run(CloseAbsent(db, front, issues), [Timed(t, CloseDeed(x))]) == CloseItem(CloseAbsent(db, front, issues), x);
      } else {
        assert CloseDeeds(items, issues, t) == CloseDeeds(front, issues, t);
      }
    }
  }
}
