/** Issue intake and planning reservations of one repository: two tables that
    must stay coupled. Digests of owners and intents are taken as injective. */
module Intake {
  import opened Records

  const PLANNER_LEASE_SECONDS: nat := 3600

  datatype IssueStatus =
    | AwaitingPlanner | Leased | NeedsTriage | NeedsTaskSpec | NotAgentRoot
    | OnHold | Linked | NeedsLinkResolution | Closed

  datatype Link = Link(linked: seq<nat>, ambiguous: seq<nat>)
  datatype Notes = Notes(linked: seq<nat>, ambiguous: seq<nat>, previousLink: Option<Link>)

  datatype IssueRow = IssueRow(
    generation: string, status: IssueStatus, notes: Notes,
    worker: Option<string>, lease: Option<string>, expires: Option<Time>)

  datatype Ownership = Ownership(worker: Option<string>, lease: Option<string>)

  datatype Intent = Intent(
    issue: nat, generation: string, headRef: string, headSha: Sha, baseRef: string, bodyDigest: string)

  datatype PublicationId = PublicationId(intent: Intent, firstOwner: Ownership)
  datatype PublicationStatus = Prepared | Applied

  datatype Publication = Publication(
    id: PublicationId, generation: string, owner: Ownership, intent: Intent,
    status: PublicationStatus, pr: Option<nat>)

  datatype Tables = Tables(rows: map<nat, IssueRow>, pubs: map<nat, Publication>)

  datatype IntakeError =
    | ISSUE_CHANGED | ANOTHER_PLANNER_OWNS_LEASE | PUBLICATION_CONFIRMATION_REQUIRED
    | ISSUE_NOT_READY | PLANNER_LEASE_EXPIRED | PLANNER_LEASE_LOST
    | PUBLICATION_ALREADY_RESERVED | PUBLICATION_BRANCH_ALREADY_RESERVED
    | PUBLICATION_NOT_PENDING | PUBLICATION_OWNERSHIP_CHANGED
    | PUBLICATION_IDENTITY_CHANGED | PLANNER_OWNERSHIP_CHANGED

  datatype Answer = Granted | Denied(error: IntakeError)

  function Owner(worker: string, lease: string): Ownership { Ownership(Some(worker), Some(lease)) }
  function RowOwner(r: IssueRow): Ownership { Ownership(r.worker, r.lease) }

  predicate HoldsLinks(n: Notes) { n.linked != [] || n.ambiguous != [] }

  /** The row has at some time held linked or ambiguous PRs. */
  predicate Associated(n: Notes) { n.previousLink.Some? || HoldsLinks(n) }

  function Association(n: Notes): Option<Link> {
    if n.previousLink.Some? then n.previousLink
    else if HoldsLinks(n) then Some(Link(n.linked, n.ambiguous))
    else None
  }

  /* ---- Scanning ---- */

  function Observe(db: Tables, n: nat, generation: string, status: IssueStatus, notes: Notes): Tables {
    var association := if n in db.rows then Association(db.rows[n].notes) else None;
    var kept := if association.Some? then notes.(previousLink := association) else notes;
    var shown := if association.Some? && status == AwaitingPlanner then NeedsLinkResolution else status;
    if n in db.rows && db.rows[n].generation == generation && shown == AwaitingPlanner && db.rows[n].status == Leased
    then db
    else db.(rows := db.rows[n := IssueRow(generation, shown, kept, None, None, None)])
  }

  /** One open issue as the scan sees it, references already extracted. */
  datatype Issue = Issue(
    number: nat, generation: string, byOwner: bool, emptyBody: bool, root: bool, held: bool,
    strong: seq<nat>, ambiguous: seq<nat>)

  function ScanStatus(x: Issue): IssueStatus {
    if |x.strong| == 1 && x.ambiguous == [] then Linked
    else if x.strong != [] || x.ambiguous != [] then NeedsLinkResolution
    else if x.held then OnHold
    else if x.emptyBody then NeedsTaskSpec
    else if !x.root then NotAgentRoot
    else if !x.byOwner then NeedsTriage
    else AwaitingPlanner
  }

  function ObserveIssue(db: Tables, x: Issue): Tables {
    Observe(db, x.number, x.generation, ScanStatus(x), Notes(x.strong, x.ambiguous, None))
  }

  function ObserveAll(db: Tables, issues: seq<Issue>): Tables {
    if issues == [] then db else ObserveIssue(ObserveAll(db, issues[..|issues| - 1]), issues[|issues| - 1])
  }

  predicate Listed(issues: seq<Issue>, n: nat) { exists i :: 0 <= i < |issues| && issues[i].number == n }

  /** One row as the closing pass read it, perhaps changed since. */
  datatype Item = Item(number: nat, row: IssueRow)

  function CloseItem(db: Tables, x: Item): Tables { Observe(db, x.number, x.row.generation, Closed, x.row.notes) }

  predicate Closes(x: Item, issues: seq<Issue>) { !Listed(issues, x.number) && x.row.status != Closed }

  function CloseAbsent(db: Tables, items: seq<Item>, issues: seq<Issue>): Tables {
    if items == [] then db
    else
      var before, x := CloseAbsent(db, items[..|items| - 1], issues), items[|items| - 1];
      if Closes(x, issues) then CloseItem(before, x) else before
  }

  /** ORDER BY issue_number over all rows. */
  predicate ListsRows(items: seq<Item>, rows: map<nat, IssueRow>) {
    && (forall i :: 0 <= i < |items| ==> items[i].number in rows && rows[items[i].number] == items[i].row)
    && (forall i, j :: 0 <= i < j < |items| ==> items[i].number < items[j].number)
    && (forall n :: n in rows ==> exists i :: 0 <= i < |items| && items[i].number == n)
  }

  function Scan(db: Tables, issues: seq<Issue>, items: seq<Item>): Tables {
    CloseAbsent(ObserveAll(db, issues), items, issues)
  }

  /* ---- Issue leases ---- */

  predicate LiveLease(r: IssueRow, t: Time) { r.status == Leased && r.expires.Some? && r.expires.value > t }

  predicate Reserved(db: Tables, n: nat) { n in db.pubs && db.pubs[n].status == Prepared }

  function Granting(r: IssueRow, worker: string, lease: string, t: Time): IssueRow {
    r.(status := Leased, worker := Some(worker), lease := Some(lease), expires := Some(t + PLANNER_LEASE_SECONDS))
  }

  function ClaimIssue(db: Tables, n: nat, generation: string, worker: string, lease: string, t: Time): (Tables, Answer) {
    if n !in db.rows || db.rows[n].generation != generation then (db, Denied(ISSUE_CHANGED))
    else
      var r := db.rows[n];
      if LiveLease(r, t) then
        (db, if RowOwner(r) == Owner(worker, lease) then Granted else Denied(ANOTHER_PLANNER_OWNS_LEASE))
      else if Reserved(db, n) then (db, Denied(PUBLICATION_CONFIRMATION_REQUIRED))
      else if r.status != AwaitingPlanner && r.status != Leased then (db, Denied(ISSUE_NOT_READY))
      else if r.lease == Some(lease) then (db, Denied(PLANNER_LEASE_EXPIRED))
      else (db.(rows := db.rows[n := Granting(r, worker, lease, t)]), Granted)
  }

  function RenewIssue(db: Tables, n: nat, generation: string, worker: string, lease: string, t: Time): (Tables, bool) {
    if n in db.rows && db.rows[n].generation == generation && RowOwner(db.rows[n]) == Owner(worker, lease)
       && LiveLease(db.rows[n], t)
    then (db.(rows := db.rows[n := db.rows[n].(expires := Some(t + PLANNER_LEASE_SECONDS))]), true)
    else (db, false)
  }

  /* ---- Publications ---- */

  predicate BranchTaken(db: Tables, intent: Intent) {
    exists n :: n in db.pubs && n != intent.issue && db.pubs[n].intent.headRef == intent.headRef
  }

  function Prepare(db: Tables, intent: Intent, worker: string, lease: string, t: Time): (Tables, Answer) {
    var n, owner := intent.issue, Owner(worker, lease);
    if n !in db.rows || db.rows[n].generation != intent.generation || RowOwner(db.rows[n]) != owner
       || !LiveLease(db.rows[n], t)
    then (db, Denied(PLANNER_LEASE_LOST))
    else if n in db.pubs then
      (db, if db.pubs[n].id == PublicationId(intent, owner) then Granted else Denied(PUBLICATION_ALREADY_RESERVED))
    else if BranchTaken(db, intent) then (db, Denied(PUBLICATION_BRANCH_ALREADY_RESERVED))
    else
      (db.(pubs := db.pubs[n := Publication(PublicationId(intent, owner), intent.generation, owner, intent, Prepared, None)]),
       Granted)
  }

  /** The resume transaction; `initial` is the row read before the GitHub checks. */
  function Resume(db: Tables, n: nat, initial: Publication, generation: string, worker: string, lease: string, t: Time)
    : (Tables, Answer)
  {
    if initial.status != Prepared then (db, Denied(PUBLICATION_NOT_PENDING))
    else if initial.generation != generation then (db, Denied(ISSUE_CHANGED))
    else if n !in db.pubs || db.pubs[n].id != initial.id || db.pubs[n].status != Prepared
            || db.pubs[n].owner != initial.owner
    then (db, Denied(PUBLICATION_OWNERSHIP_CHANGED))
    else if n !in db.rows || db.rows[n].generation != generation
            || (db.rows[n].status != AwaitingPlanner && db.rows[n].status != Leased)
    then (db, Denied(ISSUE_NOT_READY))
    else
      var r, owner := db.rows[n], Owner(worker, lease);
      if LiveLease(r, t) && RowOwner(r) != owner then (db, Denied(ANOTHER_PLANNER_OWNS_LEASE))
      else if !LiveLease(r, t) && r.lease == Some(lease) then (db, Denied(PLANNER_LEASE_EXPIRED))
      else
        (Tables(db.rows[n := Granting(r, worker, lease, t)], db.pubs[n := db.pubs[n].(owner := owner)]), Granted)
  }

  /** The first check of a confirm call, on the row it reads. */
  predicate MayConfirm(db: Tables, n: nat, id: PublicationId, generation: string, owner: Ownership, pr: nat) {
    && n in db.pubs
    && db.pubs[n].id == id && db.pubs[n].owner == owner && db.pubs[n].generation == generation
    && (db.pubs[n].pr.None? || db.pubs[n].pr.value == pr)
  }

  /** The activating transaction; `seen` is the row the confirm call read. */
  function Activate(db: Tables, n: nat, seen: Publication, pr: nat): (Tables, Answer) {
    if n !in db.pubs || db.pubs[n].id != seen.id || db.pubs[n].generation != seen.generation
       || (db.pubs[n].pr.Some? && db.pubs[n].pr.value != pr)
    then (db, Denied(PUBLICATION_IDENTITY_CHANGED))
    else if n !in db.rows || db.rows[n].generation != seen.generation
            || (db.rows[n].status == Leased && RowOwner(db.rows[n]) != seen.owner)
    then (db, Denied(PLANNER_OWNERSHIP_CHANGED))
    else
      var r := db.rows[n];
      (Tables(db.rows[n := IssueRow(r.generation, Linked, r.notes.(linked := [pr]), None, None, None)],
              db.pubs[n := db.pubs[n].(status := Applied, pr := Some(pr))]),
       Granted)
  }

  lemma {:induction false} HasLeast(s: set<nat>, x: nat)
    requires x in s
    ensures exists n :: n in s && forall m :: m in s ==> n <= m
    decreases x
  {
    if y :| y in s && y < x {
      HasLeast(s, y);
    }
  }

  /** `items` lists the rows below `pending`, in order. */
  predicate Reading(items: seq<Item>, pending: set<nat>, rows: map<nat, IssueRow>) {
    && pending <= rows.Keys
    && (forall i :: 0 <= i < |items| ==> items[i].number in rows && rows[items[i].number] == items[i].row)
    && (forall i, j :: 0 <= i < j < |items| ==> items[i].number < items[j].number)
    && (forall i, n :: 0 <= i < |items| && n in pending ==> items[i].number < n)
    && (forall n :: n in rows && n !in pending ==> exists i :: 0 <= i < |items| && items[i].number == n)
  }

  lemma ReadingOn(items: seq<Item>, pending: set<nat>, rows: map<nat, IssueRow>, n: nat)
    requires Reading(items, pending, rows) && n in pending && forall m :: m in pending ==> n <= m
    ensures Reading(items + [Item(n, rows[n])], pending - {n}, rows)
  {
    var next := items + [Item(n, rows[n])];
    forall m | m in rows && m !in pending - {n}
      ensures exists i :: 0 <= i < |next| && next[i].number == m
    {
      if m == n {
        assert next[|items|].number == m;
      } else {
        var i :| 0 <= i < |items| && items[i].number == m;
        assert next[i].number == m;
      }
    }
  }

  /* ---- The store's intake tables as an object ---- */

  class IntakeStore {
    var rows: map<nat, IssueRow>
    var pubs: map<nat, Publication>

    function Db(): Tables reads this { Tables(rows, pubs) }

    constructor ()
      ensures Db() == Tables(map[], map[])
    {
      rows, pubs := map[], map[];
    }

    method ObserveRow(n: nat, generation: string, status: IssueStatus, notes: Notes)
      modifies `rows
      ensures Db() == Observe(old(Db()), n, generation, status, notes)
    {
      var kept, shown := notes, status;
      if n in rows {
        var previous := rows[n].notes;
        var association := if previous.previousLink.Some? then previous.previousLink
                           else if previous.linked != [] || previous.ambiguous != []
                           then Some(Link(previous.linked, previous.ambiguous)) else None;
        if association.Some? {
          kept := kept.(previousLink := association);
          if shown == AwaitingPlanner {
            shown := NeedsLinkResolution;
          }
        }
        if rows[n].generation == generation && shown == AwaitingPlanner && rows[n].status == Leased {
          return;
        }
      }
      rows := rows[n := IssueRow(generation, shown, kept, None, None, None)];
    }

    /** The scan's reassignments, last one wins. */
    static method DeriveStatus(x: Issue) returns (status: IssueStatus)
      ensures status == ScanStatus(x)
    {
      status := AwaitingPlanner;
      if !x.byOwner {
        status := NeedsTriage;
      }
      if x.emptyBody {
        status := NeedsTaskSpec;
      } else if !x.root {
        status := NotAgentRoot;
      }
      if x.held {
        status := OnHold;
      }
      if |x.strong| == 1 && x.ambiguous == [] {
        status := Linked;
      } else if x.strong != [] || x.ambiguous != [] {
        status := NeedsLinkResolution;
      }
    }

    method ObserveOpenIssues(issues: seq<Issue>) returns (seen: set<nat>)
      modifies `rows
      ensures Db() == ObserveAll(old(Db()), issues)
      ensures forall n :: n in seen <==> Listed(issues, n)
    {
      seen := {};
      for i := 0 to |issues|
        invariant Db() == ObserveAll(old(Db()), issues[..i])
        invariant forall n :: n in seen <==> exists k :: 0 <= k < i && issues[k].number == n
      {
        assert issues[..i + 1][..i] == issues[..i];
        seen := seen + {issues[i].number};
        var status := DeriveStatus(issues[i]);
        ObserveRow(issues[i].number, issues[i].generation, status, Notes(issues[i].strong, issues[i].ambiguous, None));
      }
      assert issues[..|issues|] == issues;
    }

    method IntakeItems() returns (items: seq<Item>)
      ensures ListsRows(items, rows)
    {
      items := [];
      var pending := rows.Keys;
      while pending != {}
        invariant Reading(items, pending, rows)
        decreases |pending|
      {
        ghost var some :| some in pending;
        HasLeast(pending, some);
        var n :| n in pending && forall m :: m in pending ==> n <= m;
        ReadingOn(items, pending, rows, n);
        items := items + [Item(n, rows[n])];
        pending := pending - {n};
      }
    }

    /** `items` is what an earlier read returned, however stale. */
    method CloseUnseen(items: seq<Item>, issues: seq<Issue>, seen: set<nat>)
      requires forall n :: n in seen <==> Listed(issues, n)
      modifies `rows
      ensures Db() == CloseAbsent(old(Db()), items, issues)
    {
      for i := 0 to |items|
        invariant Db() == CloseAbsent(old(Db()), items[..i], issues)
      {
        assert items[..i + 1][..i] == items[..i];
        if items[i].number !in seen && items[i].row.status != Closed {
          ObserveRow(items[i].number, items[i].row.generation, Closed, items[i].row.notes);
        }
      }
      assert items[..|items|] == items;
    }

    /** A scan that nobody interrupts; Planning.dfy runs its transactions apart. */
    method ScanIssues(issues: seq<Issue>) returns (count: nat, ghost items: seq<Item>)
      modifies `rows
      ensures count == |issues| && ListsRows(items, ObserveAll(old(Db()), issues).rows)
      ensures Db() == Scan(old(Db()), issues, items)
    {
      var seen := ObserveOpenIssues(issues);
      var listed := IntakeItems();
      items := listed;
      CloseUnseen(listed, issues, seen);
      count := |issues|;
    }

    method Claim(n: nat, generation: string, worker: string, lease: string, now: Time) returns (r: Answer)
      modifies `rows
      ensures (Db(), r) == ClaimIssue(old(Db()), n, generation, worker, lease, now)
    {
      if n !in rows || rows[n].generation != generation {
        return Denied(ISSUE_CHANGED);
      }
      var row := rows[n];
      if row.status == Leased && row.expires.Some? && row.expires.value > now {
        if row.worker == Some(worker) && row.lease == Some(lease) {
          return Granted;
        }
        return Denied(ANOTHER_PLANNER_OWNS_LEASE);
      }
      if n in pubs && pubs[n].status == Prepared {
        return Denied(PUBLICATION_CONFIRMATION_REQUIRED);
      }
      if row.status != AwaitingPlanner && row.status != Leased {
        return Denied(ISSUE_NOT_READY);
      }
      if row.lease == Some(lease) {
        return Denied(PLANNER_LEASE_EXPIRED);
      }
      rows := rows[n := row.(status := Leased, worker := Some(worker), lease := Some(lease),
                             expires := Some(now + PLANNER_LEASE_SECONDS))];
      r := Granted;
    }

    method Renew(n: nat, generation: string, worker: string, lease: string, now: Time) returns (renewed: bool)
      modifies `rows
      ensures (Db(), renewed) == RenewIssue(old(Db()), n, generation, worker, lease, now)
    {
      renewed := n in rows && rows[n].generation == generation && rows[n].worker == Some(worker)
        && rows[n].lease == Some(lease) && LiveLease(rows[n], now);
      if renewed {
        rows := rows[n := rows[n].(expires := Some(now + PLANNER_LEASE_SECONDS))];
      }
    }

    method PreparePublication(intent: Intent, worker: string, lease: string, now: Time) returns (r: Answer)
      modifies `pubs
      ensures (Db(), r) == Prepare(old(Db()), intent, worker, lease, now)
    {
      var n := intent.issue;
      var owner := Owner(worker, lease);
      var id := PublicationId(intent, owner);
      if n !in rows || rows[n].generation != intent.generation || rows[n].status != Leased
         || rows[n].worker != Some(worker) || rows[n].lease != Some(lease)
         || rows[n].expires.None? || rows[n].expires.value <= now
      {
        return Denied(PLANNER_LEASE_LOST);
      }
      if n in pubs {
        if pubs[n].id != id {
          return Denied(PUBLICATION_ALREADY_RESERVED);
        }
        return Granted;
      }
      var pending := pubs.Keys;
      while pending != {}
        invariant pending <= pubs.Keys && Db() == old(Db())
        invariant forall m :: m in pubs && m !in pending ==> m == n || pubs[m].intent.headRef != intent.headRef
        decreases |pending|
      {
        var m :| m in pending;
        pending := pending - {m};
        if m != n && pubs[m].intent.headRef == intent.headRef {
          return Denied(PUBLICATION_BRANCH_ALREADY_RESERVED);
        }
      }
      pubs := pubs[n := Publication(id, intent.generation, owner, intent, Prepared, None)];
      r := Granted;
    }

    method ResumePublication(n: nat, initial: Publication, generation: string, worker: string, lease: string, now: Time)
      returns (r: Answer)
      modifies this
      ensures (Db(), r) == Resume(old(Db()), n, initial, generation, worker, lease, now)
    {
      if initial.status != Prepared {
        return Denied(PUBLICATION_NOT_PENDING);
      }
      if initial.generation != generation {
        return Denied(ISSUE_CHANGED);
      }
      if n !in pubs || pubs[n].id != initial.id || pubs[n].status != Prepared || pubs[n].owner != initial.owner {
        return Denied(PUBLICATION_OWNERSHIP_CHANGED);
      }
      if n !in rows || rows[n].generation != generation
         || (rows[n].status != AwaitingPlanner && rows[n].status != Leased)
      {
        return Denied(ISSUE_NOT_READY);
      }
      var row := rows[n];
      if LiveLease(row, now) {
        if row.worker != Some(worker) || row.lease != Some(lease) {
          return Denied(ANOTHER_PLANNER_OWNS_LEASE);
        }
      } else if row.lease == Some(lease) {
        return Denied(PLANNER_LEASE_EXPIRED);
      }
      pubs := pubs[n := pubs[n].(owner := Owner(worker, lease))];
      rows := rows[n := row.(status := Leased, worker := Some(worker), lease := Some(lease),
                             expires := Some(now + PLANNER_LEASE_SECONDS))];
      r := Granted;
    }

    /** What a confirm call reads first; `None` refuses it. */
    method ReadForConfirm(n: nat, id: PublicationId, generation: string, worker: string, lease: string, pr: nat)
      returns (seen: Option<Publication>)
      ensures seen.Some? <==> MayConfirm(Db(), n, id, generation, Owner(worker, lease), pr)
      ensures seen.Some? ==> n in pubs && seen.value == pubs[n]
    {
      if n !in pubs {
        return None;
      }
      var row := pubs[n];
      if row.id != id || row.owner != Owner(worker, lease) || row.generation != generation
         || (row.pr.Some? && row.pr.value != pr)
      {
        return None;
      }
      seen := Some(row);
    }

    method ActivatePublication(n: nat, seen: Publication, pr: nat) returns (r: Answer)
      modifies this
      ensures (Db(), r) == Activate(old(Db()), n, seen, pr)
    {
      if n !in pubs || pubs[n].id != seen.id || pubs[n].generation != seen.generation
         || (pubs[n].pr.Some? && pubs[n].pr.value != pr)
      {
        return Denied(PUBLICATION_IDENTITY_CHANGED);
      }
      if n !in rows || rows[n].generation != seen.generation
         || (rows[n].status == Leased && Ownership(rows[n].worker, rows[n].lease) != seen.owner)
      {
        return Denied(PLANNER_OWNERSHIP_CHANGED);
      }
      var row := rows[n];
      pubs := pubs[n := pubs[n].(status := Applied, pr := Some(pr))];
      rows := rows[n := row.(status := Linked, notes := row.notes.(linked := [pr]),
                             worker := None, lease := None, expires := None)];
      r := Granted;
    }
  }
}
