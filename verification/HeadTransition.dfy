/** Rebinding a live lease to the commit it declared before publishing it. */
module HeadTransition {
  import opened Labels
  import opened Records
  import opened LeaseStore
  import opened Fencing
  import opened HandoffGate
  import opened EvidenceGate
  import opened StateProjection
  import opened ClaimApi
  import StateStore

  datatype Refresh = Unchanged | Rebind | Mismatch | Lost(error: StoreError)

  predicate ExternalRow(db: Db, d: DeliveryId) { d in db.events && db.events[d].payload.ExternalPayload? }

  function BindingOf(db: Db, d: DeliveryId): Binding
    requires ExternalRow(db, d)
  {
    db.events[d].payload.binding
  }

  function CheckpointIn(row: Event): Checkpoint {
    if row.checkpoint.Some? then row.checkpoint.value else NO_CHECKPOINT
  }

  function CheckpointOf(db: Db, d: DeliveryId): Checkpoint
    requires d in db.events
  {
    CheckpointIn(db.events[d])
  }

  /** The live PR shows exactly the declared publication and nothing else moved. */
  predicate Declared(b: Binding, intent: HeadIntent, pr: PullRequest) {
    && pr.open && !pr.merged
    && pr.headSha == intent.to && b.sha == intent.from
    && pr.headRef == b.headRef && pr.baseRef == intent.baseRef && pr.headRepo == b.repo
    && !ProtectedBranch(pr) && pr.tasks == {b.taskId}
    && Route(pr.labels) == RunningRoute(b) && Alarms(pr.labels) == {}
  }

  /** Old-SHA projections are dropped; the start audit follows the commit. */
  function Carried(cp: Checkpoint, intent: HeadIntent): Checkpoint {
    cp.(head := Some(intent.(applied := true)), projection := None, recovery := None,
        start := if cp.start.Some? then Some(cp.start.value.(sha := intent.to)) else None)
  }

  /** `row` is the row the caller was handed, perhaps stale by now. The
      assertion reads the clock at `t`, the move at `t'`. */
  function RefreshDeclaredHead(db: Db, row: Event, d: DeliveryId, l: Lease, pr: PullRequest, t: Time, t': Time): (Db, Refresh)
    requires row.payload.ExternalPayload?
  {
    var b, cp := row.payload.binding, CheckpointIn(row);
    if cp.head.None? || cp.head.value.applied || pr.headSha == b.sha then (db, Unchanged)
    else if !Declared(b, cp.head.value, pr) then (db, Mismatch)
    else if !Owns(db, b.operationKey, d, l, t) then (db, Lost(WORKER_OPERATION_LEASE_LOST))
    else
      var intent := cp.head.value;
      var (next, reply) := MoveExternalHead(db, d, l, intent.from, intent.to, Carried(cp, intent), t');
      (next, if reply.Ok? then Rebind else Lost(reply.error))
  }

  method RefreshStore(store: StateStore.Store, row: Event, d: DeliveryId, l: Lease, pr: PullRequest, t: Time, t': Time)
    returns (r: Refresh)
    requires row.payload.ExternalPayload?
    modifies store
    ensures (store.Db(), r) == RefreshDeclaredHead(old(store.Db()), row, d, l, pr, t, t')
  {
    var b := row.payload.binding;
    var cp := if row.checkpoint.Some? then row.checkpoint.value else NO_CHECKPOINT;
    if cp.head.None? || cp.head.value.applied || pr.headSha == b.sha {
      return Unchanged;
    }
    var intent := cp.head.value;
    if !Declared(b, intent, pr) {
      return Mismatch;
    }
    var held := store.AssertOperation(b.operationKey, d, l, t);
    if held.Raised? {
      return Lost(held.error);
    }
    intent := intent.(applied := true);
    cp := cp.(head := Some(intent), projection := None, recovery := None);
    if cp.start.Some? {
      cp := cp.(start := Some(cp.start.value.(sha := intent.to)));
    }
    var moved := store.MoveExternalHead(d, l, intent.from, intent.to, cp, t');
    r := if moved.Ok? then Rebind else Lost(moved.error);
  }

  /** The store already shows this very move, made by an earlier call. */
  predicate MovedBefore(db: Db, d: DeliveryId, row: Event) {
    && ExternalRow(db, d) && CheckpointIn(row).head.Some?
    && AlreadyMoved(db.events[d], CheckpointIn(row).head.value.from, CheckpointIn(row).head.value.to)
  }

  /** A rebinding, however stale the row it works on, lands on the live head.
      Either an earlier call had already made this move and nothing changes, or
      the owner keeps the row, gets the key of the new commit, and no projection
      that old evidence authorised is left. */
  lemma RebindFollowsLiveHead(db: Db, row: Event, d: DeliveryId, l: Lease, pr: PullRequest, t: Time, t': Time)
    requires row.payload.ExternalPayload?
    requires RefreshDeclaredHead(db, row, d, l, pr, t, t').1 == Rebind
    ensures var next := RefreshDeclaredHead(db, row, d, l, pr, t, t').0;
      && ExternalRow(db, d) && ExternalRow(next, d)
      && BindingOf(next, d).sha == pr.headSha != row.payload.binding.sha
      && (BindingOf(db, d).sha == pr.headSha ==> next == db && MovedBefore(db, d, row))
      && (BindingOf(db, d).sha != pr.headSha ==>
            && var b, cp := BindingOf(next, d), CheckpointOf(next, d);
               && b == BindingOf(db, d).(sha := pr.headSha, operationKey := KeyOf(b))
               && Owns(next, KeyOf(b), d, l, t')
               && cp.projection.None? && cp.recovery.None?
               && (cp.start.Some? ==> cp.start.value.sha == pr.headSha)
               && (ReplaysStart(cp, l) <==> ReplaysStart(CheckpointIn(row), l)))
  {
    var cp := CheckpointIn(row);
    var intent := cp.head.value;
    if BindingOf(db, d).sha == intent.from {
      MoveIsExclusiveAndAtomic(db, d, l, intent.from, intent.to, Carried(cp, intent), t');
    }
  }

  /** A key that another live worker holds for the new commit stops the move. */
  lemma RebindNeverSteals(
      db: Db, row: Event, d: DeliveryId, l: Lease, pr: PullRequest, t: Time, t': Time, d': DeliveryId, l': Lease)
    requires row.payload.ExternalPayload? && ExternalRow(db, d)
    requires (d', l') != (d, l)
    requires var b := BindingOf(db, d); Owns(db, Operation(b.repo, b.pr, pr.headSha, b.phase), d', l', t')
    ensures var (next, r) := RefreshDeclaredHead(db, row, d, l, pr, t, t');
      next == db && (r == Rebind ==> MovedBefore(db, d, row))
  {
    var b, cp := row.payload.binding, CheckpointIn(row);
    if cp.head.Some? && Declared(b, cp.head.value, pr) && Live(db, d, l, t')
       && BindingOf(db, d).sha == cp.head.value.from
    {
      MoveIsExclusiveAndAtomic(db, d, l, cp.head.value.from, cp.head.value.to, Carried(cp, cp.head.value), t');
    }
  }

  /** A lost response is safe: after the move the refresh changes nothing, be it
      repeated on the row it had before or on the row as it is now. */
  lemma RebindIsIdempotent(
      db: Db, row: Event, d: DeliveryId, l: Lease, pr: PullRequest, t: Time, t': Time, s: Time, s': Time)
    requires row.payload.ExternalPayload?
    requires RefreshDeclaredHead(db, row, d, l, pr, t, t').1 == Rebind
    ensures var next := RefreshDeclaredHead(db, row, d, l, pr, t, t').0;
      && ExternalRow(next, d)
      && RefreshDeclaredHead(next, row, d, l, pr, s, s').0 == next
      && RefreshDeclaredHead(next, next.events[d], d, l, pr, s, s') == (next, Unchanged)
  {
    RebindFollowsLiveHead(db, row, d, l, pr, t, t');
  }

  /** After a move an advance needs new evidence: green CI of the new commit, and
      either a trusted record of this task that names it, or its own report
      commit, which only leads to a new review. */
  lemma AdvanceAfterRebindNeedsNewEvidence(
      db: Db, row: Event, d: DeliveryId, l: Lease, pr: PullRequest, t: Time, t': Time,
      live: PullRequest, log: Log, runs: Runs)
    requires row.payload.ExternalPayload?
    requires RefreshDeclaredHead(db, row, d, l, pr, t, t').1 == Rebind
    requires var next := RefreshDeclaredHead(db, row, d, l, pr, t, t').0;
      && ExternalRow(next, d)
      && AdvancePlan(BindingOf(next, d), l, CheckpointOf(next, d), live, log, runs).Write?
    ensures live.headSha == pr.headSha && GreenCi(runs, pr.headSha, live.headRef)
    ensures var next := RefreshDeclaredHead(db, row, d, l, pr, t, t').0;
      var b, cp := BindingOf(next, d), CheckpointOf(next, d);
      var audit := AdvancePlan(b, l, cp, live, log, runs).value;
      if MovedHeadInQa(b, cp) then cp.report.value.to == pr.headSha && audit.workflowAfter == POST_QA_ROUTE
      else
        && VerifiedNextWorkflow(b, log, runs) == Accept(audit.workflowAfter)
        && exists c :: c in log && NamesCommit(c, b.taskId, pr.headSha)
  {
    RebindFollowsLiveHead(db, row, d, l, pr, t, t');
    var next := RefreshDeclaredHead(db, row, d, l, pr, t, t').0;
    var b, cp := BindingOf(next, d), CheckpointOf(next, d);
    AdvanceTargets(b, cp, log, runs);
    if !MovedHeadInQa(b, cp) {
      AcceptedEvidenceNamesCommit(b, log, runs);
    }
  }
}
