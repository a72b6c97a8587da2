/** The event queue and the operation claims of the state store, as values.
    Every store method is one atomic step that reads the clock once; the
    class in StateStore.dfy is proved against these functions. */
module LeaseStore {
  import opened Labels
  import opened Records

  const LEASE_SECONDS: nat := 3600
  const RETRY_DELAYS: seq<nat> := [0, 120, 300, 600, 1200]
  const RECONCILER: string := "lease-reconciler"

  datatype Payload =
    | NativePayload(name: string, body: string)
    | ExternalPayload(binding: Binding, worker: string)

  datatype EventStatus = Queued | InFlight | Retrying | Ended(outcome: Outcome)
  datatype Outcome = Done | Superseded | Failed | Ignored
  datatype Closing = Close(outcome: Outcome) | Again

  datatype Event = Event(
    payload: Payload, status: EventStatus, attempts: nat, createdAt: Time,
    checkpoint: Option<Checkpoint>, lease: Option<Lease>,
    expires: Option<Time>, nextRetry: Option<Time>)

  datatype Claim = Claim(delivery: DeliveryId, lease: Lease)

  datatype Db = Db(events: map<DeliveryId, Event>, claims: map<OpKey, Claim>, minted: nat)

  const EMPTY_DB := Db(map[], map[], 0)

  datatype StoreError =
    | WORKER_LEASE_LOST | WORKER_OPERATION_LEASE_LOST | CLAIM_REQUEST_REUSED
    | ANOTHER_WORKER_OWNS_LEASE | HEAD_CHANGED

  datatype Reply<+T> = Ok(value: T) | Raised(error: StoreError)

  /* ---- Liveness and ownership ---- */

  /** The event runs under this lease and the lease has not expired. */
  predicate Live(db: Db, d: DeliveryId, l: Lease, t: Time) {
    && d in db.events
    && db.events[d].status == InFlight
    && db.events[d].lease == Some(l)
    && db.events[d].expires.Some?
    && db.events[d].expires.value > t
  }

  /** Some live event holds the key. */
  predicate Held(db: Db, k: OpKey, t: Time) {
    k in db.claims && Live(db, db.claims[k].delivery, db.claims[k].lease, t)
  }

  predicate Owns(db: Db, k: OpKey, d: DeliveryId, l: Lease, t: Time) {
    k in db.claims && db.claims[k] == Claim(d, l) && Live(db, d, l, t)
  }

  /* ---- Native queue ---- */

  predicate Abandoned(e: Event, t: Time) {
    e.status == InFlight && e.payload.NativePayload?
    && (e.expires.None? || e.expires.value <= t)
  }

  function Released(e: Event): Event {
    e.(status := Retrying, lease := None, expires := None, nextRetry := None)
  }

  /** Requeue every native event whose lease is gone; external ones are left alone. */
  function RecoverInterrupted(db: Db, t: Time): Db {
    db.(events := map d | d in db.events ::
          if Abandoned(db.events[d], t) then Released(db.events[d]) else db.events[d])
  }

  function Enqueue(db: Db, id: string, name: string, body: string, t: Time): (Db, bool) {
    var d := Webhook(id);
    if d in db.events then (db, false)
    else (db.(events := db.events[d :=
            Event(NativePayload(name, body), Queued, 0, t, None, None, None, None)]), true)
  }

  predicate Eligible(e: Event, t: Time) {
    e.status == Queued
    || (e.status == Retrying && (e.nextRetry.None? || e.nextRetry.value <= t))
  }

  predicate Oldest(db: Db, t: Time, d: DeliveryId) {
    && d in db.events && Eligible(db.events[d], t)
    && forall other :: other in db.events && Eligible(db.events[other], t)
                       ==> db.events[d].createdAt <= db.events[other].createdAt
  }

  /** `pick` is the row the query returns; a row that is not the oldest
      eligible one stands for an empty result. */
  function ClaimNext(db: Db, pick: DeliveryId, t: Time): (Db, Option<Claim>) {
    var swept := RecoverInterrupted(db, t);
    if !Oldest(swept, t, pick) then (swept, None)
    else
      var l := Lease(swept.minted, NativeClaim);
      var e := swept.events[pick];
      (swept.(events := swept.events[pick :=
                e.(status := InFlight, attempts := e.attempts + 1,
                   lease := Some(l), expires := Some(t + LEASE_SECONDS))],
              minted := swept.minted + 1),
       Some(Claim(pick, l)))
  }

  /* ---- Leases ---- */

  function Heartbeat(db: Db, d: DeliveryId, l: Lease, t: Time): (Db, bool) {
    if !Live(db, d, l, t) then (db, false)
    else (db.(events := db.events[d := db.events[d].(expires := Some(t + LEASE_SECONDS))]), true)
  }

  function WriteCheckpoint(db: Db, d: DeliveryId, cp: Checkpoint, l: Option<Lease>, t: Time): (Db, Reply<()>) {
    if d in db.events && db.events[d].status == InFlight && (l.None? || Live(db, d, l.value, t))
    then (db.(events := db.events[d := db.events[d].(checkpoint := Some(cp))]), Ok(()))
    else (db, Raised(WORKER_LEASE_LOST))
  }

  function RetryDelay(attempts: nat): nat {
    RETRY_DELAYS[if attempts == 0 then 0 else if attempts > 5 then 4 else attempts - 1]
  }

  function Finish(db: Db, d: DeliveryId, how: Closing, l: Option<Lease>, t: Time): (Db, bool) {
    if d in db.events && (l.None? || Live(db, d, l.value, t)) then
      var e := db.events[d];
      var closed := match how
        case Close(o) => e.(status := Ended(o), lease := None, expires := None, nextRetry := None)
        case Again => e.(status := Retrying, lease := None, expires := None,
                         nextRetry := Some(t + RetryDelay(e.attempts)));
      (db.(events := db.events[d := closed]), true)
    else (db, false)
  }

  /* ---- Operation claims ---- */

  function ClaimOperation(db: Db, k: OpKey, d: DeliveryId, l: Lease, t: Time): (Db, Reply<bool>) {
    if !Live(db, d, l, t) then (db, Raised(WORKER_LEASE_LOST))
    else if Held(db, k, t) then (db, Ok(db.claims[k] == Claim(d, l)))
    else (db.(claims := db.claims[k := Claim(d, l)]), Ok(true))
  }

  /** The claim row and the payload written by a first external acquisition. */
  function FirstClaim(db: Db, b: Binding, worker: string, request: string, t: Time): Db {
    var d := External(worker, request);
    var l := Lease(db.minted, ExternalClaim);
    Db(db.events[d := Event(ExternalPayload(b, worker), InFlight, 1, t, None,
                            Some(l), Some(t + LEASE_SECONDS), None)],
       db.claims[b.operationKey := Claim(d, l)],
       db.minted + 1)
  }

  function ClaimExternal(db: Db, b: Binding, worker: string, request: string, t: Time): (Db, Reply<Lease>) {
    var d := External(worker, request);
    if d in db.events then
      var e := db.events[d];
      if e.payload != ExternalPayload(b, worker) then (db, Raised(CLAIM_REQUEST_REUSED))
      else if e.lease.None? || !Owns(db, b.operationKey, d, e.lease.value, t)
      then (db, Raised(WORKER_LEASE_LOST))
      else (db, Ok(e.lease.value))
    else if Held(db, b.operationKey, t) then (db, Raised(ANOTHER_WORKER_OWNS_LEASE))
    else (FirstClaim(db, b, worker, request, t), Ok(Lease(db.minted, ExternalClaim)))
  }

  function Rebound(b: Binding, sha: Sha): Binding {
    b.(sha := sha, operationKey := Operation(b.repo, b.pr, sha, b.phase))
  }

  predicate AlreadyMoved(e: Event, from: Sha, to: Sha)
    requires e.payload.ExternalPayload?
  {
    && e.payload.binding.sha == to
    && e.checkpoint.Some? && e.checkpoint.value.head.Some?
    && e.checkpoint.value.head.value.from == from
    && e.checkpoint.value.head.value.to == to
    && e.checkpoint.value.head.value.applied
  }

  function MoveExternalHead(db: Db, d: DeliveryId, l: Lease, from: Sha, to: Sha, cp: Checkpoint, t: Time): (Db, Reply<()>) {
    if !Live(db, d, l, t) || !db.events[d].payload.ExternalPayload? then (db, Raised(WORKER_LEASE_LOST))
    else
      var e := db.events[d];
      if e.payload.binding.sha != from then
        if AlreadyMoved(e, from, to) then (db, Ok(())) else (db, Raised(HEAD_CHANGED))
      else
        var moved := Rebound(e.payload.binding, to);
        if Held(db, moved.operationKey, t) && db.claims[moved.operationKey] != Claim(d, l)
        then (db, Raised(ANOTHER_WORKER_OWNS_LEASE))
        else
          (db.(events := db.events[d := e.(payload := e.payload.(binding := moved), checkpoint := Some(cp))],
               claims := db.claims[moved.operationKey := Claim(d, l)]),
           Ok(()))
  }

  /** Take over an expired external lease; the new holder owns no key yet. */
  function ReclaimExternal(db: Db, d: DeliveryId, stale: Lease, t: Time): (Db, Option<Lease>) {
    if d in db.events && db.events[d].payload.ExternalPayload?
       && db.events[d].status == InFlight && db.events[d].lease == Some(stale)
       && db.events[d].expires.Some? && db.events[d].expires.value <= t
    then
      var l := Lease(db.minted, Reconciliation);
      var e := db.events[d];
      (db.(events := db.events[d := e.(payload := e.payload.(worker := RECONCILER),
                                       lease := Some(l), expires := Some(t + LEASE_SECONDS))],
           minted := db.minted + 1),
       Some(l))
    else (db, None)
  }

  /* ---- Runs ---- */

  datatype Call =
    | EnqueueCall(id: string, name: string, body: string)
    | RecoverCall
    | ClaimNextCall(pick: DeliveryId)
    | HeartbeatCall(d: DeliveryId, l: Lease)
    | CheckpointCall(d: DeliveryId, cp: Checkpoint, held: Option<Lease>)
    | FinishCall(d: DeliveryId, how: Closing, held: Option<Lease>)
    | AssertLeaseCall(d: DeliveryId, l: Lease)
    | AssertOperationCall(k: OpKey, d: DeliveryId, l: Lease)
    | ClaimOperationCall(k: OpKey, d: DeliveryId, l: Lease)
    | ClaimExternalCall(b: Binding, worker: string, request: string)
    | MoveHeadCall(d: DeliveryId, l: Lease, from: Sha, to: Sha, cp: Checkpoint)
    | ReclaimCall(d: DeliveryId, stale: Lease)

  function Apply(db: Db, c: Call, t: Time): Db {
    match c
    case EnqueueCall(id, name, body) => Enqueue(db, id, name, body, t).0
    case RecoverCall => RecoverInterrupted(db, t)
    case ClaimNextCall(pick) => ClaimNext(db, pick, t).0
    case HeartbeatCall(d, l) => Heartbeat(db, d, l, t).0
    case CheckpointCall(d, cp, held) => WriteCheckpoint(db, d, cp, held, t).0
    case FinishCall(d, how, held) => Finish(db, d, how, held, t).0
    case AssertLeaseCall(_, _) => db
    case AssertOperationCall(_, _, _) => db
    case ClaimOperationCall(k, d, l) => ClaimOperation(db, k, d, l, t).0
    case ClaimExternalCall(b, worker, request) => ClaimExternal(db, b, worker, request, t).0
    case MoveHeadCall(d, l, from, to, cp) => MoveExternalHead(db, d, l, from, to, cp, t).0
    case ReclaimCall(d, stale) => ReclaimExternal(db, d, stale, t).0
  }

  /** The call presents lease `l` of event `d` and the store accepts it. */
  predicate Honoured(db: Db, c: Call, d: DeliveryId, l: Lease, t: Time) {
    match c
    case HeartbeatCall(cd, cl) => cd == d && cl == l && Heartbeat(db, cd, cl, t).1
    case CheckpointCall(cd, cp, held) => cd == d && held == Some(l) && WriteCheckpoint(db, cd, cp, held, t).1.Ok?
    case FinishCall(cd, how, held) => cd == d && held == Some(l) && Finish(db, cd, how, held, t).1
    case AssertLeaseCall(cd, cl) => cd == d && cl == l && Live(db, cd, cl, t)
    case AssertOperationCall(k, cd, cl) => cd == d && cl == l && Owns(db, k, cd, cl, t)
    case ClaimOperationCall(k, cd, cl) => cd == d && cl == l && ClaimOperation(db, k, cd, cl, t).1 == Ok(true)
    case MoveHeadCall(cd, cl, from, to, cp) => cd == d && cl == l && MoveExternalHead(db, cd, cl, from, to, cp, t).1.Ok?
    case ClaimExternalCall(b, worker, request) =>
      External(worker, request) == d && ClaimExternal(db, b, worker, request, t).1 == Ok(l)
    case _ => false
  }

  datatype TimedCall = At(time: Time, call: Call)
  type Trace = seq<TimedCall>

  function Exec(db: Db, trace: Trace): Db
    decreases |trace|
  {
    if trace == [] then db else Exec(Apply(db, trace[0].call, trace[0].time), trace[1..])
  }

  /** The clock never runs backwards, starting from `t`. */
  predicate Chronological(t: Time, trace: Trace)
    decreases |trace|
  {
    trace == [] || (t <= trace[0].time && Chronological(trace[0].time, trace[1..]))
  }

  function ClockAfter(t: Time, trace: Trace): Time
    decreases |trace|
  {
    if trace == [] then t else ClockAfter(trace[0].time, trace[1..])
  }

  /** Every lease the store knows was minted by it, so the next one is fresh. */
  predicate MintedLeases(db: Db) {
    && (forall d :: d in db.events && db.events[d].lease.Some? ==> db.events[d].lease.value.serial < db.minted)
    && (forall k :: k in db.claims ==> db.claims[k].lease.serial < db.minted)
  }
}
