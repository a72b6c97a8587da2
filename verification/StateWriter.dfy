/** The shared label writer as a small-step program, interleaved with other
    writers, with store calls of anybody, with crashes, and with people. GitHub
    has no compare-and-set on labels, so the guarantees rest on the per-PR
    projection lock and on two hypotheses that `Enabled` states: a PUT lands
    while its writer's lease is live, and nobody edits labels by hand between a
    live writer's verification and its PUT. */
module StateWriter {
  import opened Labels
  import opened Records
  import opened LeaseStore
  import opened Fencing

  datatype Refusal = UNRELATED_LABEL_REMOVAL | STATE_RECONCILIATION_AMBIGUOUS | HUMAN_WAIT_PROTECTED

  /** The checks the writer makes on its arguments, in order. */
  function Refused(before: LabelSet, after: LabelSet): Option<Refusal> {
    if !(Unrelated(before) <= after) then Some(UNRELATED_LABEL_REMOVAL)
    else if !Canonical(after) then Some(STATE_RECONCILIATION_AMBIGUOUS)
    else if HumanWait(before) then Some(HUMAN_WAIT_PROTECTED)
    else None
  }

  /** The writer accepts its arguments exactly when every label the controller does
      not own stays, the new set is canonical, and the old one holds neither an
      approval nor the review status; foreign labels are checked first. */
  lemma RefusalsInPlainTerms(before: LabelSet, after: LabelSet)
    ensures Refused(before, after).None? <==>
      && (forall x :: x in before && x.Plain? ==> x in after) && Canonical(after)
      && forall x :: x in before ==> !x.Approval? && x != Status(Review)
    ensures Refused(before, after) == Some(UNRELATED_LABEL_REMOVAL) <==> exists x :: x in before && x.Plain? && x !in after
    ensures Refused(before, after) == Some(HUMAN_WAIT_PROTECTED) ==> exists x :: x in before && (x.Approval? || x == Status(Review))
  {
    forall x | x in before
      ensures x in Unrelated(before) <==> x.Plain?
      ensures x in Approvals(before) <==> x.Approval?
    {
    }
  }

  datatype Stage = Submitted | Locked | Matched | Fenced | Written | Rematched | Finished | Dropped

  datatype Job = Job(
    binding: Binding, operation: Option<OpKey>, d: DeliveryId, l: Lease,
    before: LabelSet, after: LabelSet, stage: Stage)

  /** One pull request, the store, and the writers that target the request. */
  datatype World = World(repo: string, number: nat, db: Db, now: Time, pr: PullRequest, jobs: map<nat, Job>)

  function Key(w: World): OpKey { Projection(w.repo, w.number) }

  datatype Action =
    | Submit(i: nat, job: Job)      // write_labels is called
    | Lock(i: nat)                  // argument checks, then claim_operation
    | Match(i: nat)                 // first snapshot equals `before`
    | Fence(i: nat)                 // lease and ownership assertions
    | Put(i: nat)                   // the PUT lands
    | Rematch(i: nat)               // second snapshot equals `after`
    | Refence(i: nat)
    | Crash(i: nat)                 // any failure, lost response or crash
    | Store(call: Call)             // anybody's store call, this writer's included
    | Edit(labels: LabelSet)        // a person edits labels
    | Change(pr: PullRequest)       // pushes, closing, retargeting

  datatype Step = Step(time: Time, action: Action)

  predicate Identified(w: World, j: Job) {
    SameBranch(w.pr, j.binding) && w.pr.headSha == j.binding.sha
  }

  predicate FenceHolds(w: World, j: Job, t: Time) {
    && Live(w.db, j.d, j.l, t)
    && Owns(w.db, Key(w), j.d, j.l, t)
    && (j.operation.Some? ==> Owns(w.db, j.operation.value, j.d, j.l, t))
  }

  predicate BeforePut(s: Stage) { s == Submitted || s == Locked || s == Matched || s == Fenced }
  predicate HoldsLock(s: Stage) { s == Locked || s == Matched || s == Fenced }
  predicate Verified(s: Stage) { s == Matched || s == Fenced }

  predicate At(w: World, i: nat, s: Stage) { i in w.jobs && w.jobs[i].stage == s }

  /** No live writer is between its verification and its PUT. */
  predicate NoOpenWindow(w: World, t: Time) {
    forall i :: i in w.jobs && Verified(w.jobs[i].stage) ==> !Live(w.db, w.jobs[i].d, w.jobs[i].l, t)
  }

  predicate Enabled(w: World, s: Step) {
    && w.now <= s.time
    && match s.action
       case Submit(i, job) =>
         && i !in w.jobs && job.stage == Submitted
         && job.binding.repo == w.repo && job.binding.pr == w.number
         && job.l.serial < w.db.minted
         // At most one write in flight per lease.
         && forall j :: j in w.jobs && BeforePut(w.jobs[j].stage) ==> (w.jobs[j].d, w.jobs[j].l) != (job.d, job.l)
       case Lock(i) => At(w, i, Submitted)
       case Match(i) => At(w, i, Locked)
       case Fence(i) => At(w, i, Matched)
       case Put(i) => At(w, i, Fenced) && Live(w.db, w.jobs[i].d, w.jobs[i].l, s.time)
       case Rematch(i) => At(w, i, Written)
       case Refence(i) => At(w, i, Rematched)
       case Crash(i) => i in w.jobs
       case Store(call) => true
       case Edit(labels) => NoOpenWindow(w, s.time)
       case Change(pr) => pr.labels == w.pr.labels
  }

  function Moved(w: World, i: nat, s: Stage): World
    requires i in w.jobs
  {
    w.(jobs := w.jobs[i := w.jobs[i].(stage := s)])
  }

  function Perform(w: World, s: Step): World
    requires Enabled(w, s)
  {
    var v := w.(now := s.time);
    match s.action
    case Submit(i, job) => v.(jobs := v.jobs[i := job])
    case Lock(i) =>
      var j := v.jobs[i];
      if Refused(j.before, j.after).Some? then Moved(v, i, Dropped)
      else
        var (db, reply) := ClaimOperation(v.db, Key(v), j.d, j.l, s.time);
        Moved(v.(db := db), i, if reply == Ok(true) then Locked else Dropped)
    case Match(i) =>
      Moved(v, i, if Identified(v, v.jobs[i]) && v.pr.labels == v.jobs[i].before then Matched else Dropped)
    case Fence(i) => Moved(v, i, if FenceHolds(v, v.jobs[i], s.time) then Fenced else Dropped)
    case Put(i) =>
      var j := v.jobs[i];
      Moved(if j.before != j.after then v.(pr := v.pr.(labels := j.after)) else v, i, Written)
    case Rematch(i) =>
      Moved(v, i, if Identified(v, v.jobs[i]) && v.pr.labels == v.jobs[i].after then Rematched else Dropped)
    case Refence(i) => Moved(v, i, if FenceHolds(v, v.jobs[i], s.time) then Finished else Dropped)
    case Crash(i) => Moved(v, i, Dropped)
    case Store(call) => v.(db := Apply(v.db, call, s.time))
    case Edit(labels) => v.(pr := v.pr.(labels := labels))
    case Change(pr) => v.(pr := pr)
  }

  predicate Legal(w: World, steps: seq<Step>)
    decreases |steps|
  {
    steps == [] || (Enabled(w, steps[0]) && Legal(Perform(w, steps[0]), steps[1..]))
  }

  function Final(w: World, steps: seq<Step>): World
    requires Legal(w, steps)
    decreases |steps|
  {
    if steps == [] then w else Final(Perform(w, steps[0]), steps[1..])
  }

  /* ---- The invariant ---- */

  predicate JobSafe(w: World, j: Job) {
    && j.l.serial < w.db.minted
    && (HoldsLock(j.stage) ==> Refused(j.before, j.after).None?)
    && (HoldsLock(j.stage) && Live(w.db, j.d, j.l, w.now) ==> Owns(w.db, Key(w), j.d, j.l, w.now))
    && (Verified(j.stage) && Live(w.db, j.d, j.l, w.now) ==> w.pr.labels == j.before)
  }

  /** Two writes in flight never share a lease. */
  predicate JobsApart(w: World) {
    forall i, j :: i in w.jobs && j in w.jobs && i != j
                   && BeforePut(w.jobs[i].stage) && BeforePut(w.jobs[j].stage)
                   ==> (w.jobs[i].d, w.jobs[i].l) != (w.jobs[j].d, w.jobs[j].l)
  }

  predicate Safe(w: World) {
    && MintedLeases(w.db)
    && (forall i :: i in w.jobs ==> JobSafe(w, w.jobs[i]))
    && JobsApart(w)
  }

  /** No store call, whoever makes it, endangers a writer's job. */
  lemma StoreCallKeepsJob(w: World, call: Call, t: Time, j: Job)
    requires MintedLeases(w.db) && JobSafe(w, j) && w.now <= t
    ensures JobSafe(w.(db := Apply(w.db, call, t), now := t), j)
  {
    var db := Apply(w.db, call, t);
    StepKeepsMintedLeases(w.db, call, t);
    if Live(db, j.d, j.l, t) {
      if !Live(w.db, j.d, j.l, t) {
        StepKeepsDeadLease(w.db, call, j.d, j.l, t);
        assert false;
      }
      if HoldsLock(j.stage) {
        StepKeepsOwner(w.db, call, Key(w), j.d, j.l, t);
      }
    }
  }

  /** The store calls of a step: the lock's own, or anybody's. */
  function StoreCallOf(w: World, a: Action): Option<Call> {
    match a
    case Store(call) => Some(call)
    case Lock(i) =>
      if i in w.jobs && Refused(w.jobs[i].before, w.jobs[i].after).None?
      then Some(ClaimOperationCall(Key(w), w.jobs[i].d, w.jobs[i].l)) else None
    case _ => None
  }

  lemma StepIsStoreCall(w: World, s: Step)
    requires Enabled(w, s)
    ensures Perform(w, s).db ==
      if StoreCallOf(w, s.action).Some? then Apply(w.db, StoreCallOf(w, s.action).value, s.time) else w.db
  {
  }

  /** A job that this step does not run stays safe. In the case of another
      writer's PUT both would own the projection key if both were live. */
  lemma {:induction false} OtherJobStaysSafe(w: World, s: Step, i: nat)
    requires Safe(w) && Enabled(w, s) && i in w.jobs
    requires Perform(w, s).jobs[i] == w.jobs[i]
    ensures JobSafe(Perform(w, s), w.jobs[i])
  {
    StepIsStoreCall(w, s);
    if StoreCallOf(w, s.action).Some? {
      StoreCallKeepsJob(w, StoreCallOf(w, s.action).value, s.time, w.jobs[i]);
    }
  }

  /** The job a step runs is safe afterwards. */
  lemma OwnJobStaysSafe(w: World, s: Step, i: nat)
    requires Safe(w) && Enabled(w, s) && i in Perform(w, s).jobs
    requires i !in w.jobs || Perform(w, s).jobs[i] != w.jobs[i]
    ensures JobSafe(Perform(w, s), Perform(w, s).jobs[i])
  {
    StepIsStoreCall(w, s);
    if StoreCallOf(w, s.action).Some? {
      StepKeepsMintedLeases(w.db, StoreCallOf(w, s.action).value, s.time);
    }
  }

  /** A step runs at most one job, and never returns it to an earlier stage. */
  lemma StepKeepsJobsApart(w: World, s: Step)
    requires Safe(w) && Enabled(w, s)
    ensures JobsApart(Perform(w, s))
  {
    var v := Perform(w, s);
    forall i | i in v.jobs && i in w.jobs
      ensures (v.jobs[i].d, v.jobs[i].l) == (w.jobs[i].d, w.jobs[i].l)
      ensures BeforePut(v.jobs[i].stage) ==> BeforePut(w.jobs[i].stage)
    {
    }
  }

  lemma {:induction false} StepKeepsSafe(w: World, s: Step)
    requires Safe(w) && Enabled(w, s)
    ensures Safe(Perform(w, s))
  {
    var v := Perform(w, s);
    StepIsStoreCall(w, s);
    if StoreCallOf(w, s.action).Some? {
      StepKeepsMintedLeases(w.db, StoreCallOf(w, s.action).value, s.time);
    }
    StepKeepsJobsApart(w, s);
    forall i | i in v.jobs
      ensures JobSafe(v, v.jobs[i])
    {
      if i in w.jobs && v.jobs[i] == w.jobs[i] {
        OtherJobStaysSafe(w, s, i);
      } else {
        OwnJobStaysSafe(w, s, i);
      }
    }
  }

  /* ---- Runs ---- */

  /** A run starts with no writer in flight; the store may be in any state. */
  predicate Initial(w: World) { MintedLeases(w.db) && w.jobs == map[] }

  lemma {:induction false} RunIsSafe(w: World, steps: seq<Step>, n: nat)
    requires Safe(w) && Legal(w, steps) && n <= |steps|
    ensures Legal(w, steps[..n]) && Safe(Final(w, steps[..n]))
    ensures n < |steps| ==> Enabled(Final(w, steps[..n]), steps[n])
    ensures n < |steps| ==>
      && Legal(w, steps[..n + 1])
      && Final(w, steps[..n + 1]) == Perform(Final(w, steps[..n]), steps[n])
    decreases n
  {
    if n > 0 {
      StepKeepsSafe(w, steps[0]);
      RunIsSafe(Perform(w, steps[0]), steps[1..], n - 1);
      assert steps[..n][1..] == steps[1..][..n - 1];
      assert n < |steps| ==> steps[..n + 1][1..] == steps[1..][..n];
    }
  }

  /* ---- From the verification to the PUT ---- */

  /** The same writer's job, at another stage. */
  predicate SameJob(w: World, i: nat, j: Job) {
    i in w.jobs && w.jobs[i] == j.(stage := w.jobs[i].stage) && Verified(w.jobs[i].stage)
  }

  /** Nobody revives the writer's lease, so it was live already one step ago. */
  lemma LiveOneStepAgo(w: World, s: Step, d: DeliveryId, l: Lease)
    requires MintedLeases(w.db) && l.serial < w.db.minted && Enabled(w, s)
    requires Live(Perform(w, s).db, d, l, s.time)
    ensures Live(w.db, d, l, w.now)
  {
    StepIsStoreCall(w, s);
    if !Live(w.db, d, l, s.time) && StoreCallOf(w, s.action).Some? {
      StepKeepsDeadLease(w.db, StoreCallOf(w, s.action).value, d, l, s.time);
    }
  }

  predicate LiveVerified(w: World, i: nat) {
    i in w.jobs && Verified(w.jobs[i].stage) && Live(w.db, w.jobs[i].d, w.jobs[i].l, w.now)
  }

  /** A step that leaves a live job verified either verified it, on the identified
      PR, or found it verified; the labels are the ones it saw. */
  lemma VerifiedStep(w: World, s: Step, at: World, i: nat)
    requires Safe(w) && Enabled(w, s) && at == Perform(w, s) && LiveVerified(at, i)
    ensures at.pr.labels == at.jobs[i].before
    ensures if s.action == Match(i) then Identified(w, at.jobs[i]) && w.pr.labels == at.jobs[i].before
            else SameJob(w, i, at.jobs[i]) && LiveVerified(w, i)
  {
    StepKeepsSafe(w, s);
    assert JobSafe(at, at.jobs[i]);
    if s.action != Match(i) {
      assert JobSafe(w, w.jobs[i]);
      LiveOneStepAgo(w, s, at.jobs[i].d, at.jobs[i].l);
    }
  }

  /** Step `m` verified the job, on the identified PR, and from there to step `n`
      the labels have been the ones it saw. */
  ghost predicate HeldSince(w: World, steps: seq<Step>, m: nat, n: nat, i: nat, j: Job)
    requires n <= |steps|
  {
    && m < n && steps[m].action == Match(i)
    && Legal(w, steps[..m]) && Identified(Final(w, steps[..m]), j)
    && forall k :: m <= k <= n ==> LabelsAt(w, steps[..k], j.before)
  }

  predicate LabelsAt(w: World, steps: seq<Step>, labels: LabelSet) {
    Legal(w, steps) && Final(w, steps).pr.labels == labels
  }

  lemma HeldOneMore(w: World, steps: seq<Step>, m: nat, n: nat, i: nat, j: Job, j': Job)
    requires 0 < n <= |steps| && HeldSince(w, steps, m, n - 1, i, j)
    requires j' == j.(stage := j'.stage) && LabelsAt(w, steps[..n], j.before)
    ensures HeldSince(w, steps, m, n, i, j')
  {
  }

  lemma HeldFromNow(w: World, steps: seq<Step>, n: nat, i: nat, j: Job)
    requires n < |steps| && steps[n].action == Match(i)
    requires LabelsAt(w, steps[..n], j.before) && Identified(Final(w, steps[..n]), j)
    requires LabelsAt(w, steps[..n + 1], j.before)
    ensures HeldSince(w, steps, n, n + 1, i, j)
  {
  }

  lemma {:induction false} VerifiedSince(w: World, steps: seq<Step>, n: nat, i: nat, at: World) returns (m: nat)
    requires Initial(w) && Legal(w, steps) && n <= |steps| && Legal(w, steps[..n])
    requires at == Final(w, steps[..n]) && LiveVerified(at, i)
    ensures HeldSince(w, steps, m, n, i, at.jobs[i])
    decreases n
  {
    assert steps[..0] == [];
    if n == 0 {
      assert false;
    }
    RunIsSafe(w, steps, n - 1);
    var before, s := Final(w, steps[..n - 1]), steps[n - 1];
    VerifiedStep(before, s, at, i);
    if s.action == Match(i) {
      m := n - 1;
      HeldFromNow(w, steps, m, i, at.jobs[i]);
    } else {
      m := VerifiedSince(w, steps, n - 1, i, before);
      HeldOneMore(w, steps, m, n, i, before.jobs[i], at.jobs[i]);
    }
  }

  /** No lost update: under any interleaving, the labels a PUT replaces are
      exactly the labels its writer verified. */
  lemma NoLostUpdate(w: World, steps: seq<Step>, n: nat, i: nat)
    requires Initial(w) && Legal(w, steps) && n < |steps|
    requires steps[n].action == Put(i)
    ensures Legal(w, steps[..n])
    ensures i in Final(w, steps[..n]).jobs
    ensures Final(w, steps[..n]).pr.labels == Final(w, steps[..n]).jobs[i].before
    ensures Refused(Final(w, steps[..n]).jobs[i].before, Final(w, steps[..n]).jobs[i].after).None?
    ensures Legal(w, steps[..n + 1])
    ensures Final(w, steps[..n + 1]).pr.labels == Final(w, steps[..n]).jobs[i].after
  {
    RunIsSafe(w, steps, n);
    var at := Final(w, steps[..n]);
    assert JobSafe(at, at.jobs[i]);
  }

  /** One machine step leaves a human wait alone; when it does change labels,
      the new set is canonical and keeps every unrelated label. */
  lemma MachineStep(w: World, s: Step)
    requires Safe(w) && Enabled(w, s) && !s.action.Edit?
    ensures HumanWait(w.pr.labels) ==> Perform(w, s).pr.labels == w.pr.labels
    ensures Perform(w, s).pr.labels != w.pr.labels ==>
      && s.action.Put?
      && Canonical(Perform(w, s).pr.labels)
      && Unrelated(w.pr.labels) <= Unrelated(Perform(w, s).pr.labels)
  {
    if s.action.Put? {
      assert JobSafe(w, w.jobs[s.action.i]);
    }
  }

  /** Human wait is absorbing: without a person's edit no run of writers,
      store calls, crashes and pushes ever changes a waiting label set. */
  lemma {:induction false} HumanWaitIsAbsorbing(w: World, steps: seq<Step>)
    requires Safe(w) && Legal(w, steps) && HumanWait(w.pr.labels)
    requires forall n :: 0 <= n < |steps| ==> !steps[n].action.Edit?
    ensures Final(w, steps).pr.labels == w.pr.labels
    decreases |steps|
  {
    if steps != [] {
      StepKeepsSafe(w, steps[0]);
      assert !steps[0].action.Edit?;
      MachineStep(w, steps[0]);
      HumanWaitIsAbsorbing(Perform(w, steps[0]), steps[1..]);
    }
  }

  lemma {:induction false} FinalSplits(w: World, steps: seq<Step>, n: nat)
    requires Legal(w, steps) && n <= |steps|
    ensures Legal(w, steps[..n]) && Legal(Final(w, steps[..n]), steps[n..])
    ensures Final(w, steps) == Final(Final(w, steps[..n]), steps[n..])
    decreases n
  {
    if n > 0 {
      FinalSplits(Perform(w, steps[0]), steps[1..], n - 1);
      assert steps[..n][1..] == steps[1..][..n - 1] && steps[1..][n - 1..] == steps[n..];
    } else {
      assert steps[n..] == steps;
    }
  }

  /** The same for a wait reached in the middle of any run: whatever happened
      before, from then on only a person can change the labels. */
  lemma {:induction false} OnceWaitingAlwaysWaiting(w: World, steps: seq<Step>, n: nat)
    requires Initial(w) && Legal(w, steps) && n <= |steps|
    requires Legal(w, steps[..n]) && HumanWait(Final(w, steps[..n]).pr.labels)
    requires forall k :: n <= k < |steps| ==> !steps[k].action.Edit?
    ensures Final(w, steps).pr.labels == Final(w, steps[..n]).pr.labels
  {
    RunIsSafe(w, steps, n);
    FinalSplits(w, steps, n);
    HumanWaitIsAbsorbing(Final(w, steps[..n]), steps[n..]);
  }

  /** Unrelated labels survive, and the label set is either untouched or canonical. */
  lemma {:induction false} MachineRunsKeepLabelsCanonical(w: World, steps: seq<Step>)
    requires Safe(w) && Legal(w, steps)
    requires forall n :: 0 <= n < |steps| ==> !steps[n].action.Edit?
    ensures Unrelated(w.pr.labels) <= Unrelated(Final(w, steps).pr.labels)
    ensures Final(w, steps).pr.labels == w.pr.labels || Canonical(Final(w, steps).pr.labels)
    decreases |steps|
  {
    if steps != [] {
      StepKeepsSafe(w, steps[0]);
      assert !steps[0].action.Edit?;
      MachineStep(w, steps[0]);
      MachineRunsKeepLabelsCanonical(Perform(w, steps[0]), steps[1..]);
    }
  }

  /* ---- What a finished write went through ---- */

  function StageBefore(s: Stage): Stage {
    match s
    case Locked => Submitted
    case Matched => Locked
    case Fenced => Matched
    case Written => Fenced
    case Rematched => Written
    case Finished => Rematched
    case _ => Dropped
  }

  /** The open, unmerged PR of the job's repository shows its branch, base and
      commit, and the branch is no protected one. */
  predicate ShowsJob(w: World, j: Job) {
    && w.pr.open && !w.pr.merged
    && w.pr.headRepo == j.binding.repo && w.pr.headRef == j.binding.headRef && w.pr.headSha == j.binding.sha
    && (j.binding.baseRef == None || j.binding.baseRef == Some(w.pr.baseRef))
    && w.pr.headRef != "main" && w.pr.headRef != w.pr.baseRef && w.pr.headRef != w.pr.defaultBranch
  }

  /** At this time the job's lease is live and owns the projection key of the PR,
      and its operation key if it has one. */
  predicate OwnsAll(w: World, j: Job, t: Time) {
    && Live(w.db, j.d, j.l, t) && Owns(w.db, Projection(w.repo, w.number), j.d, j.l, t)
    && (j.operation == None || Owns(w.db, j.operation.value, j.d, j.l, t))
  }

  /** The step that brings job `i` from world `w` into the stage it has in `at`. */
  ghost predicate StageBy(w: World, s: Step, at: World, i: nat) {
    && i in w.jobs && i in at.jobs && w.jobs[i] == at.jobs[i].(stage := StageBefore(at.jobs[i].stage))
    && var j := at.jobs[i];
       match j.stage
       case Locked =>
         s.action == Lock(i) && Unrelated(j.before) <= Unrelated(j.after) && Canonical(j.after) && !HumanWait(j.before)
         && Owns(at.db, Projection(w.repo, w.number), j.d, j.l, s.time)
       case Matched => s.action == Match(i) && ShowsJob(w, j) && w.pr.labels == j.before
       case Fenced => s.action == Fence(i) && OwnsAll(w, j, s.time)
       case Written => s.action == Put(i) && at.pr.labels == j.after
       case Rematched => s.action == Rematch(i) && ShowsJob(w, j) && w.pr.labels == j.after
       case Finished => s.action == Refence(i) && OwnsAll(w, j, s.time)
       case _ => false
  }

  lemma StageStep(w: World, s: Step, at: World, i: nat)
    requires Safe(w) && Enabled(w, s) && at == Perform(w, s)
    requires i in at.jobs && at.jobs[i].stage != Submitted && at.jobs[i].stage != Dropped
    ensures (i in w.jobs && w.jobs[i] == at.jobs[i]) || StageBy(w, s, at, i)
  {
    if s.action.Put? && s.action.i == i {
      assert JobSafe(w, w.jobs[i]);
    }
  }

  /** Step `k` of the run brought job `i` into the stage of `j`, with its checks. */
  ghost predicate EnteredAt(w: World, steps: seq<Step>, k: nat, i: nat, j: Job) {
    && k < |steps| && Legal(w, steps[..k]) && Legal(w, steps[..k + 1])
    && i in Final(w, steps[..k + 1]).jobs && Final(w, steps[..k + 1]).jobs[i] == j
    && StageBy(Final(w, steps[..k]), steps[k], Final(w, steps[..k + 1]), i)
  }

  /** Every stage a job has was entered by its own step, with that step's checks. */
  lemma {:induction false} StageEntered(w: World, steps: seq<Step>, n: nat, i: nat, at: World) returns (k: nat)
    requires Initial(w) && Legal(w, steps) && n <= |steps| && Legal(w, steps[..n])
    requires at == Final(w, steps[..n]) && i in at.jobs
    requires at.jobs[i].stage != Submitted && at.jobs[i].stage != Dropped
    ensures k < n && EnteredAt(w, steps, k, i, at.jobs[i])
    decreases n
  {
    assert steps[..0] == [];
    if n == 0 {
      assert false;
    }
    RunIsSafe(w, steps, n - 1);
    var before, s := Final(w, steps[..n - 1]), steps[n - 1];
    StageStep(before, s, at, i);
    if i in before.jobs && before.jobs[i] == at.jobs[i] {
      k := StageEntered(w, steps, n - 1, i, before);
    } else {
      k := n - 1;
    }
  }

  lemma StageEnteredBefore(w: World, steps: seq<Step>, k: nat, i: nat, j: Job) returns (m: nat)
    requires Initial(w) && Legal(w, steps) && EnteredAt(w, steps, k, i, j)
    requires StageBefore(j.stage) != Submitted && StageBefore(j.stage) != Dropped
    ensures m < k && EnteredAt(w, steps, m, i, j.(stage := StageBefore(j.stage)))
  {
    m := StageEntered(w, steps, k, i, Final(w, steps[..k]));
  }

  /** Up to the fence: arguments accepted and lock taken, labels matched on the
      identified PR, all keys owned. */
  lemma FencedWentThrough(w: World, steps: seq<Step>, fence: nat, i: nat, j: Job) returns (lock: nat, match_: nat)
    requires Initial(w) && Legal(w, steps) && EnteredAt(w, steps, fence, i, j.(stage := Fenced))
    ensures lock < match_ < fence
    ensures EnteredAt(w, steps, lock, i, j.(stage := Locked)) && EnteredAt(w, steps, match_, i, j.(stage := Matched))
  {
    match_ := StageEnteredBefore(w, steps, fence, i, j.(stage := Fenced));
    lock := StageEnteredBefore(w, steps, match_, i, j.(stage := Matched));
  }

  /** A writer that reports success had its arguments accepted and the projection
      lock, found the identified PR with the labels it was to replace, owned all
      its keys, put its labels, found them on the identified PR, and owned all its
      keys still: six steps of the run, in this order. */
  lemma FinishedWriteWentThrough(w: World, steps: seq<Step>, n: nat, i: nat, j: Job)
    returns (lock: nat, match_: nat, fence: nat, put: nat, rematch: nat, refence: nat)
    requires Initial(w) && Legal(w, steps) && n <= |steps| && Legal(w, steps[..n])
    requires i in Final(w, steps[..n]).jobs && Final(w, steps[..n]).jobs[i] == j && j.stage == Finished
    ensures lock < match_ < fence < put < rematch < refence < n
    ensures EnteredAt(w, steps, lock, i, j.(stage := Locked)) && EnteredAt(w, steps, match_, i, j.(stage := Matched))
    ensures EnteredAt(w, steps, fence, i, j.(stage := Fenced)) && EnteredAt(w, steps, put, i, j.(stage := Written))
    ensures EnteredAt(w, steps, rematch, i, j.(stage := Rematched)) && EnteredAt(w, steps, refence, i, j)
  {
    refence := StageEntered(w, steps, n, i, Final(w, steps[..n]));
    rematch := StageEnteredBefore(w, steps, refence, i, j);
    put := StageEnteredBefore(w, steps, rematch, i, j.(stage := Rematched));
    fence := StageEnteredBefore(w, steps, put, i, j.(stage := Written));
    lock, match_ := FencedWentThrough(w, steps, fence, i, j);
  }
}
