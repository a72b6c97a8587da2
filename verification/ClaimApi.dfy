/** What each claim endpoint and the expiry recovery would write, as a function
    of one snapshot, one checkpoint and one evidence read. The effects, crashes
    and interleavings are in ClaimSession.dfy and Workflow.dfy. */
module ClaimApi {
  import opened Labels
  import opened Records
  import opened HandoffGate
  import opened EvidenceGate
  import opened StateProjection

  datatype ApiError =
    | PR_BRANCH_IDENTITY_CHANGED | HEAD_CHANGED | TASK_CHANGED | STATE_CHANGED
    | WORKER_NOT_STARTED | REPAIR_DECISION_NOT_ALLOWED | GATE_CLOSED(reason: GateError)

  datatype Plan<+T> = Write(value: T) | Refuse(error: ApiError)

  function TodoRoute(b: Binding): LabelSet { WorkRoute(b.agent, b.phase, Todo) }
  function RunningRoute(b: Binding): LabelSet { WorkRoute(b.agent, b.phase, Running) }

  /** The snapshot check shared by all endpoints. */
  function Current(b: Binding, pr: PullRequest, resumed: bool, projected: Option<LabelSet>): Option<ApiError> {
    var route := Route(pr.labels);
    if !SameBranch(pr, b) then Some(PR_BRANCH_IDENTITY_CHANGED)
    else if pr.headSha != b.sha then Some(HEAD_CHANGED)
    else if pr.tasks != {b.taskId} then Some(TASK_CHANGED)
    else if (route != TodoRoute(b) && !(resumed && route == RunningRoute(b)) && Some(route) != projected)
            || Alarms(pr.labels) != {}
    then Some(STATE_CHANGED)
    else None
  }

  /* ---- start ---- */

  predicate PostQaRequest(c: Comment, b: Binding) {
    && (c.login == Owner || c.login == Bot) && PostQaMarker in c.text
    && {TaskIs(b.taskId), ShaIs(b.sha), NextNewReview} <= c.lines
  }

  predicate RequeueRequest(c: Comment, b: Binding) {
    c.login == Owner && RequeueMarker in c.text && {TaskIs(b.taskId), ShaIs(b.sha)} <= c.lines
  }

  function StartGate(b: Binding, log: Log, runs: Runs): Option<GateError> {
    var both := {Owner, Bot};
    var green := SuccessfulCurrentCi(runs, b.sha, b.headRef).Some?;
    match b.phase
    case Prototype =>
      var v := ValidateHandoff(log, Query(b.taskId, Codex, Workbuddy, ProductPlanning, b.sha, both));
      if v.Reject? then Some(v.reason) else None
    case Implementation =>
      var v := ValidateHandoff(log, Query(b.taskId, Workbuddy, Chatgpt, PrototypeValidation, b.sha, both));
      if v.Reject? then Some(v.reason) else if !green then Some(CI_NOT_PASSED) else None
    case CodeReview =>
      if !green then Some(CI_NOT_PASSED)
      else if exists i :: 0 <= i < |log| && (PostQaRequest(log[i], b) || RequeueRequest(log[i], b)) then None
      else
        var v := ValidateHandoff(log, Query(b.taskId, Chatgpt, Workreview, ImplementationReady, b.sha, {Owner}));
        if v.Reject? then Some(v.reason) else None
    case Qa =>
      var v := ValidateQaEvidence(log, runs, SubjectOf(b));
      if v.Reject? then Some(v.reason) else None
    case _ => None
  }

  predicate ReplaysStart(cp: Checkpoint, l: Lease) { cp.start.Some? && cp.start.value.lease == l }

  function Started(b: Binding, before: LabelSet): LabelSet { (before - {Status(Todo)}) + RunningRoute(b) }

  /** The audit that `start` plans: its own earlier one when it replays. */
  function StartPlan(b: Binding, l: Lease, cp: Checkpoint, pr: PullRequest, log: Log, runs: Runs): Plan<Audit> {
    var replay := ReplaysStart(cp, l);
    var blocked := Current(b, pr, false, if replay then Some(RunningRoute(b)) else None);
    if blocked.Some? then Refuse(blocked.value)
    else
      var gate := StartGate(b, log, runs);
      if gate.Some? then Refuse(GATE_CLOSED(gate.value))
      else if !replay then Write(Audit(l, false, b.sha, pr.labels, Started(b, pr.labels), {}))
      else
        var audit := cp.start.value;
        if pr.labels != audit.before && pr.labels != audit.after then Refuse(STATE_CHANGED)
        else if audit.applied && pr.labels != audit.after then Refuse(STATE_CHANGED)
        else Write(audit)
  }

  /* ---- advance ---- */

  /** The lease's own report commit is the head it is bound to. */
  predicate MovedHeadInQa(b: Binding, cp: Checkpoint) {
    b.phase == Qa && cp.report.Some? && cp.report.value.from != cp.report.value.to && cp.report.value.to == b.sha
  }

  const POST_QA_ROUTE: LabelSet := WorkRoute(Workreview, CodeReview, Todo)

  function AdvanceTarget(b: Binding, cp: Checkpoint, log: Log, runs: Runs): Verdict<LabelSet> {
    if MovedHeadInQa(b, cp) then
      if SuccessfulCurrentCi(runs, b.sha, b.headRef).None? then Reject(CI_NOT_PASSED) else Accept(POST_QA_ROUTE)
    else VerifiedNextWorkflow(b, log, runs)
  }

  function ProjectedRoute(cp: Checkpoint, l: Lease): Option<LabelSet> {
    if cp.projection.Some? && cp.projection.value.lease == l then Some(cp.projection.value.workflowAfter) else None
  }

  function Rerouted(before: LabelSet, target: LabelSet): LabelSet { (before - Route(before)) + target }

  function AdvancePlan(b: Binding, l: Lease, cp: Checkpoint, pr: PullRequest, log: Log, runs: Runs): Plan<Audit> {
    var blocked := Current(b, pr, true, ProjectedRoute(cp, l));
    if blocked.Some? then Refuse(blocked.value)
    else
      match AdvanceTarget(b, cp, log, runs)
      case Reject(reason) => Refuse(GATE_CLOSED(reason))
      case Accept(target) => Write(Audit(l, false, b.sha, pr.labels, Rerouted(pr.labels, target), target))
  }

  /* ---- worker decision ---- */

  datatype WorkerDecision = RetryPhase | BlockPhase(code: string) | RequestRepair

  function DecisionTarget(b: Binding, d: WorkerDecision): Option<LabelSet> {
    match d
    case RetryPhase => Some(TodoRoute(b))
    case BlockPhase(code) => Some(WorkRoute(b.agent, b.phase, StatusName.Blocked) + {Blocker(code)})
    case RequestRepair =>
      if (b.phase == CodeReview && b.agent == Workreview) || (b.phase == Implementation && b.agent == Chatgpt)
      then Some(WorkRoute(Workreview, EscalationRepair, Todo)) else None
  }

  function DecisionPlan(b: Binding, l: Lease, pr: PullRequest, d: WorkerDecision): Plan<Audit> {
    var blocked := Current(b, pr, true, None);
    if blocked.Some? then Refuse(blocked.value)
    else if Status(Running) !in pr.labels then Refuse(WORKER_NOT_STARTED)
    else if Route(pr.labels) != RunningRoute(b) then Refuse(STATE_CHANGED)
    else
      match DecisionTarget(b, d)
      case None => Refuse(REPAIR_DECISION_NOT_ALLOWED)
      case Some(target) => Write(Audit(l, false, b.sha, pr.labels, Unrelated(pr.labels) + target, {}))
  }

  /* ---- expiry recovery ---- */

  datatype RecoveryOutcome =
    | Supersede                // close the claim, leave the labels
    | Settled                  // an interrupted blocker projection had landed
    | Stay                     // leave everything for a later scan
    | Rewrite(audit: Audit)

  predicate Identity(pr: PullRequest, b: Binding) {
    SameBranch(pr, b) && pr.headSha == b.sha && pr.tasks == {b.taskId}
  }

  predicate AcceptedRoutes(b: Binding, cp: Checkpoint, route: LabelSet) {
    || route == RunningRoute(b) || route == TodoRoute(b)
    || (cp.recovery.Some? && route == cp.recovery.value.workflowAfter)
    || (cp.projection.Some? && route == cp.projection.value.workflowAfter)
  }

  function RecoverPlan(b: Binding, l: Lease, cp: Checkpoint, pr: PullRequest, log: Log, runs: Runs): RecoveryOutcome {
    var before, route := pr.labels, Route(pr.labels);
    if cp.blocker.Some? then
      if Identity(pr, b) && before == cp.blocker.value.after then Settled else Supersede
    else if !Identity(pr, b) || !AcceptedRoutes(b, cp, route) || Approvals(before) != {} || Alarms(before) != {}
    then Supersede
    else if cp.start.None? && cp.projection.None? && route == RunningRoute(b) then Supersede
    else if DurableResult(b, log) then
      (match VerifiedNextWorkflow(b, log, runs)
       case Reject(_) => Stay
       case Accept(target) => Rewrite(Audit(l, false, b.sha, before, Rerouted(before, target), target)))
    else if route != RunningRoute(b) && route != TodoRoute(b) then Stay
    else Rewrite(Audit(l, false, b.sha, before, Rerouted(before, TodoRoute(b)), TodoRoute(b)))
  }

  /** Recovery never requeues what the gate would advance: in the four non-QA
      phases always, in QA exactly when some trusted QA handoff of this task and
      commit is spelled and numbered as recovery expects. */
  lemma RecoveryRequeuesAdvanceableWorkOnlyWhenMisspelled(
      b: Binding, l: Lease, cp: Checkpoint, pr: PullRequest, log: Log, runs: Runs)
    requires StandardBinding(b) && VerifiedNextWorkflow(b, log, runs).Accept?
    requires RecoverPlan(b, l, cp, pr, log, runs).Rewrite?
    ensures var target := RecoverPlan(b, l, cp, pr, log, runs).audit.workflowAfter;
      && (target == TodoRoute(b) || target == NextRoute(b.phase)) && TodoRoute(b) != NextRoute(b.phase)
      && (target == TodoRoute(b) <==>
            b.phase == Qa && !exists c :: c in log && QaResult(c, b) && SpelledForRecovery(c, b))
  {
    AcceptedRoute(b, log, runs);
    AdvanceLeavesPhase(b, NextRoute(b.phase));
    if b.phase == Qa {
      QaResultIsDurableExactlyWhenSpelled(b, log);
    } else {
      GateImpliesDurable(b, log, runs);
    }
  }

  /* ---- Facts about the plans ---- */

  /** The two audits an advance leaves behind name one of two routes. */
  predicate AdvanceRouteOf(b: Binding, route: LabelSet) {
    route == NextRoute(b.phase) || (b.phase == Qa && route == POST_QA_ROUTE)
  }

  lemma NextRoutesAreRoutes(b: Binding)
    ensures forall x :: x in NextRoute(b.phase) + POST_QA_ROUTE + TodoRoute(b) + RunningRoute(b) ==> IsRoute(x)
  {
  }

  /** A QA lease that moved HEAD through its report commit can only advance to a
      new code review; every other advance follows the phase's own route. */
  lemma AdvanceTargets(b: Binding, cp: Checkpoint, log: Log, runs: Runs)
    requires AdvanceTarget(b, cp, log, runs).Accept?
    ensures ClaimPhase(b.phase) && GreenCi(runs, b.sha, b.headRef)
    ensures AdvanceTarget(b, cp, log, runs).value == if MovedHeadInQa(b, cp) then POST_QA_ROUTE else NextRoute(b.phase)
    ensures AdvanceRouteOf(b, AdvanceTarget(b, cp, log, runs).value)
  {
    AcceptedRoute(b, log, runs);
    CiMeansGreen(runs, b.sha, b.headRef);
  }

  /** The routes of a phase are told apart by their phase label. */
  lemma AdvanceLeavesPhase(b: Binding, route: LabelSet)
    requires ClaimPhase(b.phase) && AdvanceRouteOf(b, route)
    ensures Phase(b.phase) !in route && route != TodoRoute(b) && route != RunningRoute(b)
  {
    assert Phase(b.phase) in TodoRoute(b) && Phase(b.phase) in RunningRoute(b);
  }
}
