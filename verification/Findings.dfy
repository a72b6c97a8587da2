/** Places where the code does less than its documentation suggests, each with a
    concrete input. When the code does meet the promise, for every input, is
    proved beside the general theorems: `SpelledForRecovery`, the PR number of
    the review, the `skips` of the conservation law, the retries that reopen an
    unapplied start, and the route a transition must leave. */
module Findings {
  import opened Labels
  import opened Records
  import opened HandoffGate
  import opened EvidenceGate
  import opened ReviewAutomaton
  import opened StateProjection
  import opened ClaimApi
  import Reconcile
  import Workflow
  import ClaimSession
  import NativeReplay

  const CLAIMED: Comment := Comment(Owner, 1, NoHandoff,
    {ClaimMarker, AgentWorkreview, PhaseCodeReview, TaskIs("T"), ShaIs("s")}, {}, None)

  function ReviewOf(pr: Option<nat>): Comment {
    Comment(Owner, 2,
            Handoff(Payload(Some("T"), Some(Workreview), Some(Workbuddy), Some(CodeReviewed), Some("s"),
                            true, false, pr, true, "")),
            {}, {}, None)
  }

  const POLICY: Comment := Comment(Bot, 3, NoHandoff, {}, {},
    Some(Terminal(Some("T"), Some("s"), Some(StopAfterQa), true)))

  function QaRecordOf(spelling: HandoffPhase): Comment {
    Comment(Bot, 4,
            Handoff(Payload(Some("T"), Some(Workbuddy), Some(Codex), Some(spelling), Some("s"),
                            true, false, None, false, "")),
            {}, {}, None)
  }

  function Evidence(pr: Option<nat>, spelling: HandoffPhase): Log {
    [CLAIMED, ReviewOf(pr), POLICY, QaRecordOf(spelling)]
  }

  const GREEN: Runs := [CiRun("s", "f", true, 1, 7, true)]
  const QA: Binding := Binding("o/r", 1, "s", "f", Some("base"), "T", Qa, Workbuddy, Operation("o/r", 1, "s", Qa))

  function Branch(labels: LabelSet): PullRequest {
    PullRequest(true, false, "s", "f", "o/r", "base", "main", {"T"}, labels)
  }

  lemma NewestAfter(front: Log, c: Comment, mark: Mark)
    ensures Newest(front + [c], mark, "T", "s") ==
      var best := Newest(front, mark, "T", "s");
      if Carries(c, mark, "T", "s") && (best.None? || c.order > best.value) then Some(c.order) else best
  {
    assert (front + [c])[..|front|] == front;
  }

  lemma OnlyTheClaimCarries(pr: Option<nat>, spelling: HandoffPhase, mark: Mark)
    ensures Carries(CLAIMED, mark, "T", "s") <==> mark == ClaimMark
    ensures !Carries(ReviewOf(pr), mark, "T", "s") && !Carries(POLICY, mark, "T", "s")
    ensures !Carries(QaRecordOf(spelling), mark, "T", "s")
  {
    var c := CLAIMED;
    assert RepairMarker !in c.text && RequeueMarker !in c.text && c.login == Owner;
    assert TaskIs("T") !in POLICY.text && TaskIs("T") !in ReviewOf(pr).text;
  }

  lemma MarksOfEvidence(pr: Option<nat>, spelling: HandoffPhase, mark: Mark)
    ensures Newest(Evidence(pr, spelling), mark, "T", "s") == if mark == ClaimMark then Some(1) else None
  {
    OnlyTheClaimCarries(pr, spelling, mark);
    var one: Log := [CLAIMED];
    var two := one + [ReviewOf(pr)];
    var three := two + [POLICY];
    NewestAfter([], CLAIMED, mark);
    assert [] + [CLAIMED] == one;
    NewestAfter(one, ReviewOf(pr), mark);
    NewestAfter(two, POLICY, mark);
    NewestAfter(three, QaRecordOf(spelling), mark);
    assert Evidence(pr, spelling) == three + [QaRecordOf(spelling)];
  }

  /** One claim, one review, no invalidation. */
  lemma ReviewFacts(pr: Option<nat>, spelling: HandoffPhase)
    ensures var log, s := Evidence(pr, spelling), SubjectOf(QA);
      && Appended(log) && DistinctOrders(log) && OwnerHandoffsParse(log)
      && Newest(log, ClaimMark, "T", "s") == Some(1) && Newest(log, InvalidMark, "T", "s") == None
      && LastReview(log, s) == Some(ReviewOf(pr))
      && Reconcile.NewestReview(log, s) == Some(ReviewOf(pr))
  {
    var log, s := Evidence(pr, spelling), SubjectOf(QA);
    MarksOfEvidence(pr, spelling, ClaimMark);
    MarksOfEvidence(pr, spelling, InvalidMark);
    assert log[1] in log && IsReview(log[1], s);
    assert forall c :: c in log && IsReview(c, s) ==> c == ReviewOf(pr);
    LastReviewIsLatest(log, s);
    Reconcile.NewestReviewIsHighest(log, s);
  }

  lemma EvidenceFacts(pr: Option<nat>, spelling: HandoffPhase)
    requires spelling == QaShort || spelling == QaAcceptance
    ensures var log := Evidence(pr, spelling);
      && OwnerWaitEvidence(log, "T", "s")
      && SuccessfulCurrentCi(GREEN, "s", "f") == Some(7)
      && ValidateQaEvidence(log, GREEN, SubjectOf(QA))
         == if pr == None || pr == Some(1) then Accept(ReviewOf(pr).handoff.payload) else Reject(OTHER_PR)
  {
    var log, s := Evidence(pr, spelling), SubjectOf(QA);
    ReviewFacts(pr, spelling);
    GateFindsLastReview(log, s);
    assert GREEN[..0] == [];
    NewestRecordsAreNewest(log, "T", "s");
    assert log[2] in log && TerminalRecord(log[2], "T", "s");
    assert log[3] in log && QaRecord(log[3], "T", "s");
  }

  /** An open, quiet PR on this claim's branch and commit, with a start on record. */
  predicate Recoverable(b: Binding, cp: Checkpoint, pr: PullRequest) {
    && cp.blocker.None? && Identity(pr, b) && AcceptedRoutes(b, cp, Route(pr.labels))
    && Approvals(pr.labels) == {} && Alarms(pr.labels) == {}
    && (cp.start.Some? || cp.projection.Some?)
  }

  lemma RecoveryFollowsEvidence(b: Binding, l: Lease, cp: Checkpoint, pr: PullRequest, log: Log, runs: Runs)
    requires Recoverable(b, cp, pr)
    requires if DurableResult(b, log) then VerifiedNextWorkflow(b, log, runs).Accept?
             else Route(pr.labels) == RunningRoute(b)
    ensures RecoverPlan(b, l, cp, pr, log, runs).Rewrite?
    ensures RecoverPlan(b, l, cp, pr, log, runs).audit.workflowAfter ==
      if DurableResult(b, log) then VerifiedNextWorkflow(b, log, runs).value else TodoRoute(b)
  {
  }

  lemma RouteOfRoute(agent: AgentName, phase: PhaseName, status: StatusName)
    ensures var labels := WorkRoute(agent, phase, status);
      Route(labels) == labels && Approvals(labels) == {} && Alarms(labels) == {}
  {
  }

  lemma QaVerdict(pr: Option<nat>, spelling: HandoffPhase)
    requires spelling == QaShort || spelling == QaAcceptance
    ensures VerifiedNextWorkflow(QA, Evidence(pr, spelling), GREEN)
         == if pr == None || pr == Some(1) then Accept(HUMAN_WAIT_ROUTE) else Reject(OTHER_PR)
  {
    EvidenceFacts(pr, spelling);
  }

  lemma DurableAsSpelled(spelling: HandoffPhase)
    ensures DurableResult(QA, Evidence(None, spelling)) <==> spelling == QaAcceptance
  {
    var log := Evidence(None, spelling);
    assert DurableRecord(log[3], QA) <==> spelling == QaAcceptance;
    assert !DurableRecord(log[0], QA) && !DurableRecord(log[1], QA) && !DurableRecord(log[2], QA);
  }

  lemma BranchIsRecoverable(cp: Checkpoint, agent: AgentName, phase: PhaseName, status: StatusName)
    requires var route := WorkRoute(agent, phase, status);
      || (route == RunningRoute(QA) && cp.start.Some?)
      || (cp.projection.Some? && route == cp.projection.value.workflowAfter)
    requires cp.blocker.None?
    ensures Recoverable(QA, cp, Branch(WorkRoute(agent, phase, status)))
  {
    RouteOfRoute(agent, phase, status);
  }

  /** A QA handoff spelled `qa` satisfies the gate, so the phase could advance
      to the human wait; the expiry recovery does not see it and requeues QA. */
  lemma ShortSpellingIsRequeued(l: Lease, start: Audit) returns (log: Log, pr: PullRequest, cp: Checkpoint)
    ensures log == Evidence(None, QaShort) && Route(pr.labels) == RunningRoute(QA)
    ensures VerifiedNextWorkflow(QA, log, GREEN) == Accept(HUMAN_WAIT_ROUTE)
    ensures RecoverPlan(QA, l, cp, pr, log, GREEN).Rewrite?
    ensures RecoverPlan(QA, l, cp, pr, log, GREEN).audit.workflowAfter == TodoRoute(QA)
  {
    log, pr, cp := Evidence(None, QaShort), Branch(RunningRoute(QA)), NO_CHECKPOINT.(start := Some(start));
    QaVerdict(None, QaShort);
    DurableAsSpelled(QaShort);
    RouteOfRoute(Workbuddy, Qa, Running);
    BranchIsRecoverable(cp, Workbuddy, Qa, Running);
    RecoveryFollowsEvidence(QA, l, cp, pr, log, GREEN);
  }

  /** The owner-wait branch rewrites every label set of the running QA phase. */
  lemma OwnerWaitBranchConverges(x: Reconcile.Target, log: Log, review: Comment)
    requires x.pr.labels == RunningRoute(QA)
    requires Reconcile.NewestReview(log, Reconcile.SubjectOfTarget(x)) == Some(review) && Succeeds(review)
    requires IndependentReviewPass(log, review.handoff.payload, review, x.task, x.pr.headSha)
    ensures Reconcile.OwnerWaitBranch(x, log).Some? && Reconcile.OwnerWaitBranch(x, log).value.ConvergeOwnerWait?
  {
    var after := (x.pr.labels - Reconcile.STATE_LABELS) + HUMAN_WAIT_ROUTE;
    assert Status(Review) in after && Status(Review) !in x.pr.labels;
  }

  /** A review that names another PR stops the QA gate, and the reconciler
      converges into the human wait all the same. */
  lemma ForeignReviewConverges()
    ensures var log := Evidence(Some(2), QaAcceptance);
      var x := Reconcile.Target(Branch(RunningRoute(QA)), 1, "T");
      && Reconcile.Decide(x, log, GREEN).ConvergeOwnerWait?
      && VerifiedNextWorkflow(QA, log, GREEN) == Reject(OTHER_PR)
  {
    QaVerdict(Some(2), QaAcceptance);
    var x := Reconcile.Target(Branch(RunningRoute(QA)), 1, "T");
    ForeignBranch(x);
    DecideTakesOwnerWaitBranch(x, Evidence(Some(2), QaAcceptance), GREEN);
  }

  lemma ForeignBranch(x: Reconcile.Target)
    requires x == Reconcile.Target(Branch(RunningRoute(QA)), 1, "T")
    ensures var branch := Reconcile.OwnerWaitBranch(x, Evidence(Some(2), QaAcceptance));
      branch.Some? && branch.value.ConvergeOwnerWait?
    ensures OwnerWaitEvidence(Evidence(Some(2), QaAcceptance), x.task, x.pr.headSha)
    ensures SuccessfulCurrentCi(GREEN, x.pr.headSha, x.pr.headRef) == Some(7)
  {
    EvidenceFacts(Some(2), QaAcceptance);
    ReviewFacts(Some(2), QaAcceptance);
    OwnerWaitBranchConverges(x, Evidence(Some(2), QaAcceptance), ReviewOf(Some(2)));
  }

  lemma DecideTakesOwnerWaitBranch(x: Reconcile.Target, log: Log, runs: Runs)
    requires x.pr.open && !x.pr.merged && x.task != "" && x.pr.headSha != ""
    requires OwnerWaitEvidence(log, x.task, x.pr.headSha)
    requires Reconcile.TruthyCi(SuccessfulCurrentCi(runs, x.pr.headSha, x.pr.headRef))
    ensures Reconcile.OwnerWaitBranch(x, log).Some? ==>
      Reconcile.Decide(x, log, runs) == Reconcile.OwnerWaitBranch(x, log).value
  {
  }

  /** A QA lease that had queued the review of its report commit and expired
      before it was finished: once that commit has its own evidence the recovery
      goes on to the human wait, two potential steps in one write. */
  lemma RecoverySkipsReview(l: Lease, start: Audit, planned: Audit) returns (log: Log, pr: PullRequest, cp: Checkpoint)
    requires start.lease == planned.lease && start.applied && planned.workflowAfter == POST_QA_ROUTE
    ensures cp.start == Some(start) && cp.projection == Some(planned)
    ensures Route(pr.labels) == POST_QA_ROUTE && MovedHeadInQa(QA, cp)
    ensures RecoverPlan(QA, l, cp, pr, log, GREEN).Rewrite?
    ensures RecoverPlan(QA, l, cp, pr, log, GREEN).audit.workflowAfter == HUMAN_WAIT_ROUTE
    ensures Workflow.Potential(pr.labels) == 2
  {
    log, pr := Evidence(None, QaAcceptance), Branch(POST_QA_ROUTE);
    cp := NO_CHECKPOINT.(start := Some(start), report := Some(ReportPublication("r", "s", "d")),
                         projection := Some(planned));
    QaVerdict(None, QaAcceptance);
    DurableAsSpelled(QaAcceptance);
    RouteOfRoute(Workreview, CodeReview, Todo);
    BranchIsRecoverable(cp, Workreview, CodeReview, Todo);
    RecoveryFollowsEvidence(QA, l, cp, pr, log, GREEN);
    Workflow.WorkPotential(pr.labels, Workreview, CodeReview, Todo);
  }

  /* ---- Two lost responses undo a retry decision ---- */

  /** The start lands and its applied mark is lost. */
  lemma StartLosesItsMark(l: Lease, s: ClaimSession.Session, gate: Runs)
    requires ClaimSession.FreshRow(s)
    requires Current(s.b, s.pr, false, None).None? && StartGate(s.b, s.log, gate).None?
    ensures var t := ClaimSession.StartEffects(l, s, gate, 2);
      && t == s.(pr := s.pr.(labels := Started(s.b, s.pr.labels)), cp := s.cp.(start := t.cp.start), starts := 1)
      && !ClaimSession.StartApplied(l, t.cp)
  {
    ClaimSession.StartPassesWriter(s.b, s.pr.labels);
  }

  /** In the running state a retry decision is planned. */
  lemma RunningMayRetry(l: Lease, b: Binding, pr: PullRequest)
    requires Current(b, pr, true, None).None? && Route(pr.labels) == RunningRoute(b)
    ensures DecisionPlan(b, l, pr, RetryPhase).Write?
  {
    assert Status(Running) in Route(pr.labels);
  }

  lemma StartedIsCurrent(b: Binding, pr: PullRequest)
    requires Current(b, pr, false, None).None?
    ensures Current(b, pr.(labels := Started(b, pr.labels)), true, None).None?
    ensures Route(Started(b, pr.labels)) == RunningRoute(b)
  {
    ClaimSession.StartedRoute(b, pr.labels);
    RouteSwap(pr.labels, RunningRoute(b));
  }

  /** A start whose applied mark is lost, a retry whose finish is lost, and the
      start again: the lease undoes its own requeue. */
  lemma LostMarksUndoRetry(l: Lease, s0: ClaimSession.Session, gate: Runs) returns (events: seq<ClaimSession.Event>)
    requires ClaimSession.FreshRow(s0)
    requires Current(s0.b, s0.pr, false, None).None? && StartGate(s0.b, s0.log, gate).None?
    ensures |events| == 3 && events[0] == events[2] == ClaimSession.StartCall(gate, 2)
    ensures events[1] == ClaimSession.DecisionCall(RetryPhase, 2)
    ensures ClaimSession.History(l, s0, events[..2]).starts == 1
    ensures Route(ClaimSession.History(l, s0, events[..2]).pr.labels) == TodoRoute(s0.b)
    ensures ClaimSession.History(l, s0, events).starts == 2
  {
    var start, retry := ClaimSession.StartCall(gate, 2), ClaimSession.DecisionCall(RetryPhase, 2);
    var one: seq<ClaimSession.Event> := [] + [start];
    var two := one + [retry];
    events := two + [start];
    assert events[..2] == two;
    Workflow.HistoryStep(l, s0, [], start);
    Workflow.HistoryStep(l, s0, one, retry);
    Workflow.HistoryStep(l, s0, two, start);
    StartLosesItsMark(l, s0, gate);
    var s := ClaimSession.History(l, s0, one);
    StartedIsCurrent(s0.b, s0.pr);
    RunningMayRetry(l, s.b, s.pr);
    RetryLands(l, s0, one, gate);
    ClaimSession.StartChangesLabelsExactly(l, s0, two, gate, 2);
  }

  lemma RetryLands(l: Lease, s0: ClaimSession.Session, front: seq<ClaimSession.Event>, gate: Runs)
    requires ClaimSession.FreshRow(s0) && ClaimSession.Undisturbed(front)
    requires var s := ClaimSession.History(l, s0, front);
      && !s.closed && s.b == s0.b && s.log == s0.log && s.starts == 1 && !ClaimSession.StartApplied(l, s.cp)
      && DecisionPlan(s.b, l, s.pr, RetryPhase).Write?
    requires StartGate(s0.b, s0.log, gate).None?
    ensures var t := ClaimSession.DecisionEffects(l, ClaimSession.History(l, s0, front), RetryPhase, 2);
      && t.starts == 1 && Route(t.pr.labels) == TodoRoute(s0.b) && ClaimSession.StartLands(l, t, gate, 2)
  {
    ClaimSession.RetryReopensExactly(l, s0, front, 2, gate);
    ClaimSession.DecisionShape(l, ClaimSession.History(l, s0, front), RetryPhase, 2);
  }

  /** The same on a concrete QA claim with its evidence. */
  lemma QaRetryIsUndone(l: Lease) returns (s0: ClaimSession.Session, events: seq<ClaimSession.Event>)
    ensures s0 == ClaimSession.Session(
      QA, Branch(TodoRoute(QA)), Evidence(None, QaAcceptance), NO_CHECKPOINT, false, 0, 0, 0, 0, 0, 0)
    ensures |events| == 3 && ClaimSession.History(l, s0, events).starts == 2
  {
    s0 := ClaimSession.Session(
      QA, Branch(TodoRoute(QA)), Evidence(None, QaAcceptance), NO_CHECKPOINT, false, 0, 0, 0, 0, 0, 0);
    EvidenceFacts(None, QaAcceptance);
    RouteOfRoute(Workbuddy, Qa, Todo);
    events := LostMarksUndoRetry(l, s0, GREEN);
  }

  /* ---- A deployment cannot hand itself off ---- */

  /** A successful deployment without labels of its own plans the route it already
      shows, so the worker finds a transition without its handoff and stops, in
      the first attempt as in every replay. */
  lemma DeploymentIsStuck(
      earlier: Option<NativeReplay.NativeCheckpoint>, r: NativeReplay.Result, text: Option<NativeReplay.PolicyText>)
    requires r.verdict == NativeReplay.Success && r.next == {}
    requires earlier.Some? && earlier.value.transition.Some? ==>
      Route(earlier.value.transition.value) == WorkRoute(Workbuddy, Deploy, Running)
    ensures var live := WorkRoute(Workbuddy, Deploy, Running);
      NativeReplay.StuckWithoutHandoff(live, Route(NativeReplay.PlannedLabels(Deploy, earlier, live, r, text)), false)
  {
    RouteOfRoute(Workbuddy, Deploy, Running);
    NativeReplay.StuckExactlyWhenRouteStays(Deploy, WorkRoute(Workbuddy, Deploy, Running), r, text);
  }
}
