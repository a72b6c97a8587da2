/** Runs of the claim API and the expiry recovery on one pull request. A plan
    reads a snapshot, a prefix of the comment log and a CI list, all possibly
    stale; its write lands later, if the shared writer's checks still hold.
    Comments, pushes, head moves and other claims happen in between. */
module Workflow {
  import opened Labels
  import opened Records
  import opened HandoffGate
  import opened EvidenceGate
  import opened StateProjection
  import opened ClaimApi
  import opened ClaimSession
  import Writer = StateWriter
  import HeadTransition

  datatype Kind =
    | StartWrite | AdvanceWrite | PostQaWrite
    | RetryWrite | BlockWrite | RepairWrite
    | RequeueWrite | RecoveredWrite

  datatype Pending = Pending(kind: Kind, b: Binding, before: LabelSet, after: LabelSet, log: Log, runs: Runs)

  datatype Claimed = Claimed(b: Binding, cp: Checkpoint, l: Lease)

  /** `advances` counts verified advances, `reports` post-QA advances, `repairs`
      review-to-repair decisions, `skips` recoveries that went on from a
      post-QA route straight to the human wait. */
  datatype Flow = Flow(
    pr: PullRequest, log: Log, rows: map<nat, Claimed>, pending: map<nat, Pending>,
    advances: nat, reports: nat, repairs: nat, skips: nat)

  datatype Move =
    | Acquire(i: nat, b: Binding, l: Lease)
    | TakeOver(i: nat, l: Lease)
    | Comments(c: Comment)
    | Push(sha: Sha)
    | Declare(i: nat, intent: HeadIntent)
    | MoveHead(i: nat)
    | BindReport(i: nat, report: ReportPublication)
    | PlanStart(i: nat, j: nat, snapshot: PullRequest, seen: nat, runs: Runs)
    | PlanAdvance(i: nat, j: nat, snapshot: PullRequest, seen: nat, runs: Runs)
    | PlanDecision(i: nat, j: nat, snapshot: PullRequest, decision: WorkerDecision)
    | PlanRecovery(i: nat, j: nat, snapshot: PullRequest, seen: nat, runs: Runs)
    | Land(j: nat)
    | Drop(j: nat)
    | Edit(labels: LabelSet)

  predicate CanMove(w: Flow, m: Move) {
    match m
    case Acquire(i, b, _) => i !in w.rows && StandardBinding(b)
    case TakeOver(i, _) => i in w.rows
    case Declare(i, _) => i in w.rows && w.rows[i].cp.projection.None?
    case MoveHead(i) => i in w.rows && w.rows[i].cp.head.Some?
        && HeadTransition.Declared(w.rows[i].b, w.rows[i].cp.head.value, w.pr)
    case BindReport(i, report) =>
      && i in w.rows && w.rows[i].b.phase in {Prototype, Qa}
      && w.rows[i].cp.projection.None? && w.rows[i].cp.report.None? && report.from == w.rows[i].b.sha
    case PlanStart(i, j, _, seen, _) => i in w.rows && j !in w.pending && seen <= |w.log|
    case PlanAdvance(i, j, _, seen, _) => i in w.rows && j !in w.pending && seen <= |w.log|
    case PlanDecision(i, j, _, _) => i in w.rows && j !in w.pending
    case PlanRecovery(i, j, _, seen, _) => i in w.rows && j !in w.pending && seen <= |w.log|
    case Land(j) => j in w.pending
    case Drop(j) => j in w.pending
    case _ => true
  }

  function Rebind(b: Binding, sha: Sha): Binding {
    b.(sha := sha, operationKey := Operation(b.repo, b.pr, sha, b.phase))
  }

  function DecisionKind(d: WorkerDecision): Kind {
    match d case RetryPhase => RetryWrite case BlockPhase(_) => BlockWrite case RequestRepair => RepairWrite
  }

  /** The write passes the shared writer's checks at this moment. */
  predicate Lands(w: Flow, p: Pending) {
    && SameBranch(w.pr, p.b) && w.pr.headSha == p.b.sha
    && w.pr.labels == p.before && p.before != p.after
    && Writer.Refused(p.before, p.after).None?
  }

  predicate Skips(p: Pending) { p.kind == RecoveredWrite && p.b.phase == Qa && Route(p.before) == POST_QA_ROUTE }

  function Landed(w: Flow, p: Pending): Flow {
    w.(pr := w.pr.(labels := p.after),
       advances := w.advances + if p.kind == AdvanceWrite || p.kind == RecoveredWrite then 1 else 0,
       reports := w.reports + if p.kind == PostQaWrite then 1 else 0,
       repairs := w.repairs + if p.kind == RepairWrite && p.b.phase == CodeReview then 1 else 0,
       skips := w.skips + if Skips(p) then 1 else 0)
  }

  function Planned(w: Flow, i: nat, cp: Checkpoint, j: nat, p: Pending): Flow
    requires i in w.rows
  {
    w.(rows := w.rows[i := w.rows[i].(cp := cp)], pending := w.pending[j := p])
  }

  function Next(w: Flow, m: Move): Flow
    requires CanMove(w, m)
  {
    match m
    case Acquire(i, b, l) => w.(rows := w.rows[i := Claimed(b, NO_CHECKPOINT, l)])
    case TakeOver(i, l) => w.(rows := w.rows[i := w.rows[i].(l := l)])
    case Comments(c) => w.(log := w.log + [c])
    case Push(sha) => w.(pr := w.pr.(headSha := sha))
    case Declare(i, intent) => w.(rows := w.rows[i := w.rows[i].(cp := w.rows[i].cp.(head := Some(intent)))])
    case MoveHead(i) =>
      var r := w.rows[i];
      w.(rows := w.rows[i := r.(b := Rebind(r.b, r.cp.head.value.to), cp := HeadTransition.Carried(r.cp, r.cp.head.value))])
    case BindReport(i, report) =>
      var r := w.rows[i];
      var cp := r.cp.(report := Some(report));
      w.(rows := w.rows[i := if report.to == r.b.sha then r.(cp := cp)
                             else r.(b := Rebind(r.b, report.to), cp := cp.(recovery := None))])
    case PlanStart(i, j, snapshot, seen, runs) =>
      var r := w.rows[i];
      (match StartPlan(r.b, r.l, r.cp, snapshot, w.log[..seen], runs)
       case Refuse(_) => w
       case Write(audit) =>
         Planned(w, i, r.cp.(start := Some(audit)), j,
                 Pending(StartWrite, r.b, snapshot.labels, Started(r.b, snapshot.labels), w.log[..seen], runs)))
    case PlanAdvance(i, j, snapshot, seen, runs) =>
      var r := w.rows[i];
      (match AdvancePlan(r.b, r.l, r.cp, snapshot, w.log[..seen], runs)
       case Refuse(_) => w
       case Write(audit) =>
         Planned(w, i, r.cp.(projection := Some(audit)), j,
                 Pending(if MovedHeadInQa(r.b, r.cp) then PostQaWrite else AdvanceWrite, r.b,
                         audit.before, audit.after, w.log[..seen], runs)))
    case PlanDecision(i, j, snapshot, decision) =>
      var r := w.rows[i];
      (match DecisionPlan(r.b, r.l, snapshot, decision)
       case Refuse(_) => w
       case Write(audit) =>
         Planned(w, i, r.cp.(decision := Some(audit)), j, Pending(DecisionKind(decision), r.b, audit.before, audit.after, [], [])))
    case PlanRecovery(i, j, snapshot, seen, runs) =>
      var r := w.rows[i];
      (match RecoverPlan(r.b, r.l, r.cp, snapshot, w.log[..seen], runs)
       case Rewrite(audit) =>
         Planned(w, i, r.cp.(recovery := Some(audit)), j,
                 Pending(if audit.workflowAfter == TodoRoute(r.b) then RequeueWrite else RecoveredWrite, r.b,
                         audit.before, audit.after, w.log[..seen], runs))
       case _ => w)
    case Land(j) =>
      var p := w.pending[j];
      var v := w.(pending := w.pending - {j});
      if Lands(w, p) then Landed(v, p) else v
    case Drop(j) => w.(pending := w.pending - {j})
    case Edit(labels) => w.(pr := w.pr.(labels := labels))
  }

  predicate Legal(w: Flow, moves: seq<Move>)
    decreases |moves|
  {
    moves == [] || (CanMove(w, moves[0]) && Legal(Next(w, moves[0]), moves[1..]))
  }

  function Final(w: Flow, moves: seq<Move>): Flow
    requires Legal(w, moves)
    decreases |moves|
  {
    if moves == [] then w else Final(Next(w, moves[0]), moves[1..])
  }

  /* ---- Potential ---- */

  function PhasePotential(phase: PhaseName): nat {
    match phase
    case Prototype => 4
    case Implementation => 3
    case EscalationRepair => 3
    case CodeReview => 2
    case Qa => 1
    case _ => 0
  }

  /** How many verified advances separate these labels from the human wait. */
  function Potential(labels: LabelSet): nat {
    if HumanWait(labels) then 0
    else if Phase(Prototype) in labels then 4
    else if Phase(Implementation) in labels || Phase(EscalationRepair) in labels then 3
    else if Phase(CodeReview) in labels then 2
    else if Phase(Qa) in labels then 1
    else 0
  }

  lemma WorkPotential(labels: LabelSet, agent: AgentName, phase: PhaseName, status: StatusName)
    requires Route(labels) == WorkRoute(agent, phase, status)
    requires status in {Todo, Running, StatusName.Blocked}
    ensures Potential(labels) == PhasePotential(phase)
    ensures Canonical(labels) && !HumanWait(labels)
  {
    WorkRouteIsCanonical(labels, agent, phase, status);
    forall p: PhaseName
      ensures Phase(p) in labels <==> p == phase
    {
      assert Phase(p) in Route(labels) <==> Phase(p) in labels;
    }
  }

  /* ---- What every plan guarantees about its write ---- */

  predicate Working(b: Binding, labels: LabelSet) {
    Route(labels) == TodoRoute(b) || Route(labels) == RunningRoute(b)
  }

  /** How far the write lowers the potential. */
  function Descent(p: Pending): int {
    match p.kind
    case AdvanceWrite => 1
    case RecoveredWrite => if Skips(p) then 2 else 1
    case PostQaWrite => -1
    case RepairWrite => if p.b.phase == CodeReview then -1 else 0
    case _ => 0
  }

  /** The evidence a plan read and checked, for the commit it is bound to. */
  ghost predicate ReadEvidence(p: Pending) {
    HumanWait(p.after) ==>
      && (p.kind == AdvanceWrite || p.kind == RecoveredWrite)
      && TerminalEvidence(p.log, p.runs, p.b.taskId, p.b.sha, p.b.headRef)
  }

  ghost predicate PendingOk(p: Pending) {
    p.before != p.after ==>
      && Writer.Refused(p.before, p.after).None?
      && Potential(p.before) == Potential(p.after) + Descent(p)
      && ReadEvidence(p)
  }

  /** Where an advance of this row leads. */
  function Leads(r: Claimed): LabelSet { if MovedHeadInQa(r.b, r.cp) then POST_QA_ROUTE else NextRoute(r.b.phase) }

  predicate RowOk(r: Claimed) {
    && StandardBinding(r.b)
    && (r.cp.projection.Some? ==> r.cp.projection.value.workflowAfter == Leads(r))
    && (r.cp.recovery.Some? ==> r.cp.recovery.value.workflowAfter in {TodoRoute(r.b), NextRoute(r.b.phase)})
  }

  /** A route swap between two work routes, or into the human wait, is a write
      the shared writer accepts. */
  lemma SwapPassesWriter(b: Binding, before: LabelSet, target: LabelSet)
    requires Alarms(before) == {} && !HumanWait(before)
    requires target == TodoRoute(b) || target == RunningRoute(b) || target == NextRoute(b.phase) || target == POST_QA_ROUTE
    ensures Route(Rerouted(before, target)) == target
    ensures Writer.Refused(before, Rerouted(before, target)).None?
  {
    NextRoutesAreRoutes(b);
    RouteSwap(before, target);
    var after := Rerouted(before, target);
    assert Unrelated(before) <= after;
    if target == HUMAN_WAIT_ROUTE {
      HumanWaitRouteIsCanonical(after);
    } else {
      var agent, phase, status :| target == WorkRoute(agent, phase, status) && status in {Todo, Running};
      WorkRouteIsCanonical(after, agent, phase, status);
    }
  }

  lemma WorkingFacts(b: Binding, labels: LabelSet)
    requires StandardBinding(b) && Working(b, labels)
    ensures !HumanWait(labels) && Potential(labels) == PhasePotential(b.phase)
    ensures Route(labels) != NextRoute(b.phase) && (b.phase == Qa ==> Route(labels) != POST_QA_ROUTE)
  {
    if Route(labels) == TodoRoute(b) {
      WorkPotential(labels, b.agent, b.phase, Todo);
    } else {
      WorkPotential(labels, b.agent, b.phase, Running);
    }
    AdvanceLeavesPhase(b, NextRoute(b.phase));
    if b.phase == Qa {
      AdvanceLeavesPhase(b, POST_QA_ROUTE);
    }
  }

  lemma NextPotential(phase: PhaseName, labels: LabelSet)
    requires ClaimPhase(phase) && Route(labels) == NextRoute(phase)
    ensures Potential(labels) == PhasePotential(phase) - 1
    ensures HumanWait(labels) <==> phase == Qa
  {
    match phase {
      case Prototype => WorkPotential(labels, Chatgpt, Implementation, Todo);
      case Implementation => WorkPotential(labels, Workreview, CodeReview, Todo);
      case EscalationRepair => WorkPotential(labels, Workreview, CodeReview, Todo);
      case CodeReview => WorkPotential(labels, Workbuddy, Qa, Todo);
      case Qa =>
        assert Status(Review) in Route(labels);
    }
  }

  lemma UnchangedRoute(labels: LabelSet)
    ensures Rerouted(labels, Route(labels)) == labels
  {
  }

  lemma StartPlanOk(r: Claimed, snapshot: PullRequest, log: Log, runs: Runs)
    requires RowOk(r) && StartPlan(r.b, r.l, r.cp, snapshot, log, runs).Write?
    ensures PendingOk(Pending(StartWrite, r.b, snapshot.labels, Started(r.b, snapshot.labels), log, runs))
  {
    var before, after := snapshot.labels, Started(r.b, snapshot.labels);
    WorkingFacts(r.b, before);
    if Route(before) == TodoRoute(r.b) {
      StartedRoute(r.b, before);
      SwapPassesWriter(r.b, before, RunningRoute(r.b));
      WorkPotential(after, r.b.agent, r.b.phase, Running);
    } else {
      assert after == before by {
        assert Status(Todo) in before ==> Status(Todo) in Route(before);
        forall x | x in RunningRoute(r.b) ensures x in before {
          assert x in Route(before);
        }
      }
    }
  }

  lemma AdvancePlanOk(r: Claimed, snapshot: PullRequest, log: Log, runs: Runs)
    requires RowOk(r) && AdvancePlan(r.b, r.l, r.cp, snapshot, log, runs).Write?
    ensures var audit := AdvancePlan(r.b, r.l, r.cp, snapshot, log, runs).value;
      && audit.workflowAfter == Leads(r)
      && PendingOk(Pending(if MovedHeadInQa(r.b, r.cp) then PostQaWrite else AdvanceWrite, r.b,
                           audit.before, audit.after, log, runs))
  {
    var before := snapshot.labels;
    AdvanceTargets(r.b, r.cp, log, runs);
    if Route(before) == Leads(r) {
      UnchangedRoute(before);
    } else {
      WorkingFacts(r.b, before);
      SwapPassesWriter(r.b, before, Leads(r));
      var after := Rerouted(before, Leads(r));
      if MovedHeadInQa(r.b, r.cp) {
        WorkPotential(after, Workreview, CodeReview, Todo);
      } else {
        NextPotential(r.b.phase, after);
        if r.b.phase == Qa {
          HumanWaitNeedsTerminalEvidence(r.b, log, runs);
        }
      }
    }
  }

  lemma DecisionPlanOk(r: Claimed, snapshot: PullRequest, d: WorkerDecision)
    requires RowOk(r) && DecisionPlan(r.b, r.l, snapshot, d).Write?
    ensures var audit := DecisionPlan(r.b, r.l, snapshot, d).value;
      PendingOk(Pending(DecisionKind(d), r.b, audit.before, audit.after, [], []))
  {
    var before := snapshot.labels;
    var target := DecisionTarget(r.b, d).value;
    var after := Unrelated(before) + target;
    WorkingFacts(r.b, before);
    var route := match d
      case RetryPhase => TodoRoute(r.b)
      case BlockPhase(_) => WorkRoute(r.b.agent, r.b.phase, StatusName.Blocked)
      case RequestRepair => WorkRoute(Workreview, EscalationRepair, Todo);
    assert Route(after) == route by {
      forall x ensures x in Route(after) <==> x in route { }
    }
    assert Unrelated(before) <= after;
    match d {
      case RetryPhase => WorkPotential(after, r.b.agent, r.b.phase, Todo);
      case BlockPhase(_) => WorkPotential(after, r.b.agent, r.b.phase, StatusName.Blocked);
      case RequestRepair => WorkPotential(after, Workreview, EscalationRepair, Todo);
    }
  }

  /** A recovery plan is a swap to TODO or to the phase's own next route, from
      the claim's working routes, from its target, or from its post-QA route. */
  lemma RecoveryShape(r: Claimed, snapshot: PullRequest, log: Log, runs: Runs)
    requires RowOk(r) && RecoverPlan(r.b, r.l, r.cp, snapshot, log, runs).Rewrite?
    ensures var audit := RecoverPlan(r.b, r.l, r.cp, snapshot, log, runs).audit;
      var route, target := Route(snapshot.labels), audit.workflowAfter;
      && audit.before == snapshot.labels && audit.after == Rerouted(snapshot.labels, target)
      && Alarms(snapshot.labels) == {} && Approvals(snapshot.labels) == {}
      && (target == NextRoute(r.b.phase)
          || (target == TodoRoute(r.b) && (route == TodoRoute(r.b) || route == RunningRoute(r.b))))
      && (route == target || Working(r.b, snapshot.labels) || (r.b.phase == Qa && route == POST_QA_ROUTE))
      && (target == NextRoute(r.b.phase) ==> VerifiedNextWorkflow(r.b, log, runs) == Accept(target))
  {
    AcceptedRoute(r.b, log, runs);
    AdvanceLeavesPhase(r.b, NextRoute(r.b.phase));
  }

  /** A recovery's swap passes the writer and descends as its kind says. */
  lemma RecoverySwap(r: Claimed, before: LabelSet, target: LabelSet, kind: Kind, log: Log, runs: Runs)
    requires StandardBinding(r.b) && Alarms(before) == {} && Route(before) != target
    requires Working(r.b, before)
             || (r.b.phase == Qa && Route(before) == POST_QA_ROUTE && target == NextRoute(r.b.phase))
    requires target == TodoRoute(r.b) || target == NextRoute(r.b.phase)
    requires kind == if target == TodoRoute(r.b) then RequeueWrite else RecoveredWrite
    ensures var p := Pending(kind, r.b, before, Rerouted(before, target), log, runs);
      && Writer.Refused(before, p.after).None?
      && Potential(before) == Potential(p.after) + Descent(p)
      && (HumanWait(p.after) <==> target == NextRoute(r.b.phase) && r.b.phase == Qa)
  {
    AdvanceLeavesPhase(r.b, NextRoute(r.b.phase));
    var after := Rerouted(before, target);
    if Working(r.b, before) {
      WorkingFacts(r.b, before);
    } else {
      WorkPotential(before, Workreview, CodeReview, Todo);
    }
    SwapPassesWriter(r.b, before, target);
    if target == TodoRoute(r.b) {
      WorkPotential(after, r.b.agent, r.b.phase, Todo);
    } else {
      NextPotential(r.b.phase, after);
    }
  }

  lemma RecoveryPlanOk(r: Claimed, snapshot: PullRequest, log: Log, runs: Runs)
    requires RowOk(r) && RecoverPlan(r.b, r.l, r.cp, snapshot, log, runs).Rewrite?
    ensures var audit := RecoverPlan(r.b, r.l, r.cp, snapshot, log, runs).audit;
      && audit.workflowAfter in {TodoRoute(r.b), NextRoute(r.b.phase)}
      && PendingOk(Pending(if audit.workflowAfter == TodoRoute(r.b) then RequeueWrite else RecoveredWrite, r.b,
                           audit.before, audit.after, log, runs))
  {
    var target := RecoverPlan(r.b, r.l, r.cp, snapshot, log, runs).audit.workflowAfter;
    RecoveryShape(r, snapshot, log, runs);
    AdvanceLeavesPhase(r.b, NextRoute(r.b.phase));
    if Route(snapshot.labels) == target {
      UnchangedRoute(snapshot.labels);
    } else {
      var kind := if target == TodoRoute(r.b) then RequeueWrite else RecoveredWrite;
      RecoverySwap(r, snapshot.labels, target, kind, log, runs);
      if target == NextRoute(r.b.phase) && r.b.phase == Qa {
        HumanWaitNeedsTerminalEvidence(r.b, log, runs);
      }
    }
  }

  /** When a recovery skips: exactly when it finds the PR on the post-QA review
      route in a QA claim. Then this claim moved HEAD by its own report, and
      that very commit has the whole evidence for the human wait. */
  lemma SkipMeaning(r: Claimed, snapshot: PullRequest, log: Log, runs: Runs)
    requires RowOk(r) && RecoverPlan(r.b, r.l, r.cp, snapshot, log, runs).Rewrite?
    ensures var audit := RecoverPlan(r.b, r.l, r.cp, snapshot, log, runs).audit;
      var kind := if audit.workflowAfter == TodoRoute(r.b) then RequeueWrite else RecoveredWrite;
      && (Skips(Pending(kind, r.b, audit.before, audit.after, log, runs))
          <==> r.b.phase == Qa && Route(snapshot.labels) == POST_QA_ROUTE)
      && (r.b.phase == Qa && Route(snapshot.labels) == POST_QA_ROUTE ==>
            && MovedHeadInQa(r.b, r.cp) && snapshot.headSha == r.b.sha
            && audit.workflowAfter == HUMAN_WAIT_ROUTE
            && TerminalEvidence(log, runs, r.b.taskId, r.b.sha, r.b.headRef))
  {
    if r.b.phase == Qa && Route(snapshot.labels) == POST_QA_ROUTE {
      AdvanceLeavesPhase(r.b, POST_QA_ROUTE);
      assert DurableResult(r.b, log);
      AcceptedRoute(r.b, log, runs);
      HumanWaitNeedsTerminalEvidence(r.b, log, runs);
      AdvanceLeavesPhase(r.b, NextRoute(r.b.phase));
    }
  }

  /* ---- The invariant and the theorems ---- */

  ghost predicate FlowOk(w: Flow) {
    && (forall i :: i in w.rows ==> RowOk(w.rows[i]))
    && (forall j :: j in w.pending ==> PendingOk(w.pending[j]) && w.pending[j].log <= w.log)
  }

  lemma RowKeepsOk(w: Flow, i: nat, r: Claimed)
    requires FlowOk(w) && RowOk(r)
    ensures FlowOk(w.(rows := w.rows[i := r]))
  {
  }

  lemma PlannedKeepsOk(w: Flow, i: nat, cp: Checkpoint, j: nat, p: Pending)
    requires FlowOk(w) && i in w.rows && RowOk(w.rows[i].(cp := cp))
    requires PendingOk(p) && p.log <= w.log
    ensures FlowOk(Planned(w, i, cp, j, p))
  {
  }

  /** Claims that are acquired, taken over, or rebound to a new head stay well-formed. */
  lemma ClaimMoveKeepsOk(w: Flow, m: Move)
    requires FlowOk(w) && CanMove(w, m)
    requires m.Acquire? || m.TakeOver? || m.Declare? || m.MoveHead? || m.BindReport?
    ensures FlowOk(Next(w, m))
  {
    assert RowOk(Next(w, m).rows[m.i]);
    RowKeepsOk(w, m.i, Next(w, m).rows[m.i]);
  }

  lemma StartMoveKeepsOk(w: Flow, m: Move)
    requires FlowOk(w) && CanMove(w, m) && m.PlanStart?
    ensures FlowOk(Next(w, m))
  {
    var r, log := w.rows[m.i], w.log[..m.seen];
    var plan := StartPlan(r.b, r.l, r.cp, m.snapshot, log, m.runs);
    if plan.Write? {
      StartPlanOk(r, m.snapshot, log, m.runs);
      var p := Pending(StartWrite, r.b, m.snapshot.labels, Started(r.b, m.snapshot.labels), log, m.runs);
      PlannedKeepsOk(w, m.i, r.cp.(start := Some(plan.value)), m.j, p);
    }
  }

  lemma AdvanceMoveKeepsOk(w: Flow, m: Move)
    requires FlowOk(w) && CanMove(w, m) && m.PlanAdvance?
    ensures FlowOk(Next(w, m))
  {
    var r, log := w.rows[m.i], w.log[..m.seen];
    var plan := AdvancePlan(r.b, r.l, r.cp, m.snapshot, log, m.runs);
    if plan.Write? {
      AdvancePlanOk(r, m.snapshot, log, m.runs);
      var kind := if MovedHeadInQa(r.b, r.cp) then PostQaWrite else AdvanceWrite;
      var p := Pending(kind, r.b, plan.value.before, plan.value.after, log, m.runs);
      PlannedKeepsOk(w, m.i, r.cp.(projection := Some(plan.value)), m.j, p);
    }
  }

  lemma DecisionMoveKeepsOk(w: Flow, m: Move)
    requires FlowOk(w) && CanMove(w, m) && m.PlanDecision?
    ensures FlowOk(Next(w, m))
  {
    var r := w.rows[m.i];
    var plan := DecisionPlan(r.b, r.l, m.snapshot, m.decision);
    if plan.Write? {
      DecisionPlanOk(r, m.snapshot, m.decision);
      PlannedKeepsOk(w, m.i, r.cp.(decision := Some(plan.value)), m.j,
                     Pending(DecisionKind(m.decision), r.b, plan.value.before, plan.value.after, [], []));
    }
  }

  lemma RecoveryMoveKeepsOk(w: Flow, m: Move)
    requires FlowOk(w) && CanMove(w, m) && m.PlanRecovery?
    ensures FlowOk(Next(w, m))
  {
    var r, log := w.rows[m.i], w.log[..m.seen];
    var plan := RecoverPlan(r.b, r.l, r.cp, m.snapshot, log, m.runs);
    if plan.Rewrite? {
      RecoveryPlanOk(r, m.snapshot, log, m.runs);
      var kind := if plan.audit.workflowAfter == TodoRoute(r.b) then RequeueWrite else RecoveredWrite;
      var p := Pending(kind, r.b, plan.audit.before, plan.audit.after, log, m.runs);
      PlannedKeepsOk(w, m.i, r.cp.(recovery := Some(plan.audit)), m.j, p);
    }
  }

  lemma NextKeepsOk(w: Flow, m: Move)
    requires FlowOk(w) && CanMove(w, m)
    ensures FlowOk(Next(w, m))
  {
    match m {
      case PlanStart(_, _, _, _, _) => StartMoveKeepsOk(w, m);
      case PlanAdvance(_, _, _, _, _) => AdvanceMoveKeepsOk(w, m);
      case PlanDecision(_, _, _, _) => DecisionMoveKeepsOk(w, m);
      case PlanRecovery(_, _, _, _, _) => RecoveryMoveKeepsOk(w, m);
      case Acquire(_, _, _) => ClaimMoveKeepsOk(w, m);
      case TakeOver(_, _) => ClaimMoveKeepsOk(w, m);
      case Declare(_, _) => ClaimMoveKeepsOk(w, m);
      case MoveHead(_) => ClaimMoveKeepsOk(w, m);
      case BindReport(_, _) => ClaimMoveKeepsOk(w, m);
      case _ =>
    }
  }

  predicate NobodyEdits(moves: seq<Move>) { forall n :: 0 <= n < |moves| ==> !moves[n].Edit? }

  /** The balance that every machine step keeps. */
  function Balance(w: Flow): int { Potential(w.pr.labels) + w.advances + w.skips - w.reports - w.repairs }

  lemma NextKeepsBalance(w: Flow, m: Move)
    requires FlowOk(w) && CanMove(w, m) && !m.Edit?
    ensures Balance(Next(w, m)) == Balance(w)
  {
  }

  /** Progress conservation: in every run without a person's edit, the verified
      advances equal the potential spent plus post-QA report advances plus
      review-to-repair decisions, less one for each skipping recovery. */
  lemma {:induction false} ProgressConservation(w: Flow, moves: seq<Move>)
    requires FlowOk(w) && Legal(w, moves) && NobodyEdits(moves)
    ensures var v := Final(w, moves);
      && FlowOk(v)
      && (v.advances - w.advances) + (v.skips - w.skips)
         == Potential(w.pr.labels) - Potential(v.pr.labels) + (v.reports - w.reports) + (v.repairs - w.repairs)
    decreases |moves|
  {
    if moves != [] {
      assert !moves[0].Edit?;
      NextKeepsOk(w, moves[0]);
      NextKeepsBalance(w, moves[0]);
      ProgressConservation(Next(w, moves[0]), moves[1..]);
    }
  }

  /** A start: no claim and no write in flight; labels and log are arbitrary. */
  predicate Fresh(w: Flow) { w.rows == map[] && w.pending == map[] }

  /** Looping needs report commits or repair decisions: with at most `n` of
      them a run makes at most four more advances than that. */
  lemma AdvancesAreBounded(w: Flow, moves: seq<Move>)
    requires Fresh(w) && Legal(w, moves) && NobodyEdits(moves)
    ensures var v := Final(w, moves);
      v.advances - w.advances <= 4 + (v.reports - w.reports) + (v.repairs - w.repairs)
  {
    ProgressConservation(w, moves);
    SkipsOnlyGrow(w, moves);
  }

  lemma {:induction false} SkipsOnlyGrow(w: Flow, moves: seq<Move>)
    requires Legal(w, moves)
    ensures Final(w, moves).skips >= w.skips
    decreases |moves|
  {
    if moves != [] {
      SkipsOnlyGrow(Next(w, moves[0]), moves[1..]);
    }
  }

  /** The write that enters the human wait, seen at the moment it lands. */
  predicate EntersHumanWait(w: Flow, m: Move) {
    CanMove(w, m) && !m.Edit? && !HumanWait(w.pr.labels) && HumanWait(Next(w, m).pr.labels)
  }

  lemma {:induction false} RunKeepsOk(w: Flow, moves: seq<Move>, n: nat)
    requires FlowOk(w) && Legal(w, moves) && n <= |moves|
    ensures Legal(w, moves[..n]) && FlowOk(Final(w, moves[..n]))
    ensures n < |moves| ==> CanMove(Final(w, moves[..n]), moves[n])
    decreases n
  {
    if n > 0 {
      NextKeepsOk(w, moves[0]);
      RunKeepsOk(Next(w, moves[0]), moves[1..], n - 1);
      assert moves[..n][1..] == moves[1..][..n - 1];
    }
  }

  lemma ArrivalIsALanding(w: Flow, m: Move)
    requires FlowOk(w) && EntersHumanWait(w, m)
    ensures m.Land? && m.j in w.pending && Lands(w, w.pending[m.j]) && HumanWait(w.pending[m.j].after)
  {
  }

  /** Exact-SHA arrival: over all runs, with any pushes and head moves, a machine
      enters the human wait only by a write whose plan read, in a prefix of the
      log and a CI list, a review pass, a QA handoff, a restrictive terminal
      policy and a green run that all name the head commit at the write. */
  lemma {:induction false} ExactShaArrival(w: Flow, moves: seq<Move>, n: nat)
    requires Fresh(w) && Legal(w, moves) && n < |moves|
    requires Legal(w, moves[..n]) && EntersHumanWait(Final(w, moves[..n]), moves[n])
    ensures var at := Final(w, moves[..n]);
      && moves[n].Land? && moves[n].j in at.pending
      && var p := at.pending[moves[n].j];
         && (p.kind == AdvanceWrite || p.kind == RecoveredWrite)
         && p.log <= at.log
         && TerminalEvidence(p.log, p.runs, p.b.taskId, at.pr.headSha, at.pr.headRef)
  {
    RunKeepsOk(w, moves, n);
    ArrivalIsALanding(Final(w, moves[..n]), moves[n]);
    assert PendingOk(Final(w, moves[..n]).pending[moves[n].j]);
  }

  /** Every write a run plans, when it lands, is one the shared writer accepts:
      no plan ever builds an ambiguous target or drops an unrelated label. */
  lemma PlansPassTheWriter(w: Flow, moves: seq<Move>, n: nat, j: nat)
    requires Fresh(w) && Legal(w, moves) && n <= |moves|
    requires Legal(w, moves[..n]) && j in Final(w, moves[..n]).pending
    ensures var p := Final(w, moves[..n]).pending[j];
      p.before != p.after ==> Writer.Refused(p.before, p.after).None?
  {
    RunKeepsOk(w, moves, n);
  }

  /** A planned write is durable before it is pending: the row's checkpoint holds the
      audit with the labels it replaces and, but for a replayed start, leaves. */
  lemma PlansAreDurable(w: Flow, m: Move)
    requires CanMove(w, m) && Next(w, m).pending != w.pending
    requires m.PlanStart? || m.PlanAdvance? || m.PlanDecision? || m.PlanRecovery?
    ensures m.j in Next(w, m).pending && m.i in Next(w, m).rows
    ensures var p, cp := Next(w, m).pending[m.j], Next(w, m).rows[m.i].cp;
      && p.b == w.rows[m.i].b && p.before == m.snapshot.labels
      && (m.PlanStart? ==> cp.start.Some? && cp.start.value.lease == w.rows[m.i].l && p.kind == StartWrite)
      && (m.PlanAdvance? ==> cp.projection.Some? && (cp.projection.value.before, cp.projection.value.after) == (p.before, p.after))
      && (m.PlanDecision? ==> cp.decision.Some? && (cp.decision.value.before, cp.decision.value.after) == (p.before, p.after))
      && (m.PlanRecovery? ==> cp.recovery.Some? && (cp.recovery.value.before, cp.recovery.value.after) == (p.before, p.after))
  {
  }

  /* ---- Why a write may land in one step ---- */

  /** In every run of small steps a PUT that changes labels is a landing: at its
      writer's verification all checks of `Lands` hold, from there on to the PUT
      the labels stay as verified, and the PUT leaves the labels `Landed` does. */
  lemma PutIsALanding(w: Writer.World, steps: seq<Writer.Step>, n: nat, i: nat, p: Pending) returns (m: nat)
    requires Writer.Initial(w) && Writer.Legal(w, steps) && n < |steps| && steps[n].action == Writer.Put(i)
    requires Writer.Legal(w, steps[..n]) && i in Writer.Final(w, steps[..n]).jobs
    requires var j := Writer.Final(w, steps[..n]).jobs[i];
      j.before != j.after && p.b == j.binding && p.before == j.before && p.after == j.after
    ensures m < n && steps[m].action == Writer.Match(i) && Writer.Legal(w, steps[..m])
    ensures forall flow: Flow :: flow.pr == Writer.Final(w, steps[..m]).pr ==>
      Lands(flow, p) && Landed(flow, p).pr.labels == p.after
    ensures forall k :: m <= k <= n ==>
      Writer.Legal(w, steps[..k]) && Writer.Final(w, steps[..k]).pr.labels == p.before
    ensures Writer.Legal(w, steps[..n + 1]) && Writer.Final(w, steps[..n + 1]).pr.labels == p.after
  {
    Writer.NoLostUpdate(w, steps, n, i);
    Writer.RunIsSafe(w, steps, n);
    m := Writer.VerifiedSince(w, steps, n, i, Writer.Final(w, steps[..n]));
    forall k | m <= k <= n
      ensures Writer.Legal(w, steps[..k]) && Writer.Final(w, steps[..k]).pr.labels == p.before
    {
      assert Writer.LabelsAt(w, steps[..k], p.before);
    }
  }

  /* ---- A QA lease that publishes reports ---- */

  lemma StartFromTodo(l: Lease, s: Session, runs: Runs)
    requires StandardBinding(s.b) && !s.closed && s.cp.start.None?
    requires Current(s.b, s.pr, false, None).None? && StartGate(s.b, s.log, runs).None?
    ensures var t := StartEffects(l, s, runs, 3);
      && t == s.(pr := s.pr.(labels := Started(s.b, s.pr.labels)), cp := s.cp.(start := t.cp.start), starts := s.starts + 1)
      && StartApplied(l, t.cp)
      && Route(t.pr.labels) == RunningRoute(s.b) && Alarms(t.pr.labels) == {}
  {
    WorkingFacts(s.b, s.pr.labels);
    StartedRoute(s.b, s.pr.labels);
    SwapPassesWriter(s.b, s.pr.labels, RunningRoute(s.b));
    RouteSwap(s.pr.labels, RunningRoute(s.b));
    assert Status(Todo) in Route(s.pr.labels);
    assert s.pr.labels != Started(s.b, s.pr.labels);
  }

  lemma ReportFromRunning(l: Lease, s: Session, to: Sha, digest: string)
    requires s.b.phase == Qa && MayPublish(l, s) && s.cp.report.None? && to != s.b.sha
    ensures var t := ReportEffects(l, s, to, digest, 2);
      && t.b == s.b.(sha := to, operationKey := KeyOf(t.b)) && t.pr == s.pr.(headSha := to)
      && t.cp == s.cp.(report := Some(ReportPublication(s.b.sha, to, digest)), projection := None, recovery := None)
      && t.log == s.log && !t.closed && (t.starts, t.advances, t.markers) == (s.starts, s.advances, s.markers)
      && MovedHeadInQa(t.b, t.cp)
  {
  }

  lemma AdvanceFromReport(l: Lease, s: Session, runs: Runs, author: Login)
    requires StandardBinding(s.b) && !s.closed && MovedHeadInQa(s.b, s.cp) && s.cp.projection.None?
    requires Current(s.b, s.pr, true, None).None?
    requires SuccessfulCurrentCi(runs, s.b.sha, s.b.headRef).Some? && !MarkerPosted(s.b, s.log)
    ensures var t := AdvanceEffects(l, s, runs, author, 5);
      && t.closed && t.advances == s.advances + 1 && t.markers == s.markers + 1
      && Route(t.pr.labels) == POST_QA_ROUTE && t.b == s.b && t.starts == s.starts
  {
    WorkingFacts(s.b, s.pr.labels);
    SwapPassesWriter(s.b, s.pr.labels, POST_QA_ROUTE);
  }

  lemma HistoryStep(l: Lease, s: Session, front: seq<Event>, e: Event)
    ensures History(l, s, front + [e]) == Happen(l, History(l, s, front), e)
  {
    assert (front + [e])[..|front|] == front;
  }

  lemma StartedMayPublish(l: Lease, s: Session, runs: Runs, e: Event, t: Session)
    requires e == StartCall(runs, 3) && t == Happen(l, s, e)
    requires FreshRow(s) && StandardBinding(s.b)
    requires Current(s.b, s.pr, false, None).None? && StartGate(s.b, s.log, runs).None?
    ensures MayPublish(l, t) && t.b == s.b && t.cp.report.None? && t.log == s.log
    ensures t.starts == 1 && t.advances == 0 && t.markers == 0
  {
    StartFromTodo(l, s, runs);
    assert Status(Running) in Route(t.pr.labels);
  }

  lemma ReportedRunFinishes(
      l: Lease, s: Session, to: Sha, digest: string, runs: Runs, author: Login, report: Event, advance: Event)
    requires report == ReportCall(to, digest, 2) && advance == AdvanceCall(runs, author, 5)
    requires s.b.phase == Qa && StandardBinding(s.b) && MayPublish(l, s) && s.cp.report.None? && to != s.b.sha
    requires SuccessfulCurrentCi(runs, to, s.b.headRef).Some? && !MarkerPosted(Rebind(s.b, to), s.log)
    ensures var t := Happen(l, Happen(l, s, report), advance);
      && t.closed && t.b.sha == to && Route(t.pr.labels) == POST_QA_ROUTE
      && t.starts == s.starts && t.markers == s.markers + 1 && t.advances == s.advances + 1
  {
    ReportFromRunning(l, s, to, digest);
    AdvanceFromReport(l, ReportEffects(l, s, to, digest, 2), runs, author);
  }

  lemma ThreeEvents(l: Lease, s: Session, a: Event, b: Event, c: Event) returns (events: seq<Event>)
    ensures events == [a, b, c]
    ensures History(l, s, events) == Happen(l, Happen(l, Happen(l, s, a), b), c)
  {
    events := [] + [a] + [b] + [c];
    HistoryStep(l, s, [], a);
    HistoryStep(l, s, [] + [a], b);
    HistoryStep(l, s, [] + [a] + [b], c);
  }

  /** A QA claim whose start gate is open and whose report commit gets green CI. */
  ghost predicate ReportRunPossible(s0: Session, gate: Runs, to: Sha, runs: Runs) {
    && FreshRow(s0) && StandardBinding(s0.b) && s0.b.phase == Qa && to != s0.b.sha
    && Current(s0.b, s0.pr, false, None).None? && StartGate(s0.b, s0.log, gate).None?
    && SuccessfulCurrentCi(runs, to, s0.b.headRef).Some? && !MarkerPosted(Rebind(s0.b, to), s0.log)
  }

  /** One start, one marker, one advance, and the new commit is queued for review. */
  predicate ReportRunDone(s: Session, to: Sha) {
    && s.closed && s.b.sha == to && Route(s.pr.labels) == POST_QA_ROUTE
    && s.starts == 1 && s.markers == 1 && s.advances == 1
  }

  lemma ThreeCallsComplete(
      l: Lease, s0: Session, gate: Runs, to: Sha, digest: string, runs: Runs, author: Login,
      start: Event, report: Event, advance: Event)
    requires ReportRunPossible(s0, gate, to, runs)
    requires start == StartCall(gate, 3) && report == ReportCall(to, digest, 2)
    requires advance == AdvanceCall(runs, author, 5)
    ensures ReportRunDone(Happen(l, Happen(l, Happen(l, s0, start), report), advance), to)
  {
    StartedMayPublish(l, s0, gate, start, Happen(l, s0, start));
    ReportedRunFinishes(l, Happen(l, s0, start), to, digest, runs, author, report, advance);
  }

  /** From a fresh row a QA lease whose evidence holds starts, publishes a report
      commit and, under green CI of that commit, hands it to a new review. */
  lemma ReportRunCompletes(l: Lease, s0: Session, gate: Runs, to: Sha, digest: string, runs: Runs, author: Login)
    returns (events: seq<Event>)
    requires ReportRunPossible(s0, gate, to, runs)
    ensures events == [StartCall(gate, 3), ReportCall(to, digest, 2), AdvanceCall(runs, author, 5)]
    ensures ReportRunDone(History(l, s0, events), to)
  {
    events := ThreeEvents(l, s0, StartCall(gate, 3), ReportCall(to, digest, 2), AdvanceCall(runs, author, 5));
    ThreeCallsComplete(l, s0, gate, to, digest, runs, author,
                       StartCall(gate, 3), ReportCall(to, digest, 2), AdvanceCall(runs, author, 5));
  }
}
