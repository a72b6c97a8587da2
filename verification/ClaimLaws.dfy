/** When the claim endpoints and the expiry recovery write, refuse or wait, and
    what they write, said on the snapshot itself; and that calls which nothing
    disturbs complete. */
module ClaimLaws {
  import opened Labels
  import opened Records
  import opened HandoffGate
  import opened EvidenceGate
  import opened StateProjection
  import opened ClaimApi
  import opened ClaimSession
  import opened GateLaws
  import Workflow
  import ReviewAutomaton
  import LeaseStore
  import HeadTransition

  /** The open, unmerged PR of the claim's repository shows the claim's branch,
      base and commit, is no protected branch, and names the claim's task only. */
  predicate OnClaim(pr: PullRequest, b: Binding) {
    && pr.open && !pr.merged
    && pr.headRepo == b.repo && pr.headRef == b.headRef && pr.headSha == b.sha
    && (b.baseRef == None || b.baseRef == Some(pr.baseRef))
    && pr.headRef != "main" && pr.headRef != pr.baseRef && pr.headRef != pr.defaultBranch
    && pr.tasks == {b.taskId}
  }

  predicate Quiet(labels: LabelSet) { forall x :: x in labels ==> !x.Blocker? && !x.Recovery? && !x.Watchdog? }

  lemma QuietMeansNoAlarm(labels: LabelSet)
    ensures Quiet(labels) <==> Alarms(labels) == {}
  {
    forall x | x in labels
      ensures IsAlarm(x) <==> x in Alarms(labels)
    {
    }
  }

  predicate Todoing(b: Binding, labels: LabelSet) { Route(labels) == {Agent(b.agent), Phase(b.phase), Status(Todo)} }
  predicate Executing(b: Binding, labels: LabelSet) { Route(labels) == {Agent(b.agent), Phase(b.phase), Status(Running)} }

  /** The endpoints go on exactly on the claim's quiet PR in TODO, in RUNNING where
      that is asked for, or on the route this lease had projected. */
  lemma CurrentInPlainTerms(b: Binding, pr: PullRequest, resumed: bool, projected: Option<LabelSet>)
    ensures Current(b, pr, resumed, projected).None? <==>
      && OnClaim(pr, b) && Quiet(pr.labels)
      && (Todoing(b, pr.labels) || (resumed && Executing(b, pr.labels)) || projected == Some(Route(pr.labels)))
    ensures OnClaim(pr.(headSha := b.sha), b) && pr.headSha != b.sha ==>
      Current(b, pr, resumed, projected) == Some(HEAD_CHANGED)
    ensures OnClaim(pr.(tasks := {b.taskId}), b) && pr.tasks != {b.taskId} ==>
      Current(b, pr, resumed, projected) == Some(TASK_CHANGED)
  {
    QuietMeansNoAlarm(pr.labels);
  }

  /** An advance is planned exactly on the claim's own quiet PR, in its phase or on
      the route it had projected, and under green CI for a report commit of its
      own or the phase's evidence otherwise; it swaps the route and nothing else. */
  lemma AdvanceWritesExactly(b: Binding, l: Lease, cp: Checkpoint, pr: PullRequest, log: Log, runs: Runs)
    ensures var plan := AdvancePlan(b, l, cp, pr, log, runs);
      var ownReport := b.phase == Qa && cp.report.Some? && cp.report.value.to == b.sha != cp.report.value.from;
      && (plan.Write? <==>
            && OnClaim(pr, b) && Quiet(pr.labels)
            && (Todoing(b, pr.labels) || Executing(b, pr.labels)
                || (cp.projection.Some? && cp.projection.value.lease == l
                    && cp.projection.value.workflowAfter == Route(pr.labels)))
            && (if ownReport then SuccessfulCurrentCi(runs, b.sha, b.headRef).Some?
                else VerifiedNextWorkflow(b, log, runs).Accept?))
      && (plan.Write? ==>
            && plan.value.lease == l && plan.value.before == pr.labels && !plan.value.applied
            && Route(plan.value.after) == plan.value.workflowAfter
            && plan.value.workflowAfter ==
                 (if ownReport then {Agent(Workreview), Phase(CodeReview), Status(Todo)} else NextRoute(b.phase))
            && Unrelated(plan.value.after) == Unrelated(pr.labels) && Alarms(plan.value.after) == Alarms(pr.labels))
  {
    CurrentInPlainTerms(b, pr, true, ProjectedRoute(cp, l));
    if AdvanceTarget(b, cp, log, runs).Accept? {
      AdvanceTargets(b, cp, log, runs);
      NextRoutesAreRoutes(b);
      RouteSwap(pr.labels, AdvanceTarget(b, cp, log, runs).value);
    }
  }

  /** The table of next routes. */
  lemma NextRouteTable(phase: PhaseName)
    ensures phase == Prototype ==> NextRoute(phase) == {Agent(Chatgpt), Phase(Implementation), Status(Todo)}
    ensures phase == Implementation || phase == EscalationRepair ==>
      NextRoute(phase) == {Agent(Workreview), Phase(CodeReview), Status(Todo)}
    ensures phase == CodeReview ==> NextRoute(phase) == {Agent(Workbuddy), Phase(Qa), Status(Todo)}
    ensures phase == Qa ==> NextRoute(phase) == {Status(Review), Approval(ProductionRequired)}
  {
  }

  /** A start is planned exactly on the claim's own quiet PR with the gate open: in
      TODO for the first time; and for this lease's own recorded start in TODO or
      RUNNING, on the labels it recorded, and only on the new ones once applied. */
  lemma StartWritesExactly(b: Binding, l: Lease, cp: Checkpoint, pr: PullRequest, log: Log, runs: Runs)
    ensures var plan := StartPlan(b, l, cp, pr, log, runs);
      var own := cp.start.Some? && cp.start.value.lease == l;
      && (plan.Write? <==>
            && OnClaim(pr, b) && Quiet(pr.labels) && StartGate(b, log, runs).None?
            && (Todoing(b, pr.labels) || (own && Executing(b, pr.labels)))
            && (own ==> pr.labels == cp.start.value.after
                        || (pr.labels == cp.start.value.before && !cp.start.value.applied)))
      && (plan.Write? && own ==> plan.value == cp.start.value)
      && (plan.Write? && !own ==>
            && plan.value.lease == l && plan.value.before == pr.labels && !plan.value.applied
            && Route(plan.value.after) == {Agent(b.agent), Phase(b.phase), Status(Running)}
            && Unrelated(plan.value.after) == Unrelated(pr.labels) && Alarms(plan.value.after) == Alarms(pr.labels))
  {
    var own := cp.start.Some? && cp.start.value.lease == l;
    CurrentInPlainTerms(b, pr, false, if own then Some(RunningRoute(b)) else None);
    if Todoing(b, pr.labels) {
      StartedRoute(b, pr.labels);
      RouteSwap(pr.labels, RunningRoute(b));
    }
  }

  /** A decision is planned exactly on the claim's own quiet PR in RUNNING, and a
      repair only for the reviewer's code review or the author's implementation.
      It keeps foreign labels and leaves the route and the alarm of its kind. */
  lemma DecisionWritesExactly(b: Binding, l: Lease, pr: PullRequest, d: WorkerDecision)
    ensures var plan := DecisionPlan(b, l, pr, d);
      && (plan.Write? <==>
            && OnClaim(pr, b) && Quiet(pr.labels) && Executing(b, pr.labels)
            && (d.RequestRepair? ==> (b.phase, b.agent) in {(CodeReview, Workreview), (Implementation, Chatgpt)}))
      && (plan.Write? ==>
            var after := plan.value.after;
            && plan.value.before == pr.labels && Unrelated(after) == Unrelated(pr.labels)
            && Alarms(after) == (if d.BlockPhase? then {Blocker(d.code)} else {})
            && Route(after) ==
                 (match d
                  case RetryPhase => {Agent(b.agent), Phase(b.phase), Status(Todo)}
                  case BlockPhase(_) => {Agent(b.agent), Phase(b.phase), Status(StatusName.Blocked)}
                  case RequestRepair => {Agent(Workreview), Phase(EscalationRepair), Status(Todo)}))
  {
    CurrentInPlainTerms(b, pr, true, None);
    if Executing(b, pr.labels) {
      assert Status(Running) in Route(pr.labels);
    }
    if DecisionPlan(b, l, pr, d).Write? {
      var after := DecisionPlan(b, l, pr, d).value.after;
      var target := DecisionTarget(b, d).value;
      forall x
        ensures x in Unrelated(after) <==> x in Unrelated(pr.labels)
        ensures x in Route(after) <==> x in target && IsRoute(x)
        ensures x in Alarms(after) <==> x in target && IsAlarm(x)
      {
      }
    }
  }

  /* ---- Expiry recovery ---- */

  /** A claim recovery may still act on: its quiet PR on a route of the claim or of
      its own projections, no approval, and not running without a record of it. */
  predicate Resumes(b: Binding, cp: Checkpoint, pr: PullRequest) {
    && OnClaim(pr, b) && Quiet(pr.labels) && (forall x :: x in pr.labels ==> !x.Approval?)
    && (Todoing(b, pr.labels)
        || (Executing(b, pr.labels) && (cp.start.Some? || cp.projection.Some?))
        || (!Executing(b, pr.labels)
            && ((cp.recovery.Some? && cp.recovery.value.workflowAfter == Route(pr.labels))
                || (cp.projection.Some? && cp.projection.value.workflowAfter == Route(pr.labels)))))
  }

  /** What recovery does, case by case: an interrupted blocker projection is settled
      if it landed and closed otherwise; a claim it may not act on is closed; one
      with a durable result is advanced when the gate allows it and left for a
      later scan when it does not; one without is requeued from TODO or RUNNING
      and left alone on any other route. */
  lemma RecoveryMeans(b: Binding, l: Lease, cp: Checkpoint, pr: PullRequest, log: Log, runs: Runs)
    ensures var outcome := RecoverPlan(b, l, cp, pr, log, runs);
      && (outcome.Settled? <==> cp.blocker.Some? && OnClaim(pr, b) && pr.labels == cp.blocker.value.after)
      && (outcome.Supersede? <==>
            if cp.blocker.Some? then !(OnClaim(pr, b) && pr.labels == cp.blocker.value.after) else !Resumes(b, cp, pr))
      && (outcome.Stay? <==>
            && cp.blocker.None? && Resumes(b, cp, pr)
            && (if DurableResult(b, log) then VerifiedNextWorkflow(b, log, runs).Reject?
                else !Todoing(b, pr.labels) && !Executing(b, pr.labels)))
      && (outcome.Rewrite? ==>
            var audit := outcome.audit;
            && cp.blocker.None? && Resumes(b, cp, pr)
            && audit.lease == l && audit.before == pr.labels && !audit.applied
            && audit.workflowAfter == (if DurableResult(b, log) then NextRoute(b.phase)
                                       else {Agent(b.agent), Phase(b.phase), Status(Todo)})
            && Route(audit.after) == audit.workflowAfter
            && Unrelated(audit.after) == Unrelated(pr.labels) && Alarms(audit.after) == {})
  {
    QuietMeansNoAlarm(pr.labels);
    assert Approvals(pr.labels) == {} <==> forall x :: x in pr.labels ==> !x.Approval? by {
      assert forall x :: x in pr.labels && x.Approval? ==> x in Approvals(pr.labels);
    }
    AcceptedRoute(b, log, runs);
    NextRoutesAreRoutes(b);
    RouteSwap(pr.labels, TodoRoute(b));
    RouteSwap(pr.labels, NextRoute(b.phase));
  }

  /* ---- Undisturbed calls complete ---- */

  /** With three effects to go, an open start gate and the PR in TODO, the first
      start of a lease ends applied, on the running labels. */
  lemma FirstStartCompletes(l: Lease, s: Session, runs: Runs, budget: nat)
    requires !s.closed && s.cp.start.None? && budget >= 3
    requires OnClaim(s.pr, s.b) && Quiet(s.pr.labels) && Todoing(s.b, s.pr.labels) && StartGate(s.b, s.log, runs).None?
    ensures var t := StartEffects(l, s, runs, budget);
      && StartApplied(l, t.cp) && Executing(s.b, t.pr.labels) && t.starts == s.starts + 1
      && Unrelated(t.pr.labels) == Unrelated(s.pr.labels) && t.pr == s.pr.(labels := t.pr.labels)
      && t == s.(pr := t.pr, cp := s.cp.(start := t.cp.start), starts := t.starts)
  {
    StartWritesExactly(s.b, l, s.cp, s.pr, s.log, runs);
    StartPassesWriter(s.b, s.pr.labels);
    StartedRoute(s.b, s.pr.labels);
    RouteSwap(s.pr.labels, RunningRoute(s.b));
  }

  /** With four effects to go, the phase's evidence and the PR in its phase, an
      advance ends the claim on the next route. */
  lemma AdvanceCompletes(l: Lease, s: Session, runs: Runs, author: Login, budget: nat)
    requires !s.closed && StandardBinding(s.b) && budget >= 4 && !MovedHeadInQa(s.b, s.cp)
    requires OnClaim(s.pr, s.b) && Quiet(s.pr.labels) && (Todoing(s.b, s.pr.labels) || Executing(s.b, s.pr.labels))
    requires VerifiedNextWorkflow(s.b, s.log, runs).Accept?
    ensures var t := AdvanceEffects(l, s, runs, author, budget);
      && t.closed && t.advances == s.advances + 1 && Route(t.pr.labels) == NextRoute(s.b.phase)
      && Unrelated(t.pr.labels) == Unrelated(s.pr.labels) && t.markers == s.markers && t.log == s.log
      && t.cp.projection.Some? && t.cp.projection.value.applied
  {
    AdvanceWritesExactly(s.b, l, s.cp, s.pr, s.log, runs);
    CurrentInPlainTerms(s.b, s.pr, true, ProjectedRoute(s.cp, l));
    QuietMeansNoAlarm(s.pr.labels);
    Workflow.WorkingFacts(s.b, s.pr.labels);
    Workflow.SwapPassesWriter(s.b, s.pr.labels, NextRoute(s.b.phase));
  }

  /** An advance with a projection of its own on record that had landed ends the
      claim without touching the labels again. */
  lemma LandedAdvanceCompletes(l: Lease, s: Session, runs: Runs, author: Login, budget: nat)
    requires !s.closed && budget >= 3 && !MovedHeadInQa(s.b, s.cp)
    requires OnClaim(s.pr, s.b) && Quiet(s.pr.labels) && Route(s.pr.labels) == NextRoute(s.b.phase)
    requires ProjectedRoute(s.cp, l) == Some(NextRoute(s.b.phase)) && VerifiedNextWorkflow(s.b, s.log, runs).Accept?
    ensures var t := AdvanceEffects(l, s, runs, author, budget);
      t.closed && t.advances == s.advances && t.pr == s.pr && t.cp.projection.Some? && t.cp.projection.value.applied
  {
    AdvanceWritesExactly(s.b, l, s.cp, s.pr, s.log, runs);
    CurrentInPlainTerms(s.b, s.pr, true, ProjectedRoute(s.cp, l));
    SameRoute(s.pr.labels);
    AcceptedRoute(s.b, s.log, runs);
  }

  /** A decision with three effects to go ends the claim on its labels. */
  lemma DecisionCompletes(l: Lease, s: Session, d: WorkerDecision, budget: nat)
    requires !s.closed && StandardBinding(s.b) && budget >= 3 && DecisionPlan(s.b, l, s.pr, d).Write?
    ensures var t := DecisionEffects(l, s, d, budget);
      t.closed && t.pr == s.pr.(labels := DecisionPlan(s.b, l, s.pr, d).value.after)
  {
    var r := Workflow.Claimed(s.b, NO_CHECKPOINT, l);
    Workflow.DecisionPlanOk(r, s.pr, d);
    DecisionWritesExactly(s.b, l, s.pr, d);
    assert Status(Running) in Route(s.pr.labels);
    var after := DecisionPlan(s.b, l, s.pr, d).value.after;
    assert Route(after) != Route(s.pr.labels) by {
      assert Status(Running) !in Route(after);
    }
  }

  /* ---- Publishing ---- */

  /** A declaration or a report is accepted exactly in its phases, on the claim's own
      quiet running PR, after this lease's applied start and before any advance;
      an open declaration is never replaced, and the report's commit becomes the
      bound one. */
  lemma PublishingNeeds(l: Lease, s: Session, to: Sha, digest: string, budget: nat)
    ensures DeclareEffects(l, s, to) != s ==>
      && s.b.phase in {Implementation, EscalationRepair} && !s.closed && OnClaim(s.pr, s.b) && Quiet(s.pr.labels)
      && StartApplied(l, s.cp) && s.cp.projection.None?
    ensures DeclareEffects(l, s, to) ==
      if MayPublish(l, s) && s.b.phase in {Implementation, EscalationRepair} && to != s.b.sha
         && (s.cp.head == None || s.cp.head.value.applied)
      then s.(cp := s.cp.(head := Some(HeadIntent(s.b.sha, to, s.pr.baseRef, false)))) else s
    ensures ReportEffects(l, s, to, digest, budget) != s ==>
      && s.b.phase in {Prototype, Qa} && !s.closed && OnClaim(s.pr, s.b) && Quiet(s.pr.labels)
      && StartApplied(l, s.cp) && s.cp.projection.None? && s.cp.report.None?
    ensures budget >= 2 && s.b.phase in {Prototype, Qa} && MayPublish(l, s) && s.cp.report.None? ==>
      var t := ReportEffects(l, s, to, digest, budget);
      && t.b.sha == to == t.pr.headSha && t.pr.labels == s.pr.labels
      && t.cp.report == Some(ReportPublication(s.b.sha, to, digest)) && t.cp.start == s.cp.start
    ensures MayPublish(l, s) <==>
      && !s.closed && OnClaim(s.pr, s.b) && Quiet(s.pr.labels) && Executing(s.b, s.pr.labels)
      && StartApplied(l, s.cp) && s.cp.projection.None?
  {
    CurrentInPlainTerms(s.b, s.pr, true, None);
    if Executing(s.b, s.pr.labels) {
      assert Status(Running) in Route(s.pr.labels);
    }
    if Status(Running) in s.pr.labels {
      assert Status(Running) in Route(s.pr.labels);
      assert Status(Running) !in TodoRoute(s.b);
    }
  }

  /** The declared commit is live on the claim's own quiet running PR and base. */
  predicate LiveAsDeclared(b: Binding, intent: HeadIntent, pr: PullRequest) {
    && pr.headSha == intent.to && b.sha == intent.from && pr.baseRef == intent.baseRef
    && OnClaim(pr, b.(sha := intent.to, baseRef := None))
    && Quiet(pr.labels) && Executing(b, pr.labels)
  }

  /** A refresh leaves a lease alone exactly when nothing is declared or the head
      has not moved, reports a mismatch exactly when the head moved and is not live
      as declared, and without ownership never moves; only a rebinding writes. */
  lemma RefreshMeans(
      db: LeaseStore.Db, row: LeaseStore.Event, d: DeliveryId, l: Lease, pr: PullRequest, t: Time, t': Time)
    requires row.payload.ExternalPayload?
    ensures var (next, r) := HeadTransition.RefreshDeclaredHead(db, row, d, l, pr, t, t');
      var b, cp := row.payload.binding, HeadTransition.CheckpointIn(row);
      var moved := cp.head.Some? && !cp.head.value.applied && pr.headSha != b.sha;
      && (r.Unchanged? <==> !moved)
      && (r.Mismatch? <==> moved && !LiveAsDeclared(b, cp.head.value, pr))
      && (r.Rebind? ==> moved && LeaseStore.Owns(db, b.operationKey, d, l, t))
      && (!r.Rebind? ==> next == db)
  {
    QuietMeansNoAlarm(pr.labels);
  }

  /** In the life of a lease a refresh moves the commit exactly so. */
  lemma SessionRefreshMeans(s: Session)
    ensures var t := RefreshEffects(s);
      var moves := !s.closed && s.cp.head.Some? && !s.cp.head.value.applied && s.pr.headSha != s.b.sha
                   && LiveAsDeclared(s.b, s.cp.head.value, s.pr);
      && (!moves ==> t == s)
      && (moves ==> t.b.sha == s.pr.headSha && t.pr == s.pr && t.cp.projection.None? && t.cp.recovery.None?
                    && t.cp.head == Some(s.cp.head.value.(applied := true)) && !t.closed && t.starts == s.starts)
  {
    QuietMeansNoAlarm(s.pr.labels);
  }

  /* ---- What a start rests on ---- */

  /** In every life of a lease: whenever a start call changes labels, the log at
      that moment held the records its phase needs, and the runs it read were
      green where its phase asks for that. */
  lemma {:induction false} StartRestsOnEvidence(l: Lease, s0: Session, events: seq<Event>, runs: Runs, budget: nat)
    requires FreshRow(s0) && Undisturbed(events)
    ensures var s := History(l, s0, events);
      StartEffects(l, s, runs, budget).starts == s.starts + 1 ==>
        OnClaim(s.pr, s.b) && Quiet(s.pr.labels) && Todoing(s.b, s.pr.labels) && StartRecords(s.b, s.log, runs)
  {
    var s := History(l, s0, events);
    StartChangesLabelsExactly(l, s0, events, runs, budget);
    if StartLands(l, s, runs, budget) {
      CurrentInPlainTerms(s.b, s.pr, false, None);
      OpenGateRestsOnRecords(s.b, s.log, runs);
    }
  }

  /** And on a well-formed log exactly then: the call changes labels if and only if
      the row is open, the claim's own quiet PR is in TODO, the phase's evidence
      stands, the start is not recorded as applied, and the call runs far enough. */
  lemma {:induction false} StartChangesLabelsExactlyOnEvidence(
      l: Lease, s0: Session, events: seq<Event>, runs: Runs, budget: nat)
    requires FreshRow(s0) && Undisturbed(events)
    requires var s := History(l, s0, events);
      && ReviewAutomaton.Appended(s.log) && ReviewAutomaton.OwnerHandoffsParse(s.log) && DistinctRuns(runs)
      && s.b.sha != "" && s.b.headRef != ""
    ensures var s := History(l, s0, events);
      StartEffects(l, s, runs, budget).starts == s.starts + 1 <==>
        && !s.closed && OnClaim(s.pr, s.b) && Quiet(s.pr.labels) && Todoing(s.b, s.pr.labels)
        && StartEvidence(s.b, s.log, runs) && !StartApplied(l, s.cp) && budget >= 2
  {
    var s := History(l, s0, events);
    StartChangesLabelsExactly(l, s0, events, runs, budget);
    CurrentInPlainTerms(s.b, s.pr, false, None);
    StartGateInPlainTerms(s.b, s.log, runs);
  }
}
