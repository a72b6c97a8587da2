/** The handoff reconciler: a second decision procedure over the same evidence,
    and why its targets never outrun the gates. */
module Reconcile {
  import opened Labels
  import opened Records
  import opened HandoffGate
  import opened EvidenceGate
  import opened ReviewAutomaton
  import opened StateProjection

  datatype NoopReason =
    | PR_NOT_OPEN | MISSING_TASK_ID | MISSING_HEAD_SHA
    | OWNER_WAIT_HAS_OTHER_BLOCKER | INTENTIONAL_OWNER_WAIT
    | OWNER_WAIT_CI | OWNER_WAIT_TERMINAL_EVIDENCE | OWNER_WAIT_FINAL_REVIEW
    | NO_RELEVANT_HANDOFF | TASK_MISMATCH | HANDOFF_FAILED | HANDOFF_HAS_BLOCKERS
    | SHA_MISMATCH | PR_MISMATCH | NO_INDEPENDENT_PASS
    | BLOCKED_REQUIRES_RECOVERY | CI_MISSING | ALREADY_CANONICAL

  datatype Decision =
    | Noop(reason: NoopReason)
    | ConvergeOwnerWait(after: LabelSet)
    | RequeuePostQaReview(after: LabelSet, writeMarker: bool)
    | EnsureQaDispatch(agent: AgentName, phase: PhaseName)
    | Reroute(agent: AgentName, phase: PhaseName, status: StatusName, after: LabelSet)

  const STATE_LABELS: LabelSet := {
    Agent(Codex), Agent(Chatgpt), Agent(Workreview), Agent(Workbuddy),
    Phase(ProductPlan), Phase(Prototype), Phase(Implementation), Phase(CodeReview),
    Phase(EscalationRepair), Phase(Qa), Phase(Release), Phase(Deploy),
    Status(Todo), Status(Running), Status(Blocked)
  }

  /** The pull request under reconciliation; an empty task or SHA is missing. */
  datatype Target = Target(pr: PullRequest, number: nat, task: string)

  function SubjectOfTarget(x: Target): Subject { Subject(x.task, x.pr.headSha, x.pr.headRef, x.number) }

  /** The two owner handoff routes that move labels. */
  predicate ReviewRoute(p: Payload) {
    p.from == Some(Workreview) && p.to == Some(Workbuddy) && p.phase == Some(CodeReviewed)
  }
  predicate ImplementationRoute(p: Payload) {
    p.from == Some(Chatgpt) && p.to == Some(Workreview) && p.phase == Some(ImplementationReady)
  }

  predicate Relevant(c: Comment) {
    c.login == Owner && c.handoff.Handoff?
    && (ReviewRoute(c.handoff.payload) || ImplementationRoute(c.handoff.payload))
  }

  function NewestRelevant(log: Log, sha: Sha): Option<Comment> {
    if log == [] then None
    else
      var best := NewestRelevant(log[..|log| - 1], sha);
      var c := log[|log| - 1];
      if Relevant(c) && (best.None? || Outranks(c, best.value, sha)) then Some(c) else best
  }

  /** The latest trusted review outcome of this task and commit. */
  function NewestReview(log: Log, s: Subject): Option<Comment> {
    if log == [] then None
    else
      var best := NewestReview(log[..|log| - 1], s);
      var c := log[|log| - 1];
      if Record(c, ReviewQuery(s)) && (best.None? || c.order > best.value.order) then Some(c) else best
  }

  predicate PostQaMarkerExists(log: Log, task: string, sha: Sha) {
    exists i :: 0 <= i < |log| && log[i].login == Bot && PostQaMarker in log[i].text
      && TaskIs(task) in log[i].lines && ShaIs(sha) in log[i].lines
  }

  /** CI success as the reconciler's first test reads it: a truthy run id. */
  predicate TruthyCi(ci: Option<nat>) { ci.Some? && ci.value != 0 }

  function OwnerWaitBranch(x: Target, log: Log): Option<Decision> {
    var labels, s := x.pr.labels, SubjectOfTarget(x);
    var review := NewestReview(log, s);
    if review.Some? && Succeeds(review.value)
       && IndependentReviewPass(log, review.value.handoff.payload, review.value, s.taskId, s.sha)
    then
      var after := (labels - STATE_LABELS) + HUMAN_WAIT_ROUTE;
      if Approval(ProductionApproved) in labels || Status(Blocked) in labels
      then Some(Noop(OWNER_WAIT_HAS_OTHER_BLOCKER))
      else if after == labels then Some(Noop(INTENTIONAL_OWNER_WAIT))
      else Some(ConvergeOwnerWait(after))
    else
      var qaRunning := Agent(Workbuddy) in labels && Phase(Qa) in labels
                       && (Status(Running) in labels || Status(Todo) in labels);
      var reviewQueued := WorkRoute(Workreview, CodeReview, Todo) <= labels;
      var after := (labels - STATE_LABELS) + WorkRoute(Workreview, CodeReview, Todo);
      var marked := PostQaMarkerExists(log, s.taskId, s.sha);
      if (qaRunning || reviewQueued)
         && labels !! {Status(Blocked), Status(Review), Approval(ProductionRequired), Approval(ProductionApproved)}
         && (after != labels || !marked)
      then Some(RequeuePostQaReview(after, !marked))
      else None
  }

  function HandoffBranch(x: Target, log: Log, runs: Runs): Decision {
    var labels, s := x.pr.labels, SubjectOfTarget(x);
    match NewestRelevant(log, s.sha)
    case None => Noop(NO_RELEVANT_HANDOFF)
    case Some(c) =>
      if !Relevant(c) then Noop(NO_RELEVANT_HANDOFF)
      else
        var p := c.handoff.payload;
        var agent, phase := if ReviewRoute(p) then Workbuddy else Workreview, if ReviewRoute(p) then Qa else CodeReview;
        if p.taskId != Some(s.taskId) then Noop(TASK_MISMATCH)
        else if !p.success then Noop(HANDOFF_FAILED)
        else if p.blockers then Noop(HANDOFF_HAS_BLOCKERS)
        else if p.sha != Some(s.sha) then Noop(SHA_MISMATCH)
        else if p.pr.Some? && p.pr.value != s.pr then Noop(PR_MISMATCH)
        else if ReviewRoute(p) && !IndependentReviewPass(log, p, c, s.taskId, s.sha) then Noop(NO_INDEPENDENT_PASS)
        else
          var blocked, timeout := Status(Blocked) in labels, Watchdog(Timeout) in labels;
          var qaRecovery := Recovery(QaEvidence) in labels && phase == Qa && !timeout;
          if blocked && ((!timeout && !qaRecovery) || (Recovery(QaEvidence) in labels && !qaRecovery)
                         || Recovery(Technical) in labels || exists x <- labels :: x.Blocker?)
          then Noop(BLOCKED_REQUIRES_RECOVERY)
          else if SuccessfulCurrentCi(runs, s.sha, s.headRef).None? then Noop(CI_MISSING)
          else
            var status := if WorkRoute(agent, phase, Running) <= labels && !blocked then Running else Todo;
            var resolved := if !blocked then {} else if qaRecovery then {Recovery(QaEvidence)} else {Watchdog(Timeout)};
            var route := WorkRoute(agent, phase, status);
            if labels * STATE_LABELS == route then
              if phase == Qa && status == Todo then EnsureQaDispatch(agent, phase) else Noop(ALREADY_CANONICAL)
            else Reroute(agent, phase, status, (labels - STATE_LABELS - resolved) + route)
  }

  function Decide(x: Target, log: Log, runs: Runs): Decision {
    var s, labels := SubjectOfTarget(x), x.pr.labels;
    var ci := SuccessfulCurrentCi(runs, s.sha, s.headRef);
    if !x.pr.open || x.pr.merged then Noop(PR_NOT_OPEN)
    else if x.task == "" then Noop(MISSING_TASK_ID)
    else if s.sha == "" then Noop(MISSING_HEAD_SHA)
    else
      var waits := OwnerWaitEvidence(log, s.taskId, s.sha);
      var terminal := if TruthyCi(ci) && waits then OwnerWaitBranch(x, log) else None;
      if terminal.Some? then terminal.value
      else if Status(Review) in labels || Approval(ProductionRequired) in labels then
        if ci.None? then Noop(OWNER_WAIT_CI)
        else if !waits then Noop(OWNER_WAIT_TERMINAL_EVIDENCE)
        else Noop(OWNER_WAIT_FINAL_REVIEW)
      else HandoffBranch(x, log, runs)
  }

  /* ---- The same as a program with in-place lists ---- */

  function RelevantOf(log: Log): Log {
    if log == [] then []
    else RelevantOf(log[..|log| - 1]) + if Relevant(log[|log| - 1]) then [log[|log| - 1]] else []
  }

  lemma {:induction false} SortedTopIsNewestRelevant(log: Log, sha: Sha)
    ensures var sorted := Ranked(RelevantOf(log), sha);
      NewestRelevant(log, sha) == if sorted == [] then None else Some(sorted[0])
    decreases |log|
  {
    if log != [] {
      var front, c := log[..|log| - 1], log[|log| - 1];
      SortedTopIsNewestRelevant(front, sha);
      if Relevant(c) {
        assert (RelevantOf(front) + [c])[..|RelevantOf(front)|] == RelevantOf(front);
      } else {
        assert RelevantOf(front) + [] == RelevantOf(front);
      }
    }
  }

  method SelectNewestRelevant(log: Log, sha: Sha) returns (newest: Option<Comment>)
    ensures newest == NewestRelevant(log, sha)
  {
    var relevant: Log := [];
    for n := 0 to |log|
      invariant relevant == RelevantOf(log[..n])
    {
      assert log[..n + 1][..n] == log[..n];
      if Relevant(log[n]) {
        relevant := relevant + [log[n]];
      }
    }
    assert log[..|log|] == log;
    SortedTopIsNewestRelevant(log, sha);
    var sorted := SortNewestFirst(relevant, sha);
    newest := if sorted == [] then None else Some(sorted[0]);
  }

  method SelectNewestReview(log: Log, s: Subject) returns (newest: Option<Comment>)
    ensures newest == NewestReview(log, s)
  {
    newest := None;
    for n := 0 to |log|
      invariant newest == NewestReview(log[..n], s)
    {
      assert log[..n + 1][..n] == log[..n];
      if Record(log[n], ReviewQuery(s)) && (newest.None? || log[n].order > newest.value.order) {
        newest := Some(log[n]);
      }
    }
    assert log[..|log|] == log;
  }

  /* ---- Soundness ---- */

  lemma {:induction false} NewestRelevantIsHighest(log: Log, sha: Sha)
    ensures NewestRelevant(log, sha).None? ==> forall c :: c in log ==> !Relevant(c)
    ensures NewestRelevant(log, sha).Some? ==>
      var best := NewestRelevant(log, sha).value;
      best in log && Relevant(best) && forall c :: c in log && Relevant(c) ==> !Outranks(c, best, sha)
    decreases |log|
  {
    if log != [] {
      assert log == log[..|log| - 1] + [log[|log| - 1]];
      NewestRelevantIsHighest(log[..|log| - 1], sha);
    }
  }

  lemma {:induction false} NewestReviewIsHighest(log: Log, s: Subject)
    ensures NewestReview(log, s).None? ==> forall c :: c in log ==> !Record(c, ReviewQuery(s))
    ensures NewestReview(log, s).Some? ==>
      var best := NewestReview(log, s).value;
      best in log && Record(best, ReviewQuery(s))
      && forall c :: c in log && Record(c, ReviewQuery(s)) ==> c.order <= best.order
    decreases |log|
  {
    if log != [] {
      assert log == log[..|log| - 1] + [log[|log| - 1]];
      NewestReviewIsHighest(log[..|log| - 1], s);
    }
  }

  /** The record the reconciler picked is the one the handoff gate picks. */
  lemma GateAgreesOn(log: Log, c: Comment, q: Query)
    requires DistinctOrders(log) && OwnerHandoffsParse(log) && q.trusted == {Owner}
    requires c in log && Record(c, q) && Succeeds(c)
    requires forall other :: other in log && Record(other, q) ==> other.order <= c.order
    ensures ValidateHandoff(log, q) == Accept(c.handoff.payload)
    ensures NewestCopy(log, c.handoff.payload) == Some(c)
  {
    var i :| 0 <= i < |log| && log[i] == c;
    assert GreatestRecord(log, q, i) by {
      forall j | 0 <= j < |log| && Record(log[j], q) ensures log[j].order <= log[i].order {
        assert log[j] in log;
      }
    }
    assert !Unreadable(log, q);
    GateSpecification(log, q);
    NewestCopyIsNewest(log, c.handoff.payload);
    var copy := NewestCopy(log, c.handoff.payload).value;
    assert Record(copy, q) && copy.order == c.order;
    var k :| 0 <= k < |log| && log[k] == copy;
  }

  predicate TargetsQa(d: Decision) { (d.Reroute? || d.EnsureQaDispatch?) && d.phase == Qa }
  predicate TargetsReview(d: Decision) { d.Reroute? && d.phase == CodeReview }

  lemma RelevantWinsItsRoute(log: Log, c: Comment, q: Query)
    requires NewestRelevant(log, q.sha) == Some(c) && Record(c, q)
    requires (q.from, q.to, q.phase) in
      {(Workreview, Workbuddy, CodeReviewed), (Chatgpt, Workreview, ImplementationReady)}
    requires q.trusted == {Owner}
    ensures c in log && forall other :: other in log && Record(other, q) ==> other.order <= c.order
  {
    NewestRelevantIsHighest(log, q.sha);
    forall other | other in log && Record(other, q)
      ensures other.order <= c.order
    {
      assert Relevant(other) && !Outranks(other, c, q.sha);
    }
  }

  /** A decision that sends the PR to QA is one the QA gate accepts. */
  lemma QaTargetIsValidated(x: Target, log: Log, runs: Runs)
    requires DistinctOrders(log) && OwnerHandoffsParse(log)
    requires TargetsQa(Decide(x, log, runs))
    ensures ValidateQaEvidence(log, runs, SubjectOfTarget(x)).Accept?
  {
    var s := SubjectOfTarget(x);
    var c := NewestRelevant(log, s.sha).value;
    assert Record(c, ReviewQuery(s));
    RelevantWinsItsRoute(log, c, ReviewQuery(s));
    GateAgreesOn(log, c, ReviewQuery(s));
  }

  /** The binding of a claim on this PR in the given phase. */
  function BindingFor(x: Target, phase: PhaseName, repo: string): Binding {
    Binding(repo, x.number, x.pr.headSha, x.pr.headRef, Some(x.pr.baseRef), x.task, phase, AgentFor(phase),
            Operation(repo, x.number, x.pr.headSha, phase))
  }

  /** A decision that sends the PR to code review is the route the
      implementation gate verifies. */
  lemma ReviewTargetIsVerified(x: Target, log: Log, runs: Runs, repo: string)
    requires DistinctOrders(log) && OwnerHandoffsParse(log)
    requires TargetsReview(Decide(x, log, runs))
    ensures VerifiedNextWorkflow(BindingFor(x, Implementation, repo), log, runs)
         == Accept(WorkRoute(Workreview, CodeReview, Todo))
  {
    var s, b := SubjectOfTarget(x), BindingFor(x, Implementation, repo);
    var c := NewestRelevant(log, s.sha).value;
    assert Record(c, PhaseQuery(b));
    RelevantWinsItsRoute(log, c, PhaseQuery(b));
    GateAgreesOn(log, c, PhaseQuery(b));
  }

  /** Converging into the owner wait never reads the review's PR number, so the
      QA transition is authorised exactly when that review names this PR or none. */
  lemma OwnerWaitIsAuthorisedExactlyForThisPr(x: Target, log: Log, runs: Runs, repo: string)
    requires DistinctOrders(log) && OwnerHandoffsParse(log)
    requires Decide(x, log, runs).ConvergeOwnerWait?
    ensures NewestReview(log, SubjectOfTarget(x)).Some?
    ensures VerifiedNextWorkflow(BindingFor(x, Qa, repo), log, runs) == Accept(HUMAN_WAIT_ROUTE) <==>
      var named := NewestReview(log, SubjectOfTarget(x)).value.handoff.payload.pr;
      named == None || named == Some(x.number)
  {
    var s := SubjectOfTarget(x);
    assert SubjectOf(BindingFor(x, Qa, repo)) == s;
    NewestReviewIsHighest(log, s);
    GateAgreesOn(log, NewestReview(log, s).value, ReviewQuery(s));
  }
}
