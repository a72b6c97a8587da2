/** The next route as evidence allows it, and the recovery's test for a durable
    phase result. Two procedures over the same log, written independently. */
module StateProjection {
  import opened Labels
  import opened Records
  import opened HandoffGate
  import opened EvidenceGate

  function SubjectOf(b: Binding): Subject { Subject(b.taskId, b.sha, b.headRef, b.pr) }

  /** The agent that `acquire` derives from the phase. */
  function AgentFor(phase: PhaseName): AgentName {
    match phase
    case Implementation => Chatgpt
    case CodeReview => Workreview
    case EscalationRepair => Workreview
    case _ => Workbuddy
  }

  predicate ClaimPhase(phase: PhaseName) {
    phase == Implementation || phase == CodeReview || phase == EscalationRepair
    || phase == Prototype || phase == Qa
  }

  /** A binding as `acquire` builds it. */
  predicate StandardBinding(b: Binding) {
    ClaimPhase(b.phase) && b.agent == AgentFor(b.phase) && b.operationKey == KeyOf(b)
  }

  function NextRoute(phase: PhaseName): LabelSet {
    match phase
    case Prototype => WorkRoute(Chatgpt, Implementation, Todo)
    case Implementation => WorkRoute(Workreview, CodeReview, Todo)
    case EscalationRepair => WorkRoute(Workreview, CodeReview, Todo)
    case CodeReview => WorkRoute(Workbuddy, Qa, Todo)
    case _ => HUMAN_WAIT_ROUTE
  }

  predicate RepairRecord(c: Comment, b: Binding) {
    && c.login == Owner && RepairMarker in c.text
    && {TaskIs(b.taskId), ShaIs(b.sha), AgentWorkreview, PhaseEscalationRepair} <= c.lines
  }

  function NewestRepair(log: Log, b: Binding): Option<Comment> {
    if log == [] then None
    else
      var best := NewestRepair(log[..|log| - 1], b);
      var c := log[|log| - 1];
      if RepairRecord(c, b) && (best.None? || c.order > best.value.order) then Some(c) else best
  }

  predicate AwaitsCi(c: Comment) { WaitingCi in c.lines || WaitingExactShaCi in c.lines }

  function PhaseQuery(b: Binding): Query {
    if b.phase == Implementation
    then Query(b.taskId, Chatgpt, Workreview, ImplementationReady, b.sha, {Owner})
    else Query(b.taskId, Workbuddy, Chatgpt, PrototypeValidation, b.sha, {Owner, Bot})
  }

  function VerifiedNextWorkflow(b: Binding, log: Log, runs: Runs): Verdict<LabelSet> {
    if SuccessfulCurrentCi(runs, b.sha, b.headRef).None? then Reject(CI_NOT_PASSED)
    else
      match b.phase
      case CodeReview =>
        var _ :- ValidateQaEvidence(log, runs, SubjectOf(b));
        Accept(WorkRoute(Workbuddy, Qa, Todo))
      case Qa =>
        var _ :- ValidateQaEvidence(log, runs, SubjectOf(b));
        if !OwnerWaitEvidence(log, b.taskId, b.sha) then Reject(OWNER_WAIT_MISSING)
        else Accept(HUMAN_WAIT_ROUTE)
      case EscalationRepair =>
        (match NewestRepair(log, b)
         case None => Reject(REPAIR_RECORD_MISSING)
         case Some(c) =>
           if AwaitsCi(c) then Accept(WorkRoute(Workreview, CodeReview, Todo)) else Reject(REPAIR_RECORD_MISSING))
      case Implementation =>
        var p :- ValidateHandoff(log, PhaseQuery(b));
        if p.pr.Some? && p.pr.value != b.pr then Reject(OTHER_PR)
        else Accept(WorkRoute(Workreview, CodeReview, Todo))
      case Prototype =>
        var p :- ValidateHandoff(log, PhaseQuery(b));
        if p.pr.Some? && p.pr.value != b.pr then Reject(OTHER_PR)
        else Accept(WorkRoute(Chatgpt, Implementation, Todo))
      case _ => Reject(UNSUPPORTED_TRANSITION)
  }

  /** Evidence decides whether a phase advances, the phase alone decides where to. */
  lemma AcceptedRoute(b: Binding, log: Log, runs: Runs)
    ensures VerifiedNextWorkflow(b, log, runs).Accept? ==>
      && ClaimPhase(b.phase)
      && VerifiedNextWorkflow(b, log, runs).value == NextRoute(b.phase)
      && GreenCi(runs, b.sha, b.headRef)
  {
    CiMeansGreen(runs, b.sha, b.headRef);
  }

  /* ---- What entering human wait proves ---- */

  /** Everything the human terminal state must rest on, for one commit. */
  ghost predicate TerminalEvidence(log: Log, runs: Runs, task: string, sha: Sha, ref: string) {
    && GreenCi(runs, sha, ref)
    && (exists c :: c in log && c.login == Owner && c.handoff.Handoff?
          && Routed(c.handoff.payload, Query(task, Workreview, Workbuddy, CodeReviewed, sha, {Owner}))
          && NamesSha(c, sha) && Succeeds(c) && c.handoff.payload.reviewPassed)
    && (exists c :: c in log && QaRecord(c, task, sha) && Succeeds(c))
    && (exists c :: c in log && TerminalRecord(c, task, sha) && StopsBeforeRelease(c.terminal.value))
  }

  lemma HumanWaitNeedsTerminalEvidence(b: Binding, log: Log, runs: Runs)
    requires VerifiedNextWorkflow(b, log, runs) == Accept(HUMAN_WAIT_ROUTE)
    ensures b.phase == Qa && TerminalEvidence(log, runs, b.taskId, b.sha, b.headRef)
  {
    var s := SubjectOf(b);
    AcceptedRoute(b, log, runs);
    assert b.phase == Qa by {
      assert Status(Review) in HUMAN_WAIT_ROUTE;
    }
    var p := ValidateReview(log, s).value;
    LatestIsHighest(log, ReviewQuery(s));
    NewestCopyIsNewest(log, p);
    NewestRecordsAreNewest(log, b.taskId, b.sha);
    var review := NewestCopy(log, p).value;
    assert review in log && Succeeds(review) && NamesSha(review, b.sha);
    assert NewestQa(log, b.taskId, b.sha).value in log;
    assert NewestTerminal(log, b.taskId, b.sha).value in log;
  }

  /* ---- durable_result ---- */

  function ResultPhase(phase: PhaseName): Option<HandoffPhase> {
    match phase
    case Prototype => Some(PrototypeValidation)
    case Implementation => Some(ImplementationReady)
    case CodeReview => Some(CodeReviewed)
    case Qa => Some(QaAcceptance)
    case _ => None
  }

  function ResultAuthors(agent: AgentName): set<Login> {
    if agent == Chatgpt || agent == Workreview then {Owner} else {Owner, Bot}
  }

  predicate DurableRecord(c: Comment, b: Binding) {
    && c.login in ResultAuthors(b.agent)
    && ((b.phase == EscalationRepair && RepairMarker in c.text
         && {TaskIs(b.taskId), ShaIs(b.sha), AgentWorkreview, PhaseEscalationRepair} <= c.lines)
        || (c.handoff.Handoff?
            && var p := c.handoff.payload;
               && p.taskId == Some(b.taskId) && p.sha == Some(b.sha)
               && p.phase == ResultPhase(b.phase) && p.from == Some(b.agent)
               && (p.pr == None || p.pr == Some(b.pr))))
  }

  predicate DurableResult(b: Binding, log: Log) { exists i :: 0 <= i < |log| && DurableRecord(log[i], b) }

  method FindDurableResult(b: Binding, log: Log) returns (found: bool)
    ensures found == DurableResult(b, log)
  {
    for n := 0 to |log|
      invariant forall i :: 0 <= i < n ==> !DurableRecord(log[i], b)
    {
      if log[n].login in ResultAuthors(b.agent) {
        if b.phase == EscalationRepair && RepairMarker in log[n].text
           && {TaskIs(b.taskId), ShaIs(b.sha), AgentWorkreview, PhaseEscalationRepair} <= log[n].lines
        {
          return true;
        }
        if log[n].handoff.Handoff? {
          var p := log[n].handoff.payload;
          if p.taskId == Some(b.taskId) && p.sha == Some(b.sha) && p.phase == ResultPhase(b.phase)
             && p.from == Some(b.agent) && (p.pr == None || p.pr == Some(b.pr))
          {
            return true;
          }
        }
      }
    }
    found := false;
  }

  lemma {:induction false} NewestRepairIsRecord(log: Log, b: Binding)
    ensures NewestRepair(log, b).Some? ==> NewestRepair(log, b).value in log && RepairRecord(NewestRepair(log, b).value, b)
    decreases |log|
  {
    if log != [] {
      assert log == log[..|log| - 1] + [log[|log| - 1]];
      NewestRepairIsRecord(log[..|log| - 1], b);
    }
  }

  lemma MemberIsDurable(c: Comment, b: Binding, log: Log)
    requires c in log && DurableRecord(c, b)
    ensures DurableResult(b, log)
  {
    var i :| 0 <= i < |log| && log[i] == c;
  }

  /** Whatever the gate would advance in a non-QA phase, recovery sees as a
      durable result, so it never requeues it. */
  lemma GateImpliesDurable(b: Binding, log: Log, runs: Runs)
    requires StandardBinding(b) && b.phase != Qa
    requires VerifiedNextWorkflow(b, log, runs).Accept?
    ensures DurableResult(b, log)
  {
    match b.phase {
      case CodeReview =>
        LatestIsHighest(log, ReviewQuery(SubjectOf(b)));
        MemberIsDurable(Latest(log, ReviewQuery(SubjectOf(b))).value, b, log);
      case EscalationRepair =>
        NewestRepairIsRecord(log, b);
        MemberIsDurable(NewestRepair(log, b).value, b, log);
      case Implementation =>
        LatestIsHighest(log, PhaseQuery(b));
        MemberIsDurable(Latest(log, PhaseQuery(b)).value, b, log);
      case Prototype =>
        LatestIsHighest(log, PhaseQuery(b));
        MemberIsDurable(Latest(log, PhaseQuery(b)).value, b, log);
    }
  }

  /** A comment of the owner or the bot whose handoff or repair lines name the
      task and the commit. */
  predicate NamesCommit(c: Comment, task: string, sha: Sha) {
    && (c.login == Owner || c.login == Bot)
    && ((c.handoff.Handoff? && c.handoff.payload.taskId == Some(task) && c.handoff.payload.sha == Some(sha))
        || {TaskIs(task), ShaIs(sha)} <= c.lines)
  }

  /** Whatever the gate accepts rests on a record that names task and commit. */
  lemma AcceptedEvidenceNamesCommit(b: Binding, log: Log, runs: Runs)
    requires VerifiedNextWorkflow(b, log, runs).Accept?
    ensures exists c :: c in log && NamesCommit(c, b.taskId, b.sha)
  {
    if b.phase == EscalationRepair {
      NewestRepairIsRecord(log, b);
      var c := NewestRepair(log, b).value;
      assert c in log && NamesCommit(c, b.taskId, b.sha);
    } else {
      var q := if b.phase == CodeReview || b.phase == Qa then ReviewQuery(SubjectOf(b)) else PhaseQuery(b);
      LatestIsHighest(log, q);
      var c := Latest(log, q).value;
      assert c in log && NamesCommit(c, b.taskId, b.sha);
    }
  }

  /** A trusted QA handoff of this task and commit, spelled either way, for any PR. */
  predicate QaResult(c: Comment, b: Binding) {
    && (c.login == Bot || c.login == Owner) && c.handoff.Handoff?
    && var p := c.handoff.payload;
       p.taskId == Some(b.taskId) && p.sha == Some(b.sha) && p.from == Some(Workbuddy)
  }

  /** The spelling and PR number recovery expects of a QA handoff. */
  predicate SpelledForRecovery(c: Comment, b: Binding) {
    c.handoff.Handoff? && c.handoff.payload.phase == Some(QaAcceptance)
    && (c.handoff.payload.pr == None || c.handoff.payload.pr == Some(b.pr))
  }

  /** In QA a durable result is a trusted QA handoff of this task and commit with
      the spelling and PR number recovery expects. */
  lemma QaResultIsDurableExactlyWhenSpelled(b: Binding, log: Log)
    requires StandardBinding(b) && b.phase == Qa
    ensures DurableResult(b, log) <==> exists c :: c in log && QaResult(c, b) && SpelledForRecovery(c, b)
  {
    if DurableResult(b, log) {
      var i :| 0 <= i < |log| && DurableRecord(log[i], b);
      assert log[i] in log;
    }
    if c :| c in log && QaResult(c, b) && SpelledForRecovery(c, b) {
      MemberIsDurable(c, b, log);
    }
  }

  /** The gate also takes the spelling `qa` and never reads the PR number. What
      it accepts holds a newest QA record, and recovery sees a durable result if
      that record, which is a QA result, has the expected spelling and number. */
  lemma QaGateImpliesDurableWhenSpelled(b: Binding, log: Log, runs: Runs)
    requires StandardBinding(b) && b.phase == Qa
    requires VerifiedNextWorkflow(b, log, runs).Accept?
    ensures NewestQa(log, b.taskId, b.sha).Some? && NewestQa(log, b.taskId, b.sha).value in log
    ensures QaResult(NewestQa(log, b.taskId, b.sha).value, b)
    ensures SpelledForRecovery(NewestQa(log, b.taskId, b.sha).value, b) ==> DurableResult(b, log)
  {
    NewestRecordsAreNewest(log, b.taskId, b.sha);
    if SpelledForRecovery(NewestQa(log, b.taskId, b.sha).value, b) {
      MemberIsDurable(NewestQa(log, b.taskId, b.sha).value, b, log);
    }
  }
}
