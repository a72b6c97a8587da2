/** What the evidence gates accept, said from logins, tokens and handoff fields
    alone, without the gates' own helpers. */
module GateLaws {
  import opened Labels
  import opened Records
  import opened HandoffGate
  import opened EvidenceGate
  import opened ReviewAutomaton
  import opened StateProjection
  import opened ClaimApi

  /* ---- The handoff gate ---- */

  /** A handoff of this task and commit from one agent to another about one phase. */
  predicate Says(c: Comment, task: string, sha: Sha, from: AgentName, to: AgentName, phase: HandoffPhase) {
    && c.handoff.Handoff?
    && c.handoff.payload.taskId == Some(task) && c.handoff.payload.sha == Some(sha)
    && c.handoff.payload.from == Some(from) && c.handoff.payload.to == Some(to)
    && c.handoff.payload.phase == Some(phase)
  }

  predicate ForPr(c: Comment, pr: nat) {
    c.handoff.Handoff? && (c.handoff.payload.pr == None || c.handoff.payload.pr == Some(pr))
  }

  predicate GoodNews(c: Comment) {
    c.handoff.Handoff? && c.handoff.payload.success && !c.handoff.payload.blockers
  }

  /** The newest such handoff of a trusted author. */
  predicate NewestSaying(
      log: Log, i: int, trusted: set<Login>, task: string, sha: Sha, from: AgentName, to: AgentName, phase: HandoffPhase)
  {
    && 0 <= i < |log| && log[i].login in trusted && Says(log[i], task, sha, from, to, phase)
    && forall j :: 0 <= j < |log| && log[j].login in trusted && Says(log[j], task, sha, from, to, phase)
         ==> log[j].order <= log[i].order
  }

  /** Every trusted handoff parses, and the newest such one is good news, for this
      PR if one is given. */
  ghost predicate HandoffStands(
      log: Log, trusted: set<Login>, task: string, sha: Sha, from: AgentName, to: AgentName, phase: HandoffPhase,
      pr: Option<nat>)
  {
    && (forall j :: 0 <= j < |log| && log[j].login in trusted ==> log[j].handoff != Malformed)
    && exists i :: NewestSaying(log, i, trusted, task, sha, from, to, phase) && GoodNews(log[i])
                   && (pr.Some? ==> ForPr(log[i], pr.value))
  }

  lemma HandoffGateInPlainTerms(log: Log, q: Query)
    requires DistinctOrders(log)
    ensures ValidateHandoff(log, q).Accept? <==>
      HandoffStands(log, q.trusted, q.taskId, q.sha, q.from, q.to, q.phase, None)
    ensures forall pr: nat ::
      ValidateHandoff(log, q).Accept? ==>
        ((ValidateHandoff(log, q).value.pr == None || ValidateHandoff(log, q).value.pr == Some(pr))
         <==> HandoffStands(log, q.trusted, q.taskId, q.sha, q.from, q.to, q.phase, Some(pr)))
  {
    GateSpecification(log, q);
    forall i
      ensures GreatestRecord(log, q, i) <==> NewestSaying(log, i, q.trusted, q.taskId, q.sha, q.from, q.to, q.phase)
    {
      assert forall j :: 0 <= j < |log| ==>
        (Record(log[j], q) <==> log[j].login in q.trusted && Says(log[j], q.taskId, q.sha, q.from, q.to, q.phase));
    }
    assert forall j :: 0 <= j < |log| ==> (Succeeds(log[j]) <==> GoodNews(log[j]));
    forall i, j | GreatestRecord(log, q, i) && GreatestRecord(log, q, j)
      ensures i == j
    {
      assert log[i].order == log[j].order;
    }
  }

  /* ---- The review gate ---- */

  predicate ClaimComment(c: Comment, s: Subject) {
    c.login == Owner && {ClaimMarker, AgentWorkreview, PhaseCodeReview, TaskIs(s.taskId), ShaIs(s.sha)} <= c.text
  }

  /** A repair or requeue of the owner, or the bot's post-QA request, for this
      task and commit. */
  predicate VoidComment(c: Comment, s: Subject) {
    && {TaskIs(s.taskId), ShaIs(s.sha)} <= c.text
    && ((c.login == Owner && (RepairMarker in c.text || RequeueMarker in c.text))
        || (c.login == Bot && PostQaMarker in c.text))
  }

  predicate ReviewComment(c: Comment, s: Subject) {
    c.login == Owner && Says(c, s.taskId, s.sha, Workreview, Workbuddy, CodeReviewed)
  }

  predicate PassComment(c: Comment, s: Subject) {
    ReviewComment(c, s) && GoodNews(c) && c.handoff.payload.reviewPassed && ForPr(c, s.pr)
  }

  lemma MarksInPlainTerms(c: Comment, s: Subject)
    ensures Carries(c, ClaimMark, s.taskId, s.sha) <==> ClaimComment(c, s)
    ensures Carries(c, InvalidMark, s.taskId, s.sha) <==> VoidComment(c, s)
    ensures IsReview(c, s) <==> ReviewComment(c, s)
    ensures PassesReview(c, s) <==> PassComment(c, s)
  {
  }

  /** A claim that nothing has voided, itself included. */
  predicate Claims(log: Log, i: int, s: Subject) {
    0 <= i < |log| && ClaimComment(log[i], s) && forall k :: i <= k < |log| ==> !VoidComment(log[k], s)
  }

  /** After that claim a passing review that no later review or claim follows. */
  predicate Passes(log: Log, j: int, s: Subject) {
    && 0 <= j < |log| && PassComment(log[j], s) && !ClaimComment(log[j], s)
    && forall k :: j < k < |log| ==> !ClaimComment(log[k], s) && !ReviewComment(log[k], s)
  }

  ghost predicate ClaimStands(log: Log, s: Subject) { exists i :: Claims(log, i, s) }
  ghost predicate ReviewStands(log: Log, s: Subject) { exists i, j :: i < j && Claims(log, i, s) && Passes(log, j, s) }

  lemma ClaimsExtend(front: Log, c: Comment, s: Subject, i: int)
    requires 0 <= i < |front|
    ensures Claims(front + [c], i, s) <==> Claims(front, i, s) && !VoidComment(c, s)
  {
    var log := front + [c];
    assert forall k :: 0 <= k < |front| ==> log[k] == front[k];
    if Claims(log, i, s) {
      assert !VoidComment(log[|front|], s);
    }
  }

  lemma PassesExtend(front: Log, c: Comment, s: Subject, j: int)
    requires 0 <= j < |front|
    ensures Passes(front + [c], j, s) <==> Passes(front, j, s) && !ClaimComment(c, s) && !ReviewComment(c, s)
  {
    var log := front + [c];
    assert forall k :: 0 <= k < |front| ==> log[k] == front[k];
    if Passes(log, j, s) {
      assert !ClaimComment(log[|front|], s) && !ReviewComment(log[|front|], s);
    }
  }

  lemma ClaimStandsExtends(front: Log, c: Comment, s: Subject)
    ensures ClaimStands(front + [c], s) <==> !VoidComment(c, s) && (ClaimComment(c, s) || ClaimStands(front, s))
  {
    var log := front + [c];
    if i :| Claims(log, i, s) {
      assert !VoidComment(log[|front|], s);
      if i < |front| {
        ClaimsExtend(front, c, s, i);
      }
    }
    if !VoidComment(c, s) && ClaimComment(c, s) {
      assert Claims(log, |front|, s);
    } else if i :| Claims(front, i, s) {
      ClaimsExtend(front, c, s, i);
    }
  }

  lemma ReviewStandsExtends(front: Log, c: Comment, s: Subject)
    ensures ReviewStands(front + [c], s) <==>
      && !VoidComment(c, s) && !ClaimComment(c, s)
      && (if ReviewComment(c, s) then PassComment(c, s) && ClaimStands(front, s) else ReviewStands(front, s))
  {
    var log := front + [c];
    if i, j :| i < j && Claims(log, i, s) && Passes(log, j, s) {
      ClaimsExtend(front, c, s, i);
      if j < |front| {
        PassesExtend(front, c, s, j);
      }
    }
    if !VoidComment(c, s) && !ClaimComment(c, s) {
      if ReviewComment(c, s) {
        if i :| PassComment(c, s) && Claims(front, i, s) {
          ClaimsExtend(front, c, s, i);
          assert Passes(log, |front|, s);
        }
      } else if i, j :| i < j && Claims(front, i, s) && Passes(front, j, s) {
        ClaimsExtend(front, c, s, i);
        PassesExtend(front, c, s, j);
      }
    }
  }

  lemma {:induction false} AutomatonInPlainTerms(log: Log, s: Subject)
    ensures Fold(log, s) != Idle <==> ClaimStands(log, s)
    ensures Fold(log, s) == Passed <==> ReviewStands(log, s)
    decreases |log|
  {
    if log == [] {
      assert !ClaimStands(log, s) && !ReviewStands(log, s);
    } else {
      var front, c := log[..|log| - 1], log[|log| - 1];
      assert log == front + [c];
      AutomatonInPlainTerms(front, s);
      ClaimStandsExtends(front, c, s);
      ReviewStandsExtends(front, c, s);
      MarksInPlainTerms(c, s);
      if ReviewStands(front, s) {
        var i, j :| i < j && Claims(front, i, s) && Passes(front, j, s);
        assert ClaimStands(front, s);
      }
    }
  }

  /** On an append-only log with well-formed owner handoffs the review gate accepts
      exactly when an owner's claim for this task and commit stands unvoided, a
      passing owner review for this PR follows it, and no claim or review after. */
  lemma ReviewGateInPlainTerms(log: Log, s: Subject)
    requires Appended(log) && OwnerHandoffsParse(log)
    ensures ValidateReview(log, s).Accept? <==> ReviewStands(log, s)
  {
    GateIsAutomaton(log, s);
    AutomatonInPlainTerms(log, s);
  }

  /** A voiding comment, or a new claim, revokes any pass at once. */
  lemma MarkRevokesPass(log: Log, c: Comment, s: Subject)
    requires Appended(log + [c]) && OwnerHandoffsParse(log + [c])
    requires VoidComment(c, s) || ClaimComment(c, s)
    ensures !ValidateReview(log + [c], s).Accept?
  {
    ReviewGateInPlainTerms(log + [c], s);
    ReviewStandsExtends(log, c, s);
  }

  /** A later review outcome that is no pass revokes it too. */
  lemma FailureRevokesPass(log: Log, c: Comment, s: Subject)
    requires Appended(log + [c]) && OwnerHandoffsParse(log + [c])
    requires ReviewComment(c, s) && !PassComment(c, s)
    ensures !ValidateReview(log + [c], s).Accept?
  {
    ReviewGateInPlainTerms(log + [c], s);
    ReviewStandsExtends(log, c, s);
  }

  /** After a voiding comment nothing is accepted again until the continuation
      holds an owner's new claim and, after it, a passing owner review. */
  lemma VoidedReviewNeedsClaimAndPass(log: Log, c: Comment, rest: Log, s: Subject)
    requires Appended(log + [c] + rest) && OwnerHandoffsParse(log + [c] + rest)
    requires VoidComment(c, s) && ValidateReview(log + [c] + rest, s).Accept?
    ensures exists i, j :: 0 <= i < j < |rest| && ClaimComment(rest[i], s) && PassComment(rest[j], s)
  {
    var all := log + [c] + rest;
    ReviewGateInPlainTerms(all, s);
    var i, j :| i < j && Claims(all, i, s) && Passes(all, j, s);
    var n := |log| + 1;
    assert all[|log|] == c;
    assert i >= n;
    assert rest[i - n] == all[i] && rest[j - n] == all[j];
  }

  /* ---- Owner wait ---- */

  predicate TerminalComment(c: Comment, task: string, sha: Sha) {
    c.login == Bot && c.terminal.Some? && c.terminal.value.taskId == Some(task) && c.terminal.value.sha == Some(sha)
  }

  predicate QaComment(c: Comment, task: string, sha: Sha) {
    && c.login == Bot && c.handoff.Handoff?
    && c.handoff.payload.taskId == Some(task) && c.handoff.payload.sha == Some(sha)
    && c.handoff.payload.from == Some(Workbuddy)
    && c.handoff.payload.phase in {Some(QaShort), Some(QaAcceptance)}
  }

  predicate Stops(c: Comment) {
    c.terminal.Some? && c.terminal.value.releaseDisabled
    && c.terminal.value.policy in {Some(StopAfterQa), Some(OwnerApprovalRequired)}
  }

  /** The bot's newest terminal policy stops before release, and its newest QA
      record is good news, both for this task and commit. */
  ghost predicate OwnerWaitStands(log: Log, task: string, sha: Sha) {
    && (exists c :: c in log && TerminalComment(c, task, sha) && Stops(c)
          && forall other :: other in log && TerminalComment(other, task, sha) ==> other.order <= c.order)
    && (exists c :: c in log && QaComment(c, task, sha) && GoodNews(c)
          && forall other :: other in log && QaComment(other, task, sha) ==> other.order <= c.order)
  }

  lemma OrdersTellApart(log: Log, a: Comment, b: Comment)
    requires DistinctOrders(log) && a in log && b in log && a.order == b.order
    ensures a == b
  {
    var i :| 0 <= i < |log| && log[i] == a;
    var j :| 0 <= j < |log| && log[j] == b;
  }

  lemma OwnerWaitInPlainTerms(log: Log, task: string, sha: Sha)
    requires DistinctOrders(log)
    ensures OwnerWaitEvidence(log, task, sha) <==> OwnerWaitStands(log, task, sha)
  {
    NewestRecordsAreNewest(log, task, sha);
    assert forall c :: TerminalRecord(c, task, sha) <==> TerminalComment(c, task, sha);
    assert forall c :: QaRecord(c, task, sha) <==> QaComment(c, task, sha);
    if OwnerWaitStands(log, task, sha) {
      var t :| t in log && TerminalComment(t, task, sha) && Stops(t)
        && forall other :: other in log && TerminalComment(other, task, sha) ==> other.order <= t.order;
      var q :| q in log && QaComment(q, task, sha) && GoodNews(q)
        && forall other :: other in log && QaComment(other, task, sha) ==> other.order <= q.order;
      OrdersTellApart(log, t, NewestTerminal(log, task, sha).value);
      OrdersTellApart(log, q, NewestQa(log, task, sha).value);
    }
  }

  /* ---- The transition gate ---- */

  predicate RepairComment(c: Comment, b: Binding) {
    && c.login == Owner && RepairMarker in c.text
    && {TaskIs(b.taskId), ShaIs(b.sha), AgentWorkreview, PhaseEscalationRepair} <= c.lines
  }

  /** What each phase must show before it may advance. */
  ghost predicate PhaseEvidence(b: Binding, log: Log) {
    match b.phase
    case Prototype =>
      HandoffStands(log, {Owner, Bot}, b.taskId, b.sha, Workbuddy, Chatgpt, PrototypeValidation, Some(b.pr))
    case Implementation =>
      HandoffStands(log, {Owner}, b.taskId, b.sha, Chatgpt, Workreview, ImplementationReady, Some(b.pr))
    case EscalationRepair =>
      exists c :: c in log && RepairComment(c, b) && (WaitingCi in c.lines || WaitingExactShaCi in c.lines)
        && forall other :: other in log && RepairComment(other, b) ==> other.order <= c.order
    case CodeReview => ReviewStands(log, SubjectOf(b))
    case Qa => ReviewStands(log, SubjectOf(b)) && OwnerWaitStands(log, b.taskId, b.sha)
    case _ => false
  }

  lemma {:induction false} NewestRepairIsNewest(log: Log, b: Binding)
    ensures NewestRepair(log, b).None? ==> forall c :: c in log ==> !RepairComment(c, b)
    ensures NewestRepair(log, b).Some? ==>
      var best := NewestRepair(log, b).value;
      best in log && RepairComment(best, b) && forall c :: c in log && RepairComment(c, b) ==> c.order <= best.order
    decreases |log|
  {
    if log != [] {
      assert log == log[..|log| - 1] + [log[|log| - 1]];
      NewestRepairIsNewest(log[..|log| - 1], b);
    }
  }

  lemma RepairInPlainTerms(b: Binding, log: Log)
    requires DistinctOrders(log) && b.phase == EscalationRepair
    ensures NewestRepair(log, b).Some? && AwaitsCi(NewestRepair(log, b).value) <==> PhaseEvidence(b, log)
  {
    NewestRepairIsNewest(log, b);
    if PhaseEvidence(b, log) {
      var c :| c in log && RepairComment(c, b) && (WaitingCi in c.lines || WaitingExactShaCi in c.lines)
        && forall other :: other in log && RepairComment(other, b) ==> other.order <= c.order;
      OrdersTellApart(log, c, NewestRepair(log, b).value);
    }
  }

  lemma AppendedIsDistinct(log: Log)
    requires Appended(log)
    ensures DistinctOrders(log)
  {
  }

  /** A phase advances exactly when its commit has green CI and its own evidence. */
  lemma TransitionGateInPlainTerms(b: Binding, log: Log, runs: Runs)
    requires Appended(log) && OwnerHandoffsParse(log) && DistinctRuns(runs) && b.sha != "" && b.headRef != ""
    ensures VerifiedNextWorkflow(b, log, runs).Accept? <==> GreenCi(runs, b.sha, b.headRef) && PhaseEvidence(b, log)
  {
    AppendedIsDistinct(log);
    CiMeansGreen(runs, b.sha, b.headRef);
    match b.phase {
      case CodeReview => ReviewGateInPlainTerms(log, SubjectOf(b));
      case Qa =>
        ReviewGateInPlainTerms(log, SubjectOf(b));
        OwnerWaitInPlainTerms(log, b.taskId, b.sha);
      case EscalationRepair => RepairInPlainTerms(b, log);
      case Implementation => HandoffForPr(log, PhaseQuery(b), b.pr);
      case Prototype => HandoffForPr(log, PhaseQuery(b), b.pr);
      case _ =>
    }
  }

  lemma HandoffForPr(log: Log, q: Query, pr: nat)
    requires DistinctOrders(log)
    ensures (ValidateHandoff(log, q).Accept?
             && (ValidateHandoff(log, q).value.pr == None || ValidateHandoff(log, q).value.pr == Some(pr)))
      <==> HandoffStands(log, q.trusted, q.taskId, q.sha, q.from, q.to, q.phase, Some(pr))
  {
    HandoffGateInPlainTerms(log, q);
    if HandoffStands(log, q.trusted, q.taskId, q.sha, q.from, q.to, q.phase, Some(pr)) {
      var i :| NewestSaying(log, i, q.trusted, q.taskId, q.sha, q.from, q.to, q.phase) && GoodNews(log[i]) && ForPr(log[i], pr);
      assert HandoffStands(log, q.trusted, q.taskId, q.sha, q.from, q.to, q.phase, None);
    }
  }

  /* ---- The start gate ---- */

  /** A request for a review of this commit: the post-QA one, or the owner's requeue. */
  predicate ReviewRequested(c: Comment, b: Binding) {
    || ((c.login == Owner || c.login == Bot) && PostQaMarker in c.text
        && {TaskIs(b.taskId), ShaIs(b.sha), NextNewReview} <= c.lines)
    || (c.login == Owner && RequeueMarker in c.text && {TaskIs(b.taskId), ShaIs(b.sha)} <= c.lines)
  }

  /** What a phase must find before it may start. */
  ghost predicate StartEvidence(b: Binding, log: Log, runs: Runs) {
    match b.phase
    case Prototype =>
      HandoffStands(log, {Owner, Bot}, b.taskId, b.sha, Codex, Workbuddy, ProductPlanning, None)
    case Implementation =>
      && GreenCi(runs, b.sha, b.headRef)
      && HandoffStands(log, {Owner, Bot}, b.taskId, b.sha, Workbuddy, Chatgpt, PrototypeValidation, None)
    case CodeReview =>
      && GreenCi(runs, b.sha, b.headRef)
      && ((exists c :: c in log && ReviewRequested(c, b))
          || HandoffStands(log, {Owner}, b.taskId, b.sha, Chatgpt, Workreview, ImplementationReady, None))
    case Qa => GreenCi(runs, b.sha, b.headRef) && ReviewStands(log, SubjectOf(b))
    case _ => true
  }

  lemma StartGateInPlainTerms(b: Binding, log: Log, runs: Runs)
    requires Appended(log) && OwnerHandoffsParse(log) && DistinctRuns(runs) && b.sha != "" && b.headRef != ""
    ensures StartGate(b, log, runs).None? <==> StartEvidence(b, log, runs)
  {
    AppendedIsDistinct(log);
    CiMeansGreen(runs, b.sha, b.headRef);
    match b.phase {
      case Prototype =>
        HandoffGateInPlainTerms(log, Query(b.taskId, Codex, Workbuddy, ProductPlanning, b.sha, {Owner, Bot}));
      case Implementation =>
        HandoffGateInPlainTerms(log, Query(b.taskId, Workbuddy, Chatgpt, PrototypeValidation, b.sha, {Owner, Bot}));
      case CodeReview =>
        HandoffGateInPlainTerms(log, Query(b.taskId, Chatgpt, Workreview, ImplementationReady, b.sha, {Owner}));
        RequestsInPlainTerms(b, log);
      case Qa => ReviewGateInPlainTerms(log, SubjectOf(b));
      case _ =>
    }
  }

  lemma RequestsInPlainTerms(b: Binding, log: Log)
    ensures (exists i :: 0 <= i < |log| && (PostQaRequest(log[i], b) || RequeueRequest(log[i], b)))
      <==> exists c :: c in log && ReviewRequested(c, b)
  {
    if i :| 0 <= i < |log| && (PostQaRequest(log[i], b) || RequeueRequest(log[i], b)) {
      assert log[i] in log && ReviewRequested(log[i], b);
    }
    if c :| c in log && ReviewRequested(c, b) {
      var i :| 0 <= i < |log| && log[i] == c;
      assert PostQaRequest(log[i], b) || RequeueRequest(log[i], b);
    }
  }

  predicate StartRecord(c: Comment, b: Binding) {
    match b.phase
    case Prototype =>
      c.login in {Owner, Bot} && GoodNews(c) && Says(c, b.taskId, b.sha, Codex, Workbuddy, ProductPlanning)
    case Implementation =>
      c.login in {Owner, Bot} && GoodNews(c) && Says(c, b.taskId, b.sha, Workbuddy, Chatgpt, PrototypeValidation)
    case CodeReview =>
      || ReviewRequested(c, b)
      || (c.login == Owner && GoodNews(c) && Says(c, b.taskId, b.sha, Chatgpt, Workreview, ImplementationReady))
    case Qa => PassComment(c, SubjectOf(b))
    case _ => true
  }

  /** On any log at all, an open start gate rests on such a record and on green CI,
      whatever else the log holds; a repair needs neither, a prototype no CI. */
  ghost predicate StartRecords(b: Binding, log: Log, runs: Runs) {
    && (b.phase in {Implementation, CodeReview, Qa} ==> GreenCi(runs, b.sha, b.headRef))
    && (b.phase in {Prototype, Implementation, CodeReview, Qa} ==> exists c :: c in log && StartRecord(c, b))
    && (b.phase == Qa && Appended(log) && OwnerHandoffsParse(log) ==> ReviewStands(log, SubjectOf(b)))
  }

  lemma AcceptedHandoffExists(log: Log, q: Query)
    requires ValidateHandoff(log, q).Accept?
    ensures exists c ::
      && c in log && c.login in q.trusted && GoodNews(c) && c.handoff.payload == ValidateHandoff(log, q).value
      && Says(c, q.taskId, q.sha, q.from, q.to, q.phase)
  {
    LatestIsHighest(log, q);
    var c := Latest(log, q).value;
    assert c in log && c.login in q.trusted && GoodNews(c);
  }

  lemma OpenGateRestsOnRecords(b: Binding, log: Log, runs: Runs)
    requires StartGate(b, log, runs).None?
    ensures StartRecords(b, log, runs)
  {
    CiMeansGreen(runs, b.sha, b.headRef);
    match b.phase {
      case Prototype =>
        AcceptedHandoffExists(log, Query(b.taskId, Codex, Workbuddy, ProductPlanning, b.sha, {Owner, Bot}));
      case Implementation =>
        AcceptedHandoffExists(log, Query(b.taskId, Workbuddy, Chatgpt, PrototypeValidation, b.sha, {Owner, Bot}));
      case CodeReview =>
        RequestsInPlainTerms(b, log);
        var q := Query(b.taskId, Chatgpt, Workreview, ImplementationReady, b.sha, {Owner});
        if ValidateHandoff(log, q).Accept? {
          AcceptedHandoffExists(log, q);
        }
      case Qa =>
        var s := SubjectOf(b);
        AcceptedHandoffExists(log, ReviewQuery(s));
        var p := ValidateReview(log, s).value;
        var c :| c in log && c.login == Owner && GoodNews(c) && c.handoff.payload == p
                 && Says(c, s.taskId, s.sha, Workreview, Workbuddy, CodeReviewed);
        assert PassComment(c, s);
        if Appended(log) && OwnerHandoffsParse(log) {
          ReviewGateInPlainTerms(log, s);
        }
      case _ =>
    }
  }

  /* ---- Durable results ---- */

  predicate PhaseResult(c: Comment, b: Binding) {
    && c.handoff.Handoff? && ForPr(c, b.pr)
    && c.handoff.payload.taskId == Some(b.taskId) && c.handoff.payload.sha == Some(b.sha)
    && c.handoff.payload.from == Some(b.agent)
    && match b.phase
       case Prototype => c.handoff.payload.phase == Some(PrototypeValidation)
       case Implementation => c.handoff.payload.phase == Some(ImplementationReady)
       case CodeReview => c.handoff.payload.phase == Some(CodeReviewed)
       case Qa => c.handoff.payload.phase == Some(QaAcceptance)
       case _ => c.handoff.payload.phase == None
  }

  /** Recovery sees a result exactly when an author it trusts for the agent left a
      repair record, or a handoff of the phase for this task, commit and PR. */
  lemma DurableResultInPlainTerms(b: Binding, log: Log)
    ensures DurableResult(b, log) <==> exists c ::
      && c in log
      && (c.login == Owner || (c.login == Bot && b.agent != Chatgpt && b.agent != Workreview))
      && ((b.phase == EscalationRepair && RepairMarker in c.text
           && {TaskIs(b.taskId), ShaIs(b.sha), AgentWorkreview, PhaseEscalationRepair} <= c.lines)
          || PhaseResult(c, b))
  {
    if DurableResult(b, log) {
      var i :| 0 <= i < |log| && DurableRecord(log[i], b);
      assert log[i] in log;
    }
    forall c | c in log && DurableRecord(c, b)
      ensures DurableResult(b, log)
    {
      MemberIsDurable(c, b, log);
    }
  }
}
