/** What each decision of the handoff reconciler means for the labels, and when
    it is taken, said on the labels and the log themselves. */
module DecideLaws {
  import opened Labels
  import opened Records
  import opened HandoffGate
  import opened EvidenceGate
  import opened ReviewAutomaton
  import opened StateProjection
  import opened GateLaws
  import opened Reconcile

  predicate PersonWaits(labels: LabelSet) { Status(Review) in labels || Approval(ProductionRequired) in labels }

  /** A blocked PR whose block this target may lift: a timeout without a QA evidence
      mark, or in QA the evidence mark without a timeout; nothing else blocks. */
  predicate Liftable(labels: LabelSet, phase: PhaseName) {
    && Recovery(Technical) !in labels && (forall x :: x in labels ==> !x.Blocker?)
    && (if Watchdog(Timeout) in labels then Recovery(QaEvidence) !in labels
        else Recovery(QaEvidence) in labels && phase == Qa)
  }

  predicate StateLabel(x: Label) { x in STATE_LABELS }

  /** Rerouting leaves the target's agent, phase and status as the only state
      labels and otherwise removes nothing but the mark of the block it lifts. It
      is never done while a person waits, on a closed PR, or without green CI. */
  lemma RerouteMeans(x: Target, log: Log, runs: Runs)
    requires Decide(x, log, runs).Reroute?
    ensures var d, labels := Decide(x, log, runs), x.pr.labels;
      var blocked := Status(StatusName.Blocked) in labels;
      && x.pr.open && !x.pr.merged && x.task != "" && x.pr.headSha != ""
      && GreenCi(runs, x.pr.headSha, x.pr.headRef) && !PersonWaits(labels)
      && (d.agent, d.phase) in {(Workbuddy, Qa), (Workreview, CodeReview)}
      && d.status == (if !blocked && {Agent(d.agent), Phase(d.phase), Status(Running)} <= labels then Running else Todo)
      && (forall y :: StateLabel(y) ==> (y in d.after <==> y in {Agent(d.agent), Phase(d.phase), Status(d.status)}))
      && (forall y :: !StateLabel(y) ==>
            (y in d.after <==>
              y in labels && !(blocked && y == if Watchdog(Timeout) in labels then Watchdog(Timeout) else Recovery(QaEvidence))))
      && (blocked ==> Liftable(labels, d.phase))
      && d.after != labels
  {
    CiMeansGreen(runs, x.pr.headSha, x.pr.headRef);
    var d := Decide(x, log, runs);
    assert WorkRoute(d.agent, d.phase, d.status) <= STATE_LABELS;
    assert x.pr.labels * STATE_LABELS != WorkRoute(d.agent, d.phase, d.status);
    assert d.after * STATE_LABELS == WorkRoute(d.agent, d.phase, d.status);
  }

  /** The owner's newest relevant handoff sends the PR where its own route leads. */
  lemma RerouteFollowsHandoff(x: Target, log: Log, runs: Runs)
    requires Decide(x, log, runs).Reroute? || Decide(x, log, runs).EnsureQaDispatch?
    ensures exists c ::
      && c in log && c.login == Owner && GoodNews(c) && ForPr(c, x.number)
      && (if Decide(x, log, runs).phase == Qa
          then Decide(x, log, runs).agent == Workbuddy && Says(c, x.task, x.pr.headSha, Workreview, Workbuddy, CodeReviewed)
               && c.handoff.payload.reviewPassed
          else Decide(x, log, runs).agent == Workreview && Decide(x, log, runs).phase == CodeReview
               && Says(c, x.task, x.pr.headSha, Chatgpt, Workreview, ImplementationReady))
  {
    NewestRelevantIsHighest(log, x.pr.headSha);
    var c := NewestRelevant(log, x.pr.headSha).value;
    assert c in log && c.login == Owner && GoodNews(c) && ForPr(c, x.number);
  }

  /** QA is woken again exactly where its idle route already shows. */
  lemma EnsureDispatchMeans(x: Target, log: Log, runs: Runs)
    requires Decide(x, log, runs).EnsureQaDispatch?
    ensures Decide(x, log, runs).agent == Workbuddy && Decide(x, log, runs).phase == Qa
    ensures forall y :: StateLabel(y) ==> (y in x.pr.labels <==> y in {Agent(Workbuddy), Phase(Qa), Status(Todo)})
    ensures GreenCi(runs, x.pr.headSha, x.pr.headRef) && !PersonWaits(x.pr.labels)
  {
    CiMeansGreen(runs, x.pr.headSha, x.pr.headRef);
    var route := WorkRoute(Workbuddy, Qa, Todo);
    assert x.pr.labels * STATE_LABELS == route;
    forall y | StateLabel(y)
      ensures y in x.pr.labels <==> y in route
    {
      assert y in x.pr.labels * STATE_LABELS <==> y in x.pr.labels;
    }
  }

  /** Converging removes exactly the state labels and adds the two of the owner
      wait, on full terminal evidence and a passing review, and never over an
      approval given or a block. */
  lemma ConvergeMeans(x: Target, log: Log, runs: Runs)
    requires DistinctOrders(log) && Decide(x, log, runs).ConvergeOwnerWait?
    ensures var labels, after := x.pr.labels, Decide(x, log, runs).after;
      && x.pr.open && !x.pr.merged
      && (forall y :: y in after <==> y in {Status(Review), Approval(ProductionRequired)} || (y in labels && !StateLabel(y)))
      && after != labels && Approval(ProductionApproved) !in labels && Status(StatusName.Blocked) !in labels
      && GreenCi(runs, x.pr.headSha, x.pr.headRef) && OwnerWaitStands(log, x.task, x.pr.headSha)
      && SuccessfulCurrentCi(runs, x.pr.headSha, x.pr.headRef) != Some(0)
      && exists c :: c in log && ReviewComment(c, SubjectOfTarget(x)) && GoodNews(c) && c.handoff.payload.reviewPassed
  {
    CiMeansGreen(runs, x.pr.headSha, x.pr.headRef);
    OwnerWaitInPlainTerms(log, x.task, x.pr.headSha);
    var s := SubjectOfTarget(x);
    NewestReviewIsHighest(log, s);
    var c := NewestReview(log, s).value;
    assert c in log && ReviewComment(c, s) && GoodNews(c);
  }

  /** A final review is queued again only from a running or idle QA, or to complete a
      queued review, on terminal evidence, for nobody who waits, and it is marked
      unless the bot marked it before. */
  lemma RequeueMeans(x: Target, log: Log, runs: Runs)
    requires DistinctOrders(log) && Decide(x, log, runs).RequeuePostQaReview?
    ensures var labels, d := x.pr.labels, Decide(x, log, runs);
      && (({Agent(Workbuddy), Phase(Qa)} <= labels && (Status(Running) in labels || Status(Todo) in labels))
          || {Agent(Workreview), Phase(CodeReview), Status(Todo)} <= labels)
      && !PersonWaits(labels) && Approval(ProductionApproved) !in labels && Status(StatusName.Blocked) !in labels
      && (forall y :: y in d.after <==>
            y in {Agent(Workreview), Phase(CodeReview), Status(Todo)} || (y in labels && !StateLabel(y)))
      && (d.writeMarker <==> forall c :: c in log && c.login == Bot && PostQaMarker in c.text ==>
            !({TaskIs(x.task), ShaIs(x.pr.headSha)} <= c.lines))
      && (d.after != labels || d.writeMarker)
      && GreenCi(runs, x.pr.headSha, x.pr.headRef) && OwnerWaitStands(log, x.task, x.pr.headSha)
      && SuccessfulCurrentCi(runs, x.pr.headSha, x.pr.headRef) != Some(0)
  {
    CiMeansGreen(runs, x.pr.headSha, x.pr.headRef);
    OwnerWaitInPlainTerms(log, x.task, x.pr.headSha);
    if PostQaMarkerExists(log, x.task, x.pr.headSha) {
      var i :| 0 <= i < |log| && log[i].login == Bot && PostQaMarker in log[i].text
        && TaskIs(x.task) in log[i].lines && ShaIs(x.pr.headSha) in log[i].lines;
      assert log[i] in log && {TaskIs(x.task), ShaIs(x.pr.headSha)} <= log[i].lines;
    } else {
      forall c | c in log && c.login == Bot && PostQaMarker in c.text
        ensures !({TaskIs(x.task), ShaIs(x.pr.headSha)} <= c.lines)
      {
        var i :| 0 <= i < |log| && log[i] == c;
      }
    }
  }

  /** While a person waits, the only change ever decided is completing that wait. */
  lemma WaitIsOnlyCompleted(x: Target, log: Log, runs: Runs)
    requires PersonWaits(x.pr.labels)
    ensures Decide(x, log, runs).Noop? || Decide(x, log, runs).ConvergeOwnerWait?
  {
  }

  /** The newest relevant owner handoff is good news of this task, commit and PR,
      and if it is a review, an independent pass. */
  predicate Actionable(x: Target, log: Log, c: Comment) {
    && NewestRelevant(log, x.pr.headSha) == Some(c) && GoodNews(c) && ForPr(c, x.number)
    && c.handoff.payload.taskId == Some(x.task) && c.handoff.payload.sha == Some(x.pr.headSha)
    && (ReviewRoute(c.handoff.payload) ==>
          IndependentReviewPass(log, c.handoff.payload, c, x.task, x.pr.headSha))
  }

  /** And it does act: such a handoff on an open PR under green CI, with nobody
      waiting, no terminal evidence yet and no foreign block, brings the state
      labels to its target; where they show it already, an idle QA is woken again
      and anything else is left as it is. */
  lemma ActsOnHandoff(x: Target, log: Log, runs: Runs, c: Comment)
    requires x.pr.open && !x.pr.merged && x.task != "" && x.pr.headSha != ""
    requires SuccessfulCurrentCi(runs, x.pr.headSha, x.pr.headRef).Some?
    requires !OwnerWaitEvidence(log, x.task, x.pr.headSha) && !PersonWaits(x.pr.labels)
    requires Actionable(x, log, c)
    requires Status(StatusName.Blocked) in x.pr.labels ==>
      Liftable(x.pr.labels, if ReviewRoute(c.handoff.payload) then Qa else CodeReview)
    ensures var d := Decide(x, log, runs);
      var agent := if ReviewRoute(c.handoff.payload) then Workbuddy else Workreview;
      var phase := if ReviewRoute(c.handoff.payload) then Qa else CodeReview;
      var shown := x.pr.labels * STATE_LABELS;
      if shown == WorkRoute(agent, phase, Running) then d == Noop(ALREADY_CANONICAL)
      else if shown == WorkRoute(agent, phase, Todo) then
        d == if phase == Qa then EnsureQaDispatch(agent, phase) else Noop(ALREADY_CANONICAL)
      else d.Reroute? && d.agent == agent && d.phase == phase
  {
    NewestRelevantIsHighest(log, x.pr.headSha);
    var agent := if ReviewRoute(c.handoff.payload) then Workbuddy else Workreview;
    var phase := if ReviewRoute(c.handoff.payload) then Qa else CodeReview;
    var labels := x.pr.labels;
    assert Status(Running) in labels * STATE_LABELS <==> Status(Running) in labels;
    assert Status(StatusName.Blocked) in labels * STATE_LABELS <==> Status(StatusName.Blocked) in labels;
    assert WorkRoute(agent, phase, Running) <= STATE_LABELS;
    if labels * STATE_LABELS == WorkRoute(agent, phase, Running) {
      assert WorkRoute(agent, phase, Running) <= labels;
    }
  }

  /** Terminal evidence on an open PR under a green run. */
  predicate TerminalStage(x: Target, log: Log, runs: Runs) {
    && x.pr.open && !x.pr.merged && x.task != "" && x.pr.headSha != ""
    && SuccessfulCurrentCi(runs, x.pr.headSha, x.pr.headRef).Some?
    && SuccessfulCurrentCi(runs, x.pr.headSha, x.pr.headRef) != Some(0)
    && OwnerWaitEvidence(log, x.task, x.pr.headSha)
  }

  /** The newest review of the final commit is an independent pass. */
  predicate FinalPass(x: Target, log: Log) {
    var review := NewestReview(log, SubjectOfTarget(x));
    review.Some? && GoodNews(review.value)
    && IndependentReviewPass(log, review.value.handoff.payload, review.value, x.task, x.pr.headSha)
  }

  /** At that stage a passed final review leads to the owner wait, unless approval
      was given, the PR is blocked, or the wait shows already; and one that is
      missing is queued again exactly from QA or to complete its queued review. */
  lemma TerminalStageActs(x: Target, log: Log, runs: Runs)
    requires TerminalStage(x, log, runs)
    ensures var d, labels := Decide(x, log, runs), x.pr.labels;
      var wait := (labels - STATE_LABELS) + {Status(Review), Approval(ProductionRequired)};
      var queue := (labels - STATE_LABELS) + {Agent(Workreview), Phase(CodeReview), Status(Todo)};
      if FinalPass(x, log) then
        if Approval(ProductionApproved) in labels || Status(StatusName.Blocked) in labels
        then d == Noop(OWNER_WAIT_HAS_OTHER_BLOCKER)
        else d == if wait == labels then Noop(INTENTIONAL_OWNER_WAIT) else ConvergeOwnerWait(wait)
      else
        var marked := PostQaMarkerExists(log, x.task, x.pr.headSha);
        (d.RequeuePostQaReview? <==>
          && (({Agent(Workbuddy), Phase(Qa)} <= labels && (Status(Running) in labels || Status(Todo) in labels))
              || {Agent(Workreview), Phase(CodeReview), Status(Todo)} <= labels)
          && !PersonWaits(labels) && Approval(ProductionApproved) !in labels && Status(StatusName.Blocked) !in labels
          && (queue != labels || !marked))
        && (d.RequeuePostQaReview? ==> d == RequeuePostQaReview(queue, !marked))
        && (PersonWaits(labels) ==> d == Noop(OWNER_WAIT_FINAL_REVIEW))
  {
  }

  /** Where a person waits without that stage, the missing piece is named. */
  lemma UnfinishedWaitIsNamed(x: Target, log: Log, runs: Runs)
    requires x.pr.open && !x.pr.merged && x.task != "" && x.pr.headSha != "" && PersonWaits(x.pr.labels)
    requires !TerminalStage(x, log, runs)
    ensures Decide(x, log, runs) == Noop(
      if SuccessfulCurrentCi(runs, x.pr.headSha, x.pr.headRef).None? then OWNER_WAIT_CI
      else if !OwnerWaitEvidence(log, x.task, x.pr.headSha) then OWNER_WAIT_TERMINAL_EVIDENCE
      else OWNER_WAIT_FINAL_REVIEW)
  {
  }
}
