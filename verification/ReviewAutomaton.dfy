/** The independent-review gate sorts and takes maxima over the whole log. On
    an append-only log it is a three-state automaton read one comment at a time. */
module ReviewAutomaton {
  import opened Labels
  import opened Records
  import opened HandoffGate
  import opened EvidenceGate

  datatype State = Idle | Claimed | Passed

  predicate IsReview(c: Comment, s: Subject) { Record(c, ReviewQuery(s)) }

  /** A successful review of this PR, without blockers, with an explicit pass check. */
  predicate PassesReview(c: Comment, s: Subject) {
    && IsReview(c, s) && Succeeds(c)
    && c.handoff.payload.reviewPassed
    && (c.handoff.payload.pr == None || c.handoff.payload.pr == Some(s.pr))
  }

  /** A repair, requeue or post-QA marker voids the claim; a new claim voids a
      pass; a review outcome counts only under a claim. */
  function Advance(state: State, c: Comment, s: Subject): State {
    if Carries(c, InvalidMark, s.taskId, s.sha) then Idle
    else if Carries(c, ClaimMark, s.taskId, s.sha) then Claimed
    else if IsReview(c, s) && state != Idle then if PassesReview(c, s) then Passed else Claimed
    else state
  }

  function Fold(log: Log, s: Subject): State {
    if log == [] then Idle else Advance(Fold(log[..|log| - 1], s), log[|log| - 1], s)
  }

  /** An append-only log: later entries have greater (created_at, id). */
  predicate Appended(log: Log) { forall i, j :: 0 <= i < j < |log| ==> log[i].order < log[j].order }

  predicate OwnerHandoffsParse(log: Log) {
    forall i :: 0 <= i < |log| && log[i].login == Owner ==> !log[i].handoff.Malformed?
  }

  /** The last review record of an append-only log. */
  function LastReview(log: Log, s: Subject): Option<Comment> {
    if log == [] then None
    else if IsReview(log[|log| - 1], s) then Some(log[|log| - 1])
    else LastReview(log[..|log| - 1], s)
  }

  lemma {:induction false} LastReviewIsLatest(log: Log, s: Subject)
    requires Appended(log)
    ensures LastReview(log, s).None? ==> forall c :: c in log ==> !IsReview(c, s)
    ensures LastReview(log, s).Some? ==>
      var r := LastReview(log, s).value;
      r in log && IsReview(r, s) && forall c :: c in log && IsReview(c, s) ==> c.order <= r.order
    decreases |log|
  {
    if log != [] {
      var front := log[..|log| - 1];
      assert log == front + [log[|log| - 1]];
      LastReviewIsLatest(front, s);
      forall c | c in front
        ensures c.order < log[|log| - 1].order
      {
        var i :| 0 <= i < |front| && front[i] == c;
        assert log[i] == c;
      }
    }
  }

  lemma {:induction false} NewestIsBelow(log: Log, mark: Mark, task: string, sha: Sha, bound: int)
    requires forall i :: 0 <= i < |log| ==> log[i].order < bound
    ensures Newest(log, mark, task, sha).Some? ==> Newest(log, mark, task, sha).value < bound
    decreases |log|
  {
    if log != [] {
      NewestIsBelow(log[..|log| - 1], mark, task, sha, bound);
    }
  }

  /** What the automaton state says about the last claim, invalidation and review. */
  predicate Explains(state: State, log: Log, s: Subject) {
    var claim, invalid := Newest(log, ClaimMark, s.taskId, s.sha), Newest(log, InvalidMark, s.taskId, s.sha);
    var review := LastReview(log, s);
    var claimed := claim.Some? && (invalid.None? || claim.value > invalid.value);
    && (state == Idle <==> !claimed)
    && (state == Passed <==> claimed && review.Some? && PassesReview(review.value, s) && claim.value < review.value.order)
  }

  lemma {:induction false} FoldExplains(log: Log, s: Subject)
    requires Appended(log)
    ensures Explains(Fold(log, s), log, s)
    decreases |log|
  {
    if log != [] {
      var front, c := log[..|log| - 1], log[|log| - 1];
      FoldExplains(front, s);
      NewestIsBelow(front, ClaimMark, s.taskId, s.sha, c.order);
      NewestIsBelow(front, InvalidMark, s.taskId, s.sha, c.order);
      LastReviewIsLatest(front, s);
      if LastReview(front, s).Some? {
        var i :| 0 <= i < |front| && front[i] == LastReview(front, s).value;
        assert log[i].order < c.order;
      }
    }
  }

  /** The handoff gate returns the last review record when it accepts. */
  lemma GateFindsLastReview(log: Log, s: Subject)
    requires Appended(log) && OwnerHandoffsParse(log)
    ensures ValidateHandoff(log, ReviewQuery(s)).Accept? <==>
      LastReview(log, s).Some? && Succeeds(LastReview(log, s).value)
    ensures ValidateHandoff(log, ReviewQuery(s)).Accept? ==>
      ValidateHandoff(log, ReviewQuery(s)) == Accept(LastReview(log, s).value.handoff.payload)
      && NewestCopy(log, LastReview(log, s).value.handoff.payload) == Some(LastReview(log, s).value)
  {
    var q := ReviewQuery(s);
    GateSpecification(log, q);
    LastReviewIsLatest(log, s);
    assert !Unreadable(log, q);
    if LastReview(log, s).Some? {
      var r := LastReview(log, s).value;
      var i :| 0 <= i < |log| && log[i] == r;
      assert GreatestRecord(log, q, i);
      forall j | GreatestRecord(log, q, j)
        ensures j == i
      {
        assert log[j] in log;
      }
      NewestCopyIsNewest(log, r.handoff.payload);
      var copy := NewestCopy(log, r.handoff.payload).value;
      assert IsReview(copy, s);
      assert copy.order == r.order;
    }
  }

  /** The gate refines the automaton: it accepts the review evidence exactly
      when reading the log comment by comment ends in `Passed`. */
  lemma GateIsAutomaton(log: Log, s: Subject)
    requires Appended(log) && OwnerHandoffsParse(log)
    ensures ValidateReview(log, s).Accept? <==> Fold(log, s) == Passed
  {
    FoldExplains(log, s);
    GateFindsLastReview(log, s);
    LastReviewIsLatest(log, s);
    if LastReview(log, s).Some? && Succeeds(LastReview(log, s).value) {
      var r := LastReview(log, s).value;
      assert r.login == Owner;
      assert ValidateReview(log, s).Accept? <==>
        (r.handoff.payload.pr == None || r.handoff.payload.pr == Some(s.pr))
        && IndependentReviewPass(log, r.handoff.payload, r, s.taskId, s.sha);
    } else {
      assert ValidateReview(log, s).Reject?;
    }
  }

  /** With CI the QA gate accepts exactly in `Passed` under a green current run. */
  lemma QaGateIsAutomaton(log: Log, runs: Runs, s: Subject)
    requires Appended(log) && OwnerHandoffsParse(log)
    ensures ValidateQaEvidence(log, runs, s).Accept? <==>
      Fold(log, s) == Passed && SuccessfulCurrentCi(runs, s.sha, s.headRef).Some?
  {
    GateIsAutomaton(log, s);
  }

  lemma {:induction false} ClaimNeededToLeaveIdle(log: Log, rest: Log, s: Subject)
    requires Fold(log, s) == Idle && Fold(log + rest, s) != Idle
    ensures exists i :: 0 <= i < |rest| && Carries(rest[i], ClaimMark, s.taskId, s.sha)
    decreases |rest|
  {
    assert log + [] == log;
    if rest != [] {
      var front := rest[..|rest| - 1];
      assert (log + rest)[..|log + rest| - 1] == log + front;
      if Fold(log + front, s) != Idle {
        ClaimNeededToLeaveIdle(log, front, s);
        var i :| 0 <= i < |front| && Carries(front[i], ClaimMark, s.taskId, s.sha);
        assert rest[i] == front[i];
      } else {
        assert Carries(rest[|rest| - 1], ClaimMark, s.taskId, s.sha);
      }
    }
  }

  /** A new claim and, after it, a passing review. */
  ghost predicate ClaimThenPass(log: Log, s: Subject) {
    exists i, j :: 0 <= i < j < |log| && Carries(log[i], ClaimMark, s.taskId, s.sha) && PassesReview(log[j], s)
  }

  /** After a repair, requeue or post-QA marker no continuation is accepted
      unless it holds a new claim and, after that claim, a passing review. */
  lemma {:induction false} VoidedPassNeedsClaimAndPass(log: Log, rest: Log, s: Subject)
    requires Fold(log, s) == Idle && Fold(log + rest, s) == Passed
    ensures ClaimThenPass(rest, s)
    decreases |rest|
  {
    assert log + [] == log;
    var n := |rest| - 1;
    var front := rest[..n];
    assert (log + rest)[..|log + rest| - 1] == log + front;
    if Fold(log + front, s) == Passed {
      VoidedPassNeedsClaimAndPass(log, front, s);
      var i, j :| 0 <= i < j < |front|
        && Carries(front[i], ClaimMark, s.taskId, s.sha) && PassesReview(front[j], s);
      assert rest[i] == front[i] && rest[j] == front[j];
    } else {
      ClaimNeededToLeaveIdle(log, front, s);
      var i :| 0 <= i < |front| && Carries(front[i], ClaimMark, s.taskId, s.sha);
      assert rest[i] == front[i] && PassesReview(rest[n], s);
    }
  }
}
