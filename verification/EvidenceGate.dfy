/** CI, independent review and owner-wait evidence, and the incremental
    automaton that the independent-review gate amounts to. */
module EvidenceGate {
  import opened Labels
  import opened Records
  import opened HandoffGate

  /** `ordinary` says that event, path and name are those of the CI workflow. */
  datatype CiRun = CiRun(sha: Sha, branch: string, ordinary: bool, order: int, id: nat, succeeded: bool)
  type Runs = seq<CiRun>

  /** The pull request facts a gate is asked about. */
  datatype Subject = Subject(taskId: string, sha: Sha, headRef: string, pr: nat)

  predicate CiCandidate(r: CiRun, sha: Sha, ref: string) { r.sha == sha && r.branch == ref && r.ordinary }

  function LatestCi(runs: Runs, sha: Sha, ref: string): Option<CiRun> {
    if runs == [] then None
    else
      var best := LatestCi(runs[..|runs| - 1], sha, ref);
      var r := runs[|runs| - 1];
      if CiCandidate(r, sha, ref) && (best.None? || r.order > best.value.order) then Some(r) else best
  }

  function SuccessfulCurrentCi(runs: Runs, sha: Sha, ref: string): Option<nat> {
    if sha == "" || ref == "" then None
    else
      match LatestCi(runs, sha, ref)
      case None => None
      case Some(r) => if r.succeeded then Some(r.id) else None
  }

  lemma {:induction false} LatestCiIsNewest(runs: Runs, sha: Sha, ref: string)
    ensures LatestCi(runs, sha, ref).None? ==> forall r :: r in runs ==> !CiCandidate(r, sha, ref)
    ensures LatestCi(runs, sha, ref).Some? ==>
      var best := LatestCi(runs, sha, ref).value;
      && best in runs && CiCandidate(best, sha, ref)
      && forall r :: r in runs && CiCandidate(r, sha, ref) ==> r.order <= best.order
    decreases |runs|
  {
    if runs != [] {
      assert runs == runs[..|runs| - 1] + [runs[|runs| - 1]];
      LatestCiIsNewest(runs[..|runs| - 1], sha, ref);
    }
  }

  /** An ordinary run of this commit and branch. */
  predicate RunOf(r: CiRun, sha: Sha, ref: string) { r.ordinary && r.sha == sha && r.branch == ref }

  /** A green CI run of this very commit and branch that no newer one supersedes. */
  predicate GreenCi(runs: Runs, sha: Sha, ref: string) {
    exists r :: r in runs && RunOf(r, sha, ref) && r.succeeded
      && forall other :: other in runs && RunOf(other, sha, ref) ==> other.order <= r.order
  }

  predicate DistinctRuns(runs: Runs) {
    forall i, j :: 0 <= i < j < |runs| ==> runs[i].order != runs[j].order
  }

  lemma CiMeansGreen(runs: Runs, sha: Sha, ref: string)
    ensures SuccessfulCurrentCi(runs, sha, ref).Some? ==> sha != "" && ref != "" && GreenCi(runs, sha, ref)
    ensures DistinctRuns(runs) && sha != "" && ref != ""
      ==> (SuccessfulCurrentCi(runs, sha, ref).Some? <==> GreenCi(runs, sha, ref))
  {
    LatestCiIsNewest(runs, sha, ref);
    assert forall r :: CiCandidate(r, sha, ref) <==> RunOf(r, sha, ref);
    if LatestCi(runs, sha, ref).Some? && GreenCi(runs, sha, ref) {
      var r :| r in runs && RunOf(r, sha, ref) && r.succeeded
        && forall other :: other in runs && RunOf(other, sha, ref) ==> other.order <= r.order;
      assert r.order == LatestCi(runs, sha, ref).value.order;
    }
  }

  method FindSuccessfulCurrentCi(runs: Runs, sha: Sha, ref: string) returns (id: Option<nat>)
    ensures id == SuccessfulCurrentCi(runs, sha, ref)
  {
    if sha == "" || ref == "" {
      return None;
    }
    var latest: Option<CiRun> := None;
    for n := 0 to |runs|
      invariant latest == LatestCi(runs[..n], sha, ref)
    {
      assert runs[..n + 1][..n] == runs[..n];
      if CiCandidate(runs[n], sha, ref) && (latest.None? || runs[n].order > latest.value.order) {
        latest := Some(runs[n]);
      }
    }
    assert runs[..|runs|] == runs;
    id := if latest.Some? && latest.value.succeeded then Some(latest.value.id) else None;
  }

  /* ---- validate_qa_evidence ---- */

  function ReviewQuery(s: Subject): Query {
    Query(s.taskId, Workreview, Workbuddy, CodeReviewed, s.sha, {Owner})
  }

  predicate OwnerRecordOf(c: Comment, p: Payload) { c.login == Owner && c.handoff == Handoff(p) }

  /** The newest owner comment that carries exactly this payload. */
  function NewestCopy(log: Log, p: Payload): Option<Comment> {
    if log == [] then None
    else
      var best := NewestCopy(log[..|log| - 1], p);
      var c := log[|log| - 1];
      if OwnerRecordOf(c, p) && (best.None? || c.order > best.value.order) then Some(c) else best
  }

  /** The review part of the QA gate: everything but CI. */
  function ValidateReview(log: Log, s: Subject): Verdict<Payload> {
    var p :- ValidateHandoff(log, ReviewQuery(s));
    if p.pr.Some? && p.pr.value != s.pr then Reject(OTHER_PR)
    else
      match NewestCopy(log, p)
      case None => Reject(REVIEW_PASS_MISSING)
      case Some(c) =>
        if IndependentReviewPass(log, p, c, s.taskId, s.sha) then Accept(p) else Reject(REVIEW_PASS_MISSING)
  }

  function ValidateQaEvidence(log: Log, runs: Runs, s: Subject): Verdict<Payload> {
    var p :- ValidateReview(log, s);
    if SuccessfulCurrentCi(runs, s.sha, s.headRef).None? then Reject(CI_NOT_PASSED) else Accept(p)
  }

  method CheckQaEvidence(log: Log, runs: Runs, s: Subject) returns (r: Verdict<Payload>)
    ensures r == ValidateQaEvidence(log, runs, s)
  {
    var found := FindLatestMatchingHandoff(log, ReviewQuery(s));
    if found.Reject? {
      return Reject(found.reason);
    }
    var p := found.value;
    if !p.success {
      return Reject(HANDOFF_NOT_SUCCESS);
    }
    if p.blockers {
      return Reject(HANDOFF_BLOCKED);
    }
    if p.sha != Some(s.sha) {
      return Reject(HANDOFF_OTHER_SHA);
    }
    if p.pr.Some? && p.pr.value != s.pr {
      return Reject(OTHER_PR);
    }
    var match_: Option<Comment> := None;
    for n := 0 to |log|
      invariant match_ == NewestCopy(log[..n], p)
    {
      assert log[..n + 1][..n] == log[..n];
      if log[n].login == Owner && log[n].handoff == Handoff(p)
         && (match_.None? || log[n].order > match_.value.order)
      {
        match_ := Some(log[n]);
      }
    }
    assert log[..|log|] == log;
    if match_.None? {
      return Reject(REVIEW_PASS_MISSING);
    }
    var pass := CheckIndependentReview(log, p, match_.value, s.taskId, s.sha);
    if !pass {
      return Reject(REVIEW_PASS_MISSING);
    }
    var ci := FindSuccessfulCurrentCi(runs, s.sha, s.headRef);
    r := if ci.None? then Reject(CI_NOT_PASSED) else Accept(p);
  }

  /* ---- owner_wait_evidence ---- */

  predicate TerminalRecord(c: Comment, task: string, sha: Sha) {
    c.login == Bot && c.terminal.Some?
    && c.terminal.value.taskId == Some(task) && c.terminal.value.sha == Some(sha)
  }

  predicate QaRecord(c: Comment, task: string, sha: Sha) {
    && c.login == Bot && c.handoff.Handoff?
    && var p := c.handoff.payload;
       && p.taskId == Some(task) && p.sha == Some(sha) && p.from == Some(Workbuddy)
       && (p.phase == Some(QaShort) || p.phase == Some(QaAcceptance))
  }

  function NewestTerminal(log: Log, task: string, sha: Sha): Option<Comment> {
    if log == [] then None
    else
      var best := NewestTerminal(log[..|log| - 1], task, sha);
      var c := log[|log| - 1];
      if TerminalRecord(c, task, sha) && (best.None? || c.order > best.value.order) then Some(c) else best
  }

  function NewestQa(log: Log, task: string, sha: Sha): Option<Comment> {
    if log == [] then None
    else
      var best := NewestQa(log[..|log| - 1], task, sha);
      var c := log[|log| - 1];
      if QaRecord(c, task, sha) && (best.None? || c.order > best.value.order) then Some(c) else best
  }

  predicate StopsBeforeRelease(t: Terminal) {
    (t.policy == Some(OwnerApprovalRequired) || t.policy == Some(StopAfterQa)) && t.releaseDisabled
  }

  predicate OwnerWaitEvidence(log: Log, task: string, sha: Sha) {
    var terminal, qa := NewestTerminal(log, task, sha), NewestQa(log, task, sha);
    && terminal.Some? && terminal.value.terminal.Some? && StopsBeforeRelease(terminal.value.terminal.value)
    && qa.Some? && Succeeds(qa.value)
  }

  method CheckOwnerWaitEvidence(log: Log, task: string, sha: Sha) returns (waits: bool)
    ensures waits == OwnerWaitEvidence(log, task, sha)
  {
    var terminal: Option<Comment>, qa: Option<Comment> := None, None;
    for n := 0 to |log|
      invariant terminal == NewestTerminal(log[..n], task, sha)
      invariant qa == NewestQa(log[..n], task, sha)
    {
      assert log[..n + 1][..n] == log[..n];
      var c := log[n];
      if c.login == Bot {
        if TerminalRecord(c, task, sha) && (terminal.None? || c.order > terminal.value.order) {
          terminal := Some(c);
        }
        if QaRecord(c, task, sha) && (qa.None? || c.order > qa.value.order) {
          qa := Some(c);
        }
      }
    }
    assert log[..|log|] == log;
    waits := terminal.Some? && terminal.value.terminal.Some?
      && StopsBeforeRelease(terminal.value.terminal.value) && qa.Some? && Succeeds(qa.value);
  }

  /** Both records exist in the log, are the newest of their kind, and name the commit. */
  lemma {:induction false} NewestRecordsAreNewest(log: Log, task: string, sha: Sha)
    ensures NewestTerminal(log, task, sha).None? ==> forall c :: c in log ==> !TerminalRecord(c, task, sha)
    ensures NewestTerminal(log, task, sha).Some? ==>
      var t := NewestTerminal(log, task, sha).value;
      t in log && TerminalRecord(t, task, sha) && forall c :: c in log && TerminalRecord(c, task, sha) ==> c.order <= t.order
    ensures NewestQa(log, task, sha).None? ==> forall c :: c in log ==> !QaRecord(c, task, sha)
    ensures NewestQa(log, task, sha).Some? ==>
      var q := NewestQa(log, task, sha).value;
      q in log && QaRecord(q, task, sha) && forall c :: c in log && QaRecord(c, task, sha) ==> c.order <= q.order
    decreases |log|
  {
    if log != [] {
      assert log == log[..|log| - 1] + [log[|log| - 1]];
      NewestRecordsAreNewest(log[..|log| - 1], task, sha);
    }
  }

  lemma {:induction false} NewestCopyIsNewest(log: Log, p: Payload)
    ensures NewestCopy(log, p).None? ==> forall c :: c in log ==> !OwnerRecordOf(c, p)
    ensures NewestCopy(log, p).Some? ==>
      var best := NewestCopy(log, p).value;
      best in log && OwnerRecordOf(best, p) && forall c :: c in log && OwnerRecordOf(c, p) ==> c.order <= best.order
    decreases |log|
  {
    if log != [] {
      assert log == log[..|log| - 1] + [log[|log| - 1]];
      NewestCopyIsNewest(log[..|log| - 1], p);
    }
  }
}
