/** The handoff gate over the comment log of a pull request. A comment is
    modelled after parsing: its author, the rank of its (created_at, id) pair,
    the outcome of extracting a handoff, and which texts its body holds. */
module HandoffGate {
  import opened Labels
  import opened Records

  datatype Login = Owner | Bot | Stranger(name: string)

  datatype HandoffPhase =
    | ProductPlanning | PrototypeValidation | ImplementationReady | CodeReviewed
    | QaShort | QaAcceptance | OtherHandoff(name: string)

  /** The members of a handoff that any gate reads; `rest` is everything else. */
  datatype Payload = Payload(
    taskId: Option<string>, from: Option<AgentName>, to: Option<AgentName>,
    phase: Option<HandoffPhase>, sha: Option<Sha>, success: bool, blockers: bool,
    pr: Option<nat>, reviewPassed: bool, rest: string)

  datatype Parsed = NoHandoff | Malformed | Handoff(payload: Payload)

  /** Texts the gates look for, as a substring or as a whole line. */
  datatype Token =
    | TaskIs(task: string) | ShaIs(sha: Sha)
    | ClaimMarker | RepairMarker | RequeueMarker | PostQaMarker
    | AgentWorkreview | PhaseCodeReview | PhaseEscalationRepair
    | WaitingCi | WaitingExactShaCi | NextNewReview

  datatype PolicyName = ReleaseEnabled | StopAfterQa | OwnerApprovalRequired | OtherPolicy(name: string)

  datatype Terminal = Terminal(
    taskId: Option<string>, sha: Option<Sha>, policy: Option<PolicyName>, releaseDisabled: bool)

  datatype Comment = Comment(
    login: Login, order: int, handoff: Parsed,
    text: set<Token>, lines: set<Token>, terminal: Option<Terminal>)

  type Log = seq<Comment>

  datatype GateError =
    | MALFORMED_HANDOFF | HANDOFF_NOT_FOUND | HANDOFF_NOT_SUCCESS | HANDOFF_BLOCKED | HANDOFF_OTHER_SHA
    | OTHER_PR | REVIEW_PASS_MISSING | CI_NOT_PASSED | OWNER_WAIT_MISSING | REPAIR_RECORD_MISSING
    | UNSUPPORTED_TRANSITION

  datatype Verdict<+T> = Accept(value: T) | Reject(reason: GateError) {
    predicate IsFailure() { Reject? }
    function PropagateFailure<U>(): Verdict<U> requires Reject? { Reject(reason) }
    function Extract(): T requires Accept? { value }
  }

  datatype Query = Query(
    taskId: string, from: AgentName, to: AgentName, phase: HandoffPhase, sha: Sha, trusted: set<Login>)

  /* ---- latest_matching_handoff and validate_handoff ---- */

  predicate Routed(p: Payload, q: Query) {
    p.taskId == Some(q.taskId) && p.from == Some(q.from) && p.to == Some(q.to) && p.phase == Some(q.phase)
  }

  /** A trusted comment with a parsed handoff on the asked route. */
  predicate Candidate(c: Comment, q: Query) {
    c.login in q.trusted && c.handoff.Handoff? && Routed(c.handoff.payload, q)
  }

  predicate NamesSha(c: Comment, sha: Sha) { c.handoff.Handoff? && c.handoff.payload.sha == Some(sha) }

  /** Sort key: current-SHA records first, then the newest. */
  predicate Outranks(a: Comment, b: Comment, sha: Sha) {
    (NamesSha(a, sha) && !NamesSha(b, sha))
    || (NamesSha(a, sha) == NamesSha(b, sha) && a.order > b.order)
  }

  predicate Unreadable(log: Log, q: Query) {
    exists i :: 0 <= i < |log| && log[i].login in q.trusted && log[i].handoff.Malformed?
  }

  /** The highest candidate; the earliest in the list among equals. */
  function Latest(log: Log, q: Query): Option<Comment> {
    if log == [] then None
    else
      var best := Latest(log[..|log| - 1], q);
      var c := log[|log| - 1];
      if Candidate(c, q) && (best.None? || Outranks(c, best.value, q.sha)) then Some(c) else best
  }

  function LatestMatchingHandoff(log: Log, q: Query): Verdict<Payload> {
    if Unreadable(log, q) then Reject(MALFORMED_HANDOFF)
    else
      match Latest(log, q)
      case None => Reject(HANDOFF_NOT_FOUND)
      case Some(c) => if c.handoff.Handoff? then Accept(c.handoff.payload) else Reject(HANDOFF_NOT_FOUND)
  }

  function ValidateHandoff(log: Log, q: Query): Verdict<Payload> {
    var p :- LatestMatchingHandoff(log, q);
    if !p.success then Reject(HANDOFF_NOT_SUCCESS)
    else if p.blockers then Reject(HANDOFF_BLOCKED)
    else if p.sha != Some(q.sha) then Reject(HANDOFF_OTHER_SHA)
    else Accept(p)
  }

  /* ---- The same as a program: collect, sort in place, scan ---- */

  /** A stable insertion into a list sorted from the highest rank down. */
  function Insert(sorted: Log, c: Comment, sha: Sha): Log {
    if sorted == [] then [c]
    else if Outranks(c, sorted[0], sha) then [c] + sorted
    else [sorted[0]] + Insert(sorted[1..], c, sha)
  }

  function Ranked(log: Log, sha: Sha): Log {
    if log == [] then [] else Insert(Ranked(log[..|log| - 1], sha), log[|log| - 1], sha)
  }

  function Parses(log: Log, q: Query): Log {
    if log == [] then []
    else
      var c := log[|log| - 1];
      Parses(log[..|log| - 1], q) + if c.login in q.trusted && c.handoff.Handoff? then [c] else []
  }

  function FirstRouted(sorted: Log, q: Query): Option<Comment> {
    if sorted == [] then None
    else if sorted[0].handoff.Handoff? && Routed(sorted[0].handoff.payload, q) then Some(sorted[0])
    else FirstRouted(sorted[1..], q)
  }

  predicate Descending(s: Log, sha: Sha) {
    forall i, j :: 0 <= i < j < |s| ==> !Outranks(s[j], s[i], sha)
  }

  predicate AllParsed(s: Log, q: Query) {
    forall i :: 0 <= i < |s| ==> s[i].login in q.trusted && s[i].handoff.Handoff?
  }

  lemma {:induction false} InsertFacts(s: Log, c: Comment, q: Query)
    requires Descending(s, q.sha) && AllParsed(s, q)
    requires c.login in q.trusted && c.handoff.Handoff?
    ensures Descending(Insert(s, c, q.sha), q.sha) && AllParsed(Insert(s, c, q.sha), q)
    ensures forall x :: x in Insert(s, c, q.sha) ==> x == c || x in s
    ensures FirstRouted(Insert(s, c, q.sha), q) ==
      var f := FirstRouted(s, q);
      if Routed(c.handoff.payload, q) && (f.None? || Outranks(c, f.value, q.sha)) then Some(c) else f
    decreases |s|
  {
    if s == [] {
    } else if Outranks(c, s[0], q.sha) {
      assert ([c] + s)[1..] == s;
      FirstIsMember(s, q);
    } else {
      InsertFacts(s[1..], c, q);
      var tail := Insert(s[1..], c, q.sha);
      forall k | 0 <= k < |tail|
        ensures !Outranks(tail[k], s[0], q.sha)
      {
        assert tail[k] in tail;
      }
      assert ([s[0]] + tail)[1..] == tail;
    }
  }

  lemma {:induction false} FirstIsMember(s: Log, q: Query)
    ensures FirstRouted(s, q).Some? ==> FirstRouted(s, q).value in s
    decreases |s|
  {
    if s != [] {
      FirstIsMember(s[1..], q);
    }
  }

  /** Sorting every parsed record and scanning for the route finds the record
      that a single maximum pass finds. */
  lemma {:induction false} SortedScanFindsLatest(log: Log, q: Query)
    ensures Descending(Ranked(Parses(log, q), q.sha), q.sha) && AllParsed(Ranked(Parses(log, q), q.sha), q)
    ensures FirstRouted(Ranked(Parses(log, q), q.sha), q) == Latest(log, q)
    decreases |log|
  {
    if log != [] {
      var front, c := log[..|log| - 1], log[|log| - 1];
      SortedScanFindsLatest(front, q);
      var parsed := Parses(front, q);
      if c.login in q.trusted && c.handoff.Handoff? {
        assert (parsed + [c])[..|parsed|] == parsed;
        InsertFacts(Ranked(parsed, q.sha), c, q);
      } else {
        assert parsed + [] == parsed;
      }
    }
  }

  /** Where the insertion loop stops is where the record belongs. */
  lemma {:induction false} InsertAt(s: Log, c: Comment, sha: Sha, i: nat)
    requires i <= |s| && (forall j :: 0 <= j < i ==> !Outranks(c, s[j], sha))
    requires i < |s| ==> Outranks(c, s[i], sha)
    ensures Insert(s, c, sha) == s[..i] + [c] + s[i..]
    decreases i
  {
    if i > 0 {
      InsertAt(s[1..], c, sha, i - 1);
      assert s == [s[0]] + s[1..];
      assert s[1..][i - 1..] == s[i..] && [s[0]] + s[1..][..i - 1] == s[..i];
    }
  }

  method SortNewestFirst(parsed: Log, sha: Sha) returns (sorted: Log)
    ensures sorted == Ranked(parsed, sha)
  {
    sorted := [];
    for n := 0 to |parsed|
      invariant sorted == Ranked(parsed[..n], sha)
    {
      assert parsed[..n + 1][..n] == parsed[..n];
      var i := 0;
      while i < |sorted| && !Outranks(parsed[n], sorted[i], sha)
        invariant 0 <= i <= |sorted|
        invariant forall j :: 0 <= j < i ==> !Outranks(parsed[n], sorted[j], sha)
      {
        i := i + 1;
      }
      InsertAt(sorted, parsed[n], sha, i);
      sorted := sorted[..i] + [parsed[n]] + sorted[i..];
    }
    assert parsed[..|parsed|] == parsed;
  }

  method FindLatestMatchingHandoff(log: Log, q: Query) returns (r: Verdict<Payload>)
    ensures r == LatestMatchingHandoff(log, q)
  {
    var parsed: Log := [];
    for n := 0 to |log|
      invariant parsed == Parses(log[..n], q)
      invariant !Unreadable(log[..n], q)
    {
      assert log[..n + 1][..n] == log[..n];
      // Trust is established before parsing.
      if log[n].login in q.trusted {
        if log[n].handoff.Malformed? {
          return Reject(MALFORMED_HANDOFF);
        }
        if log[n].handoff.Handoff? {
          parsed := parsed + [log[n]];
        }
      }
    }
    assert log[..|log|] == log;
    SortedScanFindsLatest(log, q);
    var sorted := SortNewestFirst(parsed, q.sha);
    var n := 0;
    while n < |sorted|
      invariant 0 <= n <= |sorted|
      invariant FirstRouted(sorted, q) == FirstRouted(sorted[n..], q)
    {
      if Routed(sorted[n].handoff.payload, q) {
        return Accept(sorted[n].handoff.payload);
      }
      n := n + 1;
    }
    r := Reject(HANDOFF_NOT_FOUND);
  }

  /* ---- What the gate means ---- */

  predicate DistinctOrders(log: Log) {
    forall i, j :: 0 <= i < j < |log| ==> log[i].order != log[j].order
  }

  /** A trusted record with this task, route, phase and SHA. */
  predicate Record(c: Comment, q: Query) { Candidate(c, q) && NamesSha(c, q.sha) }

  /** Position `i` holds the greatest record of the log. */
  predicate GreatestRecord(log: Log, q: Query, i: int) {
    && 0 <= i < |log| && Record(log[i], q)
    && forall j :: 0 <= j < |log| && Record(log[j], q) ==> log[j].order <= log[i].order
  }

  predicate Succeeds(c: Comment) { c.handoff.Handoff? && c.handoff.payload.success && !c.handoff.payload.blockers }

  lemma {:induction false} LatestIsHighest(log: Log, q: Query)
    ensures Latest(log, q).None? ==> forall c :: c in log ==> !Candidate(c, q)
    ensures Latest(log, q).Some? ==>
      var best := Latest(log, q).value;
      && best in log && Candidate(best, q)
      && forall c :: c in log && Candidate(c, q) ==> !Outranks(c, best, q.sha)
    decreases |log|
  {
    if log != [] {
      var front, last := log[..|log| - 1], log[|log| - 1];
      assert log == front + [last];
      LatestIsHighest(front, q);
    }
  }

  /** The gate accepts exactly when every trusted marked comment parses and the
      greatest trusted record of this task, route, phase and SHA is a success
      without blockers; that record is what it returns. */
  lemma GateSpecification(log: Log, q: Query)
    requires DistinctOrders(log)
    ensures ValidateHandoff(log, q).Accept? <==>
      !Unreadable(log, q) && exists i :: GreatestRecord(log, q, i) && Succeeds(log[i])
    ensures forall i :: ValidateHandoff(log, q).Accept? && GreatestRecord(log, q, i) ==>
      ValidateHandoff(log, q) == Accept(log[i].handoff.payload)
  {
    LatestIsHighest(log, q);
    if Latest(log, q).Some? {
      var best := Latest(log, q).value;
      var b :| 0 <= b < |log| && log[b] == best;
      if NamesSha(best, q.sha) {
        assert GreatestRecord(log, q, b);
        forall i | GreatestRecord(log, q, i)
          ensures i == b
        {
          assert !Outranks(log[i], best, q.sha);
        }
      } else {
        forall i | 0 <= i < |log|
          ensures !Record(log[i], q)
        {
          assert log[i] in log;
        }
      }
    } else {
      forall i | 0 <= i < |log|
        ensures !Record(log[i], q)
      {
        assert log[i] in log;
      }
    }
  }

  /** The verdict depends only on which comments exist, not on their order in
      the list or on repetition. */
  lemma GateIgnoresListOrder(log: Log, other: Log, q: Query)
    requires DistinctOrders(log) && forall c :: c in log <==> c in other
    ensures ValidateHandoff(log, q) == ValidateHandoff(other, q)
  {
    LatestIsHighest(log, q);
    LatestIsHighest(other, q);
    forall i | 0 <= i < |log| ensures log[i] in other { assert log[i] in log; }
    forall i | 0 <= i < |other| ensures other[i] in log { assert other[i] in other; }
    if Latest(log, q).Some? && Latest(other, q).Some? {
      var a, b := Latest(log, q).value, Latest(other, q).value;
      assert !Outranks(a, b, q.sha) && !Outranks(b, a, q.sha);
      assert a in log && b in log;
    }
  }

  /** Nobody outside the trusted set, and no well-formed record of another
      commit, can change what the gate accepts. */
  lemma GateIgnoresNoise(before: Log, noise: Comment, after: Log, q: Query)
    requires DistinctOrders(before + [noise] + after)
    requires noise.login !in q.trusted || (!noise.handoff.Malformed? && !NamesSha(noise, q.sha))
    ensures ValidateHandoff(before + [noise] + after, q).Accept? <==> ValidateHandoff(before + after, q).Accept?
    ensures ValidateHandoff(before + after, q).Accept? ==>
      ValidateHandoff(before + [noise] + after, q) == ValidateHandoff(before + after, q)
  {
    var long, short := before + [noise] + after, before + after;
    forall i | 0 <= i < |short|
      ensures short[i] == long[if i < |before| then i else i + 1]
    {
    }
    assert DistinctOrders(short);
    LatestIsHighest(long, q);
    LatestIsHighest(short, q);
    assert forall c :: c in long <==> c in short || c == noise;
    assert long[|before|] == noise;
    assert Unreadable(long, q) <==> Unreadable(short, q) by {
      if Unreadable(long, q) {
        var i :| 0 <= i < |long| && long[i].login in q.trusted && long[i].handoff.Malformed?;
        assert short[if i < |before| then i else i - 1] == long[i];
      }
      if Unreadable(short, q) {
        var i :| 0 <= i < |short| && short[i].login in q.trusted && short[i].handoff.Malformed?;
        assert long[if i < |before| then i else i + 1] == short[i];
      }
    }
    if Latest(short, q).Some? && NamesSha(Latest(short, q).value, q.sha) {
      var a, b := Latest(long, q).value, Latest(short, q).value;
      assert !Outranks(a, b, q.sha) && !Outranks(b, a, q.sha);
    }
  }

  /* ---- independent_review_pass ---- */

  datatype Mark = ClaimMark | InvalidMark

  predicate Mentions(c: Comment, task: string, sha: Sha) { TaskIs(task) in c.text && ShaIs(sha) in c.text }

  predicate Carries(c: Comment, mark: Mark, task: string, sha: Sha) {
    && Mentions(c, task, sha)
    && match mark
       case ClaimMark =>
         c.login == Owner && ClaimMarker in c.text && AgentWorkreview in c.text && PhaseCodeReview in c.text
       case InvalidMark =>
         (c.login == Bot && PostQaMarker in c.text)
         || (c.login == Owner && (RepairMarker in c.text || RequeueMarker in c.text))
  }

  function Newest(log: Log, mark: Mark, task: string, sha: Sha): Option<int> {
    if log == [] then None
    else
      var best := Newest(log[..|log| - 1], mark, task, sha);
      var c := log[|log| - 1];
      if Carries(c, mark, task, sha) && (best.None? || c.order > best.value) then Some(c.order) else best
  }

  /** A fresh claim before the pass and after every invalidation. */
  predicate IndependentReviewPass(log: Log, p: Payload, c: Comment, task: string, sha: Sha) {
    && p.reviewPassed && c.login == Owner
    && var claim, invalid := Newest(log, ClaimMark, task, sha), Newest(log, InvalidMark, task, sha);
       claim.Some? && claim.value < c.order && (invalid.None? || claim.value > invalid.value)
  }

  predicate Largest(s: seq<int>, best: Option<int>) {
    if s == [] then best.None? else best.Some? && best.value in s && forall x :: x in s ==> x <= best.value
  }

  method Max(s: seq<int>) returns (m: int)
    requires s != []
    ensures m in s && forall x :: x in s ==> x <= m
  {
    m := s[0];
    for n := 0 to |s|
      invariant m in s && forall i :: 0 <= i < n ==> s[i] <= m
    {
      if s[n] > m {
        m := s[n];
      }
    }
  }

  method CheckIndependentReview(log: Log, p: Payload, c: Comment, task: string, sha: Sha) returns (pass: bool)
    ensures pass == IndependentReviewPass(log, p, c, task, sha)
  {
    if !p.reviewPassed || c.login != Owner {
      return false;
    }
    var claims: seq<int>, invalidated: seq<int> := [], [];
    for n := 0 to |log|
      invariant Largest(claims, Newest(log[..n], ClaimMark, task, sha))
      invariant Largest(invalidated, Newest(log[..n], InvalidMark, task, sha))
    {
      assert log[..n + 1][..n] == log[..n];
      var item := log[n];
      if (item.login == Owner || item.login == Bot) && Mentions(item, task, sha) {
        if item.login == Bot && PostQaMarker in item.text {
          invalidated := invalidated + [item.order];
        } else if item.login == Owner {
          if ClaimMarker in item.text && AgentWorkreview in item.text && PhaseCodeReview in item.text {
            claims := claims + [item.order];
          }
          if RepairMarker in item.text || RequeueMarker in item.text {
            invalidated := invalidated + [item.order];
          }
        }
      }
    }
    assert log[..|log|] == log;
    if claims == [] {
      return false;
    }
    var claim := Max(claims);
    if !(claim < c.order) {
      return false;
    }
    if invalidated == [] {
      return true;
    }
    var invalid := Max(invalidated);
    pass := claim > invalid;
  }
}
