/** The client's acquisition loop over its durable attempt journal, with a stop
    possible after every journal write and every request. */
module ClaimClient {
  import opened Records

  datatype Status = Attempting | Retryable | Exhausted | Stale | Acquired

  datatype Row = Row(identity: string, status: Status)

  /** What one acquire request comes back with. */
  datatype Response =
    | Granted            // a lease with enough time left
    | TooCloseToExpiry   // a lease the client must not use
    | Refused            // any other 4xx
    | Overloaded         // 429 or 5xx
    | Unreachable        // transport error
    | Garbled            // anything else that raises

  /** The journal of one worker and request, the attempt indices posted so far,
      and the effects left before the process stops. */
  datatype Client = Client(journal: map<nat, Row>, posts: seq<nat>, budget: nat)

  datatype Outcome = Won | GaveUp | AlreadyEnded | Failed | Invalid | Crashed

  function Recorded(c: Client, identity: string, i: nat, s: Status): Client {
    c.(journal := c.journal[i := Row(identity, s)], budget := if c.budget > 0 then c.budget - 1 else 0)
  }

  function Posted(c: Client, i: nat): Client {
    c.(posts := c.posts + [i], budget := if c.budget > 0 then c.budget - 1 else 0)
  }

  /** The status journalled for a failed attempt. */
  function FailureStatus(r: Response, i: nat, n: nat): Status {
    if r == Refused then Stale else if i + 1 == n then Exhausted else Retryable
  }

  /** One attempt; no outcome means that the next attempt follows. */
  function Attempt(c: Client, identity: string, answer: Response, i: nat, n: nat): (Client, Option<Outcome>) {
    if c.budget == 0 then (c, Some(Crashed))
    else
      var c1 := Recorded(c, identity, i, Attempting);
      if c1.budget == 0 then (c1, Some(Crashed))
      else
        var c2 := Posted(c1, i);
        if answer == TooCloseToExpiry || answer == Garbled then (c2, Some(Failed))
        else if c2.budget == 0 then (c2, Some(Crashed))
        else if answer == Granted then (Recorded(c2, identity, i, Acquired), Some(Won))
        else
          (Recorded(c2, identity, i, FailureStatus(answer, i, n)),
           if answer == Refused || i + 1 == n then Some(GaveUp) else None)
  }

  function Attempts(c: Client, identity: string, answers: seq<Response>, i: nat): (Client, Outcome)
    requires i <= |answers|
    decreases |answers| - i
  {
    if i == |answers| then (c, Invalid)
    else
      var (next, outcome) := Attempt(c, identity, answers[i], i, |answers|);
      if outcome.Some? then (next, outcome.value) else Attempts(next, identity, answers, i + 1)
  }

  /** `latest` is the highest journalled attempt, if any. */
  predicate IsLatest(journal: map<nat, Row>, latest: Option<nat>) {
    if latest.None? then journal == map[]
    else latest.value in journal && forall k :: k in journal ==> k <= latest.value
  }

  function Acquire(c: Client, identity: string, answers: seq<Response>, latest: Option<nat>): (Client, Outcome)
    requires IsLatest(c.journal, latest)
  {
    if answers == [] || exists k :: k in c.journal && c.journal[k].identity != identity then (c, Invalid)
    else if latest.None? then Attempts(c, identity, answers, 0)
    else
      var status := c.journal[latest.value].status;
      var start := if status == Retryable then latest.value + 1 else latest.value;
      if status == Exhausted || status == Stale then (c, AlreadyEnded)
      else if start > |answers| then (c, Invalid)
      else Attempts(c, identity, answers, start)
  }

  class AcquireLoop {
    var client: Client

    constructor (c: Client)
      ensures client == c
    {
      client := c;
    }

    /** ORDER BY attempt, last row. */
    method LatestAttempt() returns (latest: Option<nat>)
      ensures IsLatest(client.journal, latest)
    {
      latest := None;
      var pending := client.journal.Keys;
      while pending != {}
        invariant pending <= client.journal.Keys
        invariant latest.None? ==> pending == client.journal.Keys
        invariant latest.Some? ==> latest.value in client.journal
        invariant latest.Some? ==> forall k :: k in client.journal && k !in pending ==> k <= latest.value
        decreases |pending|
      {
        var k :| k in pending;
        pending := pending - {k};
        if latest.None? || k > latest.value {
          latest := Some(k);
        }
      }
    }

    method Run(identity: string, answers: seq<Response>) returns (outcome: Outcome, ghost latest: Option<nat>)
      modifies this
      ensures IsLatest(old(client).journal, latest)
      ensures (client, outcome) == Acquire(old(client), identity, answers, latest)
    {
      latest := None;
      if answers == [] || exists k :: k in client.journal && client.journal[k].identity != identity {
        latest := LatestAttempt();
        return Invalid, latest;
      }
      var previous := LatestAttempt();
      latest := previous;
      var i := 0;
      if previous.Some? {
        var status := client.journal[previous.value].status;
        if status == Exhausted || status == Stale {
          return AlreadyEnded, latest;
        }
        i := if status == Retryable then previous.value + 1 else previous.value;
        if i > |answers| {
          return Invalid, latest;
        }
      }
      ghost var first := i;
      while i < |answers|
        invariant first <= i <= |answers|
        invariant Attempts(old(client), identity, answers, first) == Attempts(client, identity, answers, i)
        decreases |answers| - i
      {
        if client.budget == 0 {
          return Crashed, latest;
        }
        client := Recorded(client, identity, i, Attempting);
        if client.budget == 0 {
          return Crashed, latest;
        }
        client := Posted(client, i);
        var answer := answers[i];
        if answer == TooCloseToExpiry || answer == Garbled {
          return Failed, latest;
        }
        if client.budget == 0 {
          return Crashed, latest;
        }
        if answer == Granted {
          client := Recorded(client, identity, i, Acquired);
          return Won, latest;
        }
        if answer == Refused {
          client := Recorded(client, identity, i, Stale);
          return GaveUp, latest;
        }
        client := Recorded(client, identity, i, if i == |answers| - 1 then Exhausted else Retryable);
        if i == |answers| - 1 {
          return GaveUp, latest;
        }
        i := i + 1;
      }
      outcome := Invalid;
    }
  }

  /* ---- The retry budget ---- */

  predicate Ended(s: Status) { s == Exhausted || s == Stale }

  /** The journal is a gapless prefix 0..m of the schedule, every row before the
      last is a recorded retryable failure, and posts never go back. */
  ghost predicate Disciplined(c: Client, n: nat, m: nat) {
    && m <= n
    && (forall i :: i in c.journal <==> 0 <= i < m)
    && (forall i :: 0 <= i < m - 1 ==> c.journal[i].status == Retryable)
    && (m == n && n > 0 ==> c.journal[m - 1].status != Retryable)
    && (forall i, j :: 0 <= i < j < |c.posts| ==> c.posts[i] <= c.posts[j])
    && (forall i :: 0 <= i < |c.posts| ==> c.posts[i] < m)
  }

  /** Attempt `i` may be journalled: it is the next one after a retryable
      failure, or the open last one. */
  ghost predicate MayRecord(c: Client, n: nat, m: nat, i: nat) {
    && Disciplined(c, n, m) && i < n && m <= i + 1 && i <= m
    && (i == m > 0 ==> c.journal[m - 1].status == Retryable)
  }

  lemma RecordKeeps(c: Client, identity: string, n: nat, m: nat, i: nat, s: Status)
    requires MayRecord(c, n, m, i) && (s == Retryable ==> i + 1 < n)
    ensures Disciplined(Recorded(c, identity, i, s), n, i + 1)
    ensures MayRecord(Recorded(c, identity, i, s), n, i + 1, i)
  {
  }

  lemma PostKeeps(c: Client, n: nat, m: nat, i: nat)
    requires MayRecord(c, n, m, i) && m == i + 1
    ensures MayRecord(Posted(c, i), n, m, i)
  {
  }

  lemma AttemptKeepsDiscipline(c: Client, identity: string, answer: Response, i: nat, n: nat, m: nat)
    requires MayRecord(c, n, m, i)
    ensures var (next, outcome) := Attempt(c, identity, answer, i, n);
      && Disciplined(next, n, if c.budget == 0 then m else i + 1)
      && c.posts <= next.posts
      && (outcome.None? ==> i + 1 < n && MayRecord(next, n, i + 1, i + 1))
  {
    if c.budget > 0 {
      var c1 := Recorded(c, identity, i, Attempting);
      RecordKeeps(c, identity, n, m, i, Attempting);
      var c2 := Posted(c1, i);
      PostKeeps(c1, n, i + 1, i);
      var s := if answer == Granted then Acquired else FailureStatus(answer, i, n);
      RecordKeeps(c2, identity, n, i + 1, i, s);
    }
  }

  lemma {:induction false} AttemptsKeepDiscipline(c: Client, identity: string, answers: seq<Response>, i: nat, m: nat)
    returns (m': nat)
    requires i <= |answers| && Disciplined(c, |answers|, m)
    requires i < |answers| ==> MayRecord(c, |answers|, m, i)
    ensures m <= m' && Disciplined(Attempts(c, identity, answers, i).0, |answers|, m')
    ensures c.posts <= Attempts(c, identity, answers, i).0.posts
    decreases |answers| - i
  {
    m' := m;
    if i < |answers| {
      AttemptKeepsDiscipline(c, identity, answers[i], i, |answers|, m);
      var (next, outcome) := Attempt(c, identity, answers[i], i, |answers|);
      if outcome.None? {
        m' := AttemptsKeepDiscipline(next, identity, answers, i + 1, i + 1);
      } else if c.budget > 0 {
        m' := i + 1;
      }
    }
  }

  /** One start of the process: what it is answered, and when it stops. */
  datatype Session = Session(answers: seq<Response>, budget: nat)

  function LatestOf(journal: map<nat, Row>, m: nat): Option<nat> { if m == 0 then None else Some(m - 1) }

  /** Any number of starts, stops and restarts under one schedule of `n` delays. */
  ghost predicate Restarts(c: Client, identity: string, n: nat, sessions: seq<Session>, end: Client)
    decreases |sessions|
  {
    if sessions == [] then end == c
    else
      && |sessions[0].answers| == n
      && exists latest: Option<nat> ::
           && IsLatest(c.journal, latest)
           && Restarts(Acquire(c.(budget := sessions[0].budget), identity, sessions[0].answers, latest).0,
                       identity, n, sessions[1..], end)
  }

  lemma AcquireKeepsDiscipline(c: Client, identity: string, answers: seq<Response>, latest: Option<nat>, m: nat)
    returns (m': nat)
    requires IsLatest(c.journal, latest)
    requires Disciplined(c, |answers|, m)
    ensures m <= m' && Disciplined(Acquire(c, identity, answers, latest).0, |answers|, m')
    ensures c.posts <= Acquire(c, identity, answers, latest).0.posts
    ensures m > 0 && Ended(c.journal[m - 1].status) ==> Acquire(c, identity, answers, latest).0 == c
  {
    m' := m;
    assert latest == LatestOf(c.journal, m) by {
      if m > 0 {
        assert m - 1 in c.journal;
      }
    }
    if answers != [] && (forall k :: k in c.journal ==> c.journal[k].identity == identity) {
      if m == 0 {
        m' := AttemptsKeepDiscipline(c, identity, answers, 0, 0);
      } else {
        var status := c.journal[m - 1].status;
        if !Ended(status) {
          m' := AttemptsKeepDiscipline(c, identity, answers, if status == Retryable then m else m - 1, m);
        }
      }
    }
  }

  /** Retry budget across restarts: through any crashes and restarts the journal
      stays a gapless prefix of the schedule with only retryable rows before the
      last, posts never return to an earlier attempt, and once the last row is
      exhausted or stale no restart posts or records anything again. */
  lemma {:induction false} RetryBudget(c: Client, identity: string, n: nat, sessions: seq<Session>, end: Client, m: nat)
    returns (m': nat)
    requires Disciplined(c, n, m) && Restarts(c, identity, n, sessions, end)
    ensures m <= m' && Disciplined(end, n, m') && c.posts <= end.posts
    ensures m > 0 && Ended(c.journal[m - 1].status) ==> end.journal == c.journal && end.posts == c.posts
    decreases |sessions|
  {
    m' := m;
    if sessions != [] {
      var resumed := c.(budget := sessions[0].budget);
      var latest: Option<nat> :|
        && IsLatest(c.journal, latest)
        && Restarts(Acquire(resumed, identity, sessions[0].answers, latest).0, identity, n, sessions[1..], end);
      m' := AcquireKeepsDiscipline(resumed, identity, sessions[0].answers, latest, m);
      m' := RetryBudget(Acquire(resumed, identity, sessions[0].answers, latest).0, identity, n, sessions[1..], end, m');
    }
  }

  /* ---- How an acquisition ends ---- */

  /** Worth another attempt: overload or no connection. */
  predicate Passing(r: Response) { r == Overloaded || r == Unreachable }

  /** The attempts from `i` on stop at `k`, the first answer that is final. */
  predicate StopsAt(answers: seq<Response>, i: nat, k: int) {
    i <= k < |answers| && !Passing(answers[k]) && forall j :: i <= j < k ==> Passing(answers[j])
  }

  /** Every attempt from `i` to `k` was posted, once, in order. */
  predicate PostedUpTo(c: Client, end: Client, i: nat, k: int) { end.posts == c.posts + Consecutive(i, k) }

  function Consecutive(i: nat, k: int): seq<nat>
    decreases k - i
  {
    if k < i then [] else [i] + Consecutive(i + 1, k)
  }

  /** How the attempts from `i` on end if the first final answer is at `k`. */
  predicate EndsAt(c: Client, answers: seq<Response>, i: nat, k: nat, end: Client, outcome: Outcome)
    requires k < |answers|
  {
    && PostedUpTo(c, end, i, k) && k in end.journal
    && (answers[k] == Granted ==> outcome == Won && end.journal[k].status == Acquired)
    && (answers[k] == Refused ==> outcome == GaveUp && end.journal[k].status == Stale)
    && (answers[k] == TooCloseToExpiry || answers[k] == Garbled ==>
          outcome == Failed && end.journal[k].status == Attempting)
  }

  /** How they end if there is none. */
  predicate RunsOut(c: Client, answers: seq<Response>, i: nat, end: Client, outcome: Outcome)
    requires answers != []
  {
    && outcome == GaveUp && PostedUpTo(c, end, i, |answers| - 1)
    && |answers| - 1 in end.journal && end.journal[|answers| - 1].status == Exhausted
  }

  lemma FinalAttempt(c: Client, identity: string, answers: seq<Response>, i: nat)
    requires i < |answers| && 3 <= c.budget && (Passing(answers[i]) ==> i + 1 == |answers|)
    ensures var (end, outcome) := Attempts(c, identity, answers, i);
      if Passing(answers[i]) then RunsOut(c, answers, i, end, outcome) else EndsAt(c, answers, i, i, end, outcome)
  {
    assert Consecutive(i, i) == [i];
  }

  lemma PassingAttempt(c: Client, identity: string, answers: seq<Response>, i: nat)
    requires i + 1 < |answers| && 3 <= c.budget && Passing(answers[i])
    ensures var next := Attempt(c, identity, answers[i], i, |answers|).0;
      && next.posts == c.posts + [i] && next.budget == c.budget - 3
      && Attempts(c, identity, answers, i) == Attempts(next, identity, answers, i + 1)
  {
  }

  /** An acquisition that the process survives ends by its first final answer: a
      lease long enough is won and journalled, a refusal ends as stale, an unusable
      answer fails with the attempt left open; without one the schedule ends as
      exhausted. It posts each attempt up to there once. */
  lemma {:induction false} AttemptsEndByFirstFinalAnswer(c: Client, identity: string, answers: seq<Response>, i: nat)
    requires i < |answers| && 3 * (|answers| - i) <= c.budget
    ensures var (end, outcome) := Attempts(c, identity, answers, i);
      && (forall k: nat :: StopsAt(answers, i, k) ==> EndsAt(c, answers, i, k, end, outcome))
      && ((forall j :: i <= j < |answers| ==> Passing(answers[j])) ==> RunsOut(c, answers, i, end, outcome))
    decreases |answers| - i
  {
    if Passing(answers[i]) && i + 1 < |answers| {
      PassingAttempt(c, identity, answers, i);
      var next := Attempt(c, identity, answers[i], i, |answers|).0;
      AttemptsEndByFirstFinalAnswer(next, identity, answers, i + 1);
      var (end, outcome) := Attempts(c, identity, answers, i);
      forall k: nat | StopsAt(answers, i, k)
        ensures EndsAt(c, answers, i, k, end, outcome)
      {
        assert StopsAt(answers, i + 1, k);
        PostsJoin(c, next, end, i, k);
      }
      if forall j :: i <= j < |answers| ==> Passing(answers[j]) {
        PostsJoin(c, next, end, i, |answers| - 1);
      }
    } else {
      FinalAttempt(c, identity, answers, i);
    }
  }

  lemma PostsJoin(c: Client, next: Client, end: Client, i: nat, k: int)
    requires next.posts == c.posts + [i] && i <= k
    ensures PostedUpTo(next, end, i + 1, k) ==> PostedUpTo(c, end, i, k)
  {
    assert c.posts + [i] + Consecutive(i + 1, k) == c.posts + ([i] + Consecutive(i + 1, k));
  }

  /** Whatever crashes: an acquisition that is won was answered with a lease long
      enough at the attempt it posted last, after nothing but passing failures. */
  lemma {:induction false} WonMeansGranted(c: Client, identity: string, answers: seq<Response>, i: nat)
    requires i <= |answers| && Attempts(c, identity, answers, i).1 == Won
    ensures var end := Attempts(c, identity, answers, i).0;
      exists k: nat ::
        && StopsAt(answers, i, k) && answers[k] == Granted && PostedUpTo(c, end, i, k)
        && k in end.journal && end.journal[k] == Row(identity, Acquired)
    decreases |answers| - i
  {
    var (next, outcome) := Attempt(c, identity, answers[i], i, |answers|);
    var end := Attempts(c, identity, answers, i).0;
    if outcome.None? {
      WonMeansGranted(next, identity, answers, i + 1);
      var k: nat :| StopsAt(answers, i + 1, k) && answers[k] == Granted && PostedUpTo(next, end, i + 1, k)
        && k in end.journal && end.journal[k] == Row(identity, Acquired);
      assert next.posts == c.posts + [i];
      PostsJoin(c, next, end, i, k);
      assert StopsAt(answers, i, k);
    } else {
      assert StopsAt(answers, i, i) && PostedUpTo(c, end, i, i);
    }
  }

  /** A new request that the process survives is won exactly when a lease long enough
      comes before any other final answer. */
  lemma NewRequestIsWonExactly(c: Client, identity: string, answers: seq<Response>)
    requires c.journal == map[] && answers != [] && 3 * |answers| <= c.budget
    ensures Acquire(c, identity, answers, None).1 == Won <==>
      exists k: nat :: StopsAt(answers, 0, k) && answers[k] == Granted
  {
    AttemptsEndByFirstFinalAnswer(c, identity, answers, 0);
    if Acquire(c, identity, answers, None).1 == Won {
      WonMeansGranted(c, identity, answers, 0);
    }
  }

  /** Where a restarted request goes on: after a retryable failure with the next
      attempt, at an open or acquired attempt with the same one, never after the
      end, and never under another binding. */
  lemma RestartGoesOn(c: Client, identity: string, answers: seq<Response>, latest: nat)
    requires IsLatest(c.journal, Some(latest)) && answers != []
    ensures var (end, outcome) := Acquire(c, identity, answers, Some(latest));
      var status := c.journal[latest].status;
      && ((exists k :: k in c.journal && c.journal[k].identity != identity) ==> end == c && outcome == Invalid)
      && ((forall k :: k in c.journal ==> c.journal[k].identity == identity) ==>
            && (status == Exhausted || status == Stale ==> end == c && outcome == AlreadyEnded)
            && (status == Retryable && latest < |answers| ==>
                  (end, outcome) == Attempts(c, identity, answers, latest + 1))
            && ((status == Attempting || status == Acquired) && latest <= |answers| ==>
                  (end, outcome) == Attempts(c, identity, answers, latest)))
  {
  }
}
