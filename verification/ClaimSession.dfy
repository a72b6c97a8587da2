/** The life of one lease on one claim, with a crash or a lost response possible
    after every effect of every call. A call runs with a budget: the number of
    effects that happen before it stops. What survives is the session. Calls
    under one lease follow one another; everybody may push and comment between. */
module ClaimSession {
  import opened Labels
  import opened Records
  import opened HandoffGate
  import opened EvidenceGate
  import opened StateProjection
  import opened ClaimApi
  import opened StateWriter
  import LeaseStore
  import HeadTransition

  /** Durable state: the row's binding and checkpoint, whether it was finished,
      the PR, the comment log, and how often each call changed labels or posted:
      `retries` and `parked` count retry and other decisions that landed, and
      `reopened` the retries that landed on a start not yet recorded as applied. */
  datatype Session = Session(
    b: Binding, pr: PullRequest, log: Log, cp: Checkpoint, closed: bool,
    starts: nat, advances: nat, markers: nat, retries: nat, reopened: nat, parked: nat)

  /** This lease's start was recorded as applied. */
  predicate StartApplied(l: Lease, cp: Checkpoint) { ReplaysStart(cp, l) && cp.start.value.applied }

  function StartEffects(l: Lease, s: Session, runs: Runs, budget: nat): Session {
    if s.closed then s
    else
      match StartPlan(s.b, l, s.cp, s.pr, s.log, runs)
      case Refuse(_) => s
      case Write(audit) =>
        var before, after := s.pr.labels, Started(s.b, s.pr.labels);
        if budget == 0 then s
        else
          var planned := s.(cp := s.cp.(start := Some(audit)));
          if before != after && (budget == 1 || Refused(before, after).Some?) then planned
          else
            var written := if before == after then planned
                           else planned.(pr := planned.pr.(labels := after), starts := planned.starts + 1);
            if budget == (if before == after then 1 else 2) then written
            else written.(cp := written.cp.(start := Some(audit.(applied := true))))
  }

  /** The comment that asks for a new review of a report commit. */
  function PostQaComment(b: Binding, author: Login, order: int): Comment {
    var tokens := {PostQaMarker, TaskIs(b.taskId), ShaIs(b.sha), NextNewReview};
    Comment(author, order, NoHandoff, tokens, tokens, None)
  }

  predicate MarkerPosted(b: Binding, log: Log) { exists i :: 0 <= i < |log| && PostQaRequest(log[i], b) }

  predicate NeedsMarker(s: Session, runs: Runs) {
    MovedHeadInQa(s.b, s.cp) && SuccessfulCurrentCi(runs, s.b.sha, s.b.headRef).Some? && !MarkerPosted(s.b, s.log)
  }

  function Marked(s: Session, author: Login): Session {
    s.(log := s.log + [PostQaComment(s.b, author, |s.log|)], markers := s.markers + 1)
  }

  function AdvanceEffects(l: Lease, s: Session, runs: Runs, author: Login, budget: nat): Session {
    if s.closed || Current(s.b, s.pr, true, ProjectedRoute(s.cp, l)).Some? then s
    else if NeedsMarker(s, runs) then
      if budget == 0 then s else ProjectionEffects(l, Marked(s, author), runs, budget - 1)
    else ProjectionEffects(l, s, runs, budget)
  }

  function ProjectionEffects(l: Lease, s: Session, runs: Runs, budget: nat): Session {
    match AdvancePlan(s.b, l, s.cp, s.pr, s.log, runs)
    case Refuse(_) => s
    case Write(audit) =>
      var before, after := s.pr.labels, audit.after;
      if budget == 0 then s
      else
        var planned := s.(cp := s.cp.(projection := Some(audit)));
        if before != after && (budget == 1 || Refused(before, after).Some?) then planned
        else
          var written := if before == after then planned
                         else planned.(pr := planned.pr.(labels := after), advances := planned.advances + 1);
          var rest := budget - (if before == after then 1 else 2);
          if rest == 0 then written
          else
            var applied := written.(cp := written.cp.(projection := Some(audit.(applied := true))));
            if rest == 1 then applied else applied.(closed := true)
  }

  /** May this lease publish now? Its own start is applied, it runs, and it is
      not advancing yet. */
  predicate MayPublish(l: Lease, s: Session) {
    && !s.closed && Current(s.b, s.pr, true, None).None? && Status(Running) in s.pr.labels
    && StartApplied(l, s.cp) && s.cp.projection.None?
  }

  /** A code worker declares the commit it is about to push. */
  function DeclareEffects(l: Lease, s: Session, to: Sha): Session {
    if s.b.phase !in {Implementation, EscalationRepair} || !MayPublish(l, s) || to == s.b.sha
       || (s.cp.head.Some? && !s.cp.head.value.applied)
    then s
    else s.(cp := s.cp.(head := Some(HeadIntent(s.b.sha, to, s.pr.baseRef, false))))
  }

  /** A heartbeat or confirmation that finds the declared commit as live head
      rebinds the lease to it. */
  function RefreshEffects(s: Session): Session {
    if s.closed || s.cp.head.None? || s.cp.head.value.applied || s.pr.headSha == s.b.sha
       || !HeadTransition.Declared(s.b, s.cp.head.value, s.pr)
    then s
    else
      s.(b := LeaseStore.Rebound(s.b, s.cp.head.value.to), cp := HeadTransition.Carried(s.cp, s.cp.head.value))
  }

  /** Reports land as commit `to` (the bound one when they are unchanged), then
      the lease is bound to it. */
  function ReportEffects(l: Lease, s: Session, to: Sha, digest: string, budget: nat): Session {
    if s.b.phase !in {Prototype, Qa} || !MayPublish(l, s) || s.cp.report.Some? || budget == 0 then s
    else
      var pushed := s.(pr := s.pr.(headSha := to));
      if budget == 1 then pushed
      else
        var cp := s.cp.(report := Some(ReportPublication(s.b.sha, to, digest)));
        if to == s.b.sha then pushed.(cp := cp)
        else pushed.(b := LeaseStore.Rebound(s.b, to), cp := cp.(projection := None, recovery := None))
  }

  /** The labels of a decision land and are counted. */
  function Decided(l: Lease, s: Session, d: WorkerDecision, after: LabelSet): Session {
    s.(pr := s.pr.(labels := after),
       retries := s.retries + if d.RetryPhase? then 1 else 0,
       reopened := s.reopened + if d.RetryPhase? && s.starts > 0 && !StartApplied(l, s.cp) then 1 else 0,
       parked := s.parked + if d.RetryPhase? then 0 else 1)
  }

  /** Retry, block or ask for repair, then finish the row. */
  function DecisionEffects(l: Lease, s: Session, d: WorkerDecision, budget: nat): Session {
    if s.closed then s
    else
      match DecisionPlan(s.b, l, s.pr, d)
      case Refuse(_) => s
      case Write(audit) =>
        if budget == 0 then s
        else
          var planned := s.(cp := s.cp.(decision := Some(audit)));
          if budget == 1 || Refused(s.pr.labels, audit.after).Some? then planned
          else
            var written := Decided(l, planned, d, audit.after);
            if budget == 2 then written else written.(closed := true)
  }

  /** What happens to a session: the lease's own calls, and other people. The row
      is closed by a release, by a heartbeat that finds the PR changed, or by
      the end of the lease. */
  datatype Event =
    | StartCall(runs: Runs, startBudget: nat)
    | AdvanceCall(runs: Runs, author: Login, advanceBudget: nat)
    | DeclareCall(to: Sha)
    | RefreshCall
    | ReportCall(commit: Sha, digest: string, reportBudget: nat)
    | DecisionCall(decision: WorkerDecision, decisionBudget: nat)
    | CloseCall
    | PushArrives(sha: Sha)
    | CommentArrives(comment: Comment)
    | LabelEdit(labels: LabelSet)

  function Happen(l: Lease, s: Session, e: Event): Session {
    match e
    case StartCall(runs, budget) => StartEffects(l, s, runs, budget)
    case AdvanceCall(runs, author, budget) => AdvanceEffects(l, s, runs, author, budget)
    case DeclareCall(to) => DeclareEffects(l, s, to)
    case RefreshCall => RefreshEffects(s)
    case ReportCall(commit, digest, budget) => ReportEffects(l, s, commit, digest, budget)
    case DecisionCall(d, budget) => DecisionEffects(l, s, d, budget)
    case CloseCall => s.(closed := true)
    case PushArrives(sha) => s.(pr := s.pr.(headSha := sha))
    case CommentArrives(c) => s.(log := s.log + [c])
    case LabelEdit(labels) => s.(pr := s.pr.(labels := labels))
  }

  function History(l: Lease, s: Session, events: seq<Event>): Session {
    if events == [] then s else Happen(l, History(l, s, events[..|events| - 1]), events[|events| - 1])
  }

  /* ---- The endpoints as programs over the durable row ---- */

  class Row {
    const lease: Lease
    var session: Session
    var budget: nat

    constructor (l: Lease, s: Session)
      ensures lease == l && session == s
    {
      lease, session, budget := l, s, 0;
    }

    /** One effect, unless the process has stopped. */
    method Spend() returns (alive: bool)
      modifies `budget
      ensures alive == (old(budget) > 0) && budget == if alive then old(budget) - 1 else 0
    {
      alive := budget > 0;
      if alive {
        budget := budget - 1;
      }
    }

    method Start(runs: Runs)
      modifies this
      ensures session == StartEffects(lease, old(session), runs, old(budget))
    {
      if session.closed {
        return;
      }
      var plan := StartPlan(session.b, lease, session.cp, session.pr, session.log, runs);
      if plan.Refuse? {
        return;
      }
      var audit := plan.value;
      var before, after := session.pr.labels, (session.pr.labels - {Status(Todo)}) + RunningRoute(session.b);
      var alive := Spend();
      if !alive {
        return;
      }
      session := session.(cp := session.cp.(start := Some(audit)));
      if before != after {
        alive := Spend();
        if !alive || Refused(before, after).Some? {
          return;
        }
        session := session.(pr := session.pr.(labels := after), starts := session.starts + 1);
      }
      alive := Spend();
      if !alive {
        return;
      }
      session := session.(cp := session.cp.(start := Some(audit.(applied := true))));
    }

    method Advance(runs: Runs, author: Login)
      modifies this
      ensures session == AdvanceEffects(lease, old(session), runs, author, old(budget))
    {
      if session.closed || Current(session.b, session.pr, true, ProjectedRoute(session.cp, lease)).Some? {
        return;
      }
      if MovedHeadInQa(session.b, session.cp)
         && SuccessfulCurrentCi(runs, session.b.sha, session.b.headRef).Some?
      {
        var posted := MarkerIsPosted();
        if !posted {
          var alive := Spend();
          if !alive {
            return;
          }
          session := session.(log := session.log + [PostQaComment(session.b, author, |session.log|)],
                              markers := session.markers + 1);
        }
      }
      Project(runs);
    }

    method MarkerIsPosted() returns (posted: bool)
      ensures posted == MarkerPosted(session.b, session.log)
    {
      posted := false;
      for n := 0 to |session.log|
        invariant posted <==> exists i :: 0 <= i < n && PostQaRequest(session.log[i], session.b)
      {
        if PostQaRequest(session.log[n], session.b) {
          posted := true;
        }
      }
    }

    /** Plan durably, write the labels, record it, close the row. */
    method Project(runs: Runs)
      modifies this
      ensures session == ProjectionEffects(lease, old(session), runs, old(budget))
    {
      var plan := AdvancePlan(session.b, lease, session.cp, session.pr, session.log, runs);
      if plan.Refuse? {
        return;
      }
      var audit := plan.value;
      var before := session.pr.labels;
      var alive := Spend();
      if !alive {
        return;
      }
      session := session.(cp := session.cp.(projection := Some(audit)));
      if before != audit.after {
        alive := Spend();
        if !alive || Refused(before, audit.after).Some? {
          return;
        }
        session := session.(pr := session.pr.(labels := audit.after), advances := session.advances + 1);
      }
      alive := Spend();
      if !alive {
        return;
      }
      session := session.(cp := session.cp.(projection := Some(audit.(applied := true))));
      alive := Spend();
      if !alive {
        return;
      }
      session := session.(closed := true);
    }

    method PrepareHead(to: Sha)
      modifies `session
      ensures session == DeclareEffects(lease, old(session), to)
    {
      if session.b.phase != Implementation && session.b.phase != EscalationRepair {
        return;
      }
      if !MayPublish(lease, session) || to == session.b.sha {
        return;
      }
      if session.cp.head.Some? && !session.cp.head.value.applied {
        return;
      }
      session := session.(cp := session.cp.(head := Some(HeadIntent(session.b.sha, to, session.pr.baseRef, false))));
    }

    method PublishReports(to: Sha, digest: string)
      modifies this
      ensures session == ReportEffects(lease, old(session), to, digest, old(budget))
    {
      if session.b.phase != Prototype && session.b.phase != Qa {
        return;
      }
      if !MayPublish(lease, session) || session.cp.report.Some? {
        return;
      }
      var from := session.b.sha;
      var alive := Spend();
      if !alive {
        return;
      }
      session := session.(pr := session.pr.(headSha := to));
      alive := Spend();
      if !alive {
        return;
      }
      session := session.(cp := session.cp.(report := Some(ReportPublication(from, to, digest))));
      if to != from {
        session := session.(b := LeaseStore.Rebound(session.b, to),
                            cp := session.cp.(projection := None, recovery := None));
      }
    }

    method Decide(d: WorkerDecision)
      modifies this
      ensures session == DecisionEffects(lease, old(session), d, old(budget))
    {
      if session.closed {
        return;
      }
      var plan := DecisionPlan(session.b, lease, session.pr, d);
      if plan.Refuse? {
        return;
      }
      var audit := plan.value;
      var alive := Spend();
      if !alive {
        return;
      }
      session := session.(cp := session.cp.(decision := Some(audit)));
      alive := Spend();
      if !alive || Refused(session.pr.labels, audit.after).Some? {
        return;
      }
      session := Decided(lease, session, d, audit.after);
      alive := Spend();
      if alive {
        session := session.(closed := true);
      }
    }

    method Release()
      modifies `session
      ensures session == old(session).(closed := true)
    {
      session := session.(closed := true);
    }
  }

  /** The rebinding is the store's: on a row that holds the session's binding and
      checkpoint, a refresh that is not refused leaves what `RefreshEffects` says. */
  lemma RefreshIsTheStoresMove(s: Session, db: LeaseStore.Db, d: DeliveryId, l: Lease, t: Time, t': Time)
    requires !s.closed && HeadTransition.ExternalRow(db, d)
    requires HeadTransition.BindingOf(db, d) == s.b && HeadTransition.CheckpointOf(db, d) == s.cp
    requires !HeadTransition.RefreshDeclaredHead(db, db.events[d], d, l, s.pr, t, t').1.Lost?
    ensures var next := HeadTransition.RefreshDeclaredHead(db, db.events[d], d, l, s.pr, t, t').0;
      && HeadTransition.ExternalRow(next, d)
      && HeadTransition.BindingOf(next, d) == RefreshEffects(s).b
      && HeadTransition.CheckpointOf(next, d) == RefreshEffects(s).cp
  {
  }

  /* ---- At most once, up to the lease's own decisions ---- */

  /** A row as the acquisition inserts it: no checkpoint, nothing counted. */
  predicate FreshRow(s: Session) {
    && ClaimPhase(s.b.phase) && !s.closed && s.cp == NO_CHECKPOINT
    && s.starts == 0 && s.advances == 0 && s.markers == 0
    && s.retries == 0 && s.reopened == 0 && s.parked == 0
  }

  /** The same claim, perhaps at another commit. */
  predicate SameClaim(b: Binding, b': Binding) { b' == b.(sha := b'.sha, operationKey := b'.operationKey) }

  /** Where an advance of this session leads. */
  function Destination(s: Session): LabelSet {
    if MovedHeadInQa(s.b, s.cp) then POST_QA_ROUTE else NextRoute(s.b.phase)
  }

  function AsTodo(s0: Session): LabelSet { Rerouted(s0.pr.labels, TodoRoute(s0.b)) }
  function AsRunning(s0: Session): LabelSet { Rerouted(s0.pr.labels, RunningRoute(s0.b)) }

  predicate Workable(s0: Session) {
    Route(s0.pr.labels) == TodoRoute(s0.b) || Route(s0.pr.labels) == RunningRoute(s0.b)
  }

  /** Labels on which no call of the claim does anything any more. */
  predicate Stuck(b: Binding, labels: LabelSet) {
    || Alarms(labels) != {}
    || (Route(labels) == WorkRoute(Workreview, EscalationRepair, Todo) && b.phase != EscalationRepair)
  }

  /** The label sets the life of a lease without outside label edits can show,
      with the counts that led there. */
  predicate Shows(s0: Session, s: Session) {
    var labels := s.pr.labels;
    || (labels == s0.pr.labels && s.starts == s.advances == s.parked == s.retries == 0)
    || (labels == AsTodo(s0) && Workable(s0) && s.advances == s.parked == 0 && s.retries > 0)
    || (labels == AsRunning(s0) && Workable(s0) && s.advances == s.parked == 0 && s.starts > 0)
    || (labels == Rerouted(s0.pr.labels, Destination(s)) && Workable(s0) && s.advances == 1 && s.parked == 0
        && s.cp.projection.Some?)
    || (Stuck(s.b, labels) && Workable(s0) && s.advances == 0 && s.parked == 1)
  }

  predicate StartAuditFits(l: Lease, s0: Session, s: Session) {
    s.cp.start.Some? ==>
      && s.cp.start.value.lease == l && Workable(s0)
      && s.cp.start.value.before == AsTodo(s0) && s.cp.start.value.after == AsRunning(s0)
  }

  predicate ProjectionFits(l: Lease, s: Session) {
    s.cp.projection.Some? ==>
      s.cp.projection.value.lease == l && s.cp.projection.value.workflowAfter == Destination(s)
  }

  /** Only code phases declare commits, and a marker names the report commit the
      lease is bound to. */
  predicate HeadFits(s: Session) {
    && (s.cp.head.Some? ==> s.b.phase in {Implementation, EscalationRepair})
    && s.markers <= 1
    && (s.markers == 1 ==> MovedHeadInQa(s.b, s.cp) && MarkerPosted(s.b, s.log))
  }

  /** Starts and reopening retries alternate, as far as the start is unapplied. */
  predicate CountsFit(l: Lease, s: Session) {
    && s.reopened <= s.retries && s.reopened <= s.starts <= s.reopened + 1
    && (s.starts > 0 ==> s.cp.start.Some?)
    && (!StartApplied(l, s.cp) && Route(s.pr.labels) == TodoRoute(s.b) ==> s.starts == s.reopened)
    && (!StartApplied(l, s.cp) && Route(s.pr.labels) == RunningRoute(s.b) && s.starts > 0 ==> s.starts == s.reopened + 1)
  }

  predicate OnTrack(l: Lease, s0: Session, s: Session) {
    && SameClaim(s0.b, s.b) && Shows(s0, s) && StartAuditFits(l, s0, s) && ProjectionFits(l, s) && HeadFits(s)
    && CountsFit(l, s)
  }

  lemma StartedRoute(b: Binding, labels: LabelSet)
    requires Route(labels) == TodoRoute(b) || Route(labels) == RunningRoute(b)
    ensures Route(Started(b, labels)) == RunningRoute(b)
    ensures Started(b, labels) == Rerouted(labels, RunningRoute(b))
  {
    forall x
      ensures x in Started(b, labels) <==> x in Rerouted(labels, RunningRoute(b))
    {
      assert x in Route(labels) <==> x in labels && IsRoute(x);
    }
    RouteSwap(labels, RunningRoute(b));
  }

  lemma ReroutedTwice(labels: LabelSet, first: LabelSet, second: LabelSet)
    requires forall x :: x in first + second ==> IsRoute(x)
    ensures Route(Rerouted(labels, first)) == first
    ensures Rerouted(Rerouted(labels, first), second) == Rerouted(labels, second)
  {
    RouteSwap(labels, first);
  }

  lemma SameRoute(labels: LabelSet)
    ensures Rerouted(labels, Route(labels)) == labels
  {
  }

  /** The label sets of a lease are told apart by their routes, and each is
      reached from any other by one swap. */
  lemma LabelFacts(s0: Session, s: Session)
    requires ClaimPhase(s0.b.phase) && SameClaim(s0.b, s.b)
    ensures Route(AsTodo(s0)) == TodoRoute(s.b) && Route(AsRunning(s0)) == RunningRoute(s.b)
    ensures Started(s.b, AsTodo(s0)) == AsRunning(s0) == Started(s.b, AsRunning(s0))
    ensures Rerouted(AsRunning(s0), TodoRoute(s.b)) == AsTodo(s0)
    ensures Route(s0.pr.labels) == TodoRoute(s.b) ==> s0.pr.labels == AsTodo(s0)
    ensures Route(s0.pr.labels) == RunningRoute(s.b) ==> s0.pr.labels == AsRunning(s0)
    ensures Status(Todo) in TodoRoute(s.b) && Status(Todo) !in RunningRoute(s.b)
  {
    var first := s0.pr.labels;
    NextRoutesAreRoutes(s0.b);
    ReroutedTwice(first, TodoRoute(s0.b), RunningRoute(s0.b));
    ReroutedTwice(first, RunningRoute(s0.b), TodoRoute(s0.b));
    ReroutedTwice(first, RunningRoute(s0.b), RunningRoute(s0.b));
    StartedRoute(s0.b, AsTodo(s0));
    StartedRoute(s0.b, AsRunning(s0));
    SameRoute(first);
  }

  lemma DestinationFacts(s0: Session, s: Session)
    requires ClaimPhase(s0.b.phase) && SameClaim(s0.b, s.b)
    ensures Destination(s) != TodoRoute(s.b) && Destination(s) != RunningRoute(s.b)
    ensures Destination(s) != WorkRoute(Workreview, EscalationRepair, Todo)
    ensures Route(Rerouted(s0.pr.labels, Destination(s))) == Destination(s)
    ensures Rerouted(Rerouted(s0.pr.labels, Destination(s)), Destination(s)) == Rerouted(s0.pr.labels, Destination(s))
    ensures Rerouted(AsRunning(s0), Destination(s)) == Rerouted(s0.pr.labels, Destination(s))
    ensures Rerouted(AsTodo(s0), Destination(s)) == Rerouted(s0.pr.labels, Destination(s))
  {
    AdvanceLeavesPhase(s.b, Destination(s));
    NextRoutesAreRoutes(s.b);
    ReroutedTwice(s0.pr.labels, Destination(s), Destination(s));
    ReroutedTwice(s0.pr.labels, RunningRoute(s0.b), Destination(s));
    ReroutedTwice(s0.pr.labels, TodoRoute(s0.b), Destination(s));
    assert Phase(EscalationRepair) !in Destination(s);
  }

  /** A repair request leaves every route of the claim behind. */
  lemma RepairRouteIsForeign(b: Binding)
    requires b.phase != EscalationRepair
    ensures WorkRoute(Workreview, EscalationRepair, Todo) != TodoRoute(b)
    ensures WorkRoute(Workreview, EscalationRepair, Todo) != RunningRoute(b)
  {
    assert Phase(EscalationRepair) in WorkRoute(Workreview, EscalationRepair, Todo);
  }

  /** Where the route of a quiet tracked session is one of the claim's own, its
      labels are known. */
  lemma RouteTellsLabels(s0: Session, s: Session)
    requires ClaimPhase(s0.b.phase) && SameClaim(s0.b, s.b) && Shows(s0, s) && Alarms(s.pr.labels) == {}
    ensures Route(s.pr.labels) == TodoRoute(s.b) ==> s.pr.labels == AsTodo(s0)
    ensures Route(s.pr.labels) == RunningRoute(s.b) ==> s.pr.labels == AsRunning(s0)
    ensures Route(s.pr.labels) == TodoRoute(s.b) || Route(s.pr.labels) == RunningRoute(s.b) ==>
      Workable(s0) && s.advances == 0 && s.parked == 0
    ensures Route(s.pr.labels) == Destination(s) ==> s.parked == 0
  {
    LabelFacts(s0, s);
    DestinationFacts(s0, s);
    if s.b.phase != EscalationRepair {
      RepairRouteIsForeign(s.b);
    }
  }

  /* ---- `start` ---- */

  /** `t` is `s` after some of the effects of starting under `audit`. */
  predicate Starting(s: Session, t: Session, audit: Audit) {
    && t == s.(pr := s.pr.(labels := t.pr.labels), cp := s.cp.(start := t.cp.start), starts := t.starts)
    && (t.cp.start == s.cp.start || t.cp.start == Some(audit) || t.cp.start == Some(audit.(applied := true)))
    && ((t.pr.labels == s.pr.labels && t.starts == s.starts)
        || (t.pr.labels == Started(s.b, s.pr.labels) && t.starts == s.starts + 1
            && t.pr.labels != s.pr.labels && t.cp.start != None))
  }

  lemma StartShape(l: Lease, s: Session, runs: Runs, budget: nat)
    ensures var t, plan := StartEffects(l, s, runs, budget), StartPlan(s.b, l, s.cp, s.pr, s.log, runs);
      if plan.Write? then Starting(s, t, plan.value) else t == s
  {
  }

  /** The audit of a tracked session's start, and the labels it finds. */
  predicate StartFits(l: Lease, s0: Session, s: Session, audit: Audit) {
    && audit.lease == l && Workable(s0) && audit.before == AsTodo(s0) && audit.after == AsRunning(s0)
    && s.advances == 0 && s.parked == 0
    && (s.pr.labels == AsRunning(s0) || (s.pr.labels == AsTodo(s0) && !StartApplied(l, s.cp)))
    && (StartApplied(l, s.cp) ==> audit.applied)
  }

  lemma PlannedStart(l: Lease, s0: Session, s: Session, runs: Runs)
    requires FreshRow(s0) && OnTrack(l, s0, s)
    requires StartPlan(s.b, l, s.cp, s.pr, s.log, runs).Write?
    ensures StartFits(l, s0, s, StartPlan(s.b, l, s.cp, s.pr, s.log, runs).value)
  {
    RouteTellsLabels(s0, s);
    LabelFacts(s0, s);
  }

  lemma StartingKeepsTrack(l: Lease, s0: Session, s: Session, t: Session, audit: Audit)
    requires FreshRow(s0) && OnTrack(l, s0, s) && Starting(s, t, audit) && StartFits(l, s0, s, audit)
    ensures OnTrack(l, s0, t)
  {
    LabelFacts(s0, s);
    assert Destination(t) == Destination(s);
  }

  lemma {:induction false} StartKeepsTrack(l: Lease, s0: Session, s: Session, runs: Runs, budget: nat)
    requires FreshRow(s0) && OnTrack(l, s0, s)
    ensures OnTrack(l, s0, StartEffects(l, s, runs, budget))
  {
    StartShape(l, s, runs, budget);
    var plan := StartPlan(s.b, l, s.cp, s.pr, s.log, runs);
    if plan.Write? {
      PlannedStart(l, s0, s, runs);
      StartingKeepsTrack(l, s0, s, StartEffects(l, s, runs, budget), plan.value);
    }
  }

  /* ---- `advance` ---- */

  /** What an accepted advance of a tracked session would write. */
  predicate AdvanceFits(l: Lease, s0: Session, s: Session, audit: Audit) {
    && audit.lease == l && audit.workflowAfter == Destination(s) && s.parked == 0
    && audit.after == Rerouted(s0.pr.labels, Destination(s))
    && (s.pr.labels != audit.after ==> s.advances == 0 && Workable(s0))
  }

  lemma PlannedAdvance(l: Lease, s0: Session, s: Session, runs: Runs)
    requires FreshRow(s0) && OnTrack(l, s0, s)
    requires AdvancePlan(s.b, l, s.cp, s.pr, s.log, runs).Write?
    ensures AdvanceFits(l, s0, s, AdvancePlan(s.b, l, s.cp, s.pr, s.log, runs).value)
  {
    AdvanceTargets(s.b, s.cp, s.log, runs);
    RouteTellsLabels(s0, s);
    DestinationFacts(s0, s);
    SameRoute(s.pr.labels);
  }

  /** `t` is `s` after some of the effects of projecting `audit`. */
  predicate Projecting(s: Session, t: Session, audit: Audit) {
    && t == s.(pr := s.pr.(labels := t.pr.labels), cp := s.cp.(projection := t.cp.projection),
               advances := t.advances, closed := t.closed)
    && ((t.cp.projection == s.cp.projection && t.pr.labels == s.pr.labels && t.advances == s.advances)
        || ((t.cp.projection == Some(audit) || t.cp.projection == Some(audit.(applied := true)))
            && ((t.pr.labels == s.pr.labels && t.advances == s.advances)
                || (t.pr.labels == audit.after && t.advances == s.advances + 1 && s.pr.labels != audit.after))))
  }

  lemma ProjectionShape(l: Lease, s: Session, runs: Runs, budget: nat)
    ensures var t, plan := ProjectionEffects(l, s, runs, budget), AdvancePlan(s.b, l, s.cp, s.pr, s.log, runs);
      if plan.Write? then Projecting(s, t, plan.value) else t == s
  {
  }

  lemma ProjectingKeepsTrack(l: Lease, s0: Session, s: Session, t: Session, audit: Audit)
    requires FreshRow(s0) && OnTrack(l, s0, s) && Projecting(s, t, audit) && AdvanceFits(l, s0, s, audit)
    ensures OnTrack(l, s0, t)
  {
    assert Destination(t) == Destination(s);
    DestinationFacts(s0, s);
  }

  lemma {:induction false} ProjectionKeepsTrack(l: Lease, s0: Session, s: Session, runs: Runs, budget: nat)
    requires FreshRow(s0) && OnTrack(l, s0, s)
    ensures OnTrack(l, s0, ProjectionEffects(l, s, runs, budget))
  {
    ProjectionShape(l, s, runs, budget);
    var plan := AdvancePlan(s.b, l, s.cp, s.pr, s.log, runs);
    if plan.Write? {
      PlannedAdvance(l, s0, s, runs);
      ProjectingKeepsTrack(l, s0, s, ProjectionEffects(l, s, runs, budget), plan.value);
    }
  }

  lemma MarkerKeepsTrack(l: Lease, s0: Session, s: Session, author: Login)
    requires OnTrack(l, s0, s) && MovedHeadInQa(s.b, s.cp) && !MarkerPosted(s.b, s.log)
    requires author == Owner || author == Bot
    ensures OnTrack(l, s0, Marked(s, author))
  {
    assert PostQaRequest(Marked(s, author).log[|s.log|], s.b);
  }

  lemma {:induction false} AdvanceKeepsTrack(l: Lease, s0: Session, s: Session, runs: Runs, author: Login, budget: nat)
    requires FreshRow(s0) && OnTrack(l, s0, s) && (author == Owner || author == Bot)
    ensures OnTrack(l, s0, AdvanceEffects(l, s, runs, author, budget))
  {
    if s.closed || Current(s.b, s.pr, true, ProjectedRoute(s.cp, l)).Some? {
      assert AdvanceEffects(l, s, runs, author, budget) == s;
    } else if NeedsMarker(s, runs) && budget == 0 {
      assert AdvanceEffects(l, s, runs, author, budget) == s;
    } else if NeedsMarker(s, runs) {
      MarkerKeepsTrack(l, s0, s, author);
      ProjectionKeepsTrack(l, s0, Marked(s, author), runs, budget - 1);
      assert AdvanceEffects(l, s, runs, author, budget) == ProjectionEffects(l, Marked(s, author), runs, budget - 1);
    } else {
      ProjectionKeepsTrack(l, s0, s, runs, budget);
      assert AdvanceEffects(l, s, runs, author, budget) == ProjectionEffects(l, s, runs, budget);
    }
  }

  /* ---- Head moves and decisions ---- */

  /** Declaring, rebinding and publishing change no label and drop no start. */
  lemma HeadMoveKeepsTrack(l: Lease, s0: Session, s: Session, e: Event)
    requires FreshRow(s0) && OnTrack(l, s0, s) && (e.DeclareCall? || e.RefreshCall? || e.ReportCall?)
    ensures OnTrack(l, s0, Happen(l, s, e))
  {
    if Alarms(s.pr.labels) == {} {
      RouteTellsLabels(s0, s);
    }
    if e.ReportCall? && MayPublish(l, s) {
      assert Route(s.pr.labels) == RunningRoute(s.b) by {
        assert Status(Running) in Route(s.pr.labels);
      }
    }
  }

  lemma DecisionShape(l: Lease, s: Session, d: WorkerDecision, budget: nat)
    ensures var t, plan := DecisionEffects(l, s, d, budget), DecisionPlan(s.b, l, s.pr, d);
      || t == s
      || (plan.Write? && t == s.(cp := s.cp.(decision := Some(plan.value))))
      || (plan.Write? && t == Decided(l, s.(cp := s.cp.(decision := Some(plan.value))), d, plan.value.after).(closed := t.closed))
  {
  }

  /** A decision finds the running labels; a retry restores the waiting ones, any
      other decision leaves labels no call of this claim acts on. */
  lemma PlannedDecision(l: Lease, s0: Session, s: Session, d: WorkerDecision)
    requires FreshRow(s0) && OnTrack(l, s0, s) && DecisionPlan(s.b, l, s.pr, d).Write?
    ensures s.pr.labels == AsRunning(s0) && Route(s.pr.labels) == RunningRoute(s.b)
    ensures Workable(s0) && s.advances == 0 && s.parked == 0
    ensures var after := DecisionPlan(s.b, l, s.pr, d).value.after;
      if d.RetryPhase? then after == AsTodo(s0)
      else Stuck(s.b, after) && Route(after) != TodoRoute(s.b) && Route(after) != RunningRoute(s.b)
  {
    RouteTellsLabels(s0, s);
    LabelFacts(s0, s);
    var before, target := s.pr.labels, DecisionTarget(s.b, d).value;
    var after := Unrelated(before) + target;
    match d {
      case RetryPhase =>
        assert after == Rerouted(before, TodoRoute(s.b)) by {
          forall x
            ensures x in Unrelated(before) <==> x in before - Route(before)
          {
            assert x !in Alarms(before);
          }
        }
      case BlockPhase(code) =>
        assert Blocker(code) in Alarms(after);
        assert Status(StatusName.Blocked) in Route(after);
        assert Status(StatusName.Blocked) !in TodoRoute(s.b) + RunningRoute(s.b);
      case RequestRepair =>
        RepairRouteIsForeign(s.b);
        assert Route(after) == target by {
          forall x ensures x in Route(after) <==> x in target { }
        }
    }
  }

  lemma DecidedKeepsTrack(l: Lease, s0: Session, s: Session, d: WorkerDecision, after: LabelSet, closed: bool)
    requires FreshRow(s0) && OnTrack(l, s0, s)
    requires s.pr.labels == AsRunning(s0) && Route(s.pr.labels) == RunningRoute(s.b)
    requires Workable(s0) && s.advances == 0 && s.parked == 0
    requires if d.RetryPhase? then after == AsTodo(s0)
             else Stuck(s.b, after) && Route(after) != TodoRoute(s.b) && Route(after) != RunningRoute(s.b)
    ensures OnTrack(l, s0, Decided(l, s, d, after).(closed := closed))
  {
    LabelFacts(s0, s);
    assert Destination(Decided(l, s, d, after)) == Destination(s);
  }

  lemma {:induction false} DecisionKeepsTrack(l: Lease, s0: Session, s: Session, d: WorkerDecision, budget: nat)
    requires FreshRow(s0) && OnTrack(l, s0, s)
    ensures OnTrack(l, s0, DecisionEffects(l, s, d, budget))
  {
    DecisionShape(l, s, d, budget);
    var plan := DecisionPlan(s.b, l, s.pr, d);
    if plan.Write? {
      PlannedDecision(l, s0, s, d);
      var planned := s.(cp := s.cp.(decision := Some(plan.value)));
      assert OnTrack(l, s0, planned);
      DecidedKeepsTrack(l, s0, planned, d, plan.value.after, DecisionEffects(l, s, d, budget).closed);
    }
  }

  /* ---- The whole life of a lease ---- */

  /** No outside label edit; anybody may push and comment, calls may stop anywhere. */
  predicate Undisturbed(events: seq<Event>) {
    forall i :: 0 <= i < |events| ==>
      && !events[i].LabelEdit?
      && (events[i].AdvanceCall? ==> events[i].author == Owner || events[i].author == Bot)
  }

  lemma CommentKeepsMarker(b: Binding, log: Log, c: Comment)
    ensures MarkerPosted(b, log) ==> MarkerPosted(b, log + [c])
  {
    if MarkerPosted(b, log) {
      var i :| 0 <= i < |log| && PostQaRequest(log[i], b);
      assert PostQaRequest((log + [c])[i], b);
    }
  }

  lemma {:induction false} HistoryKeepsTrack(l: Lease, s0: Session, events: seq<Event>)
    requires FreshRow(s0) && Undisturbed(events)
    ensures OnTrack(l, s0, History(l, s0, events))
    decreases |events|
  {
    if events != [] {
      var front, e := events[..|events| - 1], events[|events| - 1];
      HistoryKeepsTrack(l, s0, front);
      var s := History(l, s0, front);
      match e {
        case StartCall(runs, budget) => StartKeepsTrack(l, s0, s, runs, budget);
        case AdvanceCall(runs, author, budget) => AdvanceKeepsTrack(l, s0, s, runs, author, budget);
        case DecisionCall(d, budget) => DecisionKeepsTrack(l, s0, s, d, budget);
        case CommentArrives(c) => CommentKeepsMarker(s.b, s.log, c);
        case PushArrives(_) =>
        case CloseCall =>
        case LabelEdit(_) =>
        case _ => HeadMoveKeepsTrack(l, s0, s, e);
      }
    }
  }

  /** At most once over the whole life of a lease, whatever head moves, report
      commits, decisions, foreign pushes, crashes and retries happen: one advance
      change, one marker, one parking decision and never an advance beside it;
      and one start change more than retries that landed on an unapplied start. */
  lemma {:induction false} AtMostOnceUpToRetries(l: Lease, s0: Session, events: seq<Event>)
    requires FreshRow(s0) && Undisturbed(events)
    ensures var s := History(l, s0, events);
      && SameClaim(s0.b, s.b)
      && s.advances + s.parked <= 1 && s.markers <= 1
      && (s.markers == 1 ==> MovedHeadInQa(s.b, s.cp))
      && s.reopened <= s.starts <= s.reopened + 1 && s.reopened <= s.retries
      && (s.advances == 1 ==> s.pr.labels == Rerouted(s0.pr.labels, Destination(s)))
      && (s.parked == 1 ==> Stuck(s.b, s.pr.labels))
      && (s.advances + s.parked == 0 ==> s.pr.labels in {s0.pr.labels, AsTodo(s0), AsRunning(s0)})
  {
    HistoryKeepsTrack(l, s0, events);
  }

  /** Nobody decides in these events. */
  predicate Undecided(events: seq<Event>) { forall i :: 0 <= i < |events| ==> !events[i].DecisionCall? }

  lemma {:induction false} UndecidedCountsNothing(l: Lease, s0: Session, events: seq<Event>)
    requires FreshRow(s0) && Undecided(events)
    ensures var s := History(l, s0, events); s.retries == 0 && s.reopened == 0 && s.parked == 0
    decreases |events|
  {
    if events != [] {
      var front, e := events[..|events| - 1], events[|events| - 1];
      UndecidedCountsNothing(l, s0, front);
      var s := History(l, s0, front);
      match e {
        case StartCall(runs, budget) => StartShape(l, s, runs, budget);
        case AdvanceCall(runs, author, budget) => AdvanceShape(l, s, runs, author, budget);
        case _ =>
      }
    }
  }

  /** What an advance leaves alone. */
  lemma AdvanceShape(l: Lease, s: Session, runs: Runs, author: Login, budget: nat)
    ensures var t := AdvanceEffects(l, s, runs, author, budget);
      && t.b == s.b && t.cp == s.cp.(projection := t.cp.projection)
      && (t.retries, t.reopened, t.parked, t.starts) == (s.retries, s.reopened, s.parked, s.starts)
  {
    if s.closed || Current(s.b, s.pr, true, ProjectedRoute(s.cp, l)).Some? {
      assert AdvanceEffects(l, s, runs, author, budget) == s;
    } else if NeedsMarker(s, runs) {
      if budget > 0 {
        ProjectionShape(l, Marked(s, author), runs, budget - 1);
        assert AdvanceEffects(l, s, runs, author, budget) == ProjectionEffects(l, Marked(s, author), runs, budget - 1);
      }
    } else {
      ProjectionShape(l, s, runs, budget);
      assert AdvanceEffects(l, s, runs, author, budget) == ProjectionEffects(l, s, runs, budget);
    }
  }

  /** Exactly-once projection in a life without decisions of the lease's own:
      `start` and `advance` each change labels at most once, the marker comment is
      posted at most once, and the counts tell the label set; the post-QA one
      only for the report commit the lease is bound to. */
  lemma {:induction false} ExactlyOnceProjection(l: Lease, s0: Session, events: seq<Event>)
    requires FreshRow(s0) && Undisturbed(events) && Undecided(events)
    ensures var s, first := History(l, s0, events), s0.pr.labels;
      && SameClaim(s0.b, s.b)
      && s.starts <= 1 && s.advances <= 1 && s.markers <= 1
      && (s.markers == 1 ==> MovedHeadInQa(s.b, s.cp))
      && s.pr.labels ==
           if s.advances == 1
           then Rerouted(first, if MovedHeadInQa(s.b, s.cp) then POST_QA_ROUTE else NextRoute(s0.b.phase))
           else if s.starts == 1 then Started(s0.b, first) else first
  {
    HistoryKeepsTrack(l, s0, events);
    UndecidedCountsNothing(l, s0, events);
    if Workable(s0) {
      StartedRoute(s0.b, s0.pr.labels);
    }
  }

  /* ---- Exactly when `start` changes labels a second time ---- */

  lemma StartPassesWriter(b: Binding, labels: LabelSet)
    requires Route(labels) == TodoRoute(b)
    ensures Refused(labels, Started(b, labels)).None? && labels != Started(b, labels)
  {
    StartedRoute(b, labels);
    RouteSwap(labels, RunningRoute(b));
    WorkRouteIsCanonical(labels, b.agent, b.phase, Todo);
    WorkRouteIsCanonical(Started(b, labels), b.agent, b.phase, StatusName.Running);
    assert Status(Todo) in Route(labels);
    assert Unrelated(labels) <= Started(b, labels);
  }

  /** At any moment of a life, a start call changes labels exactly when the row is
      open, the PR waits in TODO with the gate open, the call runs through its
      label write, and this lease's start is not recorded as applied. If it had
      changed them before, every earlier change was reopened by a retry decision
      of this lease that landed on an unapplied start. */
  lemma {:induction false} StartChangesLabelsExactly(l: Lease, s0: Session, events: seq<Event>, runs: Runs, budget: nat)
    requires FreshRow(s0) && Undisturbed(events)
    ensures var s := History(l, s0, events);
      && (StartEffects(l, s, runs, budget).starts == s.starts + 1 <==> StartLands(l, s, runs, budget))
      && (StartLands(l, s, runs, budget) ==> s.reopened == s.starts)
  {
    HistoryKeepsTrack(l, s0, events);
    var s := History(l, s0, events);
    StartShape(l, s, runs, budget);
    if StartPlan(s.b, l, s.cp, s.pr, s.log, runs).Write? {
      PlannedStart(l, s0, s, runs);
      LabelFacts(s0, s);
    }
    if StartLands(l, s, runs, budget) {
      StartPassesWriter(s.b, s.pr.labels);
      RouteTellsLabels(s0, s);
    }
  }

  /** What a caller can check before a start call. */
  predicate StartLands(l: Lease, s: Session, runs: Runs, budget: nat) {
    && !s.closed && Current(s.b, s.pr, false, None).None? && StartGate(s.b, s.log, runs).None?
    && !StartApplied(l, s.cp) && budget >= 2
  }

  /** A retry reopens the start exactly when it runs through its label write while
      a landed start is not recorded as applied; then TODO shows again, and, if
      the row is still open, the next start call with an open gate lands. */
  lemma {:induction false} RetryReopensExactly(l: Lease, s0: Session, events: seq<Event>, budget: nat, runs: Runs)
    requires FreshRow(s0) && Undisturbed(events)
    ensures var s := History(l, s0, events);
      var t := DecisionEffects(l, s, RetryPhase, budget);
      && (t.reopened == s.reopened + 1 <==>
            !s.closed && DecisionPlan(s.b, l, s.pr, RetryPhase).Write? && budget >= 2
            && s.starts > 0 && !StartApplied(l, s.cp))
      && (t.reopened == s.reopened + 1 ==>
            && Current(t.b, t.pr, false, None).None? && (t.closed <==> budget > 2)
            && (budget == 2 && StartGate(t.b, t.log, runs).None? ==> StartLands(l, t, runs, 2)))
  {
    HistoryKeepsTrack(l, s0, events);
    var s := History(l, s0, events);
    if DecisionPlan(s.b, l, s.pr, RetryPhase).Write? {
      PlannedDecision(l, s0, s, RetryPhase);
      RetryPassesWriter(s.b, s0, s);
    }
  }

  lemma RetryPassesWriter(b: Binding, s0: Session, s: Session)
    requires b == s.b && ClaimPhase(s0.b.phase) && SameClaim(s0.b, s.b) && Workable(s0)
    requires s.pr.labels == AsRunning(s0) && Alarms(s.pr.labels) == {}
    ensures Refused(s.pr.labels, AsTodo(s0)).None?
    ensures Route(AsTodo(s0)) == TodoRoute(b) && Alarms(AsTodo(s0)) == {}
  {
    LabelFacts(s0, s);
    NextRoutesAreRoutes(b);
    RouteSwap(s.pr.labels, TodoRoute(b));
    WorkRouteIsCanonical(s.pr.labels, b.agent, b.phase, StatusName.Running);
    WorkRouteIsCanonical(AsTodo(s0), b.agent, b.phase, Todo);
    assert Unrelated(s.pr.labels) <= AsTodo(s0);
  }

  /* ---- A requeue after the applied start is never undone ---- */

  predicate StartAuditShaped(l: Lease, s: Session) {
    ReplaysStart(s.cp, l) ==> s.cp.start.value.after == Started(s.b, s.cp.start.value.before)
  }

  lemma EventKeepsAuditShape(l: Lease, s: Session, e: Event)
    requires StartAuditShaped(l, s)
    ensures StartAuditShaped(l, Happen(l, s, e))
    ensures StartApplied(l, s.cp) ==> StartApplied(l, Happen(l, s, e).cp)
  {
    match e {
      case StartCall(runs, budget) => StartShape(l, s, runs, budget);
      case AdvanceCall(runs, author, budget) => AdvanceShape(l, s, runs, author, budget);
      case DecisionCall(d, budget) => DecisionShape(l, s, d, budget);
      case _ =>
    }
  }

  lemma {:induction false} HistoryKeepsAuditShape(l: Lease, s: Session, events: seq<Event>)
    requires StartAuditShaped(l, s)
    ensures StartAuditShaped(l, History(l, s, events))
    ensures StartApplied(l, s.cp) ==> StartApplied(l, History(l, s, events).cp)
    decreases |events|
  {
    if events != [] {
      var front := events[..|events| - 1];
      HistoryKeepsAuditShape(l, s, front);
      EventKeepsAuditShape(l, History(l, s, front), events[|events| - 1]);
    }
  }

  /** A call of `start` now would write no labels. */
  predicate StartIsSilent(l: Lease, s: Session, runs: Runs, budget: nat) {
    StartEffects(l, s, runs, budget).pr == s.pr && StartEffects(l, s, runs, budget).starts == s.starts
  }

  /** An applied start writes no labels, whatever they are now. */
  lemma AppliedStartIsSilent(l: Lease, s: Session, runs: Runs, budget: nat)
    requires StartAuditShaped(l, s) && StartApplied(l, s.cp)
    ensures StartIsSilent(l, s, runs, budget)
  {
    if StartPlan(s.b, l, s.cp, s.pr, s.log, runs).Write? {
      assert s.pr.labels == s.cp.start.value.after;
      assert Started(s.b, s.pr.labels) == s.pr.labels;
    }
  }

  /** In every run from a fresh row: once this lease's start is recorded as
      applied, no later replay of `start` writes labels, through any mix of
      advances, head moves, reports, pushes, comments and outside label edits
      such as a requeue, before and after. */
  lemma {:induction false} RequeueIsNeverUndone(
      l: Lease, s0: Session, events: seq<Event>, later: seq<Event>, runs: Runs, budget: nat)
    requires FreshRow(s0) && StartApplied(l, History(l, s0, events).cp)
    ensures StartApplied(l, History(l, History(l, s0, events), later).cp)
    ensures StartIsSilent(l, History(l, History(l, s0, events), later), runs, budget)
  {
    HistoryKeepsAuditShape(l, s0, events);
    var s := History(l, s0, events);
    HistoryKeepsAuditShape(l, s, later);
    AppliedStartIsSilent(l, History(l, s, later), runs, budget);
  }
}
