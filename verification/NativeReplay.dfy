/** The native worker's `process` as a program over its durable state: it may
    stop before any effect and start again under a new lease, while other people
    change labels, push and comment between its effects. Attempts on one
    delivery do not overlap; the log of comments only grows. */
module NativeReplay {
  import opened Labels
  import opened Records
  import opened HandoffGate
  import Queue = LeaseStore
  import Fencing
  import StateProjection
  import StateWriter

  /** The distinct values of the policy lines of an issue text. */
  datatype PolicyValues = Missing | One(policy: PolicyName) | Conflicting
  datatype PolicyText = PolicyText(values: PolicyValues, restrictive: bool)

  /** Release needs exactly one policy value, and no restrictive instruction. */
  predicate ReleaseAllowed(text: Option<PolicyText>) {
    text.Some? && text.value.values == One(ReleaseEnabled) && !text.value.restrictive
  }

  /** Nothing else releases: a missing, conflicting or other policy, or any
      restrictive instruction, keeps the owner in charge. */
  lemma ReleaseNeedsTheOneText(text: Option<PolicyText>)
    ensures ReleaseAllowed(text) <==> text == Some(PolicyText(One(ReleaseEnabled), false))
  {
  }

  datatype Verdict = Success | BlockedResult | FailedResult

  /** What the adapter returned. Replay may rewrite only the handoff's commit. */
  datatype Result = Result(verdict: Verdict, changes: seq<string>, next: LabelSet, handoff: bool, handoffSha: Option<Sha>)

  function Core(r: Result): Result { r.(handoffSha := None) }

  /** The comments of the owner and the bot that the worker looks for; a handoff
      is exact when result and commit agree. */
  datatype Note =
    | HandoffNote(result: Result, sha: Sha)
    | PolicyNote(sha: Sha, policy: Option<PolicyName>, release: bool)
    | ReviewNote(sha: Sha)

  function PolicyRecord(sha: Sha, text: Option<PolicyText>): Note {
    PolicyNote(sha, if text.Some? && text.value.values.One? then Some(text.value.values.policy) else None, ReleaseAllowed(text))
  }

  datatype NativeCheckpoint = NativeCheckpoint(
    sourceSha: Sha, result: Option<Result>, transition: Option<LabelSet>, text: Option<PolicyText>)

  datatype DispatchKind = ImplementationDispatch | ReleaseDispatch | DeploymentDispatch
  datatype Dispatch = Dispatch(kind: DispatchKind, sha: Sha, text: Option<PolicyText>, route: LabelSet, recheck: Recheck)

  datatype WriteKind = RunningWrite | BlockedWrite | TransitionWrite
  datatype LabelWrite = LabelWrite(kind: WriteKind, before: LabelSet, after: LabelSet)

  /** What the attempt found when it read the evidence again after QA. */
  datatype Recheck = Recheck(qaStillValid: bool, ciGreen: bool)

  /** A transition the worker projected, after the first `seen` notes. */
  datatype Transition = Transition(
    sha: Sha, route: LabelSet, result: Result, text: Option<PolicyText>, recheck: Recheck, seen: nat)

  datatype Request = Request(delivery: DeliveryId, sha: Sha, phase: PhaseName, fromIssue: bool)

  /** The durable world of one delivery. */
  datatype Native = Native(
    cp: Option<NativeCheckpoint>, labels: LabelSet, head: Sha, notes: seq<Note>,
    adapterRuns: nat, dispatches: seq<Dispatch>, projections: seq<Transition>, writes: seq<LabelWrite>, db: Queue.Db)

  /** What one attempt meets outside: evidence, adapter, report commit, issue text. */
  datatype Surroundings = Surroundings(
    gateOpen: bool, adapter: Result, reportCommit: Sha, text: PolicyText,
    recheck: Recheck, claimedAt: Time, finishedAt: Time)

  /** What other people do before one effect of the worker. */
  datatype Gap = Gap(labels: LabelSet, head: Sha, notes: seq<Note>)

  /* ---- Label transitions ---- */

  const WORKFLOW_LABELS: LabelSet := {
    Agent(Codex), Agent(Chatgpt), Agent(Workbuddy), Agent(Workreview),
    Phase(ProductPlan), Phase(Prototype), Phase(Implementation), Phase(CodeReview),
    Phase(Qa), Phase(Release), Phase(Deploy),
    Approval(ProductionRequired), Approval(ProductionApproved),
    Status(Todo), Status(Running), Status(StatusName.Blocked), Status(Review),
    Status(OtherStatus("done")), Status(OtherStatus("deployed"))
  }

  function OwnerWaitLabels(current: LabelSet): LabelSet {
    (set x <- current | !x.Agent? && !x.Phase? && !x.Status?
                        && x != Approval(ProductionApproved) && x != Approval(ProductionRequired))
    + HUMAN_WAIT_ROUTE
  }

  function NextLabels(phase: PhaseName, current: LabelSet, r: Result, text: Option<PolicyText>): LabelSet {
    var keep := current - WORKFLOW_LABELS;
    if r.verdict != Success then keep + WorkRoute(Workbuddy, phase, StatusName.Blocked)
    else if phase == Qa then
      if ReleaseAllowed(text) then keep + WorkRoute(Codex, Release, Todo) else OwnerWaitLabels(keep)
    else if r.next != {} then keep + r.next
    else if phase == Prototype then keep + WorkRoute(Chatgpt, Implementation, Todo)
    else if phase == Deploy then keep + WorkRoute(Workbuddy, Deploy, Running)
    else keep + {Status(Review)}
  }

  function Project(live: LabelSet, route: LabelSet): LabelSet { (live - Route(live)) + route }

  predicate RoutesToRelease(labels: LabelSet) { Agent(Codex) in labels && Phase(Release) in labels }

  const REVIEW_ROUTE: LabelSet := WorkRoute(Workreview, CodeReview, Todo)

  /** Where a result leads, by the transitions the claim API verifies: a success
      without labels of its own to the next phase, except that QA may release
      under an enabling policy and a deployment goes on running; labels of its
      own win outside QA; anything else blocks the phase. */
  function ExpectedRoute(phase: PhaseName, r: Result, text: Option<PolicyText>): LabelSet {
    if r.verdict != Success then WorkRoute(Workbuddy, phase, StatusName.Blocked)
    else if phase == Qa then
      if ReleaseAllowed(text) then WorkRoute(Codex, Release, Todo) else StateProjection.NextRoute(Qa)
    else if r.next != {} then Route(r.next)
    else if phase == Prototype then StateProjection.NextRoute(Prototype)
    else if phase == Deploy then WorkRoute(Workbuddy, Deploy, Running)
    else {Status(Review)}
  }

  lemma RouteOfUnion(keep: LabelSet, added: LabelSet)
    ensures Route(keep + added) == Route(keep) + Route(added)
  {
  }

  lemma OwnRoutes(phase: PhaseName, r: Result, text: Option<PolicyText>)
    ensures Route(ExpectedRoute(phase, r, text)) == ExpectedRoute(phase, r, text)
  {
  }

  /** The next labels follow those transitions: exactly on running labels, and as
      far as the controller's own labels go on any others. */
  lemma NextLabelsFollowTransitions(phase: PhaseName, live: LabelSet, r: Result, text: Option<PolicyText>)
    ensures Route(NextLabels(phase, live, r, text)) * WORKFLOW_LABELS == ExpectedRoute(phase, r, text) * WORKFLOW_LABELS
    ensures Route(live) == WorkRoute(Workbuddy, phase, Running) && phase in {Prototype, Qa, Deploy} ==>
      Route(NextLabels(phase, live, r, text)) == ExpectedRoute(phase, r, text)
  {
    var keep := live - WORKFLOW_LABELS;
    assert Route(keep) !! WORKFLOW_LABELS;
    if Route(live) == WorkRoute(Workbuddy, phase, Running) && phase in {Prototype, Qa, Deploy} {
      forall x: Label
        ensures x !in Route(keep)
      {
        assert x in Route(live) <==> x in live && IsRoute(x);
      }
    }
    OwnRoutes(phase, r, text);
    if r.verdict == Success && phase == Qa && !ReleaseAllowed(text) {
      OwnerWaitRoute(keep);
    } else {
      var added := if r.verdict == Success && phase != Qa && r.next != {} then r.next else ExpectedRoute(phase, r, text);
      assert NextLabels(phase, live, r, text) == keep + added;
      RouteOfUnion(keep, added);
    }
  }

  lemma OwnerWaitRoute(keep: LabelSet)
    requires Route(keep) !! WORKFLOW_LABELS
    ensures Route(OwnerWaitLabels(keep)) * WORKFLOW_LABELS == HUMAN_WAIT_ROUTE
    ensures Route(keep) == {} ==> Route(OwnerWaitLabels(keep)) == HUMAN_WAIT_ROUTE
  {
    forall x: Label
      ensures x in Route(OwnerWaitLabels(keep)) <==> x in HUMAN_WAIT_ROUTE || (x in keep && x.Approval? && x !in WORKFLOW_LABELS)
    {
      assert x in Route(keep) <==> x in keep && IsRoute(x);
    }
    assert HUMAN_WAIT_ROUTE <= WORKFLOW_LABELS;
    assert forall x :: x in keep && x.Approval? ==> x in Route(keep);
  }

  /** The three cases a reader asks about, spelled out. */
  lemma TransitionTable(live: LabelSet, phase: PhaseName, r: Result, text: Option<PolicyText>)
    requires Route(live) == WorkRoute(Workbuddy, phase, Running) && phase in {Prototype, Qa, Deploy}
    ensures phase == Prototype && r.verdict == Success && r.next == {} ==>
      Route(NextLabels(phase, live, r, text)) == {Agent(Chatgpt), Phase(Implementation), Status(Todo)}
    ensures phase == Qa && r.verdict == Success ==>
      Route(NextLabels(phase, live, r, text)) ==
        if ReleaseAllowed(text) then {Agent(Codex), Phase(Release), Status(Todo)}
        else {Status(Review), Approval(ProductionRequired)}
    ensures r.verdict != Success ==>
      Route(NextLabels(phase, live, r, text)) == {Agent(Workbuddy), Phase(phase), Status(StatusName.Blocked)}
  {
    NextLabelsFollowTransitions(phase, live, r, text);
  }

  lemma ProjectionRoute(live: LabelSet, route: LabelSet)
    requires forall x :: x in route ==> IsRoute(x)
    ensures Route(Project(live, route)) == route && Unrelated(Project(live, route)) == Unrelated(live)
    ensures Alarms(Project(live, route)) == Alarms(live)
  {
    RouteSwap(live, route);
  }

  /** Whatever labels the adapter asked for, QA routes to release only under an
      enabling policy. */
  lemma QaReleaseNeedsPolicy(current: LabelSet, r: Result, text: Option<PolicyText>)
    ensures r.verdict == Success && RoutesToRelease(NextLabels(Qa, current, r, text)) ==> ReleaseAllowed(text)
  {
    assert Agent(Codex) !in OwnerWaitLabels(current - WORKFLOW_LABELS);
  }

  /** The checkpointed transition if there is one, else the next labels. */
  function PlannedLabels(
      phase: PhaseName, earlier: Option<NativeCheckpoint>, live: LabelSet, r: Result, text: Option<PolicyText>)
      : LabelSet {
    if earlier.Some? && earlier.value.transition.Some? && earlier.value.transition.value != {}
    then earlier.value.transition.value
    else NextLabels(phase, live, r, text)
  }

  /** The route is where the result leads, as far as the controller's own labels
      go, or for a QA success the review of a commit it had made. */
  predicate RouteFits(r: Request, result: Result, text: Option<PolicyText>, route: LabelSet) {
    || route * WORKFLOW_LABELS == ExpectedRoute(r.phase, result, text) * WORKFLOW_LABELS
    || (result.verdict == Success && r.phase == Qa && route == REVIEW_ROUTE)
  }

  /** On every path to a plan, replays included, the planned route fits. */
  lemma PlannedRouteFits(
      request: Request, earlier: Option<NativeCheckpoint>, live: LabelSet, r: Result, text: Option<PolicyText>)
    requires CheckpointBacked(request, earlier)
    requires earlier.Some? && earlier.value.result.Some? ==> Core(earlier.value.result.value) == Core(r)
    requires earlier.Some? && earlier.value.transition.Some? ==> text == earlier.value.text
    ensures RouteFits(request, r, text, Route(PlannedLabels(request.phase, earlier, live, r, text)))
  {
    NextLabelsFollowTransitions(request.phase, live, r, text);
  }

  lemma FittingReleaseIsAllowed(request: Request, r: Result, text: Option<PolicyText>, route: LabelSet)
    requires RouteFits(request, r, text, route) && r.verdict == Success && request.phase == Qa && RoutesToRelease(route)
    ensures ReleaseAllowed(text) && route * WORKFLOW_LABELS == WorkRoute(Codex, Release, Todo)
  {
    assert Agent(Codex) in route * WORKFLOW_LABELS;
    assert Agent(Codex) !in HUMAN_WAIT_ROUTE && Agent(Codex) !in REVIEW_ROUTE;
  }

  /** What an attempt decided: the commit, the target route and the policy text. */
  datatype Plan = Plan(sha: Sha, route: LabelSet, text: Option<PolicyText>, moved: bool, live: LabelSet)

  /** Nobody posts a handoff for a transition that shows already: either it was
      posted before, or the attempt stops. */
  predicate StuckWithoutHandoff(live: LabelSet, route: LabelSet, handed: bool) { Route(live) == route && !handed }

  /** When a worker that runs can never announce its result itself: exactly when
      the planned route is the running route, which needs a success whose labels
      say so, as those of a deployment without labels of its own do. */
  lemma StuckExactlyWhenRouteStays(phase: PhaseName, live: LabelSet, r: Result, text: Option<PolicyText>)
    requires phase in {Prototype, Qa, Deploy} && Route(live) == WorkRoute(Workbuddy, phase, Running)
    ensures StuckWithoutHandoff(live, Route(NextLabels(phase, live, r, text)), false) <==>
      && r.verdict == Success
      && ((phase == Deploy && r.next == {})
          || (phase != Qa && r.next != {} && Route(r.next) == WorkRoute(Workbuddy, phase, Running)))
  {
    forall x: Label
      ensures x !in Route(live - WORKFLOW_LABELS)
    {
      assert x in Route(live) <==> x in live && IsRoute(x);
    }
  }

  /* ---- One attempt ---- */

  function TodoOf(r: Request): LabelSet { WorkRoute(Workbuddy, r.phase, Todo) }
  function RunningOf(r: Request): LabelSet { WorkRoute(Workbuddy, r.phase, Running) }
  function BlockedOf(r: Request): LabelSet { WorkRoute(Workbuddy, r.phase, StatusName.Blocked) }

  class Worker {
    const request: Request
    var state: Native
    var lease: Lease
    var gaps: seq<Gap>
    var budget: nat

    constructor (r: Request, s: Native, gaps: seq<Gap>, budget: nat)
      ensures request == r && state == s && this.gaps == gaps && this.budget == budget
    {
      request, state, lease, this.gaps, this.budget := r, s, Lease(0, NativeClaim), gaps, budget;
    }

    /** Nobody interferes any more, and `n` more effects may happen. */
    predicate Calm(n: nat) reads this { gaps == [] && n <= budget }

    /** Others act, and then one effect follows unless the process has stopped. */
    method Spend() returns (alive: bool)
      modifies `state, `gaps, `budget
      ensures Disturbed(old(state), state)
      ensures old(Calm(1)) ==> alive && state == old(state) && gaps == [] && budget == old(budget) - 1
    {
      if gaps != [] {
        state := state.(labels := gaps[0].labels, head := gaps[0].head, notes := state.notes + gaps[0].notes);
        gaps := gaps[1..];
      }
      alive := budget > 0;
      if alive {
        budget := budget - 1;
      }
    }

    predicate Shows(sha: Sha, route: LabelSet) reads this { state.head == sha && Route(state.labels) == route }

    /** The shared writer checks its arguments and verifies what it replaces. */
    method WriteLabels(kind: WriteKind, before: LabelSet, sha: Sha, after: LabelSet) returns (written: bool)
      modifies `state, `gaps, `budget
      ensures Disturbed(old(state), state.(writes := old(state.writes)))
      ensures written ==> StateWriter.Refused(before, after).None?
      ensures written ==> state.labels == after && state.writes == old(state.writes) + [LabelWrite(kind, before, after)]
      ensures !written ==> state.writes == old(state.writes)
      ensures old(Calm(1)) && old(state.labels) == before && old(state.head) == sha
              && StateWriter.Refused(before, after).None? ==>
        written && gaps == [] && budget == old(budget) - 1 && state.head == sha && state.notes == old(state.notes)
    {
      if StateWriter.Refused(before, after).Some? {
        return false;
      }
      written := Spend();
      written := written && state.labels == before && state.head == sha;
      if written {
        state := state.(labels := after, writes := state.writes + [LabelWrite(kind, before, after)]);
      }
    }

    /** Close the event as done, if the lease is still live. */
    method Finish(s: Surroundings)
      modifies `state, `gaps, `budget
      ensures SameButLog(old(state), state.(db := old(state.db))) && Fencing.ByLeasedCalls(old(state.db), state.db)
      ensures old(Calm(1)) && Queue.Live(old(state.db), request.delivery, lease, s.finishedAt) ==>
        state == old(state).(db := state.db) && Fencing.HasEnded(state.db, request.delivery)
    {
      var alive := Spend();
      Fencing.NoCalls(state.db);
      if alive {
        var call := Queue.FinishCall(request.delivery, Queue.Close(Queue.Done), Some(lease));
        Fencing.OneLeasedCall(state.db, call, s.finishedAt);
        state := state.(db := Queue.Finish(state.db, request.delivery, Queue.Close(Queue.Done), Some(lease), s.finishedAt).0);
      }
    }

    /** May this attempt go on from the labels, head and checkpoint it finds? */
    predicate Resumable()
      reads this
    {
      match state.cp
      case None => Shows(request.sha, TodoOf(request))
      case Some(cp) =>
        && cp.sourceSha == request.sha
        && (Route(state.labels) == RunningOf(request)
            || (cp.result.None? && Route(state.labels) == TodoOf(request))
            || (cp.transition.Some? && cp.transition.value != {} && Route(state.labels) == Route(cp.transition.value)))
    }

    /** Bring the labels to RUNNING and obtain the result, from the checkpoint if it is there. */
    method ObtainResult(s: Surroundings) returns (result: Option<Result>)
      requires CheckpointBacked(request, state.cp) && Resumable()
      modifies `state, `gaps, `budget
      ensures Kept(old(state), state) && CheckpointBacked(request, state.cp)
      ensures Recorded(old(state), state) && state.db == old(state.db) && WritesJustly(request, old(state), state)
      ensures result.Some? ==> state.cp.Some? && state.cp.value.result == result
      ensures old(HasResult(state)) ==> state.cp == old(state.cp)
      ensures RunningIsStored(old(state), state)
      ensures old(Calm(4)) && !old(HasResult(state)) && old(state.head) == request.sha && Unplanned(old(state.cp)) ==>
        && result == Some(s.adapter) && gaps == [] && old(budget) <= budget + 4
        && state == old(state).(
             cp := Some(NativeCheckpoint(request.sha, result, None, None)),
             labels := Project(old(state.labels), RunningOf(request)),
             adapterRuns := old(state.adapterRuns) + 1, writes := state.writes)
      ensures old(HasResult(state)) ==> result.Some? && state == old(state) && gaps == old(gaps) && budget == old(budget)
    {
      if HasResult(state) {
        return state.cp.value.result;
      }
      result := None;
      var running := ShowRunning();
      if running {
        result := RunAdapter(s);
      }
    }

    /** Record the start, then show RUNNING: a stop in between can resume. */
    method ShowRunning() returns (running: bool)
      requires CheckpointBacked(request, state.cp) && Resumable() && !HasResult(state)
      modifies `state, `gaps, `budget
      ensures Kept(old(state), state) && CheckpointBacked(request, state.cp) && !HasResult(state)
      ensures Recorded(old(state), state) && state.db == old(state.db) && WritesJustly(request, old(state), state)
      ensures RunningIsStored(old(state), state) && state.adapterRuns == old(state.adapterRuns)
      ensures running ==> state.cp == Some(NativeCheckpoint(request.sha, None, None, None)) && Shows(request.sha, RunningOf(request))
      ensures old(Calm(2)) && old(state.head) == request.sha && Unplanned(old(state.cp)) ==>
        && running && gaps == [] && old(budget) <= budget + 2
        && state == old(state).(cp := state.cp, labels := Project(old(state.labels), RunningOf(request)), writes := state.writes)
    {
      running := false;
      if state.head != request.sha {
        return;
      }
      var live := state.labels;
      ProjectingOwnRoute(live);
      var wasRunning := state.cp.Some? && Route(live) == RunningOf(request);
      var alive := Spend();
      if !alive {
        return;
      }
      state := state.(cp := Some(NativeCheckpoint(request.sha, None, None, None)));
      if !wasRunning {
        ghost var waiting := state;
        StartsClean(request, live);
        alive := WriteLabels(RunningWrite, live, request.sha, Project(live, RunningOf(request)));
        OneWriteIsJust(request, waiting, state);
        if !alive {
          return;
        }
      }
      running := Shows(request.sha, RunningOf(request));
    }

    method RunAdapter(s: Surroundings) returns (result: Option<Result>)
      requires state.cp == Some(NativeCheckpoint(request.sha, None, None, None))
      modifies `state, `gaps, `budget
      ensures Recorded(old(state), state) && state.db == old(state.db) && state.writes == old(state.writes)
      ensures old(state.adapterRuns) <= state.adapterRuns <= old(state.adapterRuns) + 1
      ensures state.cp == Some(NativeCheckpoint(request.sha, result, None, None))
      ensures result.Some? ==> result.value == s.adapter && state.adapterRuns == old(state.adapterRuns) + 1
      ensures old(Calm(2)) ==>
        && result.Some? && gaps == [] && budget == old(budget) - 2
        && state == old(state).(cp := state.cp, adapterRuns := state.adapterRuns)
    {
      var alive := Spend();
      if !alive {
        return None;
      }
      state := state.(adapterRuns := state.adapterRuns + 1);
      alive := Spend();
      if !alive {
        return None;
      }
      state := state.(cp := Some(NativeCheckpoint(request.sha, Some(s.adapter), None, None)));
      result := Some(s.adapter);
    }

    /** Publish the reports and bind everything downstream to the new commit. */
    method PublishReports(s: Surroundings, given: Result) returns (result: Option<Result>, sha: Sha)
      requires state.cp.Some? && state.cp.value.result == Some(given) && CheckpointBacked(request, state.cp)
      modifies `state, `gaps, `budget
      ensures Kept(old(state), state) && CheckpointBacked(request, state.cp) && state.writes == old(state.writes)
      ensures Recorded(old(state), state) && state.db == old(state.db) && state.adapterRuns == old(state.adapterRuns)
      ensures result.Some? ==>
        Core(result.value) == Core(given) && state.cp.Some? && state.cp.value.result == result
      ensures result.Some? ==>
        sha == (if Publishes(given) then s.reportCommit else request.sha) && result.value == Bound(given, sha)
      ensures old(Calm(2)) ==>
        && result.Some? && gaps == [] && old(budget) <= budget + 2
        && state == old(state).(cp := state.cp, head := if Publishes(given) then s.reportCommit else old(state.head))
        && (!Publishes(given) ==> state.cp == old(state.cp))
    {
      sha := request.sha;
      if given.verdict != Success || given.changes == [] {
        return Some(given), sha;
      }
      var alive := Spend();
      if !alive {
        return None, sha;
      }
      sha := s.reportCommit;
      state := state.(head := sha);
      var bound := if given.handoff then given.(handoffSha := Some(sha)) else given;
      alive := Spend();
      if !alive {
        return None, sha;
      }
      state := state.(cp := Some(NativeCheckpoint(request.sha, Some(bound), None, None)));
      result := Some(bound);
    }

    /** One turn of the queue: if it hands out this delivery, one attempt. */
    method Process(s: Surroundings)
      requires CheckpointBacked(request, state.cp)
      modifies this
      ensures
        if Queue.ClaimNext(old(state.db), request.delivery, s.claimedAt).1.Some?
        then Attempted(request, old(state), state) else Outside(old(state), state)
      ensures !MayResume(request, old(state)) ==> state == old(state).(db := state.db)
      ensures !s.gateOpen ==> GateKeeps(old(state), state)
      ensures old(Calm(2)) && GateCloses(request, old(state), s) ==> Closed(request, old(state), state)
      ensures old(Calm(13)) && StuckStart(request, old(state), s) ==> Stranded(request, old(state), state)
      ensures old(Calm(5)) && ProjectedStart(request, old(state), s) ==> Settled(request, old(state), state, s)
      ensures old(Calm(13)) && CleanStart(request, old(state), s) ==> Completed(request, old(state), state, s)
    {
      var (db, claim) := Queue.ClaimNext(state.db, request.delivery, s.claimedAt);
      Fencing.OneLeasedCall(state.db, Queue.ClaimNextCall(request.delivery), s.claimedAt);
      state := state.(db := db);
      if claim.None? {
        return;
      }
      lease := claim.value.lease;
      ghost var claimed := state;
      Work(s);
      FromClaim(request, old(state), claimed, state, s);
    }

    method Work(s: Surroundings)
      requires CheckpointBacked(request, state.cp)
      modifies `state, `gaps, `budget
      ensures Attempted(request, old(state), state)
      ensures !MayResume(request, old(state)) ==> state == old(state)
      ensures !s.gateOpen ==> GateKeeps(old(state), state)
      ensures old(Calm(2)) && GateStops(request, old(state), s) && LeaseCovers(old(state.db), request.delivery, lease, s) ==>
        Closed(request, old(state), state)
      ensures old(Calm(13)) && StuckRun(request, old(state), s) ==> Stranded(request, old(state), state)
      ensures old(Calm(5)) && Projected(request, old(state), s) && LeaseCovers(old(state.db), request.delivery, lease, s) ==>
        Settled(request, old(state), state, s)
      ensures old(Calm(13)) && CleanRun(request, old(state), s) && LeaseCovers(old(state.db), request.delivery, lease, s) ==>
        Completed(request, old(state), state, s)
    {
      ghost var first := state;
      Fencing.NoCalls(state.db);
      if !Resumable() {
        return;
      }
      if !s.gateOpen {
        CloseGate(s);
        return;
      }
      var earlier := state.cp;
      var published, sha := Produce(s);
      ghost var produced := state;
      ProducedIsAnAttempt(request, first, produced);
      if published.None? {
        return;
      }
      Transit(s, earlier, published.value, sha, CleanPlan(request, first, s));
      AttemptInTwoParts(request, first, produced, state);
    }

    /** Obtain the result and publish its reports. */
    method Produce(s: Surroundings) returns (published: Option<Result>, sha: Sha)
      requires CheckpointBacked(request, state.cp) && Resumable()
      modifies `state, `gaps, `budget
      ensures Produced(request, old(state), state)
      ensures published.Some? ==>
        && state.cp.Some? && state.cp.value.result == published
        && (old(HasResult(state)) ==> Core(old(state.cp.value.result.value)) == Core(published.value))
      ensures old(Calm(2)) && old(HasResult(state)) ==>
        && gaps == [] && old(budget) <= budget + 2
        && published == Some(CleanResult(request, old(state), s)) && sha == CleanSha(request, old(state), s)
        && state == old(state).(cp := state.cp, head := if Publishes(Given(old(state), s)) then s.reportCommit else old(state.head))
      ensures old(Calm(13)) && Proceeds(request, old(state), s) ==>
        && gaps == [] && old(budget) <= budget + 6
        && published == Some(CleanResult(request, old(state), s)) && sha == CleanSha(request, old(state), s)
        && PlanReady(request, state, published.value, sha, CleanPlan(request, old(state), s), s)
        && state.notes == old(state.notes)
        && state.adapterRuns == old(state.adapterRuns) + (if old(HasResult(state)) then 0 else 1)
        && state.projections == old(state.projections) && state.dispatches == old(state.dispatches)
    {
      ghost var first := state;
      ProjectingOwnRoute(state.labels);
      if Proceeds(request, first, s) {
        ReadyToPlan(request, first, s);
      }
      var obtained := ObtainResult(s);
      if obtained.None? {
        return None, request.sha;
      }
      published, sha := PublishReports(s, obtained.value);
    }

    /** From the published result on: plan, announce, project, dispatch. */
    method Transit(s: Surroundings, earlier: Option<NativeCheckpoint>, result: Result, sha: Sha, ghost clean: Plan)
      requires CheckpointBacked(request, earlier) && CheckpointBacked(request, state.cp)
      requires earlier.Some? && earlier.value.result.Some? ==> Core(earlier.value.result.value) == Core(result)
      requires state.cp.Some? && state.cp.value.result == Some(result)
      modifies `state, `gaps, `budget
      ensures state.cp.Some? && state.cp.value.result == Some(result) && Transited(request, old(state), state)
      ensures var exact := PlanOf(request, earlier, old(state.labels), result, sha, s);
        old(Calm(3)) && ShowsAlready(request, old(state), result, exact, s)
        && LeaseCovers(old(state.db), request.delivery, lease, s) ==>
          Settles(request, old(state), state, result, exact, s)
      ensures old(Calm(7)) && Unplanned(earlier) && PlanReady(request, old(state), result, sha, clean, s)
              && clean.route == RunningOf(request) && HandoffNote(result, sha) !in old(state.notes) ==>
        && state == old(state).(cp := state.cp)
      ensures old(Calm(7)) && Unplanned(earlier) && ReadyFor(request, old(state), result, sha, clean, s)
              && LeaseCovers(old(state.db), request.delivery, lease, s) ==>
        Finished(request, old(state), state, result, clean, s)
    {
      Fencing.NoCalls(state.db);
      var plan := PlanTransition(s, earlier, result, sha);
      if plan.None? {
        return;
      }
      Carry(s, result, plan.value);
    }

    /** Announce the stored plan, then project it and dispatch. */
    method Carry(s: Surroundings, result: Result, plan: Plan)
      requires Backed(request, result, plan) && Stored(state.cp, result, plan) && CheckpointBacked(request, state.cp)
      modifies `state, `gaps, `budget
      ensures state.cp == old(state.cp) && Transited(request, old(state), state)
      ensures old(Calm(2)) && ShowsAlready(request, old(state), result, plan, s) && Route(plan.live) == plan.route
              && LeaseCovers(old(state.db), request.delivery, lease, s) ==>
        Settles(request, old(state), state, result, plan, s)
      ensures StuckWithoutHandoff(plan.live, plan.route, HandoffNote(result, plan.sha) in old(state.notes)) ==>
        state == old(state)
      ensures old(Calm(6)) && ReadyFor(request, old(state), result, plan.sha, plan, s)
              && LeaseCovers(old(state.db), request.delivery, lease, s) ==>
        Finished(request, old(state), state, result, plan, s)
    {
      Fencing.NoCalls(state.db);
      var announced := Announce(s, result, plan);
      if announced {
        Conclude(s, result, plan);
      }
    }

    /** The start gate refuses: block the phase and finish. */
    method CloseGate(s: Surroundings)
      modifies `state, `gaps, `budget
      ensures SameButLog(old(state), state.(db := old(state.db), writes := old(state.writes)))
      ensures Fencing.ByLeasedCalls(old(state.db), state.db) && WritesJustly(request, old(state), state)
      ensures RunningIsStored(old(state), state)
      ensures old(Calm(2)) && old(Shows(request.sha, TodoOf(request))) && Recovery(QaEvidence) !in old(state.labels)
              && LeaseCovers(old(state.db), request.delivery, lease, s) ==>
        Closed(request, old(state), state)
    {
      Fencing.NoCalls(state.db);
      if !Shows(request.sha, TodoOf(request)) {
        return;
      }
      var live := state.labels;
      var base := if request.phase == Qa then live + {Recovery(QaEvidence)} else live;
      var before := base - {Recovery(QaEvidence)};
      GateBlocks(request, live, before, base);
      if Recovery(QaEvidence) !in live {
        assert before == live;
      }
      ghost var waiting := state;
      var written := WriteLabels(BlockedWrite, before, request.sha, Project(base, BlockedOf(request)));
      OneWriteIsJust(request, waiting, state);
      if written {
        Finish(s);
      }
    }

    /** Decide the transition and make it durable before anything announces it. */
    method PlanTransition(s: Surroundings, earlier: Option<NativeCheckpoint>, result: Result, sha: Sha)
      returns (plan: Option<Plan>)
      requires CheckpointBacked(request, earlier) && CheckpointBacked(request, state.cp)
      requires earlier.Some? && earlier.value.result.Some? ==> Core(earlier.value.result.value) == Core(result)
      requires state.cp.Some? && state.cp.value.result == Some(result)
      modifies `state, `gaps, `budget
      ensures CheckpointBacked(request, state.cp) && Recorded(old(state), state) && state.writes == old(state.writes)
      ensures state.db == old(state.db) && state.adapterRuns == old(state.adapterRuns)
      ensures state.cp.Some? && state.cp.value.result == Some(result)
      ensures plan.Some? ==> Backed(request, result, plan.value) && Stored(state.cp, result, plan.value)
      ensures plan.Some? ==>
        && old(state.head) == plan.value.sha == TransitionSha(result, sha) && plan.value.live == old(state.labels)
        && (Route(plan.value.live) == RunningOf(request) || Route(plan.value.live) == plan.value.route)
      ensures plan.None? ==> state.cp == old(state.cp)
      ensures var exact := PlanOf(request, earlier, old(state.labels), result, sha, s);
        old(Calm(1)) && old(state.head) == exact.sha
        && (Route(old(state.labels)) == RunningOf(request) || Route(old(state.labels)) == exact.route) ==>
          plan == Some(exact) && gaps == [] && budget == old(budget) - 1 && state == old(state).(cp := state.cp)
    {
      var transitionSha := if result.handoff && result.handoffSha.Some? then result.handoffSha.value else sha;
      var success, qa := result.verdict == Success, request.phase == Qa;
      var text := if earlier.Some? then earlier.value.text else None;
      if text.None? && success && qa && request.fromIssue {
        text := Some(s.text);
      }
      if state.head != transitionSha {
        return None;
      }
      var live := state.labels;
      var moved := success && qa && transitionSha != request.sha;
      var route := if moved then REVIEW_ROUTE
                   else Route(PlannedLabels(request.phase, earlier, live, result, text));
      if Route(live) != RunningOf(request) && Route(live) != route {
        return None;
      }
      var alive := Spend();
      if !alive {
        return None;
      }
      if !moved {
        PlannedRouteFits(request, earlier, live, result, text);
      }
      assert forall x :: x in route ==> IsRoute(x);
      ProjectionRoute(live, route);
      state := state.(cp := Some(NativeCheckpoint(request.sha, Some(result), Some(Project(live, route)), text)));
      plan := Some(Plan(transitionSha, route, text, moved, live));
    }

    /** Post the note unless the log holds it; a transition that shows already
        must have it. */
    method Record(note: Note, plan: Plan) returns (there: bool)
      modifies `state, `gaps, `budget
      ensures SameButLog(old(state), state)
      ensures there ==> note in state.notes
      ensures note in old(state.notes) ==> there && state == old(state) && gaps == old(gaps) && budget == old(budget)
      ensures StuckWithoutHandoff(plan.live, plan.route, note in old(state.notes)) ==> !there && state == old(state)
      ensures old(Calm(1)) && old(Shows(plan.sha, RunningOf(request))) && Route(plan.live) != plan.route ==>
        && there && gaps == [] && old(budget) <= budget + 1
        && state == old(state).(notes := state.notes)
    {
      there := note in state.notes;
      if there || StuckWithoutHandoff(plan.live, plan.route, there) {
        return;
      }
      if !Shows(plan.sha, RunningOf(request)) {
        return false;
      }
      there := Spend();
      if there {
        state := state.(notes := state.notes + [note]);
      }
    }

    /** Handoff, terminal policy and post-QA request, in this order, before any label. */
    method Announce(s: Surroundings, result: Result, plan: Plan) returns (announced: bool)
      requires Backed(request, result, plan)
      modifies `state, `gaps, `budget
      ensures SameButLog(old(state), state)
      ensures StuckWithoutHandoff(plan.live, plan.route, HandoffNote(result, plan.sha) in old(state.notes)) ==>
        !announced && state == old(state)
      ensures old(Calm(0)) && Announced(request, result, plan, old(state.notes)) && s.recheck == Recheck(true, true) ==>
        announced && state == old(state) && gaps == [] && budget == old(budget)
      ensures announced ==> Announced(request, result, plan, state.notes) && Rechecked(request, result, plan.sha, s.recheck)
      ensures old(Calm(3)) && old(Shows(plan.sha, RunningOf(request))) && Route(plan.live) != plan.route
              && s.recheck == Recheck(true, true) ==>
        announced && gaps == [] && old(budget) <= budget + 3 && state == old(state).(notes := state.notes)
    {
      var success, qa := result.verdict == Success, request.phase == Qa;
      announced := Record(HandoffNote(result, plan.sha), plan);
      if !announced {
        return;
      }
      if success && qa {
        announced := Record(PolicyRecord(plan.sha, plan.text), plan);
        if !announced || (!plan.moved && !s.recheck.qaStillValid) {
          return false;
        }
      }
      if plan.moved {
        if !s.recheck.ciGreen {
          return false;
        }
        announced := ReviewNote(plan.sha) in state.notes;
        if !announced {
          if !Shows(plan.sha, RunningOf(request)) {
            return false;
          }
          announced := Spend();
          if announced {
            state := state.(notes := state.notes + [ReviewNote(plan.sha)]);
          }
        }
      }
    }

    /** Project the announced transition and dispatch the next agent. */
    method Conclude(s: Surroundings, result: Result, plan: Plan)
      requires Backed(request, result, plan) && Announced(request, result, plan, state.notes)
      requires Rechecked(request, result, plan.sha, s.recheck) && Stored(state.cp, result, plan)
      modifies `state, `gaps, `budget
      ensures state.cp == old(state.cp) && state.adapterRuns == old(state.adapterRuns)
      ensures old(state.notes) <= state.notes && Fencing.ByLeasedCalls(old(state.db), state.db)
      ensures DispatchedJustly(request, old(state), state) && ProjectedJustly(request, old(state), state)
      ensures WritesJustly(request, old(state), state)
      ensures old(Calm(2)) && old(Shows(plan.sha, plan.route)) && Route(plan.live) == plan.route != RunningOf(request)
              && request.phase in {Prototype, Qa, Deploy} && LeaseCovers(old(state.db), request.delivery, lease, s) ==>
        Settles(request, old(state), state, result, plan, s)
      ensures old(Calm(3)) && old(Shows(plan.sha, RunningOf(request))) && old(state.labels) == plan.live
              && Route(plan.live) != plan.route && (forall x :: x in plan.route ==> IsRoute(x))
              && StateWriter.Refused(plan.live, Project(plan.live, plan.route)).None?
              && request.phase in {Prototype, Qa, Deploy}
              && LeaseCovers(old(state.db), request.delivery, lease, s) ==>
        Concluded(request, old(state), state, result, plan, s)
    {
      Fencing.NoCalls(state.db);
      if Route(plan.live) == RunningOf(request) {
        var projected := ProjectTransition(s, result, plan);
        if !projected {
          return;
        }
      }
      DispatchNext(s, result, plan);
    }

    method ProjectTransition(s: Surroundings, result: Result, plan: Plan) returns (projected: bool)
      requires Backed(request, result, plan) && Announced(request, result, plan, state.notes)
      requires Rechecked(request, result, plan.sha, s.recheck) && Stored(state.cp, result, plan)
      modifies `state, `gaps, `budget
      ensures old(state.notes) <= state.notes
      ensures state == old(state).(labels := state.labels, head := state.head, notes := state.notes,
                                   projections := state.projections, writes := state.writes)
      ensures ProjectedJustly(request, old(state), state) && WritesJustly(request, old(state), state)
      ensures old(Calm(1)) && old(Shows(plan.sha, RunningOf(request)))
              && StateWriter.Refused(old(state.labels), Project(old(state.labels), plan.route)).None? ==>
        && projected && gaps == [] && budget == old(budget) - 1 && state.notes == old(state.notes)
        && state.labels == Project(old(state.labels), plan.route) && state.head == plan.sha
        && state.projections == old(state.projections)
             + [Transition(plan.sha, plan.route, result, plan.text, s.recheck, |state.notes|)]
    {
      if !Shows(plan.sha, RunningOf(request)) {
        return false;
      }
      var latest := state.labels;
      ghost var announced := state;
      TransitionIsJust(request, latest, plan.route);
      projected := WriteLabels(TransitionWrite, latest, plan.sha, Project(latest, plan.route));
      OneWriteIsJust(request, announced, state);
      if projected {
        var seen := |state.notes|;
        state := state.(projections := state.projections + [Transition(plan.sha, plan.route, result, plan.text, s.recheck, seen)]);
      }
    }

    method DispatchNext(s: Surroundings, result: Result, plan: Plan)
      requires Backed(request, result, plan) && Announced(request, result, plan, state.notes)
      requires Rechecked(request, result, plan.sha, s.recheck) && Stored(state.cp, result, plan)
      modifies `state, `gaps, `budget
      ensures SameButLog(old(state), state.(db := old(state.db), dispatches := old(state.dispatches)))
      ensures Fencing.ByLeasedCalls(old(state.db), state.db)
      ensures DispatchedJustly(request, old(state), state)
      ensures state.dispatches != old(state.dispatches) ==> old(Shows(plan.sha, plan.route))
      ensures old(Calm(2)) && old(Shows(plan.sha, plan.route)) && request.phase in {Prototype, Qa, Deploy}
              && LeaseCovers(old(state.db), request.delivery, lease, s) ==>
        && state == old(state).(db := state.db, dispatches := state.dispatches)
        && (result.verdict != FailedResult ==> Fencing.HasEnded(state.db, request.delivery))
        && state.dispatches == old(state.dispatches) + DispatchOf(request, result, plan, s)
    {
      Fencing.NoCalls(state.db);
      var success, qa := result.verdict == Success, request.phase == Qa;
      if plan.moved {
        Finish(s);
        return;
      }
      if success {
        ReleaseIsTold(plan);
        if qa && !RoutesToRelease(Project(plan.live, plan.route)) {
          Finish(s);
          return;
        }
        if request.phase !in {Prototype, Qa, Deploy} || !Shows(plan.sha, plan.route) {
          return;
        }
        if qa {
          FittingReleaseIsAllowed(request, result, plan.text, plan.route);
        }
        var kind := if request.phase == Prototype then ImplementationDispatch
                    else if qa then ReleaseDispatch else DeploymentDispatch;
        var alive := Spend();
        if !alive {
          return;
        }
        state := state.(dispatches := state.dispatches + [Dispatch(kind, plan.sha, plan.text, plan.route, s.recheck)]);
      }
      if result.verdict != FailedResult {
        Finish(s);
      }
    }
  }

  /* ---- What every attempt keeps ---- */

  predicate HasResult(n: Native) { n.cp.Some? && n.cp.value.result.Some? }

  /** A checkpointed result survives, and the adapter is not run again. */
  predicate Kept(a: Native, b: Native) {
    && (HasResult(a) ==> HasResult(b) && Core(b.cp.value.result.value) == Core(a.cp.value.result.value)
                         && b.adapterRuns == a.adapterRuns)
    && a.adapterRuns <= b.adapterRuns <= a.adapterRuns + 1
  }

  /** Other people changed labels, pushed or commented. */
  predicate Disturbed(a: Native, b: Native) {
    a.notes <= b.notes && b == a.(labels := b.labels, head := b.head, notes := b.notes)
  }

  /** Nothing was dispatched or projected, and the log only grew. */
  predicate Recorded(a: Native, b: Native) {
    b.dispatches == a.dispatches && b.projections == a.projections && a.notes <= b.notes
  }

  /** Nothing durable but the log of comments is new; labels and head are others'. */
  predicate SameButLog(a: Native, b: Native) { Disturbed(a, b) }

  /** A planned transition fits the result it is stored with, and in QA the issue's
      policy text is stored beside it. */
  predicate CheckpointBacked(r: Request, cp: Option<NativeCheckpoint>) {
    cp.Some? && cp.value.transition.Some? ==>
      && cp.value.result.Some?
      && RouteFits(r, cp.value.result.value, cp.value.text, Route(cp.value.transition.value))
      && (cp.value.result.value.verdict == Success && r.phase == Qa && r.fromIssue ==> cp.value.text.Some?)
  }

  /** The plan's route is the review of a commit QA made, or fits the result. */
  predicate Backed(r: Request, result: Result, plan: Plan) {
    && (plan.moved <==> result.verdict == Success && r.phase == Qa && plan.sha != r.sha)
    && (if plan.moved then plan.route == REVIEW_ROUTE else RouteFits(r, result, plan.text, plan.route))
    && forall x :: x in plan.route ==> IsRoute(x)
  }

  /** The log holds the exact handoff and, in QA, the resolved policy, and for a
      commit that QA made the request of a new review. */
  predicate AnnouncedFor(r: Request, result: Result, sha: Sha, text: Option<PolicyText>, notes: seq<Note>) {
    && HandoffNote(result, sha) in notes
    && (result.verdict == Success && r.phase == Qa ==> PolicyRecord(sha, text) in notes)
    && (result.verdict == Success && r.phase == Qa && sha != r.sha ==> ReviewNote(sha) in notes)
  }

  predicate Announced(r: Request, result: Result, plan: Plan, notes: seq<Note>) {
    && AnnouncedFor(r, result, plan.sha, plan.text, notes)
    && (plan.moved ==> ReviewNote(plan.sha) in notes)
  }

  /** The kind of a dispatch is that of its phase, and its route is where the kept,
      successful result leads; a release goes out only for the reviewed commit,
      under an enabling policy. */
  predicate Justified(r: Request, n: Native, d: Dispatch) {
    && HasResult(n) && n.cp.value.result.value.verdict == Success
    && RouteFits(r, n.cp.value.result.value, d.text, d.route)
    && match d.kind
       case ImplementationDispatch => r.phase == Prototype
       case ReleaseDispatch =>
         r.phase == Qa && ReleaseAllowed(d.text) && d.sha == r.sha && d.recheck.qaStillValid
         && d.route * WORKFLOW_LABELS == {Agent(Codex), Phase(Release), Status(Todo)}
       case DeploymentDispatch => r.phase == Deploy
  }

  /** The checkpointed result, up to its commit, was handed off for this commit. */
  predicate HandedOff(n: Native, sha: Sha) {
    HasResult(n) && exists i :: 0 <= i < |n.notes| && n.notes[i].HandoffNote? && n.notes[i].sha == sha
                                && Core(n.notes[i].result) == Core(n.cp.value.result.value)
  }

  predicate DispatchedJustly(r: Request, a: Native, b: Native) {
    || b.dispatches == a.dispatches
    || (|b.dispatches| == |a.dispatches| + 1 && a.dispatches <= b.dispatches
        && Justified(r, b, b.dispatches[|a.dispatches|]) && HandedOff(b, b.dispatches[|a.dispatches|].sha))
  }

  /** The transition was announced before its labels were written, and its route is
      where the result leads, or the review of the commit QA made. */
  predicate ProjectionJustified(r: Request, n: Native, p: Transition) {
    && HasResult(n) && Core(p.result) == Core(n.cp.value.result.value)
    && p.seen <= |n.notes| && AnnouncedFor(r, p.result, p.sha, p.text, n.notes[..p.seen])
    && Rechecked(r, p.result, p.sha, p.recheck)
    && (if p.result.verdict == Success && r.phase == Qa && p.sha != r.sha then p.route == REVIEW_ROUTE
        else RouteFits(r, p.result, p.text, p.route))
  }

  predicate ProjectedJustly(r: Request, a: Native, b: Native) {
    || b.projections == a.projections
    || (|b.projections| == |a.projections| + 1 && a.projections <= b.projections
        && ProjectionJustified(r, b, b.projections[|a.projections|])
        && b.cp.value.transition.Some? && Route(b.cp.value.transition.value) == b.projections[|a.projections|].route)
  }

  /** The worker's own label writes: TODO to RUNNING, TODO to BLOCKED by a closed
      gate, with the QA recovery label in QA, and RUNNING to a transition. */
  predicate WriteJustified(r: Request, w: LabelWrite) {
    && Unrelated(w.after) == Unrelated(w.before) && Canonical(w.after) && !HumanWait(w.before)
    && match w.kind
       case RunningWrite =>
         Route(w.before) == TodoOf(r) && Route(w.after) == RunningOf(r) && Alarms(w.after) == Alarms(w.before)
       case BlockedWrite =>
         Route(w.before) == TodoOf(r) && Route(w.after) == BlockedOf(r)
         && Alarms(w.before) <= Alarms(w.after) <= Alarms(w.before) + {Recovery(QaEvidence)}
         && (r.phase == Qa ==> Recovery(QaEvidence) in w.after)
       case TransitionWrite => Route(w.before) == RunningOf(r) && Alarms(w.after) == Alarms(w.before)
  }

  predicate WritesJustly(r: Request, a: Native, b: Native) {
    a.writes <= b.writes && forall k :: |a.writes| <= k < |b.writes| ==> WriteJustified(r, b.writes[k])
  }

  lemma OneWriteIsJust(r: Request, a: Native, b: Native)
    requires b.writes == a.writes
      || (|b.writes| == |a.writes| + 1 && a.writes <= b.writes && WriteJustified(r, b.writes[|a.writes|]))
    ensures WritesJustly(r, a, b)
  {
  }

  lemma StartsClean(r: Request, live: LabelSet)
    requires Route(live) == TodoOf(r)
    ensures WriteJustified(r, LabelWrite(RunningWrite, live, Project(live, RunningOf(r))))
    ensures StateWriter.Refused(live, Project(live, RunningOf(r))).None?
  {
    ProjectionRoute(live, RunningOf(r));
    WorkRouteIsCanonical(live, Workbuddy, r.phase, Todo);
    WorkRouteIsCanonical(Project(live, RunningOf(r)), Workbuddy, r.phase, StatusName.Running);
  }

  lemma GateBlocks(r: Request, live: LabelSet, before: LabelSet, base: LabelSet)
    requires Route(live) == TodoOf(r) && before == live - {Recovery(QaEvidence)}
    requires base == if r.phase == Qa then live + {Recovery(QaEvidence)} else live
    ensures WriteJustified(r, LabelWrite(BlockedWrite, before, Project(base, BlockedOf(r))))
  {
    ProjectionRoute(base, BlockedOf(r));
    assert Route(before) == Route(live);
    WorkRouteIsCanonical(before, Workbuddy, r.phase, Todo);
    WorkRouteIsCanonical(Project(base, BlockedOf(r)), Workbuddy, r.phase, StatusName.Blocked);
    assert Unrelated(base) == Unrelated(live) == Unrelated(before);
    assert Alarms(base) <= Alarms(before) + {Recovery(QaEvidence)};
  }

  lemma TransitionIsJust(r: Request, live: LabelSet, route: LabelSet)
    requires Route(live) == RunningOf(r) && forall x :: x in route ==> IsRoute(x)
    ensures StateWriter.Refused(live, Project(live, route)).None? ==>
      WriteJustified(r, LabelWrite(TransitionWrite, live, Project(live, route)))
  {
    ProjectionRoute(live, route);
  }

  lemma ProjectingOwnRoute(live: LabelSet)
    ensures Project(live, Route(live)) == live
  {
  }

  lemma ReleaseIsTold(plan: Plan)
    ensures RoutesToRelease(Project(plan.live, plan.route)) <==> RoutesToRelease(plan.route)
  {
  }

  /** The evidence read again: for a QA success still valid, or for a commit QA made
      a green CI run. */
  predicate Rechecked(r: Request, result: Result, sha: Sha, seen: Recheck) {
    result.verdict == Success && r.phase == Qa ==> if sha == r.sha then seen.qaStillValid else seen.ciGreen
  }

  /** The result and the transition of the plan are checkpointed. */
  predicate Stored(cp: Option<NativeCheckpoint>, result: Result, plan: Plan) {
    cp.Some? && cp.value.result == Some(result) && cp.value.transition.Some?
    && Route(cp.value.transition.value) == plan.route && cp.value.text == plan.text
  }

  /** No transition has been planned yet. */
  predicate Unplanned(cp: Option<NativeCheckpoint>) { cp.None? || (cp.value.transition.None? && cp.value.text.None?) }

  /** Whoever shows RUNNING by this attempt has a checkpoint to resume from. */
  predicate RunningIsStored(a: Native, b: Native) {
    (exists k :: |a.writes| <= k < |b.writes| && b.writes[k].kind == RunningWrite) ==> b.cp.Some?
  }

  /** Where an attempt may begin: TODO at the request's commit without a checkpoint;
      with one of this commit, RUNNING, or TODO as long as there is no result, or
      the labels of the transition it had planned. */
  predicate MayResume(r: Request, a: Native) {
    || (a.cp == None && a.head == r.sha && Route(a.labels) == {Agent(Workbuddy), Phase(r.phase), Status(Todo)})
    || (a.cp.Some? && a.cp.value.sourceSha == r.sha
        && (Route(a.labels) == {Agent(Workbuddy), Phase(r.phase), Status(Running)}
            || (a.cp.value.result == None && Route(a.labels) == {Agent(Workbuddy), Phase(r.phase), Status(Todo)})
            || (a.cp.value.transition.Some? && a.cp.value.transition.value != {}
                && Route(a.labels) == Route(a.cp.value.transition.value))))
  }

  ghost predicate Attempted(r: Request, a: Native, b: Native) {
    && Kept(a, b) && CheckpointBacked(r, b.cp) && a.notes <= b.notes
    && DispatchedJustly(r, a, b) && ProjectedJustly(r, a, b) && WritesJustly(r, a, b)
    && RunningIsStored(a, b) && Fencing.ByLeasedCalls(a.db, b.db)
  }

  /** The part of an attempt up to the published result. */
  predicate Produced(r: Request, a: Native, b: Native) {
    && Kept(a, b) && CheckpointBacked(r, b.cp) && Recorded(a, b) && b.db == a.db
    && WritesJustly(r, a, b) && RunningIsStored(a, b)
  }

  /** The part from there on. */
  ghost predicate Transited(r: Request, a: Native, b: Native) {
    && HasResult(a) && HasResult(b) && b.cp.value.result == a.cp.value.result && CheckpointBacked(r, b.cp)
    && b.adapterRuns == a.adapterRuns && a.notes <= b.notes
    && DispatchedJustly(r, a, b) && ProjectedJustly(r, a, b) && WritesJustly(r, a, b)
    && Fencing.ByLeasedCalls(a.db, b.db)
  }

  lemma ProducedIsAnAttempt(r: Request, a: Native, b: Native)
    requires Produced(r, a, b)
    ensures Attempted(r, a, b)
  {
    Fencing.NoCalls(a.db);
  }

  lemma AttemptInTwoParts(r: Request, a: Native, m: Native, b: Native)
    requires Produced(r, a, m) && Transited(r, m, b)
    ensures Attempted(r, a, b)
  {
    forall k | |a.writes| <= k < |b.writes|
      ensures WriteJustified(r, b.writes[k])
    {
      if k < |m.writes| {
        assert b.writes[k] == m.writes[k];
      }
    }
  }

  /* ---- A clean attempt completes ---- */

  predicate Publishes(r: Result) { r.verdict == Success && r.changes != [] }
  function Bound(r: Result, sha: Sha): Result { if Publishes(r) && r.handoff then r.(handoffSha := Some(sha)) else r }
  function TransitionSha(r: Result, sha: Sha): Sha { if r.handoff && r.handoffSha.Some? then r.handoffSha.value else sha }

  function PolicyOf(r: Request, result: Result, s: Surroundings): Option<PolicyText> {
    if result.verdict == Success && r.phase == Qa && r.fromIssue then Some(s.text) else None
  }

  /** The commit, the result and the plan of an attempt that nothing disturbs. */
  function Given(a: Native, s: Surroundings): Result { if HasResult(a) then a.cp.value.result.value else s.adapter }
  function CleanSha(r: Request, a: Native, s: Surroundings): Sha { if Publishes(Given(a, s)) then s.reportCommit else r.sha }
  function CleanResult(r: Request, a: Native, s: Surroundings): Result { Bound(Given(a, s), CleanSha(r, a, s)) }

  function CleanPlan(r: Request, a: Native, s: Surroundings): Plan {
    var result, sha := CleanResult(r, a, s), CleanSha(r, a, s);
    var moved := result.verdict == Success && r.phase == Qa && sha != r.sha;
    var text := PolicyOf(r, result, s);
    Plan(sha, if moved then REVIEW_ROUTE else ExpectedRoute(r.phase, result, text), text, moved,
         Project(a.labels, RunningOf(r)))
  }

  /** What goes out for a plan: nothing for a failure, a moved commit or an owner wait. */
  function DispatchOf(r: Request, result: Result, plan: Plan, s: Surroundings): seq<Dispatch> {
    if plan.moved || result.verdict != Success || (r.phase == Qa && !RoutesToRelease(plan.route)) then []
    else [Dispatch(if r.phase == Prototype then ImplementationDispatch
                   else if r.phase == Qa then ReleaseDispatch else DeploymentDispatch,
                   plan.sha, plan.text, plan.route, s.recheck)]
  }

  /** The plan of a result on these labels, after an earlier checkpoint. */
  function PlanOf(
      r: Request, earlier: Option<NativeCheckpoint>, live: LabelSet, result: Result, sha: Sha, s: Surroundings): Plan
  {
    var at := TransitionSha(result, sha);
    var moved := result.verdict == Success && r.phase == Qa && at != r.sha;
    var text := if earlier.Some? && earlier.value.text.Some? then earlier.value.text else PolicyOf(r, result, s);
    Plan(at, if moved then REVIEW_ROUTE else Route(PlannedLabels(r.phase, earlier, live, result, text)), text, moved, live)
  }

  predicate LeaseCovers(db: Queue.Db, d: DeliveryId, l: Lease, s: Surroundings) { Queue.Live(db, d, l, s.finishedAt) }

  /** A request that may begin or resume behind an open gate, with no transition
      planned yet, whose result names the head it will have. */
  predicate Proceeds(r: Request, a: Native, s: Surroundings) {
    && MayResume(r, a) && Unplanned(a.cp) && a.head == r.sha && s.gateOpen && r.phase in {Prototype, Qa, Deploy}
    && TransitionSha(CleanResult(r, a, s), CleanSha(r, a, s)) == CleanSha(r, a, s)
  }

  /** And all evidence is there, and the result leads somewhere else and to labels the
      shared writer accepts. */
  predicate CleanRun(r: Request, a: Native, s: Surroundings) {
    var plan := CleanPlan(r, a, s);
    && Proceeds(r, a, s) && s.recheck == Recheck(true, true) && plan.route != RunningOf(r)
    && StateWriter.Refused(plan.live, Project(plan.live, plan.route)).None?
  }

  /** Its result leads to where it runs already, and nobody posted its handoff. */
  predicate StuckRun(r: Request, a: Native, s: Surroundings) {
    && Proceeds(r, a, s) && CleanPlan(r, a, s).route == RunningOf(r)
    && HandoffNote(CleanResult(r, a, s), CleanSha(r, a, s)) !in a.notes
  }

  predicate StuckStart(r: Request, a: Native, s: Surroundings) {
    StuckRun(r, a, s) && Queue.ClaimNext(a.db, r.delivery, s.claimedAt).1.Some?
  }

  /** Nothing was announced, projected, dispatched or finished. */
  predicate Stranded(r: Request, a: Native, b: Native) {
    && b.notes == a.notes && b.projections == a.projections && b.dispatches == a.dispatches
    && Route(b.labels) == RunningOf(r)
    && (Fencing.HasEnded(b.db, r.delivery) ==> Fencing.HasEnded(a.db, r.delivery))
  }

  /** A closed gate on a fresh request. */
  predicate GateStops(r: Request, a: Native, s: Surroundings) {
    && a.cp.None? && a.head == r.sha && Route(a.labels) == TodoOf(r) && !s.gateOpen
    && Recovery(QaEvidence) !in a.labels
  }

  predicate GateCloses(r: Request, a: Native, s: Surroundings) {
    && GateStops(r, a, s) && Queue.ClaimNext(a.db, r.delivery, s.claimedAt).1.Some?
    && s.claimedAt <= s.finishedAt < s.claimedAt + Queue.LEASE_SECONDS
  }

  /** The labels show this plan already, and it was announced in full. */
  predicate ShowsAlready(r: Request, a: Native, result: Result, plan: Plan, s: Surroundings) {
    && a.head == plan.sha && Route(a.labels) == plan.route != RunningOf(r) && r.phase in {Prototype, Qa, Deploy}
    && Announced(r, result, plan, a.notes) && s.recheck == Recheck(true, true)
  }

  /** Then no label is written again: what is to go out goes out, and the event ends. */
  predicate Settles(r: Request, a: Native, b: Native, result: Result, plan: Plan, s: Surroundings) {
    && b.labels == a.labels && b.projections == a.projections && b.notes == a.notes && b.adapterRuns == a.adapterRuns
    && b.dispatches == a.dispatches + DispatchOf(r, result, plan, s)
    && (result.verdict != FailedResult ==> Fencing.HasEnded(b.db, r.delivery))
  }

  function ReplayPlan(r: Request, a: Native, s: Surroundings): Plan {
    PlanOf(r, a.cp, a.labels, CleanResult(r, a, s), CleanSha(r, a, s), s)
  }

  /** A stop after the label write: the result is kept, and the labels and the log of
      the head the reports have show its plan. */
  predicate Projected(r: Request, a: Native, s: Surroundings) {
    && MayResume(r, a) && HasResult(a) && s.gateOpen
    && ShowsAlready(r, a.(head := if Publishes(Given(a, s)) then s.reportCommit else a.head),
                    CleanResult(r, a, s), ReplayPlan(r, a, s), s)
  }

  predicate ProjectedStart(r: Request, a: Native, s: Surroundings) {
    && Projected(r, a, s) && Queue.ClaimNext(a.db, r.delivery, s.claimedAt).1.Some?
    && s.claimedAt <= s.finishedAt < s.claimedAt + Queue.LEASE_SECONDS
  }

  predicate Settled(r: Request, a: Native, b: Native, s: Surroundings) {
    Settles(r, a, b, CleanResult(r, a, s), ReplayPlan(r, a, s), s)
  }

  /** The phase is blocked, in QA with the mark that lets it recover, and the event
      is over. */
  predicate Closed(r: Request, a: Native, b: Native) {
    && Route(b.labels) == {Agent(Workbuddy), Phase(r.phase), Status(StatusName.Blocked)}
    && Unrelated(b.labels) == Unrelated(a.labels)
    && Alarms(b.labels) == Alarms(a.labels) + (if r.phase == Qa then {Recovery(QaEvidence)} else {})
    && Fencing.HasEnded(b.db, r.delivery)
  }

  /** Behind a closed gate nothing runs and nothing goes out. */
  predicate GateKeeps(a: Native, b: Native) {
    b.cp == a.cp && b.adapterRuns == a.adapterRuns && b.dispatches == a.dispatches && b.projections == a.projections
  }

  predicate CleanStart(r: Request, a: Native, s: Surroundings) {
    && CleanRun(r, a, s) && Queue.ClaimNext(a.db, r.delivery, s.claimedAt).1.Some?
    && s.claimedAt <= s.finishedAt < s.claimedAt + Queue.LEASE_SECONDS
  }

  /** The transition is projected, the next agent is dispatched if there is one, and
      the event has ended unless the adapter failed. */
  predicate Concluded(r: Request, a: Native, b: Native, result: Result, plan: Plan, s: Surroundings) {
    && b.labels == Project(plan.live, plan.route) && b.head == plan.sha
    && b.projections == a.projections + [Transition(plan.sha, plan.route, result, plan.text, s.recheck, |a.notes|)]
    && b.dispatches == a.dispatches + DispatchOf(r, result, plan, s)
    && (result.verdict != FailedResult ==> Fencing.HasEnded(b.db, r.delivery))
  }

  /** The same, up to how many notes had been seen. */
  predicate Finished(r: Request, a: Native, b: Native, result: Result, plan: Plan, s: Surroundings) {
    && b.labels == Project(plan.live, plan.route) && b.head == plan.sha
    && |b.projections| == |a.projections| + 1 && a.projections <= b.projections
    && b.projections[|a.projections|] ==
         Transition(plan.sha, plan.route, result, plan.text, s.recheck, b.projections[|a.projections|].seen)
    && b.dispatches == a.dispatches + DispatchOf(r, result, plan, s)
    && (result.verdict != FailedResult ==> Fencing.HasEnded(b.db, r.delivery))
  }

  /** The running labels and the head let this plan be made. */
  predicate PlanReady(r: Request, a: Native, result: Result, sha: Sha, plan: Plan, s: Surroundings) {
    && a.labels == plan.live && Route(plan.live) == RunningOf(r) && a.head == sha == plan.sha
    && TransitionSha(result, sha) == sha && plan.text == PolicyOf(r, result, s) && r.phase in {Prototype, Qa, Deploy}
    && (plan.moved <==> result.verdict == Success && r.phase == Qa && sha != r.sha)
    && plan.route == (if plan.moved then REVIEW_ROUTE else Route(NextLabels(r.phase, plan.live, result, plan.text)))
  }

  /** And the evidence and the writer let it go through. */
  predicate ReadyFor(r: Request, a: Native, result: Result, sha: Sha, plan: Plan, s: Surroundings) {
    && PlanReady(r, a, result, sha, plan, s)
    && plan.route != RunningOf(r) && s.recheck == Recheck(true, true)
    && StateWriter.Refused(plan.live, Project(plan.live, plan.route)).None?
  }

  /** The adapter ran once in all, its result is kept, and the clean plan went through. */
  predicate Completed(r: Request, a: Native, b: Native, s: Surroundings) {
    && b.adapterRuns == a.adapterRuns + (if HasResult(a) then 0 else 1)
    && HasResult(b) && b.cp.value.result == Some(CleanResult(r, a, s))
    && Finished(r, a, b, CleanResult(r, a, s), CleanPlan(r, a, s), s)
  }

  /** After a clean start the labels show RUNNING, and the next labels are the plan's. */
  lemma ReadyToPlan(r: Request, a: Native, s: Surroundings)
    requires Proceeds(r, a, s)
    ensures var plan := CleanPlan(r, a, s);
      && Route(plan.live) == RunningOf(r)
      && (!plan.moved ==> Route(NextLabels(r.phase, plan.live, CleanResult(r, a, s), plan.text)) == plan.route)
      && forall x :: x in plan.route ==> IsRoute(x)
  {
    var plan := CleanPlan(r, a, s);
    ProjectionRoute(a.labels, RunningOf(r));
    NextLabelsFollowTransitions(r.phase, plan.live, CleanResult(r, a, s), plan.text);
    OwnRoutes(r.phase, CleanResult(r, a, s), plan.text);
  }

  /** What an attempt does from the claimed row it does from the waiting one. */
  lemma FromClaim(r: Request, a: Native, claimed: Native, b: Native, s: Surroundings)
    requires claimed == a.(db := claimed.db) && Fencing.ByLeasedCalls(a.db, claimed.db)
    requires Attempted(r, claimed, b)
    ensures Attempted(r, a, b)
    ensures CleanRun(r, a, s) ==> CleanRun(r, claimed, s)
    ensures StuckRun(r, a, s) ==> StuckRun(r, claimed, s)
    ensures Projected(r, a, s) ==> Projected(r, claimed, s)
    ensures CleanRun(r, a, s) && Completed(r, claimed, b, s) ==> Completed(r, a, b, s)
  {
    Fencing.LeasedCallsCompose(a.db, claimed.db, b.db);
  }

  /* ---- Histories ---- */

  /** Between attempts other people act, and any store calls are made. */
  ghost predicate Outside(a: Native, b: Native) {
    && a.notes <= b.notes && Fencing.ByLeasedCalls(a.db, b.db)
    && b == a.(labels := b.labels, head := b.head, notes := b.notes, db := b.db)
  }

  /** The queue hands out the delivery in this state, at some time. */
  ghost predicate HandedOut(r: Request, a: Native) {
    exists t: Time :: Queue.ClaimNext(a.db, r.delivery, t).1.Some?
  }

  ghost predicate Follows(r: Request, a: Native, b: Native) {
    Outside(a, b) || (HandedOut(r, a) && Attempted(r, a, b))
  }

  /** Any number of attempts, crashes and outside changes. */
  ghost predicate History(r: Request, states: seq<Native>) {
    && states != [] && states[0].cp.None?
    && states[0].dispatches == [] && states[0].projections == [] && states[0].writes == []
    && forall i :: 0 <= i < |states| - 1 ==> Follows(r, states[i], states[i + 1])
  }

  /** `Process` may be entered from every state a history reaches. */
  lemma {:induction false} EveryAttemptMayRun(r: Request, states: seq<Native>, j: nat)
    requires History(r, states) && j < |states|
    ensures CheckpointBacked(r, states[j].cp)
  {
    if j > 0 {
      EveryAttemptMayRun(r, states, j - 1);
      assert Follows(r, states[j - 1], states[j - 1 + 1]);
    }
  }

  /** Once a result is checkpointed, every later checkpoint keeps it and the
      adapter is never run again. */
  lemma {:induction false} ResultIsRunOnce(r: Request, states: seq<Native>, i: nat, j: nat)
    requires History(r, states) && i <= j < |states| && HasResult(states[i])
    ensures HasResult(states[j]) && states[j].adapterRuns == states[i].adapterRuns
    ensures Core(states[j].cp.value.result.value) == Core(states[i].cp.value.result.value)
    decreases j
  {
    if i < j {
      ResultIsRunOnce(r, states, i, j - 1);
      assert Follows(r, states[j - 1], states[j - 1 + 1]);
    }
  }

  /** Where a result leads does not depend on the commit its handoff names. */
  lemma RouteFitsCore(r: Request, a: Result, b: Result, text: Option<PolicyText>, route: LabelSet)
    requires Core(a) == Core(b)
    ensures RouteFits(r, a, text, route) <==> RouteFits(r, b, text, route)
  {
    assert a.verdict == Core(a).verdict && a.next == Core(a).next;
    assert b.verdict == Core(b).verdict && b.next == Core(b).next;
  }

  /** What justified a dispatch or a projection justifies it for ever. */
  lemma DispatchJustificationLasts(r: Request, a: Native, b: Native, d: Dispatch)
    requires Follows(r, a, b) && Justified(r, a, d) && HandedOff(a, d.sha)
    ensures Justified(r, b, d) && HandedOff(b, d.sha)
  {
    var i :| 0 <= i < |a.notes| && a.notes[i].HandoffNote? && a.notes[i].sha == d.sha
      && Core(a.notes[i].result) == Core(a.cp.value.result.value);
    assert b.notes[i] == a.notes[i];
    RouteFitsCore(r, a.cp.value.result.value, b.cp.value.result.value, d.text, d.route);
    assert b.cp.value.result.value.verdict == Core(b.cp.value.result.value).verdict;
  }

  lemma ProjectionJustificationLasts(r: Request, a: Native, b: Native, p: Transition)
    requires Follows(r, a, b) && ProjectionJustified(r, a, p)
    ensures ProjectionJustified(r, b, p)
  {
    assert b.notes[..p.seen] == a.notes[..p.seen];
  }

  /** Every dispatch ever sent is of its phase's kind, on the route where the kept,
      successful result leads, after an exact handoff of it; a release had an
      enabling policy and a QA that did not move HEAD. */
  lemma {:induction false} DispatchesAreJustified(r: Request, states: seq<Native>, j: nat, k: nat)
    requires History(r, states) && j < |states| && k < |states[j].dispatches|
    ensures Justified(r, states[j], states[j].dispatches[k]) && HandedOff(states[j], states[j].dispatches[k].sha)
    decreases j
  {
    if j > 0 {
      assert Follows(r, states[j - 1], states[j - 1 + 1]);
      if k < |states[j - 1].dispatches| {
        DispatchesAreJustified(r, states, j - 1, k);
        assert states[j].dispatches[k] == states[j - 1].dispatches[k];
        DispatchJustificationLasts(r, states[j - 1], states[j], states[j].dispatches[k]);
      }
    }
  }

  /** Every transition the worker ever projected went where its result leads, and
      had, among the notes before its label write, its exact handoff and, in QA,
      the resolved policy and for a moved commit the request of a new review. */
  lemma {:induction false} TransitionsAreAnnounced(r: Request, states: seq<Native>, j: nat, k: nat)
    requires History(r, states) && j < |states| && k < |states[j].projections|
    ensures ProjectionJustified(r, states[j], states[j].projections[k])
    decreases j
  {
    if j > 0 {
      assert Follows(r, states[j - 1], states[j - 1 + 1]);
      if k < |states[j - 1].projections| {
        TransitionsAreAnnounced(r, states, j - 1, k);
        assert states[j].projections[k] == states[j - 1].projections[k];
        ProjectionJustificationLasts(r, states[j - 1], states[j], states[j].projections[k]);
      }
    }
  }

  /** The worker writes no other labels: TODO to RUNNING, TODO to BLOCKED by a
      closed gate, and RUNNING to a transition, each canonical, none out of a
      human wait, and foreign labels untouched. */
  lemma {:induction false} LabelWritesAreJustified(r: Request, states: seq<Native>, j: nat, k: nat)
    requires History(r, states) && j < |states| && k < |states[j].writes|
    ensures WriteJustified(r, states[j].writes[k])
    decreases j
  {
    if j > 0 {
      assert Follows(r, states[j - 1], states[j - 1 + 1]);
      if k < |states[j - 1].writes| {
        LabelWritesAreJustified(r, states, j - 1, k);
        assert states[j].writes[k] == states[j - 1].writes[k];
      }
    }
  }

  /** A finished delivery is silent for ever: the store hands it out no more, so
      no attempt follows, whatever calls are made under leases. */
  lemma {:induction false} EndedStaysSilent(r: Request, states: seq<Native>, i: nat, j: nat)
    requires History(r, states) && i <= j < |states| && Fencing.HasEnded(states[i].db, r.delivery)
    ensures Fencing.HasEnded(states[j].db, r.delivery)
    ensures states[j].cp == states[i].cp && states[j].adapterRuns == states[i].adapterRuns
    ensures states[j].dispatches == states[i].dispatches && states[j].projections == states[i].projections
    ensures states[j].writes == states[i].writes
    decreases j
  {
    if i < j {
      EndedStaysSilent(r, states, i, j - 1);
      var a, b := states[j - 1], states[j];
      assert Follows(r, states[j - 1], states[j - 1 + 1]);
      assert !HandedOut(r, a) by {
        forall t: Time
          ensures Queue.ClaimNext(a.db, r.delivery, t).1.None?
        {
          Fencing.EndedIsNeverHandedOut(a.db, [], r.delivery, r.delivery, Lease(0, NativeClaim), t);
        }
      }
      var calls :| Fencing.FinishedUnderLease(calls) && b.db == Queue.Exec(a.db, calls);
      Fencing.EndedIsNeverHandedOut(a.db, calls, r.delivery, r.delivery, Lease(0, NativeClaim), 0);
    }
  }
}
