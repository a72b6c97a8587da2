/** Pull-request labels. The prefix of a label is its constructor, so the
    prefix tests of the controller become constructor tests. */
module Labels {
  datatype AgentName = Chatgpt | Workreview | Workbuddy | Codex | OtherAgent(name: string)

  datatype PhaseName =
    | ProductPlan | Prototype | Implementation | CodeReview | EscalationRepair
    | Qa | Release | Deploy | OtherPhase(name: string)

  datatype StatusName = Todo | Running | Blocked | Review | OtherStatus(name: string)
  datatype ApprovalName = ProductionRequired | ProductionApproved | OtherApproval(name: string)
  datatype RecoveryName = QaEvidence | RepairCi | Technical | OtherRecovery(name: string)
  datatype WatchdogName = Timeout | OtherWatchdog(name: string)

  datatype Label =
    | Agent(agent: AgentName)
    | Phase(phase: PhaseName)
    | Status(status: StatusName)
    | Approval(approval: ApprovalName)
    | Blocker(code: string)
    | Recovery(recovery: RecoveryName)
    | Watchdog(watchdog: WatchdogName)
    | Plain(text: string)

  type LabelSet = set<Label>

  predicate IsAlarm(x: Label) { x.Blocker? || x.Recovery? || x.Watchdog? }
  predicate IsRoute(x: Label) { x.Agent? || x.Phase? || x.Status? || x.Approval? }

  function Agents(labels: LabelSet): LabelSet { set x <- labels | x.Agent? }
  function Phases(labels: LabelSet): LabelSet { set x <- labels | x.Phase? }
  function Statuses(labels: LabelSet): LabelSet { set x <- labels | x.Status? }
  function Approvals(labels: LabelSet): LabelSet { set x <- labels | x.Approval? }
  function Alarms(labels: LabelSet): LabelSet { set x <- labels | IsAlarm(x) }

  /** The routing part of a label set: agent, phase, status and approval. */
  function Route(labels: LabelSet): LabelSet { set x <- labels | IsRoute(x) }

  /** Labels the controller never owns. */
  function Unrelated(labels: LabelSet): LabelSet { set x <- labels | x.Plain? }

  /** Exactly one agent, phase and working status, or a clean human wait. */
  predicate Canonical(labels: LabelSet) {
    if Statuses(labels) == {Status(Review)} then
      && Agents(labels) == {} && Phases(labels) == {}
      && Approvals(labels) != {} && Alarms(labels) == {}
    else
      && |Statuses(labels)| == 1 && |Agents(labels)| == 1 && |Phases(labels)| == 1
      && Approvals(labels) == {}
      && Statuses(labels) <= {Status(Todo), Status(Running), Status(Blocked)}
  }

  /** A label set that waits for a person. */
  predicate HumanWait(labels: LabelSet) {
    Approvals(labels) != {} || Status(Review) in labels
  }

  function WorkRoute(agent: AgentName, phase: PhaseName, status: StatusName): LabelSet {
    {Agent(agent), Phase(phase), Status(status)}
  }

  const HUMAN_WAIT_ROUTE: LabelSet := {Status(Review), Approval(ProductionRequired)}

  /** Replacing the route of a quiet label set by a work route is canonical. */
  lemma WorkRouteIsCanonical(labels: LabelSet, agent: AgentName, phase: PhaseName, status: StatusName)
    requires Route(labels) == WorkRoute(agent, phase, status)
    requires status in {Todo, Running, Blocked}
    ensures Canonical(labels) && !HumanWait(labels)
    ensures Statuses(labels) == {Status(status)}
    ensures Agents(labels) == {Agent(agent)} && Phases(labels) == {Phase(phase)}
  {
    forall x
      ensures x in Statuses(labels) <==> x == Status(status)
      ensures x in Agents(labels) <==> x == Agent(agent)
      ensures x in Phases(labels) <==> x == Phase(phase)
      ensures x !in Approvals(labels)
    {
      assert x in Route(labels) <==> x in labels && IsRoute(x);
    }
    assert Statuses(labels) == {Status(status)};
    assert Agents(labels) == {Agent(agent)};
    assert Phases(labels) == {Phase(phase)};
    assert Status(Review) in labels ==> Status(Review) in Statuses(labels);
  }

  lemma HumanWaitRouteIsCanonical(labels: LabelSet)
    requires Route(labels) == HUMAN_WAIT_ROUTE && Alarms(labels) == {}
    ensures Canonical(labels) && HumanWait(labels)
  {
    forall x
      ensures x in Statuses(labels) <==> x == Status(Review)
      ensures x in Approvals(labels) <==> x == Approval(ProductionRequired)
      ensures x !in Agents(labels) && x !in Phases(labels)
    {
      assert x in Route(labels) <==> x in labels && IsRoute(x);
    }
    assert Statuses(labels) == {Status(Review)};
    assert Approval(ProductionRequired) in Approvals(labels);
  }

  /** A canonical set never mixes a human wait with an active worker route. */
  lemma CanonicalSeparatesHumanWait(labels: LabelSet)
    requires Canonical(labels)
    ensures HumanWait(labels) <==> Statuses(labels) == {Status(Review)}
    ensures HumanWait(labels) ==> Agents(labels) == {} && Phases(labels) == {}
  {
    if Status(Review) in labels {
      assert Status(Review) in Statuses(labels);
    }
    if Statuses(labels) == {Status(Review)} {
      assert Status(Review) in Statuses(labels);
    }
  }

  /** Swapping one route for another changes the route and nothing else. */
  lemma RouteSwap(before: LabelSet, target: LabelSet)
    requires forall x :: x in target ==> IsRoute(x)
    ensures Route((before - Route(before)) + target) == target
    ensures Unrelated((before - Route(before)) + target) == Unrelated(before)
    ensures Alarms((before - Route(before)) + target) == Alarms(before)
  {
    var after := (before - Route(before)) + target;
    forall x
      ensures x in Route(after) <==> x in target
      ensures x in Unrelated(after) <==> x in Unrelated(before)
      ensures x in Alarms(after) <==> x in Alarms(before)
    {
    }
  }

  /** Canonical sets without their own definition: a work route of one agent, one
      phase and one working status, or a quiet wait for an approval. */
  lemma CanonicalInPlainTerms(labels: LabelSet)
    ensures Canonical(labels) <==>
      || (exists agent, phase, status ::
            status in {Todo, Running, Blocked} && Route(labels) == {Agent(agent), Phase(phase), Status(status)})
      || (&& Status(Review) in labels && (exists a :: Approval(a) in labels)
          && forall x :: x in labels ==>
               !x.Agent? && !x.Phase? && (x.Status? ==> x == Status(Review)) && !x.Blocker? && !x.Recovery? && !x.Watchdog?)
  {
    if Canonical(labels) {
      if Statuses(labels) == {Status(Review)} {
        assert Status(Review) in Statuses(labels);
        var a :| a in Approvals(labels);
        assert Approval(a.approval) in labels;
        forall x | x in labels
          ensures !x.Agent? && !x.Phase? && (x.Status? ==> x == Status(Review)) && !IsAlarm(x)
        {
          assert x.Agent? ==> x in Agents(labels);
          assert x.Phase? ==> x in Phases(labels);
          assert x.Status? ==> x in Statuses(labels);
          assert IsAlarm(x) ==> x in Alarms(labels);
        }
      } else {
        CanonicalWorkIsARoute(labels);
      }
    }
    if agent, phase, status :|
      status in {Todo, Running, Blocked} && Route(labels) == {Agent(agent), Phase(phase), Status(status)}
    {
      WorkRouteIsCanonical(labels, agent, phase, status);
    } else if Status(Review) in labels && (exists a :: Approval(a) in labels)
      && forall x :: x in labels ==>
           !x.Agent? && !x.Phase? && (x.Status? ==> x == Status(Review)) && !x.Blocker? && !x.Recovery? && !x.Watchdog?
    {
      var a :| Approval(a) in labels;
      assert Approval(a) in Approvals(labels) && Status(Review) in Statuses(labels);
      assert Statuses(labels) == {Status(Review)} && Agents(labels) == {} && Phases(labels) == {} && Alarms(labels) == {};
    }
  }

  lemma Singleton(s: LabelSet)
    requires |s| == 1
    ensures exists x :: x in s && s == {x}
  {
    var x :| x in s;
    assert |s - {x}| == 0;
  }

  lemma CanonicalWorkIsARoute(labels: LabelSet)
    requires Canonical(labels) && Statuses(labels) != {Status(Review)}
    ensures exists agent, phase, status ::
      status in {Todo, Running, Blocked} && Route(labels) == {Agent(agent), Phase(phase), Status(status)}
  {
    Singleton(Agents(labels));
    Singleton(Phases(labels));
    Singleton(Statuses(labels));
    var a :| a in Agents(labels) && Agents(labels) == {a};
    var p :| p in Phases(labels) && Phases(labels) == {p};
    var s :| s in Statuses(labels) && Statuses(labels) == {s};
    forall x
      ensures x in Route(labels) <==> x in {Agent(a.agent), Phase(p.phase), Status(s.status)}
    {
      assert x in Agents(labels) <==> x in labels && x.Agent?;
      assert x in Phases(labels) <==> x in labels && x.Phase?;
      assert x in Statuses(labels) <==> x in labels && x.Status?;
      assert x in Approvals(labels) <==> x in labels && x.Approval?;
    }
    assert Route(labels) == {Agent(a.agent), Phase(p.phase), Status(s.status)};
  }
}
