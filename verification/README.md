# Verification of the lease-fenced workflow controller

The controller moves pull requests through a fixed sequence of agent phases
(prototype, implementation, code review, QA, human wait) by changing labels on
GitHub. Workers hold renewable leases; evidence lives in the comments and CI
runs of a pull request; every process may crash, lose a response, or be
overtaken by another one. This project models the four layers that make this
safe and proves what they guarantee over whole runs.

| layer | modules |
|---|---|
| lease and operation-claim store | `LeaseStore`, `StateStore`, `Fencing`, `StoreLaws` |
| label projection under the per-PR lock | `Labels`, `StateWriter`, `HeadTransition` |
| evidence gates and decision procedures over the comment log | `HandoffGate`, `EvidenceGate`, `ReviewAutomaton`, `StateProjection`, `GateLaws`, `Reconcile`, `DecideLaws` |
| claim endpoints, expiry recovery, crash and retry | `ClaimApi`, `ClaimSession`, `ClaimLaws`, `Workflow` |
| issue intake and planning reservations | `Intake`, `Planning`, `PlanningLaws` |
| crash-replay executors | `NativeReplay`, `ReportPublication`, `ClaimClient` |
| places where a promise fails, with inputs | `Findings` |

Objects that the controller updates in place (`Store`, `IntakeStore`, `Remote`,
`Row`, `AcquireLoop`, `Worker`) are classes. The methods of the first five are
proved equal to a value function (`LeaseStore.ClaimExternal`, ...), and `Worker`
against a relation between two durable states (`NativeReplay.Attempted`) and a
completion clause; the theorems over runs are about those functions and that
relation. Scans and
sorts over comment lists are methods with loops, proved equal to a specification
function whose meaning is then stated declaratively. The modules named `...Laws`
say for every operation exactly when it grants, refuses or writes and what it
leaves behind, in terms of rows, logins, tokens, handoff fields and labels.

Main results:

* Fencing: between two successful ownership assertions of one (delivery, lease)
  nobody else's assertion on that key succeeds, in any run from an empty store;
  a lease that is dead once is never honoured again.
* A live lease ends only by its expiry or by a finish of its own event; a granted
  planning lease excludes every other planner for its whole term.
* No lost update and absorbing human wait, for any interleaving of the small
  steps of any number of label writers with store calls, crashes and pushes.
* Over the whole life of a lease, its head moves, report commits and decisions
  included and with a stop possible after every effect, `advance` changes labels
  at most once, and `start` at most once more often than the lease's own retry
  decisions landed on a start not recorded as applied: exactly once each in a
  life without decisions. Once the start is recorded as applied, no later
  requeue is ever undone.
* Every transition the native worker projects has its exact handoff, and in QA
  its policy record, in the comment log before the labels are written.
* The review gate, which sorts and takes maxima, is a three-state automaton, and
  accepts exactly when an unvoided claim comment stands with a passing review
  after it; start, transition and handoff gates have such specifications too; the second decision
  procedure of the reconciler never outruns the gates.
* A progress law: verified advances equal the potential spent plus QA report
  advances plus review-to-repair decisions, minus skipping recoveries; and
  human wait is entered only on evidence for the very commit that is the head.
* Planning reservations stay coupled to the issue lease, are immutable, and an
  issue that ever had a pull request is never handed out again.
* Report publication is atomic, loses no commit, and is repeatable exactly when
  every supplied file differs from the parent.

Five promises turned out to be false in corner cases; see `Findings`. Beside
each stands the exact condition under which the promise holds, for all inputs:

* Expiry recovery requeues QA work the gate would advance when the QA handoff is
  spelled `qa` or names another pull request
  (`ClaimApi.RecoveryRequeuesAdvanceableWorkOnlyWhenMisspelled`).
* The reconciler converges into the human wait on a review that names another
  pull request, which the QA gate refuses
  (`Reconcile.OwnerWaitIsAuthorisedExactlyForThisPr`).
* A recovery that finds the pull request on the review route of a QA report
  commit may go on to the human wait in one write, so the progress law carries
  a `skips` term (`Workflow.SkipMeaning`).
* A retry decision of a lease may be undone by the lease's own repeated start,
  when the start's applied mark and the decision's finish were both lost. A start
  call changes labels exactly when the pull request waits in TODO, the gate is
  open and this lease's start is not recorded as applied
  (`ClaimSession.StartChangesLabelsExactly`), and a retry reopens it exactly when
  it lands in that state (`ClaimSession.RetryReopensExactly`).
* A successful deployment whose result names no labels plans the route it already
  shows, so the worker finds a transition without its handoff and stops, in every
  attempt (orchestrator/main.py:514-515, orchestrator/task_router.py:95-96). A
  running worker is stuck like that exactly when the planned route is the running
  route (`NativeReplay.StuckExactlyWhenRouteStays`), and `Worker.Process` then
  announces, projects, dispatches and finishes nothing.

## Assumptions

* Every store method is one atomic step that reads the clock once; clocks never
  run backwards. `heartbeat`, `checkpoint` and `finish` really read it just
  before a single UPDATE (orchestrator/state_store.py:215-226). Timestamps are
  integers.
* Lease ids are fresh: a serial number, with the minting method as a tag that no
  code inspects. Digests (delivery ids, owner hashes, publication ids) are
  injective constructors.
* Operation keys and projection keys are two constructors; the code keeps them
  apart by the length of a JSON list.
* Comments are parsed already: author, rank of (created_at, id), the outcome of
  extracting a handoff, and the set of texts and of lines the gates look for.
  Between equal ranks the earlier comment in the list wins, as Python's stable
  sort and `max` have it.
* GitHub has no compare-and-set on labels. `StateWriter.Enabled` therefore
  states three hypotheses: a PUT lands while its writer's lease is live, nobody
  edits labels by hand between a live writer's verification and its PUT, and a
  lease has at most one write in flight.
* In `Workflow` a write lands in one step, with the checks the writer makes when
  it verifies; `Workflow.PutIsALanding` shows that the small-step writer allows
  that, and "the head at the write" means the head the writer verified.
* A crash is a budget: the number of effects that happen before a call stops.
* Attempts of the native worker on one delivery do not overlap, and comments are
  never deleted.
* In `ClaimSession` the calls under one lease follow one another, and the marker
  comment is posted by the account of the owner or the bot, the two whose
  comments the gates read. A claim begins with no checkpoint, as the store
  inserts it.
* Callers of `finish` present their lease; the code's callers all do.
* The handoff gate is modelled for a nonempty SHA, which all callers modelled
  here pass; the code skips the SHA test for an empty one.
* Schedules of foreign pushes, outside comments, CI lists and snapshots are
  arbitrary; the comments a plan reads may be any stale prefix of the log.

The prose documentation quotes planner leases of 180 seconds; the code grants
one hour (orchestrator/state_store.py:15), and so does the model.

## Model

| member | source | states |
|---|---|---|
| StateStore.Store.RecoverInterrupted | orchestrator/state_store.py:126-145 | exactly the native events whose lease is gone are requeued; external ones are untouched |
| StateStore.Store.ClaimNext | orchestrator/state_store.py:166-213 | the oldest eligible event is handed out under a fresh lease, or none is eligible |
| StateStore.Store.Heartbeat | orchestrator/state_store.py:215-226 | only a live lease is extended |
| StateStore.Store.ClaimOperation | orchestrator/state_store.py:228-264 | a key is granted unless another live event holds it; the whole new state |
| StateStore.Store.AssertOperation | orchestrator/state_store.py:266-276 | succeeds exactly for the live owner of the key |
| StateStore.Store.ClaimExternal | orchestrator/state_store.py:283-328 | repeat, reuse, conflict and first claim, with event, claim row and lease written together |
| StateStore.Store.AssertLease | orchestrator/state_store.py:330-338 | succeeds exactly for a live lease |
| StateStore.Store.WriteCheckpoint | orchestrator/state_store.py:340-351 | a checkpoint needs a running event and, when a lease is given, a live one |
| StateStore.Store.Finish | orchestrator/state_store.py:353-379 | a live lease closes or requeues its event with the retry delay; nothing else does |
| StateStore.Store.MoveExternalHead | orchestrator/state_store.py:397-431 | binding, checkpoint and claim move in one step or not at all |
| StateStore.Store.ReclaimExternal | orchestrator/state_store.py:433-454 | compare-and-set on an expired external lease; no key is handed out |
| Fencing.DeadLeaseStaysDead | orchestrator/state_store.py:215-276 | a lease that expired, was finished or was replaced is dead for the rest of any run |
| Fencing.DeadLeaseIsInert | orchestrator/state_store.py:166-276 | no later heartbeat, checkpoint, finish, claim, assertion, move or repeated acquisition under a dead lease is honoured |
| Fencing.EndedIsNeverHandedOut | orchestrator/state_store.py:166-213 | a finished event is final: no later call changes it, no lease of it is live, the queue never hands it out again |
| StoreLaws.StepKeepsLive | orchestrator/state_store.py:126-454 | no call of anybody ends or shortens a live lease but a finish of its own event |
| StoreLaws.LeaseLastsUntilExpiry | orchestrator/state_store.py:126-454 | a live lease stays live until the expiry it has, through any run without a finish of its event |
| StoreLaws.LeaseEndsOnlyByExpiryOrFinish | orchestrator/state_store.py:126-454 | in every run from an empty store a lease that was live and is not any more expired or was finished |
| StoreLaws.SweepRequeuesExactlyExpired | orchestrator/state_store.py:126-145 | the sweep requeues exactly running native events without an unexpired lease, and leaves every other row as it is |
| StoreLaws.ClaimNextHandsOutTheOldestWaiting | orchestrator/state_store.py:166-213 | an event is handed out exactly when it waits and none that waits is older, under a full-length lease nothing has had before; live leases are untouched |
| StoreLaws.EnqueueRecordsOnce | orchestrator/state_store.py:147-164 | a delivery is recorded once and waits; a repeated webhook changes nothing |
| StoreLaws.HeartbeatExtends | orchestrator/state_store.py:215-226 | exactly a live lease is extended, to exactly its full length, and nothing else |
| StoreLaws.CheckpointNeedsRunningEvent | orchestrator/state_store.py:340-351 | when a checkpoint is stored, what it changes, and that a refusal changes nothing |
| StoreLaws.RetryScheduleIs | orchestrator/state_store.py:364-366 | the delays by number of attempts |
| StoreLaws.FinishEndsTheLease | orchestrator/state_store.py:353-379 | an accepted finish ends the lease for good, or lets the event wait exactly from its retry delay on |
| StoreLaws.ClaimGrantsFreeKeysOnly | orchestrator/state_store.py:228-264 | a live worker gets a key exactly when no other live worker holds it |
| StoreLaws.ExternalClaimGrantsFreeKeysOnly | orchestrator/state_store.py:283-328 | new requests are granted exactly on free keys, repeated ones exactly while they own theirs |
| StoreLaws.ReclaimTakesExpiredLeasesOnly | orchestrator/state_store.py:433-454 | a takeover happens exactly on expiry, once, and hands out no key |
| StoreLaws.HeadMoveReplies | orchestrator/state_store.py:397-431 | when a move is lost, repeated or refused, and that only the moved event changes |
| Fencing.LiveOwnerKeepsKey | orchestrator/state_store.py:228-264 | whoever is still live at the end of a run still owns the key it owned before |
| Fencing.OwnerHoldsBetweenAssertions | orchestrator/state_store.py:266-276 | no stealing in between two successful assertions, from any reachable state |
| Fencing.Fencing | orchestrator/state_store.py:228-276 | in every run from an empty store, between two successful assertions of one owner no other owner's assertion succeeds |
| Fencing.ReachableHoldersOwnTheirKey | orchestrator/state_store.py:283-328 | every live lease minted by an external claim owns the key computed from its own stored repository, PR, SHA and phase, through any mix of calls |
| Fencing.MoveIsExclusiveAndAtomic | orchestrator/state_store.py:397-431 | a move is refused while another live owner holds the new key and otherwise updates binding, checkpoint and claim together |
| Labels.WorkRouteIsCanonical | orchestrator/state_writer.py:8-17 | a label set routed to one agent, phase and working status is canonical and no human wait |
| Labels.CanonicalSeparatesHumanWait | orchestrator/state_writer.py:8-17 | a canonical set that waits for a person carries no agent and no phase |
| Labels.CanonicalInPlainTerms | orchestrator/state_writer.py:8-17 | canonical sets are exactly one agent, phase and working status without approval, or a quiet review status with an approval |
| StateWriter.RefusalsInPlainTerms | orchestrator/state_writer.py:20-28 | which arguments the writer accepts |
| StateWriter.StepKeepsSafe | orchestrator/state_writer.py:20-60 | every small step of every writer, store call, crash, push and permitted edit keeps the writers' invariant |
| StateWriter.VerifiedSince | orchestrator/state_writer.py:33-49 | a live verified writer did verify, on the identified pull request, and the labels have been what it saw ever since |
| StateWriter.NoLostUpdate | orchestrator/state_writer.py:30-59 | under any interleaving a PUT replaces exactly the labels its writer verified, by labels the writer's checks accept |
| StateWriter.FinishedWriteWentThrough | orchestrator/state_writer.py:20-60 | a write that reports success took six steps of the run in order: accepted and locked, matched on the identified pull request, all keys owned, put, found again on it, all keys owned still |
| StateWriter.HumanWaitIsAbsorbing | orchestrator/state_writer.py:27-28 | no run of machines changes the labels of a pull request that waits for a person |
| StateWriter.OnceWaitingAlwaysWaiting | orchestrator/state_writer.py:20-60 | the same for a wait reached at any moment of any run |
| StateWriter.MachineRunsKeepLabelsCanonical | orchestrator/state_writer.py:8-26 | labels are untouched or canonical, and unrelated labels survive every run |
| HeadTransition.RefreshStore | orchestrator/head_transition.py:23-56 | the rebinding on the row the caller was handed, however stale, with the clock read twice, equals its specification |
| HeadTransition.RebindFollowsLiveHead | orchestrator/head_transition.py:23-56 | a rebinding, on however stale a row, ends bound to the live head: either this very move was made before and nothing changes, or the owner owns the new key and projections of the old commit are gone |
| HeadTransition.RebindNeverSteals | orchestrator/head_transition.py:23-56 | a key held by another live worker leaves the store as it was |
| HeadTransition.RebindIsIdempotent | orchestrator/head_transition.py:23-33 | after the move a refresh changes nothing, on the old row as on the new one |
| ClaimLaws.RefreshMeans | orchestrator/head_transition.py:23-56 | exactly when a refresh leaves a lease alone, reports a mismatch or may move, and that only a rebinding writes |
| ClaimLaws.SessionRefreshMeans | orchestrator/head_transition.py:23-56 | in the life of a lease a refresh moves the commit exactly when the declared one is live on its quiet running PR |
| HeadTransition.AdvanceAfterRebindNeedsNewEvidence | orchestrator/head_transition.py:46-53 | after a move an advance needs green CI of the new commit and a trusted record of this task naming it, unless it is the report case, whose report commit is the new head |
| HandoffGate.SortNewestFirst | orchestrator/handoff_gate.py:98-146 | the sort, current commit first and then newest, stable |
| HandoffGate.FindLatestMatchingHandoff | orchestrator/handoff_gate.py:98-146 | collect, sort, scan equals one maximum pass, including the refusal of malformed trusted comments |
| HandoffGate.SortedScanFindsLatest | orchestrator/handoff_gate.py:128-146 | the first routed record of the sorted list is the highest candidate of the log |
| HandoffGate.GateSpecification | orchestrator/handoff_gate.py:149-186 | the gate accepts exactly when all trusted marked comments parse and the greatest trusted record with this task, route, phase and SHA is a success without blockers, and returns that record |
| HandoffGate.GateIgnoresListOrder | orchestrator/handoff_gate.py:149-186 | the verdict is invariant under permutation and repetition |
| HandoffGate.GateIgnoresNoise | orchestrator/handoff_gate.py:98-146 | untrusted comments and well-formed records of other commits never change acceptance |
| GateLaws.HandoffGateInPlainTerms | orchestrator/handoff_gate.py:98-186 | the gate accepts exactly when all trusted handoffs parse and the newest with these fields is a success without blockers |
| HandoffGate.CheckIndependentReview | orchestrator/handoff_gate.py:38-95 | the two lists and their maxima decide: a claim before the pass and after every invalidation |
| EvidenceGate.FindSuccessfulCurrentCi | orchestrator/evidence_gate.py:12-31 | the newest ordinary run of the commit and branch, if it succeeded |
| EvidenceGate.CiMeansGreen | orchestrator/evidence_gate.py:12-31 | CI is accepted exactly when a green run exists that no newer run supersedes |
| EvidenceGate.CheckQaEvidence | orchestrator/evidence_gate.py:34-65 | the whole QA gate as a program equals its specification, error by error |
| EvidenceGate.CheckOwnerWaitEvidence | orchestrator/evidence_gate.py:68-105 | the one-pass scan for the terminal policy and the QA record equals its specification |
| EvidenceGate.NewestRecordsAreNewest | orchestrator/evidence_gate.py:68-105 | both records exist in the log, name task and commit, and none of their kind is newer |
| ReviewAutomaton.FoldExplains | orchestrator/handoff_gate.py:58-95 | what each automaton state says about the last claim, invalidation and review |
| ReviewAutomaton.GateIsAutomaton | orchestrator/evidence_gate.py:34-65 | on an append-only log with well-formed owner handoffs the review gate accepts exactly when the automaton ends in `Passed` |
| ReviewAutomaton.QaGateIsAutomaton | orchestrator/evidence_gate.py:34-65 | the QA gate accepts exactly in `Passed` with green current CI |
| ReviewAutomaton.VoidedPassNeedsClaimAndPass | orchestrator/handoff_gate.py:66-95 | from `Idle` the automaton reaches `Passed` only by a claim followed by a pass |
| GateLaws.ReviewGateInPlainTerms | orchestrator/evidence_gate.py:34-65 | on an append-only log the review is accepted exactly when an owner's claim comment stands unvoided, a passing owner review for this PR follows, and no claim or review after |
| GateLaws.MarkRevokesPass | orchestrator/handoff_gate.py:66-95 | an owner's repair or requeue, the bot's post-QA request, or a new claim, for this task and commit, revokes any pass at once |
| GateLaws.FailureRevokesPass | orchestrator/handoff_gate.py:98-186 | so does a later review outcome that is no pass |
| GateLaws.VoidedReviewNeedsClaimAndPass | orchestrator/handoff_gate.py:66-95 | after a voiding comment nothing is accepted until a new claim comment and, after it, a passing review |
| GateLaws.OwnerWaitInPlainTerms | orchestrator/evidence_gate.py:68-105 | the owner wait stands exactly when the bot's newest policy stops before release and its newest QA record is good news |
| StateProjection.AcceptedRoute | orchestrator/state_projection.py:7-47 | evidence decides whether a phase advances, the phase alone decides where to |
| GateLaws.TransitionGateInPlainTerms | orchestrator/state_projection.py:7-47 | a phase advances exactly with green CI and its own evidence, phase by phase |
| StateProjection.HumanWaitNeedsTerminalEvidence | orchestrator/state_projection.py:10-20 | human wait needs a review pass, a QA handoff, a terminal policy and green CI of this commit |
| StateProjection.FindDurableResult | orchestrator/external_recovery.py:37-62 | the recovery's scan finds a durable phase result exactly when the log holds one |
| GateLaws.DurableResultInPlainTerms | orchestrator/external_recovery.py:37-62 | which comments recovery takes for a result, by author, fields and lines |
| StateProjection.GateImpliesDurable | orchestrator/external_recovery.py:37-62 | in the four non-QA phases everything the gate would advance is a durable result |
| StateProjection.AcceptedEvidenceNamesCommit | orchestrator/state_projection.py:12-47 | whatever the gate accepts rests on a record of the owner or the bot that names task and commit |
| StateProjection.QaResultIsDurableExactlyWhenSpelled | orchestrator/external_recovery.py:37-62 | in QA recovery sees a durable result exactly when a trusted QA handoff has the spelling and PR number it expects |
| StateProjection.QaGateImpliesDurableWhenSpelled | orchestrator/evidence_gate.py:68-105 | what the gate accepts in QA holds a newest QA record, and recovery agrees if that record is spelled and numbered as it expects |
| Reconcile.SelectNewestReview | scripts/reconcile_handoff_state.py:86-105 | the maximum over trusted review outcomes of this task and commit |
| Reconcile.SelectNewestRelevant | scripts/reconcile_handoff_state.py:165-198 | collecting and sorting in place yields the highest relevant owner handoff |
| Reconcile.QaTargetIsValidated | scripts/reconcile_handoff_state.py:165-293 | a decision that sends the pull request to QA is one the QA gate accepts |
| Reconcile.ReviewTargetIsVerified | scripts/reconcile_handoff_state.py:165-293 | a decision that sends it to code review is the route the implementation gate verifies |
| Reconcile.OwnerWaitIsAuthorisedExactlyForThisPr | scripts/reconcile_handoff_state.py:83-123 | convergence to the owner wait is an authorised QA transition exactly when the review names this PR or none |
| DecideLaws.RerouteMeans | scripts/reconcile_handoff_state.py:222-293 | a reroute leaves the target's agent, phase and status as only state labels, lifts only its own block, and is never decided while a person waits or without green CI |
| DecideLaws.RerouteFollowsHandoff | scripts/reconcile_handoff_state.py:165-220 | agent and phase of the target are those of an owner's good-news handoff of this task, commit and PR |
| DecideLaws.EnsureDispatchMeans | scripts/reconcile_handoff_state.py:261-274 | QA is woken again only where its idle route is all the state shown |
| DecideLaws.ConvergeMeans | scripts/reconcile_handoff_state.py:83-123 | convergence swaps the state labels for the owner wait, on terminal evidence and a passing review, never over an approval given or a block |
| DecideLaws.RequeueMeans | scripts/reconcile_handoff_state.py:124-151 | the final review is queued only from QA or to complete a queued review, and marked exactly if the bot had not |
| DecideLaws.WaitIsOnlyCompleted | scripts/reconcile_handoff_state.py:152-163 | while a person waits only completing that wait is ever decided |
| DecideLaws.ActsOnHandoff | scripts/reconcile_handoff_state.py:165-293 | an actionable handoff does bring the state labels to its target |
| DecideLaws.TerminalStageActs | scripts/reconcile_handoff_state.py:83-163 | on terminal evidence a passed final review leads to the owner wait, a missing one is queued again exactly from QA or to complete its queued review |
| DecideLaws.UnfinishedWaitIsNamed | scripts/reconcile_handoff_state.py:152-163 | where a person waits too early, the missing piece is named |
| ClaimApi.AdvanceTargets | orchestrator/claim_api.py:572-614 | a QA lease that moved HEAD through reports can only advance to a new code review, every other one along its phase |
| ClaimLaws.NextRouteTable | orchestrator/state_projection.py:12-47 | the next route of each phase, label by label |
| ClaimLaws.CurrentInPlainTerms | orchestrator/claim_api.py:111-135 | which snapshots the endpoints go on from, and which error a moved head or another task gets |
| GateLaws.StartGateInPlainTerms | orchestrator/claim_api.py:441-505 | the start gate is open exactly when the phase's evidence stands, phase by phase |
| ClaimLaws.StartWritesExactly | orchestrator/claim_api.py:429-546 | when a start is planned, for the first time or again, and what it would write |
| ClaimLaws.AdvanceWritesExactly | orchestrator/claim_api.py:548-614 | when an advance is planned and that it swaps the route and nothing else |
| ClaimLaws.DecisionWritesExactly | orchestrator/claim_api.py:345-382 | when a decision is planned, who may ask for a repair, and the labels it leaves |
| ClaimLaws.RecoveryMeans | orchestrator/external_recovery.py:84-159 | when recovery settles, closes, waits or rewrites, and what it rewrites |
| ClaimApi.RecoveryRequeuesAdvanceableWorkOnlyWhenMisspelled | orchestrator/external_recovery.py:126-159 | a recovery that rewrites labels requeues what the gate would advance exactly in QA and exactly when no trusted QA handoff has the spelling and PR number it expects |
| ClaimSession.Row.Start | orchestrator/claim_api.py:429-546 | the endpoint with a stop after any effect equals its specification |
| ClaimSession.Row.Advance | orchestrator/claim_api.py:548-651 | the same for `advance`, marker comment and closing of the row included |
| ClaimSession.Row.PrepareHead | orchestrator/claim_api.py:141-177 | a declaration needs this lease's own applied start, a running route, no projection and no open declaration |
| ClaimSession.Row.PublishReports | orchestrator/claim_api.py:237-342 | report commit and rebinding as two effects with a stop between, refused once a report is bound or an advance is planned |
| ClaimSession.Row.Decide | orchestrator/claim_api.py:345-420 | a decision's durable plan, its label write and the closing of the row, with a stop between |
| ClaimSession.RefreshIsTheStoresMove | orchestrator/head_transition.py:23-56 | the session's rebinding is what the store's move leaves in the row |
| ClaimLaws.PublishingNeeds | orchestrator/claim_api.py:141-342 | a declaration or report needs its phase, the claim's own quiet running PR, this lease's applied start and no advance, and what it binds |
| ClaimLaws.StartRestsOnEvidence | orchestrator/claim_api.py:429-546 | in every life of a lease, whenever a start changes labels the log held the records its phase needs and CI was green where asked for |
| ClaimLaws.StartChangesLabelsExactlyOnEvidence | orchestrator/claim_api.py:429-546 | on a well-formed log a start changes labels exactly on an open row, the claim's own quiet PR in TODO, the phase's evidence and a start not recorded as applied |
| ClaimLaws.FirstStartCompletes | orchestrator/claim_api.py:429-546 | an undisturbed first start ends applied on the running labels |
| ClaimLaws.AdvanceCompletes | orchestrator/claim_api.py:548-651 | an undisturbed advance with the phase's evidence ends the claim on the next route |
| ClaimLaws.LandedAdvanceCompletes | orchestrator/claim_api.py:548-651 | a repeated advance whose labels had landed ends the claim without touching them |
| ClaimLaws.DecisionCompletes | orchestrator/claim_api.py:345-420 | an undisturbed decision ends the claim on its labels |
| ClaimSession.AtMostOnceUpToRetries | orchestrator/claim_api.py:141-651 | over the whole life of a lease from a fresh row, head moves, reports, decisions, foreign pushes, crashes and retries included: one advance or one parking decision, one marker, and one start change more at most than retries that landed on an unapplied start |
| ClaimSession.ExactlyOnceProjection | orchestrator/claim_api.py:429-651 | in a life without decisions of the lease: one start change, one advance change, one marker at most, and the exact label set each count stands for |
| ClaimSession.StartChangesLabelsExactly | orchestrator/claim_api.py:429-546 | a start call changes labels exactly on an open row, a TODO route, an open gate and a start not recorded as applied; a repeated change presupposes a retry that landed on an unapplied start |
| ClaimSession.RetryReopensExactly | orchestrator/claim_api.py:345-420 | a retry reopens the start exactly when it lands while a landed start is not recorded as applied, and then the next start call lands |
| ClaimSession.RequeueIsNeverUndone | orchestrator/claim_api.py:505-546 | in every run from a fresh row, once the start audit is applied no replay writes labels, whatever happened before and after, outside label edits included |
| Workflow.ProgressConservation | orchestrator/claim_api.py:580-614 | verified advances plus skips equal the potential spent plus report advances plus repair decisions, over every run |
| Workflow.AdvancesAreBounded | orchestrator/state_projection.py:7-47 | looping needs unboundedly many report advances or repair decisions |
| Workflow.SkipMeaning | orchestrator/external_recovery.py:115-159 | a recovery skips the review exactly from the post-QA route of a QA claim, and then only with full evidence for that commit |
| Workflow.ExactShaArrival | orchestrator/claim_api.py:572-651 | human wait is entered only by a write whose plan read the four pieces of evidence for the head commit, through any pushes and head moves |
| Workflow.PlansPassTheWriter | orchestrator/claim_api.py:360-382 | start, advance, decision and recovery never build a target the shared writer rejects |
| Workflow.PlansAreDurable | orchestrator/claim_api.py:400-640 | every planned write is in the row's checkpoint before it is pending |
| Workflow.PutIsALanding | orchestrator/state_writer.py:30-59 | every PUT of a run of small steps is a landing of `Workflow`: all its checks held at the verification and the labels stayed until the PUT |
| Workflow.ReportRunCompletes | orchestrator/claim_api.py:237-651 | a QA lease whose evidence holds does start, publish a report commit and hand exactly that commit to a new review |
| Intake.IntakeStore.ObserveRow | orchestrator/state_store.py:465-486 | one observation, with the sticky association and the lease it must not disturb |
| Intake.IntakeStore.IntakeItems | orchestrator/state_store.py:488-492 | every row once, ordered by issue number |
| Intake.IntakeStore.CloseUnseen | orchestrator/issue_intake.py:66-69 | closes what an earlier, possibly stale read shows as open and the list does not hold |
| Intake.IntakeStore.ScanIssues | orchestrator/issue_intake.py:37-70 | an uninterrupted scan: status by reassignment for every open issue, then closing of the rows read |
| Intake.IntakeStore.Claim | orchestrator/state_store.py:494-521 | the issue lease, all six outcomes |
| Intake.IntakeStore.Renew | orchestrator/state_store.py:523-529 | only the live holder's lease of this generation is extended |
| Intake.IntakeStore.PreparePublication | orchestrator/planning_publication.py:41-79 | reservation by the live holder, one per issue and per branch |
| Intake.IntakeStore.ResumePublication | orchestrator/planning_publication.py:89-134 | takeover writes the reservation's owner and the issue's lease together |
| Intake.IntakeStore.ReadForConfirm | orchestrator/planning_publication.py:141-149 | what a confirm call reads, and when it is refused |
| Intake.IntakeStore.ActivatePublication | orchestrator/planning_publication.py:230-247 | the activating transaction on a possibly stale row |
| Planning.RunKeepsConsistency | orchestrator/planning_publication.py:61-134 | coupling, filing, branch exclusivity and sticky association are invariants of every run |
| Planning.ReservationsAreCoupledAndImmutable | orchestrator/planning_publication.py:61-79 | at any two moments of any run: owner coupling, immutable id, intent and generation, status and PR written once, no shared branch |
| Planning.AssociationIsForever | orchestrator/state_store.py:465-486 | an issue that ever held linked or ambiguous PRs is never claimable or leased again |
| Planning.ReservedIssueChangesHandsOnlyByResume | orchestrator/state_store.py:507-512 | while a reservation is unconfirmed and no takeover is granted, whoever holds the issue or is granted it is the reservation's owner, over every run |
| Planning.ScanIsItsDeeds | orchestrator/issue_intake.py:37-70 | a scan is the series of its transactions, so every run theorem covers scans interleaved with anything |
| Planning.TakeoverShutsOutOldOwner | orchestrator/planning_publication.py:112-149 | after a takeover every new confirm call of the old owner is refused until that owner resumes again |
| Planning.StaleConfirmCannotOvertake | orchestrator/planning_publication.py:231-242 | a confirm call that read before a takeover cannot activate under the new owner's lease |
| Planning.ConfirmIsIdempotent | orchestrator/planning_publication.py:231-247 | confirming again after a lost response succeeds and changes nothing |
| Planning.ClaimableAfterScan | orchestrator/issue_intake.py:37-70 | right after an uninterrupted scan only an open, owner-written, unheld root task without any PR is claimable |
| PlanningLaws.ClaimGrantsExactly | orchestrator/state_store.py:494-521 | when an issue is granted, what a grant changes, and that anything else changes nothing |
| PlanningLaws.LiveHolderExcludesOthers | orchestrator/state_store.py:501-504 | while an issue is held live, every other planner's claim, renewal, reservation and takeover is refused and changes nothing |
| PlanningLaws.GrantExcludesOthersForItsTerm | orchestrator/state_store.py:494-529 | a grant excludes others for its whole term, through any deeds but an observation, closing or confirmation of this issue |
| PlanningLaws.RenewalIsTheHoldersOwn | orchestrator/state_store.py:523-529 | only the live holder renews, in the same revision, for a full length |
| PlanningLaws.ScanStatusMeans | orchestrator/issue_intake.py:42-61 | which findings of a scan lead to which status |
| PlanningLaws.ObservationMeans | orchestrator/state_store.py:465-486 | what an observation files, and when it leaves a planner alone |
| PlanningLaws.PrepareReservesExactly | orchestrator/planning_publication.py:41-79 | who may reserve which issue and branch |
| PlanningLaws.ResumeGrantsExactly | orchestrator/planning_publication.py:89-134 | when a takeover is granted and what it writes |
| PlanningLaws.ConfirmReadsExactly | orchestrator/planning_publication.py:141-149 | whose confirm call goes on, and that after one PR is confirmed no other ever is |
| PlanningLaws.ActivationLinksExactly | orchestrator/planning_publication.py:230-247 | when a confirmation activates and what it writes |
| ReportPublication.Remote.Update | orchestrator/github_client.py:230-336 | the publication program with foreign pushes in every gap and a stop after every write equals its specification |
| ReportPublication.Remote.PublishedMatches | orchestrator/github_client.py:188-228 | the recognition of an already published report commit |
| ReportPublication.AtomicPublication | orchestrator/github_client.py:230-336 | a returned id is the expected head or a commit with that single parent holding exactly the given files and changing no other path; commits are never altered |
| ReportPublication.NothingIsLost | orchestrator/github_client.py:313-336 | with ordinary pushes in every gap nothing that was on the branch leaves it |
| ReportPublication.RetryRecognisesExactlyWhenAllDiffer | orchestrator/github_client.py:188-228 | a retry after the ref update returns the published commit exactly when every supplied file differs from the parent, else it is refused |
| ReportPublication.RerunAfterCrash | orchestrator/github_client.py:230-336 | a run among any foreign pushes, stopped anywhere, then a quiet rerun: the published commit is returned, or one report commit is made on an unmoved head, or nothing is published over a foreign head |
| ReportPublication.IdenticalFilesKeepHead | orchestrator/github_client.py:293-303 | identical reports make no commit and return the expected head, unless others moved it |
| ReportPublication.RefusedBeforeAnything | orchestrator/github_client.py:245-280 | bad paths, a closed PR or a foreign head are refused before anything happens |
| ReportPublication.ForeignCommitIsNeverOverwritten | orchestrator/github_client.py:313-336 | a push before or after the last check of the head makes the call fail and stays |
| ReportPublication.ReturnedHeadIsLive | orchestrator/github_client.py:326-336 | whatever is returned is the live head of the open PR at the end of the call |
| ClaimClient.AcquireLoop.Run | orchestrator/claim_client.py:88-134 | the retry loop over its journal with a stop after every effect equals its specification |
| ClaimClient.RetryBudget | orchestrator/claim_retry_journal.py:30-56 | through any crashes and restarts the journal stays a gapless prefix with only retryable rows before the last; after exhausted or stale nothing is posted or recorded |
| ClaimClient.AttemptsEndByFirstFinalAnswer | orchestrator/claim_client.py:106-133 | an acquisition ends by its first final answer, as won, stale, failed or exhausted, and posts each attempt up to there once |
| ClaimClient.WonMeansGranted | orchestrator/claim_client.py:112-121 | whatever crashes, a won acquisition was granted at its last post after passing failures only |
| ClaimClient.NewRequestIsWonExactly | orchestrator/claim_client.py:88-134 | a new request is won exactly when a usable lease comes before any other final answer |
| ClaimClient.RestartGoesOn | orchestrator/claim_client.py:94-102 | where a restarted request goes on, and when it does not |
| NativeReplay.QaReleaseNeedsPolicy | orchestrator/task_router.py:75-97 | whatever labels the adapter asks for, QA routes to release only under an enabling policy |
| NativeReplay.ReleaseNeedsTheOneText | orchestrator/terminal_policy.py:23-45 | only the single enabling policy without a restrictive instruction releases |
| NativeReplay.NextLabelsFollowTransitions | orchestrator/task_router.py:75-97 | the native worker's routes are those of the claim API's transitions, with release, own labels and failure as only additions |
| NativeReplay.TransitionTable | orchestrator/task_router.py:75-97 | prototype, QA and failure, label by label |
| NativeReplay.PlannedRouteFits | orchestrator/main.py:457-490 | replays included, the planned route is where the kept result leads |
| NativeReplay.Worker.Process | orchestrator/main.py:231-654 | one turn of the queue: an attempt only if this delivery is handed out and may begin or resume; stopped before any effect, with others acting before each, it keeps a checkpointed result, runs the adapter at most once, announces before it projects, and writes and dispatches only what is justified; a closed gate only blocks; undisturbed it ends with the transition projected, the next agent dispatched and the event closed, from a fresh request, after a stop, or after the labels had landed |
| NativeReplay.EveryAttemptMayRun | orchestrator/main.py:463-503 | every state a history reaches meets what `Process` assumes about the checkpoint |
| NativeReplay.ResultIsRunOnce | orchestrator/main.py:361-403 | once a result is checkpointed every later checkpoint keeps it and the adapter never runs again |
| NativeReplay.DispatchesAreJustified | orchestrator/main.py:607-640 | every dispatch is of its phase's kind, on the route where the kept, successful result leads, after an exact handoff of it; a release had an enabling terminal policy and a QA that did not move HEAD |
| NativeReplay.TransitionsAreAnnounced | orchestrator/main.py:500-600 | every projected transition went where its result leads, with its exact handoff, in QA the resolved policy, and for a commit QA made the review request, among the comments before its label write |
| NativeReplay.LabelWritesAreJustified | orchestrator/main.py:327-400 | the worker writes no labels but TODO to RUNNING, TODO to BLOCKED by a closed gate, and RUNNING to a transition, each canonical |
| NativeReplay.StuckExactlyWhenRouteStays | orchestrator/main.py:514-515 | a running worker cannot announce its result exactly when the planned route is the running one, which only labels of the result or of a deployment bring about |
| NativeReplay.EndedStaysSilent | orchestrator/state_store.py:166-213 | once the event has ended in the store, no attempt follows: checkpoint, adapter runs, dispatches and projections are final |
| Findings.ShortSpellingIsRequeued | orchestrator/external_recovery.py:39-60 | a concrete QA log that the gate advances and the recovery requeues |
| Findings.ForeignReviewConverges | scripts/reconcile_handoff_state.py:83-123 | a concrete log on which the reconciler enters the human wait and the gate refuses |
| Findings.RecoverySkipsReview | orchestrator/external_recovery.py:104-159 | a concrete state from which a recovery crosses two phases in one write |
| Findings.LostMarksUndoRetry | orchestrator/claim_api.py:505-546 | from every fresh row with an open gate: start, retry and start again, with two lost responses, is two start changes |
| Findings.QaRetryIsUndone | orchestrator/claim_api.py:505-546 | the same on a concrete QA claim |
| Findings.DeploymentIsStuck | orchestrator/main.py:514-515 | a deployment without labels of its own can never post its handoff itself |

## Left out

- HTTP routing, authentication, SQLite mechanics, schema migration, backups, prompts and the agent runners.
- JSON, regular expressions and marker extraction: comments, PR bodies and issue references are taken as parsed.
- The audit table: audits appear only as the planned or applied entries of a checkpoint.
- The blocker recovery's own decision and repair planning: it is one more label writer of `StateWriter`, with arbitrary before and after sets.
- `verify_publication`'s GitHub reads and its label write, which happens outside the projection lock; only its two database steps are modelled.
- The GitHub checks of `prepare_head`, `confirm_head`, `acquire` and `resume`, which only refuse more.
- Retrying `publish_reports` after a crash between the GitHub write and the head move: the retry is refused before it reaches the replay-aware writer.
- Timeouts, dispatch cooldown, wake receipts, queue discovery and review reclaim.
- `next_request` of the retry journal, which only orders discoveries.
- A bound on native attempts: expiry and cancellation requeue whatever the count is, so none is claimed.
- NativeReplay.Worker.Process: a label write is one verified step whose safety is `StateWriter`'s, attempts do not overlap, and the stored planned labels are not claimed to be monotone, because a replay rewrites the checkpoint without them first.
- NativeReplay.ResultIsRunOnce: the commit named in the result's handoff may be rewritten by a replay, so the result is kept up to that member.
- Intake.IntakeStore.ScanIssues: the method runs without interruption; interleavings are covered by the deeds of `Planning`.
- Planning.TakeoverShutsOutOldOwner: a confirm call that read its row before the takeover is covered by `StaleConfirmCannotOvertake` only while the new lease is on the issue.
- ClaimClient.RetryBudget: an attempt whose outcome was never journalled is posted again at the same index, so posts are bounded per journalled attempt, not in total.
- ClaimSession.ExactlyOnceProjection: ownership is not part of the session; that a lost lease stops the calls is `Fencing`.
