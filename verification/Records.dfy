/** Values that cross the boundaries between the store, the label writers and
    the claim API. Missing JSON members are `None`. */
module Records {
  import opened Labels

  type Sha = string
  type Time = int

  datatype Option<+T> = None | Some(value: T)

  /** A lease id. The serial stands for a fresh random id; `source` names the
      store method that minted it. No code inspects either part. */
  datatype Lease = Lease(serial: nat, source: MintedBy)
  datatype MintedBy = NativeClaim | ExternalClaim | Reconciliation

  /** External delivery ids are a digest of worker and request, taken as injective. */
  datatype DeliveryId = Webhook(id: string) | External(worker: string, request: string)

  /** The four-part operation key and the three-part projection key. */
  datatype OpKey =
    | Operation(repo: string, pr: nat, sha: Sha, phase: PhaseName)
    | Projection(repo: string, pr: nat)

  datatype Binding = Binding(
    repo: string, pr: nat, sha: Sha, headRef: string, baseRef: Option<string>,
    taskId: string, phase: PhaseName, agent: AgentName, operationKey: OpKey)

  function KeyOf(b: Binding): OpKey { Operation(b.repo, b.pr, b.sha, b.phase) }

  /** The durable record of one planned or applied label change. */
  datatype Audit = Audit(
    lease: Lease, applied: bool, sha: Sha,
    before: LabelSet, after: LabelSet, workflowAfter: LabelSet)

  datatype HeadIntent = HeadIntent(from: Sha, to: Sha, baseRef: string, applied: bool)
  datatype ReportPublication = ReportPublication(from: Sha, to: Sha, digest: string)

  datatype Checkpoint = Checkpoint(
    start: Option<Audit>, projection: Option<Audit>, recovery: Option<Audit>, blocker: Option<Audit>,
    head: Option<HeadIntent>, report: Option<ReportPublication>, decision: Option<Audit>)

  const NO_CHECKPOINT := Checkpoint(None, None, None, None, None, None, None)

  /** One live snapshot of a pull request. */
  datatype PullRequest = PullRequest(
    open: bool, merged: bool, headSha: Sha, headRef: string, headRepo: string,
    baseRef: string, defaultBranch: string, tasks: set<string>, labels: LabelSet)

  predicate ProtectedBranch(pr: PullRequest) {
    pr.headRef in {"main", pr.baseRef, pr.defaultBranch}
  }

  /** Branch identity as every writer checks it, without the head commit. */
  predicate SameBranch(pr: PullRequest, b: Binding) {
    && pr.open && !pr.merged
    && pr.headRepo == b.repo && pr.headRef == b.headRef
    && (b.baseRef.Some? ==> pr.baseRef == b.baseRef.value)
    && !ProtectedBranch(pr)
  }
}
