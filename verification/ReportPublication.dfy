/** Publishing report files as one commit with an exact parent and a ref update
    that is never forced, while others push and the process may stop. */
module ReportPublication {
  import opened Records

  type CommitId = nat

  /** A path as its segments between slashes. */
  type Path = seq<string>
  type Tree = map<Path, string>

  /** `tag` is the message prefix before the colon. */
  datatype Commit = Commit(parents: seq<CommitId>, tree: Tree, tag: string)

  datatype FileChange = FileChange(path: Path, content: string)
  type Files = seq<FileChange>

  /** The branch of an open PR; `names` identifies its head and base branch. */
  datatype Repo = Repo(commits: map<CommitId, Commit>, ref: CommitId, next: CommitId, open: bool, names: nat)

  /** Commits are immutable, their ids are fresh, and history is closed. */
  predicate WellFormed(r: Repo) {
    && r.ref in r.commits
    && (forall c :: c in r.commits ==> c < r.next)
    && (forall c, i :: c in r.commits && 0 <= i < |r.commits[c].parents|
          ==> r.commits[c].parents[i] in r.commits && r.commits[c].parents[i] < c)
  }

  predicate Reaches(commits: map<CommitId, Commit>, from: CommitId, to: CommitId)
    decreases from
  {
    from == to
    || (from in commits
        && exists i :: 0 <= i < |commits[from].parents|
             && commits[from].parents[i] < from && Reaches(commits, commits[from].parents[i], to))
  }

  /* ---- Other people ---- */

  datatype Foreign =
    | PushOnTop(tree: Tree, tag: string)   // an ordinary, fast-forward push
    | ForceTo(commit: Commit)              // a forced push of any commit
    | CloseOrRetarget(open: bool, names: nat)

  function AddCommit(r: Repo, c: Commit): Repo { r.(commits := r.commits[r.next := c], next := r.next + 1) }

  predicate Possible(r: Repo, f: Foreign) {
    f.ForceTo? ==> forall i :: 0 <= i < |f.commit.parents| ==> f.commit.parents[i] in r.commits
  }

  function Interfere(r: Repo, f: Foreign): Repo {
    if !Possible(r, f) then r
    else
      match f
      case PushOnTop(tree, tag) => AddCommit(r, Commit([r.ref], tree, tag)).(ref := r.next)
      case ForceTo(c) => AddCommit(r, c).(ref := r.next)
      case CloseOrRetarget(open, names) => r.(open := open, names := names)
  }

  function Meanwhile(r: Repo, script: seq<Foreign>): Repo {
    if script == [] then r else Interfere(Meanwhile(r, script[..|script| - 1]), script[|script| - 1])
  }

  /* ---- update_pr_files ---- */

  predicate ValidPath(p: Path) {
    |p| >= 2 && p[0] == "reports" && forall i :: 0 <= i < |p| ==> p[i] != "" && p[i] != "." && p[i] != ".."
  }

  predicate ValidFiles(files: Files) {
    && (forall i, j :: 0 <= i < j < |files| ==> files[i].path != files[j].path)
    && (forall i :: 0 <= i < |files| ==> ValidPath(files[i].path))
  }

  function Overlay(tree: Tree, files: Files): Tree {
    if files == [] then tree
    else Overlay(tree, files[..|files| - 1])[files[|files| - 1].path := files[|files| - 1].content]
  }

  function Paths(files: Files): set<Path> { set i | 0 <= i < |files| :: files[i].path }

  predicate Differs(a: Tree, b: Tree, p: Path) { (p in a) != (p in b) || (p in a && p in b && a[p] != b[p]) }

  /** The files a commit shows as changed against its first parent. */
  function Changed(commits: map<CommitId, Commit>, c: Commit): set<Path> {
    var base := if c.parents != [] && c.parents[0] in commits then commits[c.parents[0]].tree else map[];
    set p | p in c.tree.Keys + base.Keys && Differs(c.tree, base, p)
  }

  /** The live head is a report commit published before a crash. */
  predicate MatchesPublished(r: Repo, expected: CommitId, files: Files, tag: string) {
    && r.ref in r.commits
    && var c := r.commits[r.ref];
       && c.parents == [expected] && c.tag == tag
       && Paths(files) == Changed(r.commits, c)
       && forall i :: 0 <= i < |files| ==> files[i].path in c.tree && c.tree[files[i].path] == files[i].content
  }

  datatype Result = Returned(id: CommitId) | Error | Stopped

  /** What others do before each of the five reads and writes that matter. */
  datatype Schedule = Schedule(
    beforeTree: seq<Foreign>, beforeCheck: seq<Foreign>, beforePatch: seq<Foreign>, beforeFinal: seq<Foreign>)

  const QUIET := Schedule([], [], [], [])

  /** A ref update without force: only to a descendant of where the ref is. */
  function Patch(r: Repo, to: CommitId): (Repo, bool) {
    if Reaches(r.commits, to, r.ref) then (r.(ref := to), true) else (r, false)
  }

  predicate StillExpected(r: Repo, expected: CommitId, names: nat) { r.open && r.ref == expected && r.names == names }

  /** `budget` is the number of remote writes (commit, ref) before the process stops. */
  function UpdatePrFiles(r: Repo, files: Files, tag: string, expected: CommitId, s: Schedule, budget: nat): (Repo, Result) {
    if !ValidFiles(files) || !r.open then (r, Error)
    else if r.ref != expected then
      (r, if MatchesPublished(r, expected, files, tag) then Returned(r.ref) else Error)
    else if files == [] then (r, Returned(expected))
    else
      var r1 := Meanwhile(r, s.beforeTree);
      if expected !in r1.commits then (r1, Error)
      else
        var base := r1.commits[expected].tree;
        var tree := Overlay(base, files);
        if tree == base then (r1, if StillExpected(r1, expected, r.names) then Returned(expected) else Error)
        else PublishCommit(r1, Commit([expected], tree, tag), expected, r.names, s, budget)
  }

  /** Create the commit, check the head again, move the ref without force, verify. */
  function PublishCommit(r: Repo, c: Commit, expected: CommitId, names: nat, s: Schedule, budget: nat): (Repo, Result) {
    if budget == 0 then (r, Stopped)
    else
      var made := r.next;
      var r2 := Meanwhile(AddCommit(r, c), s.beforeCheck);
      if !StillExpected(r2, expected, names) then (r2, Error)
      else if budget == 1 then (r2, Stopped)
      else
        var (r4, moved) := Patch(Meanwhile(r2, s.beforePatch), made);
        if !moved then (r4, Error)
        else
          var r5 := Meanwhile(r4, s.beforeFinal);
          (r5, if StillExpected(r5, made, names) then Returned(made) else Error)
  }

  class Remote {
    var repo: Repo

    constructor (r: Repo)
      ensures repo == r
    {
      repo := r;
    }

    method Others(script: seq<Foreign>)
      modifies this
      ensures repo == Meanwhile(old(repo), script)
    {
      for i := 0 to |script|
        invariant repo == Meanwhile(old(repo), script[..i])
      {
        assert script[..i + 1][..i] == script[..i];
        repo := Interfere(repo, script[i]);
      }
      assert script[..|script|] == script;
    }

    /** One blob and one tree entry per file. */
    method BuildTree(base: Tree, files: Files) returns (tree: Tree)
      ensures tree == Overlay(base, files)
    {
      tree := base;
      for i := 0 to |files|
        invariant tree == Overlay(base, files[..i])
      {
        assert files[..i + 1][..i] == files[..i];
        tree := tree[files[i].path := files[i].content];
      }
      assert files[..|files|] == files;
    }

    method PublishedMatches(expected: CommitId, files: Files, tag: string) returns (same: bool)
      ensures same == MatchesPublished(repo, expected, files, tag)
    {
      if repo.ref !in repo.commits {
        return false;
      }
      var c := repo.commits[repo.ref];
      if c.parents != [expected] || c.tag != tag || Paths(files) != Changed(repo.commits, c) {
        return false;
      }
      for i := 0 to |files|
        invariant forall k :: 0 <= k < i ==> files[k].path in c.tree && c.tree[files[k].path] == files[k].content
      {
        if files[i].path !in c.tree || c.tree[files[i].path] != files[i].content {
          return false;
        }
      }
      same := true;
    }

    method Update(files: Files, tag: string, expected: CommitId, s: Schedule, budget: nat) returns (r: Result)
      modifies this
      ensures (repo, r) == UpdatePrFiles(old(repo), files, tag, expected, s, budget)
    {
      if !ValidFiles(files) || !repo.open {
        return Error;
      }
      var names := repo.names;
      if repo.ref != expected {
        var same := PublishedMatches(expected, files, tag);
        return if same then Returned(repo.ref) else Error;
      }
      if files == [] {
        return Returned(expected);
      }
      Others(s.beforeTree);
      if expected !in repo.commits {
        return Error;
      }
      var base := repo.commits[expected].tree;
      var tree := BuildTree(base, files);
      if tree == base {
        // Identical reports must not manufacture a new head.
        return if StillExpected(repo, expected, names) then Returned(expected) else Error;
      }
      if budget == 0 {
        return Stopped;
      }
      var made := repo.next;
      repo := AddCommit(repo, Commit([expected], tree, tag));
      Others(s.beforeCheck);
      if !StillExpected(repo, expected, names) {
        return Error;
      }
      if budget == 1 {
        return Stopped;
      }
      Others(s.beforePatch);
      if !Reaches(repo.commits, made, repo.ref) {
        return Error;
      }
      repo := repo.(ref := made);
      Others(s.beforeFinal);
      r := if StillExpected(repo, made, names) then Returned(made) else Error;
    }
  }

  /* ---- Guarantees ---- */

  /** Commits survive, unchanged, whatever happens. */
  predicate Grows(r: Repo, later: Repo) {
    && r.next <= later.next
    && forall c :: c in r.commits ==> c in later.commits && later.commits[c] == r.commits[c]
  }

  lemma {:induction false} MeanwhileKeeps(r: Repo, script: seq<Foreign>)
    requires WellFormed(r)
    ensures WellFormed(Meanwhile(r, script)) && Grows(r, Meanwhile(r, script))
    decreases |script|
  {
    if script != [] {
      MeanwhileKeeps(r, script[..|script| - 1]);
    }
  }

  lemma {:induction false} OverlayChangesOnlyPaths(tree: Tree, files: Files)
    ensures forall p :: p !in Paths(files) ==> !Differs(Overlay(tree, files), tree, p)
    ensures forall p :: p in Paths(files) ==> p in Overlay(tree, files)
    ensures (forall i, j :: 0 <= i < j < |files| ==> files[i].path != files[j].path) ==>
      forall i :: 0 <= i < |files| ==> Overlay(tree, files)[files[i].path] == files[i].content
    decreases |files|
  {
    if files != [] {
      var front, last := files[..|files| - 1], files[|files| - 1];
      OverlayChangesOnlyPaths(tree, front);
      forall p
        ensures p in Paths(files) <==> p in Paths(front) || p == last.path
      {
        if p in Paths(front) {
          var i :| 0 <= i < |front| && front[i].path == p;
          assert files[i].path == p;
        }
        if p in Paths(files) {
          var i :| 0 <= i < |files| && files[i].path == p;
          assert i < |front| ==> front[i].path == p;
        }
        assert files[|files| - 1].path == last.path;
      }
    }
  }

  lemma AddCommitKeeps(r: Repo, c: Commit)
    requires WellFormed(r) && forall i :: 0 <= i < |c.parents| ==> c.parents[i] in r.commits
    ensures WellFormed(AddCommit(r, c)) && Grows(r, AddCommit(r, c))
  {
  }

  /** A well-formed continuation of `origin` that has commit `c` under `id`. */
  ghost predicate Carries(origin: Repo, r: Repo, id: CommitId, c: Commit) {
    WellFormed(r) && Grows(origin, r) && id in r.commits && r.commits[id] == c
  }

  lemma MeanwhileCarries(origin: Repo, r: Repo, script: seq<Foreign>, id: CommitId, c: Commit)
    requires Carries(origin, r, id, c)
    ensures Carries(origin, Meanwhile(r, script), id, c)
  {
    MeanwhileKeeps(r, script);
  }

  lemma PatchCarries(origin: Repo, r: Repo, id: CommitId, c: Commit)
    requires Carries(origin, r, id, c)
    ensures Carries(origin, Patch(r, id).0, id, c)
  {
  }

  lemma PublishCommitKeeps(r: Repo, c: Commit, expected: CommitId, names: nat, s: Schedule, budget: nat)
    requires WellFormed(r) && expected in r.commits && c.parents == [expected]
    ensures var (later, result) := PublishCommit(r, c, expected, names, s, budget);
      && WellFormed(later) && Grows(r, later)
      && (result.Returned? ==> result.id in later.commits && later.commits[result.id] == c)
  {
    if budget > 0 {
      AddCommitKeeps(r, c);
      MeanwhileCarries(r, AddCommit(r, c), s.beforeCheck, r.next, c);
      var r2 := Meanwhile(AddCommit(r, c), s.beforeCheck);
      MeanwhileCarries(r, r2, s.beforePatch, r.next, c);
      var r3 := Meanwhile(r2, s.beforePatch);
      PatchCarries(r, r3, r.next, c);
      MeanwhileCarries(r, Patch(r3, r.next).0, s.beforeFinal, r.next, c);
    }
  }

  /** The commit holds the given contents and changes no other path. */
  ghost predicate HoldsExactly(c: Commit, base: Tree, files: Files) {
    && (forall i :: 0 <= i < |files| ==> files[i].path in c.tree && c.tree[files[i].path] == files[i].content)
    && (forall p :: p !in Paths(files) ==> !Differs(c.tree, base, p))
  }

  lemma OverlayHoldsExactly(base: Tree, files: Files, parents: seq<CommitId>, tag: string)
    requires ValidFiles(files)
    ensures HoldsExactly(Commit(parents, Overlay(base, files), tag), base, files)
  {
    OverlayChangesOnlyPaths(base, files);
    forall i | 0 <= i < |files| ensures files[i].path in Paths(files) { }
  }

  lemma MatchHoldsExactly(r: Repo, expected: CommitId, files: Files, tag: string)
    requires MatchesPublished(r, expected, files, tag) && expected in r.commits
    ensures HoldsExactly(r.commits[r.ref], r.commits[expected].tree, files)
  {
    var c := r.commits[r.ref];
    forall p | p !in Paths(files)
      ensures !Differs(c.tree, r.commits[expected].tree, p)
    {
      assert p !in Changed(r.commits, c);
    }
  }

  /** Atomic publication: whatever others push and wherever the process stops, a
      returned id is the expected head, or a commit whose only parent is the
      expected head and which holds exactly the given contents and changes no
      other path. */
  lemma AtomicPublication(r: Repo, files: Files, tag: string, expected: CommitId, s: Schedule, budget: nat)
    requires WellFormed(r) && expected in r.commits
    ensures var (later, result) := UpdatePrFiles(r, files, tag, expected, s, budget);
      && WellFormed(later) && Grows(r, later)
      && (result.Returned? && result.id != expected ==>
            && result.id in later.commits
            && later.commits[result.id].parents == [expected] && later.commits[result.id].tag == tag
            && HoldsExactly(later.commits[result.id], r.commits[expected].tree, files))
  {
    if r.ref != expected {
      if MatchesPublished(r, expected, files, tag) {
        MatchHoldsExactly(r, expected, files, tag);
      }
    } else if ValidFiles(files) && r.open && files != [] {
      var r1 := Meanwhile(r, s.beforeTree);
      MeanwhileKeeps(r, s.beforeTree);
      var base := r.commits[expected].tree;
      assert r1.commits[expected].tree == base;
      OverlayHoldsExactly(base, files, [expected], tag);
      PublishCommitKeeps(r1, Commit([expected], Overlay(base, files), tag), expected, r.names, s, budget);
    }
  }

  lemma {:induction false} ReachesIsTransitive(commits: map<CommitId, Commit>, a: CommitId, b: CommitId, c: CommitId)
    requires Reaches(commits, a, b) && Reaches(commits, b, c)
    ensures Reaches(commits, a, c)
    decreases a
  {
    if a != b {
      var i :| 0 <= i < |commits[a].parents| && commits[a].parents[i] < a && Reaches(commits, commits[a].parents[i], b);
      ReachesIsTransitive(commits, commits[a].parents[i], b, c);
    }
  }

  lemma {:induction false} ReachesSurvivesGrowth(r: Repo, later: Repo, a: CommitId, b: CommitId)
    requires Grows(r, later) && Reaches(r.commits, a, b)
    ensures Reaches(later.commits, a, b)
    decreases a
  {
    if a != b {
      var i :| 0 <= i < |r.commits[a].parents| && r.commits[a].parents[i] < a
        && Reaches(r.commits, r.commits[a].parents[i], b);
      ReachesSurvivesGrowth(r, later, r.commits[a].parents[i], b);
    }
  }

  /** No commit is lost by the ref update: everything on the branch just before
      it, foreign pushes included, is on the branch after it. */
  lemma PatchLosesNothing(r: Repo, to: CommitId, c: CommitId)
    requires Reaches(r.commits, r.ref, c)
    ensures Reaches(Patch(r, to).0.commits, Patch(r, to).0.ref, c)
  {
    if Patch(r, to).1 {
      ReachesIsTransitive(r.commits, to, r.ref, c);
    }
  }

  predicate NoForce(script: seq<Foreign>) { forall i :: 0 <= i < |script| ==> !script[i].ForceTo? }

  lemma {:induction false} PushesLoseNothing(r: Repo, script: seq<Foreign>, c: CommitId)
    requires WellFormed(r) && NoForce(script) && Reaches(r.commits, r.ref, c)
    ensures Reaches(Meanwhile(r, script).commits, Meanwhile(r, script).ref, c)
    decreases |script|
  {
    if script != [] {
      var front := script[..|script| - 1];
      var before, after := Meanwhile(r, front), Meanwhile(r, script);
      PushesLoseNothing(r, front, c);
      MeanwhileKeeps(r, front);
      MeanwhileKeeps(r, script);
      ReachesSurvivesGrowth(before, after, before.ref, c);
      if script[|script| - 1].PushOnTop? {
        assert after.commits[after.ref].parents[0] == before.ref;
      }
    }
  }

  predicate NobodyForces(s: Schedule) {
    NoForce(s.beforeTree) && NoForce(s.beforeCheck) && NoForce(s.beforePatch) && NoForce(s.beforeFinal)
  }

  lemma PublishCommitLosesNothing(r: Repo, c: Commit, expected: CommitId, names: nat, s: Schedule, budget: nat, x: CommitId)
    requires WellFormed(r) && expected in r.commits && c.parents == [expected]
    requires NobodyForces(s) && Reaches(r.commits, r.ref, x)
    ensures var later := PublishCommit(r, c, expected, names, s, budget).0;
      Reaches(later.commits, later.ref, x)
  {
    if budget > 0 {
      var a := AddCommit(r, c);
      AddCommitKeeps(r, c);
      ReachesSurvivesGrowth(r, a, r.ref, x);
      PushesLoseNothing(a, s.beforeCheck, x);
      MeanwhileCarries(r, a, s.beforeCheck, r.next, c);
      var r2 := Meanwhile(a, s.beforeCheck);
      PushesLoseNothing(r2, s.beforePatch, x);
      MeanwhileCarries(r, r2, s.beforePatch, r.next, c);
      var r3 := Meanwhile(r2, s.beforePatch);
      PatchLosesNothing(r3, r.next, x);
      PatchCarries(r, r3, r.next, c);
      PushesLoseNothing(Patch(r3, r.next).0, s.beforeFinal, x);
    }
  }

  /** With ordinary pushes only, nothing that was ever on the branch leaves it. */
  lemma NothingIsLost(r: Repo, files: Files, tag: string, expected: CommitId, s: Schedule, budget: nat, x: CommitId)
    requires WellFormed(r) && expected in r.commits && NobodyForces(s) && Reaches(r.commits, r.ref, x)
    ensures var later := UpdatePrFiles(r, files, tag, expected, s, budget).0;
      Reaches(later.commits, later.ref, x)
  {
    if r.ref == expected && ValidFiles(files) && r.open && files != [] {
      var r1 := Meanwhile(r, s.beforeTree);
      PushesLoseNothing(r, s.beforeTree, x);
      MeanwhileKeeps(r, s.beforeTree);
      PublishCommitLosesNothing(r1, Commit([expected], Overlay(r1.commits[expected].tree, files), tag),
                                expected, r.names, s, budget, x);
    }
  }

  /** Every supplied file differs from the parent commit. */
  predicate AllDiffer(tree: Tree, files: Files) {
    forall i :: 0 <= i < |files| ==> files[i].path !in tree || tree[files[i].path] != files[i].content
  }

  /** The head is the report commit that a call for these files publishes. */
  predicate Published(r: Repo, files: Files, tag: string, expected: CommitId) {
    && WellFormed(r) && r.open && expected in r.commits && r.ref != expected
    && r.commits[r.ref] == Commit([expected], Overlay(r.commits[expected].tree, files), tag)
  }

  /** A retry after the ref update recognises the published commit exactly when
      every supplied file differs from the parent; it then changes nothing. */
  lemma RetryRecognisesExactlyWhenAllDiffer(r: Repo, files: Files, tag: string, expected: CommitId, s: Schedule, budget: nat)
    requires Published(r, files, tag, expected) && ValidFiles(files)
    ensures UpdatePrFiles(r, files, tag, expected, s, budget)
         == (r, if AllDiffer(r.commits[expected].tree, files) then Returned(r.ref) else Error)
  {
    var base, c := r.commits[expected].tree, r.commits[r.ref];
    OverlayChangesOnlyPaths(base, files);
    forall i | 0 <= i < |files|
      ensures files[i].path in Changed(r.commits, c)
        <==> files[i].path !in base || base[files[i].path] != files[i].content
      ensures files[i].path in Paths(files)
    {
    }
    assert Changed(r.commits, c) <= Paths(files);
    if AllDiffer(base, files) {
      assert Paths(files) == Changed(r.commits, c);
    } else {
      var i :| 0 <= i < |files| && files[i].path in base && base[files[i].path] == files[i].content;
      assert files[i].path !in Changed(r.commits, c);
    }
  }

  /** With nobody else pushing, a run from the expected head creates the report
      commit and moves the ref to it, as far as its budget goes. */
  lemma QuietRun(r: Repo, files: Files, tag: string, budget: nat)
    requires WellFormed(r) && r.open && ValidFiles(files) && files != []
    requires Overlay(r.commits[r.ref].tree, files) != r.commits[r.ref].tree
    ensures
      var made := AddCommit(r, Commit([r.ref], Overlay(r.commits[r.ref].tree, files), tag));
      var (later, result) := UpdatePrFiles(r, files, tag, r.ref, QUIET, budget);
      if budget == 0 then (later, result) == (r, Stopped)
      else if budget == 1 then (later, result) == (made, Stopped)
      else (later, result) == (made.(ref := r.next), Returned(r.next))
  {
    var made := AddCommit(r, Commit([r.ref], Overlay(r.commits[r.ref].tree, files), tag));
    assert Reaches(made.commits, r.next, r.ref) by {
      assert made.commits[r.next].parents[0] == r.ref;
    }
  }

  lemma ChangingFileChangesTree(tree: Tree, files: Files)
    requires files != [] && ValidFiles(files) && AllDiffer(tree, files)
    ensures Overlay(tree, files) != tree
  {
    OverlayChangesOnlyPaths(tree, files);
    assert files[0].path in Paths(files);
  }

  /** Run among any foreign pushes, stop anywhere, run again with nobody pushing
      any more. If the first run's commit is the head, the second returns that
      very commit and changes nothing. If the head never moved, it publishes one
      commit, and beside it only what was reachable before is reachable. If a
      foreign commit is the head, it publishes nothing. */
  lemma RerunAfterCrash(r: Repo, files: Files, tag: string, s: Schedule, budget: nat)
    requires WellFormed(r) && ValidFiles(files) && files != []
    requires AllDiffer(r.commits[r.ref].tree, files)
    ensures
      var first := UpdatePrFiles(r, files, tag, r.ref, s, budget).0;
      var (second, result) := UpdatePrFiles(first, files, tag, r.ref, QUIET, 2);
      && (Published(first, files, tag, r.ref) ==> second == first && result == Returned(first.ref))
      && (first.ref == r.ref && first.open ==>
            && result == Returned(second.ref) && Published(second, files, tag, r.ref)
            && forall c :: Reaches(second.commits, second.ref, c) ==> c == second.ref || Reaches(r.commits, r.ref, c))
      && (first.ref != r.ref ==> second == first && (result == Error || result == Returned(first.ref)))
  {
    var base := r.commits[r.ref].tree;
    ChangingFileChangesTree(base, files);
    AtomicPublication(r, files, tag, r.ref, s, budget);
    var first := UpdatePrFiles(r, files, tag, r.ref, s, budget).0;
    assert first.commits[r.ref].tree == base;
    if Published(first, files, tag, r.ref) {
      RetryRecognisesExactlyWhenAllDiffer(first, files, tag, r.ref, QUIET, 2);
    }
    if first.ref == r.ref && first.open {
      QuietRun(first, files, tag, 2);
      AddCommitKeeps(first, Commit([r.ref], Overlay(base, files), tag));
      var second := UpdatePrFiles(first, files, tag, r.ref, QUIET, 2).0;
      assert second.commits[r.ref] == r.commits[r.ref] && second.ref == first.next;
      forall c | Reaches(second.commits, second.ref, c) && c != second.ref
        ensures Reaches(r.commits, r.ref, c)
      {
        HistoryIsClosed(r, second, r.ref, c);
      }
    }
  }

  /** Later commits do not change what an old commit reaches. */
  lemma {:induction false} HistoryIsClosed(r: Repo, later: Repo, a: CommitId, c: CommitId)
    requires WellFormed(r) && Grows(r, later) && a in r.commits && Reaches(later.commits, a, c)
    ensures Reaches(r.commits, a, c)
    decreases a
  {
    if a != c {
      var i :| 0 <= i < |later.commits[a].parents| && later.commits[a].parents[i] < a
        && Reaches(later.commits, later.commits[a].parents[i], c);
      HistoryIsClosed(r, later, later.commits[a].parents[i], c);
      assert Reaches(r.commits, r.commits[a].parents[i], c);
    }
  }

  /* ---- What is refused, and what changes nothing ---- */

  /** Every supplied file is in the tree with this content. */
  predicate AllThere(tree: Tree, files: Files) {
    forall i :: 0 <= i < |files| ==> files[i].path in tree && tree[files[i].path] == files[i].content
  }

  /** Identical reports make no commit: the call returns the expected head, unless
      others moved the head or changed the PR meanwhile. */
  lemma IdenticalFilesKeepHead(r: Repo, files: Files, tag: string, s: Schedule, budget: nat)
    requires WellFormed(r) && r.open && ValidFiles(files) && AllThere(r.commits[r.ref].tree, files)
    ensures var (later, result) := UpdatePrFiles(r, files, tag, r.ref, s, budget);
      && (files == [] ==> (later, result) == (r, Returned(r.ref)))
      && (files != [] ==>
            && later == Meanwhile(r, s.beforeTree)
            && (result == Returned(r.ref) <==> later.open && later.ref == r.ref && later.names == r.names)
            && (result == Returned(r.ref) || result == Error))
  {
    var base := r.commits[r.ref].tree;
    MeanwhileKeeps(r, s.beforeTree);
    OverlayChangesOnlyPaths(base, files);
    forall p
      ensures !Differs(Overlay(base, files), base, p)
    {
      if p in Paths(files) {
        var i :| 0 <= i < |files| && files[i].path == p;
        assert Overlay(base, files)[files[i].path] == files[i].content;
      }
    }
    assert forall p :: p in Overlay(base, files) <==> p in base by {
      forall p ensures p in Overlay(base, files) <==> p in base { assert !Differs(Overlay(base, files), base, p); }
    }
    assert forall p :: p in base ==> Overlay(base, files)[p] == base[p] by {
      forall p | p in base ensures Overlay(base, files)[p] == base[p] { assert !Differs(Overlay(base, files), base, p); }
    }
    assert Overlay(base, files) == base;
  }

  /** A repeated path, or one outside reports/, is refused before anything happens;
      so is a PR that is not open, and a head that is neither the expected one nor
      its published report commit. */
  lemma RefusedBeforeAnything(r: Repo, files: Files, tag: string, expected: CommitId, s: Schedule, budget: nat)
    requires
      || (exists i, j :: 0 <= i < j < |files| && files[i].path == files[j].path)
      || (exists i :: 0 <= i < |files| && (|files[i].path| < 2 || files[i].path[0] != "reports"))
      || (exists i, k :: 0 <= i < |files| && 0 <= k < |files[i].path| && files[i].path[k] in {"", ".", ".."})
      || !r.open
      || (r.ref != expected && (r.ref in r.commits ==> r.commits[r.ref].parents != [expected] || r.commits[r.ref].tag != tag))
    ensures UpdatePrFiles(r, files, tag, expected, s, budget) == (r, Error)
  {
    if ValidFiles(files) && r.open {
      forall i | 0 <= i < |files|
        ensures |files[i].path| >= 2 && files[i].path[0] == "reports"
        ensures forall k :: 0 <= k < |files[i].path| ==> files[i].path[k] !in {"", ".", ".."}
      {
        assert ValidPath(files[i].path);
      }
    }
  }

  lemma {:induction false} ReachesGoesDown(commits: map<CommitId, Commit>, a: CommitId, b: CommitId)
    requires Reaches(commits, a, b)
    ensures b <= a
    decreases a
  {
    if a != b {
      var i :| 0 <= i < |commits[a].parents| && commits[a].parents[i] < a && Reaches(commits, commits[a].parents[i], b);
      ReachesGoesDown(commits, commits[a].parents[i], b);
    }
  }

  /** A push or force push that arrives before the head is checked again, or between
      that check and the ref update, is never overwritten: the call fails and the
      branch is as the others left it. */
  lemma ForeignCommitIsNeverOverwritten(r: Repo, c: Commit, expected: CommitId, names: nat, s: Schedule, budget: nat)
    requires WellFormed(r) && expected in r.commits && c.parents == [expected] && budget > 0
    ensures var checked := Meanwhile(AddCommit(r, c), s.beforeCheck);
      var patched := Meanwhile(checked, s.beforePatch);
      && (checked.ref != expected ==> PublishCommit(r, c, expected, names, s, budget) == (checked, Error))
      && (StillExpected(checked, expected, names) && patched.ref != expected && budget >= 2 ==>
            PublishCommit(r, c, expected, names, s, budget) == (patched, Error))
  {
    AddCommitKeeps(r, c);
    var checked := Meanwhile(AddCommit(r, c), s.beforeCheck);
    MeanwhileKeeps(AddCommit(r, c), s.beforeCheck);
    var patched := Meanwhile(checked, s.beforePatch);
    ForeignCommitsAreLater(checked, s.beforePatch);
    if Reaches(patched.commits, r.next, patched.ref) {
      ReachesGoesDown(patched.commits, r.next, patched.ref);
    }
  }

  /** Every commit that others make after the report commit has a later id. */
  lemma {:induction false} ForeignCommitsAreLater(r: Repo, script: seq<Foreign>)
    requires WellFormed(r)
    ensures Meanwhile(r, script).ref == r.ref || Meanwhile(r, script).ref >= r.next
    decreases |script|
  {
    if script != [] {
      ForeignCommitsAreLater(r, script[..|script| - 1]);
      MeanwhileKeeps(r, script[..|script| - 1]);
    }
  }

  /** Whatever is returned is the live head of the open PR at the end of the call,
      on the branches the PR had at its start. */
  lemma ReturnedHeadIsLive(r: Repo, files: Files, tag: string, expected: CommitId, s: Schedule, budget: nat)
    ensures var (later, result) := UpdatePrFiles(r, files, tag, expected, s, budget);
      result.Returned? ==> later.open && later.ref == result.id && later.names == r.names
  {
  }
}
