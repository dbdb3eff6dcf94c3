/**
 Source integration: one commit on the workspace branch, then a fast-forward of the target.
 A commit is its parents, tree, message and time stamp, so two commits are the same object
 exactly when they are equal.  Each Git command is one step; a crash falls between steps.
 */
module GitIntegration {
  import opened Outcomes

  type Path = string
  type Tree = map<Path, string>

  /** The new content of each changed path; None deletes it. */
  type Patch = map<Path, Option<string>>

  datatype Message = Approved(title: string, task: string, patch: Patch, approver: string) | Text(text: string)

  datatype Commit = Commit(parents: seq<Commit>, tree: Tree, message: Message, stamp: int)

  // ---- trees and patches ------------------------------------------------------------------

  function At(t: Tree, p: Path): Option<string> {
    if p in t then Some(t[p]) else None
  }

  function Diff(base: Tree, work: Tree): Patch {
    map p | p in base.Keys + work.Keys && At(base, p) != At(work, p) :: At(work, p)
  }

  function Patched(base: Tree, patch: Patch): Tree {
    map p | p in base.Keys + patch.Keys && (if p in patch then patch[p].Some? else true) ::
      if p in patch then patch[p].value else base[p]
  }

  /** `git apply` takes a patch that says what changes and nothing else. */
  predicate Applies(base: Tree, patch: Patch) {
    Diff(base, Patched(base, patch)) == patch
  }

  lemma PatchRoundTrip(base: Tree, work: Tree)
    ensures Patched(base, Diff(base, work)) == work
    ensures Applies(base, Diff(base, work))
  {
    var t := Patched(base, Diff(base, work));
    forall p
      ensures p in t <==> p in work
      ensures p in t ==> t[p] == work[p]
    {
      assert p in Diff(base, work) <==> At(base, p) != At(work, p);
    }
    assert t == work;
  }

  // ---- history ----------------------------------------------------------------------------

  function Ancestors(c: Commit): set<Commit> {
    {c} + set p, a | p in c.parents && a in Ancestors(p) :: a
  }

  /** `git rev-list --count from..to` */
  function Ahead(from: Commit, to: Commit): nat {
    |Ancestors(to) - Ancestors(from)|
  }

  ghost function Height(c: Commit): nat {
    1 + MaxHeight(c.parents)
  }

  ghost function MaxHeight(cs: seq<Commit>): nat {
    if cs == [] then 0
    else
      var h, t := Height(cs[0]), MaxHeight(cs[1..]);
      if h < t then t else h
  }

  lemma {:induction false} MaxHeightBounds(cs: seq<Commit>, c: Commit)
    requires c in cs
    ensures Height(c) <= MaxHeight(cs)
  {
    if c != cs[0] {
      MaxHeightBounds(cs[1..], c);
    }
  }

  lemma {:induction false} AncestorsAreLower(c: Commit, a: Commit)
    requires a in Ancestors(c)
    ensures Height(a) <= Height(c) && (a != c ==> Height(a) < Height(c))
    decreases c
  {
    if a != c {
      var p :| p in c.parents && a in Ancestors(p);
      AncestorsAreLower(p, a);
      MaxHeightBounds(c.parents, p);
    }
  }

  lemma ChildIsOneAhead(base: Commit, c: Commit)
    requires c.parents == [base]
    ensures Ahead(base, c) == 1
  {
    assert Ancestors(c) == {c} + Ancestors(base);
    if c in Ancestors(base) {
      AncestorsAreLower(base, c);
      MaxHeightBounds(c.parents, base);
    }
    assert Ancestors(c) - Ancestors(base) == {c};
  }

  // ---- requests and repositories ----------------------------------------------------------

  /**
   What the run asks for.  Texts are whitespace-normalised, so a blank one is empty; `allowed` is
   the task's path policy.
   */
  datatype Request = Request(
    task: string, workspaceTask: string, patchTask: string, workspace: string, patchWorkspace: string,
    branch: string, base: Commit, patchBase: Commit, patch: Patch, allowed: set<Path>,
    targetRef: string, approvedBy: string, title: string)

  /**
   The target checkout and the workspace checkout.  `tip` is the commit of the request's branch,
   which the workspace may or may not have checked out.
   */
  datatype Repo = Repo(
    targetBranch: string, target: Commit, targetTree: Tree,
    checkedOut: string, head: Commit, workTree: Tree, tip: Commit)

  predicate Coherent(r: Repo, q: Request) {
    r.checkedOut == q.branch ==> r.tip == r.head
  }

  datatype Error =
    | BadBindings | BadText | WrongTargetBranch | DirtyTarget | PatchDoesNotApply | TargetMoved | WrongBranch
    | PathPolicy | PatchDiffers | EmptyPatch | DirtyWorkspace | NotOneCommitAhead | WrongMessage | WrongPaths
    | WrongTree | CannotFastForward | TargetNotReached | LeftDirty | CommitMissing | ResultDiffers

  /** The identity hash is over task, target and commit. */
  datatype Evidence = Evidence(
    task: string, workspace: string, sourceRef: string, targetRef: string, base: Commit, commit: Commit,
    targetPrevious: Commit, target: Commit, patch: Patch, paths: set<Path>, approvedBy: string)

  function ExpectedMessage(q: Request): Message {
    Approved(q.title, q.task, q.patch, q.approvedBy)
  }

  function ExpectedTree(q: Request): Tree {
    Patched(q.base.tree, q.patch)
  }

  function EvidenceFor(q: Request, commit: Commit, target: Commit): Evidence {
    Evidence(q.task, q.workspace, q.branch, q.targetRef, q.base, commit, q.base, target, q.patch, q.patch.Keys, q.approvedBy)
  }

  /** The checks both entry points make first. */
  function Preflight(r: Repo, q: Request): Option<Error> {
    if q.task != q.workspaceTask || q.patchTask != q.task || q.patchWorkspace != q.workspace || q.patchBase != q.base
    then Some(BadBindings)
    else if q.targetRef == "" || q.approvedBy == "" || q.title == "" then Some(BadText)
    else if r.targetBranch != q.targetRef then Some(WrongTargetBranch)
    else if r.targetTree != r.target.tree then Some(DirtyTarget)
    else if !Applies(q.base.tree, q.patch) then Some(PatchDoesNotApply)
    else None
  }

  function ValidateCreated(c: Commit, q: Request): Option<Error> {
    if Ahead(q.base, c) != 1 || c.parents == [] || c.parents[0] != q.base then Some(NotOneCommitAhead)
    else if c.message != ExpectedMessage(q) then Some(WrongMessage)
    else if Diff(q.base.tree, c.tree).Keys != q.patch.Keys then Some(WrongPaths)
    else if c.tree != ExpectedTree(q) then Some(WrongTree)
    else None
  }

  function ValidateRecoverable(r: Repo, q: Request): Option<Error> {
    if r.workTree != r.head.tree then Some(DirtyWorkspace) else ValidateCreated(r.head, q)
  }

  function ValidateUncommitted(r: Repo, q: Request): Option<Error> {
    if r.target != q.base then Some(TargetMoved)
    else if r.checkedOut != q.branch then Some(WrongBranch)
    else if !(Diff(q.base.tree, r.workTree).Keys <= q.allowed) then Some(PathPolicy)
    else if Diff(q.base.tree, r.workTree) != q.patch then Some(PatchDiffers)
    else if q.patch == map[] then Some(EmptyPatch)
    else None
  }

  function NewCommit(r: Repo, q: Request, stamp: int): Commit {
    Commit([q.base], r.workTree, ExpectedMessage(q), stamp)
  }

  /** Everything up to and including the validated commit. */
  function CommitPhase(r: Repo, q: Request, stamp: int): (Repo, Option<Error>) {
    var e := Preflight(r, q);
    if e.Some? then (r, e)
    else if r.head == q.base then
      var e := ValidateUncommitted(r, q);
      if e.Some? then (r, e)
      else
        var c := NewCommit(r, q, stamp);
        (r.(head := c, tip := c), ValidateCreated(c, q))
    else
      var e := ValidateRecoverable(r, q);
      (r, if e.Some? then e else ValidateCreated(r.head, q))
  }

  /** `git merge --ff-only <branch>` in the target checkout. */
  function FastForward(r: Repo): Option<Repo> {
    if r.tip in Ancestors(r.target) then Some(r)
    else if r.target in Ancestors(r.tip) then Some(r.(target := r.tip, targetTree := r.tip.tree))
    else None
  }

  function MergePhase(r: Repo, q: Request): (Repo, Result<Evidence, Error>) {
    if r.target != q.base && r.target != r.head then (r, Err(TargetMoved))
    else
      var merged := if r.target == q.base then FastForward(r) else Some(r);
      if merged.None? then (r, Err(CannotFastForward))
      else
        var r' := merged.value;
        if r'.target != r'.head then (r', Err(TargetNotReached))
        else if r'.targetTree != r'.target.tree || r'.workTree != r'.head.tree then (r', Err(LeftDirty))
        else (r', Ok(EvidenceFor(q, r'.head, r'.target)))
  }

  function IntegrateIn(r: Repo, q: Request, stamp: int): (Repo, Result<Evidence, Error>) {
    var (r', e) := CommitPhase(r, q, stamp);
    if e.Some? then (r', Err(e.value)) else MergePhase(r', q)
  }

  /** Attests evidence without changing anything. */
  function VerifyIn(r: Repo, q: Request, claimed: Evidence): Option<Error> {
    var e := Preflight(r, q);
    if e.Some? then e
    else if r.head == q.base then Some(CommitMissing)
    else
      var e := ValidateRecoverable(r, q);
      if e.Some? then e
      else if r.target != r.head then Some(TargetNotReached)
      else if r.workTree != r.head.tree then Some(DirtyWorkspace)
      else if claimed != EvidenceFor(q, r.head, r.target) then Some(ResultDiffers)
      else None
  }

  // ---- what an integration proves ---------------------------------------------------------

  /** The commit a reviewed, approved patch allows: one step past the base, with that tree and binding. */
  ghost predicate Sanctioned(c: Commit, q: Request) {
    && c.parents != [] && c.parents[0] == q.base
    && Ancestors(c) - Ancestors(q.base) == {c}
    && c.tree == Patched(q.base.tree, q.patch) && Diff(q.base.tree, c.tree) == q.patch
    && c.message == Approved(q.title, q.task, q.patch, q.approvedBy)
  }

  lemma ValidatedIsSanctioned(c: Commit, q: Request)
    requires Applies(q.base.tree, q.patch)
    ensures ValidateCreated(c, q).None? <==> Sanctioned(c, q)
  {
    if ValidateCreated(c, q).None? {
      var extra := Ancestors(c) - Ancestors(q.base);
      OneAheadIsItself(q.base, c);
    }
  }

  lemma OneAheadIsItself(base: Commit, c: Commit)
    requires Ahead(base, c) == 1 && c.parents != [] && c.parents[0] == base
    ensures Ancestors(c) - Ancestors(base) == {c}
  {
    if c in Ancestors(base) {
      AncestorsAreLower(base, c);
      MaxHeightBounds(c.parents, base);
    }
    var extra := Ancestors(c) - Ancestors(base);
    assert c in extra && |extra - {c}| == 0;
  }

  /** A returned result is backed by Git: target and workspace stand, clean, at one sanctioned commit. */
  lemma ResultIsBackedByGit(r: Repo, q: Request, stamp: int)
    ensures var (r', o) := IntegrateIn(r, q, stamp);
            o.Ok? ==>
              && r'.target == r'.head == o.value.commit == o.value.target && Sanctioned(r'.head, q)
              && r'.targetTree == r'.target.tree && r'.workTree == r'.head.tree
              && r.target in {q.base, r'.head} && r.head in {q.base, r'.head}
  {
    hide Sanctioned, Ancestors, Diff, Patched, ValidateCreated, ValidateUncommitted;
    var (r1, e) := CommitPhase(r, q, stamp);
    if e.None? {
      ValidatedIsSanctioned(r1.head, q);
    }
  }

  lemma NewCommitIsNew(r: Repo, q: Request, stamp: int)
    ensures NewCommit(r, q, stamp) != q.base
  {
    var c := NewCommit(r, q, stamp);
    MaxHeightBounds(c.parents, q.base);
  }

  lemma MergeKeepsTheHead(r: Repo, q: Request)
    ensures MergePhase(r, q).0.head == r.head
    ensures r.target == q.base != r.head && MergePhase(r, q).1.Ok? ==> MergePhase(r, q).0 != r
    ensures r.target == r.head != q.base && r.targetTree == r.target.tree && r.workTree == r.head.tree ==>
              MergePhase(r, q) == (r, Ok(EvidenceFor(q, r.head, r.target)))
  {
  }

  lemma FreshIntegrationMovesTheHead(r: Repo, q: Request, stamp: int)
    requires r.head == q.base && IntegrateIn(r, q, stamp).1.Ok?
    ensures IntegrateIn(r, q, stamp).0 != r
  {
    NewCommitIsNew(r, q, stamp);
    MergeKeepsTheHead(CommitPhase(r, q, stamp).0, q);
  }

  /** Attestation accepts exactly the states in which integrating again changes nothing and returns that evidence. */
  lemma AttestationIsIdempotence(r: Repo, q: Request, claimed: Evidence, stamp: int)
    ensures VerifyIn(r, q, claimed).None? <==> IntegrateIn(r, q, stamp) == (r, Ok(claimed))
  {
    if r.head == q.base {
      if IntegrateIn(r, q, stamp).1.Ok? {
        FreshIntegrationMovesTheHead(r, q, stamp);
      }
    } else if Preflight(r, q).None? && ValidateRecoverable(r, q).None? {
      assert CommitPhase(r, q, stamp) == (r, None);
      MergeKeepsTheHead(r, q);
    }
  }

  lemma ResultVerifies(r: Repo, q: Request, stamp: int)
    ensures var (r', o) := IntegrateIn(r, q, stamp);
            o.Ok? ==> VerifyIn(r', q, o.value).None?
  {
    hide Sanctioned, ValidateUncommitted, ValidateCreated, Ancestors, Diff, Applies;
    var (r', o) := IntegrateIn(r, q, stamp);
    if o.Ok? && r.head == q.base {
      NewCommitIsNew(r, q, stamp);
    }
  }

  lemma IntegrationAttests(r: Repo, q: Request, stamp: int)
    ensures var (r', o) := IntegrateIn(r, q, stamp);
            o.Ok? ==> VerifyIn(r', q, o.value).None? && forall later :: IntegrateIn(r', q, later) == (r', o)
  {
    ResultVerifies(r, q, stamp);
    hide IntegrateIn, VerifyIn;
    var (r', o) := IntegrateIn(r, q, stamp);
    if o.Ok? {
      forall later
        ensures IntegrateIn(r', q, later) == (r', o)
      {
        AttestationIsIdempotence(r', q, o.value, later);
      }
    }
  }

  // ---- crashes and retries ----------------------------------------------------------------

  /** The reviewed workspace, before anything was committed. */
  ghost predicate Ready(r: Repo, q: Request) {
    && Coherent(r, q) && r.head == q.base && Preflight(r, q).None? && ValidateUncommitted(r, q).None?
  }

  ghost function AfterCommit(r: Repo, q: Request, stamp: int): Repo {
    r.(head := NewCommit(r, q, stamp), tip := NewCommit(r, q, stamp))
  }

  ghost function AfterMerge(r: Repo, q: Request, stamp: int): Repo {
    AfterCommit(r, q, stamp).(target := NewCommit(r, q, stamp), targetTree := r.workTree)
  }

  lemma NewCommitIsSanctioned(r: Repo, q: Request, stamp: int)
    requires Ready(r, q)
    ensures ValidateCreated(NewCommit(r, q, stamp), q).None?
  {
    PatchRoundTrip(q.base.tree, r.workTree);
    ChildIsOneAhead(q.base, NewCommit(r, q, stamp));
  }

  lemma CommitIsTheFirstStep(r: Repo, q: Request, stamp: int)
    requires Ready(r, q)
    ensures CommitPhase(r, q, stamp) == (AfterCommit(r, q, stamp), None)
  {
    NewCommitIsSanctioned(r, q, stamp);
  }

  lemma CommitIsKept(r: Repo, q: Request, stamp: int, later: int)
    requires Ready(r, q)
    ensures CommitPhase(AfterCommit(r, q, stamp), q, later) == (AfterCommit(r, q, stamp), None)
  {
    NewCommitIsSanctioned(r, q, stamp);
    NewCommitIsNew(r, q, stamp);
    hide Ancestors, Ahead, ValidateCreated, ValidateUncommitted, Diff, Applies;
  }

  lemma CommitFastForwards(r: Repo, q: Request, stamp: int)
    requires Ready(r, q)
    ensures var c := NewCommit(r, q, stamp); MergePhase(AfterCommit(r, q, stamp), q) == (AfterMerge(r, q, stamp), Ok(EvidenceFor(q, c, c)))
  {
    var c := NewCommit(r, q, stamp);
    NewCommitIsNew(r, q, stamp);
    assert q.base in c.parents && q.base in Ancestors(q.base);
    assert q.base in Ancestors(c);
    if c in Ancestors(q.base) {
      AncestorsAreLower(q.base, c);
      MaxHeightBounds(c.parents, q.base);
    }
    hide Ancestors, Preflight;
  }

  lemma MergeIsTheSecondStep(r: Repo, q: Request, stamp: int, later: int)
    requires Ready(r, q)
    ensures var c := NewCommit(r, q, stamp);
            && CommitPhase(AfterCommit(r, q, stamp), q, later) == (AfterCommit(r, q, stamp), None)
            && MergePhase(AfterCommit(r, q, stamp), q) == (AfterMerge(r, q, stamp), Ok(EvidenceFor(q, c, c)))
  {
    CommitIsKept(r, q, stamp, later);
    CommitFastForwards(r, q, stamp);
  }

  /** An attempt dies before its commit, between commit and fast-forward, or runs to its end. */
  datatype Attempt = DiesFirst | DiesAfterCommit(stamp: int) | Finishes(stamp: int)

  function Attempted(r: Repo, q: Request, a: Attempt): Repo {
    match a
    case DiesFirst => r
    case DiesAfterCommit(stamp) => CommitPhase(r, q, stamp).0
    case Finishes(stamp) => IntegrateIn(r, q, stamp).0
  }

  function AfterAttempts(r: Repo, q: Request, attempts: seq<Attempt>): Repo
    decreases |attempts|
  {
    if attempts == [] then r else AfterAttempts(Attempted(r, q, attempts[0]), q, attempts[1..])
  }

  /** The one commit ever made: the one of the first attempt that got that far. */
  function FirstStamp(attempts: seq<Attempt>): Option<int> {
    if attempts == [] then None
    else if attempts[0].DiesFirst? then FirstStamp(attempts[1..])
    else Some(attempts[0].stamp)
  }

  predicate SomeFinished(attempts: seq<Attempt>) {
    exists a | a in attempts :: a.Finishes?
  }

  lemma {:induction false} RetriesKeepTheCommit(r: Repo, q: Request, stamp: int, merged: bool, attempts: seq<Attempt>)
    requires Ready(r, q)
    ensures AfterAttempts(if merged then AfterMerge(r, q, stamp) else AfterCommit(r, q, stamp), q, attempts)
            == if merged || SomeFinished(attempts) then AfterMerge(r, q, stamp) else AfterCommit(r, q, stamp)
    decreases |attempts|
  {
    if attempts == [] {
    } else {
      assert SomeFinished(attempts) <==> attempts[0].Finishes? || SomeFinished(attempts[1..]) by {
        assert forall a :: a in attempts <==> a == attempts[0] || a in attempts[1..];
      }
      var here := if merged then AfterMerge(r, q, stamp) else AfterCommit(r, q, stamp);
      match attempts[0] {
        case DiesFirst =>
        case DiesAfterCommit(later) =>
          MergeIsTheSecondStep(r, q, stamp, later);
          MergedIsFinal(r, q, stamp, later);
        case Finishes(later) =>
          MergeIsTheSecondStep(r, q, stamp, later);
          MergedIsFinal(r, q, stamp, later);
      }
      RetriesKeepTheCommit(r, q, stamp, merged || attempts[0].Finishes?, attempts[1..]);
    }
  }

  lemma MergedIsFinal(r: Repo, q: Request, stamp: int, later: int)
    requires Ready(r, q)
    ensures var c, done := NewCommit(r, q, stamp), AfterMerge(r, q, stamp);
            CommitPhase(done, q, later) == (done, None) && IntegrateIn(done, q, later) == (done, Ok(EvidenceFor(q, c, c)))
  {
    MergeIsTheSecondStep(r, q, stamp, later);
    CommitIsTheFirstStep(r, q, stamp);
    IntegrationAttests(r, q, stamp);
  }

  /**
   Exactly once, over any sequence of attempts cut anywhere: one commit, made by the first attempt
   that reaches it; once an attempt finishes, target and workspace stand at that commit.
   */
  lemma {:induction false} IntegrationIsExactlyOnce(r: Repo, q: Request, attempts: seq<Attempt>)
    requires Ready(r, q)
    ensures AfterAttempts(r, q, attempts) ==
            match FirstStamp(attempts)
            case None => r
            case Some(stamp) => if SomeFinished(attempts) then AfterMerge(r, q, stamp) else AfterCommit(r, q, stamp)
    ensures SomeFinished(attempts) ==> FirstStamp(attempts).Some?
    decreases |attempts|
  {
    if attempts == [] {
    } else {
      assert SomeFinished(attempts) <==> attempts[0].Finishes? || SomeFinished(attempts[1..]) by {
        assert forall a :: a in attempts <==> a == attempts[0] || a in attempts[1..];
      }
      match attempts[0] {
        case DiesFirst =>
          IntegrationIsExactlyOnce(r, q, attempts[1..]);
        case DiesAfterCommit(stamp) =>
          CommitIsTheFirstStep(r, q, stamp);
          RetriesKeepTheCommit(r, q, stamp, false, attempts[1..]);
        case Finishes(stamp) =>
          CommitIsTheFirstStep(r, q, stamp);
          MergeIsTheSecondStep(r, q, stamp, stamp);
          RetriesKeepTheCommit(r, q, stamp, true, attempts[1..]);
      }
    }
  }

  // ---- when it succeeds -------------------------------------------------------------------

  /** The bindings agree, the texts are there, and the target checkout is clean and on the branch that was named. */
  ghost predicate Addressed(r: Repo, q: Request) {
    && q.workspaceTask == q.task && q.patchTask == q.task && q.patchWorkspace == q.workspace && q.patchBase == q.base
    && q.targetRef != "" && q.approvedBy != "" && q.title != ""
    && r.targetBranch == q.targetRef && r.targetTree == r.target.tree
  }

  /** The worktree differs from the base in the paths of the patch, each with the content the patch says, and in no other. */
  ghost predicate HoldsThePatch(r: Repo, q: Request) {
    forall p ::
      && (p in q.patch <==> At(q.base.tree, p) != At(r.workTree, p))
      && (p in q.patch ==> q.patch[p] == At(r.workTree, p))
  }

  /** Before anything is committed. */
  ghost predicate CanCommit(r: Repo, q: Request) {
    && r.head == q.base && r.target == q.base && r.checkedOut == q.branch
    && HoldsThePatch(r, q) && q.patch != map[] && q.patch.Keys <= q.allowed
  }

  /** At the reviewed commit, which the target has reached or can be taken to by the branch's name. */
  ghost predicate CanResume(r: Repo, q: Request) {
    && r.head != q.base && Sanctioned(r.head, q) && r.workTree == r.head.tree
    && (r.target == r.head || (r.target == q.base && r.tip == r.head))
  }

  lemma HoldsThePatchIff(r: Repo, q: Request)
    ensures HoldsThePatch(r, q) <==> Diff(q.base.tree, r.workTree) == q.patch
    ensures HoldsThePatch(r, q) ==> Applies(q.base.tree, q.patch)
  {
    PatchRoundTrip(q.base.tree, r.workTree);
    if HoldsThePatch(r, q) {
      assert Diff(q.base.tree, r.workTree) == q.patch;
    }
  }

  lemma PreflightMeans(r: Repo, q: Request)
    ensures Preflight(r, q).None? <==> Addressed(r, q) && Applies(q.base.tree, q.patch)
  {
    hide Applies;
  }

  lemma FreshSucceedsIff(r: Repo, q: Request, stamp: int)
    requires r.head == q.base
    ensures IntegrateIn(r, q, stamp).1.Ok? <==> Addressed(r, q) && CanCommit(r, q)
    ensures IntegrateIn(r, q, stamp).1.Err? ==> IntegrateIn(r, q, stamp).0 == r
  {
    PreflightMeans(r, q);
    HoldsThePatchIff(r, q);
    if Preflight(r, q).None? && ValidateUncommitted(r, q).None? {
      var bound := r.(tip := r.head);
      assert Ready(bound, q);
      assert NewCommit(bound, q, stamp) == NewCommit(r, q, stamp);
      NewCommitIsSanctioned(bound, q, stamp);
      CommitFastForwards(bound, q, stamp);
      assert AfterCommit(bound, q, stamp) == AfterCommit(r, q, stamp);
    }
    hide HoldsThePatch, Applies, Diff, Ancestors, MergePhase, Ahead, ValidateCreated;
  }

  lemma ResumeSucceedsIff(r: Repo, q: Request, stamp: int)
    requires r.head != q.base
    ensures IntegrateIn(r, q, stamp).1.Ok? <==> Addressed(r, q) && CanResume(r, q)
  {
    PreflightMeans(r, q);
    if Sanctioned(r.head, q) {
      assert Applies(q.base.tree, q.patch);
      SanctionedIsAbove(r.head, q);
    }
    if Applies(q.base.tree, q.patch) {
      ValidatedIsSanctioned(r.head, q);
    }
    assert r.head in Ancestors(r.head);
    hide Applies, Diff, Patched, Ancestors, Ahead, ValidateCreated;
  }

  /** The exact condition of success, on what a caller can see, for every repository and request. */
  lemma IntegratesIff(r: Repo, q: Request, stamp: int)
    ensures IntegrateIn(r, q, stamp).1.Ok? <==> Addressed(r, q) && (CanCommit(r, q) || CanResume(r, q))
  {
    hide IntegrateIn, Addressed, HoldsThePatch, Sanctioned;
    if r.head == q.base {
      FreshSucceedsIff(r, q, stamp);
    } else {
      ResumeSucceedsIff(r, q, stamp);
    }
  }

  /** The commit moves the workspace only, the merge the target only. */
  lemma PhasesKeepTheRest(r: Repo, q: Request, stamp: int)
    ensures var (c, e) := CommitPhase(r, q, stamp);
            && c == r.(head := c.head, tip := c.tip)
            && (e.None? ==> IntegrateIn(r, q, stamp) == MergePhase(c, q)
                            && MergePhase(c, q).0 == c.(target := MergePhase(c, q).0.target, targetTree := MergePhase(c, q).0.targetTree))
  {
    hide Ancestors, Preflight, ValidateUncommitted, ValidateCreated, ValidateRecoverable;
  }

  /** What a success leaves, first or resumed: field by field, the evidence too. */
  lemma SuccessLeaves(r: Repo, q: Request, stamp: int)
    requires IntegrateIn(r, q, stamp).1.Ok?
    ensures var (r', o) := IntegrateIn(r, q, stamp);
            var c := if r.head == q.base then Commit([q.base], r.workTree, Approved(q.title, q.task, q.patch, q.approvedBy), stamp) else r.head;
            && r' == Repo(q.targetRef, c, c.tree, r.checkedOut, c, r.workTree, if r.head == q.base then c else r.tip)
            && o.value == Evidence(q.task, q.workspace, q.branch, q.targetRef, q.base, c, q.base, c, q.patch, q.patch.Keys, q.approvedBy)
  {
    ResultIsBackedByGit(r, q, stamp);
    IntegratesIff(r, q, stamp);
    hide Ancestors, Diff, Patched, Sanctioned, ValidateCreated, ValidateUncommitted, Applies, HoldsThePatch, Ahead;
  }

  /** On another branch, or for another patch, task or workspace, nothing is committed and nothing moves. */
  lemma MisaddressedChangesNothing(r: Repo, q: Request, stamp: int)
    requires !Addressed(r, q)
    ensures IntegrateIn(r, q, stamp).0 == r && IntegrateIn(r, q, stamp).1.Err?
    ensures forall claimed :: VerifyIn(r, q, claimed).Some?
  {
    PreflightMeans(r, q);
    hide Addressed, Preflight;
  }

  /** With the branch checked out, a refusal changes nothing at all, not even the workspace. */
  lemma RefusalChangesNothing(r: Repo, q: Request, stamp: int)
    requires Coherent(r, q) && r.checkedOut == q.branch && IntegrateIn(r, q, stamp).1.Err?
    ensures IntegrateIn(r, q, stamp).0 == r
  {
    if r.head == q.base {
      FreshSucceedsIff(r, q, stamp);
    } else {
      ResumeSucceedsIff(r, q, stamp);
      if Preflight(r, q).None? && ValidateRecoverable(r, q).None? {
        PreflightMeans(r, q);
        ValidatedIsSanctioned(r.head, q);
      }
      hide Applies, Diff, Patched, Ancestors, Ahead, ValidateCreated, Sanctioned, Addressed;
    }
  }

  /** Attestation, too, on what Git shows and nothing else. */
  lemma AttestsIff(r: Repo, q: Request, claimed: Evidence)
    ensures VerifyIn(r, q, claimed).None? <==>
            && Addressed(r, q) && r.head != q.base && Sanctioned(r.head, q)
            && r.workTree == r.head.tree && r.target == r.head
            && claimed == Evidence(q.task, q.workspace, q.branch, q.targetRef, q.base, r.head, q.base, r.head,
                                   q.patch, q.patch.Keys, q.approvedBy)
  {
    PreflightMeans(r, q);
    if Sanctioned(r.head, q) {
      assert Applies(q.base.tree, q.patch);
    }
    if Applies(q.base.tree, q.patch) {
      ValidatedIsSanctioned(r.head, q);
    }
    hide Applies, Diff, Patched, Ancestors, Ahead, ValidateCreated, Sanctioned;
  }

  // ---- refusals ---------------------------------------------------------------------------

  /** The target stays where it is, or goes from the base to a sanctioned commit that is returned. */
  ghost predicate TargetSafe(r: Repo, q: Request, stamp: int) {
    var (r', o) := IntegrateIn(r, q, stamp);
    r'.target == r.target || (r.target == q.base && o.Ok? && r'.target == o.value.commit && Sanctioned(r'.target, q))
  }

  /**
   A resumed integration checks the workspace HEAD but merges the branch by name.  It does not
   check that the branch is the one checked out.
   */
  ghost predicate MergesAnotherTip(r: Repo, q: Request) {
    && Preflight(r, q).None? && r.head != q.base && ValidateRecoverable(r, q).None?
    && r.target == q.base
    && r.tip != r.head && r.tip != q.base && q.base in Ancestors(r.tip) && r.tip !in Ancestors(q.base)
  }

  lemma MergeTakesTheTip(r: Repo, q: Request)
    requires Sanctioned(r.head, q) && r.workTree == r.head.tree && r.targetTree == r.target.tree
    ensures var (r', o) := MergePhase(r, q);
            (r'.target == r.target || (r.target == q.base && o.Ok? && r'.target == o.value.commit == r.head)) <==>
            !(r.target == q.base && r.tip != r.head && r.tip != q.base
              && q.base in Ancestors(r.tip) && r.tip !in Ancestors(q.base))
  {
    SanctionedIsAbove(r.head, q);
  }

  lemma CommitPhaseLeavesTheTarget(r: Repo, q: Request, stamp: int)
    requires Coherent(r, q)
    ensures var (r1, e) := CommitPhase(r, q, stamp);
            && r1.target == r.target
            && (e.None? ==> Sanctioned(r1.head, q) && r1.workTree == r1.head.tree && r1.targetTree == r1.target.tree
                            && if r.head == q.base then r1.tip == r1.head else r1 == r && ValidateRecoverable(r, q).None?)
  {
    hide Ancestors, Diff, Patched, ValidateCreated;
    var (r1, e) := CommitPhase(r, q, stamp);
    if e.None? {
      ValidatedIsSanctioned(r1.head, q);
    }
  }

  lemma TargetSafeUnlessAnotherTip(r: Repo, q: Request, stamp: int)
    requires Coherent(r, q)
    ensures TargetSafe(r, q, stamp) <==> !MergesAnotherTip(r, q)
  {
    CommitPhaseLeavesTheTarget(r, q, stamp);
    var (r1, e) := CommitPhase(r, q, stamp);
    if e.None? {
      MergeTakesTheTip(r1, q);
    }
  }

  lemma SanctionedIsAbove(c: Commit, q: Request)
    requires Sanctioned(c, q)
    ensures q.base in Ancestors(c) && c !in Ancestors(q.base) && c != q.base
  {
    assert q.base in c.parents && q.base in Ancestors(q.base);
    assert c in {c};
  }

  /** With the branch checked out, as it was created, a refusal leaves the target where it was. */
  lemma RefusalLeavesTheTarget(r: Repo, q: Request, stamp: int)
    requires Coherent(r, q) && r.checkedOut == q.branch
    ensures TargetSafe(r, q, stamp)
    ensures IntegrateIn(r, q, stamp).1.Err? ==> IntegrateIn(r, q, stamp).0.target == r.target
  {
    TargetSafeUnlessAnotherTip(r, q, stamp);
  }

  const BASE := Commit([], map["f" := "old"], Text("base"), 0)
  const NEW_TREE: Tree := map["f" := "new"]
  const CHANGE := Diff(BASE.tree, NEW_TREE)
  const CHANGE_REQUEST :=
    Request("t", "t", "t", "w", "w", "jobslayer/w", BASE, BASE, CHANGE, {"f"}, "main", "alice", "title")
  const REVIEWED := Commit([BASE], NEW_TREE, ExpectedMessage(CHANGE_REQUEST), 1)
  const UNREVIEWED := Commit([REVIEWED], map["f" := "other"], Text("more"), 2)

  lemma ReviewedIsValid()
    ensures Applies(BASE.tree, CHANGE) && ValidateCreated(REVIEWED, CHANGE_REQUEST).None? && REVIEWED != BASE
  {
    PatchRoundTrip(BASE.tree, NEW_TREE);
    ChildIsOneAhead(BASE, REVIEWED);
    hide Diff, Patched, Ancestors, Ahead;
    assert REVIEWED.tree["f"] != BASE.tree["f"];
  }

  lemma UnreviewedIsAbove()
    ensures BASE in Ancestors(UNREVIEWED) && UNREVIEWED !in Ancestors(BASE) && UNREVIEWED != REVIEWED && UNREVIEWED != BASE
  {
    assert BASE in REVIEWED.parents && BASE in Ancestors(BASE) && BASE in Ancestors(REVIEWED);
    assert REVIEWED in UNREVIEWED.parents;
    assert Ancestors(BASE) == {BASE};
  }

  /** The branch was moved on to an unreviewed commit while HEAD stayed detached at the reviewed one. */
  lemma ResumedMergeCanTakeAnUnreviewedTip()
    returns (r: Repo, q: Request)
    ensures Coherent(r, q)
    ensures forall stamp :: IntegrateIn(r, q, stamp).1 == Err(TargetNotReached)
                            && IntegrateIn(r, q, stamp).0.target == r.tip != r.target
  {
    q := CHANGE_REQUEST;
    r := Repo("main", BASE, BASE.tree, "", REVIEWED, REVIEWED.tree, UNREVIEWED);
    ReviewedIsValid();
    UnreviewedIsAbove();
    hide Ancestors, Diff, Applies, ValidateCreated;
    forall stamp
      ensures IntegrateIn(r, q, stamp).1 == Err(TargetNotReached)
      ensures IntegrateIn(r, q, stamp).0.target == r.tip != r.target
    {
      assert CommitPhase(r, q, stamp) == (r, None);
      assert FastForward(r) == Some(r.(target := r.tip, targetTree := r.tip.tree));
    }
  }

  // ---- the integrator ---------------------------------------------------------------------

  /** The two checkouts the integrator runs Git commands in. */
  class LocalGitIntegrator {
    var targetBranch: string
    var target: Commit
    var targetTree: Tree
    var checkedOut: string
    var head: Commit
    var workTree: Tree
    var tip: Commit

    constructor (r: Repo)
      ensures State() == r
    {
      targetBranch, target, targetTree := r.targetBranch, r.target, r.targetTree;
      checkedOut, head, workTree, tip := r.checkedOut, r.head, r.workTree, r.tip;
    }

    function State(): Repo
      reads this
    {
      Repo(targetBranch, target, targetTree, checkedOut, head, workTree, tip)
    }

    /** `git add --all` and `git commit` on the checked-out branch. */
    method CommitAll(message: Message, stamp: int)
      modifies this`head, this`tip
      ensures head == tip == Commit([old(head)], workTree, message, stamp)
    {
      head := Commit([head], workTree, message, stamp);
      tip := head;
    }

    method MergeFastForwardOnly() returns (ok: bool)
      modifies this`target, this`targetTree
      ensures ok <==> FastForward(old(State())).Some?
      ensures State() == if ok then FastForward(old(State())).value else old(State())
    {
      if tip in Ancestors(target) {
        return true;
      }
      if target !in Ancestors(tip) {
        return false;
      }
      target, targetTree := tip, tip.tree;
      return true;
    }

    method CheckInputs(q: Request) returns (e: Option<Error>)
      ensures e == Preflight(State(), q)
    {
      if q.task != q.workspaceTask || q.patchTask != q.task || q.patchWorkspace != q.workspace || q.patchBase != q.base {
        return Some(BadBindings);
      }
      if q.targetRef == "" || q.approvedBy == "" || q.title == "" {
        return Some(BadText);
      }
      if targetBranch != q.targetRef {
        return Some(WrongTargetBranch);
      }
      if targetTree != target.tree {
        return Some(DirtyTarget);
      }
      if !Applies(q.base.tree, q.patch) {
        return Some(PatchDoesNotApply);
      }
      return None;
    }

    method Integrate(q: Request, stamp: int) returns (r: Result<Evidence, Error>)
      modifies this
      ensures (State(), r) == IntegrateIn(old(State()), q, stamp)
    {
      var e := CheckInputs(q);
      if e.Some? {
        return Err(e.value);
      }
      if head == q.base {
        if target != q.base {
          return Err(TargetMoved);
        }
        if checkedOut != q.branch {
          return Err(WrongBranch);
        }
        var current := Diff(q.base.tree, workTree);
        if !(current.Keys <= q.allowed) {
          return Err(PathPolicy);
        }
        if current != q.patch {
          return Err(PatchDiffers);
        }
        if current == map[] {
          return Err(EmptyPatch);
        }
        CommitAll(ExpectedMessage(q), stamp);
      } else {
        e := ValidateRecoverable(State(), q);
        if e.Some? {
          return Err(e.value);
        }
      }
      e := ValidateCreated(head, q);
      if e.Some? {
        return Err(e.value);
      }
      if target == q.base {
        var merged := MergeFastForwardOnly();
        if !merged {
          return Err(CannotFastForward);
        }
      } else if target != head {
        return Err(TargetMoved);
      }
      if target != head {
        return Err(TargetNotReached);
      }
      if targetTree != target.tree || workTree != head.tree {
        return Err(LeftDirty);
      }
      return Ok(EvidenceFor(q, head, target));
    }

    method VerifyExistingIntegration(q: Request, claimed: Evidence) returns (e: Option<Error>)
      ensures e == VerifyIn(State(), q, claimed)
    {
      e := CheckInputs(q);
      if e.Some? {
        return;
      }
      if head == q.base {
        return Some(CommitMissing);
      }
      e := ValidateRecoverable(State(), q);
      if e.Some? {
        return;
      }
      if target != head {
        return Some(TargetNotReached);
      }
      if workTree != head.tree {
        return Some(DirtyWorkspace);
      }
      if claimed != EvidenceFor(q, head, target) {
        return Some(ResultDiffers);
      }
    }
  }
}
