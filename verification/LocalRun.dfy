/**
 One local run: execute, review, apply_decision, integrate, cleanup.
 The durable state is one value; each durable write is one step; each call is the list of writes
 it makes on a given state, so a crash is a prefix of that list.  The run directory serves one
 task, so the task and run identifiers that records carry are always those of the run.
 */
module LocalRun {
  import opened Outcomes
  import G = GitIntegration

  // ---- the workflow kernel ----------------------------------------------------------------

  datatype TaskState =
    | Draft | Planned | PlanReview | Implementing | Blocked | Failed | Verifying | Repairing | Reviewing
    | MergeReview | Integrating | Completed | Cancelled | GateApproved | DeliverableAccepted

  datatype Actor = System | Agent(name: string) | Human(name: string) | Policy(name: string)

  function NameOf(actor: Actor): string {
    if actor.System? then "" else actor.name
  }

  /** Identifiers a transition cites; an artifact's number is its place in the registry. */
  datatype EvidenceId = Name(text: string) | ArtifactId(id: nat) | IntegrationId(task: string, target: string, commit: G.Commit)

  datatype Transition = Transition(from: TaskState, to: TaskState, actor: Actor, evidence: set<EvidenceId>, at: int)

  datatype Report = Report(id: string, patch: G.Patch, passes: bool)

  predicate Allowed(from: TaskState, to: TaskState) {
    match from
    case Draft => to == Planned
    case Planned => to == PlanReview || to == Implementing
    case PlanReview => to == Planned || to == Implementing || to == Cancelled || to == GateApproved
    case Implementing => to == Verifying || to == Blocked || to == Failed
    case Blocked => to == Implementing || to == Cancelled
    case Failed => to == Implementing || to == Cancelled
    case Verifying => to == Repairing || to == Reviewing
    case Repairing => to == Verifying
    case Reviewing => to == Repairing || to == MergeReview || to == DeliverableAccepted
    case MergeReview => to == Repairing || to == Integrating || to == Cancelled
    case Integrating => to == Completed || to == Cancelled
    case Completed | Cancelled | GateApproved | DeliverableAccepted => false
  }

  predicate Authorized(actor: Actor, from: TaskState, to: TaskState) {
    && (from == PlanReview || from == MergeReview
        || to == Completed || to == Cancelled || to == GateApproved || to == DeliverableAccepted
        ==> actor.Human? || actor.Policy?)
    && (to == Implementing ==> !actor.Agent?)
  }

  predicate NeedsPassing(to: TaskState) {
    to == Reviewing || to == Integrating || to == Completed || to == DeliverableAccepted
  }

  predicate GateOpen(from: TaskState, to: TaskState, report: Option<Report>, result: Option<G.Evidence>,
                     evidence: set<EvidenceId>)
  {
    && (to == DeliverableAccepted || to == GateApproved ==> evidence != {})
    && (NeedsPassing(to) ==> report.Some? && report.value.passes)
    && (to == Completed ==> from == Integrating && result.Some? && report.value.patch == result.value.patch)
    && (from == Verifying && to == Repairing ==> report.Some? && !report.value.passes)
  }

  function IdOf(result: G.Evidence): EvidenceId {
    IntegrationId(result.task, result.targetRef, result.commit)
  }

  function Cited(from: TaskState, to: TaskState, report: Option<Report>, result: Option<G.Evidence>,
                 evidence: set<EvidenceId>): set<EvidenceId>
    requires GateOpen(from, to, report, result, evidence)
  {
    var gated := if NeedsPassing(to) || (from == Verifying && to == Repairing) then evidence + {Name(report.value.id)} else evidence;
    if to == Completed then gated + {IdOf(result.value)} else gated
  }

  function CurrentState(journal: seq<Transition>): TaskState {
    if journal == [] then Draft else journal[|journal| - 1].to
  }

  /** WorkflowKernel.transition, before the journal is written. */
  function Decide(journal: seq<Transition>, to: TaskState, actor: Actor, report: Option<Report>,
                  result: Option<G.Evidence>, evidence: set<EvidenceId>, at: int): Result<Transition, Error>
  {
    var from := CurrentState(journal);
    if !Allowed(from, to) then Err(IllegalTransition)
    else if !Authorized(actor, from, to) then Err(NotAuthorized)
    else if !GateOpen(from, to, report, result, evidence) then Err(GateClosed)
    else Ok(Transition(from, to, actor, Cited(from, to, report, result, evidence), at))
  }

  // ---- evidence ---------------------------------------------------------------------------

  datatype Setup = Setup(
    task: string, title: string, workspace: string, branch: string, base: G.Commit, allowed: set<G.Path>,
    targetRef: string)

  /** `artifacts` are the registered files the outcome lists. */
  datatype Outcome = Outcome(
    state: TaskState, patch: Option<G.Patch>, patchArtifact: Option<nat>, report: Option<Report>, artifacts: set<nat>)

  datatype Review = Review(id: string, reviewer: Actor, accepted: bool)

  /** A card is identified by its hash, hence by its contents. */
  datatype Card = Card(id: string, evidence: set<EvidenceId>)

  datatype Disposition =
    | Accepted(card: Card, reviewArtifact: nat, cardArtifact: nat)
    | ChangesRequested(reviewArtifact: nat)

  datatype Choice = Approve | RequestChanges | Reject | Unlisted

  datatype Decision = Decision(id: string, card: Card, actor: string, choice: Choice, evidence: set<EvidenceId>)

  datatype Authority = Authority(id: string, actor: string, mergeAllowed: bool, issuedAt: int, validUntil: int)

  datatype Content =
    | IntentDoc(setup: Setup) | OutcomeDoc(outcome: Outcome)
    | ReviewDoc(review: Review) | CardDoc(card: Card)
    | DecisionDoc(decision: Decision) | AuthorityDoc(authority: Authority)
    | IntegrationDoc(result: G.Evidence)
    | PatchText(patch: G.Patch) | VerificationDoc(report: Report)
    | TaskSpecification | ExecutionAuthorization | ValidationProfile | AgentRunResult | RawEvents | Stderr
    | Failure | CommandResult

  datatype Kind = Intents | OutcomeDocs | DecisionDocs | AuthorityDocs | IntegrationDocs | Others

  function KindOf(content: Content): Kind {
    match content
    case IntentDoc(_) => Intents
    case OutcomeDoc(_) => OutcomeDocs
    case DecisionDoc(_) => DecisionDocs
    case AuthorityDoc(_) => AuthorityDocs
    case IntegrationDoc(_) => IntegrationDocs
    case _ => Others
  }

  datatype Producer = Coordinator | Controller | Engine | Executor | Integrator | AuthorityProvider | Person(name: string)

  datatype Artifact = Artifact(producer: Producer, content: Content)

  datatype Payload =
    | Execution(setup: Setup, outcome: Outcome, intentArtifact: nat, outcomeArtifact: nat)
    | Reviewed(review: Review, disposition: Disposition)
    | DecisionApplied(decision: Decision, authority: Authority, decisionArtifact: nat, authorityArtifact: nat,
                      transition: Transition)
    | Integrated(result: G.Evidence, artifact: nat, transition: Transition)
    | Cleaned(commit: G.Commit)

  datatype Record = Record(payload: Payload, at: int)

  datatype CardFile = NoCard | TornCard | CardOnFile(card: Card)

  /** `workspace`: the worktree exists and is registered; after removal its branch tip remains in `git`. */
  datatype State = State(
    directory: bool, artifacts: seq<Artifact>, journal: seq<Transition>, ledger: seq<Record>, card: CardFile,
    git: G.Repo, workspace: bool, agentStarts: nat)

  datatype Error =
    | NotAdmitted | DirectoryExists | NotAuthorized | WorkspaceExists | AgentLifecycle | IllegalTransition | GateClosed
    | NoDirectory | NotAwaited | BadReviewer | NotReviewable | NoPackage | DecisionUnreadable | WrongCard
    | AuthorityInvalid | WrongState | UnknownOption | NotApproved | Refused(cause: G.Error) | BadEvidence
    | Dirty | WrongBranch | BranchDrifted | Disagreement | ArtifactsInvalid | CannotRepair | NotConsistent

  // ---- durable writes ---------------------------------------------------------------------

  datatype Write =
    | MakeDirectory
    | Register(artifact: Artifact)
    | AddWorktree(base: G.Commit, branch: string)
    | Transit(transition: Transition)
    | StartAgent
    | Edit(tree: G.Tree)
    | Git(after: G.Repo)
    | Append(record: Record)
    | OpenCard
    | FillCard(card: Card)
    | RemoveWorktree

  function Apply(s: State, w: Write): State {
    match w
    case MakeDirectory => s.(directory := true)
    case Register(a) => s.(artifacts := s.artifacts + [a])
    case AddWorktree(base, branch) =>
      s.(workspace := true, git := s.git.(checkedOut := branch, head := base, workTree := base.tree, tip := base))
    case Transit(t) => s.(journal := s.journal + [t])
    case StartAgent => s.(agentStarts := s.agentStarts + 1)
    case Edit(tree) => s.(git := s.git.(workTree := tree))
    case Git(after) => s.(git := after)
    case Append(r) => s.(ledger := s.ledger + [r])
    case OpenCard => s.(card := TornCard)
    case FillCard(card) => s.(card := CardOnFile(card))
    case RemoveWorktree => s.(workspace := false)
  }

  function After(s: State, writes: seq<Write>): State {
    if writes == [] then s else Apply(After(s, writes[..|writes| - 1]), writes[|writes| - 1])
  }

  lemma {:induction false} AfterConcat(s: State, a: seq<Write>, b: seq<Write>)
    ensures After(s, a + b) == After(After(s, a), b)
    decreases |b|
  {
    if b == [] {
      assert a + b == a;
    } else {
      AfterConcat(s, a, b[..|b| - 1]);
      assert (a + b)[..|a + b| - 1] == a + b[..|b| - 1];
    }
  }

  lemma AfterOne(s: State, writes: seq<Write>, w: Write)
    ensures After(s, writes + [w]) == Apply(After(s, writes), w)
  {
    assert (writes + [w])[..|writes|] == writes;
  }

  lemma AfterFew(s: State, x: Write, y: Write)
    ensures After(s, []) == s && After(s, [x]) == Apply(s, x) && After(s, [x, y]) == Apply(Apply(s, x), y)
  {
    AfterOne(s, [], x);
    AfterOne(s, [x], y);
    assert [] + [x] == [x] && [x] + [y] == [x, y];
  }

  /** What a call writes before it returns a value or raises. */
  datatype Steps<T> = Steps(writes: seq<Write>, result: Result<T, Error>)

  /** A call that does not raise ends by inspecting the run, which may raise too. */
  function Answer(result: Result<(), Error>, final: State): Option<Error> {
    if result.Err? then Some(result.error) else Inspect(final)
  }

  /** The stage record is the last thing a call makes durable. */
  function Recording(steps: Steps<Payload>, at: int): Steps<()> {
    match steps.result
    case Err(e) => Steps(steps.writes, Err(e))
    case Ok(p) => Steps(steps.writes + [Append(Record(p, at))], Ok(()))
  }

  function Then<T>(writes: seq<Write>, rest: Steps<T>): Steps<T> {
    Steps(writes + rest.writes, rest.result)
  }

  // ---- reading the stores -----------------------------------------------------------------

  /** Manifests of one kind, oldest first; with `cited`, only those whose id it holds. */
  function Select(artifacts: seq<Artifact>, kind: Kind, cited: Option<set<EvidenceId>>): (ids: seq<nat>)
    ensures forall i | 0 <= i < |ids| :: ids[i] < |artifacts| && KindOf(artifacts[ids[i]].content) == kind
  {
    if artifacts == [] then []
    else
      var n := |artifacts| - 1;
      var rest := Select(artifacts[..n], kind, cited);
      if KindOf(artifacts[n].content) == kind && (cited.None? || ArtifactId(n) in cited.value) then rest + [n] else rest
  }

  predicate Available(artifacts: seq<Artifact>, cited: set<EvidenceId>) {
    forall e | e in cited && e.ArtifactId? :: e.id < |artifacts|
  }

  predicate StageFits(payload: Payload, k: nat) {
    match payload
    case Execution(_, _, _, _) => k == 0
    case Reviewed(_, _) => k == 1
    case DecisionApplied(_, _, _, _, _) => k == 2
    case Integrated(_, _, _) => k == 3
    case Cleaned(_) => k == 4
  }

  /** validate_run_stage_sequence: the stages form a prefix of the five. */
  predicate StagesInOrder(ledger: seq<Record>) {
    forall k | 0 <= k < |ledger| :: StageFits(ledger[k].payload, k)
  }

  function SetupOf(s: State): Setup
    requires s.ledger != [] && StagesInOrder(s.ledger)
  {
    s.ledger[0].payload.setup
  }

  function OutcomeOf(s: State): Outcome
    requires s.ledger != [] && StagesInOrder(s.ledger)
  {
    s.ledger[0].payload.outcome
  }

  function RequestFor(setup: Setup, patch: G.Patch, approvedBy: string): G.Request {
    G.Request(setup.task, setup.task, setup.task, setup.workspace, setup.workspace, setup.branch,
              setup.base, setup.base, patch, setup.allowed, setup.targetRef, approvedBy, "JobSlayer: " + setup.title)
  }

  /** GitWorktreeManager.collect_patch; None when a changed path is outside the task's policy. */
  function CollectPatch(git: G.Repo, setup: Setup): Option<G.Patch> {
    var patch := G.Diff(setup.base.tree, git.workTree);
    if patch.Keys <= setup.allowed then Some(patch) else None
  }

  function ExpectedState(s: State): TaskState
    requires s.ledger != [] && StagesInOrder(s.ledger)
  {
    if |s.ledger| >= 4 then s.ledger[3].payload.transition.to
    else if |s.ledger| == 3 then s.ledger[2].payload.transition.to
    else if |s.ledger| == 2 then if s.ledger[1].payload.disposition.Accepted? then MergeReview else Repairing
    else s.ledger[0].payload.outcome.state
  }

  predicate IntentAndOutcomeOnFile(s: State)
    requires s.ledger != [] && StagesInOrder(s.ledger)
  {
    var p := s.ledger[0].payload;
    && p.intentArtifact < |s.artifacts| && s.artifacts[p.intentArtifact].content == IntentDoc(p.setup)
    && p.outcomeArtifact < |s.artifacts| && s.artifacts[p.outcomeArtifact].content == OutcomeDoc(p.outcome)
  }

  function ReviewArtifacts(d: Disposition): set<nat> {
    match d
    case Accepted(_, r, c) => {r, c}
    case ChangesRequested(r) => {r}
  }

  /** Everything the records refer to is in the registry. */
  predicate ArtifactsValid(s: State)
    requires s.ledger != [] && StagesInOrder(s.ledger)
  {
    && (forall k | k in OutcomeOf(s).artifacts :: k < |s.artifacts|)
    && (|s.ledger| >= 2 ==> forall k | k in ReviewArtifacts(s.ledger[1].payload.disposition) :: k < |s.artifacts|)
    && (|s.ledger| >= 3 ==> s.ledger[2].payload.decisionArtifact < |s.artifacts|
                            && s.ledger[2].payload.authorityArtifact < |s.artifacts|)
    && (|s.ledger| >= 4 ==> s.ledger[3].payload.artifact < |s.artifacts|)
  }

  /** LocalRunCoordinator.inspect: the ways it raises; whether the artifacts verify is a field of its summary. */
  function Inspect(s: State): Option<Error> {
    if !s.directory then Some(NoDirectory)
    else if !StagesInOrder(s.ledger) || s.ledger == [] || s.journal == [] then Some(Disagreement)
    else if CurrentState(s.journal) != ExpectedState(s) then Some(Disagreement)
    else if |s.ledger| < 5 && (!s.workspace || s.git.checkedOut != SetupOf(s).branch) then Some(WrongBranch)
    else if |s.ledger| == 5 && (s.ledger[4].payload.commit != s.ledger[3].payload.result.commit || s.workspace) then Some(Disagreement)
    else if !IntentAndOutcomeOnFile(s) then Some(Disagreement)
    else None
  }

  // ---- execute ----------------------------------------------------------------------------

  datatype AgentEnd = LifecycleError | Unusable | Finished

  /**
   What the environment supplies to one execution: `admitted` is the runbook, authority and
   baseline check; `authorized` the controller's input check; `edited` the tree the agent leaves;
   `checks` the number of validation commands and `checked` the tree they leave.
   */
  datatype Attempt = Attempt(
    setup: Setup, admitted: bool, authorized: bool, actor: Actor, workspaceFree: bool, end: AgentEnd,
    edited: G.Tree, checks: nat, checked: G.Tree, reportId: string, passes: bool, at: int)

  function Prepared(): seq<Write> {
    [Register(Artifact(Controller, TaskSpecification)), Register(Artifact(Controller, ExecutionAuthorization)),
     Register(Artifact(Controller, ValidationProfile))]
  }

  function Planning(a: Attempt, n: nat): Transition {
    Transition(Draft, Planned, System, {ArtifactId(n), ArtifactId(n + 2)}, a.at)
  }

  function Begin(a: Attempt, n: nat): Transition {
    Transition(Planned, Implementing, a.actor, {ArtifactId(n + 1), Name(a.setup.workspace)}, a.at)
  }

  function Failing(a: Attempt, evidence: set<EvidenceId>): Transition {
    Transition(Implementing, Failed, System, evidence, a.at)
  }

  function Results(): seq<Write> {
    [Register(Artifact(Controller, AgentRunResult)), Register(Artifact(Executor, RawEvents)),
     Register(Artifact(Executor, Stderr))]
  }

  function UpTo(n: nat, count: nat): (r: set<nat>)
    ensures forall k | k in r :: n <= k < n + count
  {
    if count == 0 then {} else UpTo(n, count - 1) + {n + count - 1}
  }

  function CheckWrites(count: nat): seq<Write> {
    if count == 0 then [] else CheckWrites(count - 1) + [Register(Artifact(Engine, CommandResult))]
  }

  function ReportOf(a: Attempt, patch: G.Patch): Report {
    Report(a.reportId, patch, a.passes)
  }

  function Checking(a: Attempt, n: nat): Transition {
    Transition(Implementing, Verifying, System, {ArtifactId(n + 3), ArtifactId(n + 6), ArtifactId(n + 2)}, a.at)
  }

  function Verdict(a: Attempt, n: nat): Transition {
    Transition(Verifying, if a.passes then Reviewing else Repairing, System,
               {ArtifactId(n + 7 + a.checks), ArtifactId(n + 6), Name(a.reportId)}, a.at)
  }

  /** From the collected, non-empty patch on; `n` counts from the controller's first artifact. */
  function VerifySteps(a: Attempt, patch: G.Patch, n: nat): Steps<Outcome> {
    var started := [Transit(Checking(a, n)), Edit(a.checked)];
    var finished := [Register(Artifact(Engine, VerificationDoc(ReportOf(a, patch)))), Transit(Verdict(a, n))];
    Steps(started + CheckWrites(a.checks) + finished,
          Ok(Outcome(if a.passes then Reviewing else Repairing, Some(patch), Some(n + 6), Some(ReportOf(a, patch)),
                     UpTo(n, 7) + {n + 7 + a.checks})))
  }

  /** From the patch on, once it is within the task's paths. */
  function PatchSteps(a: Attempt, patch: G.Patch, n: nat): Steps<Outcome> {
    var filed := [Register(Artifact(Controller, PatchText(patch)))];
    if patch == map[] then
      Steps(filed + [Register(Artifact(Controller, Failure)),
                     Transit(Failing(a, {ArtifactId(n + 3), ArtifactId(n + 6)} + {ArtifactId(n + 7)}))],
            Ok(Outcome(Failed, Some(patch), Some(n + 6), None, UpTo(n, 8))))
    else Then(filed, VerifySteps(a, patch, n))
  }

  /** From the agent's end on. */
  function EndSteps(a: Attempt, n: nat): Steps<Outcome> {
    if a.end == LifecycleError then
      Steps([Register(Artifact(Controller, Failure)), Transit(Failing(a, {} + {ArtifactId(n + 3)}))], Err(AgentLifecycle))
    else
      var patch := G.Diff(a.setup.base.tree, a.edited);
      if a.end == Unusable || !(patch.Keys <= a.setup.allowed) then
        Steps(Results() + [Register(Artifact(Controller, Failure)), Transit(Failing(a, {ArtifactId(n + 3)} + {ArtifactId(n + 6)}))],
              Ok(Outcome(Failed, None, None, None, UpTo(n, 7))))
      else
        Then(Results(), PatchSteps(a, patch, n))
  }

  function PlanWrites(a: Attempt, n: nat): seq<Write> {
    [AddWorktree(a.setup.base, a.setup.branch), Transit(Planning(a, n))]
  }

  function LaunchWrites(a: Attempt, n: nat): seq<Write> {
    [Transit(Begin(a, n)), StartAgent, Edit(a.edited)]
  }

  /** Up to the agent's end. */
  function StartSteps(a: Attempt, n: nat): Steps<()> {
    if !a.authorized then Steps([], Err(NotAuthorized))
    else if !a.workspaceFree then Steps(Prepared(), Err(WorkspaceExists))
    else if a.actor.Agent? then Steps(Prepared() + PlanWrites(a, n), Err(NotAuthorized))
    else Steps(Prepared() + PlanWrites(a, n) + LaunchWrites(a, n), Ok(()))
  }

  /** TaskExecutionController.execute_implementation with `n` artifacts on file. */
  function ImplementSteps(a: Attempt, n: nat): Steps<Outcome> {
    var started := StartSteps(a, n);
    match started.result
    case Err(e) => Steps(started.writes, Err(e))
    case Ok(_) => Then(started.writes, EndSteps(a, n))
  }

  function Registered(writes: seq<Write>): seq<Artifact> {
    if writes == [] then []
    else
      var rest, w := Registered(writes[..|writes| - 1]), writes[|writes| - 1];
      if w.Register? then rest + [w.artifact] else rest
  }

  lemma {:induction false} RegistryAfter(s: State, writes: seq<Write>)
    ensures After(s, writes).artifacts == s.artifacts + Registered(writes)
    decreases |writes|
  {
    if writes != [] {
      RegistryAfter(s, writes[..|writes| - 1]);
    }
  }

  /** The attempt, and its outcome if it has one; the intent is artifact `intent`. */
  function CompleteSteps(a: Attempt, intent: nat): Steps<Payload> {
    var work := ImplementSteps(a, intent + 1);
    match work.result
    case Err(e) => Steps(work.writes, Err(e))
    case Ok(o) =>
      Steps(work.writes + [Register(Artifact(Coordinator, OutcomeDoc(o)))],
            Ok(Execution(a.setup, o, intent, intent + 1 + |Registered(work.writes)|)))
  }

  function Begun(a: Attempt): seq<Write> {
    [MakeDirectory, Register(Artifact(Coordinator, IntentDoc(a.setup)))]
  }

  function OpenSteps(s: State, a: Attempt): Steps<()> {
    if !a.admitted then Steps([], Err(NotAdmitted))
    else if s.directory then Steps([], Err(DirectoryExists))
    else if CurrentState(s.journal) != Draft then Steps(Begun(a), Err(NotAuthorized))
    else Steps(Begun(a), Ok(()))
  }

  function ExecuteSteps(s: State, a: Attempt): Steps<()> {
    var open := OpenSteps(s, a);
    if open.result.Err? then open else Then(open.writes, Recording(CompleteSteps(a, |s.artifacts|), a.at))
  }

  // ---- review -----------------------------------------------------------------------------

  datatype ReviewInput = ReviewInput(review: Review, blank: bool, cardId: string, at: int)

  /** The first three checks every later call makes: the directory, the ledger, its length. */
  function Awaiting(s: State, k: nat): Option<Error> {
    if !s.directory then Some(NoDirectory)
    else if !StagesInOrder(s.ledger) then Some(Disagreement)
    else if |s.ledger| != k then Some(NotAwaited)
    else None
  }

  function CardFor(o: Outcome, i: ReviewInput): Card
    requires o.patchArtifact.Some? && o.report.Some?
  {
    Card(i.cardId, {Name(o.report.value.id), ArtifactId(o.patchArtifact.value), Name(i.review.id)})
  }

  predicate Reviewable(o: Outcome) {
    o.state == Reviewing && o.patch.Some? && o.patchArtifact.Some? && o.report.Some? && o.report.value.passes
  }

  function ReviewChecks(s: State, i: ReviewInput): Option<Error> {
    if i.blank || !(i.review.reviewer.Agent? || i.review.reviewer.Human?) then Some(BadReviewer)
    else if Awaiting(s, 1).Some? then Awaiting(s, 1)
    else if !Reviewable(OutcomeOf(s)) then Some(NotReviewable)
    else if CurrentState(s.journal) != Reviewing then Some(WrongState)
    else None
  }

  function ReviewTransition(i: ReviewInput, n: nat): Transition {
    if i.review.accepted then
      Transition(Reviewing, MergeReview, i.review.reviewer,
                 {Name(i.review.id), ArtifactId(n), Name(i.cardId), ArtifactId(n + 1)}, i.at)
    else Transition(Reviewing, Repairing, i.review.reviewer, {Name(i.review.id), ArtifactId(n)}, i.at)
  }

  function DispositionFor(o: Outcome, i: ReviewInput, n: nat): Disposition
    requires Reviewable(o)
  {
    if i.review.accepted then Accepted(CardFor(o, i), n, n + 1) else ChangesRequested(n)
  }

  /** TaskExecutionController.prepare_merge_review with `n` artifacts on file. */
  function PrepareWrites(o: Outcome, i: ReviewInput, n: nat): seq<Write>
    requires Reviewable(o)
  {
    [Register(Artifact(Person(NameOf(i.review.reviewer)), ReviewDoc(i.review)))]
    + (if i.review.accepted then [Register(Artifact(Controller, CardDoc(CardFor(o, i))))] else [])
    + [Transit(ReviewTransition(i, n))]
  }

  function ReviewSteps(s: State, i: ReviewInput): Steps<()> {
    var e := ReviewChecks(s, i);
    if e.Some? then Steps([], Err(e.value))
    else
      var o, n := OutcomeOf(s), |s.artifacts|;
      var d := DispositionFor(o, i, n);
      var recorded := PrepareWrites(o, i, n) + [Append(Record(Reviewed(i.review, d), i.at))];
      if d.ChangesRequested? then Steps(recorded, Ok(()))
      else if s.card != NoCard then Steps(recorded, Err(Disagreement))
      else Steps(recorded + [OpenCard, FillCard(d.card)], Ok(()))
  }

  // ---- apply_decision ---------------------------------------------------------------------

  /** The two files, if they can be read, the time the authority is judged at, and the time of the transition. */
  datatype DecisionInput = DecisionInput(decision: Option<Decision>, authority: Option<Authority>, now: int, at: int)

  function BindingError(card: Card, d: Decision, a: Authority, now: int): Option<Error> {
    if d.card != card || d.choice == Unlisted || d.evidence != card.evidence then Some(WrongCard)
    else if a.actor != d.actor || !a.mergeAllowed || now < a.issuedAt || now >= a.validUntil then Some(AuthorityInvalid)
    else None
  }

  function TargetOf(choice: Choice): TaskState {
    match choice
    case Approve => Integrating
    case RequestChanges => Repairing
    case Reject => Cancelled
    case Unlisted => MergeReview
  }

  function DecisionEvidence(card: Card, d: Decision, a: Authority, da: nat, aa: nat): set<EvidenceId> {
    {Name(d.id), Name(card.id), Name(a.id)} + d.evidence + {ArtifactId(da), ArtifactId(aa)}
  }

  /** DecisionApplicationService.apply */
  function DecisionTransition(journal: seq<Transition>, card: Card, report: Report, d: Decision, a: Authority,
                              da: nat, aa: nat, now: int, at: int): Result<Transition, Error>
  {
    var e := BindingError(card, d, a, now);
    if e.Some? then Err(e.value)
    else if CurrentState(journal) != MergeReview then Err(WrongState)
    else if d.choice == Approve && Name(report.id) !in d.evidence then Err(BadEvidence)
    else Decide(journal, TargetOf(d.choice), Human(d.actor), Some(report), None, DecisionEvidence(card, d, a, da, aa), at)
  }

  function DecisionChecks(s: State, i: DecisionInput): Option<Error> {
    if Awaiting(s, 2).Some? then Awaiting(s, 2)
    else if s.ledger[1].payload.disposition.ChangesRequested? || OutcomeOf(s).report.None? then Some(NoPackage)
    else if i.decision.None? || i.authority.None? then Some(DecisionUnreadable)
    else None
  }

  function DecideSteps(card: Card, report: Report, journal: seq<Transition>, n: nat, d: Decision, a: Authority,
                       now: int, at: int): Steps<Payload>
  {
    var filed := [Register(Artifact(Person(d.actor), DecisionDoc(d))), Register(Artifact(AuthorityProvider, AuthorityDoc(a)))];
    match DecisionTransition(journal, card, report, d, a, n, n + 1, now, at)
    case Err(e) => Steps(filed, Err(e))
    case Ok(t) => Steps(filed + [Transit(t)], Ok(DecisionApplied(d, a, n, n + 1, t)))
  }

  function ApplyDecisionSteps(s: State, i: DecisionInput): Steps<()> {
    var e := DecisionChecks(s, i);
    if e.Some? then Steps([], Err(e.value))
    else
      Recording(DecideSteps(s.ledger[1].payload.disposition.card, OutcomeOf(s).report.value, s.journal, |s.artifacts|,
                            i.decision.value, i.authority.value, i.now, i.at), i.at)
  }

  // ---- integrate --------------------------------------------------------------------------

  datatype Clock = Clock(commitStamp: int, at: int)

  function IntegrationInputs(s: State): Option<Error> {
    if Awaiting(s, 3).Some? then Awaiting(s, 3)
    else if s.ledger[1].payload.disposition.ChangesRequested? || OutcomeOf(s).patch.None? || OutcomeOf(s).report.None? then Some(NoPackage)
    else if s.ledger[2].payload.decision.choice != Approve then Some(NotApproved)
    else if s.ledger[2].payload.authority.actor != s.ledger[2].payload.decision.actor then Some(AuthorityInvalid)
    else if s.ledger[2].payload.transition.to != Integrating then Some(WrongState)
    else None
  }

  function RequestOf(s: State): G.Request
    requires |s.ledger| >= 3 && StagesInOrder(s.ledger) && OutcomeOf(s).patch.Some?
  {
    RequestFor(SetupOf(s), OutcomeOf(s).patch.value, s.ledger[2].payload.decision.actor)
  }

  function CompletionEvidence(s: State, art: nat): set<EvidenceId>
    requires |s.ledger| >= 3 && StagesInOrder(s.ledger)
  {
    {Name(s.ledger[2].payload.decision.id), Name(s.ledger[2].payload.authority.id), ArtifactId(art)}
  }

  /** What a completed transition must cite to belong to this integration. */
  function RequiredEvidence(s: State, art: nat, result: G.Evidence): set<EvidenceId>
    requires |s.ledger| >= 3 && StagesInOrder(s.ledger) && OutcomeOf(s).report.Some?
  {
    CompletionEvidence(s, art) + {Name(OutcomeOf(s).report.value.id), IdOf(result)}
  }

  /** The one integration artifact a completed transition cites. */
  function CompletedEvidence(s: State): Option<nat>
    requires s.journal != []
  {
    var cited := s.journal[|s.journal| - 1].evidence;
    var found := Select(s.artifacts, IntegrationDocs, Some(cited));
    if !Available(s.artifacts, cited) || |found| != 1 || s.artifacts[found[0]].producer != Integrator then None
    else Some(found[0])
  }

  function CompletionError(s: State, art: nat): Option<Error>
    requires IntegrationInputs(s).None? && s.journal != []
    requires art < |s.artifacts| && s.artifacts[art].content.IntegrationDoc?
  {
    var t, result := s.journal[|s.journal| - 1], s.artifacts[art].content.result;
    if t.from != Integrating || t.to != Completed || t.actor != Human(s.ledger[2].payload.decision.actor)
       || !(RequiredEvidence(s, art, result) <= t.evidence)
    then Some(BadEvidence)
    else match G.VerifyIn(s.git, RequestOf(s), result)
      case Some(e) => Some(Refused(e))
      case None => None
  }

  /** From the integrated commit on. */
  function CompleteIntegration(s: State, result: G.Evidence, at: int): Steps<Payload>
    requires IntegrationInputs(s).None?
  {
    var art := |s.artifacts|;
    var filed := [Register(Artifact(Integrator, IntegrationDoc(result)))];
    match Decide(s.journal, Completed, Human(s.ledger[2].payload.decision.actor), OutcomeOf(s).report, Some(result),
                 CompletionEvidence(s, art), at)
    case Err(e) => Steps(filed, Err(e))
    case Ok(t) => Steps(filed + [Transit(t)], Ok(Integrated(result, art, t)))
  }

  /** What completes an integration does not depend on where Git stands. */
  lemma SameCompletion(s: State, after: State, result: G.Evidence, at: int)
    requires IntegrationInputs(s).None? && after == s.(git := after.git)
    ensures IntegrationInputs(after).None? && CompleteIntegration(after, result, at) == CompleteIntegration(s, result, at)
  {
    hide Decide;
  }

  function GitSteps(git: G.Repo, q: G.Request, stamp: int): Steps<G.Evidence> {
    var (committed, e) := G.CommitPhase(git, q, stamp);
    if e.Some? then Steps([Git(committed)], Err(Refused(e.value)))
    else
      var (merged, r) := G.MergePhase(committed, q);
      Steps([Git(committed), Git(merged)], if r.Err? then Err(Refused(r.error)) else Ok(r.value))
  }

  function IntegrateFresh(s: State, c: Clock): Steps<Payload>
    requires IntegrationInputs(s).None?
  {
    var moved := GitSteps(s.git, RequestOf(s), c.commitStamp);
    match moved.result
    case Err(e) => Steps(moved.writes, Err(e))
    case Ok(result) => Then(moved.writes, CompleteIntegration(s, result, c.at))
  }

  function IntegrateAgain(s: State): Steps<Payload>
    requires IntegrationInputs(s).None? && s.journal != []
  {
    match CompletedEvidence(s)
    case None => Steps([], Err(BadEvidence))
    case Some(art) =>
      match CompletionError(s, art)
      case Some(e) => Steps([], Err(e))
      case None => Steps([], Ok(Integrated(s.artifacts[art].content.result, art, s.journal[|s.journal| - 1])))
  }

  function IntegrateSteps(s: State, c: Clock): Steps<()> {
    var e := IntegrationInputs(s);
    if e.Some? then Steps([], Err(e.value))
    else if CurrentState(s.journal) == Integrating then Recording(IntegrateFresh(s, c), c.at)
    else if CurrentState(s.journal) == Completed then Recording(IntegrateAgain(s), c.at)
    else Steps([], Err(WrongState))
  }

  // ---- cleanup ----------------------------------------------------------------------------

  function RemovalError(s: State, setup: Setup): Option<Error> {
    if s.git.checkedOut != setup.branch then Some(WrongBranch)
    else if s.git.workTree != s.git.head.tree then Some(Dirty)
    else None
  }

  function CleanupSteps(s: State, at: int): Steps<()> {
    var e := Awaiting(s, 4);
    if e.Some? then Steps([], Err(e.value))
    else if CurrentState(s.journal) != Completed then Steps([], Err(WrongState))
    else if s.workspace && RemovalError(s, SetupOf(s)).Some? then Steps([], Err(RemovalError(s, SetupOf(s)).value))
    else
      var removed := if s.workspace then [RemoveWorktree] else [];
      var commit := s.ledger[3].payload.result.commit;
      if s.git.tip != commit then Steps(removed, Err(BranchDrifted))
      else Steps(removed + [Append(Record(Cleaned(commit), at))], Ok(()))
  }
}
