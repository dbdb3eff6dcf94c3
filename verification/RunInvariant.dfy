/** What every call keeps, at every durable write, however it is interrupted. */
module RunInvariant {
  import opened Outcomes
  import opened LocalRun
  import opened Recovery
  import G = GitIntegration

  datatype Call =
    | Execute(attempt: Attempt) | Review(review: ReviewInput) | ApplyDecision(decision: DecisionInput)
    | Integrate(clock: Clock) | Cleanup(at: int) | Recover(clock: Clock)

  function StepsOf(s: State, call: Call): Steps<()> {
    match call
    case Execute(a) => ExecuteSteps(s, a)
    case Review(i) => ReviewSteps(s, i)
    case ApplyDecision(i) => ApplyDecisionSteps(s, i)
    case Integrate(c) => IntegrateSteps(s, c)
    case Cleanup(at) => CleanupSteps(s, at)
    case Recover(c) => RecoverSteps(s, c)
  }

  /**
   `owed` is the record that the last call to reach for one was going to append, until one is
   appended; `origin` is the commit the target branch stood at first.
   */
  datatype World = World(state: State, owed: Option<Payload>, origin: G.Commit)

  function Put(w: World, x: Write): World {
    World(Apply(w.state, x), if x.Append? then None else w.owed, w.origin)
  }

  function PutAll(w: World, writes: seq<Write>): World {
    if writes == [] then w else Put(PutAll(w, writes[..|writes| - 1]), writes[|writes| - 1])
  }

  function Pending(writes: seq<Write>): Option<Payload> {
    if writes == [] then None
    else
      var x := writes[|writes| - 1];
      if x.Append? then Some(x.record.payload) else Pending(writes[..|writes| - 1])
  }

  function Promise(w: World, writes: seq<Write>): World {
    if Pending(writes).Some? then w.(owed := Pending(writes)) else w
  }

  /** A call of which the first `survives` writes become durable: all of them, or it dies. */
  datatype Event = Event(call: Call, survives: nat)

  function Next(w: World, e: Event): World {
    var writes := StepsOf(w.state, e.call).writes;
    PutAll(Promise(w, writes), if e.survives <= |writes| then writes[..e.survives] else writes)
  }

  function Run(w: World, events: seq<Event>): World
    decreases |events|
  {
    if events == [] then w else Run(Next(w, events[0]), events[1..])
  }

  /** No run directory yet. */
  function Initial(git: G.Repo): World {
    World(State(false, [], [], [], NoCard, git, false, 0), None, git.target)
  }

  // ---- the invariant ----------------------------------------------------------------------

  ghost predicate Legal(journal: seq<Transition>) {
    forall i | 0 <= i < |journal| :: LegalAt(journal, i)
  }

  ghost predicate LegalAt(journal: seq<Transition>, i: nat)
    requires i < |journal|
  {
    var t := journal[i];
    && t.from == (if i == 0 then Draft else journal[i - 1].to)
    && Allowed(t.from, t.to) && Authorized(t.actor, t.from, t.to)
  }

  predicate ExecutionState(st: TaskState) {
    st == Planned || st == Implementing || st == Failed || st == Verifying || st == Repairing || st == Reviewing
  }

  predicate BeforeReview(st: TaskState) {
    st != Reviewing && st != MergeReview
  }

  ghost predicate OutcomeSound(s: State, setup: Setup, o: Outcome) {
    && (o.state == Reviewing || o.state == Repairing || o.state == Failed)
    && (forall k | k in o.artifacts :: k < |s.artifacts|)
    && (o.patch.Some? ==> o.patch.value.Keys <= setup.allowed)
    && (o.patchArtifact.Some? ==> o.patchArtifact.value < |s.artifacts|
                                  && KindOf(s.artifacts[o.patchArtifact.value].content) == Others)
    && (o.state == Reviewing ==> Reviewable(o) && o.report.value.patch == o.patch.value)
  }

  ghost predicate ExecutionOnFile(s: State, p: Payload) {
    && p.Execution? && p.intentArtifact < |s.artifacts| && p.outcomeArtifact < |s.artifacts|
    && s.artifacts[p.intentArtifact] == Artifact(Coordinator, IntentDoc(p.setup))
    && s.artifacts[p.outcomeArtifact] == Artifact(Coordinator, OutcomeDoc(p.outcome))
    && OutcomeSound(s, p.setup, p.outcome)
  }

  /** The worktree as the execution leaves it: on its branch, at the base, nothing committed. */
  ghost predicate Fresh(git: G.Repo, setup: Setup, origin: G.Commit) {
    git.checkedOut == setup.branch && git.head == setup.base == git.tip && git.target == origin
  }

  ghost predicate Unrecorded(w: World) {
    var s := w.state;
    && s.card == NoCard && s.git.target == w.origin && s.agentStarts <= 1
    && (s.journal != [] ==> ExecutionState(CurrentState(s.journal)) && BeforeReview(Last(s.journal).from))
    && (!s.directory ==> s.artifacts == [] && s.journal == [] && s.agentStarts == 0)
    && |Select(s.artifacts, Intents, None)| <= 1
    && (Select(s.artifacts, OutcomeDocs, None) != [] ==> w.owed.Some? && ExecutionStands(s, w.owed.value, w.origin))
  }

  ghost predicate ExecutionStands(s: State, p: Payload, origin: G.Commit) {
    && s.directory && s.agentStarts == 1 && s.workspace && s.journal != []
    && ExecutionOnFile(s, p) && Fresh(s.git, p.setup, origin) && CurrentState(s.journal) == p.outcome.state
    && Select(s.artifacts, Intents, None) == [p.intentArtifact]
    && Select(s.artifacts, OutcomeDocs, None) == [p.outcomeArtifact]
  }

  ghost predicate Executed(s: State)
    requires |s.ledger| >= 1 && StagesInOrder(s.ledger)
  {
    s.directory && s.agentStarts == 1 && s.journal != [] && ExecutionOnFile(s, s.ledger[0].payload)
  }

  ghost predicate AwaitingReview(w: World)
    requires |w.state.ledger| == 1 && StagesInOrder(w.state.ledger) && w.state.journal != []
  {
    var s := w.state;
    && s.card == NoCard && s.workspace && Fresh(s.git, SetupOf(s), w.origin)
    && ((CurrentState(s.journal) == OutcomeOf(s).state && BeforeReview(Last(s.journal).from))
        || (OutcomeOf(s).state == Reviewing && Last(s.journal).from == Reviewing
            && (CurrentState(s.journal) == MergeReview || CurrentState(s.journal) == Repairing)))
  }

  ghost predicate ReviewedSound(s: State)
    requires |s.ledger| >= 2 && StagesInOrder(s.ledger)
  {
    var d, o := s.ledger[1].payload.disposition, OutcomeOf(s);
    && o.state == Reviewing && Reviewable(o)
    && (forall k | k in ReviewArtifacts(d) :: k < |s.artifacts|)
    && match d
       case ChangesRequested(_) => s.card == NoCard
       case Accepted(c, _, _) =>
         && c.evidence == {Name(o.report.value.id), ArtifactId(o.patchArtifact.value), Name(s.ledger[1].payload.review.id)}
         && (s.card == NoCard || s.card == TornCard || s.card == CardOnFile(c))
  }

  ghost predicate DecisionOnFile(s: State, p: Payload)
    requires |s.ledger| >= 2 && StagesInOrder(s.ledger)
  {
    && s.ledger[1].payload.disposition.Accepted? && OutcomeOf(s).report.Some?
    && p.DecisionApplied? && p.decisionArtifact < |s.artifacts| && p.authorityArtifact < |s.artifacts|
    && var card, d, a, t := s.ledger[1].payload.disposition.card, p.decision, p.authority, p.transition;
    && s.artifacts[p.decisionArtifact] == Artifact(Person(d.actor), DecisionDoc(d))
    && s.artifacts[p.authorityArtifact] == Artifact(AuthorityProvider, AuthorityDoc(a))
    && d.card == card && d.evidence == card.evidence && d.choice != Unlisted && a.actor == d.actor && a.mergeAllowed
    && t == Transition(MergeReview, TargetOf(d.choice), Human(d.actor),
                       CitedByDecision(card, OutcomeOf(s).report.value, d, a, p.decisionArtifact, p.authorityArtifact), t.at)
  }

  function CitedByDecision(card: Card, report: Report, d: Decision, a: Authority, da: nat, aa: nat): set<EvidenceId> {
    if d.choice == Approve then DecisionEvidence(card, d, a, da, aa) + {Name(report.id)} else DecisionEvidence(card, d, a, da, aa)
  }

  ghost predicate AwaitingDecision(w: World)
    requires |w.state.ledger| == 2 && StagesInOrder(w.state.ledger) && w.state.journal != []
  {
    var s := w.state;
    && s.workspace && Fresh(s.git, SetupOf(s), w.origin)
    && match s.ledger[1].payload.disposition
       case ChangesRequested(_) => Last(s.journal).from == Reviewing && CurrentState(s.journal) == Repairing
       case Accepted(_, _, _) =>
         CurrentState(s.journal) == MergeReview
         || (w.owed.Some? && DecisionOnFile(s, w.owed.value) && Last(s.journal) == w.owed.value.transition)
  }

  ghost predicate Committed(git: G.Repo, q: G.Request, origin: G.Commit) {
    exists r: G.Repo, stamp: int {:trigger G.AfterCommit(r, q, stamp)} ::
      G.Ready(r, q) && r.target == origin && git == G.AfterCommit(r, q, stamp)
  }

  ghost predicate Merged(git: G.Repo, q: G.Request, origin: G.Commit) {
    exists r: G.Repo, stamp: int {:trigger G.AfterMerge(r, q, stamp)} ::
      G.Ready(r, q) && r.target == origin && git == G.AfterMerge(r, q, stamp)
  }

  ghost predicate Decided(s: State)
    requires |s.ledger| >= 3 && StagesInOrder(s.ledger)
  {
    DecisionOnFile(s, s.ledger[2].payload)
  }

  ghost predicate IntegrationOnFile(s: State, p: Payload, origin: G.Commit)
    requires |s.ledger| >= 3 && StagesInOrder(s.ledger) && OutcomeOf(s).patch.Some? && OutcomeOf(s).report.Some?
  {
    && s.ledger[2].payload.transition.to == Integrating
    && p.Integrated? && p.artifact < |s.artifacts|
    && s.artifacts[p.artifact] == Artifact(Integrator, IntegrationDoc(p.result))
    && Merged(s.git, RequestOf(s), origin) && p.result == G.EvidenceFor(RequestOf(s), s.git.head, s.git.head)
    && p.transition == Transition(Integrating, Completed, Human(s.ledger[2].payload.decision.actor),
                                  RequiredEvidence(s, p.artifact, p.result), p.transition.at)
  }

  ghost predicate AwaitingIntegration(w: World)
    requires |w.state.ledger| == 3 && StagesInOrder(w.state.ledger) && w.state.journal != []
    requires OutcomeOf(w.state).patch.Some? && OutcomeOf(w.state).report.Some?
  {
    var s, t := w.state, w.state.ledger[2].payload.transition;
    && s.workspace && s.git.checkedOut == SetupOf(s).branch
    && (t.to != Integrating ==> Fresh(s.git, SetupOf(s), w.origin) && Last(s.journal) == t)
    && (t.to == Integrating ==>
          if Last(s.journal) == t then
            Fresh(s.git, SetupOf(s), w.origin) || Committed(s.git, RequestOf(s), w.origin) || Merged(s.git, RequestOf(s), w.origin)
          else
            && w.owed.Some? && IntegrationOnFile(s, w.owed.value, w.origin)
            && |s.journal| >= 2 && s.journal[|s.journal| - 2] == t && Last(s.journal) == w.owed.value.transition)
  }

  ghost predicate IntegratedSound(w: World)
    requires |w.state.ledger| >= 4 && StagesInOrder(w.state.ledger) && w.state.journal != []
    requires OutcomeOf(w.state).patch.Some? && OutcomeOf(w.state).report.Some?
  {
    var s := w.state;
    && IntegrationOnFile(s, s.ledger[3].payload, w.origin) && Last(s.journal) == s.ledger[3].payload.transition
    && |s.journal| >= 2 && s.journal[|s.journal| - 2] == s.ledger[2].payload.transition
    && (|s.ledger| == 4 && !s.workspace ==> w.owed == Some(Cleaned(s.ledger[3].payload.result.commit)))
    && (|s.ledger| == 5 ==> !s.workspace && s.ledger[4].payload == Cleaned(s.ledger[3].payload.result.commit))
  }

  ghost predicate StageInv(w: World, k: nat) {
    var s := w.state;
    && |s.ledger| == k <= 5 && Legal(s.journal) && StagesInOrder(s.ledger)
    && if k == 0 then Unrecorded(w)
       else
         && Executed(s)
         && if k == 1 then AwaitingReview(w)
            else
              && ReviewedSound(s)
              && if k == 2 then AwaitingDecision(w)
                 else Decided(s) && if k == 3 then AwaitingIntegration(w) else IntegratedSound(w)
  }

  /** Stated through the ledger's length, so that a proof opens the one stage it is about. */
  ghost predicate Inv(w: World) {
    forall k: nat {:trigger StageInv(w, k)} | k == |w.state.ledger| :: StageInv(w, k)
  }

  // ---- along a call -----------------------------------------------------------------------

  /** `inv` holds before the first of these writes and after each. */
  ghost predicate Along(inv: World -> bool, w: World, writes: seq<Write>)
    decreases |writes|
  {
    inv(w) && (writes != [] ==> Along(inv, Put(w, writes[0]), writes[1..]))
  }

  lemma AlongCons(inv: World -> bool, w: World, x: Write, rest: seq<Write>)
    requires inv(w) && Along(inv, Put(w, x), rest)
    ensures Along(inv, w, [x] + rest)
  {
    assert ([x] + rest)[1..] == rest;
  }

  lemma {:induction false} AlongConcat(inv: World -> bool, w: World, a: seq<Write>, b: seq<Write>)
    requires Along(inv, w, a) && Along(inv, PutAll(w, a), b)
    ensures Along(inv, w, a + b)
    decreases |a|
  {
    if a == [] {
      assert a + b == b;
    } else {
      PutAllFirst(w, a);
      AlongConcat(inv, Put(w, a[0]), a[1..], b);
      assert (a + b)[0] == a[0] && (a + b)[1..] == a[1..] + b;
    }
  }

  lemma {:induction false} PutAllFirst(w: World, writes: seq<Write>)
    requires writes != []
    ensures PutAll(w, writes) == PutAll(Put(w, writes[0]), writes[1..])
    decreases |writes|
  {
    if |writes| > 1 {
      var init := writes[..|writes| - 1];
      PutAllFirst(w, init);
      assert init[1..] == writes[1..][..|writes| - 2] && init[0] == writes[0];
    } else {
      assert writes[..0] == [] && writes[1..] == [];
    }
  }

  lemma {:induction false} AlongPrefix(inv: World -> bool, w: World, writes: seq<Write>, n: nat)
    requires Along(inv, w, writes) && n <= |writes|
    ensures inv(PutAll(w, writes[..n]))
    decreases n
  {
    if n > 0 {
      PutAllFirst(w, writes[..n]);
      assert writes[..n][0] == writes[0] && writes[..n][1..] == writes[1..][..n - 1];
      AlongPrefix(inv, Put(w, writes[0]), writes[1..], n - 1);
    } else {
      assert writes[..0] == [];
    }
  }

  lemma {:induction false} PutAllIsAfter(w: World, writes: seq<Write>)
    ensures PutAll(w, writes).state == After(w.state, writes) && PutAll(w, writes).origin == w.origin
    decreases |writes|
  {
    if writes != [] {
      PutAllIsAfter(w, writes[..|writes| - 1]);
    }
  }

  lemma LegalGrows(journal: seq<Transition>, t: Transition)
    requires Legal(journal)
    requires t.from == CurrentState(journal) && Allowed(t.from, t.to) && Authorized(t.actor, t.from, t.to)
    ensures Legal(journal + [t])
  {
    var j := journal + [t];
    forall i | 0 <= i < |j|
      ensures LegalAt(j, i)
    {
      if i < |journal| {
        assert LegalAt(journal, i);
      }
    }
  }

  // ---- finding manifests ------------------------------------------------------------------

  lemma {:induction false} SelectNone(artifacts: seq<Artifact>, kind: Kind, cited: set<EvidenceId>)
    requires forall j | 0 <= j < |artifacts| && ArtifactId(j) in cited :: KindOf(artifacts[j].content) != kind
    ensures Select(artifacts, kind, Some(cited)) == []
    decreases |artifacts|
  {
    if artifacts != [] {
      SelectNone(artifacts[..|artifacts| - 1], kind, cited);
    }
  }

  lemma {:induction false} SelectOnly(artifacts: seq<Artifact>, kind: Kind, cited: set<EvidenceId>, k: nat)
    requires k < |artifacts| && KindOf(artifacts[k].content) == kind && ArtifactId(k) in cited
    requires forall j | 0 <= j < |artifacts| && j != k && ArtifactId(j) in cited :: KindOf(artifacts[j].content) != kind
    ensures Select(artifacts, kind, Some(cited)) == [k]
    decreases |artifacts|
  {
    var n := |artifacts| - 1;
    if k == n {
      SelectNone(artifacts[..n], kind, cited);
    } else {
      SelectOnly(artifacts[..n], kind, cited, k);
    }
  }
}
