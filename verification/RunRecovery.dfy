/** What recovery finds in every reachable state, and what its repair does. */
module RunRecovery {
  import opened Outcomes
  import opened LocalRun
  import opened Recovery
  import opened RunInvariant
  import opened RunCalls
  import opened RunExecution
  import G = GitIntegration

  // ---- the loaders reconstruct the owed record --------------------------------------------

  predicate OutcomeOnFile(s: State) {
    Select(s.artifacts, OutcomeDocs, None) != []
  }

  /** The worktree still holds the patch that the outcome on file lists. */
  predicate WorktreeUnchanged(s: State) {
    var outcomes, intents := Select(s.artifacts, OutcomeDocs, None), Select(s.artifacts, Intents, None);
    outcomes != [] && intents != []
    && (s.artifacts[outcomes[0]].content.outcome.patch.Some? ==>
          CollectPatch(s.git, s.artifacts[intents[0]].content.setup) == s.artifacts[outcomes[0]].content.outcome.patch)
  }

  lemma LoadsExecution(w: World)
    requires Inv(w) && w.state.ledger == [] && OutcomeOnFile(w.state)
    ensures w.owed.Some? && ExecutionStands(w.state, w.owed.value, w.origin)
    ensures LoadExecutionGap(w.state) == if WorktreeUnchanged(w.state) then w.owed else None
  {
    assert StageInv(w, 0);
  }

  /** The decision's authority covers the time written on its transition. */
  predicate AuthorityCovers(p: Payload)
    requires p.DecisionApplied?
  {
    p.authority.issuedAt <= p.transition.at < p.authority.validUntil
  }

  lemma DecisionCites(s: State, p: Payload)
    requires |s.ledger| >= 2 && StagesInOrder(s.ledger) && DecisionOnFile(s, p) && ExecutionOnFile(s, s.ledger[0].payload)
    requires ReviewedSound(s)
    ensures Available(s.artifacts, p.transition.evidence)
    ensures Select(s.artifacts, DecisionDocs, Some(p.transition.evidence)) == [p.decisionArtifact]
    ensures Select(s.artifacts, AuthorityDocs, Some(p.transition.evidence)) == [p.authorityArtifact]
  {
    hide Select;
    SelectOnly(s.artifacts, DecisionDocs, p.transition.evidence, p.decisionArtifact);
    SelectOnly(s.artifacts, AuthorityDocs, p.transition.evidence, p.authorityArtifact);
  }

  lemma DecisionLoads(s: State, p: Payload)
    requires |s.ledger| == 2 && StagesInOrder(s.ledger) && DecisionOnFile(s, p) && ExecutionOnFile(s, s.ledger[0].payload)
    requires ReviewedSound(s) && s.journal != [] && Last(s.journal) == p.transition
    ensures LoadDecisionGap(s) == if AuthorityCovers(p) then Some(p) else None
  {
    DecisionCites(s, p);
    var card, d, a := s.ledger[1].payload.disposition.card, p.decision, p.authority;
    assert BindingError(card, d, a, p.transition.at).None? <==> AuthorityCovers(p);
    assert IntentAndOutcomeOnFile(s) && ArtifactsValid(s);
  }

  lemma LoadsDecision(w: World)
    requires Inv(w) && |w.state.ledger| == 2 && CurrentState(w.state.journal) != MergeReview
    requires StagesInOrder(w.state.ledger) && w.state.ledger[1].payload.disposition.Accepted?
    ensures w.owed.Some? && DecisionGap(w, w.owed.value) && w.state.journal != [] && Last(w.state.journal) == w.owed.value.transition
    ensures LoadDecisionGap(w.state) == if AuthorityCovers(w.owed.value) then w.owed else None
  {
    assert StageInv(w, 2);
    DecisionLoads(w.state, w.owed.value);
  }

  // ---- what assess says, stage by stage ---------------------------------------------------

  function CardStatus(s: State): Status {
    match s.card
    case NoCard => Recoverable(RestoreCard)
    case TornCard => Invalid
    case CardOnFile(_) => Consistent
  }

  predicate DecisionAhead(s: State) {
    |s.ledger| == 2 && s.journal != [] && Last(s.journal).from == MergeReview
  }

  predicate CompletionAhead(s: State) {
    |s.ledger| == 3 && CurrentState(s.journal) == Completed
  }

  predicate RemovalAhead(s: State) {
    |s.ledger| == 4 && !s.workspace
  }

  predicate ReviewAhead(s: State) {
    |s.ledger| == 1 && s.journal != [] && Last(s.journal).from == Reviewing
  }

  predicate ReviewRejected(s: State) {
    |s.ledger| == 2 && StagesInOrder(s.ledger) && s.ledger[1].payload.disposition.ChangesRequested?
  }

  /** The verdict, read off the state without looking for evidence. */
  function StatusOf(s: State, owed: Option<Payload>): Status {
    if !s.directory then Invalid
    else if s.ledger == [] then
      if !OutcomeOnFile(s) then Manual
      else if WorktreeUnchanged(s) then Recoverable(ResumeExecution) else Invalid
    else if |s.ledger| == 1 then if ReviewAhead(s) then Manual else Consistent
    else if ReviewRejected(s) then Invalid
    else if DecisionAhead(s) then
      if owed.Some? && owed.value.DecisionApplied? && AuthorityCovers(owed.value) then Recoverable(ResumeDecision) else Invalid
    else if CompletionAhead(s) then Recoverable(ResumeIntegration)
    else if RemovalAhead(s) then Recoverable(ResumeCleanup)
    else CardStatus(s)
  }

  lemma AssessUnrecordedRun(w: World)
    requires Inv(w) && w.state.ledger == []
    ensures Assess(w.state) == StatusOf(w.state, w.owed)
  {
    assert StageInv(w, 0);
    if w.state.directory && OutcomeOnFile(w.state) {
      LoadsExecution(w);
    }
  }

  lemma AssessExecutedRun(w: World)
    requires Inv(w) && |w.state.ledger| == 1
    ensures Assess(w.state) == StatusOf(w.state, w.owed)
  {
    assert StageInv(w, 1);
    assert IntentAndOutcomeOnFile(w.state) && ArtifactsValid(w.state);
  }

  lemma AssessReviewedRun(w: World)
    requires Inv(w) && |w.state.ledger| == 2
    ensures Assess(w.state) == StatusOf(w.state, w.owed)
  {
    assert StageInv(w, 2);
    var s := w.state;
    if s.ledger[1].payload.disposition.Accepted? {
      if CurrentState(s.journal) == MergeReview {
        ReviewedCard(s);
        assert IntentAndOutcomeOnFile(s) && ArtifactsValid(s);
      } else {
        LoadsDecision(w);
      }
    }
  }

  /** After MERGE_REVIEW is reached it is the last transition's target, so its source is REVIEWING. */
  lemma ReviewedCard(s: State)
    requires Legal(s.journal) && s.journal != [] && CurrentState(s.journal) == MergeReview
    ensures Last(s.journal).from == Reviewing
  {
    assert LegalAt(s.journal, |s.journal| - 1);
  }

  lemma UncompletedFacts(w: World)
    requires Inv(w) && |w.state.ledger| == 3 && CurrentState(w.state.journal) != Completed
    ensures StagesInOrder(w.state.ledger) && Executed(w.state) && ReviewedSound(w.state) && Decided(w.state)
    ensures Last(w.state.journal) == w.state.ledger[2].payload.transition
    ensures w.state.workspace && w.state.git.checkedOut == SetupOf(w.state).branch
  {
    hide Legal, Merged, Committed, G.EvidenceFor, CitedByDecision, RequiredEvidence;
    assert StageInv(w, 3);
  }

  lemma AssessDecidedRun(w: World)
    requires Inv(w) && |w.state.ledger| == 3
    ensures Assess(w.state) == StatusOf(w.state, w.owed)
  {
    if CurrentState(w.state.journal) == Completed {
      AssessCompletedRun(w);
    } else {
      UncompletedFacts(w);
      AssessDecidedStores(w.state, w.owed);
    }
  }

  lemma CompletedShape(w: World)
    requires Inv(w) && |w.state.ledger| == 3 && CurrentState(w.state.journal) == Completed
    ensures StagesInOrder(w.state.ledger) && w.state.directory && |w.state.journal| >= 2
    ensures w.state.journal[|w.state.journal| - 2] == w.state.ledger[2].payload.transition
    ensures IntentAndOutcomeOnFile(w.state) && ArtifactsValid(w.state)
  {
    CompletedFacts(w);
    FilesHold(w.state);
  }

  lemma AssessCompletedRun(w: World)
    requires Inv(w) && |w.state.ledger| == 3 && CurrentState(w.state.journal) == Completed
    ensures w.state.directory && Assess(w.state) == Recoverable(ResumeIntegration)
  {
    hide Inv, StageInv, CompletedEvidence, CompletionError, IntentAndOutcomeOnFile, ArtifactsValid, Inspect, IntegrationInputs;
    CompletedShape(w);
    CompletedEvidenceHolds(w);
    CompletedIsResumable(w.state, w.owed.value.artifact);
  }

  lemma AssessDecidedStores(s: State, owed: Option<Payload>)
    requires |s.ledger| == 3 && StagesInOrder(s.ledger) && Executed(s) && ReviewedSound(s) && Decided(s)
    requires Last(s.journal) == s.ledger[2].payload.transition && s.workspace && s.git.checkedOut == SetupOf(s).branch
    ensures Assess(s) == StatusOf(s, owed)
  {
    assert IntentAndOutcomeOnFile(s) && ArtifactsValid(s);
  }

  lemma FilesHold(s: State)
    requires |s.ledger| == 3 && StagesInOrder(s.ledger) && Executed(s) && ReviewedSound(s) && Decided(s)
    ensures IntentAndOutcomeOnFile(s) && ArtifactsValid(s)
  {
  }

  lemma CompletedIsResumable(s: State, art: nat)
    requires |s.ledger| == 3 && StagesInOrder(s.ledger) && s.directory && |s.journal| >= 2 && CurrentState(s.journal) == Completed
    requires IntentAndOutcomeOnFile(s) && ArtifactsValid(s) && IntegrationInputs(s).None?
    requires s.journal[|s.journal| - 2] == s.ledger[2].payload.transition
    requires CompletedEvidence(s) == Some(art) && art < |s.artifacts| && s.artifacts[art].content.IntegrationDoc?
    requires CompletionError(s, art).None?
    ensures AssessIntegration(s) == Some(Recoverable(ResumeIntegration))
  {
    hide IntegrationInputs, CompletedEvidence, CompletionError, IntentAndOutcomeOnFile, ArtifactsValid;
  }

  lemma AssessIntegratedRun(w: World)
    requires Inv(w) && |w.state.ledger| >= 4
    ensures Assess(w.state) == StatusOf(w.state, w.owed)
  {
    var s, k := w.state, |w.state.ledger|;
    assert StageInv(w, k);
    MergedStays(s.git, RequestOf(s), w.origin, 0);
    AssessIntegratedStores(s, w.owed, w.origin);
  }

  lemma IntegratedFilesHold(s: State, origin: G.Commit)
    requires 4 <= |s.ledger| <= 5 && StagesInOrder(s.ledger) && Executed(s) && ReviewedSound(s) && Decided(s)
    requires IntegrationOnFile(s, s.ledger[3].payload, origin)
    ensures IntentAndOutcomeOnFile(s) && ArtifactsValid(s)
  {
    hide Merged, RequiredEvidence, CitedByDecision, DecisionEvidence;
  }

  lemma AssessIntegratedStores(s: State, owed: Option<Payload>, origin: G.Commit)
    requires 4 <= |s.ledger| <= 5 && StagesInOrder(s.ledger) && Executed(s) && ReviewedSound(s) && Decided(s)
    requires IntegrationOnFile(s, s.ledger[3].payload, origin) && Last(s.journal) == s.ledger[3].payload.transition
    requires s.git.tip == s.git.head && s.git.checkedOut == SetupOf(s).branch
    requires |s.ledger| == 5 ==> !s.workspace && s.ledger[4].payload == Cleaned(s.ledger[3].payload.result.commit)
    ensures Assess(s) == StatusOf(s, owed)
  {
    IntegratedFilesHold(s, origin);
    hide Executed, ReviewedSound, Decided, IntentAndOutcomeOnFile, ArtifactsValid, Merged, RequiredEvidence;
  }

  /** Exactly what assess answers in every reachable state. */
  lemma AssessSays(w: World)
    requires Inv(w)
    ensures Assess(w.state) == StatusOf(w.state, w.owed)
  {
    var k := |w.state.ledger|;
    if k == 0 {
      AssessUnrecordedRun(w);
    } else if k == 1 {
      AssessExecutedRun(w);
    } else if k == 2 {
      AssessReviewedRun(w);
    } else if k == 3 {
      AssessDecidedRun(w);
    } else {
      AssessIntegratedRun(w);
    }
  }

  // ---- what recover writes ----------------------------------------------------------------

  predicate OpensLedgerGap(repair: Repair) {
    repair != RestoreCard
  }

  /** A ledger repair appends exactly the record the interrupted call was about to append. */
  lemma RecoverAppendsTheOwedRecord(w: World, c: Clock)
    requires Inv(w) && Assess(w.state).Recoverable? && OpensLedgerGap(Assess(w.state).repair)
    ensures w.owed.Some? && RecoverSteps(w.state, c).writes == [Append(Record(w.owed.value, c.at))]
    ensures Inv(Put(w, Append(Record(w.owed.value, c.at))))
  {
    AssessSays(w);
    match Assess(w.state).repair {
      case ResumeExecution => RecoverExecution(w, c);
      case ResumeDecision => RecoverDecision(w, c);
      case ResumeIntegration => RecoverIntegration(w, c);
      case ResumeCleanup => RecoverCleanup(w, c);
    }
  }

  lemma RecoverExecution(w: World, c: Clock)
    requires Inv(w) && Assess(w.state) == Recoverable(ResumeExecution)
    ensures w.owed.Some? && RecoverSteps(w.state, c).writes == [Append(Record(w.owed.value, c.at))]
    ensures Inv(Put(w, Append(Record(w.owed.value, c.at))))
  {
    AssessSays(w);
    LoadsExecution(w);
    RecordExecutionKeeps(w, w.owed.value, c.at);
  }

  lemma RecoverDecision(w: World, c: Clock)
    requires Inv(w) && Assess(w.state) == Recoverable(ResumeDecision)
    ensures w.owed.Some? && RecoverSteps(w.state, c).writes == [Append(Record(w.owed.value, c.at))]
    ensures Inv(Put(w, Append(Record(w.owed.value, c.at))))
  {
    LoadsDecision(w);
    RecordDecisionKeeps(w, w.owed.value, c.at);
  }

  lemma RecoverIntegration(w: World, c: Clock)
    requires Inv(w) && Assess(w.state) == Recoverable(ResumeIntegration)
    ensures w.owed.Some? && RecoverSteps(w.state, c).writes == [Append(Record(w.owed.value, c.at))]
    ensures Inv(Put(w, Append(Record(w.owed.value, c.at))))
  {
    hide Inv, StageInv, Assess, IntegrateSteps;
    ResumeIntegrationShape(w.state);
    EvidenceGivesTheOwedRecord(w, c);
    OwedIntegrationKeeps(w, c.at);
  }

  lemma ResumeIntegrationShape(s: State)
    requires Assess(s) == Recoverable(ResumeIntegration)
    ensures |s.ledger| == 3 && CurrentState(s.journal) == Completed
  {
  }

  lemma ResumeCleanupShape(s: State)
    requires Assess(s) == Recoverable(ResumeCleanup)
    ensures |s.ledger| == 4 && StagesInOrder(s.ledger) && !s.workspace
  {
  }

  lemma RecoverCleanup(w: World, c: Clock)
    requires Inv(w) && Assess(w.state) == Recoverable(ResumeCleanup)
    ensures w.owed.Some? && RecoverSteps(w.state, c).writes == [Append(Record(w.owed.value, c.at))]
    ensures Inv(Put(w, Append(Record(w.owed.value, c.at))))
  {
    hide Inv, StageInv, Assess;
    ResumeCleanupShape(w.state);
    CleanupFacts(w);
    RecordCleanupKeeps(w, c.at);
  }

  lemma RestoreWrites(s: State, c: Clock)
    requires Assess(s) == Recoverable(RestoreCard)
    ensures StagesInOrder(s.ledger) && ExpectedCard(s).Some? && CardMayBe(s, CardOnFile(ExpectedCard(s).value))
    ensures RecoverSteps(s, c).writes == [OpenCard, FillCard(ExpectedCard(s).value)]
  {
  }

  lemma NothingPending(card: Card)
    ensures Pending([OpenCard, FillCard(card)]) == None
  {
    assert [OpenCard, FillCard(card)][..1] == [OpenCard] && [OpenCard][..0] == [];
    assert Pending([OpenCard]) == None;
  }

  lemma RestoreAlong(w: World, c: Clock)
    requires Inv(w) && Assess(w.state) == Recoverable(RestoreCard)
    ensures var writes := RecoverSteps(w.state, c).writes;
            Along(Inv, Promise(w, writes), writes)
  {
    RestoreWrites(w.state, c);
    var card := ExpectedCard(w.state).value;
    hide Inv, Along, Assess, RecoverSteps, CardMayBe, ExpectedCard;
    CardAlong(w, card);
    NothingPending(card);
  }

  lemma IdleRecover(s: State, c: Clock)
    requires !Assess(s).Recoverable?
    ensures RecoverSteps(s, c).writes == []
  {
    hide Assess;
  }

  lemma RecoverAlong(w: World, c: Clock)
    requires Inv(w)
    ensures var writes := RecoverSteps(w.state, c).writes;
            Along(Inv, Promise(w, writes), writes)
  {
    hide Inv, Assess, RecoverSteps, StageInv;
    match Assess(w.state) {
      case Recoverable(RestoreCard) => RestoreAlong(w, c);
      case Recoverable(_) =>
        RecoverAppendsTheOwedRecord(w, c);
        RecordAlong(w, w.owed.value, c.at);
      case _ => IdleRecover(w.state, c);
    }
  }

  // ---- every run --------------------------------------------------------------------------

  lemma CallAlong(w: World, call: Call)
    requires Inv(w)
    ensures var writes := StepsOf(w.state, call).writes;
            Along(Inv, Promise(w, writes), writes)
  {
    match call {
      case Execute(a) => ExecuteAlong(w, a);
      case Review(i) => if ReviewChecks(w.state, i).None? { ReviewAlong(w, i); }
      case ApplyDecision(i) => if DecisionChecks(w.state, i).None? { DecideAlong(w, i); }
      case Integrate(c) => IntegrateAlong(w, c);
      case Cleanup(at) => CleanupAlong(w, at);
      case Recover(c) => RecoverAlong(w, c);
    }
  }

  /** However a call ends, and wherever it dies, it leaves a state the invariant holds of. */
  lemma EveryCallKeepsTheInvariant(w: World, e: Event)
    requires Inv(w)
    ensures Inv(Next(w, e)) && Next(w, e).origin == w.origin
  {
    var writes := StepsOf(w.state, e.call).writes;
    var n := if e.survives <= |writes| then e.survives else |writes|;
    CallAlong(w, e.call);
    AlongPrefix(Inv, Promise(w, writes), writes, n);
    PutAllIsAfter(Promise(w, writes), writes[..n]);
    assert writes[..|writes|] == writes;
  }

  lemma {:induction false} EveryRunKeepsTheInvariant(w: World, events: seq<Event>)
    requires Inv(w)
    ensures Inv(Run(w, events)) && Run(w, events).origin == w.origin
    decreases |events|
  {
    if events == [] {
    } else {
      EveryCallKeepsTheInvariant(w, events[0]);
      EveryRunKeepsTheInvariant(Next(w, events[0]), events[1..]);
    }
  }

  lemma InitialIsInv(git: G.Repo)
    ensures Inv(Initial(git))
  {
    assert StageInv(Initial(git), 0);
  }
}
