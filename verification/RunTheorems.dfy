/** Over every run: any calls, in any order, each dying after any of its durable writes. */
module RunTheorems {
  import opened Outcomes
  import opened LocalRun
  import opened Recovery
  import opened RunInvariant
  import opened RunCalls
  import opened RunRecovery
  import G = GitIntegration

  function Reached(git: G.Repo, events: seq<Event>): World {
    Run(Initial(git), events)
  }

  lemma ReachedIsInv(git: G.Repo, events: seq<Event>)
    ensures Inv(Reached(git, events)) && Reached(git, events).origin == git.target
  {
    InitialIsInv(git);
    EveryRunKeepsTheInvariant(Initial(git), events);
  }

  // ---- ledger, journal, agent -------------------------------------------------------------

  /** How many of the first four stages the journal shows as done. */
  function JournalStage(journal: seq<Transition>): nat {
    if journal == [] then 0
    else
      var t := Last(journal);
      if t.to == Completed then 4
      else if t.from == MergeReview then 3
      else if t.from == Reviewing then 2
      else if t.to == Reviewing || t.to == Failed || t.to == Repairing then 1
      else 0
  }

  function AtMostFour(n: nat): nat {
    if n <= 4 then n else 4
  }

  lemma StagesKeepStep(w: World)
    requires Inv(w)
    ensures StagesInOrder(w.state.ledger) && |w.state.ledger| <= 5 && w.state.agentStarts <= 1 && Legal(w.state.journal)
    ensures AtMostFour(|w.state.ledger|) <= JournalStage(w.state.journal) <= |w.state.ledger| + 1
  {
    hide Merged, Committed, Fresh, G.EvidenceFor, RequiredEvidence, CitedByDecision;
    assert StageInv(w, |w.state.ledger|);
    if w.state.journal != [] {
      assert LegalAt(w.state.journal, |w.state.journal| - 1);
    }
  }

  /**
   The ledger is a prefix of the five stages, the journal is never behind it and at most one
   stage ahead, every transition was allowed and authorized, and the agent starts at most once.
   */
  lemma LedgerAndJournalKeepStep(git: G.Repo, events: seq<Event>)
    ensures var s := Reached(git, events).state;
            && StagesInOrder(s.ledger) && |s.ledger| <= 5 && s.agentStarts <= 1 && Legal(s.journal)
            && AtMostFour(|s.ledger|) <= JournalStage(s.journal) <= |s.ledger| + 1
  {
    ReachedIsInv(git, events);
    StagesKeepStep(Reached(git, events));
  }

  // ---- repair -----------------------------------------------------------------------------

  predicate LedgerGap(s: State) {
    && s.directory
    && ((s.ledger == [] && OutcomeOnFile(s)) || DecisionAhead(s) || CompletionAhead(s) || RemovalAhead(s))
  }

  predicate CardGap(s: State) {
    |s.ledger| >= 2 && !ReviewRejected(s) && s.card == NoCard
  }

  function OpenGaps(s: State): nat {
    (if LedgerGap(s) then 1 else 0) + (if CardGap(s) then 1 else 0)
  }

  function Recovered(s: State, c: Clock): State {
    After(s, RecoverWrites(s, c))
  }

  lemma LedgerRepairClosesIt(w: World, c: Clock)
    requires Inv(w) && Assess(w.state).Recoverable? && OpensLedgerGap(Assess(w.state).repair)
    ensures w.owed.Some? && Recovered(w.state, c) == Apply(w.state, Append(Record(w.owed.value, c.at)))
    ensures Inv(World(Recovered(w.state, c), None, w.origin))
    ensures Recovered(w.state, c).card == w.state.card
  {
    hide Assess, RecoverWrites, Inv;
    RecoverAppendsTheOwedRecord(w, c);
    AfterFew(w.state, Append(Record(w.owed.value, c.at)), OpenCard);
  }

  /** For each gap called recoverable, recover appends the owed record and nothing else. */
  lemma RepairAppendsTheOwedRecord(git: G.Repo, events: seq<Event>, w: World, c: Clock)
    requires w == Reached(git, events) && Assess(w.state).Recoverable? && OpensLedgerGap(Assess(w.state).repair)
    ensures w.owed.Some? && Recovered(w.state, c) == w.state.(ledger := w.state.ledger + [Record(w.owed.value, c.at)])
  {
    hide Assess, RecoverWrites;
    ReachedIsInv(git, events);
    LedgerRepairClosesIt(w, c);
  }

  lemma CardRepairClosesIt(w: World, c: Clock)
    requires Inv(w) && Assess(w.state) == Recoverable(RestoreCard)
    ensures StagesInOrder(w.state.ledger) && ExpectedCard(w.state).Some?
    ensures Recovered(w.state, c) == w.state.(card := CardOnFile(ExpectedCard(w.state).value))
    ensures Inv(World(Recovered(w.state, c), w.owed, w.origin))
  {
    RestoreWrites(w.state, c);
    var card := ExpectedCard(w.state).value;
    AfterFew(w.state, OpenCard, FillCard(card));
    CardKeeps(w, CardOnFile(card));
    assert WithCard(w, CardOnFile(card)) == World(Recovered(w.state, c), w.owed, w.origin);
  }

  lemma StageShape(w: World)
    requires Inv(w)
    ensures StagesInOrder(w.state.ledger) && |w.state.ledger| <= 5
    ensures w.state.ledger == [] ==> w.state.card == NoCard
    ensures w.state.ledger == [] && w.state.journal != [] ==> BeforeReview(Last(w.state.journal).from)
    ensures !w.state.directory ==> w.state.artifacts == []
    ensures w.state.ledger != [] ==> w.state.directory
    ensures |w.state.ledger| == 1 ==> w.state.card == NoCard
    ensures ReviewRejected(w.state) ==> w.state.card == NoCard && w.state.journal != [] && Last(w.state.journal).from == Reviewing
    ensures |w.state.ledger| >= 3 ==> !ReviewRejected(w.state)
  {
    hide Legal, Merged, Committed, G.EvidenceFor, CitedByDecision, RequiredEvidence, Fresh, OutcomeSound;
    assert StageInv(w, |w.state.ledger|);
  }

  lemma GapsFollowTheStatus(w: World)
    requires Inv(w)
    ensures StagesInOrder(w.state.ledger)
    ensures Assess(w.state) == Consistent ==> OpenGaps(w.state) == 0
    ensures Assess(w.state) == Recoverable(RestoreCard) ==> !LedgerGap(w.state) && CardGap(w.state)
    ensures Assess(w.state).Recoverable? && OpensLedgerGap(Assess(w.state).repair) ==> LedgerGap(w.state)
    ensures w.state.ledger == [] ==> w.state.card == NoCard
  {
    hide Inv, StageInv, Assess;
    StageShape(w);
    AssessSays(w);
  }

  /** The record `r` levels the ledger with the journal, and only the card can then be missing. */
  ghost predicate Levels(s: State, r: Record) {
    var s' := Apply(s, Append(r));
    && !LedgerGap(s') && (CardGap(s') <==> CardGap(s))
    && StatusOf(s', None) == if |s'.ledger| == 1 then Consistent else CardStatus(s)
  }

  lemma ResumeExecutionShape(s: State)
    requires Assess(s) == Recoverable(ResumeExecution)
    ensures s.directory && s.ledger == []
  {
  }

  lemma LevelAfterExecution(w: World, r: Record)
    requires Inv(w) && Assess(w.state) == Recoverable(ResumeExecution)
    ensures Levels(w.state, r)
  {
    hide Inv, StageInv, Assess, Select;
    ResumeExecutionShape(w.state);
    AssessSays(w);
    StageShape(w);
  }

  lemma ResumeDecisionShape(s: State)
    requires Assess(s) == Recoverable(ResumeDecision)
    ensures |s.ledger| == 2 && StagesInOrder(s.ledger) && CurrentState(s.journal) != MergeReview
    ensures s.ledger[1].payload.disposition.Accepted? && s.directory
  {
  }

  lemma LevelAfterDecision(w: World, r: Record)
    requires Inv(w) && Assess(w.state) == Recoverable(ResumeDecision)
    ensures Levels(w.state, r)
  {
    hide Inv, StageInv, Assess, LoadDecisionGap, DecisionEvidence, CitedByDecision;
    ResumeDecisionShape(w.state);
    AssessSays(w);
    LoadsDecision(w);
  }

  lemma LevelAfterIntegration(w: World, r: Record)
    requires Inv(w) && Assess(w.state) == Recoverable(ResumeIntegration)
    ensures Levels(w.state, r)
  {
    hide Assess, Legal, Merged, Committed, G.EvidenceFor, CitedByDecision, RequiredEvidence, Fresh, OutcomeSound;
    AssessSays(w);
    CompletedFacts(w);
  }

  lemma LevelAfterCleanup(w: World, r: Record)
    requires Inv(w) && Assess(w.state) == Recoverable(ResumeCleanup)
    ensures Levels(w.state, r)
  {
    hide Inv, StageInv, Assess, AssessCleanup;
    ResumeCleanupShape(w.state);
    AssessSays(w);
    CleanupFacts(w);
  }

  lemma LevelAfterRepair(w: World, c: Clock)
    requires Inv(w) && Assess(w.state).Recoverable? && OpensLedgerGap(Assess(w.state).repair)
    ensures var s' := Recovered(w.state, c);
            && !LedgerGap(s') && (CardGap(s') <==> CardGap(w.state))
            && Assess(s') == if |s'.ledger| == 1 then Consistent else CardStatus(w.state)
  {
    LedgerRepairClosesIt(w, c);
    var r := Record(w.owed.value, c.at);
    assert Levels(w.state, r) by {
      match Assess(w.state).repair {
        case ResumeExecution => LevelAfterExecution(w, r);
        case ResumeDecision => LevelAfterDecision(w, r);
        case ResumeIntegration => LevelAfterIntegration(w, r);
        case ResumeCleanup => LevelAfterCleanup(w, r);
      }
    }
    AssessSays(World(Recovered(w.state, c), None, w.origin));
  }

  lemma RecoverAnswers(s: State, c: Clock)
    requires Assess(s).Recoverable?
    ensures RecoverSteps(s, c).result.Ok? <==> Assess(Recovered(s, c)) == Consistent
  {
    hide Assess;
  }

  lemma RestoredIsConsistent(w: World, c: Clock)
    requires Inv(w) && Assess(w.state) == Recoverable(RestoreCard)
    ensures Assess(Recovered(w.state, c)) == Consistent && w.state.card == NoCard
  {
    CardRepairClosesIt(w, c);
    AssessSays(w);
    AssessSays(World(Recovered(w.state, c), w.owed, w.origin));
  }

  lemma RestoreClosesOneGap(w: World, c: Clock)
    requires Inv(w) && Assess(w.state) == Recoverable(RestoreCard)
    ensures OpenGaps(w.state) == 1 && OpenGaps(Recovered(w.state, c)) == 0
  {
    hide Inv, Assess, Recovered;
    GapsFollowTheStatus(w);
    CardRepairClosesIt(w, c);
  }

  lemma RepairClosesOneGap(w: World, c: Clock)
    requires Inv(w) && Assess(w.state).Recoverable? && OpensLedgerGap(Assess(w.state).repair)
    ensures var s' := Recovered(w.state, c);
            && OpenGaps(s') == OpenGaps(w.state) - 1
            && (Assess(s') == Consistent <==> OpenGaps(s') == 0 && w.state.card != TornCard)
  {
    hide Inv, Assess, Recovered, Apply;
    GapsFollowTheStatus(w);
    StageShape(w);
    LevelAfterRepair(w, c);
    LedgerRepairLength(w, c);
  }

  lemma LedgerRepairLength(w: World, c: Clock)
    requires Inv(w) && Assess(w.state).Recoverable? && OpensLedgerGap(Assess(w.state).repair)
    ensures |Recovered(w.state, c).ledger| == |w.state.ledger| + 1
  {
    hide Inv, Assess, Recovered;
    LedgerRepairClosesIt(w, c);
  }

  /** Each recover of a recoverable run closes exactly one gap, and succeeds if that leaves a readable card. */
  lemma RecoverClosesOneGap(w: World, c: Clock)
    requires Inv(w) && Assess(w.state).Recoverable?
    ensures var s' := Recovered(w.state, c);
            && OpenGaps(s') == OpenGaps(w.state) - 1
            && (RecoverSteps(w.state, c).result.Ok? <==> OpenGaps(s') == 0 && w.state.card != TornCard)
  {
    hide Inv, Assess, Recovered, OpenGaps, RecoverSteps;
    RecoverAnswers(w.state, c);
    if Assess(w.state) == Recoverable(RestoreCard) {
      RestoreClosesOneGap(w, c);
      RestoredIsConsistent(w, c);
    } else {
      RepairClosesOneGap(w, c);
    }
  }

  /** Two recovers end in a consistent run exactly when the decision card is not torn. */
  lemma TwoRecoversSuffice(git: G.Repo, events: seq<Event>, c1: Clock, c2: Clock)
    ensures var w := Reached(git, events);
            Assess(w.state).Recoverable? ==>
              (Assess(Recovered(Recovered(w.state, c1), c2)) == Consistent <==> w.state.card != TornCard)
  {
    var w := Reached(git, events);
    ReachedIsInv(git, events);
    if Assess(w.state).Recoverable? {
      TwoRecovers(w, c1, c2);
    }
  }

  lemma NothingToRecover(s: State, c: Clock)
    requires !Assess(s).Recoverable?
    ensures Recovered(s, c) == s
  {
  }

  lemma RestoreAfterRepair(w: World, c: Clock)
    requires Inv(w) && Assess(w.state) == CardStatus(w.state)
    ensures Assess(Recovered(w.state, c)) == Consistent <==> w.state.card != TornCard
  {
    hide RecoverWrites, Inv;
    if Assess(w.state).Recoverable? {
      RestoredIsConsistent(w, c);
    } else {
      NothingToRecover(w.state, c);
    }
  }

  lemma TwoRecovers(w: World, c1: Clock, c2: Clock)
    requires Inv(w) && Assess(w.state).Recoverable?
    ensures Assess(Recovered(Recovered(w.state, c1), c2)) == Consistent <==> w.state.card != TornCard
  {
    hide Assess, RecoverWrites, Inv;
    if Assess(w.state) == Recoverable(RestoreCard) {
      RestoredIsConsistent(w, c1);
      NothingToRecover(Recovered(w.state, c1), c2);
    } else {
      LevelAfterRepair(w, c1);
      LedgerRepairClosesIt(w, c1);
      if |Recovered(w.state, c1).ledger| == 1 {
        NothingToRecover(Recovered(w.state, c1), c2);
        GapsFollowTheStatus(w);
      } else {
        RestoreAfterRepair(World(Recovered(w.state, c1), None, w.origin), c2);
      }
    }
  }

  // ---- when a gap is recoverable ----------------------------------------------------------

  /** apply_decision died with the transition in the journal and the record not in the ledger. */
  function DiedBeforeTheRecord(w: World, i: DecisionInput): World {
    Next(w, Event(ApplyDecision(i), 3))
  }

  /**
   apply_decision judges the authority at the time it is called, recovery at the time written on the
   transition: the gap is recoverable exactly when the authority was still valid then.
   */
  lemma DecisionGapNeedsALivingAuthority(w: World, i: DecisionInput)
    requires Inv(w) && ApplyDecisionSteps(w.state, i).result.Ok?
    ensures Assess(DiedBeforeTheRecord(w, i).state)
            == if i.authority.value.issuedAt <= i.at < i.authority.value.validUntil then Recoverable(ResumeDecision) else Invalid
  {
    var w' := DiedBeforeTheRecord(w, i);
    EveryCallKeepsTheInvariant(w, Event(ApplyDecision(i), 3));
    DeadDecisionShape(w, i);
    AssessSays(w');
  }

  lemma AppliedDecisionWrites(s: State, i: DecisionInput)
    requires ApplyDecisionSteps(s, i).result.Ok?
    ensures s.directory && |s.ledger| == 2 && StagesInOrder(s.ledger) && s.ledger[1].payload.disposition.Accepted?
    ensures var writes := ApplyDecisionSteps(s, i).writes;
            && |writes| == 4 && writes[0].Register? && writes[1].Register? && writes[2].Transit? && writes[3].Append?
            && writes[3].record.payload.DecisionApplied? && writes[3].record.payload.authority == i.authority.value
            && writes[3].record.payload.decision == i.decision.value
            && writes[2].transition.to == TargetOf(i.decision.value.choice)
            && writes[3].record.payload.transition == writes[2].transition
            && writes[2].transition.from == MergeReview && writes[2].transition.at == i.at
  {
    hide BindingError, DecisionEvidence;
  }

  lemma DeadDecisionShape(w: World, i: DecisionInput)
    requires Inv(w) && ApplyDecisionSteps(w.state, i).result.Ok?
    ensures var w' := DiedBeforeTheRecord(w, i);
            && w'.state.directory && |w'.state.ledger| == 2 && DecisionAhead(w'.state) && !ReviewRejected(w'.state)
            && w'.owed.Some? && w'.owed.value.DecisionApplied?
            && w'.owed.value.authority == i.authority.value && w'.owed.value.transition.at == i.at
  {
    AppliedDecisionWrites(w.state, i);
    var writes := ApplyDecisionSteps(w.state, i).writes;
    hide Inv, ApplyDecisionSteps;
    assert StepsOf(w.state, ApplyDecision(i)).writes == writes;
    CutBeforeItsRecord(w, ApplyDecision(i));
    hide StepsOf, Next;
    AfterFew(w.state, writes[0], writes[1]);
    AfterOne(w.state, [writes[0], writes[1]], writes[2]);
    assert writes[..3] == [writes[0], writes[1]] + [writes[2]];
    hide After;
  }

  /** Cut after three writes of four, a call leaves the record of the fourth owed. */
  lemma CutBeforeItsRecord(w: World, call: Call)
    requires var writes := StepsOf(w.state, call).writes;
             |writes| == 4 && !writes[0].Append? && !writes[1].Append? && !writes[2].Append? && writes[3].Append?
    ensures var writes, w' := StepsOf(w.state, call).writes, Next(w, Event(call, 3));
            w'.state == After(w.state, writes[..3]) && w'.owed == Some(writes[3].record.payload)
  {
    hide StepsOf;
    var writes := StepsOf(w.state, call).writes;
    PendingLast(writes[..3], writes[3].record, []);
    assert writes[..3] + [Append(writes[3].record)] + [] == writes;
    PutAllIsAfter(Promise(w, writes), writes[..3]);
    OwedStays(Promise(w, writes), writes[..3]);
  }

  lemma {:induction false} OwedStays(w: World, writes: seq<Write>)
    requires forall k | 0 <= k < |writes| :: !writes[k].Append?
    ensures PutAll(w, writes).owed == w.owed
    decreases |writes|
  {
    if writes != [] {
      OwedStays(w, writes[..|writes| - 1]);
    }
  }

  // ---- what is never repaired -------------------------------------------------------------

  /** No call can change these stores, and recovery refuses them. */
  ghost predicate Stuck(w: World) {
    && !Assess(w.state).Recoverable?
    && forall call: Call {:trigger StepsOf(w.state, call)} :: StepsOf(w.state, call).writes == []
  }

  lemma {:induction false} StuckForever(w: World, events: seq<Event>)
    requires Stuck(w)
    ensures Run(w, events) == w
    decreases |events|
  {
    if events == [] {
    } else {
      assert StepsOf(w.state, events[0].call).writes == [];
      assert Next(w, events[0]) == w;
      StuckForever(w, events[1..]);
    }
  }

  /** A run directory without a first record and without an outcome: the agent may or may not have run. */
  predicate OutcomeMissing(s: State) {
    s.directory && s.ledger == [] && !OutcomeOnFile(s)
  }

  lemma NothingRepairs(s: State, call: Call)
    requires s.directory && |s.ledger| <= 1 && !Assess(s).Recoverable?
    requires s.ledger != [] ==> !StagesInOrder(s.ledger) || CurrentState(s.journal) != Reviewing
    ensures StepsOf(s, call).writes == []
  {
  }

  /** An intent without an outcome is refused for ever: no later call changes anything or starts the agent. */
  lemma MissingOutcomeIsRefused(git: G.Repo, before: seq<Event>, later: seq<Event>)
    requires OutcomeMissing(Reached(git, before).state)
    ensures var w := Reached(git, before);
            Assess(w.state) == Manual && Run(w, later) == w
            && forall c :: RecoverSteps(w.state, c) == Steps([], Err(CannotRepair))
  {
    var w := Reached(git, before);
    ReachedIsInv(git, before);
    AssessSays(w);
    forall call: Call
      ensures StepsOf(w.state, call).writes == []
    {
      NothingRepairs(w.state, call);
    }
    StuckForever(w, later);
  }

  /** So is a review whose transition was written and whose record was not. */
  lemma UnrecordedReviewIsRefused(git: G.Repo, before: seq<Event>, later: seq<Event>)
    requires ReviewAhead(Reached(git, before).state)
    ensures var w := Reached(git, before);
            Assess(w.state) == Manual && Run(w, later) == w
            && forall c :: RecoverSteps(w.state, c) == Steps([], Err(CannotRepair))
  {
    var w := Reached(git, before);
    ReachedIsInv(git, before);
    AssessSays(w);
    ReviewAheadShape(w);
    forall call: Call
      ensures StepsOf(w.state, call).writes == []
    {
      NothingRepairs(w.state, call);
    }
    StuckForever(w, later);
  }

  lemma ReviewAheadShape(w: World)
    requires Inv(w) && ReviewAhead(w.state)
    ensures w.state.directory && CurrentState(w.state.journal) != Reviewing
  {
    assert StageInv(w, 1);
  }

  /**
   A completed review that asked for changes leaves every store in agreement, yet assess calls its
   evidence invalid: the decision gap detector does not know the transition out of REVIEWING.
   */
  lemma RejectedReviewIsCalledInvalid(w: World)
    requires Inv(w) && |w.state.ledger| == 2 && !DecisionAhead(w.state)
    ensures StagesInOrder(w.state.ledger) && Inspect(w.state).None? && ArtifactsValid(w.state)
    ensures Assess(w.state) == if ReviewRejected(w.state) then Invalid else AssessCard(w.state)
    ensures ReviewRejected(w.state) ==> AssessCard(w.state) == Consistent
  {
    assert StageInv(w, 2);
    AssessSays(w);
    if w.state.ledger[1].payload.disposition.Accepted? && CurrentState(w.state.journal) == MergeReview {
      ReviewedCard(w.state);
    }
    assert IntentAndOutcomeOnFile(w.state);
  }

  predicate SparesCard(writes: seq<Write>) {
    forall i | 0 <= i < |writes| :: writes[i] != OpenCard && !writes[i].FillCard?
  }

  lemma {:induction false} CardStays(w: World, writes: seq<Write>)
    requires SparesCard(writes)
    ensures PutAll(w, writes).state.card == w.state.card
    decreases |writes|
  {
    if writes != [] {
      CardStays(w, writes[..|writes| - 1]);
    }
  }

  lemma IntegrateSparesCard(s: State, c: Clock)
    ensures SparesCard(IntegrateSteps(s, c).writes)
  {
    hide G.CommitPhase, G.MergePhase, CompletedEvidence, CompletionError, Decide, RequiredEvidence;
    if IntegrationInputs(s).None? && CurrentState(s.journal) == Integrating {
      var moved := GitSteps(s.git, RequestOf(s), c.commitStamp);
      assert SparesCard(moved.writes);
      if moved.result.Ok? {
        assert SparesCard(CompleteIntegration(s, moved.result.value, c.at).writes);
      }
    }
  }

  lemma LaterCallsSpareCard(s: State, call: Call)
    requires s.directory && |s.ledger| >= 2 && !call.Recover?
    ensures SparesCard(StepsOf(s, call).writes)
  {
    hide IntegrateSteps, RecoverWrites, Assess, CompleteSteps, PrepareWrites, DecisionTransition, RemovalError, OutcomeOf;
    match call {
      case Integrate(c) => IntegrateSparesCard(s, c);
      case _ =>
    }
  }

  lemma TornRecoverSparesCard(w: World, c: Clock)
    requires Inv(w) && w.state.card == TornCard
    ensures SparesCard(RecoverSteps(w.state, c).writes)
  {
    GapsFollowTheStatus(w);
    if Assess(w.state).Recoverable? && OpensLedgerGap(Assess(w.state).repair) {
      RecoverAppendsTheOwedRecord(w, c);
    }
  }

  lemma TornShape(w: World)
    requires Inv(w) && w.state.card == TornCard
    ensures w.state.directory && |w.state.ledger| >= 2
    ensures Assess(w.state) != Consistent && Assess(w.state) != Recoverable(RestoreCard)
  {
    hide Inv, StageInv, Assess;
    StageShape(w);
    AssessSays(w);
  }

  lemma TornCallSparesCard(w: World, call: Call)
    requires Inv(w) && w.state.card == TornCard
    ensures SparesCard(StepsOf(w.state, call).writes)
  {
    TornShape(w);
    match call {
      case Recover(c) => TornRecoverSparesCard(w, c);
      case _ => LaterCallsSpareCard(w.state, call);
    }
  }

  /** A card file that a crash left empty stays so, and the run is never consistent again. */
  lemma {:induction false} TornCardIsForEver(w: World, events: seq<Event>)
    requires Inv(w) && w.state.card == TornCard
    ensures var w' := Run(w, events);
            w'.state.card == TornCard && Assess(w'.state) != Consistent && Assess(w'.state) != Recoverable(RestoreCard)
    decreases |events|
  {
    if events == [] {
      TornShape(w);
    } else {
      var writes := StepsOf(w.state, events[0].call).writes;
      TornCallSparesCard(w, events[0].call);
      CardStays(Promise(w, writes), if events[0].survives <= |writes| then writes[..events[0].survives] else writes);
      EveryCallKeepsTheInvariant(w, events[0]);
      TornCardIsForEver(Next(w, events[0]), events[1..]);
    }
  }

  // ---- what reaches the target ------------------------------------------------------------

  /** A recorded approval by the authority's own actor, of the card that cites the passing report of this patch. */
  ghost predicate Approved(s: State) {
    && |s.ledger| >= 3 && StagesInOrder(s.ledger) && OutcomeOf(s).patch.Some? && OutcomeOf(s).report.Some?
    && var d, a, card := s.ledger[2].payload.decision, s.ledger[2].payload.authority, s.ledger[1].payload.disposition;
    && card.Accepted? && d.choice == Approve && d.card == card.card
    && a.actor == d.actor && a.mergeAllowed
    && OutcomeOf(s).report.value.passes && OutcomeOf(s).report.value.patch == OutcomeOf(s).patch.value
    && Name(OutcomeOf(s).report.value.id) in d.evidence
  }

  lemma MergedIsSanctioned(git: G.Repo, q: G.Request, origin: G.Commit)
    requires Merged(git, q, origin)
    ensures G.Sanctioned(git.target, q) && origin == q.base
  {
    var r, stamp :| G.Ready(r, q) && r.target == origin && git == G.AfterMerge(r, q, stamp);
    G.NewCommitIsSanctioned(r, q, stamp);
    G.ValidatedIsSanctioned(G.NewCommit(r, q, stamp), q);
  }

  lemma TargetWaitsForApproval(w: World)
    requires Inv(w) && |w.state.ledger| < 3
    ensures w.state.git.target == w.origin
  {
    assert StageInv(w, |w.state.ledger|);
  }

  lemma ApprovedTarget(w: World)
    requires Inv(w) && |w.state.ledger| == 3 && w.state.git.target != w.origin
    ensures Approved(w.state) && Merged(w.state.git, RequestOf(w.state), w.origin)
  {
    hide Legal, Merged, G.EvidenceFor, RequiredEvidence;
    assert StageInv(w, 3);
  }

  lemma IntegratedTarget(w: World)
    requires Inv(w) && |w.state.ledger| >= 4
    ensures Approved(w.state) && Merged(w.state.git, RequestOf(w.state), w.origin)
  {
    hide Legal, Merged, Committed, G.EvidenceFor, RequiredEvidence;
    assert StageInv(w, |w.state.ledger|);
  }

  lemma TargetMovesOnceApproved(w: World)
    requires Inv(w) && w.state.git.target != w.origin
    ensures Approved(w.state) && G.Sanctioned(w.state.git.target, RequestOf(w.state)) && w.origin == RequestOf(w.state).base
  {
    if |w.state.ledger| < 3 {
      TargetWaitsForApproval(w);
    } else {
      if |w.state.ledger| == 3 {
        ApprovedTarget(w);
      } else {
        IntegratedTarget(w);
      }
      MergedIsSanctioned(w.state.git, RequestOf(w.state), w.origin);
    }
  }

  /**
   End to end: in every reachable state the target is where it was, or it is the one commit that the
   reviewed, verified and approved patch allows.
   */
  lemma TargetIsUntouchedOrSanctioned(git: G.Repo, events: seq<Event>)
    ensures var s := Reached(git, events).state;
            s.git.target == git.target
            || (Approved(s) && git.target == RequestOf(s).base && G.Sanctioned(s.git.target, RequestOf(s)))
  {
    ReachedIsInv(git, events);
    var w := Reached(git, events);
    if w.state.git.target != w.origin {
      TargetMovesOnceApproved(w);
    }
  }

  /** The branch checked out in the target is never another: what moves is the branch that the runbook named. */
  lemma MovedTargetIsTheNamedBranch(git: G.Repo, events: seq<Event>)
    ensures var s := Reached(git, events).state;
            s.git.target != git.target ==>
              && |s.ledger| >= 3 && StagesInOrder(s.ledger) && SetupOf(s).targetRef == s.git.targetBranch != ""
              && s.git.targetTree == s.git.target.tree
  {
    ReachedIsInv(git, events);
    var w := Reached(git, events);
    hide Reached;
    if w.state.git.target != w.origin {
      if |w.state.ledger| < 3 {
        TargetWaitsForApproval(w);
      } else {
        if |w.state.ledger| == 3 {
          ApprovedTarget(w);
        } else {
          IntegratedTarget(w);
        }
        MergedIsAddressed(w.state.git, RequestOf(w.state), w.origin);
        RequestNames(w.state);
      }
    }
    hide Inv, Approved, Merged, RequestOf;
  }

  lemma RequestNames(s: State)
    requires |s.ledger| >= 3 && StagesInOrder(s.ledger) && OutcomeOf(s).patch.Some?
    ensures RequestOf(s).targetRef == SetupOf(s).targetRef
  {
  }

  lemma MergedIsAddressed(git: G.Repo, q: G.Request, origin: G.Commit)
    requires Merged(git, q, origin)
    ensures git.targetBranch == q.targetRef != "" && git.targetTree == git.target.tree
  {
    var r, stamp :| G.Ready(r, q) && r.target == origin && git == G.AfterMerge(r, q, stamp);
    G.PreflightMeans(r, q);
  }

  /** The commit that a moved target stands at, word for word: on the base, with the reviewed patch, and saying who approved what. */
  lemma MovedTargetIsTheReviewedCommit(git: G.Repo, events: seq<Event>)
    ensures var s := Reached(git, events).state;
            s.git.target != git.target ==>
              && |s.ledger| >= 3 && StagesInOrder(s.ledger) && OutcomeOf(s).patch.Some?
              && s.git.target.parents != [] && s.git.target.parents[0] == SetupOf(s).base == git.target
              && G.Diff(SetupOf(s).base.tree, s.git.target.tree) == OutcomeOf(s).patch.value
              && OutcomeOf(s).patch.value.Keys <= SetupOf(s).allowed
              && s.git.target.message == G.Approved("JobSlayer: " + SetupOf(s).title, SetupOf(s).task, OutcomeOf(s).patch.value,
                                                    s.ledger[2].payload.decision.actor)
  {
    ReachedIsInv(git, events);
    var w := Reached(git, events);
    hide Reached, Inv;
    if w.state.git.target != w.origin {
      TargetMovesOnceApproved(w);
      PatchIsAllowed(w);
    }
    hide Approved, G.Diff, G.Ancestors;
  }

  lemma PatchIsAllowed(w: World)
    requires Inv(w) && |w.state.ledger| >= 3 && StagesInOrder(w.state.ledger) && OutcomeOf(w.state).patch.Some?
    ensures OutcomeOf(w.state).patch.value.Keys <= SetupOf(w.state).allowed
  {
    hide Legal, Merged, Committed, G.EvidenceFor, CitedByDecision, RequiredEvidence, Fresh;
    assert StageInv(w, |w.state.ledger|);
  }
}
