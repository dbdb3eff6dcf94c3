/** Recovery of a local run: what the surviving stores say, and the one repair they allow. */
module Recovery {
  import opened Outcomes
  import opened LocalRun
  import opened LocalRunCoordinators
  import G = GitIntegration

  datatype Repair = RestoreCard | ResumeExecution | ResumeDecision | ResumeIntegration | ResumeCleanup

  datatype Status = Consistent | Recoverable(repair: Repair) | Manual | Invalid

  // ---- the execution gap ------------------------------------------------------------------

  predicate OutcomeFitsRun(s: State, setup: Setup, o: Outcome) {
    && s.journal != [] && CurrentState(s.journal) == o.state
    && (forall k | k in o.artifacts :: k < |s.artifacts|)
    && s.workspace && s.git.checkedOut == setup.branch
    && (o.patch.Some? ==> CollectPatch(s.git, setup) == o.patch)
  }

  /** The payload of the missing first record. */
  function LoadExecutionGap(s: State): Option<Payload> {
    var intents, outcomes := Select(s.artifacts, Intents, None), Select(s.artifacts, OutcomeDocs, None);
    if |intents| != 1 || |outcomes| != 1 then None
    else
      var i, o := s.artifacts[intents[0]], s.artifacts[outcomes[0]];
      if i.producer != Coordinator || o.producer != Coordinator || !OutcomeFitsRun(s, i.content.setup, o.content.outcome) then None
      else Some(Execution(i.content.setup, o.content.outcome, intents[0], outcomes[0]))
  }

  function AssessUnrecorded(s: State): Status {
    var intents, outcomes := Select(s.artifacts, Intents, None), Select(s.artifacts, OutcomeDocs, None);
    if intents == [] then Manual
    else if |intents| != 1 || |outcomes| > 1 then Invalid
    else if outcomes == [] then Manual
    else if LoadExecutionGap(s).None? then Invalid
    else Recoverable(ResumeExecution)
  }

  // ---- the decision gap -------------------------------------------------------------------

  function Last(journal: seq<Transition>): Transition
    requires journal != []
  {
    journal[|journal| - 1]
  }

  /** DecisionApplicationService.validate_applied_transition */
  predicate TransitionApplies(card: Card, report: Report, d: Decision, a: Authority, da: nat, aa: nat, t: Transition) {
    && BindingError(card, d, a, t.at).None?
    && (d.choice == Approve ==> Name(report.id) in d.evidence)
    && t.from == MergeReview && t.to == TargetOf(d.choice) && t.actor == Human(d.actor)
    && DecisionEvidence(card, d, a, da, aa) + (if d.choice == Approve then {Name(report.id)} else {}) <= t.evidence
  }

  /** The payload of the missing decision record. */
  function LoadDecisionGap(s: State): Option<Payload>
    requires |s.ledger| == 2 && StagesInOrder(s.ledger) && s.journal != []
  {
    var disposition, o, t := s.ledger[1].payload.disposition, OutcomeOf(s), Last(s.journal);
    if disposition.ChangesRequested? || o.report.None? || !Available(s.artifacts, t.evidence) then None
    else
      var decisions := Select(s.artifacts, DecisionDocs, Some(t.evidence));
      var authorities := Select(s.artifacts, AuthorityDocs, Some(t.evidence));
      if |decisions| != 1 || |authorities| != 1 then None
      else
        var da, aa := decisions[0], authorities[0];
        var d, a := s.artifacts[da].content.decision, s.artifacts[aa].content.authority;
        if !IntentAndOutcomeOnFile(s) || !ArtifactsValid(s) then None
        else if s.artifacts[da].producer != Person(d.actor) || s.artifacts[aa].producer != AuthorityProvider then None
        else if !TransitionApplies(disposition.card, o.report.value, d, a, da, aa, t) then None
        else Some(DecisionApplied(d, a, da, aa, t))
  }

  function AssessDecision(s: State): Option<Status>
    requires StagesInOrder(s.ledger)
  {
    if |s.ledger| != 2 || s.journal == [] || CurrentState(s.journal) == MergeReview then None
    else if Last(s.journal).from != MergeReview || LoadDecisionGap(s).None? then Some(Invalid)
    else Some(Recoverable(ResumeDecision))
  }

  // ---- the integration gap ----------------------------------------------------------------

  function AssessIntegration(s: State): Option<Status>
    requires StagesInOrder(s.ledger)
  {
    if |s.ledger| != 3 || s.journal == [] || CurrentState(s.journal) != Completed then None
    else if !s.directory || IntegrationInputs(s).Some? || |s.journal| < 2
            || s.journal[|s.journal| - 2] != s.ledger[2].payload.transition
    then Some(Invalid)
    else if !IntentAndOutcomeOnFile(s) || !ArtifactsValid(s) then Some(Invalid)
    else match CompletedEvidence(s)
      case None => Some(Invalid)
      case Some(art) =>
        if CompletionError(s, art).Some? then Some(Invalid) else Some(Recoverable(ResumeIntegration))
  }

  // ---- the cleanup gap --------------------------------------------------------------------

  function AssessCleanup(s: State): Option<Status>
    requires StagesInOrder(s.ledger)
  {
    if |s.ledger| != 4 || s.journal == [] || CurrentState(s.journal) != Completed || s.workspace then None
    else
      var p := s.ledger[3].payload;
      if p.result.task != SetupOf(s).task || p.result.workspace != SetupOf(s).workspace
         || Last(s.journal) != p.transition || p.transition.to != Completed || IdOf(p.result) !in p.transition.evidence
      then Some(Invalid)
      else if !IntentAndOutcomeOnFile(s) || !ArtifactsValid(s) || s.artifacts[p.artifact].content != IntegrationDoc(p.result)
      then Some(Invalid)
      else if s.git.tip != p.result.commit then Some(Invalid)
      else Some(Recoverable(ResumeCleanup))
  }

  // ---- assess -----------------------------------------------------------------------------

  function ExpectedCard(s: State): Option<Card>
    requires StagesInOrder(s.ledger)
  {
    if |s.ledger| < 2 || s.ledger[1].payload.disposition.ChangesRequested? then None
    else Some(s.ledger[1].payload.disposition.card)
  }

  function AssessCard(s: State): Status
    requires StagesInOrder(s.ledger)
  {
    match ExpectedCard(s)
    case None => if s.card == NoCard then Consistent else Invalid
    case Some(card) =>
      if s.card == NoCard then Recoverable(RestoreCard)
      else if s.card == CardOnFile(card) then Consistent
      else Invalid
  }

  function Assess(s: State): Status {
    if !s.directory || !StagesInOrder(s.ledger) then Invalid
    else if s.ledger == [] then AssessUnrecorded(s)
    else if AssessDecision(s).Some? then AssessDecision(s).value
    else if AssessIntegration(s).Some? then AssessIntegration(s).value
    else if AssessCleanup(s).Some? then AssessCleanup(s).value
    else if Inspect(s).Some? then Manual
    else if !ArtifactsValid(s) then Invalid
    else AssessCard(s)
  }

  // ---- recover ----------------------------------------------------------------------------

  function RepairSteps(s: State, repair: Repair, c: Clock): Steps<()>
    requires Assess(s) == Recoverable(repair)
  {
    match repair
    case ResumeExecution => Recording(Steps([], Ok(LoadExecutionGap(s).value)), c.at)
    case ResumeDecision => Recording(Steps([], Ok(LoadDecisionGap(s).value)), c.at)
    case ResumeIntegration => IntegrateSteps(s, c)
    case ResumeCleanup => CleanupSteps(s, c.at)
    case RestoreCard => Steps([OpenCard, FillCard(ExpectedCard(s).value)], Ok(()))
  }

  function RecoverWrites(s: State, c: Clock): seq<Write> {
    match Assess(s)
    case Recoverable(repair) => RepairSteps(s, repair, c).writes
    case _ => []
  }

  /** What recover writes, and whether it raises: after any repair the run must be consistent. */
  function RecoverSteps(s: State, c: Clock): Steps<()> {
    Steps(RecoverWrites(s, c),
          if Assess(s) == Consistent then Ok(())
          else if !Assess(s).Recoverable? then Err(CannotRepair)
          else if Assess(After(s, RecoverWrites(s, c))) == Consistent then Ok(())
          else Err(NotConsistent))
  }

  /** What each repair starts from is there. */
  lemma RepairIsPossible(s: State, repair: Repair)
    requires Assess(s) == Recoverable(repair)
    ensures repair == ResumeExecution ==> LoadExecutionGap(s).Some?
    ensures repair == ResumeDecision ==>
              |s.ledger| == 2 && StagesInOrder(s.ledger) && s.journal != [] && LoadDecisionGap(s).Some?
    ensures repair == RestoreCard ==> StagesInOrder(s.ledger) && ExpectedCard(s).Some? && s.card == NoCard
  {
    hide LoadExecutionGap, LoadDecisionGap, Inspect, ArtifactsValid;
  }

  /** Repairs through the coordinator's own stores. */
  class LocalRunRecoveryManager {
    const coordinator: LocalRunCoordinator

    constructor (c: LocalRunCoordinator)
      ensures coordinator == c
    {
      coordinator := c;
    }

    method Repair(repair: Repair, c: Clock)
      requires coordinator.Valid() && Assess(coordinator.State()) == Recoverable(repair)
      modifies coordinator
      ensures coordinator.Wrote(RepairSteps(old(coordinator.State()), repair, c).writes)
    {
      hide IntegrateSteps, CleanupSteps, Leads, Assess, LoadExecutionGap, LoadDecisionGap, ExpectedCard;
      var s := coordinator.State();
      RepairIsPossible(s, repair);
      match repair {
        case ResumeExecution => coordinator.AppendRecord(LoadExecutionGap(s).value, c.at);
        case ResumeDecision => coordinator.AppendRecord(LoadDecisionGap(s).value, c.at);
        case ResumeIntegration => var _ := coordinator.Integrate(c);
        case ResumeCleanup => var _ := coordinator.Cleanup(c.at);
        case RestoreCard => var _ := coordinator.CreateCard(ExpectedCard(s).value);
      }
    }

    method Recover(c: Clock) returns (r: Result<(), Error>)
      requires coordinator.Valid()
      modifies coordinator
      ensures coordinator.Wrote(RecoverSteps(old(coordinator.State()), c).writes)
      ensures r == RecoverSteps(old(coordinator.State()), c).result
    {
      var assessment := Assess(coordinator.State());
      match assessment {
        case Consistent => return Ok(());
        case Recoverable(repair) =>
          Repair(repair, c);
          coordinator.WritesAdvance(RepairSteps(old(coordinator.State()), repair, c).writes);
          if Assess(coordinator.State()) != Consistent {
            return Err(NotConsistent);
          }
          return Ok(());
        case _ => return Err(CannotRepair);
      }
    }
  }
}
