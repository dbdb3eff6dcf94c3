/** When each call of a reachable run succeeds: conditions a caller can see before it calls, exactly. */
module RunAnswers {
  import opened Outcomes
  import opened LocalRun
  import opened Recovery
  import opened RunInvariant
  import opened RunCalls
  import opened RunRecovery
  import opened RunTheorems
  import G = GitIntegration

  // ---- execute ----------------------------------------------------------------------------

  lemma ExecuteSucceedsIff(w: World, a: Attempt)
    requires Inv(w)
    ensures ExecuteSteps(w.state, a).result.Ok? <==>
            !w.state.directory && a.admitted && a.authorized && a.workspaceFree && !a.actor.Agent? && a.end != LifecycleError
  {
    if !w.state.directory {
      NoJournalYet(w);
    }
    hide Inv, G.Diff;
  }

  lemma NoJournalYet(w: World)
    requires Inv(w) && !w.state.directory
    ensures w.state.journal == []
  {
    hide Legal, Merged, Committed, G.EvidenceFor, CitedByDecision, RequiredEvidence, Fresh, OutcomeSound;
    assert StageInv(w, |w.state.ledger|);
  }

  /** What an execution records: failed for a run without a usable result, a path outside the task's or no change; else the verdict. */
  lemma ExecutionRecords(w: World, a: Attempt)
    requires Inv(w) && ExecuteSteps(w.state, a).result.Ok?
    ensures var writes := ExecuteSteps(w.state, a).writes;
            writes != [] && writes[|writes| - 1].Append? && writes[|writes| - 1].record.payload.Execution?
    ensures var p := ExecuteSteps(w.state, a).writes[|ExecuteSteps(w.state, a).writes| - 1].record.payload;
            var patch := G.Diff(a.setup.base.tree, a.edited);
            && p.setup == a.setup
            && (p.outcome.state == Failed <==> a.end == Unusable || !(patch.Keys <= a.setup.allowed) || patch == map[])
            && (p.outcome.state != Failed ==>
                  && p.outcome.state == (if a.passes then Reviewing else Repairing) && p.outcome.patch == Some(patch)
                  && p.outcome.report == Some(Report(a.reportId, patch, a.passes)))
  {
    ExecuteSucceedsIff(w, a);
    NoJournalYet(w);
    hide Inv, G.Diff, Prepared, PlanWrites, LaunchWrites, Results, CheckWrites, UpTo;
  }

  // ---- review -----------------------------------------------------------------------------

  lemma ReviewSucceedsIff(w: World, i: ReviewInput)
    requires Inv(w)
    ensures ReviewSteps(w.state, i).result.Ok? <==>
            && !i.blank && (i.review.reviewer.Agent? || i.review.reviewer.Human?)
            && |w.state.ledger| == 1 && CurrentState(w.state.journal) == Reviewing
  {
    if |w.state.ledger| == 1 {
      ExecutedFacts(w);
    }
    hide Inv, PrepareWrites, CardFor;
  }

  lemma ExecutedFacts(w: World)
    requires Inv(w) && |w.state.ledger| == 1
    ensures StagesInOrder(w.state.ledger) && w.state.directory && w.state.card == NoCard
    ensures CurrentState(w.state.journal) == Reviewing ==> Reviewable(OutcomeOf(w.state))
  {
    hide Legal, Fresh, G.EvidenceFor;
    assert StageInv(w, 1);
  }

  // ---- apply_decision ---------------------------------------------------------------------

  /** A decision is applied exactly when it is about this card, lists an option, and its actor may merge now. */
  lemma DecisionSucceedsIff(w: World, i: DecisionInput)
    requires Inv(w)
    ensures ApplyDecisionSteps(w.state, i).result.Ok? <==>
            && |w.state.ledger| == 2 && StagesInOrder(w.state.ledger) && w.state.ledger[1].payload.disposition.Accepted?
            && CurrentState(w.state.journal) == MergeReview && i.decision.Some? && i.authority.Some?
            && var card, d, u := w.state.ledger[1].payload.disposition.card, i.decision.value, i.authority.value;
            && d.card == card && d.evidence == card.evidence && d.choice in {Approve, RequestChanges, Reject}
            && u.actor == d.actor && u.mergeAllowed && u.issuedAt <= i.now < u.validUntil
  {
    if |w.state.ledger| == 2 {
      ReviewedFacts(w);
    }
    hide Inv, DecisionEvidence;
  }

  lemma ReviewedFacts(w: World)
    requires Inv(w) && |w.state.ledger| == 2
    ensures StagesInOrder(w.state.ledger) && w.state.directory
    ensures var d, o := w.state.ledger[1].payload.disposition, OutcomeOf(w.state);
            && o.report.Some? && o.report.value.passes
            && (d.Accepted? ==> Name(o.report.value.id) in d.card.evidence)
  {
    hide Legal, Fresh, G.EvidenceFor, DecisionOnFile;
    assert StageInv(w, 2);
  }

  // ---- integrate --------------------------------------------------------------------------

  /** Integration succeeds exactly for an approval, and then either Git can be taken to the commit, or it was before. */
  lemma IntegrateSucceedsIff(w: World, c: Clock)
    requires Inv(w)
    ensures IntegrateSteps(w.state, c).result.Ok? <==>
            && |w.state.ledger| == 3 && StagesInOrder(w.state.ledger) && w.state.ledger[2].payload.decision.choice == Approve
            && OutcomeOf(w.state).patch.Some?
            && (CurrentState(w.state.journal) == Completed
                || (G.Addressed(w.state.git, RequestOf(w.state))
                    && (G.CanCommit(w.state.git, RequestOf(w.state)) || G.CanResume(w.state.git, RequestOf(w.state)))))
  {
    if |w.state.ledger| == 3 {
      DecisionFacts(w);
      if w.state.ledger[2].payload.decision.choice == Approve {
        if CurrentState(w.state.journal) == Completed {
          EvidenceGivesTheOwedRecord(w, c);
        } else {
          FreshIntegrateIff(w, c);
        }
      }
    }
    hide Inv, G.Addressed, G.CanCommit, G.CanResume, IntegrateFresh, IntegrateAgain, RequestOf;
  }

  lemma DecisionFacts(w: World)
    requires Inv(w) && |w.state.ledger| == 3
    ensures StagesInOrder(w.state.ledger) && w.state.directory && OutcomeOf(w.state).patch.Some?
    ensures w.state.ledger[2].payload.decision.choice == Approve ==>
              && IntegrationInputs(w.state).None?
              && (CurrentState(w.state.journal) == Integrating || CurrentState(w.state.journal) == Completed)
  {
    hide Legal, Fresh, G.EvidenceFor, Merged, Committed, OutcomeSound;
    assert StageInv(w, 3);
  }

  lemma FreshIntegrateIff(w: World, c: Clock)
    requires Inv(w) && IntegrationInputs(w.state).None? && CurrentState(w.state.journal) == Integrating
    ensures IntegrateSteps(w.state, c).result.Ok? <==>
            G.Addressed(w.state.git, RequestOf(w.state))
            && (G.CanCommit(w.state.git, RequestOf(w.state)) || G.CanResume(w.state.git, RequestOf(w.state)))
  {
    var s, q := w.state, RequestOf(w.state);
    IntegratesFacts(w);
    G.IntegratesIff(s.git, q, c.commitStamp);
    GitMoves(s.git, SetupOf(s), q, w.origin, c.commitStamp);
    hide Inv, G.Addressed, G.CanCommit, G.CanResume, GitOnTheWay, Merged, G.CommitPhase, G.MergePhase, RequestOf, CompleteIntegration;
    var (committed, e) := G.CommitPhase(s.git, q, c.commitStamp);
    if e.None? {
      var (merged, r) := G.MergePhase(committed, q);
      MovedAlong(w, committed, merged, r.value, c.at);
    }
  }

  // ---- cleanup ----------------------------------------------------------------------------

  lemma CleanupSucceedsIff(w: World, at: int)
    requires Inv(w)
    ensures CleanupSteps(w.state, at).result.Ok? <==> |w.state.ledger| == 4
  {
    if |w.state.ledger| == 4 {
      CleanupFacts(w);
    }
    hide Inv, RemovalError;
  }

  /** In any stores at all, a worktree is removed only if it is clean and on its branch, and the run is integrated. */
  lemma OnlyACleanWorktreeIsRemoved(s: State, at: int)
    ensures RemoveWorktree in CleanupSteps(s, at).writes <==>
            && s.directory && |s.ledger| == 4 && StagesInOrder(s.ledger) && CurrentState(s.journal) == Completed
            && s.workspace && s.git.checkedOut == SetupOf(s).branch && s.git.workTree == s.git.head.tree
    ensures CleanupSteps(s, at).result.Ok? ==> s.git.tip == s.ledger[3].payload.result.commit
  {
  }

  // ---- what the calls leave, in order -----------------------------------------------------

  /** A review files its document and, if it accepts, the card; the transition cites both; the record comes before the card file. */
  lemma ReviewLeaves(w: World, i: ReviewInput)
    requires Inv(w) && ReviewSteps(w.state, i).result.Ok?
    ensures var s, o := w.state, OutcomeOf(w.state);
            var n, who := |s.artifacts|, i.review.reviewer;
            && o.report.Some? && o.patchArtifact.Some?
            && var card := Card(i.cardId, {Name(o.report.value.id), ArtifactId(o.patchArtifact.value), Name(i.review.id)});
            ReviewSteps(s, i).writes ==
            if i.review.accepted then
              [Register(Artifact(Person(NameOf(who)), ReviewDoc(i.review))), Register(Artifact(Controller, CardDoc(card))),
               Transit(Transition(Reviewing, MergeReview, who, {Name(i.review.id), ArtifactId(n), Name(i.cardId), ArtifactId(n + 1)}, i.at)),
               Append(Record(Reviewed(i.review, Accepted(card, n, n + 1)), i.at)), OpenCard, FillCard(card)]
            else
              [Register(Artifact(Person(NameOf(who)), ReviewDoc(i.review))),
               Transit(Transition(Reviewing, Repairing, who, {Name(i.review.id), ArtifactId(n)}, i.at)),
               Append(Record(Reviewed(i.review, ChangesRequested(n)), i.at))]
  {
    ReviewSucceedsIff(w, i);
    ExecutedFacts(w);
    ReviewWrites(w, i);
    hide Inv, ReviewSteps;
  }

  /** A decision files itself and its authority; the transition cites both, the card and what the decision rests on. */
  lemma DecisionLeavesInOrder(w: World, i: DecisionInput)
    requires Inv(w) && ApplyDecisionSteps(w.state, i).result.Ok?
    ensures i.decision.Some? && i.authority.Some? && OutcomeOf(w.state).report.Some?
    ensures var s, d, u := w.state, i.decision.value, i.authority.value;
            var n := |s.artifacts|;
            var cited := {Name(d.id), Name(d.card.id), Name(u.id), ArtifactId(n), ArtifactId(n + 1)} + d.evidence
                         + if d.choice == Approve then {Name(OutcomeOf(s).report.value.id)} else {};
            var t := Transition(MergeReview, match d.choice
                                             case Approve => Integrating
                                             case RequestChanges => Repairing
                                             case _ => Cancelled,
                                Human(d.actor), cited, i.at);
            ApplyDecisionSteps(s, i).writes ==
            [Register(Artifact(Person(d.actor), DecisionDoc(d))), Register(Artifact(AuthorityProvider, AuthorityDoc(u))),
             Transit(t), Append(Record(DecisionApplied(d, u, n, n + 1, t), i.at))]
  {
    DecisionSucceedsIff(w, i);
    ReviewedFacts(w);
    DecisionWrites(w.state, i);
    var s, d, u, n := w.state, i.decision.value, i.authority.value, |w.state.artifacts|;
    DecidedTransition(s, i);
    hide Inv, ApplyDecisionSteps, DecisionTransition;
  }

  lemma DecidedTransition(s: State, i: DecisionInput)
    requires ApplyDecisionSteps(s, i).result.Ok? && DecisionChecks(s, i).None?
    ensures var d, u, n := i.decision.value, i.authority.value, |s.artifacts|;
            DecisionTransition(s.journal, s.ledger[1].payload.disposition.card, OutcomeOf(s).report.value, d, u, n, n + 1, i.now, i.at)
            == Ok(Transition(MergeReview, match d.choice
                                          case Approve => Integrating
                                          case RequestChanges => Repairing
                                          case _ => Cancelled,
                             Human(d.actor),
                             {Name(d.id), Name(d.card.id), Name(u.id), ArtifactId(n), ArtifactId(n + 1)} + d.evidence
                             + if d.choice == Approve then {Name(OutcomeOf(s).report.value.id)} else {}, i.at))
  {
    var d, u, n := i.decision.value, i.authority.value, |s.artifacts|;
    var card := s.ledger[1].payload.disposition.card;
    assert DecisionEvidence(card, d, u, n, n + 1)
           == {Name(d.id), Name(card.id), Name(u.id), ArtifactId(n), ArtifactId(n + 1)} + d.evidence;
    hide DecisionEvidence;
    assert d.card == card && CurrentState(s.journal) == MergeReview;
    var ev := DecisionEvidence(card, d, u, n, n + 1);
    assert ev + {} == ev;
  }

  /** A first integration commits, fast-forwards, files the result, completes the task by the approver, and only then is recorded. */
  lemma IntegrationLeaves(w: World, c: Clock)
    requires Inv(w) && IntegrateSteps(w.state, c).result.Ok? && CurrentState(w.state.journal) == Integrating
    ensures |w.state.ledger| == 3 && StagesInOrder(w.state.ledger) && OutcomeOf(w.state).patch.Some? && OutcomeOf(w.state).report.Some?
    ensures var s, writes := w.state, IntegrateSteps(w.state, c).writes;
            var q, n, d := RequestOf(s), |s.artifacts|, s.ledger[2].payload.decision;
            && |writes| == 5 && writes[0].Git? && writes[1].Git?
            && writes[1].after == G.IntegrateIn(s.git, q, c.commitStamp).0
            && writes[0].after == writes[1].after.(target := s.git.target, targetTree := s.git.targetTree)
            && G.IntegrateIn(s.git, q, c.commitStamp).1.Ok?
            && var result := G.IntegrateIn(s.git, q, c.commitStamp).1.value;
            var t := Transition(Integrating, Completed, Human(d.actor),
                                {Name(d.id), Name(s.ledger[2].payload.authority.id), ArtifactId(n), Name(OutcomeOf(s).report.value.id), IdOf(result)}, c.at);
            writes[2..] == [Register(Artifact(Integrator, IntegrationDoc(result))), Transit(t), Append(Record(Integrated(result, n, t), c.at))]
  {
    IntegrateSucceedsIff(w, c);
    DecisionFacts(w);
    FreshIntegrateIff(w, c);
    FreshLeaves(w, c);
  }

  lemma FreshLeaves(w: World, c: Clock)
    requires Inv(w) && IntegrationInputs(w.state).None? && CurrentState(w.state.journal) == Integrating
    requires IntegrateSteps(w.state, c).result.Ok?
    ensures var s, writes := w.state, IntegrateSteps(w.state, c).writes;
            var q, n, d := RequestOf(s), |s.artifacts|, s.ledger[2].payload.decision;
            && |writes| == 5 && writes[0].Git? && writes[1].Git?
            && writes[1].after == G.IntegrateIn(s.git, q, c.commitStamp).0
            && writes[0].after == writes[1].after.(target := s.git.target, targetTree := s.git.targetTree)
            && G.IntegrateIn(s.git, q, c.commitStamp).1.Ok?
            && var result := G.IntegrateIn(s.git, q, c.commitStamp).1.value;
            var t := Transition(Integrating, Completed, Human(d.actor),
                                {Name(d.id), Name(s.ledger[2].payload.authority.id), ArtifactId(n), Name(OutcomeOf(s).report.value.id), IdOf(result)}, c.at);
            writes[2..] == [Register(Artifact(Integrator, IntegrationDoc(result))), Transit(t), Append(Record(Integrated(result, n, t), c.at))]
  {
    FreshInputs(w.state);
    hide *;
    var s, q := w.state, RequestOf(w.state);
    G.PhasesKeepTheRest(s.git, q, c.commitStamp);
    FreshSplits(s, c);
    var (committed, e) := G.CommitPhase(s.git, q, c.commitStamp);
    var (merged, r) := G.MergePhase(committed, q);
    CompletedTransition(s, r.value, c.at);
  }

  lemma FreshInputs(s: State)
    requires IntegrationInputs(s).None?
    ensures |s.ledger| == 3 && StagesInOrder(s.ledger) && OutcomeOf(s).patch.Some? && OutcomeOf(s).report.Some?
  {
  }

  lemma FreshSplits(s: State, c: Clock)
    requires IntegrationInputs(s).None? && CurrentState(s.journal) == Integrating && IntegrateSteps(s, c).result.Ok?
    ensures var q := RequestOf(s);
            var (committed, e) := G.CommitPhase(s.git, q, c.commitStamp);
            var (merged, r) := G.MergePhase(committed, q);
            && e.None? && r.Ok? && CompleteIntegration(s, r.value, c.at).result.Ok?
            && IntegrateSteps(s, c).writes == [Git(committed), Git(merged)] + CompleteIntegration(s, r.value, c.at).writes
                                              + [Append(Record(CompleteIntegration(s, r.value, c.at).result.value, c.at))]
  {
    hide G.CommitPhase, G.MergePhase, CompleteIntegration;
    var moved := GitSteps(s.git, RequestOf(s), c.commitStamp);
    var (committed, e) := G.CommitPhase(s.git, RequestOf(s), c.commitStamp);
    assert e.None?;
    var (merged, r) := G.MergePhase(committed, RequestOf(s));
    assert r.Ok? && moved == Steps([Git(committed), Git(merged)], Ok(r.value));
    var done := CompleteIntegration(s, r.value, c.at);
    assert IntegrateFresh(s, c) == Then(moved.writes, done);
    assert done.result.Ok?;
    assert IntegrateSteps(s, c).writes == moved.writes + done.writes + [Append(Record(done.result.value, c.at))];
  }

  lemma CompletedTransition(s: State, result: G.Evidence, at: int)
    requires IntegrationInputs(s).None? && CurrentState(s.journal) == Integrating && CompleteIntegration(s, result, at).result.Ok?
    ensures var n, d := |s.artifacts|, s.ledger[2].payload.decision;
            var t := Transition(Integrating, Completed, Human(d.actor),
                                {Name(d.id), Name(s.ledger[2].payload.authority.id), ArtifactId(n), Name(OutcomeOf(s).report.value.id), IdOf(result)}, at);
            CompleteIntegration(s, result, at) ==
            Steps([Register(Artifact(Integrator, IntegrationDoc(result))), Transit(t)], Ok(Integrated(result, n, t)))
  {
    var n, d := |s.artifacts|, s.ledger[2].payload.decision;
    assert CompletionEvidence(s, n) + {Name(OutcomeOf(s).report.value.id)} + {IdOf(result)}
           == {Name(d.id), Name(s.ledger[2].payload.authority.id), ArtifactId(n), Name(OutcomeOf(s).report.value.id), IdOf(result)};
    hide CompletionEvidence, IdOf;
  }

  // ---- recovery, in any stores at all -----------------------------------------------------

  /** The state the records call for. */
  ghost predicate JournalAgrees(s: State)
    requires s.ledger != [] && StagesInOrder(s.ledger) && s.journal != []
  {
    var current := s.journal[|s.journal| - 1].to;
    && (|s.ledger| == 1 ==> current == s.ledger[0].payload.outcome.state)
    && (|s.ledger| == 2 ==> current == if s.ledger[1].payload.disposition.Accepted? then MergeReview else Repairing)
    && (|s.ledger| == 3 ==> current == s.ledger[2].payload.transition.to)
    && (|s.ledger| >= 4 ==> current == s.ledger[3].payload.transition.to)
  }

  /** Each document the records name is registered, and intent and outcome say what the first record says. */
  ghost predicate DocumentsAgree(s: State)
    requires s.ledger != [] && StagesInOrder(s.ledger)
  {
    var p, n := s.ledger[0].payload, |s.artifacts|;
    && p.intentArtifact < n && s.artifacts[p.intentArtifact].content == IntentDoc(p.setup)
    && p.outcomeArtifact < n && s.artifacts[p.outcomeArtifact].content == OutcomeDoc(p.outcome)
    && (forall k | k in p.outcome.artifacts :: k < n)
    && (|s.ledger| >= 2 ==> match s.ledger[1].payload.disposition
                            case Accepted(_, r, c) => r < n && c < n
                            case ChangesRequested(r) => r < n)
    && (|s.ledger| >= 3 ==> s.ledger[2].payload.decisionArtifact < n && s.ledger[2].payload.authorityArtifact < n)
    && (|s.ledger| >= 4 ==> s.ledger[3].payload.artifact < n)
  }

  /** The worktree is on its branch until the end, and gone after it. */
  ghost predicate WorkspaceAgrees(s: State)
    requires s.ledger != [] && StagesInOrder(s.ledger)
  {
    if |s.ledger| < 5 then s.workspace && s.git.checkedOut == s.ledger[0].payload.setup.branch
    else if |s.ledger| == 5 then !s.workspace && s.ledger[4].payload.commit == s.ledger[3].payload.result.commit
    else true
  }

  lemma DocumentsOnFile(s: State)
    requires s.ledger != [] && StagesInOrder(s.ledger)
    ensures IntentAndOutcomeOnFile(s) && ArtifactsValid(s) <==> DocumentsAgree(s)
  {
    var o := OutcomeOf(s);
    assert o == s.ledger[0].payload.outcome;
    if |s.ledger| >= 2 {
      var d := s.ledger[1].payload.disposition;
      assert match d
             case Accepted(_, r, c) => r in ReviewArtifacts(d) && c in ReviewArtifacts(d)
             case ChangesRequested(r) => r in ReviewArtifacts(d);
    }
  }

  /** Whatever became of the stores, assess calls them consistent only if they all agree. */
  lemma ConsistentMeansAgreement(s: State)
    requires Assess(s) == Consistent
    ensures s.directory && s.ledger != [] && StagesInOrder(s.ledger) && s.journal != []
    ensures JournalAgrees(s) && DocumentsAgree(s) && WorkspaceAgrees(s)
    ensures s.card == if |s.ledger| >= 2 && s.ledger[1].payload.disposition.Accepted?
                      then CardOnFile(s.ledger[1].payload.disposition.card) else NoCard
  {
    ConsistentMeansChecked(s);
    DocumentsOnFile(s);
    hide Assess, DocumentsAgree, IntentAndOutcomeOnFile, ArtifactsValid;
  }

  lemma ConsistentMeansChecked(s: State)
    requires Assess(s) == Consistent
    ensures s.directory && s.ledger != [] && StagesInOrder(s.ledger) && Inspect(s).None? && ArtifactsValid(s)
    ensures AssessCard(s) == Consistent
  {
    hide LoadExecutionGap, LoadDecisionGap, CompletedEvidence, CompletionError, Inspect, ArtifactsValid, IntegrationInputs;
  }

  /** The one registered document of its kind that says this, by the one who files such documents. */
  predicate Filed(s: State, k: nat, producer: Producer, content: Content) {
    k < |s.artifacts| && s.artifacts[k] == Artifact(producer, content)
  }

  /** An execution is recorded from the only intent and outcome on file, for a worktree that still holds the patch. */
  lemma ExecutionIsEvident(s: State)
    requires Assess(s) == Recoverable(ResumeExecution)
    ensures s.directory && s.ledger == [] && LoadExecutionGap(s).Some? && LoadExecutionGap(s).value.Execution?
    ensures var p := LoadExecutionGap(s).value;
            && Filed(s, p.intentArtifact, Coordinator, IntentDoc(p.setup))
            && Filed(s, p.outcomeArtifact, Coordinator, OutcomeDoc(p.outcome))
            && s.journal != [] && s.journal[|s.journal| - 1].to == p.outcome.state
            && s.workspace && s.git.checkedOut == p.setup.branch && (forall k | k in p.outcome.artifacts :: k < |s.artifacts|)
            && (p.outcome.patch.Some? ==> G.Diff(p.setup.base.tree, s.git.workTree) == p.outcome.patch.value
                                          && p.outcome.patch.value.Keys <= p.setup.allowed)
  {
    hide G.Diff;
  }

  /** A decision is recorded from the decision and authority that its transition cites, valid when it was made. */
  lemma DecisionIsEvident(s: State)
    requires Assess(s) == Recoverable(ResumeDecision)
    ensures |s.ledger| == 2 && StagesInOrder(s.ledger) && s.journal != [] && s.ledger[1].payload.disposition.Accepted?
    ensures LoadDecisionGap(s).Some? && LoadDecisionGap(s).value.DecisionApplied? && OutcomeOf(s).report.Some?
    ensures var p := LoadDecisionGap(s).value;
            var d, u, t := p.decision, p.authority, s.journal[|s.journal| - 1];
            && p.transition == t && t.from == MergeReview && t.actor == Human(d.actor)
            && Filed(s, p.decisionArtifact, Person(d.actor), DecisionDoc(d)) && ArtifactId(p.decisionArtifact) in t.evidence
            && Filed(s, p.authorityArtifact, AuthorityProvider, AuthorityDoc(u)) && ArtifactId(p.authorityArtifact) in t.evidence
            && d.card == s.ledger[1].payload.disposition.card && d.evidence == d.card.evidence && d.evidence <= t.evidence
            && u.actor == d.actor && u.mergeAllowed && u.issuedAt <= t.at < u.validUntil
            && (d.choice == Approve ==> t.to == Integrating && Name(OutcomeOf(s).report.value.id) in d.evidence)
            && (d.choice == RequestChanges ==> t.to == Repairing) && (d.choice == Reject ==> t.to == Cancelled) && d.choice != Unlisted
            && {Name(d.id), Name(u.id)} <= t.evidence && DocumentsAgree(s)
  {
    LoadedDecisionIsEvident(s);
    DocumentsOnFile(s);
    hide Assess, LoadDecisionGap, DocumentsAgree, IntentAndOutcomeOnFile, ArtifactsValid;
  }

  lemma LoadedDecisionIsEvident(s: State)
    requires Assess(s) == Recoverable(ResumeDecision)
    ensures |s.ledger| == 2 && StagesInOrder(s.ledger) && s.journal != [] && s.ledger[1].payload.disposition.Accepted?
    ensures LoadDecisionGap(s).Some? && LoadDecisionGap(s).value.DecisionApplied? && OutcomeOf(s).report.Some?
    ensures var p, t := LoadDecisionGap(s).value, s.journal[|s.journal| - 1];
            && p.transition == t && IntentAndOutcomeOnFile(s) && ArtifactsValid(s)
            && Filed(s, p.decisionArtifact, Person(p.decision.actor), DecisionDoc(p.decision))
            && Filed(s, p.authorityArtifact, AuthorityProvider, AuthorityDoc(p.authority))
            && TransitionApplies(s.ledger[1].payload.disposition.card, OutcomeOf(s).report.value, p.decision, p.authority,
                                 p.decisionArtifact, p.authorityArtifact, t)
  {
    ResumeDecisionShape(s);
    hide TransitionApplies, IntentAndOutcomeOnFile, ArtifactsValid, Select, Available;
  }

  /** An integration is recorded from the one result its transition cites, which Git attests. */
  lemma IntegrationIsEvident(s: State, c: Clock)
    requires Assess(s) == Recoverable(ResumeIntegration)
    ensures |s.ledger| == 3 && StagesInOrder(s.ledger) && |s.journal| >= 2 && OutcomeOf(s).patch.Some? && OutcomeOf(s).report.Some?
    ensures CompletedEvidence(s).Some? && CompletedEvidence(s).value < |s.artifacts|
    ensures s.artifacts[CompletedEvidence(s).value].content.IntegrationDoc?
    ensures var k, t := CompletedEvidence(s).value, s.journal[|s.journal| - 1];
            var result, q := s.artifacts[k].content.result, RequestOf(s);
            && RecoverWrites(s, c) == [Append(Record(Integrated(result, k, t), c.at))]
            && s.artifacts[k].producer == Integrator && ArtifactId(k) in t.evidence
            && t.from == Integrating && t.to == Completed && t.actor == Human(s.ledger[2].payload.decision.actor)
            && s.journal[|s.journal| - 2] == s.ledger[2].payload.transition && s.ledger[2].payload.decision.choice == Approve
            && {Name(s.ledger[2].payload.decision.id), Name(s.ledger[2].payload.authority.id), Name(OutcomeOf(s).report.value.id)} <= t.evidence
            && DocumentsAgree(s) && G.Addressed(s.git, q) && G.Sanctioned(s.git.head, q)
            && s.git.target == s.git.head == result.commit && s.git.workTree == s.git.head.tree
  {
    hide *;
    LoadedIntegrationIsEvident(s, c);
    var k := CompletedEvidence(s).value;
    DocumentsOnFile(s);
    CompletionMeans(s, k);
    G.AttestsIff(s.git, RequestOf(s), s.artifacts[k].content.result);
  }

  /** What the completed transition and Git must show before its record is written again. */
  lemma CompletionMeans(s: State, k: nat)
    requires IntegrationInputs(s).None? && s.journal != [] && k < |s.artifacts| && s.artifacts[k].content.IntegrationDoc?
    requires CompletionError(s, k).None?
    ensures OutcomeOf(s).patch.Some? && OutcomeOf(s).report.Some? && s.ledger[2].payload.decision.choice == Approve
    ensures var t := s.journal[|s.journal| - 1];
            && t.from == Integrating && t.to == Completed && t.actor == Human(s.ledger[2].payload.decision.actor)
            && {Name(s.ledger[2].payload.decision.id), Name(s.ledger[2].payload.authority.id), Name(OutcomeOf(s).report.value.id)} <= t.evidence
    ensures G.VerifyIn(s.git, RequestOf(s), s.artifacts[k].content.result).None?
  {
    hide G.VerifyIn, RequestOf;
  }

  lemma LoadedIntegrationIsEvident(s: State, c: Clock)
    requires Assess(s) == Recoverable(ResumeIntegration)
    ensures |s.ledger| == 3 && StagesInOrder(s.ledger) && |s.journal| >= 2 && IntegrationInputs(s).None?
    ensures CompletedEvidence(s).Some? && CompletedEvidence(s).value < |s.artifacts|
    ensures s.artifacts[CompletedEvidence(s).value].content.IntegrationDoc?
    ensures s.artifacts[CompletedEvidence(s).value].producer == Integrator
    ensures ArtifactId(CompletedEvidence(s).value) in s.journal[|s.journal| - 1].evidence
    ensures CompletionError(s, CompletedEvidence(s).value).None?
    ensures s.journal[|s.journal| - 2] == s.ledger[2].payload.transition && IntentAndOutcomeOnFile(s) && ArtifactsValid(s)
    ensures var k := CompletedEvidence(s).value;
            RecoverWrites(s, c) == [Append(Record(Integrated(s.artifacts[k].content.result, k, s.journal[|s.journal| - 1]), c.at))]
  {
    IntegrationChecked(s);
    CompletedIsCited(s);
    ResumesByIntegrating(s, c);
    RecordsAgain(s, c);
    hide *;
  }

  lemma IntegrationChecked(s: State)
    requires Assess(s) == Recoverable(ResumeIntegration)
    ensures |s.ledger| == 3 && StagesInOrder(s.ledger) && |s.journal| >= 2 && CurrentState(s.journal) == Completed
    ensures IntegrationInputs(s).None? && IntentAndOutcomeOnFile(s) && ArtifactsValid(s) && CompletedEvidence(s).Some?
    ensures CompletedEvidence(s).value < |s.artifacts| && s.artifacts[CompletedEvidence(s).value].content.IntegrationDoc?
    ensures CompletionError(s, CompletedEvidence(s).value).None?
    ensures s.journal[|s.journal| - 2] == s.ledger[2].payload.transition
  {
    ResumeIntegrationShape(s);
    CompletedIsCited(s);
    hide CompletionError, IntentAndOutcomeOnFile, ArtifactsValid, CompletedEvidence, IntegrationInputs, AssessUnrecorded, AssessDecision, Inspect, Available;
  }

  lemma ResumesByIntegrating(s: State, c: Clock)
    requires Assess(s) == Recoverable(ResumeIntegration)
    ensures RecoverWrites(s, c) == IntegrateSteps(s, c).writes
  {
    hide Assess, IntegrateSteps;
  }

  lemma RecordsAgain(s: State, c: Clock)
    requires IntegrationInputs(s).None? && s.journal != [] && CurrentState(s.journal) == Completed && CompletedEvidence(s).Some?
    requires CompletedEvidence(s).value < |s.artifacts| && s.artifacts[CompletedEvidence(s).value].content.IntegrationDoc?
    requires CompletionError(s, CompletedEvidence(s).value).None?
    ensures var k := CompletedEvidence(s).value;
            IntegrateSteps(s, c).writes == [Append(Record(Integrated(s.artifacts[k].content.result, k, s.journal[|s.journal| - 1]), c.at))]
  {
    hide CompletionError, CompletedEvidence, IntegrationInputs;
  }

  lemma CompletedIsCited(s: State)
    requires s.journal != []
    ensures CompletedEvidence(s).Some? ==>
              var k := CompletedEvidence(s).value;
              && k < |s.artifacts| && s.artifacts[k].content.IntegrationDoc? && s.artifacts[k].producer == Integrator
              && ArtifactId(k) in s.journal[|s.journal| - 1].evidence
  {
    SelectedAreCited(s.artifacts, IntegrationDocs, s.journal[|s.journal| - 1].evidence);
    hide Select, Available;
  }

  lemma {:induction false} SelectedAreCited(artifacts: seq<Artifact>, kind: Kind, cited: set<EvidenceId>)
    ensures forall k | k in Select(artifacts, kind, Some(cited)) :: ArtifactId(k) in cited
    decreases |artifacts|
  {
    if artifacts != [] {
      SelectedAreCited(artifacts[..|artifacts| - 1], kind, cited);
    }
  }

  /** A cleanup is recorded for an integrated run whose branch still stands at the commit. */
  lemma CleanupIsEvident(s: State, c: Clock)
    requires Assess(s) == Recoverable(ResumeCleanup)
    ensures |s.ledger| == 4 && StagesInOrder(s.ledger) && s.journal != [] && !s.workspace
    ensures var p := s.ledger[3].payload;
            && RecoverWrites(s, c) == [Append(Record(Cleaned(p.result.commit), c.at))]
            && s.journal[|s.journal| - 1] == p.transition && p.transition.to == Completed
            && s.git.tip == p.result.commit && DocumentsAgree(s)
            && p.artifact < |s.artifacts| && s.artifacts[p.artifact].content == IntegrationDoc(p.result)
  {
    ResumeCleanupShape(s);
    CleanupChecked(s);
    DocumentsOnFile(s);
    hide Assess, DocumentsAgree, IntentAndOutcomeOnFile, ArtifactsValid, AssessCleanup;
  }

  lemma CleanupChecked(s: State)
    requires Assess(s) == Recoverable(ResumeCleanup)
    ensures |s.ledger| == 4 && StagesInOrder(s.ledger) && s.directory && s.journal != [] && CurrentState(s.journal) == Completed
    ensures IntentAndOutcomeOnFile(s) && ArtifactsValid(s)
    ensures var p := s.ledger[3].payload;
            && Last(s.journal) == p.transition && p.transition.to == Completed && s.git.tip == p.result.commit
            && p.artifact < |s.artifacts| && s.artifacts[p.artifact].content == IntegrationDoc(p.result)
  {
    ResumeCleanupShape(s);
    hide IntentAndOutcomeOnFile, LoadExecutionGap, LoadDecisionGap, CompletedEvidence, CompletionError, IntegrationInputs;
  }
}
