/** The coordinator: the same calls as methods that change the stores one durable write at a time. */
module LocalRunCoordinators {
  import opened Outcomes
  import opened LocalRun
  import G = GitIntegration

  ghost predicate Leads(states: seq<State>, writes: seq<Write>) {
    && |states| == |writes| + 1
    && forall i | 0 <= i < |writes| :: states[i + 1] == Apply(states[i], writes[i])
  }

  lemma {:induction false} LeadsAfter(states: seq<State>, writes: seq<Write>, lo: nat, hi: nat)
    requires Leads(states, writes) && lo <= hi <= |writes|
    ensures states[hi] == After(states[lo], writes[lo..hi])
    decreases hi
  {
    if lo < hi {
      LeadsAfter(states, writes, lo, hi - 1);
      assert writes[lo..hi] == writes[lo..hi - 1] + [writes[hi - 1]];
      AfterOne(states[lo], writes[lo..hi - 1], writes[hi - 1]);
    }
  }

  lemma KernelPlans(journal: seq<Transition>, a: Attempt, n: nat)
    requires CurrentState(journal) == Draft
    ensures Decide(journal, Planned, System, None, None, {ArtifactId(n), ArtifactId(n + 2)}, a.at) == Ok(Planning(a, n))
  {
  }

  lemma KernelBegins(journal: seq<Transition>, a: Attempt, n: nat)
    requires CurrentState(journal) == Planned
    ensures Decide(journal, Implementing, a.actor, None, None, {ArtifactId(n + 1), Name(a.setup.workspace)}, a.at)
            == if a.actor.Agent? then Err(NotAuthorized) else Ok(LocalRun.Begin(a, n))
  {
  }

  lemma KernelStartsChecks(journal: seq<Transition>, a: Attempt, n: nat)
    requires CurrentState(journal) == Implementing
    ensures Decide(journal, Verifying, System, None, None, {ArtifactId(n + 3), ArtifactId(n + 6), ArtifactId(n + 2)}, a.at)
            == Ok(Checking(a, n))
  {
  }

  lemma KernelGivesVerdict(journal: seq<Transition>, a: Attempt, patch: G.Patch, n: nat)
    requires CurrentState(journal) == Verifying
    ensures Decide(journal, if a.passes then Reviewing else Repairing, System, Some(ReportOf(a, patch)), None,
                   {ArtifactId(n + 7 + a.checks), ArtifactId(n + 6)}, a.at) == Ok(Verdict(a, n))
  {
    assert {ArtifactId(n + 7 + a.checks), ArtifactId(n + 6)} + {Name(a.reportId)} == Verdict(a, n).evidence;
  }

  lemma KernelReviews(journal: seq<Transition>, i: ReviewInput, n: nat)
    requires CurrentState(journal) == Reviewing
    ensures !i.review.accepted ==>
              Decide(journal, Repairing, i.review.reviewer, None, None, {Name(i.review.id), ArtifactId(n)}, i.at)
              == Ok(ReviewTransition(i, n))
    ensures i.review.accepted ==>
              Decide(journal, MergeReview, i.review.reviewer, None, None,
                     {Name(i.review.id), ArtifactId(n), Name(i.cardId), ArtifactId(n + 1)}, i.at)
              == Ok(ReviewTransition(i, n))
  {
  }

  /**
   `written` lists the durable writes so far and `passed` the states they led through: a process
   that dies leaves one of those.
   */
  class LocalRunCoordinator {
    var directory: bool
    var artifacts: seq<Artifact>
    var journal: seq<Transition>
    var ledger: seq<Record>
    var card: CardFile
    var git: G.Repo
    var workspace: bool
    var agentStarts: nat
    ghost var written: seq<Write>
    ghost var passed: seq<State>

    constructor (s: State)
      ensures Valid() && State() == s && written == []
    {
      directory, artifacts, journal, ledger, card := s.directory, s.artifacts, s.journal, s.ledger, s.card;
      git, workspace, agentStarts := s.git, s.workspace, s.agentStarts;
      written, passed := [], [s];
    }

    function State(): State
      reads this
    {
      LocalRun.State(directory, artifacts, journal, ledger, card, git, workspace, agentStarts)
    }

    ghost predicate Valid()
      reads this
    {
      Leads(passed, written) && passed[|written|] == State()
    }

    /** The stores moved by exactly these writes, in this order. */
    twostate predicate Wrote(writes: seq<Write>)
      reads this
    {
      Valid() && written == old(written) + writes && old(passed) <= passed
    }

    twostate lemma WritesAdvance(writes: seq<Write>)
      requires old(Valid()) && Wrote(writes)
      ensures State() == After(old(State()), writes)
    {
      LeadsAfter(passed, written, |old(written)|, |written|);
      assert written[|old(written)|..|written|] == writes;
    }

    twostate lemma RegistryGrows(writes: seq<Write>)
      requires old(Valid()) && Wrote(writes)
      ensures artifacts == old(artifacts) + Registered(writes)
    {
      WritesAdvance(writes);
      RegistryAfter(old(State()), writes);
    }

    // ---- the durable writes ---------------------------------------------------------------

    method MakeDirectory()
      requires Valid()
      modifies this`directory, this`written, this`passed
      ensures Wrote([Write.MakeDirectory]) && directory
    {
      directory := true;
      written := written + [Write.MakeDirectory];
      passed := passed + [State()];
    }

    method RegisterArtifact(producer: Producer, content: Content) returns (id: nat)
      requires Valid()
      modifies this`artifacts, this`written, this`passed
      ensures Wrote([Register(Artifact(producer, content))])
      ensures id == |old(artifacts)| && artifacts == old(artifacts) + [Artifact(producer, content)]
    {
      id := |artifacts|;
      artifacts := artifacts + [Artifact(producer, content)];
      written := written + [Register(Artifact(producer, content))];
      passed := passed + [State()];
    }

    method AddWorktree(base: G.Commit, branch: string)
      requires Valid()
      modifies this`git, this`workspace, this`written, this`passed
      ensures Wrote([Write.AddWorktree(base, branch)])
    {
      workspace, git := true, git.(checkedOut := branch, head := base, workTree := base.tree, tip := base);
      written := written + [Write.AddWorktree(base, branch)];
      passed := passed + [State()];
    }

    method EditWorktree(tree: G.Tree)
      requires Valid()
      modifies this`git, this`written, this`passed
      ensures Wrote([Edit(tree)]) && git == old(git).(workTree := tree)
    {
      git := git.(workTree := tree);
      written := written + [Edit(tree)];
      passed := passed + [State()];
    }

    method RunGit(after: G.Repo)
      requires Valid()
      modifies this`git, this`written, this`passed
      ensures Wrote([Git(after)]) && git == after
    {
      git := after;
      written := written + [Git(after)];
      passed := passed + [State()];
    }

    method StartAgent()
      requires Valid()
      modifies this`agentStarts, this`written, this`passed
      ensures Wrote([Write.StartAgent])
    {
      agentStarts := agentStarts + 1;
      written := written + [Write.StartAgent];
      passed := passed + [State()];
    }

    method AppendRecord(payload: Payload, at: int)
      requires Valid()
      modifies this`ledger, this`written, this`passed
      ensures Wrote([Append(Record(payload, at))])
    {
      ledger := ledger + [Record(payload, at)];
      written := written + [Append(Record(payload, at))];
      passed := passed + [State()];
    }

    /** The file is created exclusively, then written. */
    method CreateCard(c: Card) returns (ok: bool)
      requires Valid()
      modifies this`card, this`written, this`passed
      ensures ok <==> old(card) == NoCard
      ensures Wrote(if ok then [OpenCard, FillCard(c)] else [])
    {
      ok := card == NoCard;
      if ok {
        card := TornCard;
        written := written + [OpenCard];
        passed := passed + [State()];
        card := CardOnFile(c);
        written := written + [FillCard(c)];
        passed := passed + [State()];
      }
    }

    method RemoveWorktree()
      requires Valid()
      modifies this`workspace, this`written, this`passed
      ensures Wrote([Write.RemoveWorktree])
    {
      workspace := false;
      written := written + [Write.RemoveWorktree];
      passed := passed + [State()];
    }

    method AppendTransition(t: Transition)
      requires Valid()
      modifies this`journal, this`written, this`passed
      ensures Wrote([Transit(t)]) && journal == old(journal) + [t]
    {
      journal := journal + [t];
      written := written + [Transit(t)];
      passed := passed + [State()];
    }

    /** WorkflowKernel.transition: checks the command against the journal, then appends it. */
    method Advance(to: TaskState, actor: Actor, report: Option<Report>, result: Option<G.Evidence>,
                   evidence: set<EvidenceId>, at: int) returns (t: Result<Transition, Error>)
      requires Valid()
      modifies this`journal, this`written, this`passed
      ensures t == Decide(old(journal), to, actor, report, result, evidence, at)
      ensures t.Ok? ==> Wrote([Transit(t.value)]) && journal == old(journal) + [t.value]
      ensures t.Err? ==> Wrote([]) && journal == old(journal)
    {
      t := Decide(journal, to, actor, report, result, evidence, at);
      if t.Ok? {
        AppendTransition(t.value);
      }
    }

    // ---- execute --------------------------------------------------------------------------

    method RunChecks(count: nat)
      requires Valid()
      modifies this`artifacts, this`written, this`passed
      ensures Wrote(CheckWrites(count)) && |artifacts| == |old(artifacts)| + count
    {
      var k := 0;
      while k < count
        invariant 0 <= k <= count
        invariant Wrote(CheckWrites(k)) && |artifacts| == |old(artifacts)| + k
      {
        var _ := RegisterArtifact(Engine, CommandResult);
        k := k + 1;
      }
    }

    method Fail(a: Attempt, evidence: set<EvidenceId>)
      requires Valid() && CurrentState(journal) == Implementing
      modifies this`artifacts, this`journal, this`written, this`passed
      ensures Wrote([Register(Artifact(Controller, Failure)),
                     Transit(Failing(a, evidence + {ArtifactId(|old(artifacts)|)}))])
    {
      var failure := RegisterArtifact(Controller, Failure);
      var _ := Advance(Failed, System, None, None, evidence + {ArtifactId(failure)}, a.at);
    }

    method StartChecks(a: Attempt, profile: nat, run: nat, patchText: nat)
      requires Valid() && CurrentState(journal) == Implementing && run == profile + 1 && patchText == profile + 4 && profile >= 2
      modifies this`journal, this`git, this`written, this`passed
      ensures Wrote([Transit(Checking(a, profile - 2)), Edit(a.checked)]) && CurrentState(journal) == Verifying
    {
      KernelStartsChecks(journal, a, profile - 2);
      var _ := Advance(Verifying, System, None, None, {ArtifactId(run), ArtifactId(patchText), ArtifactId(profile)}, a.at);
      EditWorktree(a.checked);
    }

    method GiveVerdict(a: Attempt, patch: G.Patch, patchText: nat) returns (verification: nat)
      requires Valid() && CurrentState(journal) == Verifying && |artifacts| == patchText + 1 + a.checks && patchText >= 6
      modifies this`artifacts, this`journal, this`written, this`passed
      ensures verification == |old(artifacts)|
      ensures Wrote([Register(Artifact(Engine, VerificationDoc(ReportOf(a, patch)))), Transit(Verdict(a, patchText - 6))])
    {
      var report := ReportOf(a, patch);
      verification := RegisterArtifact(Engine, VerificationDoc(report));
      KernelGivesVerdict(journal, a, patch, patchText - 6);
      var _ := Advance(if report.passes then Reviewing else Repairing, System, Some(report), None,
                       {ArtifactId(verification), ArtifactId(patchText)}, a.at);
    }

    /** `n` artifacts were on file when the controller started. */
    method VerifyPatch(a: Attempt, patch: G.Patch, n: nat) returns (o: Outcome)
      requires Valid() && CurrentState(journal) == Implementing && |artifacts| == n + 7
      modifies this`artifacts, this`journal, this`git, this`written, this`passed
      ensures Wrote(VerifySteps(a, patch, n).writes) && Ok(o) == VerifySteps(a, patch, n).result
    {
      hide Leads, UpTo, ReportOf, Checking, Verdict, CheckWrites;
      StartChecks(a, n + 2, n + 3, n + 6);
      RunChecks(a.checks);
      var verification := GiveVerdict(a, patch, n + 6);
      o := Outcome(if a.passes then Reviewing else Repairing, Some(patch), Some(n + 6), Some(ReportOf(a, patch)),
                   UpTo(n, 7) + {verification});
    }

    method CollectResults() returns (run: nat)
      requires Valid()
      modifies this`artifacts, this`written, this`passed
      ensures Wrote(Results()) && run == |old(artifacts)| && |artifacts| == run + 3
    {
      run := RegisterArtifact(Controller, AgentRunResult);
      var _ := RegisterArtifact(Executor, RawEvents);
      var _ := RegisterArtifact(Executor, Stderr);
    }

    method AdmitPatch(a: Attempt, patch: G.Patch, n: nat, run: nat) returns (o: Outcome)
      requires Valid() && CurrentState(journal) == Implementing && |artifacts| == n + 6 && run == n + 3
      modifies this`artifacts, this`journal, this`git, this`written, this`passed
      ensures Wrote(PatchSteps(a, patch, n).writes) && Ok(o) == PatchSteps(a, patch, n).result
    {
      var patchText := RegisterArtifact(Controller, PatchText(patch));
      if patch == map[] {
        Fail(a, {ArtifactId(run), ArtifactId(patchText)});
        return Outcome(Failed, Some(patch), Some(patchText), None, UpTo(n, 8));
      }
      o := VerifyPatch(a, patch, n);
    }

    /** From the agent's end on, with `n + 3` artifacts on file. */
    method FinishRun(a: Attempt, n: nat) returns (r: Result<Outcome, Error>)
      requires Valid() && CurrentState(journal) == Implementing && |artifacts| == n + 3
      modifies this`artifacts, this`journal, this`git, this`written, this`passed
      ensures Wrote(EndSteps(a, n).writes) && r == EndSteps(a, n).result
    {
      hide Leads, UpTo, PatchSteps, G.Diff;
      if a.end == LifecycleError {
        Fail(a, {});
        return Err(AgentLifecycle);
      }
      var run := CollectResults();
      var patch := G.Diff(a.setup.base.tree, a.edited);
      if a.end == Unusable || !(patch.Keys <= a.setup.allowed) {
        Fail(a, {ArtifactId(run)});
        return Ok(Outcome(Failed, None, None, None, UpTo(n, 7)));
      }
      var o := AdmitPatch(a, patch, n, run);
      return Ok(o);
    }

    method Prepare()
      requires Valid()
      modifies this`artifacts, this`written, this`passed
      ensures Wrote(Prepared()) && |artifacts| == |old(artifacts)| + 3
    {
      var _ := RegisterArtifact(Controller, TaskSpecification);
      var _ := RegisterArtifact(Controller, ExecutionAuthorization);
      var _ := RegisterArtifact(Controller, ValidationProfile);
    }

    method PlanTask(a: Attempt, n: nat)
      requires Valid() && CurrentState(journal) == Draft
      modifies this`git, this`workspace, this`journal, this`written, this`passed
      ensures Wrote(PlanWrites(a, n)) && CurrentState(journal) == Planned
    {
      AddWorktree(a.setup.base, a.setup.branch);
      KernelPlans(journal, a, n);
      var _ := Advance(Planned, System, None, None, {ArtifactId(n), ArtifactId(n + 2)}, a.at);
    }

    method Launch(a: Attempt, n: nat) returns (ok: bool)
      requires Valid() && CurrentState(journal) == Planned
      modifies this`git, this`journal, this`agentStarts, this`written, this`passed
      ensures ok <==> !a.actor.Agent?
      ensures Wrote(if ok then LaunchWrites(a, n) else [])
      ensures ok ==> CurrentState(journal) == Implementing
    {
      KernelBegins(journal, a, n);
      var begun := Advance(Implementing, a.actor, None, None, {ArtifactId(n + 1), Name(a.setup.workspace)}, a.at);
      ok := begun.Ok?;
      if ok {
        StartAgent();
        EditWorktree(a.edited);
      }
    }

    method Start(a: Attempt) returns (r: Result<(), Error>)
      requires Valid() && CurrentState(journal) == Draft
      modifies this`git, this`workspace, this`journal, this`artifacts, this`agentStarts, this`written, this`passed
      ensures Wrote(StartSteps(a, |old(artifacts)|).writes) && r == StartSteps(a, |old(artifacts)|).result
      ensures r.Ok? ==> CurrentState(journal) == Implementing && |artifacts| == |old(artifacts)| + 3
    {
      hide Leads, Planning, Begin;
      var n := |artifacts|;
      if !a.authorized {
        return Err(NotAuthorized);
      }
      Prepare();
      if !a.workspaceFree {
        return Err(WorkspaceExists);
      }
      PlanTask(a, n);
      var started := Launch(a, n);
      if !started {
        return Err(NotAuthorized);
      }
      return Ok(());
    }

    /** TaskExecutionController.execute_implementation */
    method Implement(a: Attempt) returns (r: Result<Outcome, Error>)
      requires Valid() && CurrentState(journal) == Draft
      modifies this`git, this`workspace, this`journal, this`artifacts, this`agentStarts, this`written, this`passed
      ensures Wrote(ImplementSteps(a, |old(artifacts)|).writes) && r == ImplementSteps(a, |old(artifacts)|).result
    {
      hide EndSteps;
      var n := |artifacts|;
      var started := Start(a);
      if started.Err? {
        return Err(started.error);
      }
      r := FinishRun(a, n);
    }

    method RecordIntent(a: Attempt) returns (intent: nat)
      requires Valid()
      modifies this`directory, this`artifacts, this`written, this`passed
      ensures Wrote(Begun(a))
      ensures intent == |old(artifacts)| && |artifacts| == intent + 1
    {
      MakeDirectory();
      intent := RegisterArtifact(Coordinator, IntentDoc(a.setup));
    }

    method Complete(a: Attempt, intent: nat) returns (r: Result<Payload, Error>)
      requires Valid() && CurrentState(journal) == Draft && |artifacts| == intent + 1
      modifies this`git, this`workspace, this`journal, this`artifacts, this`agentStarts, this`written, this`passed
      ensures Wrote(CompleteSteps(a, intent).writes) && r == CompleteSteps(a, intent).result
    {
      hide ImplementSteps;
      var o := Implement(a);
      RegistryGrows(ImplementSteps(a, intent + 1).writes);
      if o.Err? {
        return Err(o.error);
      }
      var outcome := RegisterArtifact(Coordinator, OutcomeDoc(o.value));
      return Ok(Execution(a.setup, o.value, intent, outcome));
    }

    method RunAttempt(a: Attempt, intent: nat) returns (r: Result<(), Error>)
      requires Valid() && CurrentState(journal) == Draft && |artifacts| == intent + 1
      modifies this
      ensures Wrote(Recording(CompleteSteps(a, intent), a.at).writes)
      ensures r == Recording(CompleteSteps(a, intent), a.at).result
    {
      var payload := Complete(a, intent);
      if payload.Err? {
        return Err(payload.error);
      }
      AppendRecord(payload.value, a.at);
      return Ok(());
    }

    method OpenRun(a: Attempt) returns (r: Result<nat, Error>)
      requires Valid()
      modifies this`directory, this`artifacts, this`written, this`passed
      ensures Wrote(OpenSteps(old(State()), a).writes)
      ensures r == match OpenSteps(old(State()), a).result case Err(e) => Err(e) case Ok(_) => Ok(|old(artifacts)|)
      ensures r.Ok? ==> CurrentState(journal) == Draft && |artifacts| == r.value + 1
    {
      if !a.admitted {
        return Err(NotAdmitted);
      }
      if directory {
        return Err(DirectoryExists);
      }
      var intent := RecordIntent(a);
      if CurrentState(journal) != Draft {
        return Err(NotAuthorized);
      }
      return Ok(intent);
    }

    method Execute(a: Attempt) returns (e: Option<Error>)
      requires Valid()
      modifies this
      ensures Wrote(ExecuteSteps(old(State()), a).writes) && e == Answer(ExecuteSteps(old(State()), a).result, State())
    {
      hide CompleteSteps, Inspect;
      ghost var attempt := Recording(CompleteSteps(a, |artifacts|), a.at);
      var intent := OpenRun(a);
      if intent.Err? {
        return Some(intent.error);
      }
      var r := RunAttempt(a, intent.value);
      assert written == old(written) + (Begun(a) + attempt.writes);
      e := Answer(r, State());
    }

    // ---- review ---------------------------------------------------------------------------

    /** TaskExecutionController.prepare_merge_review */
    method PrepareMergeReview(o: Outcome, i: ReviewInput) returns (d: Disposition)
      requires Valid() && Reviewable(o) && CurrentState(journal) == Reviewing
      modifies this`artifacts, this`journal, this`written, this`passed
      ensures Wrote(PrepareWrites(o, i, |old(artifacts)|)) && d == DispositionFor(o, i, |old(artifacts)|)
    {
      var report := RegisterArtifact(Person(NameOf(i.review.reviewer)), ReviewDoc(i.review));
      KernelReviews(journal, i, report);
      if i.review.accepted {
        d := AcceptReview(o, i, report);
      } else {
        var _ := Advance(Repairing, i.review.reviewer, None, None, {Name(i.review.id), ArtifactId(report)}, i.at);
        d := ChangesRequested(report);
      }
    }

    method AcceptReview(o: Outcome, i: ReviewInput, report: nat) returns (d: Disposition)
      requires Valid() && Reviewable(o) && CurrentState(journal) == Reviewing && i.review.accepted && |artifacts| == report + 1
      modifies this`artifacts, this`journal, this`written, this`passed
      ensures Wrote([Register(Artifact(Controller, CardDoc(CardFor(o, i)))), Transit(ReviewTransition(i, report))])
      ensures d == DispositionFor(o, i, report)
    {
      var c := CardFor(o, i);
      var cardArtifact := RegisterArtifact(Controller, CardDoc(c));
      KernelReviews(journal, i, report);
      var _ := Advance(MergeReview, i.review.reviewer, None, None,
                       {Name(i.review.id), ArtifactId(report), Name(i.cardId), ArtifactId(cardArtifact)}, i.at);
      d := Accepted(c, report, cardArtifact);
    }

    method Review(i: ReviewInput) returns (e: Option<Error>)
      requires Valid()
      modifies this`artifacts, this`journal, this`ledger, this`card, this`written, this`passed
      ensures Wrote(ReviewSteps(old(State()), i).writes) && e == Answer(ReviewSteps(old(State()), i).result, State())
    {
      hide Inspect, PrepareWrites, CardFor;
      e := ReviewChecks(State(), i);
      if e.Some? {
        return;
      }
      var d := PrepareMergeReview(OutcomeOf(State()), i);
      AppendRecord(Reviewed(i.review, d), i.at);
      if d.Accepted? {
        var ok := CreateCard(d.card);
        if !ok {
          return Some(Disagreement);
        }
      }
      e := Inspect(State());
    }

    // ---- apply_decision -------------------------------------------------------------------

    /** DecisionApplicationService.apply */
    method ApplyToWorkflow(c: Card, report: Report, d: Decision, a: Authority, da: nat, aa: nat, now: int, at: int)
      returns (t: Result<Transition, Error>)
      requires Valid()
      modifies this`journal, this`written, this`passed
      ensures t == DecisionTransition(old(journal), c, report, d, a, da, aa, now, at)
      ensures Wrote(if t.Ok? then [Transit(t.value)] else [])
    {
      var e := BindingError(c, d, a, now);
      if e.Some? {
        return Err(e.value);
      }
      if CurrentState(journal) != MergeReview {
        return Err(WrongState);
      }
      if d.choice == Approve && Name(report.id) !in d.evidence {
        return Err(BadEvidence);
      }
      t := Advance(TargetOf(d.choice), Human(d.actor), Some(report), None, DecisionEvidence(c, d, a, da, aa), at);
    }

    method FileDecision(c: Card, report: Report, d: Decision, a: Authority, now: int, at: int) returns (r: Result<Payload, Error>)
      requires Valid()
      modifies this`artifacts, this`journal, this`written, this`passed
      ensures Wrote(DecideSteps(c, report, old(journal), |old(artifacts)|, d, a, now, at).writes)
      ensures r == DecideSteps(c, report, old(journal), |old(artifacts)|, d, a, now, at).result
    {
      hide Leads, DecisionTransition;
      var da := RegisterArtifact(Person(d.actor), DecisionDoc(d));
      var aa := RegisterArtifact(AuthorityProvider, AuthorityDoc(a));
      var t := ApplyToWorkflow(c, report, d, a, da, aa, now, at);
      if t.Err? {
        return Err(t.error);
      }
      return Ok(DecisionApplied(d, a, da, aa, t.value));
    }

    method ApplyDecision(i: DecisionInput) returns (e: Option<Error>)
      requires Valid()
      modifies this`artifacts, this`journal, this`ledger, this`written, this`passed
      ensures Wrote(ApplyDecisionSteps(old(State()), i).writes)
      ensures e == Answer(ApplyDecisionSteps(old(State()), i).result, State())
    {
      e := DecisionChecks(State(), i);
      if e.Some? {
        return;
      }
      var payload := FileDecision(ledger[1].payload.disposition.card, OutcomeOf(State()).report.value,
                                  i.decision.value, i.authority.value, i.now, i.at);
      if payload.Err? {
        return Some(payload.error);
      }
      AppendRecord(payload.value, i.at);
      e := Inspect(State());
    }

    // ---- integrate ------------------------------------------------------------------------

    method FileIntegration(result: G.Evidence, at: int) returns (r: Result<Payload, Error>)
      requires Valid() && IntegrationInputs(State()).None?
      modifies this`artifacts, this`journal, this`written, this`passed
      ensures Wrote(CompleteIntegration(old(State()), result, at).writes)
      ensures r == CompleteIntegration(old(State()), result, at).result
    {
      hide Leads, Decide;
      var cited := CompletionEvidence(State(), |artifacts|);
      var actor, report := Human(ledger[2].payload.decision.actor), OutcomeOf(State()).report;
      var art := RegisterArtifact(Integrator, IntegrationDoc(result));
      var t := Advance(Completed, actor, report, Some(result), cited, at);
      if t.Err? {
        return Err(t.error);
      }
      return Ok(Integrated(result, art, t.value));
    }

    /** The integrator's Git commands, in its order. */
    method MoveGit(q: G.Request, stamp: int) returns (r: Result<G.Evidence, Error>)
      requires Valid()
      modifies this`git, this`written, this`passed
      ensures Wrote(GitSteps(old(git), q, stamp).writes) && r == GitSteps(old(git), q, stamp).result
    {
      hide G.CommitPhase, G.MergePhase;
      var (committed, e) := G.CommitPhase(git, q, stamp);
      RunGit(committed);
      if e.Some? {
        return Err(Refused(e.value));
      }
      var (merged, result) := G.MergePhase(git, q);
      RunGit(merged);
      if result.Err? {
        return Err(Refused(result.error));
      }
      return Ok(result.value);
    }

    method IntegrateSource(c: Clock) returns (r: Result<Payload, Error>)
      requires Valid() && IntegrationInputs(State()).None?
      modifies this`git, this`artifacts, this`journal, this`written, this`passed
      ensures Wrote(IntegrateFresh(old(State()), c).writes) && r == IntegrateFresh(old(State()), c).result
    {
      hide G.CommitPhase, G.MergePhase, GitSteps, CompleteIntegration;
      var result := MoveGit(RequestOf(State()), c.commitStamp);
      if result.Err? {
        return Err(result.error);
      }
      SameCompletion(old(State()), State(), result.value, c.at);
      r := FileIntegration(result.value, c.at);
    }

    method Integrate(c: Clock) returns (e: Option<Error>)
      requires Valid()
      modifies this
      ensures Wrote(IntegrateSteps(old(State()), c).writes) && e == Answer(IntegrateSteps(old(State()), c).result, State())
    {
      hide IntegrateFresh, Inspect, IntegrationInputs;
      e := IntegrationInputs(State());
      if e.Some? {
        return;
      }
      var payload: Result<Payload, Error>;
      if CurrentState(journal) == Integrating {
        payload := IntegrateSource(c);
      } else if CurrentState(journal) == Completed {
        payload := IntegrateAgain(State()).result;
      } else {
        return Some(WrongState);
      }
      if payload.Err? {
        return Some(payload.error);
      }
      AppendRecord(payload.value, c.at);
      e := Inspect(State());
    }

    // ---- cleanup --------------------------------------------------------------------------

    method Cleanup(at: int) returns (e: Option<Error>)
      requires Valid()
      modifies this`workspace, this`ledger, this`written, this`passed
      ensures Wrote(CleanupSteps(old(State()), at).writes) && e == Answer(CleanupSteps(old(State()), at).result, State())
    {
      e := Awaiting(State(), 4);
      if e.Some? {
        return;
      }
      if CurrentState(journal) != Completed {
        return Some(WrongState);
      }
      if workspace {
        e := RemovalError(State(), SetupOf(State()));
        if e.Some? {
          return;
        }
        RemoveWorktree();
      }
      if git.tip != ledger[3].payload.result.commit {
        return Some(BranchDrifted);
      }
      AppendRecord(Cleaned(ledger[3].payload.result.commit), at);
      e := Inspect(State());
    }
  }
}
