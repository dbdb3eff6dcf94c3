/** Which ways a run can take through the task states, and what each recorded decision leads to. */
module RunRoutes {
  import opened Outcomes
  import opened LocalRun
  import opened Recovery
  import opened RunInvariant
  import opened RunCalls
  import opened RunRecovery
  import opened RunTheorems
  import G = GitIntegration

  // ---- the kernel, whoever asks -----------------------------------------------------------

  predicate IsPerson(actor: Actor) {
    actor.Human? || actor.Policy?
  }

  /** The last four transitions of a completed task, whatever calls made them: verified, reviewed, approved, integrated. */
  lemma CompletedWasApprovedAndReviewed(journal: seq<Transition>)
    requires Legal(journal) && CurrentState(journal) == Completed
    ensures |journal| >= 4
    ensures var n := |journal|;
            && journal[n - 1].from == Integrating && IsPerson(journal[n - 1].actor)
            && journal[n - 2].from == MergeReview && journal[n - 2].to == Integrating && IsPerson(journal[n - 2].actor)
            && journal[n - 3].from == Reviewing && journal[n - 3].to == MergeReview
            && journal[n - 4].from == Verifying && journal[n - 4].to == Reviewing
  {
    var n := |journal|;
    assert LegalAt(journal, n - 1);
    OnlyWayInto(journal, n - 1);
    OnlyWayInto(journal, n - 2);
    OnlyWayInto(journal, n - 3);
    OnlyWayInto(journal, n - 4);
    hide Legal, LegalAt;
  }

  /** The states that only one transition leads to, and who may make it. */
  lemma OnlyWayInto(journal: seq<Transition>, k: int)
    requires Legal(journal) && 0 <= k < |journal|
    ensures var t := journal[k];
            && (t.to == Completed ==> t.from == Integrating && IsPerson(t.actor))
            && (t.to == Integrating ==> t.from == MergeReview && IsPerson(t.actor))
            && (t.to == MergeReview ==> t.from == Reviewing) && (t.to == Reviewing ==> t.from == Verifying)
            && (t.from in {Integrating, MergeReview, Reviewing, Verifying} ==> k > 0 && journal[k - 1].to == t.from)
  {
    assert LegalAt(journal, k);
    hide Legal;
  }

  /** Nothing follows an end, and nobody is implementing on an agent's own word. */
  lemma EndsAreFinal(journal: seq<Transition>, k: nat)
    requires Legal(journal) && k < |journal|
    ensures journal[k].to in {Completed, Cancelled, GateApproved, DeliverableAccepted} ==> k == |journal| - 1 && IsPerson(journal[k].actor)
    ensures journal[k].to == Implementing ==> !journal[k].actor.Agent?
  {
    assert LegalAt(journal, k);
    if k + 1 < |journal| {
      assert LegalAt(journal, k + 1);
    }
  }

  /** Every step of the workflow, as pairs. */
  function WorkflowSteps(): set<(TaskState, TaskState)> {
    {(Draft, Planned), (Planned, PlanReview), (Planned, Implementing),
     (PlanReview, Planned), (PlanReview, Implementing), (PlanReview, Cancelled), (PlanReview, GateApproved),
     (Implementing, Verifying), (Implementing, Blocked), (Implementing, Failed),
     (Blocked, Implementing), (Blocked, Cancelled), (Failed, Implementing), (Failed, Cancelled),
     (Verifying, Repairing), (Verifying, Reviewing), (Repairing, Verifying),
     (Reviewing, Repairing), (Reviewing, MergeReview), (Reviewing, DeliverableAccepted),
     (MergeReview, Repairing), (MergeReview, Integrating), (MergeReview, Cancelled),
     (Integrating, Completed), (Integrating, Cancelled)}
  }

  lemma StepsAreAllowed(from: TaskState, to: TaskState)
    ensures Allowed(from, to) <==> (from, to) in WorkflowSteps()
  {
  }

  /** When a human or a policy must act. */
  predicate PersonMustAct(from: TaskState, to: TaskState) {
    from in {PlanReview, MergeReview} || to in {Completed, Cancelled, GateApproved, DeliverableAccepted}
  }

  /**
   The kernel's decision on any request: an allowed step by someone who may take it, with a passing report
   wherever work is accepted, a failing one for repair, and for completion the integration of the same patch.
   */
  lemma KernelDecidesIff(journal: seq<Transition>, to: TaskState, actor: Actor, report: Option<Report>,
                         result: Option<G.Evidence>, evidence: set<EvidenceId>, at: int)
    ensures var from := CurrentState(journal);
            Decide(journal, to, actor, report, result, evidence, at).Ok? <==>
            && (from, to) in WorkflowSteps()
            && (PersonMustAct(from, to) ==> IsPerson(actor)) && (to == Implementing ==> !actor.Agent?)
            && (to in {DeliverableAccepted, GateApproved} ==> evidence != {})
            && (to in {Reviewing, Integrating, Completed, DeliverableAccepted} ==> report.Some? && report.value.passes)
            && (to == Completed ==> result.Some? && result.value.patch == report.value.patch)
            && (from == Verifying && to == Repairing ==> report.Some? && !report.value.passes)
    ensures var r := Decide(journal, to, actor, report, result, evidence, at);
            r.Ok? ==>
              && r.value.from == CurrentState(journal) && r.value.to == to && r.value.actor == actor && r.value.at == at
              && evidence <= r.value.evidence
              && (to in {Reviewing, Integrating, Completed, DeliverableAccepted} || (r.value.from == Verifying && to == Repairing) ==>
                    Name(report.value.id) in r.value.evidence)
              && (to == Completed ==> IntegrationId(result.value.task, result.value.targetRef, result.value.commit) in r.value.evidence)
  {
    StepsAreAllowed(CurrentState(journal), to);
    hide Allowed, WorkflowSteps;
    assert to == Completed && Allowed(CurrentState(journal), to) ==> CurrentState(journal) == Integrating by {
      CompletedFromIntegrating(CurrentState(journal));
    }
  }

  lemma CompletedFromIntegrating(from: TaskState)
    ensures Allowed(from, Completed) ==> from == Integrating
  {
  }

  // ---- the ways of a local run ------------------------------------------------------------

  function States(journal: seq<Transition>): seq<TaskState> {
    if journal == [] then [] else States(journal[..|journal| - 1]) + [journal[|journal| - 1].to]
  }

  /** Every way there is, to its end. */
  ghost predicate Way(way: seq<TaskState>) {
    || way == [Planned, Implementing, Failed]
    || way == [Planned, Implementing, Verifying, Repairing]
    || way == [Planned, Implementing, Verifying, Reviewing, Repairing]
    || way == [Planned, Implementing, Verifying, Reviewing, MergeReview, Repairing]
    || way == [Planned, Implementing, Verifying, Reviewing, MergeReview, Cancelled]
    || way == [Planned, Implementing, Verifying, Reviewing, MergeReview, Integrating, Completed]
  }

  ghost predicate OnTheWay(states: seq<TaskState>) {
    exists way :: Way(way) && states <= way
  }

  function ToStates(writes: seq<Write>): seq<TaskState> {
    if writes == [] then []
    else
      var rest, x := ToStates(writes[..|writes| - 1]), writes[|writes| - 1];
      if x.Transit? then rest + [x.transition.to] else rest
  }

  lemma {:induction false} ToStatesConcat(a: seq<Write>, b: seq<Write>)
    ensures ToStates(a + b) == ToStates(a) + ToStates(b)
    decreases |b|
  {
    if b == [] {
      assert a + b == a;
    } else {
      ToStatesConcat(a, b[..|b| - 1]);
      assert (a + b)[..|a + b| - 1] == a + b[..|b| - 1];
    }
  }

  lemma {:induction false} StatesAfter(s: State, writes: seq<Write>)
    ensures States(After(s, writes).journal) == States(s.journal) + ToStates(writes)
    decreases |writes|
  {
    if writes != [] {
      var x := writes[|writes| - 1];
      StatesAfter(s, writes[..|writes| - 1]);
      if x.Transit? {
        var j := After(s, writes[..|writes| - 1]).journal;
        assert (j + [x.transition])[..|j|] == j;
      }
    }
  }

  lemma OneState(x: Write)
    ensures ToStates([x]) == if x.Transit? then [x.transition.to] else []
  {
    assert [x][..0] == [];
  }

  lemma TwoStates(x: Write, y: Write)
    ensures ToStates([x, y]) == ToStates([x]) + ToStates([y])
  {
    ToStatesConcat([x], [y]);
    assert [x] + [y] == [x, y];
  }

  lemma ThreeStates(x: Write, y: Write, z: Write)
    ensures ToStates([x, y, z]) == ToStates([x]) + ToStates([y]) + ToStates([z])
  {
    TwoStates(x, y);
    ToStatesConcat([x, y], [z]);
    assert [x, y] + [z] == [x, y, z];
  }

  lemma {:induction false} ChecksAddNone(count: nat)
    ensures ToStates(CheckWrites(count)) == []
  {
    if count > 0 {
      ChecksAddNone(count - 1);
      var x := Register(Artifact(Engine, CommandResult));
      ToStatesConcat(CheckWrites(count - 1), [x]);
      OneState(x);
    }
  }

  lemma VerifyStates(a: Attempt, patch: G.Patch, n: nat)
    ensures ToStates(VerifySteps(a, patch, n).writes) == [Verifying, if a.passes then Reviewing else Repairing]
  {
    var started := [Transit(Checking(a, n)), Edit(a.checked)];
    var finished := [Register(Artifact(Engine, VerificationDoc(ReportOf(a, patch)))), Transit(Verdict(a, n))];
    OneState(started[0]);
    OneState(started[1]);
    OneState(finished[0]);
    OneState(finished[1]);
    TwoStates(started[0], started[1]);
    TwoStates(finished[0], finished[1]);
    ChecksAddNone(a.checks);
    ToStatesConcat(started, CheckWrites(a.checks));
    ToStatesConcat(started + CheckWrites(a.checks), finished);
    hide CheckWrites, ToStates;
  }

  predicate AfterTheAgent(states: seq<TaskState>) {
    states == [Failed] || states == [Verifying, Reviewing] || states == [Verifying, Repairing]
  }

  lemma FailureStates(x: Write, t: Transition)
    requires x.Register? && t.to == Failed
    ensures ToStates([x, Transit(t)]) == [Failed]
  {
    OneState(x);
    OneState(Transit(t));
    TwoStates(x, Transit(t));
  }

  lemma PatchStates(a: Attempt, patch: G.Patch, n: nat)
    ensures AfterTheAgent(ToStates(PatchSteps(a, patch, n).writes))
  {
    var filed := Register(Artifact(Controller, PatchText(patch)));
    OneState(filed);
    if patch == map[] {
      var failing := Failing(a, {ArtifactId(n + 3), ArtifactId(n + 6)} + {ArtifactId(n + 7)});
      FailureStates(Register(Artifact(Controller, Failure)), failing);
      ToStatesConcat([filed], [Register(Artifact(Controller, Failure)), Transit(failing)]);
    } else {
      VerifyStates(a, patch, n);
      ToStatesConcat([filed], VerifySteps(a, patch, n).writes);
    }
    hide ToStates, VerifySteps;
  }

  lemma EndStates(a: Attempt, n: nat)
    ensures AfterTheAgent(ToStates(EndSteps(a, n).writes))
  {
    var patch := G.Diff(a.setup.base.tree, a.edited);
    var failure := Register(Artifact(Controller, Failure));
    if a.end == LifecycleError {
      FailureStates(failure, Failing(a, {} + {ArtifactId(n + 3)}));
    } else {
      var rs := Results();
      OneState(rs[0]);
      OneState(rs[1]);
      OneState(rs[2]);
      ThreeStates(rs[0], rs[1], rs[2]);
      if a.end == Unusable || !(patch.Keys <= a.setup.allowed) {
        var failing := Failing(a, {ArtifactId(n + 3)} + {ArtifactId(n + 6)});
        FailureStates(failure, failing);
        ToStatesConcat(rs, [failure, Transit(failing)]);
      } else {
        PatchStates(a, patch, n);
        ToStatesConcat(rs, PatchSteps(a, patch, n).writes);
      }
    }
    hide ToStates, PatchSteps;
  }

  lemma StartStates(a: Attempt, n: nat)
    ensures var started := StartSteps(a, n);
            && ToStates(started.writes) <= [Planned, Implementing]
            && (started.result.Ok? ==> ToStates(started.writes) == [Planned, Implementing])
  {
    var p, q, l := Prepared(), PlanWrites(a, n), LaunchWrites(a, n);
    BeginningStates(a, n);
    ToStatesConcat(p, q);
    ToStatesConcat(p + q, l);
    assert ToStates([]) == [];
    hide ToStates, Prepared, PlanWrites, LaunchWrites;
  }

  lemma BeginningStates(a: Attempt, n: nat)
    ensures ToStates(Prepared()) == [] && ToStates(PlanWrites(a, n)) == [Planned] && ToStates(LaunchWrites(a, n)) == [Implementing]
  {
    var p, q, l := Prepared(), PlanWrites(a, n), LaunchWrites(a, n);
    OneState(p[0]);
    OneState(p[1]);
    OneState(p[2]);
    ThreeStates(p[0], p[1], p[2]);
    OneState(q[0]);
    OneState(q[1]);
    TwoStates(q[0], q[1]);
    OneState(l[0]);
    OneState(l[1]);
    OneState(l[2]);
    ThreeStates(l[0], l[1], l[2]);
    hide ToStates;
  }

  lemma ImplementStates(a: Attempt, n: nat)
    ensures OnTheWay(ToStates(ImplementSteps(a, n).writes))
  {
    StartStates(a, n);
    var started := StartSteps(a, n);
    if started.result.Ok? {
      EndStates(a, n);
      ToStatesConcat(started.writes, EndSteps(a, n).writes);
      var rest := ToStates(EndSteps(a, n).writes);
      assert ToStates(ImplementSteps(a, n).writes) == [Planned, Implementing] + rest;
      WaysFromTheAgent(rest);
    } else {
      WaysFromTheAgent([Failed]);
      assert [Planned, Implementing] <= [Planned, Implementing] + [Failed];
      assert Way([Planned, Implementing, Failed]);
    }
    hide ToStates, StartSteps, EndSteps;
  }

  lemma WaysFromTheAgent(rest: seq<TaskState>)
    requires AfterTheAgent(rest)
    ensures OnTheWay([Planned, Implementing] + rest)
  {
    assert Way([Planned, Implementing, Failed]) && Way([Planned, Implementing, Verifying, Repairing])
           && Way([Planned, Implementing, Verifying, Reviewing, Repairing]);
    assert [Planned, Implementing] + [Verifying, Reviewing] <= [Planned, Implementing, Verifying, Reviewing, Repairing];
  }

  // ---- call by call -----------------------------------------------------------------------

  lemma BeginningIsOnTheWay(states: seq<TaskState>)
    requires states <= [Planned, Implementing]
    ensures OnTheWay(states)
  {
    assert Way([Planned, Implementing, Failed]);
    assert states <= [Planned, Implementing] <= [Planned, Implementing, Failed];
  }

  lemma RegistersAddNone(x: Write, y: Write)
    requires !x.Transit? && !y.Transit?
    ensures ToStates([x]) == [] && ToStates([x, y]) == []
  {
    OneState(x);
    OneState(y);
    TwoStates(x, y);
  }

  lemma CompleteStates(a: Attempt, n: nat)
    ensures ToStates(Recording(CompleteSteps(a, n), a.at).writes) == ToStates(ImplementSteps(a, n + 1).writes)
  {
    var work, all := ImplementSteps(a, n + 1), Recording(CompleteSteps(a, n), a.at).writes;
    if work.result.Ok? {
      var filed := Register(Artifact(Coordinator, OutcomeDoc(work.result.value)));
      var record := all[|all| - 1];
      RegistersAddNone(filed, record);
      RegistersAddNone(record, record);
      ToStatesConcat(work.writes, [filed]);
      ToStatesConcat(work.writes + [filed], [record]);
    }
    hide ImplementSteps, ToStates;
  }

  lemma ExecuteStates(s: State, a: Attempt)
    ensures OnTheWay(ToStates(ExecuteSteps(s, a).writes))
  {
    var b := Begun(a);
    RegistersAddNone(b[0], b[1]);
    BeginningIsOnTheWay([]);
    assert ToStates([]) == [];
    var n := |s.artifacts|;
    CompleteStates(a, n);
    ImplementStates(a, n + 1);
    ToStatesConcat(b, Recording(CompleteSteps(a, n), a.at).writes);
    hide ToStates, OnTheWay, CompleteSteps, ImplementSteps;
  }

  /** What a transition may be appended to what is on its way. */
  lemma WayGoesOn(states: seq<TaskState>, next: TaskState)
    requires OnTheWay(states) && states != []
    requires var last := states[|states| - 1];
             || (last == Reviewing && (next == MergeReview || next == Repairing))
             || (last == MergeReview && (next == Integrating || next == Repairing || next == Cancelled))
             || (last == Integrating && next == Completed)
    ensures OnTheWay(states + [next])
  {
    var way :| Way(way) && states <= way;
    var n := |states|;
    assert states == way[..n] && way[n - 1] == states[n - 1];
    assert Way([Planned, Implementing, Verifying, Reviewing, Repairing]);
    assert Way([Planned, Implementing, Verifying, Reviewing, MergeReview, Repairing]);
    assert Way([Planned, Implementing, Verifying, Reviewing, MergeReview, Cancelled]);
    assert Way([Planned, Implementing, Verifying, Reviewing, MergeReview, Integrating, Completed]);
    var four := [Planned, Implementing, Verifying, Reviewing];
    if states[n - 1] == Reviewing {
      assert n == 4 && states == four;
      assert four + [MergeReview] <= [Planned, Implementing, Verifying, Reviewing, MergeReview, Repairing];
    } else if states[n - 1] == MergeReview {
      assert n == 5 && states == four + [MergeReview];
      assert four + [MergeReview] + [Integrating] <= [Planned, Implementing, Verifying, Reviewing, MergeReview, Integrating, Completed];
    } else {
      assert n == 6 && states == four + [MergeReview] + [Integrating];
    }
  }

  lemma LastState(journal: seq<Transition>)
    requires journal != []
    ensures States(journal) != [] && States(journal)[|States(journal)| - 1] == CurrentState(journal)
  {
  }

  lemma ReviewStates(w: World, i: ReviewInput)
    requires Inv(w) && ReviewChecks(w.state, i).None?
    ensures ToStates(ReviewSteps(w.state, i).writes) == [if i.review.accepted then MergeReview else Repairing]
  {
    ReviewWrites(w, i);
    var s, o := w.state, OutcomeOf(w.state);
    var n, d := |s.artifacts|, DispositionFor(o, i, |s.artifacts|);
    var report := Register(Artifact(Person(NameOf(i.review.reviewer)), ReviewDoc(i.review)));
    var t, r := Transit(ReviewTransition(i, n)), Append(Record(Reviewed(i.review, d), i.at));
    var tail := if d.Accepted? then [OpenCard, FillCard(d.card)] else [];
    OneState(t);
    RegistersAddNone(r, r);
    if d.Accepted? {
      RegistersAddNone(OpenCard, FillCard(d.card));
    }
    assert ToStates([]) == [];
    ToStatesConcat([r], tail);
    ToStatesConcat([t], [r] + tail);
    RegistersAddNone(report, report);
    ToStatesConcat([report], ReviewEnd(i, d, n));
    if i.review.accepted {
      var card := Register(Artifact(Controller, CardDoc(CardFor(o, i))));
      RegistersAddNone(card, card);
      ToStatesConcat([card], ReviewEnd(i, d, n));
      ToStatesConcat([report], [card] + ReviewEnd(i, d, n));
    }
    assert ToStates(ReviewEnd(i, d, n)) == [if i.review.accepted then MergeReview else Repairing];
    hide ToStates, ReviewSteps, ReviewEnd, CardFor, DispositionFor;
  }

  lemma DecideStates(s: State, i: DecisionInput)
    requires DecisionChecks(s, i).None?
    ensures var states := ToStates(ApplyDecisionSteps(s, i).writes);
            || states == []
            || (CurrentState(s.journal) == MergeReview
                && states == [match i.decision.value.choice case Approve => Integrating case RequestChanges => Repairing case _ => Cancelled])
  {
    DecisionWrites(s, i);
    var d, a := i.decision.value, i.authority.value;
    var steps := DecideSteps(s.ledger[1].payload.disposition.card, OutcomeOf(s).report.value, s.journal, |s.artifacts|, d, a, i.now, i.at);
    var r1, r2 := Register(Artifact(Person(d.actor), DecisionDoc(d))), Register(Artifact(AuthorityProvider, AuthorityDoc(a)));
    RegistersAddNone(r1, r2);
    RegistersAddNone(r2, r1);
    if steps.result.Ok? {
      var t, append := Transit(steps.result.value.transition), Append(Record(steps.result.value, i.at));
      OneState(t);
      RegistersAddNone(append, append);
      ToStatesConcat([t], [append]);
      ToStatesConcat([r2], [t] + [append]);
      ToStatesConcat([r1], [r2] + ([t] + [append]));
    }
    hide ToStates, ApplyDecisionSteps, DecisionEvidence;
  }

  lemma {:induction false} NoTransits(writes: seq<Write>)
    requires forall k | 0 <= k < |writes| :: !writes[k].Transit?
    ensures ToStates(writes) == []
    decreases |writes|
  {
    if writes != [] {
      NoTransits(writes[..|writes| - 1]);
    }
  }

  lemma IntegrateStates(s: State, c: Clock)
    ensures var states := ToStates(IntegrateSteps(s, c).writes);
            states == [] || (CurrentState(s.journal) == Integrating && states == [Completed])
  {
    if IntegrationInputs(s).None? && CurrentState(s.journal) == Integrating && IntegrateFresh(s, c).result.Ok? {
      FreshStates(s, c);
    } else {
      RefusedIntegration(s, c);
      NoTransits(IntegrateSteps(s, c).writes);
    }
    hide IntegrateSteps, IntegrateFresh, IntegrationInputs, ToStates;
  }

  lemma RefusedIntegration(s: State, c: Clock)
    requires !(IntegrationInputs(s).None? && CurrentState(s.journal) == Integrating && IntegrateFresh(s, c).result.Ok?)
    ensures forall k | 0 <= k < |IntegrateSteps(s, c).writes| :: !IntegrateSteps(s, c).writes[k].Transit?
  {
    hide G.CommitPhase, G.MergePhase, CompletedEvidence, CompletionError, RequestOf, IntegrationInputs, Decide;
  }

  lemma FreshStates(s: State, c: Clock)
    requires IntegrationInputs(s).None? && CurrentState(s.journal) == Integrating && IntegrateFresh(s, c).result.Ok?
    ensures ToStates(IntegrateSteps(s, c).writes) == [Completed]
  {
    hide G.CommitPhase, G.MergePhase, RequestOf, CompleteIntegration;
    var writes := IntegrateSteps(s, c).writes;
    var moved := GitSteps(s.git, RequestOf(s), c.commitStamp);
    var done := CompleteIntegration(s, moved.result.value, c.at);
    FreshlyCompleted(s, moved.result.value, c.at);
    NoTransits(moved.writes);
    var append := writes[|writes| - 1];
    assert writes == moved.writes + done.writes + [append];
    hide IntegrateSteps, ToStates, GitSteps;
    RegistersAddNone(append, append);
    ToStatesConcat(moved.writes, done.writes);
    ToStatesConcat(moved.writes + done.writes, [append]);
  }

  lemma FreshlyCompleted(s: State, result: G.Evidence, at: int)
    requires IntegrationInputs(s).None? && CompleteIntegration(s, result, at).result.Ok?
    ensures ToStates(CompleteIntegration(s, result, at).writes) == [Completed]
  {
    var writes := CompleteIntegration(s, result, at).writes;
    assert |writes| == 2 && writes[0].Register? && writes[1].Transit? && writes[1].transition.to == Completed;
    assert writes == [writes[0], writes[1]];
    OneState(writes[0]);
    OneState(writes[1]);
    TwoStates(writes[0], writes[1]);
  }

  lemma CleanupStates(s: State, at: int)
    ensures ToStates(CleanupSteps(s, at).writes) == []
  {
    NoTransits(CleanupSteps(s, at).writes);
    hide ToStates;
  }

  lemma RecoverStates(s: State, c: Clock)
    ensures ToStates(RecoverSteps(s, c).writes) == []
  {
    if Assess(s).Recoverable? {
      match Assess(s).repair {
        case ResumeIntegration =>
          ResumeIntegrationShape(s);
          IntegrateStates(s, c);
        case ResumeCleanup => CleanupStates(s, c.at);
        case _ => NoTransits(RecoverWrites(s, c));
      }
    } else {
      NoTransits([]);
    }
    hide ToStates, Assess, IntegrateSteps, CleanupSteps, LoadExecutionGap, LoadDecisionGap;
  }

  lemma NoneAdded(states: seq<TaskState>)
    ensures states + [] == states
  {
  }

  lemma CallStaysOnTheWay(w: World, call: Call)
    requires Inv(w) && OnTheWay(States(w.state.journal))
    ensures OnTheWay(States(w.state.journal) + ToStates(StepsOf(w.state, call).writes))
  {
    var s, js := w.state, States(w.state.journal);
    NoneAdded(js);
    if s.journal != [] {
      LastState(s.journal);
    }
    hide Inv, OnTheWay, ToStates, States;
    match call {
      case Execute(a) => ExecuteStaysOnTheWay(w, a);
      case Review(i) => ReviewStaysOnTheWay(w, i);
      case ApplyDecision(i) => DecisionStaysOnTheWay(w, i);
      case Integrate(c) =>
        IntegrateStates(s, c);
        if ToStates(IntegrateSteps(s, c).writes) != [] {
          WayGoesOn(js, Completed);
        }
      case Cleanup(at) => CleanupStates(s, at);
      case Recover(c) => RecoverStates(s, c);
    }
  }

  lemma ExecuteStaysOnTheWay(w: World, a: Attempt)
    requires Inv(w) && OnTheWay(States(w.state.journal))
    ensures OnTheWay(States(w.state.journal) + ToStates(ExecuteSteps(w.state, a).writes))
  {
    ExecuteStates(w.state, a);
    NoneAdded(States(w.state.journal));
    if w.state.directory {
      NoTransits(ExecuteSteps(w.state, a).writes);
    } else {
      StartsEmpty(w);
      assert [] + ToStates(ExecuteSteps(w.state, a).writes) == ToStates(ExecuteSteps(w.state, a).writes);
    }
    hide ToStates, OnTheWay, Inv, CompleteSteps;
  }

  lemma StartsEmpty(w: World)
    requires Inv(w) && !w.state.directory
    ensures States(w.state.journal) == []
  {
    hide Legal, Merged, Committed, G.EvidenceFor, CitedByDecision, RequiredEvidence, Fresh, OutcomeSound;
    assert StageInv(w, |w.state.ledger|);
  }

  lemma ReviewStaysOnTheWay(w: World, i: ReviewInput)
    requires Inv(w) && OnTheWay(States(w.state.journal))
    ensures OnTheWay(States(w.state.journal) + ToStates(ReviewSteps(w.state, i).writes))
  {
    var js := States(w.state.journal);
    NoneAdded(js);
    if ReviewChecks(w.state, i).None? {
      ReviewStates(w, i);
      assert w.state.journal != [];
      LastState(w.state.journal);
      WayGoesOn(js, if i.review.accepted then MergeReview else Repairing);
    } else {
      NoTransits(ReviewSteps(w.state, i).writes);
    }
    hide ToStates, OnTheWay, Inv, States;
  }

  lemma DecisionStaysOnTheWay(w: World, i: DecisionInput)
    requires Inv(w) && OnTheWay(States(w.state.journal))
    ensures OnTheWay(States(w.state.journal) + ToStates(ApplyDecisionSteps(w.state, i).writes))
  {
    var js := States(w.state.journal);
    NoneAdded(js);
    if DecisionChecks(w.state, i).None? {
      DecideStates(w.state, i);
      var states := ToStates(ApplyDecisionSteps(w.state, i).writes);
      if states != [] {
        assert w.state.journal != [];
        LastState(w.state.journal);
        WayGoesOn(js, states[0]);
      }
    } else {
      NoTransits(ApplyDecisionSteps(w.state, i).writes);
    }
    hide ToStates, OnTheWay, Inv, States, DecideSteps;
  }

  lemma {:induction false} CutStates(writes: seq<Write>, n: nat)
    requires n <= |writes|
    ensures ToStates(writes[..n]) <= ToStates(writes)
  {
    ToStatesConcat(writes[..n], writes[n..]);
    assert writes[..n] + writes[n..] == writes;
    hide ToStates;
  }

  lemma PrefixIsOnTheWay(a: seq<TaskState>, b: seq<TaskState>)
    requires OnTheWay(b) && a <= b
    ensures OnTheWay(a)
  {
    var way :| Way(way) && b <= way;
    assert a <= way;
    hide Way;
  }

  lemma EventStaysOnTheWay(w: World, e: Event)
    requires Inv(w) && OnTheWay(States(w.state.journal))
    ensures OnTheWay(States(Next(w, e).state.journal))
  {
    CallStaysOnTheWay(w, e.call);
    var writes := StepsOf(w.state, e.call).writes;
    var n := if e.survives <= |writes| then e.survives else |writes|;
    assert writes[..|writes|] == writes;
    PutAllIsAfter(Promise(w, writes), writes[..n]);
    StatesAfter(w.state, writes[..n]);
    CutStates(writes, n);
    hide OnTheWay, ToStates, States, Inv, StepsOf, After, PutAll, Pending;
    PrefixIsOnTheWay(States(w.state.journal) + ToStates(writes[..n]), States(w.state.journal) + ToStates(writes));
  }

  lemma {:induction false} EveryRunStaysOnTheWay(w: World, events: seq<Event>)
    requires Inv(w) && OnTheWay(States(w.state.journal))
    ensures OnTheWay(States(Run(w, events).state.journal))
    decreases |events|
  {
    hide OnTheWay, States, Inv, Next;
    if events != [] {
      EveryCallKeepsTheInvariant(w, events[0]);
      EventStaysOnTheWay(w, events[0]);
      EveryRunStaysOnTheWay(Next(w, events[0]), events[1..]);
    }
  }

  /**
   Whatever calls are made, in whatever order and however they die, the task goes one of six ways:
   it fails, needs repair after verification, after review or after a decision, is cancelled, or is
   verified, reviewed, approved and integrated, each state once and in this order.
   */
  lemma EveryRunIsOnTheWay(git: G.Repo, events: seq<Event>)
    ensures OnTheWay(States(Reached(git, events).state.journal))
  {
    InitialIsInv(git);
    BeginningIsOnTheWay([]);
    hide OnTheWay, Inv;
    EveryRunStaysOnTheWay(Initial(git), events);
  }

  // ---- what a decision leads to -----------------------------------------------------------

  /** The transition that each choice stands for, by whom, and what it cites at least. */
  ghost predicate LeadsWhereItSays(p: Payload)
    requires p.DecisionApplied?
  {
    var t, d := p.transition, p.decision;
    && t.from == MergeReview && t.actor == Human(d.actor) && p.authority.actor == d.actor
    && (d.choice == Approve ==> t.to == Integrating)
    && (d.choice == RequestChanges ==> t.to == Repairing)
    && (d.choice == Reject ==> t.to == Cancelled)
    && d.choice != Unlisted
    && {Name(d.id), Name(d.card.id), Name(p.authority.id), ArtifactId(p.decisionArtifact), ArtifactId(p.authorityArtifact)} <= t.evidence
    && d.evidence <= t.evidence
  }

  lemma DecidedLeadsWhereItSays(s: State, p: Payload)
    requires |s.ledger| >= 2 && StagesInOrder(s.ledger) && DecisionOnFile(s, p)
    ensures LeadsWhereItSays(p)
  {
  }

  /** Every recorded decision led where its choice says, and the journal holds that transition. */
  lemma RecordedDecisionLeadsWhereItSays(git: G.Repo, events: seq<Event>)
    ensures var s := Reached(git, events).state;
            |s.ledger| >= 3 ==>
              && StagesInOrder(s.ledger) && LeadsWhereItSays(s.ledger[2].payload)
              && s.ledger[2].payload.transition in s.journal
              && (s.ledger[2].payload.decision.choice != Approve ==>
                    |s.ledger| == 3 && s.git.target == git.target && CurrentState(s.journal) == s.ledger[2].payload.transition.to)
  {
    ReachedIsInv(git, events);
    var w := Reached(git, events);
    hide Reached, Inv;
    if |w.state.ledger| >= 3 {
      DecidedFacts(w);
      DecidedLeadsWhereItSays(w.state, w.state.ledger[2].payload);
    }
  }

  lemma DecidedFacts(w: World)
    requires Inv(w) && |w.state.ledger| >= 3
    ensures StagesInOrder(w.state.ledger) && Decided(w.state)
    ensures var p, s := w.state.ledger[2].payload, w.state;
            && p.transition in s.journal
            && (p.decision.choice != Approve ==>
                  |s.ledger| == 3 && s.git.target == w.origin && CurrentState(s.journal) == p.transition.to)
  {
    hide Legal, G.EvidenceFor, CitedByDecision, OutcomeSound, Merged, RequiredEvidence;
    assert StageInv(w, |w.state.ledger|);
  }
}
