/** Execution keeps the invariant at every durable write. */
module RunExecution {
  import opened Outcomes
  import opened LocalRun
  import opened Recovery
  import opened RunInvariant
  import opened RunCalls
  import G = GitIntegration

  // ---- writes as steps of the workflow ----------------------------------------------------

  /** What one write of the controller does to the task state and the agent; None if it is out of place. */
  function FlowOne(at: (TaskState, bool), x: Write): Option<(TaskState, bool)> {
    match x
    case Register(a) => if KindOf(a.content) == Others then Some(at) else None
    case AddWorktree(_, _) => Some(at)
    case Edit(_) => Some(at)
    case StartAgent => if at.1 then None else Some((at.0, true))
    case Transit(t) =>
      if t.from == at.0 && BeforeReview(t.from) && Allowed(t.from, t.to) && Authorized(t.actor, t.from, t.to) && ExecutionState(t.to)
      then Some((t.to, at.1)) else None
    case _ => None
  }

  function Flow(at: (TaskState, bool), writes: seq<Write>): Option<(TaskState, bool)>
    decreases |writes|
  {
    if writes == [] then Some(at)
    else match FlowOne(at, writes[0])
      case None => None
      case Some(next) => Flow(next, writes[1..])
  }

  lemma {:induction false} FlowConcat(at: (TaskState, bool), a: seq<Write>, b: seq<Write>)
    requires Flow(at, a).Some?
    ensures Flow(at, a + b) == Flow(Flow(at, a).value, b)
    decreases |a|
  {
    if a == [] {
      assert a + b == b;
    } else {
      FlowConcat(FlowOne(at, a[0]).value, a[1..], b);
      assert (a + b)[0] == a[0] && (a + b)[1..] == a[1..] + b;
    }
  }

  lemma FlowTwo(at: (TaskState, bool), x: Write, y: Write)
    requires FlowOne(at, x).Some?
    ensures Flow(at, [x]) == FlowOne(at, x)
    ensures Flow(at, [x, y]) == FlowOne(FlowOne(at, x).value, y)
  {
    assert [x][1..] == [] && [x, y][1..] == [y] && [y][1..] == [];
    assert Flow(FlowOne(at, x).value, [y]) == FlowOne(FlowOne(at, x).value, y);
  }

  lemma FlowThree(at: (TaskState, bool), x: Write, y: Write, z: Write)
    requires FlowOne(at, x).Some? && FlowOne(FlowOne(at, x).value, y).Some?
    ensures Flow(at, [x, y, z]) == FlowOne(FlowOne(FlowOne(at, x).value, y).value, z)
  {
    FlowTwo(at, x, y);
    FlowConcat(at, [x, y], [z]);
    assert [x, y] + [z] == [x, y, z] && [z][1..] == [];
  }

  lemma {:induction false} ChecksFlow(at: (TaskState, bool), count: nat)
    ensures Flow(at, CheckWrites(count)) == Some(at)
    decreases count
  {
    if count > 0 {
      ChecksFlow(at, count - 1);
      var x := Register(Artifact(Engine, CommandResult));
      FlowConcat(at, CheckWrites(count - 1), [x]);
      FlowTwo(at, x, x);
    }
  }

  lemma VerifyFlow(a: Attempt, patch: G.Patch, n: nat)
    ensures Flow((Implementing, true), VerifySteps(a, patch, n).writes) == Some((VerifySteps(a, patch, n).result.value.state, true))
  {
    var started := [Transit(Checking(a, n)), Edit(a.checked)];
    var finished := [Register(Artifact(Engine, VerificationDoc(ReportOf(a, patch)))), Transit(Verdict(a, n))];
    FlowTwo((Implementing, true), started[0], started[1]);
    FlowTwo((Verifying, true), finished[0], finished[1]);
    ChecksFlow((Verifying, true), a.checks);
    FlowConcat((Implementing, true), started, CheckWrites(a.checks));
    FlowConcat((Implementing, true), started + CheckWrites(a.checks), finished);
  }

  lemma FailFlow(t: Transition)
    requires t.from == Implementing && t.to == Failed
    ensures Flow((Implementing, true), [Register(Artifact(Controller, Failure)), Transit(t)]) == Some((Failed, true))
  {
    FlowTwo((Implementing, true), Register(Artifact(Controller, Failure)), Transit(t));
  }

  lemma PatchFlow(a: Attempt, patch: G.Patch, n: nat)
    ensures Flow((Implementing, true), PatchSteps(a, patch, n).writes) == Some((PatchSteps(a, patch, n).result.value.state, true))
  {
    var filed := Register(Artifact(Controller, PatchText(patch)));
    FlowTwo((Implementing, true), filed, filed);
    if patch == map[] {
      var failing := Failing(a, {ArtifactId(n + 3), ArtifactId(n + 6)} + {ArtifactId(n + 7)});
      FailFlow(failing);
      FlowConcat((Implementing, true), [filed], [Register(Artifact(Controller, Failure)), Transit(failing)]);
    } else {
      VerifyFlow(a, patch, n);
      FlowConcat((Implementing, true), [filed], VerifySteps(a, patch, n).writes);
    }
  }

  /** Whatever the agent did, the task ends in the state the outcome names, or FAILED when there is none. */
  lemma EndFlow(a: Attempt, n: nat)
    ensures var steps := EndSteps(a, n);
            Flow((Implementing, true), steps.writes) == Some((if steps.result.Ok? then steps.result.value.state else Failed, true))
  {
    var patch := G.Diff(a.setup.base.tree, a.edited);
    if a.end == LifecycleError {
      FailFlow(Failing(a, {} + {ArtifactId(n + 3)}));
    } else {
      FlowThree((Implementing, true), Results()[0], Results()[1], Results()[2]);
      if a.end == Unusable || !(patch.Keys <= a.setup.allowed) {
        var failing := Failing(a, {ArtifactId(n + 3)} + {ArtifactId(n + 6)});
        FailFlow(failing);
        FlowConcat((Implementing, true), Results(), [Register(Artifact(Controller, Failure)), Transit(failing)]);
      } else {
        PatchFlow(a, patch, n);
        FlowConcat((Implementing, true), Results(), PatchSteps(a, patch, n).writes);
      }
    }
  }

  lemma StartFlow(a: Attempt, n: nat)
    ensures var started := StartSteps(a, n);
            && Flow((Draft, false), started.writes).Some?
            && (started.result.Ok? ==> Flow((Draft, false), started.writes) == Some((Implementing, true)))
  {
    var p := Prepared();
    FlowThree((Draft, false), p[0], p[1], p[2]);
    FlowTwo((Draft, false), PlanWrites(a, n)[0], PlanWrites(a, n)[1]);
    FlowConcat((Draft, false), p, PlanWrites(a, n));
    if !a.actor.Agent? {
      FlowThree((Planned, false), Transit(Begin(a, n)), StartAgent, Edit(a.edited));
      FlowConcat((Draft, false), p + PlanWrites(a, n), LaunchWrites(a, n));
    }
  }

  lemma ImplementFlow(a: Attempt, n: nat)
    ensures var steps := ImplementSteps(a, n);
            && Flow((Draft, false), steps.writes).Some?
            && (steps.result.Ok? ==> Flow((Draft, false), steps.writes) == Some((steps.result.value.state, true)))
  {
    hide Flow, StartSteps, EndSteps;
    StartFlow(a, n);
    if StartSteps(a, n).result.Ok? {
      EndFlow(a, n);
      FlowConcat((Draft, false), StartSteps(a, n).writes, EndSteps(a, n).writes);
    }
  }

  // ---- along the execution ----------------------------------------------------------------

  /** The run directory exists, nothing is recorded, no outcome is on file. */
  ghost predicate Executing(s: State, origin: G.Commit) {
    && s.ledger == [] && s.directory && s.card == NoCard && s.git.target == origin && s.agentStarts <= 1
    && Legal(s.journal)
    && (s.journal != [] ==> ExecutionState(CurrentState(s.journal)) && BeforeReview(Last(s.journal).from))
    && |Select(s.artifacts, Intents, None)| <= 1 && Select(s.artifacts, OutcomeDocs, None) == []
  }

  function Progress(s: State): (TaskState, bool) {
    (CurrentState(s.journal), s.agentStarts > 0)
  }

  lemma ExecutingIsInv(w: World)
    requires Executing(w.state, w.origin)
    ensures Inv(w)
  {
    assert StageInv(w, 0);
  }

  lemma SelectRegister(artifacts: seq<Artifact>, a: Artifact, kind: Kind)
    ensures Select(artifacts + [a], kind, None)
            == if KindOf(a.content) == kind then Select(artifacts, kind, None) + [|artifacts|] else Select(artifacts, kind, None)
  {
    assert (artifacts + [a])[..|artifacts|] == artifacts;
  }

  lemma OrdinaryStep(w: World, x: Write)
    requires Executing(w.state, w.origin) && FlowOne(Progress(w.state), x).Some?
    ensures Executing(Put(w, x).state, w.origin) && FlowOne(Progress(w.state), x) == Some(Progress(Put(w, x).state))
  {
    match x {
      case Register(a) =>
        SelectRegister(w.state.artifacts, a, Intents);
        SelectRegister(w.state.artifacts, a, OutcomeDocs);
      case Transit(t) => LegalGrows(w.state.journal, t);
      case _ =>
    }
  }

  lemma {:induction false} OrdinaryAlong(w: World, writes: seq<Write>)
    requires Executing(w.state, w.origin) && Flow(Progress(w.state), writes).Some?
    ensures Along(Inv, w, writes)
    ensures Executing(PutAll(w, writes).state, w.origin) && Flow(Progress(w.state), writes) == Some(Progress(PutAll(w, writes).state))
    ensures PutAll(w, writes).owed == w.owed && PutAll(w, writes).origin == w.origin
    decreases |writes|
  {
    ExecutingIsInv(w);
    if writes != [] {
      OrdinaryStep(w, writes[0]);
      PutAllFirst(w, writes);
      OrdinaryAlong(Put(w, writes[0]), writes[1..]);
    }
  }

  // ---- where the worktree and the registry end --------------------------------------------

  ghost predicate Placed(s: State, setup: Setup) {
    s.workspace && s.git.checkedOut == setup.branch && s.git.head == setup.base == s.git.tip
  }

  predicate LeavesWorktree(writes: seq<Write>) {
    forall x | x in writes :: x.Register? || x.Transit? || x.Edit? || x.StartAgent?
  }

  lemma {:induction false} PlacedStays(s: State, setup: Setup, writes: seq<Write>)
    requires Placed(s, setup) && LeavesWorktree(writes)
    ensures Placed(After(s, writes), setup)
    decreases |writes|
  {
    if writes != [] {
      PlacedStays(s, setup, writes[..|writes| - 1]);
    }
  }

  lemma {:induction false} ChecksLeaveWorktree(count: nat)
    ensures LeavesWorktree(CheckWrites(count)) && |Registered(CheckWrites(count))| == count
    decreases count
  {
    if count > 0 {
      ChecksLeaveWorktree(count - 1);
      var x := Register(Artifact(Engine, CommandResult));
      assert (CheckWrites(count - 1) + [x])[..|CheckWrites(count - 1)|] == CheckWrites(count - 1);
    }
  }

  lemma {:induction false} RegisteredConcat(a: seq<Write>, b: seq<Write>)
    ensures Registered(a + b) == Registered(a) + Registered(b)
    decreases |b|
  {
    if b == [] {
      assert a + b == a;
    } else {
      RegisteredConcat(a, b[..|b| - 1]);
      assert (a + b)[..|a + b| - 1] == a + b[..|b| - 1];
    }
  }

  function Made(x: Write): nat {
    if x.Register? then 1 else 0
  }

  lemma RegisteredTwo(x: Write, y: Write)
    ensures |Registered([x])| == Made(x) && |Registered([x, y])| == Made(x) + Made(y)
  {
    assert [x, y][..1] == [x] && [x][..0] == [];
  }

  lemma RegisteredThree(x: Write, y: Write, z: Write)
    ensures |Registered([x, y, z])| == Made(x) + Made(y) + Made(z)
  {
    RegisteredTwo(x, y);
    assert [x, y, z][..2] == [x, y];
  }

  /** An outcome refers only to files registered before it; `total` artifacts are then on file. */
  ghost predicate OutcomeWithin(a: Attempt, o: Outcome, n: nat, total: nat) {
    && (o.state == Reviewing || o.state == Repairing || o.state == Failed)
    && (forall k | k in o.artifacts :: k < total)
    && (o.patch.Some? ==> o.patch.value.Keys <= a.setup.allowed)
    && (o.patchArtifact.Some? ==> n <= o.patchArtifact.value < total)
    && (o.state == Reviewing ==> Reviewable(o) && o.report.value.patch == o.patch.value)
  }

  lemma VerifyWithin(a: Attempt, patch: G.Patch, n: nat)
    requires patch.Keys <= a.setup.allowed
    ensures var steps := VerifySteps(a, patch, n);
            LeavesWorktree(steps.writes) && |Registered(steps.writes)| == a.checks + 1
            && OutcomeWithin(a, steps.result.value, n, n + 8 + a.checks)
  {
    var started := [Transit(Checking(a, n)), Edit(a.checked)];
    var finished := [Register(Artifact(Engine, VerificationDoc(ReportOf(a, patch)))), Transit(Verdict(a, n))];
    ChecksLeaveWorktree(a.checks);
    RegisteredTwo(started[0], started[1]);
    RegisteredTwo(finished[0], finished[1]);
    RegisteredConcat(started, CheckWrites(a.checks));
    RegisteredConcat(started + CheckWrites(a.checks), finished);
  }

  lemma PatchWithin(a: Attempt, patch: G.Patch, n: nat)
    requires patch.Keys <= a.setup.allowed
    ensures var steps := PatchSteps(a, patch, n);
            LeavesWorktree(steps.writes) && OutcomeWithin(a, steps.result.value, n, n + 6 + |Registered(steps.writes)|)
  {
    var filed := Register(Artifact(Controller, PatchText(patch)));
    RegisteredTwo(filed, filed);
    if patch == map[] {
      var failing := Transit(Failing(a, {ArtifactId(n + 3), ArtifactId(n + 6)} + {ArtifactId(n + 7)}));
      RegisteredTwo(Register(Artifact(Controller, Failure)), failing);
      RegisteredConcat([filed], [Register(Artifact(Controller, Failure)), failing]);
    } else {
      VerifyWithin(a, patch, n);
      RegisteredConcat([filed], VerifySteps(a, patch, n).writes);
    }
  }

  lemma EndWithin(a: Attempt, n: nat)
    requires EndSteps(a, n).result.Ok?
    ensures var steps := EndSteps(a, n);
            LeavesWorktree(steps.writes) && OutcomeWithin(a, steps.result.value, n, n + 3 + |Registered(steps.writes)|)
  {
    var patch := G.Diff(a.setup.base.tree, a.edited);
    RegisteredThree(Results()[0], Results()[1], Results()[2]);
    if a.end == Unusable || !(patch.Keys <= a.setup.allowed) {
      var failed := [Register(Artifact(Controller, Failure)), Transit(Failing(a, {ArtifactId(n + 3)} + {ArtifactId(n + 6)}))];
      RegisteredTwo(failed[0], failed[1]);
      RegisteredConcat(Results(), failed);
    } else {
      PatchWithin(a, patch, n);
      RegisteredConcat(Results(), PatchSteps(a, patch, n).writes);
    }
  }

  lemma ImplementWithin(a: Attempt, n: nat)
    requires ImplementSteps(a, n).result.Ok?
    ensures var steps := ImplementSteps(a, n);
            OutcomeWithin(a, steps.result.value, n, n + |Registered(steps.writes)|)
  {
    var p := Prepared();
    EndWithin(a, n);
    RegisteredThree(p[0], p[1], p[2]);
    RegisteredConcat(p + PlanWrites(a, n) + LaunchWrites(a, n), EndSteps(a, n).writes);
    RegisteredConcat(p + PlanWrites(a, n), LaunchWrites(a, n));
    RegisteredConcat(p, PlanWrites(a, n));
  }

  lemma ImplementPlaces(s: State, a: Attempt, n: nat)
    requires ImplementSteps(a, n).result.Ok?
    ensures Placed(After(s, ImplementSteps(a, n).writes), a.setup)
  {
    var planned, rest := Prepared() + PlanWrites(a, n), LaunchWrites(a, n) + EndSteps(a, n).writes;
    EndWithin(a, n);
    assert ImplementSteps(a, n).writes == planned + rest;
    AfterConcat(s, planned, rest);
    WorktreePlaced(s, a, n);
    PlacedStays(After(s, planned), a.setup, rest);
  }

  lemma WorktreePlaced(s: State, a: Attempt, n: nat)
    ensures Placed(After(s, Prepared() + PlanWrites(a, n)), a.setup)
  {
    var p, x, y := Prepared(), PlanWrites(a, n)[0], PlanWrites(a, n)[1];
    AfterOne(s, p, x);
    AfterOne(s, p + [x], y);
    assert p + PlanWrites(a, n) == p + [x] + [y];
  }

  // ---- the outcome, and the first record --------------------------------------------------

  lemma {:induction false} OrdinaryRegistrations(at: (TaskState, bool), writes: seq<Write>)
    requires Flow(at, writes).Some?
    ensures forall k | 0 <= k < |Registered(writes)| :: KindOf(Registered(writes)[k].content) == Others
    decreases |writes|
  {
    if writes != [] {
      var x := writes[0];
      OrdinaryRegistrations(FlowOne(at, x).value, writes[1..]);
      RegisteredConcat([x], writes[1..]);
      RegisteredTwo(x, x);
      assert writes == [x] + writes[1..] && [x][..0] == [];
    }
  }

  /** The intent is the first artifact and everything after it is ordinary. */
  ghost predicate OneIntent(s: State, setup: Setup) {
    && |s.artifacts| >= 1 && s.artifacts[0] == Artifact(Coordinator, IntentDoc(setup))
    && (forall k | 1 <= k < |s.artifacts| :: KindOf(s.artifacts[k].content) == Others)
  }

  lemma {:induction false} SelectOneIntent(artifacts: seq<Artifact>, setup: Setup)
    requires |artifacts| >= 1 && artifacts[0] == Artifact(Coordinator, IntentDoc(setup))
    requires forall k | 1 <= k < |artifacts| :: KindOf(artifacts[k].content) == Others
    ensures Select(artifacts, Intents, None) == [0] && Select(artifacts, OutcomeDocs, None) == []
    decreases |artifacts|
  {
    if |artifacts| > 1 {
      SelectOneIntent(artifacts[..|artifacts| - 1], setup);
    } else {
      assert artifacts[..0] == [];
    }
  }

  lemma OutcomeSelected(s: State, a: Attempt, o: Outcome)
    requires OneIntent(s, a.setup)
    ensures var artifacts := s.artifacts + [Artifact(Coordinator, OutcomeDoc(o))];
            Select(artifacts, Intents, None) == [0] && Select(artifacts, OutcomeDocs, None) == [|s.artifacts|]
  {
    var doc := Artifact(Coordinator, OutcomeDoc(o));
    SelectOneIntent(s.artifacts, a.setup);
    SelectRegister(s.artifacts, doc, Intents);
    SelectRegister(s.artifacts, doc, OutcomeDocs);
  }

  lemma OutcomeFiled(s: State, a: Attempt, o: Outcome)
    requires OneIntent(s, a.setup) && OutcomeWithin(a, o, 1, |s.artifacts|)
    ensures ExecutionOnFile(Apply(s, Register(Artifact(Coordinator, OutcomeDoc(o)))), Execution(a.setup, o, 0, |s.artifacts|))
  {
  }

  lemma OutcomeStands(s: State, a: Attempt, o: Outcome, origin: G.Commit)
    requires Executing(s, origin) && OneIntent(s, a.setup) && Placed(s, a.setup)
    requires OutcomeWithin(a, o, 1, |s.artifacts|) && Progress(s) == (o.state, true)
    ensures var doc := Artifact(Coordinator, OutcomeDoc(o));
            ExecutionStands(Apply(s, Register(doc)), Execution(a.setup, o, 0, |s.artifacts|), origin)
  {
    OutcomeSelected(s, a, o);
    OutcomeFiled(s, a, o);
  }

  lemma StandingIsInv(w: World)
    requires w.state.ledger == [] && w.state.card == NoCard && Legal(w.state.journal)
    requires w.owed.Some? && ExecutionStands(w.state, w.owed.value, w.origin) && BeforeReview(Last(w.state.journal).from)
    ensures Inv(w)
  {
    assert StageInv(w, 0);
  }

  lemma RecordExecutionKeeps(w: World, p: Payload, at: int)
    requires Inv(w) && w.state.ledger == [] && ExecutionStands(w.state, p, w.origin)
    ensures Inv(Put(w, Append(Record(p, at))))
  {
    assert StageInv(w, 0);
    var w' := Put(w, Append(Record(p, at)));
    assert ExecutionOnFile(w'.state, p);
    assert StageInv(w', 1);
  }

  lemma OutcomeAlong(w: World, a: Attempt, o: Outcome)
    requires Executing(w.state, w.origin) && OneIntent(w.state, a.setup) && Placed(w.state, a.setup)
    requires OutcomeWithin(a, o, 1, |w.state.artifacts|) && Progress(w.state) == (o.state, true)
    requires w.owed == Some(Execution(a.setup, o, 0, |w.state.artifacts|))
    ensures Along(Inv, w, [Register(Artifact(Coordinator, OutcomeDoc(o)))] + [Append(Record(w.owed.value, a.at))])
  {
    var filed := Register(Artifact(Coordinator, OutcomeDoc(o)));
    var w1 := Put(w, filed);
    ExecutingIsInv(w);
    OutcomeStands(w.state, a, o, w.origin);
    StandingIsInv(w1);
    RecordExecutionKeeps(w1, w.owed.value, a.at);
    RecordAlong(w1, w.owed.value, a.at);
    AlongCons(Inv, w, filed, [Append(Record(w.owed.value, a.at))]);
  }

  /** The controller returned: its outcome can be filed. */
  lemma WorkEnds(w: World, a: Attempt)
    requires Executing(w.state, w.origin) && w.state.artifacts == [Artifact(Coordinator, IntentDoc(a.setup))]
    requires w.state.journal == [] && w.state.agentStarts == 0 && ImplementSteps(a, 1).result.Ok?
    ensures var work := ImplementSteps(a, 1);
            var w', o := PutAll(w, work.writes), work.result.value;
            && OneIntent(w'.state, a.setup) && Placed(w'.state, a.setup)
            && |w'.state.artifacts| == 1 + |Registered(work.writes)|
            && OutcomeWithin(a, o, 1, |w'.state.artifacts|) && Progress(w'.state) == (o.state, true)
  {
    var work := ImplementSteps(a, 1);
    ImplementFlow(a, 1);
    OrdinaryAlong(w, work.writes);
    ImplementWithin(a, 1);
    ImplementPlaces(w.state, a, 1);
    PutAllIsAfter(w, work.writes);
    RegistryAfter(w.state, work.writes);
    OrdinaryRegistrations(Progress(w.state), work.writes);
  }

  /** The attempt itself, from a run directory that holds only the intent. */
  lemma CompleteAlong(w: World, a: Attempt)
    requires Executing(w.state, w.origin) && w.state.artifacts == [Artifact(Coordinator, IntentDoc(a.setup))]
    requires w.state.journal == [] && w.state.agentStarts == 0
    requires CompleteSteps(a, 0).result.Ok? ==> w.owed == Some(CompleteSteps(a, 0).result.value)
    ensures Along(Inv, w, Recording(CompleteSteps(a, 0), a.at).writes)
  {
    hide ImplementSteps, Executing, OneIntent, Placed, OutcomeWithin, Inv;
    var work := ImplementSteps(a, 1);
    ImplementFlow(a, 1);
    OrdinaryAlong(w, work.writes);
    if work.result.Ok? {
      var o := work.result.value;
      WorkEnds(w, a);
      OutcomeAlong(PutAll(w, work.writes), a, o);
      var tail := [Register(Artifact(Coordinator, OutcomeDoc(o)))] + [Append(Record(w.owed.value, a.at))];
      AlongConcat(Inv, w, work.writes, tail);
      assert Recording(CompleteSteps(a, 0), a.at).writes == work.writes + tail;
    }
  }

  lemma {:induction false} OrdinaryPromisesNothing(at: (TaskState, bool), writes: seq<Write>, before: seq<Write>)
    requires Flow(at, writes).Some? && Pending(before) == None
    ensures Pending(before + writes) == None
    decreases |writes|
  {
    hide Allowed, Authorized, KindOf;
    if writes == [] {
      assert before + writes == before;
    } else {
      assert (before + [writes[0]])[..|before|] == before;
      OrdinaryPromisesNothing(FlowOne(at, writes[0]).value, writes[1..], before + [writes[0]]);
      assert before + [writes[0]] + writes[1..] == before + writes;
    }
  }

  lemma ExecutePromise(a: Attempt)
    ensures var work := CompleteSteps(a, 0);
            Pending(Begun(a) + Recording(work, a.at).writes) == if work.result.Ok? then Some(work.result.value) else None
  {
    var work := CompleteSteps(a, 0);
    if work.result.Ok? {
      PendingLast(Begun(a) + work.writes, Record(work.result.value, a.at), []);
      assert Begun(a) + work.writes + [Append(Record(work.result.value, a.at))] + [] == Begun(a) + Recording(work, a.at).writes;
    } else {
      ImplementFlow(a, 1);
      var x, y := MakeDirectory, Register(Artifact(Coordinator, IntentDoc(a.setup)));
      assert Begun(a) == [x, y] && [x, y][..1] == [x] && [x][..0] == [];
      assert Pending([x]) == None;
      assert Pending([x, y]) == Pending([x, y][..1]);
      OrdinaryPromisesNothing((Draft, false), work.writes, Begun(a));
    }
  }

  lemma BegunAlong(w: World, a: Attempt)
    requires Inv(w) && !w.state.directory
    ensures Along(Inv, w, Begun(a))
    ensures var w' := PutAll(w, Begun(a));
            && w'.owed == w.owed && w'.origin == w.origin && Executing(w'.state, w'.origin)
            && w'.state.artifacts == [Artifact(Coordinator, IntentDoc(a.setup))] && w'.state.journal == [] && w'.state.agentStarts == 0
  {
    assert StageInv(w, |w.state.ledger|);
    var x, y := MakeDirectory, Register(Artifact(Coordinator, IntentDoc(a.setup)));
    var w1 := Put(w, x);
    var w2 := Put(w1, y);
    SelectRegister([], y.artifact, Intents);
    SelectRegister([], y.artifact, OutcomeDocs);
    assert w2.state.artifacts == [y.artifact];
    ExecutingIsInv(w1);
    ExecutingIsInv(w2);
    AlongCons(Inv, w1, y, []);
    AlongCons(Inv, w, x, [y]);
    assert Begun(a) == [x] + [y] && Begun(a)[..1] == [x] && [x][..0] == [];
    assert PutAll(w, [x]) == w1;
  }

  lemma OwedIsFree(w: World, p: Option<Payload>)
    requires Inv(w) && !w.state.directory
    ensures Inv(w.(owed := p))
  {
    assert StageInv(w, |w.state.ledger|);
    assert StageInv(w.(owed := p), 0);
  }

  lemma ExecuteAlong(w: World, a: Attempt)
    requires Inv(w)
    ensures var writes := ExecuteSteps(w.state, a).writes;
            Along(Inv, Promise(w, writes), writes)
  {
    if a.admitted && !w.state.directory {
      assert StageInv(w, |w.state.ledger|);
      var writes := ExecuteSteps(w.state, a).writes;
      assert writes == Begun(a) + Recording(CompleteSteps(a, 0), a.at).writes;
      ExecutePromise(a);
      OwedIsFree(w, Pending(writes));
      var w0 := Promise(w, writes);
      BegunAlong(w0, a);
      CompleteAlong(PutAll(w0, Begun(a)), a);
      AlongConcat(Inv, w0, Begun(a), Recording(CompleteSteps(a, 0), a.at).writes);
    }
  }
}
