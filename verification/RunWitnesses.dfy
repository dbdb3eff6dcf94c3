/**
 Runs that really happen, from any repository and for any attempt that an environment could make:
 each defect has an execution that leads to it, and the five calls in order lead to a finished run.
 */
module RunWitnesses {
  import opened Outcomes
  import opened LocalRun
  import opened Recovery
  import opened RunInvariant
  import RunExecution
  import opened RunCalls
  import opened RunRecovery
  import opened RunTheorems
  import opened RunAnswers
  import opened RunRoutes
  import G = GitIntegration

  // ---- one more call ----------------------------------------------------------------------

  lemma {:induction false} RunSnoc(w: World, events: seq<Event>, e: Event)
    ensures Run(w, events + [e]) == Next(Run(w, events), e)
    decreases |events|
  {
    hide Next;
    if events == [] {
      assert events + [e] == [e] && [e][1..] == [];
      assert Run(w, [e]) == Run(Next(w, e), []) == Next(w, e);
    } else {
      assert (events + [e])[1..] == events[1..] + [e];
      RunSnoc(Next(w, events[0]), events[1..], e);
    }
  }

  /** The call runs to its end. */
  function Whole(s: State, call: Call): Event {
    Event(call, |StepsOf(s, call).writes|)
  }

  lemma CutCall(w: World, call: Call, n: nat)
    requires Inv(w) && n <= |StepsOf(w.state, call).writes|
    ensures Next(w, Event(call, n)).state == After(w.state, StepsOf(w.state, call).writes[..n])
    ensures Inv(Next(w, Event(call, n)))
  {
    var writes := StepsOf(w.state, call).writes;
    EveryCallKeepsTheInvariant(w, Event(call, n));
    hide Inv, StepsOf;
    PutAllIsAfter(Promise(w, writes), writes[..n]);
  }

  lemma WholeCall(w: World, call: Call)
    requires Inv(w)
    ensures Next(w, Whole(w.state, call)).state == After(w.state, StepsOf(w.state, call).writes)
    ensures Inv(Next(w, Whole(w.state, call)))
  {
    var writes := StepsOf(w.state, call).writes;
    CutCall(w, call, |writes|);
    hide Inv, StepsOf;
    assert writes[..|writes|] == writes;
  }

  predicate NoRecord(writes: seq<Write>) {
    forall k | 0 <= k < |writes| :: !writes[k].Append?
  }

  lemma {:induction false} NoRecordKeepsLedger(s: State, writes: seq<Write>)
    requires NoRecord(writes)
    ensures After(s, writes).ledger == s.ledger
    decreases |writes|
  {
    if writes != [] {
      NoRecordKeepsLedger(s, writes[..|writes| - 1]);
    }
  }

  /** A call that dies just before its record leaves that record owed. */
  lemma CutBeforeTheRecord(w: World, call: Call, front: seq<Write>, r: Record)
    requires Inv(w) && StepsOf(w.state, call).writes == front + [Append(r)] && NoRecord(front)
    ensures var w' := Next(w, Event(call, |front|));
            Inv(w') && w'.state == After(w.state, front) && w'.state.ledger == w.state.ledger && w'.owed == Some(r.payload)
  {
    var writes := StepsOf(w.state, call).writes;
    CutCall(w, call, |front|);
    NoRecordKeepsLedger(w.state, front);
    PendingLast(front, r, []);
    assert front + [Append(r)] + [] == writes && writes[..|front|] == front;
    hide Inv, StepsOf;
    OwedStays(Promise(w, writes), front);
  }

  // ---- an execution -----------------------------------------------------------------------

  /** The agent ends normally with a change within the task's paths; the checks and their verdict are open. */
  predicate Workable(a: Attempt) {
    && a.admitted && a.authorized && a.workspaceFree && !a.actor.Agent? && a.end == Finished
    && PatchOf(a) != map[] && PatchOf(a).Keys <= a.setup.allowed
  }

  function PatchOf(a: Attempt): G.Patch {
    G.Diff(a.setup.base.tree, a.edited)
  }

  /** What a workable attempt records in an empty run directory. */
  function OutcomeFor(a: Attempt): Outcome {
    Outcome(if a.passes then Reviewing else Repairing, Some(PatchOf(a)), Some(7), Some(ReportOf(a, PatchOf(a))),
            UpTo(1, 7) + {8 + a.checks})
  }

  function Prelude(a: Attempt): seq<Write> {
    Begun(a) + StartSteps(a, 1).writes + Results() + [Register(Artifact(Controller, PatchText(PatchOf(a)))), Transit(Checking(a, 1))]
  }

  function Findings(a: Attempt): seq<Write> {
    [Register(Artifact(Engine, VerificationDoc(ReportOf(a, PatchOf(a))))), Transit(Verdict(a, 1)),
     Register(Artifact(Coordinator, OutcomeDoc(OutcomeFor(a))))]
  }

  /** Every write of the execution but its record. */
  function BeforeTheRecord(a: Attempt): seq<Write> {
    Prelude(a) + (Checks(a) + Findings(a))
  }

  /** The validation commands and the tree they leave. */
  function Checks(a: Attempt): seq<Write> {
    [Edit(a.checked)] + CheckWrites(a.checks)
  }

  function Nothing(git: G.Repo): State {
    Initial(git).state
  }

  lemma ImplementationWrites(a: Attempt)
    requires Workable(a)
    ensures var work := ImplementSteps(a, 1);
            && work.result == Ok(OutcomeFor(a))
            && Begun(a) + work.writes + [Findings(a)[2]] == BeforeTheRecord(a)
  {
    hide ReportOf, UpTo, Verdict, Checking, Planning, Begin, CheckWrites;
    var filed, end := Register(Artifact(Controller, PatchText(PatchOf(a)))), Transit(Checking(a, 1));
    var middle, last := Checks(a), Findings(a)[..2];
    assert VerifySteps(a, PatchOf(a), 1).writes == [end] + (middle + last);
    assert EndSteps(a, 1).writes == Results() + ([filed] + ([end] + (middle + last)));
    hide VerifySteps, PatchSteps, EndSteps, StartSteps, Results, Begun;
    assert BeforeTheRecord(a) == Begun(a) + (StartSteps(a, 1).writes + (Results() + ([filed] + ([end] + (middle + last))))) + [Findings(a)[2]];
  }

  lemma ExecutionWrites(git: G.Repo, a: Attempt)
    requires Workable(a)
    ensures ExecuteSteps(Nothing(git), a).result.Ok?
    ensures exists p: Payload :: p.Execution? && p.setup == a.setup && p.outcome == OutcomeFor(a)
              && ExecuteSteps(Nothing(git), a).writes == BeforeTheRecord(a) + [Append(Record(p, a.at))]
  {
    ImplementationWrites(a);
    var work := ImplementSteps(a, 1);
    var p := Execution(a.setup, OutcomeFor(a), 0, 1 + |Registered(work.writes)|);
    RecordedWrites(git, a, p);
    hide *;
  }

  lemma RecordedWrites(git: G.Repo, a: Attempt, p: Payload)
    requires Workable(a) && ImplementSteps(a, 1).result == Ok(OutcomeFor(a))
    requires p == Execution(a.setup, OutcomeFor(a), 0, 1 + |Registered(ImplementSteps(a, 1).writes)|)
    ensures ExecuteSteps(Nothing(git), a)
            == Steps(Begun(a) + ImplementSteps(a, 1).writes + [Findings(a)[2]] + [Append(Record(p, a.at))], Ok(()))
  {
    hide ImplementSteps, OutcomeFor;
    var writes, filed := ImplementSteps(a, 1).writes, [Findings(a)[2]];
    assert CompleteSteps(a, 0) == Steps(writes + filed, Ok(p));
    hide CompleteSteps, Findings, Begun;
    assert Begun(a) + (writes + filed + [Append(Record(p, a.at))]) == Begun(a) + writes + filed + [Append(Record(p, a.at))];
  }

  predicate OnlyRegisters(writes: seq<Write>) {
    forall i | 0 <= i < |writes| :: writes[i].Register?
  }

  lemma {:induction false} RegistersKeep(s: State, writes: seq<Write>)
    requires OnlyRegisters(writes)
    ensures After(s, writes) == s.(artifacts := After(s, writes).artifacts)
    decreases |writes|
  {
    if writes != [] {
      RegistersKeep(s, writes[..|writes| - 1]);
    }
  }

  lemma {:induction false} ChecksOnlyRegister(count: nat)
    ensures OnlyRegisters(CheckWrites(count))
  {
    if count > 0 {
      ChecksOnlyRegister(count - 1);
    }
  }

  lemma ChecksLeave(s: State, a: Attempt)
    ensures After(s, Checks(a)).git.workTree == a.checked
  {
    AfterConcat(s, [Edit(a.checked)], CheckWrites(a.checks));
    AfterFew(s, Edit(a.checked), Edit(a.checked));
    ChecksOnlyRegister(a.checks);
    RegistersKeep(Apply(s, Edit(a.checked)), CheckWrites(a.checks));
  }

  lemma FindingsLeave(s: State, a: Attempt)
    ensures var s' := After(s, Findings(a));
            && s'.git == s.git && s'.journal == s.journal + [Verdict(a, 1)]
            && s'.artifacts != [] && s'.artifacts[|s'.artifacts| - 1].content == OutcomeDoc(OutcomeFor(a))
  {
    var f := Findings(a);
    AfterFew(s, f[0], f[1]);
    AfterOne(s, [f[0], f[1]], f[2]);
    assert f == [f[0], f[1]] + [f[2]];
    hide OutcomeFor, ReportOf, Verdict;
  }

  /** The stores once the outcome is filed: the tree is what the checks left, the journal ends in the verdict. */
  lemma BeforeTheRecordState(git: G.Repo, a: Attempt)
    ensures var s := After(Nothing(git), BeforeTheRecord(a));
            && s.git.workTree == a.checked && s.journal != [] && Last(s.journal) == Verdict(a, 1)
            && s.artifacts != [] && s.artifacts[|s.artifacts| - 1].content == OutcomeDoc(OutcomeFor(a))
  {
    var checks := Checks(a);
    hide CheckWrites, OutcomeFor, Prelude, Findings, Verdict, After, Checks;
    var s0 := After(Nothing(git), Prelude(a));
    AfterConcat(Nothing(git), Prelude(a), checks + Findings(a));
    AfterConcat(s0, checks, Findings(a));
    ChecksLeave(s0, a);
    FindingsLeave(After(s0, checks), a);
  }

  function TransitsOf(writes: seq<Write>): seq<Transition> {
    if writes == [] then []
    else
      var rest, x := TransitsOf(writes[..|writes| - 1]), writes[|writes| - 1];
      if x.Transit? then rest + [x.transition] else rest
  }

  lemma {:induction false} TransitsConcat(a: seq<Write>, b: seq<Write>)
    ensures TransitsOf(a + b) == TransitsOf(a) + TransitsOf(b)
    decreases |b|
  {
    if b == [] {
      assert a + b == a;
    } else {
      TransitsConcat(a, b[..|b| - 1]);
      assert (a + b)[..|a + b| - 1] == a + b[..|b| - 1];
    }
  }

  lemma {:induction false} JournalAfter(s: State, writes: seq<Write>)
    ensures After(s, writes).journal == s.journal + TransitsOf(writes)
    decreases |writes|
  {
    if writes != [] {
      JournalAfter(s, writes[..|writes| - 1]);
    }
  }

  lemma OneWrite(x: Write)
    ensures Registered([x]) == (if x.Register? then [x.artifact] else [])
    ensures TransitsOf([x]) == if x.Transit? then [x.transition] else []
  {
    assert [x][..0] == [];
  }

  lemma PairOfWrites(x: Write, y: Write)
    ensures Registered([x, y]) == Registered([x]) + Registered([y]) && TransitsOf([x, y]) == TransitsOf([x]) + TransitsOf([y])
  {
    RunExecution.RegisteredConcat([x], [y]);
    TransitsConcat([x], [y]);
    assert [x] + [y] == [x, y];
  }

  lemma TripleOfWrites(x: Write, y: Write, z: Write)
    ensures Registered([x, y, z]) == Registered([x]) + Registered([y]) + Registered([z])
    ensures TransitsOf([x, y, z]) == TransitsOf([x]) + TransitsOf([y]) + TransitsOf([z])
  {
    PairOfWrites(x, y);
    RunExecution.RegisteredConcat([x, y], [z]);
    TransitsConcat([x, y], [z]);
    assert [x, y] + [z] == [x, y, z];
  }

  function Repeated<T>(x: T, count: nat): seq<T> {
    seq(count, _ => x)
  }

  lemma {:induction false} ChecksFile(count: nat)
    ensures Registered(CheckWrites(count)) == Repeated(Artifact(Engine, CommandResult), count) && TransitsOf(CheckWrites(count)) == []
  {
    if count > 0 {
      ChecksFile(count - 1);
      var x := Register(Artifact(Engine, CommandResult));
      OneWrite(x);
      RunExecution.RegisteredConcat(CheckWrites(count - 1), [x]);
      TransitsConcat(CheckWrites(count - 1), [x]);
    }
  }

  lemma FilesTwo(x: Artifact, y: Artifact)
    ensures Registered([Register(x), Register(y)]) == [x, y] && TransitsOf([Register(x), Register(y)]) == []
  {
    OneWrite(Register(x));
    OneWrite(Register(y));
    PairOfWrites(Register(x), Register(y));
  }

  lemma FilesThree(x: Artifact, y: Artifact, z: Artifact)
    ensures var writes := [Register(x), Register(y), Register(z)]; Registered(writes) == [x, y, z] && TransitsOf(writes) == []
  {
    OneWrite(Register(x));
    OneWrite(Register(y));
    OneWrite(Register(z));
    TripleOfWrites(Register(x), Register(y), Register(z));
  }

  lemma BegunLeaves(a: Attempt)
    ensures Registered(Begun(a)) == [Artifact(Coordinator, IntentDoc(a.setup))] && TransitsOf(Begun(a)) == []
  {
    var x := Register(Artifact(Coordinator, IntentDoc(a.setup)));
    OneWrite(MakeDirectory);
    OneWrite(x);
    PairOfWrites(MakeDirectory, x);
    hide Registered, TransitsOf;
  }

  lemma PreparedLeaves()
    ensures Registered(Prepared()) == [Artifact(Controller, TaskSpecification), Artifact(Controller, ExecutionAuthorization),
                                       Artifact(Controller, ValidationProfile)]
    ensures TransitsOf(Prepared()) == []
  {
    FilesThree(Artifact(Controller, TaskSpecification), Artifact(Controller, ExecutionAuthorization), Artifact(Controller, ValidationProfile));
    hide Registered, TransitsOf;
  }

  lemma PlanLeaves(a: Attempt)
    ensures Registered(PlanWrites(a, 1)) == []
    ensures TransitsOf(PlanWrites(a, 1)) == [Transition(Draft, Planned, System, {ArtifactId(1), ArtifactId(3)}, a.at)]
  {
    var x, y := AddWorktree(a.setup.base, a.setup.branch), Transit(Planning(a, 1));
    OneWrite(x);
    OneWrite(y);
    PairOfWrites(x, y);
    hide Registered, TransitsOf;
  }

  lemma LaunchLeaves(a: Attempt)
    ensures Registered(LaunchWrites(a, 1)) == []
    ensures TransitsOf(LaunchWrites(a, 1)) == [Transition(Planned, Implementing, a.actor, {ArtifactId(2), Name(a.setup.workspace)}, a.at)]
  {
    var x := Transit(Begin(a, 1));
    OneWrite(x);
    OneWrite(StartAgent);
    OneWrite(Edit(a.edited));
    TripleOfWrites(x, StartAgent, Edit(a.edited));
    hide Registered, TransitsOf;
  }

  lemma StartLeaves(a: Attempt)
    requires Workable(a)
    ensures var start := Begun(a) + StartSteps(a, 1).writes;
            && Registered(start) == [Artifact(Coordinator, IntentDoc(a.setup)), Artifact(Controller, TaskSpecification),
                                     Artifact(Controller, ExecutionAuthorization), Artifact(Controller, ValidationProfile)]
            && TransitsOf(start) == [Transition(Draft, Planned, System, {ArtifactId(1), ArtifactId(3)}, a.at),
                                     Transition(Planned, Implementing, a.actor, {ArtifactId(2), Name(a.setup.workspace)}, a.at)]
  {
    assert StartSteps(a, 1).writes == Prepared() + PlanWrites(a, 1) + LaunchWrites(a, 1);
    hide Registered, TransitsOf, Begun, Prepared, PlanWrites, LaunchWrites, StartSteps, Workable;
    BegunLeaves(a);
    PreparedLeaves();
    PlanLeaves(a);
    LaunchLeaves(a);
    FourJoin(Begun(a), Prepared(), PlanWrites(a, 1), LaunchWrites(a, 1));
  }

  lemma FourJoin(b: seq<Write>, p: seq<Write>, q: seq<Write>, l: seq<Write>)
    ensures Registered(b + (p + q + l)) == Registered(b) + Registered(p) + Registered(q) + Registered(l)
    ensures TransitsOf(b + (p + q + l)) == TransitsOf(b) + TransitsOf(p) + TransitsOf(q) + TransitsOf(l)
  {
    hide Registered, TransitsOf;
    RunExecution.RegisteredConcat(p, q);
    RunExecution.RegisteredConcat(p + q, l);
    RunExecution.RegisteredConcat(b, p + q + l);
    TransitsConcat(p, q);
    TransitsConcat(p + q, l);
    TransitsConcat(b, p + q + l);
  }

  lemma ResultsLeave(a: Attempt)
    ensures var filed := Results() + [Register(Artifact(Controller, PatchText(PatchOf(a)))), Transit(Checking(a, 1))];
            && Registered(filed) == [Artifact(Controller, AgentRunResult), Artifact(Executor, RawEvents), Artifact(Executor, Stderr),
                                     Artifact(Controller, PatchText(PatchOf(a)))]
            && TransitsOf(filed) == [Transition(Implementing, Verifying, System, {ArtifactId(4), ArtifactId(7), ArtifactId(3)}, a.at)]
  {
    var patch, check := Register(Artifact(Controller, PatchText(PatchOf(a)))), Transit(Checking(a, 1));
    FilesThree(Artifact(Controller, AgentRunResult), Artifact(Executor, RawEvents), Artifact(Executor, Stderr));
    OneWrite(patch);
    OneWrite(check);
    PairOfWrites(patch, check);
    RunExecution.RegisteredConcat(Results(), [patch, check]);
    TransitsConcat(Results(), [patch, check]);
    hide Registered, TransitsOf, PatchOf;
  }

  lemma FindingsLeaveDocuments(a: Attempt)
    ensures Registered(Findings(a)) == [Artifact(Engine, VerificationDoc(Report(a.reportId, PatchOf(a), a.passes))),
                                        Artifact(Coordinator, OutcomeDoc(OutcomeFor(a)))]
    ensures TransitsOf(Findings(a)) == [Transition(Verifying, if a.passes then Reviewing else Repairing, System,
                                                   {ArtifactId(8 + a.checks), ArtifactId(7), Name(a.reportId)}, a.at)]
  {
    var x, t := Register(Artifact(Engine, VerificationDoc(ReportOf(a, PatchOf(a))))), Transit(Verdict(a, 1));
    var y := Register(Artifact(Coordinator, OutcomeDoc(OutcomeFor(a))));
    OneWrite(x);
    OneWrite(t);
    OneWrite(y);
    TripleOfWrites(x, t, y);
    hide Registered, TransitsOf, OutcomeFor, PatchOf;
  }

  lemma ChecksLeaveDocuments(a: Attempt)
    ensures Registered(Checks(a)) == Repeated(Artifact(Engine, CommandResult), a.checks) && TransitsOf(Checks(a)) == []
  {
    ChecksFile(a.checks);
    OneWrite(Edit(a.checked));
    RunExecution.RegisteredConcat([Edit(a.checked)], CheckWrites(a.checks));
    TransitsConcat([Edit(a.checked)], CheckWrites(a.checks));
    hide Registered, TransitsOf, CheckWrites;
  }

  /** Everything an execution files and journals, in order: by whom, and what each transition cites. */
  lemma ExecutionLeaves(git: G.Repo, a: Attempt)
    requires Workable(a)
    ensures var s := After(Nothing(git), BeforeTheRecord(a));
            && s.artifacts ==
               [Artifact(Coordinator, IntentDoc(a.setup)), Artifact(Controller, TaskSpecification),
                Artifact(Controller, ExecutionAuthorization), Artifact(Controller, ValidationProfile),
                Artifact(Controller, AgentRunResult), Artifact(Executor, RawEvents), Artifact(Executor, Stderr),
                Artifact(Controller, PatchText(PatchOf(a)))]
               + Repeated(Artifact(Engine, CommandResult), a.checks)
               + [Artifact(Engine, VerificationDoc(Report(a.reportId, PatchOf(a), a.passes))), Artifact(Coordinator, OutcomeDoc(OutcomeFor(a)))]
            && s.journal ==
               [Transition(Draft, Planned, System, {ArtifactId(1), ArtifactId(3)}, a.at),
                Transition(Planned, Implementing, a.actor, {ArtifactId(2), Name(a.setup.workspace)}, a.at),
                Transition(Implementing, Verifying, System, {ArtifactId(4), ArtifactId(7), ArtifactId(3)}, a.at),
                Transition(Verifying, if a.passes then Reviewing else Repairing, System,
                           {ArtifactId(8 + a.checks), ArtifactId(7), Name(a.reportId)}, a.at)]
  {
    hide *;
    StartLeaves(a);
    ResultsLeave(a);
    FindingsLeaveDocuments(a);
    ChecksLeaveDocuments(a);
    PreludeSplits(a);
    RegistryAfter(Nothing(git), BeforeTheRecord(a));
    JournalAfter(Nothing(git), BeforeTheRecord(a));
    NothingYet(git);
    var filed := Results() + [Register(Artifact(Controller, PatchText(PatchOf(a)))), Transit(Checking(a, 1))];
    BeforeTheRecordJoins(a);
    FourJoin([], Begun(a) + StartSteps(a, 1).writes + filed, Checks(a), Findings(a));
    RunExecution.RegisteredConcat(Begun(a) + StartSteps(a, 1).writes, filed);
    TransitsConcat(Begun(a) + StartSteps(a, 1).writes, filed);
    EmptyWrites();
    assert [] + (Begun(a) + StartSteps(a, 1).writes + filed + Checks(a) + Findings(a))
           == Begun(a) + StartSteps(a, 1).writes + filed + Checks(a) + Findings(a);
  }

  lemma NothingYet(git: G.Repo)
    ensures Nothing(git).artifacts == [] && Nothing(git).journal == []
  {
  }

  lemma EmptyWrites()
    ensures Registered([]) == [] && TransitsOf([]) == []
  {
  }

  lemma BeforeTheRecordJoins(a: Attempt)
    ensures BeforeTheRecord(a) == Prelude(a) + Checks(a) + Findings(a)
  {
    hide Prelude, Checks, Findings;
  }

  lemma PreludeSplits(a: Attempt)
    ensures Prelude(a) == Begun(a) + StartSteps(a, 1).writes
                          + (Results() + [Register(Artifact(Controller, PatchText(PatchOf(a)))), Transit(Checking(a, 1))])
  {
    hide Begun, StartSteps, Results, PatchOf, Checking;
  }

  // ---- an execution that dies before its record -------------------------------------------

  function DiedUnrecorded(a: Attempt): seq<Event> {
    [Event(Execute(a), |BeforeTheRecord(a)|)]
  }

  lemma OnlyCall(w: World, e: Event)
    ensures Run(w, [e]) == Next(w, e)
  {
    RunSnoc(w, [], e);
    assert [] + [e] == [e];
  }

  lemma NothingRecordedBefore(a: Attempt)
    requires Workable(a)
    ensures NoRecord(BeforeTheRecord(a))
  {
    ChecksOnlyRegister(a.checks);
    hide CheckWrites, OutcomeFor, ReportOf, Planning, Begin, Checking, Verdict;
    assert NoRecord(Prelude(a)) && NoRecord(Checks(a)) && NoRecord(Findings(a));
  }

  lemma UnrecordedStores(git: G.Repo, a: Attempt)
    requires Workable(a)
    ensures var w := Reached(git, DiedUnrecorded(a));
            && Inv(w) && w.state == After(Nothing(git), BeforeTheRecord(a)) && w.state.ledger == []
            && w.owed.Some? && w.owed.value.Execution? && w.owed.value.outcome == OutcomeFor(a) && w.owed.value.setup == a.setup
  {
    ExecutionWrites(git, a);
    NothingRecordedBefore(a);
    InitialIsInv(git);
    hide BeforeTheRecord, ExecuteSteps, OutcomeFor, Inv, Next, After;
    var p: Payload :| p.Execution? && p.setup == a.setup && p.outcome == OutcomeFor(a)
              && ExecuteSteps(Nothing(git), a).writes == BeforeTheRecord(a) + [Append(Record(p, a.at))];
    CutBeforeTheRecord(Initial(git), Execute(a), BeforeTheRecord(a), Record(p, a.at));
    OnlyCall(Initial(git), DiedUnrecorded(a)[0]);
  }

  lemma DifferentTreesDifferentPatches(base: G.Tree, x: G.Tree, y: G.Tree)
    ensures G.Diff(base, x) == G.Diff(base, y) <==> x == y
  {
    G.PatchRoundTrip(base, x);
    G.PatchRoundTrip(base, y);
  }

  lemma CollectsIff(git: G.Repo, a: Attempt)
    requires Workable(a) && git.workTree == a.checked
    ensures CollectPatch(git, a.setup) == Some(PatchOf(a)) <==> a.checked == a.edited
  {
    DifferentTreesDifferentPatches(a.setup.base.tree, a.checked, a.edited);
    hide G.Diff;
  }

  lemma UnrecordedStatus(w: World, a: Attempt)
    requires Inv(w) && w.state.ledger == [] && OutcomeOnFile(w.state)
    requires w.owed.Some? && w.owed.value.Execution? && w.owed.value.outcome == OutcomeFor(a) && w.owed.value.setup == a.setup
    ensures Assess(w.state) == if CollectPatch(w.state.git, a.setup) == Some(PatchOf(a)) then Recoverable(ResumeExecution) else Invalid
  {
    hide Inv, StageInv, Assess, LoadExecutionGap, Fresh, OutcomeSound, Select, G.Diff, CollectPatch, PatchOf;
    AssessSays(w);
    LoadsExecution(w);
  }

  /**
   Exactly when an execution that filed its outcome and died can be recovered: when the validation
   commands, which run after the patch was collected, left the worktree as the agent had.
   */
  lemma ExecutionGapNeedsAnUnchangedWorktree(git: G.Repo, a: Attempt)
    requires Workable(a)
    ensures Assess(Reached(git, DiedUnrecorded(a)).state) == if a.checked == a.edited then Recoverable(ResumeExecution) else Invalid
  {
    hide *;
    UnrecordedStores(git, a);
    BeforeTheRecordState(git, a);
    var w := Reached(git, DiedUnrecorded(a));
    CollectsIff(w.state.git, a);
    OutcomeIsOnFile(w.state);
    UnrecordedStatus(w, a);
  }

  lemma OutcomeIsOnFile(s: State)
    requires s.artifacts != [] && s.artifacts[|s.artifacts| - 1].content.OutcomeDoc?
    ensures OutcomeOnFile(s)
  {
  }

  // ---- the whole execution ----------------------------------------------------------------

  predicate NoGit(writes: seq<Write>) {
    forall k | 0 <= k < |writes| :: !writes[k].Git?
  }

  lemma {:induction false} NoGitKeepsTarget(s: State, writes: seq<Write>)
    requires NoGit(writes)
    ensures var s' := After(s, writes);
            s'.git.target == s.git.target && s'.git.targetTree == s.git.targetTree && s'.git.targetBranch == s.git.targetBranch
    decreases |writes|
  {
    if writes != [] {
      NoGitKeepsTarget(s, writes[..|writes| - 1]);
    }
  }

  lemma NoGitBefore(a: Attempt)
    requires Workable(a)
    ensures NoGit(BeforeTheRecord(a))
  {
    ChecksOnlyRegister(a.checks);
    hide CheckWrites, OutcomeFor, ReportOf, Planning, Begin, Checking, Verdict;
    assert NoGit(Prelude(a)) && NoGit(Checks(a)) && NoGit(Findings(a));
  }

  /** The world after one whole call from the start. */
  function Began(git: G.Repo, a: Attempt): World {
    Next(Initial(git), Whole(Nothing(git), Execute(a)))
  }

  /** A workable attempt whose checks pass, recorded and awaiting its review. */
  ghost predicate ReadyForReview(w: World, git: G.Repo, a: Attempt) {
    var s := w.state;
    && Inv(w) && |s.ledger| == 1 && StagesInOrder(s.ledger) && s.directory && w.origin == git.target
    && SetupOf(s) == a.setup && OutcomeOf(s) == OutcomeFor(a) && Reviewable(OutcomeOf(s))
    && CurrentState(s.journal) == Reviewing && GitAsExecuted(s.git, git, a)
  }

  predicate GitAsExecuted(now: G.Repo, before: G.Repo, a: Attempt) {
    && now.workTree == a.checked && now.checkedOut == a.setup.branch && now.head == a.setup.base == now.tip
    && now.target == before.target && now.targetTree == before.targetTree && now.targetBranch == before.targetBranch
  }

  lemma BeganStores(git: G.Repo, a: Attempt)
    requires Workable(a)
    ensures var w, front := Began(git, a), After(Nothing(git), BeforeTheRecord(a));
            && Inv(w) && w.origin == git.target && front.ledger == []
            && exists p: Payload :: p.Execution? && p.setup == a.setup && p.outcome == OutcomeFor(a)
                 && w.state == Apply(front, Append(Record(p, a.at)))
  {
    ExecutionWrites(git, a);
    NothingRecordedBefore(a);
    NoRecordKeepsLedger(Nothing(git), BeforeTheRecord(a));
    InitialIsInv(git);
    EveryCallKeepsTheInvariant(Initial(git), Whole(Nothing(git), Execute(a)));
    WholeCall(Initial(git), Execute(a));
    hide BeforeTheRecord, ExecuteSteps, OutcomeFor, Inv, Next, After;
    var p: Payload :| p.Execution? && p.setup == a.setup && p.outcome == OutcomeFor(a)
              && ExecuteSteps(Nothing(git), a).writes == BeforeTheRecord(a) + [Append(Record(p, a.at))];
    AfterOne(Nothing(git), BeforeTheRecord(a), Append(Record(p, a.at)));
  }

  lemma RecordedExecutionShape(w: World)
    requires Inv(w) && |w.state.ledger| == 1
    ensures StagesInOrder(w.state.ledger) && w.state.directory && w.state.card == NoCard
    ensures w.state.git.checkedOut == SetupOf(w.state).branch && w.state.git.head == SetupOf(w.state).base == w.state.git.tip
  {
    hide Legal, OutcomeSound;
    assert StageInv(w, 1);
  }

  lemma BeganIsReady(git: G.Repo, a: Attempt)
    requires Workable(a) && a.passes
    ensures ReadyForReview(Began(git, a), git, a)
  {
    BeganStores(git, a);
    BeforeTheRecordState(git, a);
    NoGitBefore(a);
    NoGitKeepsTarget(Nothing(git), BeforeTheRecord(a));
    var front := After(Nothing(git), BeforeTheRecord(a));
    hide *;
    var p: Payload :| p.Execution? && p.setup == a.setup && p.outcome == OutcomeFor(a)
              && Began(git, a).state == Apply(front, Append(Record(p, a.at)));
    RecordMakesReady(Began(git, a), front, git, a, p);
  }

  lemma RecordMakesReady(w: World, front: State, git: G.Repo, a: Attempt, p: Payload)
    requires Inv(w) && w.origin == git.target && a.passes
    requires p.Execution? && p.setup == a.setup && p.outcome == OutcomeFor(a)
    requires front.ledger == [] && front.git.workTree == a.checked && front.journal != [] && Last(front.journal) == Verdict(a, 1)
    requires front.git.target == Nothing(git).git.target && front.git.targetTree == Nothing(git).git.targetTree
    requires front.git.targetBranch == Nothing(git).git.targetBranch
    requires w.state == Apply(front, Append(Record(p, a.at)))
    ensures ReadyForReview(w, git, a)
  {
    RecordedExecutionShape(w);
    hide Inv, UpTo, G.Diff;
  }

  // ---- a review ---------------------------------------------------------------------------

  predicate CanReview(i: ReviewInput) {
    !i.blank && (i.review.reviewer.Agent? || i.review.reviewer.Human?)
  }

  lemma AfterFirst(s: State, x: Write, rest: seq<Write>)
    ensures After(s, [x] + rest) == After(Apply(s, x), rest)
  {
    AfterConcat(s, [x], rest);
    AfterFew(s, x, x);
  }

  /** What a review leaves before its card file, if it has one. */
  function ReviewedState(s: State, i: ReviewInput): State
    requires s.ledger != [] && StagesInOrder(s.ledger) && Reviewable(OutcomeOf(s))
  {
    var d, n := DispositionFor(OutcomeOf(s), i, |s.artifacts|), |s.artifacts|;
    var report := Artifact(Person(NameOf(i.review.reviewer)), ReviewDoc(i.review));
    var card := if i.review.accepted then [Artifact(Controller, CardDoc(CardFor(OutcomeOf(s), i)))] else [];
    s.(artifacts := s.artifacts + [report] + card, journal := s.journal + [ReviewTransition(i, n)],
       ledger := s.ledger + [Record(Reviewed(i.review, d), i.at)])
  }

  lemma ReviewPasses(w: World, git: G.Repo, a: Attempt, i: ReviewInput)
    requires ReadyForReview(w, git, a) && CanReview(i)
    ensures ReviewChecks(w.state, i).None?
  {
    hide Inv;
  }

  lemma RejectionLeaves(w: World, git: G.Repo, a: Attempt, i: ReviewInput)
    requires ReadyForReview(w, git, a) && CanReview(i) && !i.review.accepted
    ensures After(w.state, ReviewSteps(w.state, i).writes) == ReviewedState(w.state, i)
  {
    ReviewPasses(w, git, a, i);
    ReviewWrites(w, i);
    var s := w.state;
    var d, n := DispositionFor(OutcomeOf(s), i, |s.artifacts|), |s.artifacts|;
    var x, t, r := Register(Artifact(Person(NameOf(i.review.reviewer)), ReviewDoc(i.review))), Transit(ReviewTransition(i, n)), Append(Record(Reviewed(i.review, d), i.at));
    assert ReviewSteps(s, i).writes == [x] + ([t] + ([r] + []));
    hide ReviewSteps, ReviewChecks, Inv, ReviewTransition, OutcomeFor;
    AfterFirst(s, x, [t] + ([r] + []));
    AfterFirst(Apply(s, x), t, [r] + []);
    AfterFirst(Apply(Apply(s, x), t), r, []);
  }

  lemma AcceptanceLeaves(w: World, git: G.Repo, a: Attempt, i: ReviewInput)
    requires ReadyForReview(w, git, a) && CanReview(i) && i.review.accepted
    ensures var writes, s' := ReviewSteps(w.state, i).writes, ReviewedState(w.state, i);
            && |writes| == 6
            && After(w.state, writes[..5]) == s'.(card := TornCard)
            && After(w.state, writes) == s'.(card := CardOnFile(CardFor(OutcomeOf(w.state), i)))
  {
    ReviewPasses(w, git, a, i);
    ReviewWrites(w, i);
    var s := w.state;
    var o, n := OutcomeOf(s), |s.artifacts|;
    var d := DispositionFor(o, i, n);
    var x, y := Register(Artifact(Person(NameOf(i.review.reviewer)), ReviewDoc(i.review))), Register(Artifact(Controller, CardDoc(CardFor(o, i))));
    var t, r := Transit(ReviewTransition(i, n)), Append(Record(Reviewed(i.review, d), i.at));
    var writes, fill := ReviewSteps(s, i).writes, FillCard(CardFor(o, i));
    hide ReviewSteps, ReviewChecks, Inv, ReviewTransition, CardFor, After, GitAsExecuted;
    SixWrites(x, y, t, r, fill);
    assert writes == [x] + ([y] + ([t] + ([r] + [OpenCard, fill])));
    FiveWrites(s, x, y, t, r, []);
    FiveWrites(s, x, y, t, r, [fill]);
    FourApplied(s, i);
    var s' := ReviewedState(s, i);
    hide Apply, ReviewedState, DispositionFor, OutcomeFor;
    CardApplied(s', CardFor(o, i));
  }

  lemma FourApplied(s: State, i: ReviewInput)
    requires s.ledger != [] && StagesInOrder(s.ledger) && Reviewable(OutcomeOf(s)) && i.review.accepted
    ensures var o, n := OutcomeOf(s), |s.artifacts|;
            Apply(Apply(Apply(Apply(s, Register(Artifact(Person(NameOf(i.review.reviewer)), ReviewDoc(i.review)))),
                              Register(Artifact(Controller, CardDoc(CardFor(o, i))))),
                        Transit(ReviewTransition(i, n))),
                  Append(Record(Reviewed(i.review, DispositionFor(o, i, n)), i.at))) == ReviewedState(s, i)
  {
    hide CardFor, ReviewTransition;
  }

  lemma CardApplied(s: State, card: Card)
    ensures After(Apply(s, OpenCard), []) == s.(card := TornCard)
    ensures After(Apply(s, OpenCard), [FillCard(card)]) == s.(card := CardOnFile(card))
  {
    AfterFew(Apply(s, OpenCard), FillCard(card), FillCard(card));
  }

  lemma SixWrites(x: Write, y: Write, t: Write, r: Write, fill: Write)
    ensures var writes := [x] + ([y] + ([t] + ([r] + [OpenCard, fill])));
            && |writes| == 6 && writes == [x] + ([y] + ([t] + ([r] + ([OpenCard] + [fill]))))
            && writes[..5] == [x] + ([y] + ([t] + ([r] + ([OpenCard] + []))))
  {
  }

  lemma FiveWrites(s: State, x: Write, y: Write, t: Write, r: Write, rest: seq<Write>)
    ensures After(s, [x] + ([y] + ([t] + ([r] + ([OpenCard] + rest)))))
            == After(Apply(Apply(Apply(Apply(Apply(s, x), y), t), r), OpenCard), rest)
  {
    hide Apply, After;
    AfterFirst(s, x, [y] + ([t] + ([r] + ([OpenCard] + rest))));
    AfterFirst(Apply(s, x), y, [t] + ([r] + ([OpenCard] + rest)));
    AfterFirst(Apply(Apply(s, x), y), t, [r] + ([OpenCard] + rest));
    AfterFirst(Apply(Apply(Apply(s, x), y), t), r, [OpenCard] + rest);
    AfterFirst(Apply(Apply(Apply(Apply(s, x), y), t), r), OpenCard, rest);
  }

  // ---- what goes wrong --------------------------------------------------------------------

  lemma ReachedTwo(git: G.Repo, e1: Event, e2: Event)
    ensures Reached(git, [e1, e2]) == Next(Next(Initial(git), e1), e2)
  {
    OnlyCall(Initial(git), e1);
    RunSnoc(Initial(git), [e1], e2);
    assert [e1] + [e2] == [e1, e2];
  }

  lemma ReachedThree(git: G.Repo, e1: Event, e2: Event, e3: Event)
    ensures Reached(git, [e1, e2, e3]) == Next(Next(Next(Initial(git), e1), e2), e3)
  {
    ReachedTwo(git, e1, e2);
    RunSnoc(Initial(git), [e1, e2], e3);
    assert [e1, e2] + [e3] == [e1, e2, e3];
    hide Next;
  }

  lemma RejectionShape(w: World, i: ReviewInput)
    requires Inv(w) && w.state.ledger != [] && StagesInOrder(w.state.ledger) && |w.state.ledger| == 1
    requires Reviewable(OutcomeOf(w.state))
    ensures var s := ReviewedState(w.state, i);
            |s.ledger| == 2 && StagesInOrder(s.ledger) && !DecisionAhead(s) && (ReviewRejected(s) <==> !i.review.accepted)
            && CurrentState(s.journal) == (if i.review.accepted then MergeReview else Repairing)
  {
    hide Inv;
  }

  /** Every workable attempt can be sent back for changes; its stores then agree and assess calls them invalid. */
  lemma RejectedReviewHappens(git: G.Repo, a: Attempt, i: ReviewInput)
    requires Workable(a) && a.passes && CanReview(i) && !i.review.accepted
    ensures var s := Reached(git, [Whole(Nothing(git), Execute(a)), Whole(Began(git, a).state, Call.Review(i))]).state;
            |s.ledger| == 2 && Inspect(s).None? && Assess(s) == Invalid
  {
    var w1 := Began(git, a);
    BeganIsReady(git, a);
    hide Inv, OutcomeFor, ReviewSteps, Next, Assess, Inspect, ReviewedState, Whole;
    RejectionLeaves(w1, git, a, i);
    WholeCall(w1, Call.Review(i));
    RejectionShape(w1, i);
    ReachedTwo(git, Whole(Nothing(git), Execute(a)), Whole(w1.state, Call.Review(i)));
    RejectedReviewIsCalledInvalid(Next(w1, Whole(w1.state, Call.Review(i))));
  }

  /** A review that is accepted and dies between the two writes of its card. */
  lemma TornCardHappens(git: G.Repo, a: Attempt, i: ReviewInput)
    requires Workable(a) && a.passes && CanReview(i) && i.review.accepted
    ensures var s := Reached(git, [Whole(Nothing(git), Execute(a)), Event(Call.Review(i), 5)]).state;
            s.card == TornCard && |s.ledger| == 2 && Assess(s) == Invalid
  {
    var w1 := Began(git, a);
    BeganIsReady(git, a);
    hide Inv, OutcomeFor, ReviewSteps, Next, Assess, ReviewedState, Whole;
    AcceptanceLeaves(w1, git, a, i);
    CutCall(w1, Call.Review(i), 5);
    RejectionShape(w1, i);
    ReachedTwo(git, Whole(Nothing(git), Execute(a)), Event(Call.Review(i), 5));
    TornStatus(Next(w1, Event(Call.Review(i), 5)));
  }

  lemma TornStatus(w: World)
    requires Inv(w) && |w.state.ledger| == 2 && w.state.card == TornCard && !DecisionAhead(w.state)
    requires StagesInOrder(w.state.ledger) && !ReviewRejected(w.state)
    ensures Assess(w.state) == Invalid
  {
    hide Inv, Assess, DecisionAhead;
    AssessSays(w);
    StageShape(w);
  }

  // ---- a decision -------------------------------------------------------------------------

  function CardOf(a: Attempt, i: ReviewInput): Card {
    Card(i.cardId, {Name(a.reportId), ArtifactId(7), Name(i.review.id)})
  }

  function AfterReview(git: G.Repo, a: Attempt, i: ReviewInput): World {
    Next(Began(git, a), Whole(Began(git, a).state, Call.Review(i)))
  }

  /** An accepted review, recorded, with its card on file. */
  ghost predicate ReadyForDecision(w: World, git: G.Repo, a: Attempt, i: ReviewInput) {
    var s := w.state;
    && Inv(w) && |s.ledger| == 2 && StagesInOrder(s.ledger) && s.directory && w.origin == git.target
    && SetupOf(s) == a.setup && OutcomeOf(s) == OutcomeFor(a)
    && s.ledger[1].payload.disposition.Accepted? && s.ledger[1].payload.disposition.card == CardOf(a, i)
    && CurrentState(s.journal) == MergeReview && GitAsExecuted(s.git, git, a) && s.card == CardOnFile(CardOf(a, i))
  }

  lemma AcceptedIsReady(git: G.Repo, a: Attempt, i: ReviewInput)
    requires Workable(a) && a.passes && CanReview(i) && i.review.accepted
    ensures ReadyForDecision(AfterReview(git, a, i), git, a, i)
  {
    hide *;
    var w1 := Began(git, a);
    BeganIsReady(git, a);
    ReviewParts(w1, git, a, i);
    AcceptanceLeaves(w1, git, a, i);
    WholeCall(w1, Call.Review(i));
    EveryCallKeepsTheInvariant(w1, Whole(w1.state, Call.Review(i)));
    AcceptedShape(w1, Next(w1, Whole(w1.state, Call.Review(i))), git, a, i);
    AfterReviewIs(git, a, i);
  }

  lemma ReviewParts(w: World, git: G.Repo, a: Attempt, i: ReviewInput)
    requires ReadyForReview(w, git, a)
    ensures Inv(w) && w.origin == git.target && w.state.ledger != [] && StagesInOrder(w.state.ledger) && Reviewable(OutcomeOf(w.state))
    ensures ReviewSteps(w.state, i).writes == StepsOf(w.state, Call.Review(i)).writes
  {
    hide Inv, ReviewSteps, Reviewable;
  }

  lemma AfterReviewIs(git: G.Repo, a: Attempt, i: ReviewInput)
    ensures AfterReview(git, a, i) == Next(Began(git, a), Whole(Began(git, a).state, Call.Review(i)))
  {
    hide Next, Whole, Began;
  }

  lemma AcceptedShape(w: World, w2: World, git: G.Repo, a: Attempt, i: ReviewInput)
    requires ReadyForReview(w, git, a) && i.review.accepted && Inv(w2) && w2.origin == w.origin
    requires w2.state == ReviewedState(w.state, i).(card := CardOnFile(CardFor(OutcomeOf(w.state), i)))
    ensures ReadyForDecision(w2, git, a, i)
  {
    hide Inv, GitAsExecuted, UpTo, G.Diff;
  }

  /** An approval of this card by an actor whose authority holds now. */
  predicate Approves(i: DecisionInput, card: Card) {
    && i.decision.Some? && i.authority.Some?
    && var d, u := i.decision.value, i.authority.value;
    && d.card == card && d.choice == Approve && d.evidence == card.evidence
    && u.actor == d.actor && u.mergeAllowed && u.issuedAt <= i.now < u.validUntil
  }

  lemma ApprovalPasses(w: World, git: G.Repo, a: Attempt, r: ReviewInput, i: DecisionInput)
    requires ReadyForDecision(w, git, a, r) && a.passes && Approves(i, CardOf(a, r))
    ensures ApplyDecisionSteps(w.state, i).result.Ok?
  {
    hide Inv, DecisionEvidence, GitAsExecuted, UpTo;
  }

  /**
   Every approval that was in time when it was applied can die unrecorded, and is lost if its
   transition was dated after the authority ran out: exactly then.
   */
  lemma LateApprovalIsLost(git: G.Repo, a: Attempt, r: ReviewInput, i: DecisionInput)
    requires Workable(a) && a.passes && CanReview(r) && r.review.accepted && Approves(i, CardOf(a, r)) && i.now <= i.at
    ensures var s := Reached(git, [Whole(Nothing(git), Execute(a)), Whole(Began(git, a).state, Call.Review(r)), Event(ApplyDecision(i), 3)]).state;
            Assess(s) == if i.at < i.authority.value.validUntil then Recoverable(ResumeDecision) else Invalid
  {
    AcceptedIsReady(git, a, r);
    var w := AfterReview(git, a, r);
    ApprovalPasses(w, git, a, r, i);
    DecisionGapNeedsALivingAuthority(w, i);
    ReachedThree(git, Whole(Nothing(git), Execute(a)), Whole(Began(git, a).state, Call.Review(r)), Event(ApplyDecision(i), 3));
    AfterReviewIs(git, a, r);
    hide Inv, ApplyDecisionSteps, Assess, Next, AfterReview, Whole;
  }

  /** As good a decision as an approval, against the merge. */
  predicate DecidesAgainst(i: DecisionInput, card: Card) {
    && i.decision.Some? && i.authority.Some?
    && var d, u := i.decision.value, i.authority.value;
    && d.card == card && (d.choice == RequestChanges || d.choice == Reject) && d.evidence == card.evidence
    && u.actor == d.actor && u.mergeAllowed && u.issuedAt <= i.now < u.validUntil
  }

  lemma RefusalPasses(w: World, git: G.Repo, a: Attempt, r: ReviewInput, i: DecisionInput)
    requires ReadyForDecision(w, git, a, r) && DecidesAgainst(i, CardOf(a, r))
    ensures ApplyDecisionSteps(w.state, i).result.Ok?
  {
    DecisionSucceedsIff(w, i);
    hide Inv, GitAsExecuted, UpTo, ApplyDecisionSteps;
  }

  lemma RefusedShape(w: World, w': World, git: G.Repo, a: Attempt, r: ReviewInput, i: DecisionInput)
    requires ReadyForDecision(w, git, a, r) && DecidesAgainst(i, CardOf(a, r)) && ApplyDecisionSteps(w.state, i).result.Ok?
    requires Inv(w') && w'.state == After(w.state, ApplyDecisionSteps(w.state, i).writes)
    ensures |w'.state.ledger| == 3 && StagesInOrder(w'.state.ledger) && w'.state.card.CardOnFile? && w'.state.git == w.state.git
    ensures CurrentState(w'.state.journal) == if i.decision.value.choice == Reject then Cancelled else Repairing
    ensures w'.state.ledger[2].payload.decision == i.decision.value
  {
    DecisionLeaves(w.state, i);
    hide Inv, ApplyDecisionSteps, GitAsExecuted, OutcomeFor, CardOf, After;
  }

  lemma RefusedStatus(w: World)
    requires Inv(w) && |w.state.ledger| == 3 && CurrentState(w.state.journal) != Completed && w.state.card.CardOnFile?
    ensures Assess(w.state) == Consistent
  {
    hide Inv, Assess;
    AssessSays(w);
    StageShape(w);
    DecisionFacts(w);
  }

  /**
   A rejection cancels the task and a change request sends it back for repair, for any workable
   attempt; the run is consistent, the target untouched, and no integration is possible any more.
   */
  lemma DecisionAgainstEndsTheRun(git: G.Repo, a: Attempt, r: ReviewInput, i: DecisionInput) returns (events: seq<Event>)
    requires Workable(a) && a.passes && CanReview(r) && r.review.accepted && DecidesAgainst(i, CardOf(a, r))
    ensures |events| == 3 && events[0].call == Execute(a) && events[1].call == Call.Review(r) && events[2].call == ApplyDecision(i)
    ensures var s := Reached(git, events).state;
            && |s.ledger| == 3 && Assess(s) == Consistent && s.git.target == git.target
            && CurrentState(s.journal) == (if i.decision.value.choice == Reject then Cancelled else Repairing)
            && forall c: Clock :: IntegrateSteps(s, c).result.Err?
  {
    var e1, e2 := Whole(Nothing(git), Execute(a)), Whole(Began(git, a).state, Call.Review(r));
    var w2 := AfterReview(git, a, r);
    var e3 := Whole(w2.state, ApplyDecision(i));
    var w3 := Next(w2, e3);
    events := [e1, e2, e3];
    hide Inv, Next, Reached, Assess, IntegrateSteps, Workable, CardOf, GitAsExecuted, ApplyDecisionSteps;
    assert Began(git, a) == Next(Initial(git), e1);
    AcceptedIsReady(git, a, r);
    AfterReviewIs(git, a, r);
    ReachedThree(git, e1, e2, e3);
    RefusalPasses(w2, git, a, r, i);
    DecisionCall(w2, git, a, r, i);
    RefusedShape(w2, w3, git, a, r, i);
    RefusedStatus(w3);
    UntouchedByRefusal(git, w2, a, r);
    forall c: Clock
      ensures IntegrateSteps(w3.state, c).result.Err?
    {
      IntegrateSucceedsIff(w3, c);
    }
  }

  lemma UntouchedByRefusal(git: G.Repo, w: World, a: Attempt, r: ReviewInput)
    requires ReadyForDecision(w, git, a, r)
    ensures w.state.git.target == git.target
  {
    hide Inv;
  }

  // ---- a finished run ---------------------------------------------------------------------

  /** The target is checked out clean at the base of the attempt, and the checks changed nothing. */
  predicate CanIntegrate(git: G.Repo, a: Attempt) {
    && git.targetBranch == a.setup.targetRef != "" && git.target == a.setup.base && git.targetTree == git.target.tree
    && a.checked == a.edited
  }

  ghost predicate ReadyForIntegration(w: World, git: G.Repo, a: Attempt, r: ReviewInput, approver: string) {
    var s := w.state;
    && Inv(w) && |s.ledger| == 3 && StagesInOrder(s.ledger) && s.directory && w.origin == git.target
    && SetupOf(s) == a.setup && OutcomeOf(s) == OutcomeFor(a) && s.ledger[1].payload.disposition.Accepted?
    && s.ledger[2].payload.decision.actor == approver == s.ledger[2].payload.authority.actor
    && s.ledger[2].payload.decision.choice == Approve && s.ledger[2].payload.transition.to == Integrating
    && CurrentState(s.journal) == Integrating && GitAsExecuted(s.git, git, a) && s.card == CardOnFile(CardOf(a, r))
  }

  lemma FourWrites(s: State, x: Write, y: Write, t: Write, r: Write)
    ensures After(s, [x, y, t, r]) == Apply(Apply(Apply(Apply(s, x), y), t), r)
  {
    hide Apply;
    AfterFew(s, x, y);
    AfterOne(s, [x, y], t);
    AfterOne(s, [x, y] + [t], r);
    assert [x, y] + [t] + [r] == [x, y, t, r];
  }

  lemma DecisionLeaves(s: State, i: DecisionInput)
    requires ApplyDecisionSteps(s, i).result.Ok?
    ensures var s', p := After(s, ApplyDecisionSteps(s, i).writes), ApplyDecisionSteps(s, i).writes[3].record.payload;
            && p.DecisionApplied? && p.decision == i.decision.value && p.authority == i.authority.value
            && p.transition.to == TargetOf(i.decision.value.choice)
            && s'.ledger == s.ledger + [ApplyDecisionSteps(s, i).writes[3].record] && s'.journal == s.journal + [p.transition]
            && (s'.directory, s'.card, s'.git) == (s.directory, s.card, s.git)
  {
    AppliedDecisionWrites(s, i);
    hide ApplyDecisionSteps;
    var writes := ApplyDecisionSteps(s, i).writes;
    FourWrites(s, writes[0], writes[1], writes[2], writes[3]);
    assert writes == [writes[0], writes[1], writes[2], writes[3]];
    hide After;
  }

  lemma ApprovedIsReady(w: World, git: G.Repo, a: Attempt, r: ReviewInput, i: DecisionInput)
    requires ReadyForDecision(w, git, a, r) && a.passes && Approves(i, CardOf(a, r))
    ensures ReadyForIntegration(Next(w, Whole(w.state, ApplyDecision(i))), git, a, r, i.decision.value.actor)
  {
    ApprovalPasses(w, git, a, r, i);
    DecisionCall(w, git, a, r, i);
    var w' := Next(w, Whole(w.state, ApplyDecision(i)));
    hide Next, Whole, StepsOf, ApplyDecisionSteps, ReadyForDecision, CardOf, Approves;
    ApprovedShape(w, w', git, a, r, i);
  }

  lemma DecisionCall(w: World, git: G.Repo, a: Attempt, r: ReviewInput, i: DecisionInput)
    requires ReadyForDecision(w, git, a, r)
    ensures var w' := Next(w, Whole(w.state, ApplyDecision(i)));
            Inv(w') && w'.origin == w.origin && w'.state == After(w.state, ApplyDecisionSteps(w.state, i).writes)
  {
    assert Inv(w);
    assert ApplyDecisionSteps(w.state, i).writes == StepsOf(w.state, ApplyDecision(i)).writes;
    hide *;
    WholeCall(w, ApplyDecision(i));
    EveryCallKeepsTheInvariant(w, Whole(w.state, ApplyDecision(i)));
  }

  lemma ApprovedShape(w: World, w': World, git: G.Repo, a: Attempt, r: ReviewInput, i: DecisionInput)
    requires ReadyForDecision(w, git, a, r) && Approves(i, CardOf(a, r)) && ApplyDecisionSteps(w.state, i).result.Ok?
    requires Inv(w') && w'.origin == w.origin && w'.state == After(w.state, ApplyDecisionSteps(w.state, i).writes)
    ensures ReadyForIntegration(w', git, a, r, i.decision.value.actor)
  {
    DecisionLeaves(w.state, i);
    hide Inv, ApplyDecisionSteps, GitAsExecuted, OutcomeFor, CardOf, After;
  }

  lemma RequestIsReady(w: World, git: G.Repo, a: Attempt, r: ReviewInput, approver: string)
    requires ReadyForIntegration(w, git, a, r, approver) && Workable(a) && CanIntegrate(git, a) && approver != ""
    ensures IntegrationInputs(w.state).None? && G.Ready(w.state.git, RequestOf(w.state))
    ensures RequestOf(w.state).base == a.setup.base && RequestOf(w.state).branch == a.setup.branch
  {
    hide Inv, UpTo, G.Diff, G.Applies;
    G.PatchRoundTrip(a.setup.base.tree, a.edited);
    assert "JobSlayer: " + a.setup.title != "";
  }

  /** The five writes of a fresh integration that meets no refusal. */
  lemma IntegrationSucceeds(w: World, git: G.Repo, a: Attempt, r: ReviewInput, approver: string, c: Clock)
    requires ReadyForIntegration(w, git, a, r, approver) && Workable(a) && CanIntegrate(git, a) && approver != ""
    ensures var writes := IntegrateSteps(w.state, c).writes;
            |writes| == 5 && writes[0].Git? && writes[1].Git? && writes[2].Register? && writes[3].Transit? && writes[4].Append?
  {
    RequestIsReady(w, git, a, r, approver);
    hide Workable, CanIntegrate, GitAsExecuted, G.Ready, Inv, OutcomeFor, IntegrationInputs, RequestOf;
    UnrefusedWrites(w, c);
  }

  lemma UnrefusedWrites(w: World, c: Clock)
    requires Inv(w) && |w.state.ledger| == 3 && IntegrationInputs(w.state).None? && CurrentState(w.state.journal) == Integrating
    requires G.Ready(w.state.git, RequestOf(w.state))
    ensures var writes := IntegrateSteps(w.state, c).writes;
            |writes| == 5 && writes[0].Git? && writes[1].Git? && writes[2].Register? && writes[3].Transit? && writes[4].Append?
  {
    var s, q := w.state, RequestOf(w.state);
    IntegratesFacts(w);
    G.CommitIsTheFirstStep(s.git, q, c.commitStamp);
    GitMoves(s.git, SetupOf(s), q, w.origin, c.commitStamp);
    hide Inv, G.Ready, G.CommitPhase, G.MergePhase, GitOnTheWay, Merged, IntegrationInputs, IntegrateSteps, CompleteIntegration, Integrates;
    var (committed, e) := G.CommitPhase(s.git, q, c.commitStamp);
    var (merged, result) := G.MergePhase(committed, q);
    MovedAlong(w, committed, merged, result.value, c.at);
    FreshWrites(s, c, committed, merged, result.value);
    CompletionShape(s, result.value, c.at);
  }

  lemma CompletionShape(s: State, result: G.Evidence, at: int)
    requires IntegrationInputs(s).None? && CompleteIntegration(s, result, at).result.Ok?
    ensures var writes := CompleteIntegration(s, result, at).writes;
            |writes| == 2 && writes[0].Register? && writes[1].Transit?
  {
    hide Decide;
  }

  lemma FiveAfter(s: State, writes: seq<Write>)
    requires |writes| == 5 && writes[0].Git? && writes[1].Git? && writes[2].Register? && writes[3].Transit? && writes[4].Append?
    ensures After(s, writes).ledger == s.ledger + [writes[4].record] && After(s, writes).card == s.card
  {
    FourWrites(s, writes[0], writes[1], writes[2], writes[3]);
    AfterOne(s, [writes[0], writes[1], writes[2], writes[3]], writes[4]);
    assert writes == [writes[0], writes[1], writes[2], writes[3]] + [writes[4]];
    hide After;
  }

  /** An integrated run: only its worktree is left to remove. */
  ghost predicate ReadyForCleanup(w: World, git: G.Repo) {
    Inv(w) && |w.state.ledger| == 4 && w.origin == git.target && w.state.card.CardOnFile?
  }

  lemma IntegratedIsReady(w: World, git: G.Repo, a: Attempt, r: ReviewInput, approver: string, c: Clock)
    requires ReadyForIntegration(w, git, a, r, approver) && Workable(a) && CanIntegrate(git, a) && approver != ""
    ensures ReadyForCleanup(Next(w, Whole(w.state, Integrate(c))), git)
  {
    hide *;
    IntegrationSucceeds(w, git, a, r, approver, c);
    AwaitingParts(w, git, a, r, approver, c);
    WholeCall(w, Integrate(c));
    EveryCallKeepsTheInvariant(w, Whole(w.state, Integrate(c)));
    FiveAfter(w.state, IntegrateSteps(w.state, c).writes);
    IntegratedShape(w, Next(w, Whole(w.state, Integrate(c))), git);
  }

  lemma AwaitingParts(w: World, git: G.Repo, a: Attempt, r: ReviewInput, approver: string, c: Clock)
    requires ReadyForIntegration(w, git, a, r, approver)
    ensures Inv(w) && |w.state.ledger| == 3 && w.state.card.CardOnFile? && w.origin == git.target
    ensures StepsOf(w.state, Integrate(c)).writes == IntegrateSteps(w.state, c).writes
  {
    hide Inv, IntegrateSteps;
  }

  lemma IntegratedShape(w: World, w': World, git: G.Repo)
    requires Inv(w') && w'.origin == git.target && |w.state.ledger| == 3 && w.state.card.CardOnFile?
    requires |w'.state.ledger| == |w.state.ledger| + 1 && w'.state.card == w.state.card
    ensures ReadyForCleanup(w', git)
  {
    hide Inv;
  }

  lemma CleanedUp(w: World, git: G.Repo, at: int)
    requires ReadyForCleanup(w, git)
    ensures var w' := Next(w, Whole(w.state, Cleanup(at)));
            Inv(w') && |w'.state.ledger| == 5 && w'.state.card.CardOnFile? && w'.origin == git.target
  {
    CleanupFacts(w);
    WholeCall(w, Cleanup(at));
    EveryCallKeepsTheInvariant(w, Whole(w.state, Cleanup(at)));
    CleanupWrites(w.state, at);
    hide Inv, Next, Whole, CleanupSteps;
  }

  lemma CleanupWrites(s: State, at: int)
    requires |s.ledger| == 4 && StagesInOrder(s.ledger) && s.directory && CurrentState(s.journal) == Completed
    requires s.git.tip == s.ledger[3].payload.result.commit && RemovalError(s, SetupOf(s)).None?
    ensures var s' := After(s, CleanupSteps(s, at).writes); |s'.ledger| == 5 && s'.card == s.card
  {
    hide RemovalError;
    var append := Append(Record(Cleaned(s.git.tip), at));
    AfterFew(s, RemoveWorktree, append);
    AfterFew(s, append, append);
    assert [RemoveWorktree] + [append] == [RemoveWorktree, append] && [] + [append] == [append];
  }

  lemma FinishedRun(w: World)
    requires Inv(w) && |w.state.ledger| == 5 && w.state.card.CardOnFile?
    ensures Assess(w.state) == Consistent && Approved(w.state) && w.origin == RequestOf(w.state).base
    ensures G.Sanctioned(w.state.git.target, RequestOf(w.state))
  {
    hide Inv, Assess, G.Sanctioned, Merged;
    AssessSays(w);
    StageShape(w);
    IntegratedTarget(w);
    MergedIsSanctioned(w.state.git, RequestOf(w.state), w.origin);
    FinishedFacts(w);
  }

  lemma FinishedFacts(w: World)
    requires Inv(w) && |w.state.ledger| == 5
    ensures w.state.directory
  {
    assert StageInv(w, 5);
  }

  lemma ReachedFive(git: G.Repo, e1: Event, e2: Event, e3: Event, e4: Event, e5: Event)
    ensures Reached(git, [e1, e2, e3, e4, e5]) == Next(Next(Next(Next(Next(Initial(git), e1), e2), e3), e4), e5)
  {
    hide Next;
    ReachedThree(git, e1, e2, e3);
    RunSnoc(Initial(git), [e1, e2, e3], e4);
    RunSnoc(Initial(git), [e1, e2, e3] + [e4], e5);
    assert [e1, e2, e3] + [e4] + [e5] == [e1, e2, e3, e4, e5];
  }

  /**
   The promise in full: any workable attempt whose checks pass and change nothing, accepted and approved
   in time, on a clean target at its base, is integrated and cleaned up by the five calls in order.
   */
  lemma FiveCallsFinish(git: G.Repo, a: Attempt, r: ReviewInput, i: DecisionInput, c: Clock, at: int) returns (events: seq<Event>)
    requires Workable(a) && a.passes && CanReview(r) && r.review.accepted && CanIntegrate(git, a)
    requires Approves(i, CardOf(a, r)) && i.decision.value.actor != ""
    ensures |events| == 5 && events[0].call == Execute(a) && events[1].call == Call.Review(r)
            && events[2].call == ApplyDecision(i) && events[3].call == Integrate(c) && events[4].call == Cleanup(at)
    ensures var s := Reached(git, events).state;
            && |s.ledger| == 5 && Assess(s) == Consistent && Approved(s)
            && git.target == RequestOf(s).base && G.Sanctioned(s.git.target, RequestOf(s))
  {
    var e1, e2 := Whole(Nothing(git), Execute(a)), Whole(Began(git, a).state, Call.Review(r));
    var w2 := AfterReview(git, a, r);
    var e3 := Whole(w2.state, ApplyDecision(i));
    var w3 := Next(w2, e3);
    var e4 := Whole(w3.state, Integrate(c));
    var w4 := Next(w3, e4);
    var e5 := Whole(w4.state, Cleanup(at));
    events := [e1, e2, e3, e4, e5];
    hide Inv, Next, Reached, Assess, Approved, G.Sanctioned, CanIntegrate, Workable, CardOf;
    assert Began(git, a) == Next(Initial(git), e1);
    AcceptedIsReady(git, a, r);
    AfterReviewIs(git, a, r);
    hide Whole;
    ApprovedIsReady(w2, git, a, r, i);
    IntegratedIsReady(w3, git, a, r, i.decision.value.actor, c);
    CleanedUp(w4, git, at);
    ReachedFive(git, e1, e2, e3, e4, e5);
    FinishedRun(Next(w4, e5));
  }
}
