/** Each call keeps the invariant at every durable write it makes. */
module RunCalls {
  import opened Outcomes
  import opened LocalRun
  import opened Recovery
  import opened RunInvariant
  import G = GitIntegration

  // ---- the registry only grows ------------------------------------------------------------

  lemma ExecutionOnFileGrows(s: State, a: Artifact, p: Payload)
    requires ExecutionOnFile(s, p)
    ensures ExecutionOnFile(Apply(s, Register(a)), p)
  {
  }

  lemma DecisionOnFileGrows(s: State, a: Artifact, p: Payload)
    requires |s.ledger| >= 2 && StagesInOrder(s.ledger) && DecisionOnFile(s, p)
    ensures DecisionOnFile(Apply(s, Register(a)), p)
  {
  }

  lemma IntegrationOnFileGrows(s: State, a: Artifact, p: Payload, origin: G.Commit)
    requires |s.ledger| >= 3 && StagesInOrder(s.ledger) && OutcomeOf(s).patch.Some? && OutcomeOf(s).report.Some?
    requires IntegrationOnFile(s, p, origin)
    ensures IntegrationOnFile(Apply(s, Register(a)), p, origin)
  {
  }

  lemma RegisterKeepsReview(w: World, a: Artifact)
    requires Inv(w) && |w.state.ledger| == 1
    ensures Inv(Put(w, Register(a)))
  {
    assert StageInv(w, 1);
    ExecutionOnFileGrows(w.state, a, w.state.ledger[0].payload);
  }

  lemma RegisterKeepsDecision(w: World, a: Artifact)
    requires Inv(w) && |w.state.ledger| == 2
    ensures Inv(Put(w, Register(a)))
  {
    assert StageInv(w, 2);
    ExecutionOnFileGrows(w.state, a, w.state.ledger[0].payload);
    if w.owed.Some? && DecisionOnFile(w.state, w.owed.value) {
      DecisionOnFileGrows(w.state, a, w.owed.value);
    }
  }

  lemma RegisterKeepsAwaiting(w: World, a: Artifact)
    requires |w.state.ledger| == 3 && StagesInOrder(w.state.ledger) && w.state.journal != []
    requires OutcomeOf(w.state).patch.Some? && OutcomeOf(w.state).report.Some? && AwaitingIntegration(w)
    ensures AwaitingIntegration(Put(w, Register(a)))
  {
    hide Merged, Committed, G.EvidenceFor;
    var w' := Put(w, Register(a));
    assert RequestOf(w'.state) == RequestOf(w.state);
    if w.owed.Some? && IntegrationOnFile(w.state, w.owed.value, w.origin) {
      IntegrationOnFileGrows(w.state, a, w.owed.value, w.origin);
    }
  }

  lemma RegisterKeepsIntegration(w: World, a: Artifact)
    requires Inv(w) && |w.state.ledger| == 3
    ensures Inv(Put(w, Register(a)))
  {
    hide Legal, Merged, Committed, G.EvidenceFor, CitedByDecision, AwaitingIntegration, RequiredEvidence;
    assert StageInv(w, 3);
    ExecutionOnFileGrows(w.state, a, w.state.ledger[0].payload);
    DecisionOnFileGrows(w.state, a, w.state.ledger[2].payload);
    RegisterKeepsAwaiting(w, a);
    assert StageInv(Put(w, Register(a)), 3);
  }

  // ---- review -----------------------------------------------------------------------------

  lemma ReviewTransitKeeps(w: World, t: Transition)
    requires Inv(w) && |w.state.ledger| == 1 && CurrentState(w.state.journal) == Reviewing
    requires t.from == Reviewing && (t.to == MergeReview || t.to == Repairing)
    ensures Inv(Put(w, Transit(t)))
  {
    assert StageInv(w, 1);
    LegalGrows(w.state.journal, t);
  }

  /** The disposition agrees with the transition just written and with files already registered. */
  ghost predicate DispositionFits(s: State, review: LocalRun.Review, d: Disposition)
    requires |s.ledger| == 1 && StagesInOrder(s.ledger)
  {
    var o := OutcomeOf(s);
    && Reviewable(o) && s.journal != [] && Last(s.journal).from == Reviewing
    && (forall k | k in ReviewArtifacts(d) :: k < |s.artifacts|)
    && match d
       case ChangesRequested(_) => CurrentState(s.journal) == Repairing
       case Accepted(c, _, _) =>
         && CurrentState(s.journal) == MergeReview
         && c.evidence == {Name(o.report.value.id), ArtifactId(o.patchArtifact.value), Name(review.id)}
  }

  lemma RecordReviewKeeps(w: World, review: LocalRun.Review, d: Disposition, at: int)
    requires Inv(w) && |w.state.ledger| == 1 && StagesInOrder(w.state.ledger) && DispositionFits(w.state, review, d)
    ensures Inv(Put(w, Append(Record(Reviewed(review, d), at))))
  {
    assert StageInv(w, 1);
  }

  /** The card file may be in its place, or torn. */
  predicate CardMayBe(s: State, f: CardFile) {
    && |s.ledger| >= 2 && StagesInOrder(s.ledger)
    && s.ledger[1].payload.disposition.Accepted?
    && (f == TornCard || f == CardOnFile(s.ledger[1].payload.disposition.card))
  }

  function WithCard(w: World, f: CardFile): World {
    w.(state := w.state.(card := f))
  }

  lemma CardKeepsDecision(w: World, f: CardFile)
    requires StageInv(w, 2) && CardMayBe(w.state, f)
    ensures StageInv(WithCard(w, f), 2)
  {
  }

  lemma CardKeepsAwaiting(w: World, f: CardFile)
    requires |w.state.ledger| == 3 && StagesInOrder(w.state.ledger) && w.state.journal != []
    requires OutcomeOf(w.state).patch.Some? && OutcomeOf(w.state).report.Some? && AwaitingIntegration(w)
    ensures AwaitingIntegration(WithCard(w, f))
  {
    assert RequestOf(WithCard(w, f).state) == RequestOf(w.state);
  }

  lemma CardKeepsIntegration(w: World, f: CardFile)
    requires StageInv(w, 3) && CardMayBe(w.state, f)
    ensures StageInv(WithCard(w, f), 3)
  {
    CardKeepsAwaiting(w, f);
  }

  lemma CardKeepsCompletion(w: World, f: CardFile)
    requires StageInv(w, |w.state.ledger|) && |w.state.ledger| >= 4 && CardMayBe(w.state, f)
    ensures StageInv(WithCard(w, f), |w.state.ledger|)
  {
    hide Legal, Merged, G.EvidenceFor, CitedByDecision;
    assert IntegrationOnFile(WithCard(w, f).state, w.state.ledger[3].payload, w.origin);
  }

  lemma CardKeeps(w: World, f: CardFile)
    requires Inv(w) && CardMayBe(w.state, f)
    ensures Inv(WithCard(w, f))
  {
    var k := |w.state.ledger|;
    assert StageInv(w, k);
    if k == 2 {
      CardKeepsDecision(w, f);
    } else if k == 3 {
      CardKeepsIntegration(w, f);
    } else {
      CardKeepsCompletion(w, f);
    }
  }

  lemma PromiseKeepsReview(w: World, p: Option<Payload>)
    requires Inv(w) && |w.state.ledger| == 1
    ensures Inv(w.(owed := p))
  {
    assert StageInv(w, 1);
  }

  lemma PendingLast(writes: seq<Write>, r: Record, tail: seq<Write>)
    requires forall x | x in tail :: !x.Append?
    ensures Pending(writes + [Append(r)] + tail) == Some(r.payload)
    decreases |tail|
  {
    var all := writes + [Append(r)] + tail;
    if tail != [] {
      var init := tail[..|tail| - 1];
      PendingLast(writes, r, init);
      assert all[..|all| - 1] == writes + [Append(r)] + init;
    }
  }

  /** The card, recorded and written. */
  lemma CardAlong(w: World, c: Card)
    requires Inv(w) && CardMayBe(w.state, CardOnFile(c))
    ensures Along(Inv, w, [OpenCard, FillCard(c)])
  {
    var w1 := Put(w, OpenCard);
    CardKeeps(w, TornCard);
    CardKeeps(w1, CardOnFile(c));
    AlongCons(Inv, w1, FillCard(c), []);
    AlongCons(Inv, w, OpenCard, [FillCard(c)]);
    assert [OpenCard] + [FillCard(c)] == [OpenCard, FillCard(c)];
  }

  lemma RecordReviewAlong(w: World, i: ReviewInput, d: Disposition)
    requires Inv(w) && |w.state.ledger| == 1 && StagesInOrder(w.state.ledger) && DispositionFits(w.state, i.review, d)
    ensures var append := Append(Record(Reviewed(i.review, d), i.at));
            Along(Inv, w, [append] + if d.Accepted? then [OpenCard, FillCard(d.card)] else [])
  {
    assert StageInv(w, 1);
    var append := Append(Record(Reviewed(i.review, d), i.at));
    RecordReviewKeeps(w, i.review, d, i.at);
    var w1 := Put(w, append);
    if d.Accepted? {
      CardAlong(w1, d.card);
      AlongCons(Inv, w, append, [OpenCard, FillCard(d.card)]);
    } else {
      AlongCons(Inv, w, append, []);
    }
  }

  /** The writes of a review, from the transition on. */
  function ReviewEnd(i: ReviewInput, d: Disposition, n: nat): seq<Write> {
    [Transit(ReviewTransition(i, n))]
    + ([Append(Record(Reviewed(i.review, d), i.at))] + if d.Accepted? then [OpenCard, FillCard(d.card)] else [])
  }

  lemma ReviewWrites(w: World, i: ReviewInput)
    requires Inv(w) && ReviewChecks(w.state, i).None?
    ensures var s, o := w.state, OutcomeOf(w.state);
            var n, d := |s.artifacts|, DispositionFor(o, i, |s.artifacts|);
            var report := Register(Artifact(Person(NameOf(i.review.reviewer)), ReviewDoc(i.review)));
            && (d.Accepted? <==> i.review.accepted)
            && Pending(ReviewSteps(s, i).writes) == Some(Reviewed(i.review, d))
            && ReviewSteps(s, i).writes ==
               if i.review.accepted then [report] + ([Register(Artifact(Controller, CardDoc(CardFor(o, i))))] + ReviewEnd(i, d, n))
               else [report] + ReviewEnd(i, d, n)
  {
    hide Legal, Fresh, G.EvidenceFor, OutcomeSound;
    assert StageInv(w, 1);
    hide StageInv, ReviewChecks, Reviewable, CardFor, ReviewTransition;
    var s, o := w.state, OutcomeOf(w.state);
    var d := DispositionFor(o, i, |s.artifacts|);
    var tail := if d.Accepted? then [OpenCard, FillCard(d.card)] else [];
    PendingLast(PrepareWrites(o, i, |s.artifacts|), Record(Reviewed(i.review, d), i.at), tail);
  }

  lemma ReviewEndAlong(w: World, i: ReviewInput, d: Disposition, n: nat)
    requires Inv(w) && |w.state.ledger| == 1 && CurrentState(w.state.journal) == Reviewing && StagesInOrder(w.state.ledger)
    requires DispositionFits(Put(w, Transit(ReviewTransition(i, n))).state, i.review, d)
    ensures Along(Inv, w, ReviewEnd(i, d, n))
  {
    hide Inv, StageInv, Along, DispositionFits;
    var transit := Transit(ReviewTransition(i, n));
    ReviewTransitKeeps(w, transit.transition);
    RecordReviewAlong(Put(w, transit), i, d);
    AlongCons(Inv, w, transit, ReviewEnd(i, d, n)[1..]);
    assert ReviewEnd(i, d, n) == [transit] + ReviewEnd(i, d, n)[1..];
  }

  /** With its files registered, a review may write its transition. */
  lemma FiledReviewFits(w: World, i: ReviewInput, w2: World)
    requires ReviewChecks(w.state, i).None?
    requires w2.state == w.state.(artifacts := w2.state.artifacts)
    requires |w2.state.artifacts| == |w.state.artifacts| + if i.review.accepted then 2 else 1
    ensures |w.state.ledger| == 1 && StagesInOrder(w.state.ledger) && Reviewable(OutcomeOf(w.state))
    ensures |w2.state.ledger| == 1 && StagesInOrder(w2.state.ledger) && CurrentState(w2.state.journal) == Reviewing
    ensures var n := |w.state.artifacts|;
            DispositionFits(Put(w2, Transit(ReviewTransition(i, n))).state, i.review, DispositionFor(OutcomeOf(w.state), i, n))
  {
  }

  lemma Registers(w: World, a: Artifact)
    ensures Put(w, Register(a)).state == w.state.(artifacts := w.state.artifacts + [a])
    ensures Put(w, Register(a)).origin == w.origin && Put(w, Register(a)).owed == w.owed
  {
  }

  lemma AcceptedAlong(w: World, i: ReviewInput, w0: World, report: Artifact, card: Artifact)
    requires Inv(w0) && ReviewChecks(w.state, i).None? && i.review.accepted && w0.state == w.state
    requires |w.state.ledger| == 1 && StagesInOrder(w.state.ledger) && Reviewable(OutcomeOf(w.state))
    ensures var n := |w.state.artifacts|;
            Along(Inv, w0, [Register(report)] + ([Register(card)] + ReviewEnd(i, DispositionFor(OutcomeOf(w.state), i, n), n)))
  {
    hide *;
    var n := |w.state.artifacts|;
    var d := DispositionFor(OutcomeOf(w.state), i, n);
    var w1 := Put(w0, Register(report));
    var w2 := Put(w1, Register(card));
    Registers(w0, report);
    Registers(w1, card);
    RegisterKeepsReview(w0, report);
    RegisterKeepsReview(w1, card);
    FiledReviewFits(w, i, w2);
    ReviewEndAlong(w2, i, d, n);
    AlongCons(Inv, w1, Register(card), ReviewEnd(i, d, n));
    AlongCons(Inv, w0, Register(report), [Register(card)] + ReviewEnd(i, d, n));
  }

  lemma RejectedAlong(w: World, i: ReviewInput, w0: World, report: Artifact)
    requires Inv(w0) && ReviewChecks(w.state, i).None? && !i.review.accepted && w0.state == w.state
    requires |w.state.ledger| == 1 && StagesInOrder(w.state.ledger) && Reviewable(OutcomeOf(w.state))
    ensures var n := |w.state.artifacts|;
            Along(Inv, w0, [Register(report)] + ReviewEnd(i, DispositionFor(OutcomeOf(w.state), i, n), n))
  {
    hide *;
    var n := |w.state.artifacts|;
    var d := DispositionFor(OutcomeOf(w.state), i, n);
    var w1 := Put(w0, Register(report));
    Registers(w0, report);
    RegisterKeepsReview(w0, report);
    FiledReviewFits(w, i, w1);
    ReviewEndAlong(w1, i, d, n);
    AlongCons(Inv, w0, Register(report), ReviewEnd(i, d, n));
  }

  lemma ReviewAlong(w: World, i: ReviewInput)
    requires Inv(w) && ReviewChecks(w.state, i).None?
    ensures var writes := ReviewSteps(w.state, i).writes;
            Along(Inv, Promise(w, writes), writes)
  {
    ReviewWrites(w, i);
    hide Inv, StageInv, Along, ReviewSteps, ReviewEnd, DispositionFor, CardFor, Reviewable;
    var w0 := Promise(w, ReviewSteps(w.state, i).writes);
    PromiseKeepsReview(w, Pending(ReviewSteps(w.state, i).writes));
    var report := Artifact(Person(NameOf(i.review.reviewer)), ReviewDoc(i.review));
    if i.review.accepted {
      AcceptedAlong(w, i, w0, report, Artifact(Controller, CardDoc(CardFor(OutcomeOf(w.state), i))));
    } else {
      RejectedAlong(w, i, w0, report);
    }
  }

  // ---- apply_decision ---------------------------------------------------------------------

  ghost predicate DecisionGap(w: World, p: Payload) {
    && |w.state.ledger| == 2 && StagesInOrder(w.state.ledger) && w.owed == Some(p) && DecisionOnFile(w.state, p)
  }

  lemma PromiseKeepsDecision(w: World, p: Payload)
    requires Inv(w) && |w.state.ledger| == 2 && CurrentState(w.state.journal) == MergeReview
    ensures Inv(w.(owed := Some(p)))
  {
    assert StageInv(w, 2);
  }

  lemma DecisionTransitKeeps(w: World, p: Payload)
    requires Inv(w) && DecisionGap(w, p) && CurrentState(w.state.journal) == MergeReview
    ensures Inv(Put(w, Transit(p.transition)))
  {
    assert StageInv(w, 2);
    LegalGrows(w.state.journal, p.transition);
  }

  lemma RecordDecisionKeeps(w: World, p: Payload, at: int)
    requires Inv(w) && DecisionGap(w, p) && w.state.journal != [] && Last(w.state.journal) == p.transition
    ensures Inv(Put(w, Append(Record(p, at))))
  {
    assert StageInv(w, 2);
    var w' := Put(w, Append(Record(p, at)));
    assert DecisionOnFile(w'.state, p);
    assert StageInv(w', 3);
  }

  /** What apply_decision files and writes to the journal is what recovery will look for. */
  lemma DecisionIsOnFile(s: State, d: Decision, a: Authority, now: int, at: int)
    requires |s.ledger| == 2 && StagesInOrder(s.ledger) && s.ledger[1].payload.disposition.Accepted? && OutcomeOf(s).report.Some?
    requires DecideSteps(s.ledger[1].payload.disposition.card, OutcomeOf(s).report.value, s.journal, |s.artifacts|, d, a, now, at).result.Ok?
    ensures var p := DecideSteps(s.ledger[1].payload.disposition.card, OutcomeOf(s).report.value, s.journal, |s.artifacts|, d, a, now, at).result.value;
            var s1 := Apply(s, Register(Artifact(Person(d.actor), DecisionDoc(d))));
            && CurrentState(s.journal) == MergeReview
            && DecisionOnFile(Apply(s1, Register(Artifact(AuthorityProvider, AuthorityDoc(a)))), p)
  {
  }

  /** The two files of a decision that is refused, and no record. */
  lemma RefusedDecisionAlong(w: World, x: Artifact, y: Artifact)
    requires Inv(w) && |w.state.ledger| == 2
    ensures Along(Inv, Promise(w, [Register(x), Register(y)]), [Register(x), Register(y)])
  {
    var r1, r2 := Register(x), Register(y);
    assert [r1, r2] == [r1] + [r2] && [r1, r2][..1] == [r1] && [r1][..0] == [];
    assert Pending([r1]) == None;
    assert Pending([r1, r2]) == None;
    hide Inv, Along;
    RegisterKeepsDecision(w, x);
    RegisterKeepsDecision(Put(w, r1), y);
    AlongCons(Inv, Put(w, r1), r2, []);
    AlongCons(Inv, w, r1, [r2]);
    assert [r2] + [] == [r2];
  }

  /** What apply_decision writes: the two files, and, unless it refuses, the transition and the record. */
  lemma DecisionWrites(s: State, i: DecisionInput)
    requires DecisionChecks(s, i).None?
    ensures var d, a := i.decision.value, i.authority.value;
            var steps := DecideSteps(s.ledger[1].payload.disposition.card, OutcomeOf(s).report.value, s.journal, |s.artifacts|, d, a, i.now, i.at);
            var r1, r2 := Register(Artifact(Person(d.actor), DecisionDoc(d))), Register(Artifact(AuthorityProvider, AuthorityDoc(a)));
            var writes := ApplyDecisionSteps(s, i).writes;
            match steps.result
            case Err(_) => writes == [r1, r2]
            case Ok(p) =>
              && p.DecisionApplied? && Pending(writes) == Some(p)
              && writes == [r1] + ([r2] + ([Transit(p.transition)] + [Append(Record(p, i.at))]))
  {
    hide DecisionTransition;
    var d, a := i.decision.value, i.authority.value;
    var steps := DecideSteps(s.ledger[1].payload.disposition.card, OutcomeOf(s).report.value, s.journal, |s.artifacts|, d, a, i.now, i.at);
    if steps.result.Ok? {
      PendingLast(steps.writes, Record(steps.result.value, i.at), []);
      assert steps.writes + [Append(Record(steps.result.value, i.at))] + [] == ApplyDecisionSteps(s, i).writes;
    }
  }

  lemma DecideAlong(w: World, i: DecisionInput)
    requires Inv(w) && DecisionChecks(w.state, i).None?
    ensures var writes := ApplyDecisionSteps(w.state, i).writes;
            Along(Inv, Promise(w, writes), writes)
  {
    var s, d, a := w.state, i.decision.value, i.authority.value;
    var steps := DecideSteps(s.ledger[1].payload.disposition.card, OutcomeOf(s).report.value, s.journal, |s.artifacts|, d, a, i.now, i.at);
    var x, y := Artifact(Person(d.actor), DecisionDoc(d)), Artifact(AuthorityProvider, AuthorityDoc(a));
    DecisionWrites(s, i);
    hide Inv, Along, DecideSteps, ApplyDecisionSteps, DecisionOnFile;
    match steps.result {
      case Err(_) => RefusedDecisionAlong(w, x, y);
      case Ok(p) =>
        DecisionIsOnFile(s, d, a, i.now, i.at);
        DecisionAlong(w, p, x, y, i.at);
    }
  }

  lemma DecisionAlong(w: World, p: Payload, a1: Artifact, a2: Artifact, at: int)
    requires Inv(w) && |w.state.ledger| == 2 && StagesInOrder(w.state.ledger) && CurrentState(w.state.journal) == MergeReview
    requires DecisionOnFile(Apply(Apply(w.state, Register(a1)), Register(a2)), p)
    ensures Along(Inv, w.(owed := Some(p)), [Register(a1)] + ([Register(a2)] + ([Transit(p.transition)] + [Append(Record(p, at))])))
  {
    var t, append := Transit(p.transition), Append(Record(p, at));
    var w0 := w.(owed := Some(p));
    var w1 := Put(w0, Register(a1));
    var w2 := Put(w1, Register(a2));
    var w3 := Put(w2, t);
    PromiseKeepsDecision(w, p);
    RegisterKeepsDecision(w0, a1);
    RegisterKeepsDecision(w1, a2);
    DecisionTransitKeeps(w2, p);
    RecordDecisionKeeps(w3, p, at);
    AlongCons(Inv, w3, append, []);
    AlongCons(Inv, w2, t, [append]);
    AlongCons(Inv, w1, Register(a2), [t] + [append]);
    AlongCons(Inv, w0, Register(a1), [Register(a2)] + ([t] + [append]));
  }

  // ---- Git, as integrate finds and leaves it ----------------------------------------------

  ghost predicate GitOnTheWay(git: G.Repo, setup: Setup, q: G.Request, origin: G.Commit) {
    Fresh(git, setup, origin) || Committed(git, q, origin) || Merged(git, q, origin)
  }

  ghost predicate Finished(git: G.Repo, q: G.Request, result: G.Evidence) {
    result == G.EvidenceFor(q, git.head, git.head)
  }

  lemma FreshMoves(git: G.Repo, setup: Setup, q: G.Request, origin: G.Commit, stamp: int)
    requires q.base == setup.base && q.branch == setup.branch && Fresh(git, setup, origin)
    ensures var (c, e) := G.CommitPhase(git, q, stamp);
            && (e.Some? ==> c == git)
            && (e.None? ==>
                  && G.Ready(git, q) && c == G.AfterCommit(git, q, stamp)
                  && G.MergePhase(c, q).0 == G.AfterMerge(git, q, stamp)
                  && G.MergePhase(c, q).1.Ok? && Finished(G.MergePhase(c, q).0, q, G.MergePhase(c, q).1.value))
  {
    if G.Preflight(git, q).None? && G.ValidateUncommitted(git, q).None? {
      assert G.Ready(git, q);
      G.CommitIsTheFirstStep(git, q, stamp);
      G.MergeIsTheSecondStep(git, q, stamp, stamp);
    }
  }

  lemma CommittedMoves(git: G.Repo, q: G.Request, origin: G.Commit, stamp: int)
    requires Committed(git, q, origin)
    ensures var (c, e) := G.CommitPhase(git, q, stamp);
            && e.None? && c == git && Merged(G.MergePhase(c, q).0, q, origin)
            && G.MergePhase(c, q).1.Ok? && Finished(G.MergePhase(c, q).0, q, G.MergePhase(c, q).1.value)
  {
    var r, first :| G.Ready(r, q) && r.target == origin && git == G.AfterCommit(r, q, first);
    G.MergeIsTheSecondStep(r, q, first, stamp);
  }

  lemma MergedStays(git: G.Repo, q: G.Request, origin: G.Commit, stamp: int)
    requires Merged(git, q, origin)
    ensures var (c, e) := G.CommitPhase(git, q, stamp);
            && e.None? && c == git
            && G.MergePhase(c, q) == (git, Ok(G.EvidenceFor(q, git.head, git.head)))
    ensures G.VerifyIn(git, q, G.EvidenceFor(q, git.head, git.head)).None?
    ensures git.tip == git.head == git.target && git.workTree == git.head.tree && git.checkedOut == q.branch
  {
    var r, first :| G.Ready(r, q) && r.target == origin && git == G.AfterMerge(r, q, first);
    G.MergedIsFinal(r, q, first, stamp);
    G.AttestationIsIdempotence(git, q, G.EvidenceFor(q, git.head, git.head), stamp);
  }

  /** Wherever an earlier attempt left Git, the commands end merged, or stop before the first. */
  lemma GitMoves(git: G.Repo, setup: Setup, q: G.Request, origin: G.Commit, stamp: int)
    requires q.base == setup.base && q.branch == setup.branch && git.checkedOut == setup.branch
    requires GitOnTheWay(git, setup, q, origin)
    ensures var (c, e) := G.CommitPhase(git, q, stamp);
            && c.checkedOut == setup.branch
            && (e.Some? ==> c == git)
            && (e.None? ==>
                  && GitOnTheWay(c, setup, q, origin) && Merged(G.MergePhase(c, q).0, q, origin)
                  && G.MergePhase(c, q).0.checkedOut == setup.branch
                  && G.MergePhase(c, q).1.Ok? && Finished(G.MergePhase(c, q).0, q, G.MergePhase(c, q).1.value))
  {
    if Fresh(git, setup, origin) {
      FreshMoves(git, setup, q, origin, stamp);
    } else if Committed(git, q, origin) {
      CommittedMoves(git, q, origin, stamp);
    } else {
      MergedStays(git, q, origin, stamp);
    }
    var (c, e) := G.CommitPhase(git, q, stamp);
    if e.None? {
      if Fresh(git, setup, origin) {
        assert c == G.AfterCommit(git, q, stamp) && G.MergePhase(c, q).0 == G.AfterMerge(git, q, stamp);
        assert Merged(G.MergePhase(c, q).0, q, origin);
      }
      MergedStays(G.MergePhase(c, q).0, q, origin, stamp);
    }
  }

  // ---- integrate --------------------------------------------------------------------------

  /** Three records, the last an approval, and the journal not past it. */
  ghost predicate Integrates(w: World) {
    && |w.state.ledger| == 3 && StagesInOrder(w.state.ledger) && w.state.journal != []
    && w.state.ledger[2].payload.transition.to == Integrating && Last(w.state.journal) == w.state.ledger[2].payload.transition
  }

  ghost predicate IntegrationGap(w: World, p: Payload) {
    && |w.state.ledger| == 3 && StagesInOrder(w.state.ledger) && OutcomeOf(w.state).patch.Some? && OutcomeOf(w.state).report.Some?
    && w.owed == Some(p) && IntegrationOnFile(w.state, p, w.origin)
  }

  lemma PromiseKeepsIntegration(w: World, p: Payload)
    requires Inv(w) && Integrates(w)
    ensures Inv(w.(owed := Some(p)))
  {
    assert StageInv(w, 3);
  }

  lemma GitKeeps(w: World, g: G.Repo)
    requires Inv(w) && Integrates(w) && OutcomeOf(w.state).patch.Some? && g.checkedOut == SetupOf(w.state).branch
    requires GitOnTheWay(g, SetupOf(w.state), RequestOf(w.state), w.origin)
    ensures Inv(Put(w, Git(g)))
  {
    assert StageInv(w, 3);
    var w' := Put(w, Git(g));
    assert RequestOf(w'.state) == RequestOf(w.state);
    assert StageInv(w', 3);
  }

  lemma CompletionAwaited(w: World, p: Payload)
    requires |w.state.ledger| == 3 && StagesInOrder(w.state.ledger) && w.state.journal != []
    requires OutcomeOf(w.state).patch.Some? && OutcomeOf(w.state).report.Some? && AwaitingIntegration(w)
    requires Integrates(w) && IntegrationGap(w, p)
    ensures AwaitingIntegration(Put(w, Transit(p.transition)))
  {
    var w' := Put(w, Transit(p.transition));
    assert IntegrationOnFile(w'.state, p, w'.origin);
  }

  lemma CompletionTransitKeeps(w: World, p: Payload)
    requires Inv(w) && Integrates(w) && IntegrationGap(w, p)
    ensures Inv(Put(w, Transit(p.transition)))
  {
    hide Merged, Committed, G.EvidenceFor, CitedByDecision;
    assert StageInv(w, 3);
    LegalGrows(w.state.journal, p.transition);
    CompletionAwaited(w, p);
    assert StageInv(Put(w, Transit(p.transition)), 3);
  }

  lemma RecordIntegrationKeeps(w: World, p: Payload, at: int)
    requires Inv(w) && IntegrationGap(w, p) && w.state.journal != [] && Last(w.state.journal) == p.transition
    ensures Inv(Put(w, Append(Record(p, at))))
  {
    hide Legal, Merged, G.EvidenceFor, CitedByDecision;
    assert StageInv(w, 3);
    var w' := Put(w, Append(Record(p, at)));
    assert DecisionOnFile(w'.state, w.state.ledger[2].payload);
    assert IntegrationOnFile(w'.state, p, w'.origin);
    assert StageInv(w', 4);
  }

  /** What integrate files and writes to the journal is what recovery will look for. */
  lemma CompletionIsOnFile(s: State, result: G.Evidence, at: int, origin: G.Commit)
    requires IntegrationInputs(s).None? && CurrentState(s.journal) == Integrating
    requires OutcomeOf(s).report.value.passes && OutcomeOf(s).report.value.patch == OutcomeOf(s).patch.value
    requires Merged(s.git, RequestOf(s), origin) && Finished(s.git, RequestOf(s), result)
    ensures var steps := CompleteIntegration(s, result, at);
            var filed := Register(Artifact(Integrator, IntegrationDoc(result)));
            && steps.result.Ok? && steps.writes == [filed] + [Transit(steps.result.value.transition)]
            && IntegrationOnFile(Apply(s, filed), steps.result.value, origin)
  {
    var art := |s.artifacts|;
    var actor, report := Human(s.ledger[2].payload.decision.actor), OutcomeOf(s).report;
    var t := Decide(s.journal, Completed, actor, report, Some(result), CompletionEvidence(s, art), at);
    assert t.Ok?;
    assert t.value.evidence == RequiredEvidence(s, art, result);
    var s' := Apply(s, Register(Artifact(Integrator, IntegrationDoc(result))));
    assert RequestOf(s') == RequestOf(s) && RequiredEvidence(s', art, result) == RequiredEvidence(s, art, result);
  }

  lemma CompletionAlong(w: World, a: Artifact, p: Payload, at: int)
    requires Inv(w) && Integrates(w) && w.owed == Some(p) && OutcomeOf(w.state).patch.Some? && OutcomeOf(w.state).report.Some?
    requires IntegrationOnFile(Apply(w.state, Register(a)), p, w.origin)
    ensures Along(Inv, w, [Register(a)] + ([Transit(p.transition)] + [Append(Record(p, at))]))
  {
    var t, append := Transit(p.transition), Append(Record(p, at));
    var w1 := Put(w, Register(a));
    var w2 := Put(w1, t);
    RegisterKeepsIntegration(w, a);
    CompletionTransitKeeps(w1, p);
    assert IntegrationOnFile(w2.state, p, w.origin);
    RecordIntegrationKeeps(w2, p, at);
    AlongCons(Inv, w2, append, []);
    AlongCons(Inv, w1, t, [append]);
    AlongCons(Inv, w, Register(a), [t] + [append]);
  }

  lemma IntegratesFacts(w: World)
    requires Inv(w) && IntegrationInputs(w.state).None? && CurrentState(w.state.journal) == Integrating
    ensures Integrates(w) && w.state.git.checkedOut == SetupOf(w.state).branch
    ensures GitOnTheWay(w.state.git, SetupOf(w.state), RequestOf(w.state), w.origin)
    ensures OutcomeOf(w.state).report.value.passes && OutcomeOf(w.state).report.value.patch == OutcomeOf(w.state).patch.value
  {
    hide Legal, Merged, Committed, G.EvidenceFor, CitedByDecision;
    assert StageInv(w, 3);
  }

  lemma FreshWrites(s: State, c: Clock, committed: G.Repo, merged: G.Repo, result: G.Evidence)
    requires IntegrationInputs(s).None? && CurrentState(s.journal) == Integrating
    requires G.CommitPhase(s.git, RequestOf(s), c.commitStamp) == (committed, None)
    requires G.MergePhase(committed, RequestOf(s)) == (merged, Ok(result))
    requires CompleteIntegration(s, result, c.at).result.Ok? && |CompleteIntegration(s, result, c.at).writes| == 2
    ensures var steps, writes := CompleteIntegration(s, result, c.at), IntegrateSteps(s, c).writes;
            && Pending(writes) == Some(steps.result.value)
            && writes == [Git(committed)] + ([Git(merged)] + ([steps.writes[0]] + ([steps.writes[1]] + [Append(Record(steps.result.value, c.at))])))
  {
    hide G.CommitPhase, G.MergePhase, CompleteIntegration;
    var steps, writes := CompleteIntegration(s, result, c.at), IntegrateSteps(s, c).writes;
    var moved, append := [Git(committed), Git(merged)] + steps.writes, Append(Record(steps.result.value, c.at));
    assert writes == moved + [append];
    PendingLast(moved, append.record, []);
    assert moved + [append] + [] == writes;
  }

  lemma FreshIntegrationAlong(w: World, c: Clock)
    requires Inv(w) && IntegrationInputs(w.state).None? && CurrentState(w.state.journal) == Integrating
    ensures var writes := IntegrateSteps(w.state, c).writes;
            Along(Inv, Promise(w, writes), writes)
  {
    var s, q := w.state, RequestOf(w.state);
    IntegratesFacts(w);
    GitMoves(s.git, SetupOf(s), q, w.origin, c.commitStamp);
    var (committed, e) := G.CommitPhase(s.git, q, c.commitStamp);
    if e.Some? {
      StoppedAlong(w, c);
    } else {
      var (merged, r) := G.MergePhase(committed, q);
      MovedAlong(w, committed, merged, r.value, c.at);
      FreshWrites(s, c, committed, merged, r.value);
    }
  }

  lemma StoppedAlong(w: World, c: Clock)
    requires Inv(w) && IntegrationInputs(w.state).None? && CurrentState(w.state.journal) == Integrating
    requires G.CommitPhase(w.state.git, RequestOf(w.state), c.commitStamp).1.Some?
    requires G.CommitPhase(w.state.git, RequestOf(w.state), c.commitStamp).0 == w.state.git
    ensures var writes := IntegrateSteps(w.state, c).writes;
            Along(Inv, Promise(w, writes), writes)
  {
    var g := Git(w.state.git);
    assert IntegrateSteps(w.state, c).writes == [g] && [g][..0] == [];
    assert Pending([g]) == None;
    assert Put(w, g) == w;
    AlongCons(Inv, w, g, []);
    assert [g] + [] == [g];
  }

  /** Git moves nothing that the completion depends on. */
  lemma MovedAlong(w: World, committed: G.Repo, merged: G.Repo, result: G.Evidence, at: int)
    requires Inv(w) && IntegrationInputs(w.state).None? && CurrentState(w.state.journal) == Integrating
    requires committed.checkedOut == merged.checkedOut == SetupOf(w.state).branch
    requires GitOnTheWay(committed, SetupOf(w.state), RequestOf(w.state), w.origin)
    requires Merged(merged, RequestOf(w.state), w.origin) && Finished(merged, RequestOf(w.state), result)
    ensures var steps := CompleteIntegration(w.state, result, at);
            steps.result.Ok? && |steps.writes| == 2
            && Along(Inv, w.(owed := Some(steps.result.value)),
                     [Git(committed)] + ([Git(merged)] + ([steps.writes[0]] + ([steps.writes[1]] + [Append(Record(steps.result.value, at))]))))
  {
    hide Inv, StageInv, Along, Merged, GitOnTheWay;
    IntegratesFacts(w);
    var after := Apply(Apply(w.state, Git(committed)), Git(merged));
    SameCompletion(w.state, after, result, at);
    CompletionIsOnFile(after, result, at, w.origin);
    var steps := CompleteIntegration(w.state, result, at);
    var p := steps.result.value;
    var w0 := w.(owed := Some(p));
    var w1 := Put(w0, Git(committed));
    var w2 := Put(w1, Git(merged));
    PromiseKeepsIntegration(w, p);
    GitKeeps(w0, committed);
    GitKeeps(w1, merged);
    CompletionAlong(w2, steps.writes[0].artifact, p, at);
    var rest := [steps.writes[0]] + ([steps.writes[1]] + [Append(Record(p, at))]);
    AlongCons(Inv, w1, Git(merged), rest);
    AlongCons(Inv, w0, Git(committed), [Git(merged)] + rest);
  }

  // ---- integrate again, after the journal said completed ----------------------------------

  lemma CompletedFacts(w: World)
    requires Inv(w) && |w.state.ledger| == 3 && CurrentState(w.state.journal) == Completed
    ensures StagesInOrder(w.state.ledger) && w.state.directory && w.owed.Some? && IntegrationGap(w, w.owed.value)
    ensures |w.state.journal| >= 2 && Last(w.state.journal) == w.owed.value.transition
    ensures w.state.journal[|w.state.journal| - 2] == w.state.ledger[2].payload.transition
    ensures ReviewedSound(w.state) && Decided(w.state) && Executed(w.state) && w.state.workspace
  {
    hide Legal, Merged, Committed, G.EvidenceFor, RequiredEvidence, CitedByDecision, OutcomeSound, Fresh;
    assert StageInv(w, 3);
  }

  /** Of the registry, a completed transition cites its integration and nothing else. */
  lemma CompletionCites(s: State, p: Payload, origin: G.Commit)
    requires |s.ledger| == 3 && StagesInOrder(s.ledger) && OutcomeOf(s).patch.Some? && OutcomeOf(s).report.Some?
    requires IntegrationOnFile(s, p, origin)
    ensures p.Integrated? && CitesOnly(p.transition.evidence, p.artifact)
    ensures p.artifact < |s.artifacts| && s.artifacts[p.artifact] == Artifact(Integrator, IntegrationDoc(p.result))
  {
    hide Merged, G.EvidenceFor, Select;
  }

  ghost predicate CitesOnly(cited: set<EvidenceId>, k: nat) {
    ArtifactId(k) in cited && forall e | e in cited && e.ArtifactId? :: e.id == k
  }

  lemma CitedAlone(artifacts: seq<Artifact>, cited: set<EvidenceId>, k: nat)
    requires CitesOnly(cited, k) && k < |artifacts| && artifacts[k].content.IntegrationDoc?
    ensures Available(artifacts, cited) && Select(artifacts, IntegrationDocs, Some(cited)) == [k]
  {
    SelectOnly(artifacts, IntegrationDocs, cited, k);
    hide Select;
  }

  lemma CompletedArtifact(s: State, p: Payload, origin: G.Commit)
    requires |s.ledger| == 3 && StagesInOrder(s.ledger) && OutcomeOf(s).patch.Some? && OutcomeOf(s).report.Some?
    requires IntegrationOnFile(s, p, origin) && s.journal != [] && Last(s.journal) == p.transition
    ensures CompletedEvidence(s) == Some(p.artifact)
  {
    CompletionCites(s, p, origin);
    hide IntegrationOnFile, OutcomeOf, StagesInOrder, CitesOnly, Available, Select;
    CitedAlone(s.artifacts, p.transition.evidence, p.artifact);
  }

  lemma CompletionHolds(s: State, p: Payload, origin: G.Commit)
    requires IntegrationInputs(s).None? && IntegrationOnFile(s, p, origin)
    requires s.journal != [] && Last(s.journal) == p.transition
    ensures CompletionError(s, p.artifact).None?
  {
    MergedStays(s.git, RequestOf(s), origin, 0);
  }

  lemma CompletedInputs(w: World)
    requires Inv(w) && |w.state.ledger| == 3 && CurrentState(w.state.journal) == Completed
    ensures IntegrationInputs(w.state).None?
  {
    hide Legal, Merged, Committed, G.EvidenceFor, CitedByDecision, Fresh;
    assert StageInv(w, 3);
  }

  lemma CompletedEvidenceHolds(w: World)
    requires Inv(w) && |w.state.ledger| == 3 && CurrentState(w.state.journal) == Completed
    ensures IntegrationInputs(w.state).None? && w.owed.Some? && w.owed.value.Integrated?
    ensures w.owed.value.artifact < |w.state.artifacts| && w.state.artifacts[w.owed.value.artifact].content.IntegrationDoc?
    ensures CompletedEvidence(w.state) == Some(w.owed.value.artifact) && CompletionError(w.state, w.owed.value.artifact).None?
  {
    CompletedFacts(w);
    CompletedInputs(w);
    CompletedArtifact(w.state, w.owed.value, w.origin);
    CompletionHolds(w.state, w.owed.value, w.origin);
  }

  lemma CompletedOwed(w: World)
    requires Inv(w) && |w.state.ledger| == 3 && CurrentState(w.state.journal) == Completed
    ensures w.owed.Some? && w.owed.value.Integrated? && w.state.journal != [] && w.owed.value.transition == Last(w.state.journal)
    ensures w.owed.value.artifact < |w.state.artifacts|
    ensures w.state.artifacts[w.owed.value.artifact].content == IntegrationDoc(w.owed.value.result)
  {
    CompletedFacts(w);
  }

  /** Re-reading the journal, the registry and Git gives the record that was owed. */
  lemma EvidenceGivesTheOwedRecord(w: World, c: Clock)
    requires Inv(w) && |w.state.ledger| == 3 && CurrentState(w.state.journal) == Completed
    ensures w.owed.Some? && IntegrateSteps(w.state, c) == Steps([Append(Record(w.owed.value, c.at))], Ok(()))
  {
    hide Inv, StageInv, IntegrationInputs, CompletedEvidence, CompletionError, RequestOf;
    CompletedOwed(w);
    CompletedEvidenceHolds(w);
    assert IntegrateAgain(w.state) == Steps([], Ok(w.owed.value));
  }

  lemma OwedIntegrationKeeps(w: World, at: int)
    requires Inv(w) && |w.state.ledger| == 3 && CurrentState(w.state.journal) == Completed
    ensures w.owed.Some? && Inv(Put(w, Append(Record(w.owed.value, at))))
  {
    CompletedFacts(w);
    RecordIntegrationKeeps(w, w.owed.value, at);
  }

  lemma IntegrateAlong(w: World, c: Clock)
    requires Inv(w)
    ensures var writes := IntegrateSteps(w.state, c).writes;
            Along(Inv, Promise(w, writes), writes)
  {
    var s := w.state;
    if IntegrationInputs(s).None? && CurrentState(s.journal) == Integrating {
      FreshIntegrationAlong(w, c);
    } else if IntegrationInputs(s).None? && CurrentState(s.journal) == Completed {
      EvidenceGivesTheOwedRecord(w, c);
      OwedIntegrationKeeps(w, c.at);
      RecordAlong(w, w.owed.value, c.at);
    }
  }

  /** A call that only appends the owed record. */
  lemma RecordAlong(w: World, p: Payload, at: int)
    requires Inv(w) && w.owed == Some(p)
    ensures Promise(w, [Append(Record(p, at))]) == w
    ensures Inv(Put(w, Append(Record(p, at)))) ==> Along(Inv, w, [Append(Record(p, at))])
  {
    var append := Append(Record(p, at));
    PendingLast([], append.record, []);
    assert [] + [append] + [] == [append];
    if Inv(Put(w, append)) {
      AlongCons(Inv, w, append, []);
      assert [append] + [] == [append];
    }
  }

  // ---- cleanup ----------------------------------------------------------------------------

  lemma CleanupFacts(w: World)
    requires Inv(w) && |w.state.ledger| == 4
    ensures StagesInOrder(w.state.ledger) && w.state.directory && CurrentState(w.state.journal) == Completed
    ensures w.state.git.tip == w.state.ledger[3].payload.result.commit && RemovalError(w.state, SetupOf(w.state)).None?
    ensures !w.state.workspace ==> w.owed == Some(Cleaned(w.state.ledger[3].payload.result.commit))
  {
    assert StageInv(w, 4);
    MergedStays(w.state.git, RequestOf(w.state), w.origin, 0);
  }

  lemma RemovalKeeps(w: World)
    requires Inv(w) && |w.state.ledger| == 4 && StagesInOrder(w.state.ledger)
    ensures var w' := w.(owed := Some(Cleaned(w.state.ledger[3].payload.result.commit)));
            Inv(w') && Inv(Put(w', RemoveWorktree))
  {
    hide Legal, Merged, G.EvidenceFor, CitedByDecision;
    assert StageInv(w, 4);
    var w' := w.(owed := Some(Cleaned(w.state.ledger[3].payload.result.commit)));
    var w1 := Put(w', RemoveWorktree);
    assert DecisionOnFile(w1.state, w.state.ledger[2].payload);
    assert IntegrationOnFile(w1.state, w.state.ledger[3].payload, w.origin);
    assert StageInv(w', 4) && StageInv(w1, 4);
  }

  lemma RecordCleanupKeeps(w: World, at: int)
    requires Inv(w) && |w.state.ledger| == 4 && StagesInOrder(w.state.ledger) && !w.state.workspace
    ensures Inv(Put(w, Append(Record(Cleaned(w.state.ledger[3].payload.result.commit), at))))
  {
    hide Legal, Merged, G.EvidenceFor, CitedByDecision;
    assert StageInv(w, 4);
    var w' := Put(w, Append(Record(Cleaned(w.state.ledger[3].payload.result.commit), at)));
    assert DecisionOnFile(w'.state, w.state.ledger[2].payload);
    assert IntegrationOnFile(w'.state, w.state.ledger[3].payload, w.origin);
    assert StageInv(w', 5);
  }

  lemma CleanupAlong(w: World, at: int)
    requires Inv(w)
    ensures var writes := CleanupSteps(w.state, at).writes;
            Along(Inv, Promise(w, writes), writes)
  {
    if Awaiting(w.state, 4).None? {
      CleanupFacts(w);
      var p := Cleaned(w.state.ledger[3].payload.result.commit);
      var append := Append(Record(p, at));
      var w0 := w.(owed := Some(p));
      RemovalKeeps(w);
      RecordAlong(w0, p, at);
      if w.state.workspace {
        var w1 := Put(w0, RemoveWorktree);
        RecordCleanupKeeps(w1, at);
        RecordAlong(w1, p, at);
        AlongCons(Inv, w0, RemoveWorktree, [append]);
        PendingLast([RemoveWorktree], append.record, []);
        assert CleanupSteps(w.state, at).writes == [RemoveWorktree] + [append] == [RemoveWorktree] + [append] + [];
      } else {
        RecordCleanupKeeps(w0, at);
        assert CleanupSteps(w.state, at).writes == [append];
      }
    }
  }
}
