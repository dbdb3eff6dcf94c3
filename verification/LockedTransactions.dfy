/**
 The lock table and the tables it guards, in one system: a transaction reads its histories only
 once it holds both of its locks, and keeps them until it commits, fails or is left.  Here nothing
 admits a transaction but the locks; that at most one is open per task and per run is a theorem.
 */
module LockedTransactions {
  import opened Outcomes
  import A = AdvisoryLocks
  import S = StateTransactions

  /** `progress` counts the locks each transaction holds; 3 is the end of it. */
  datatype State = State(store: S.Store, progress: A.Progress)

  datatype Step =
    | Lock(i: nat)
    | GiveUp(i: nat)
    | Read(i: nat, expectedTask: nat, expectedRun: nat)
    | Act(step: S.Step)

  function Initial(txs: seq<A.Transaction>): State {
    State(S.Store(S.EMPTY, map[]), A.Start(txs))
  }

  /** The end of the transaction that an action closed releases its locks. */
  function Released(progress: A.Progress, before: map<nat, S.Tx>, after: map<nat, S.Tx>): (r: A.Progress)
    ensures |r| == |progress|
    ensures forall i | 0 <= i < |r| :: r[i] == if i in before && i !in after then 3 else progress[i]
  {
    seq(|progress|, i requires 0 <= i < |progress| => if i in before && i !in after then 3 else progress[i])
  }

  ghost function Next(h: A.Hash, txs: seq<A.Transaction>, s: State, x: Step): State
    requires S.Inv(s.store) && A.InRange(txs, s.progress)
  {
    match x
    case Lock(i) => if A.Enabled(h, txs, s.progress, A.Acquire(i)) then s.(progress := A.After(s.progress, A.Acquire(i))) else s
    case GiveUp(i) => if i < |txs| && i !in s.store.open then s.(progress := s.progress[i := 3]) else s
    case Read(i, et, er) =>
      if i >= |txs| || s.progress[i] != 2 || i in s.store.open then s
      else
        var r := S.EnterIn(s.store.db, txs[i].task, txs[i].run, et, er);
        if r.Ok? then s.(store := s.store.(open := s.store.open[i := r.value])) else s.(progress := s.progress[i := 3])
    case Act(step) =>
      if step.Enter? then s
      else
        var store := S.Next(s.store, step);
        State(store, Released(s.progress, s.store.open, store.open))
  }

  /** Whoever is open holds both locks of its own task and run. */
  ghost predicate Guarded(txs: seq<A.Transaction>, s: State)
    requires A.InRange(txs, s.progress)
  {
    forall i | i in s.store.open ::
      i < |txs| && s.progress[i] == 2 && s.store.open[i].task == txs[i].task && s.store.open[i].run == txs[i].run
  }

  ghost predicate Inv(h: A.Hash, txs: seq<A.Transaction>, s: State) {
    S.Inv(s.store) && A.InRange(txs, s.progress) && A.Exclusive(h, txs, s.progress) && Guarded(txs, s)
  }

  /** The locks are the whole admission rule: who holds both finds no open transaction on its task or run. */
  lemma LocksAdmit(h: A.Hash, txs: seq<A.Transaction>, s: State, i: nat)
    requires Inv(h, txs, s) && i < |txs| && s.progress[i] == 2 && i !in s.store.open
    ensures S.Admits(s.store.open, i, txs[i].task, txs[i].run)
  {
    forall k | k in s.store.open
      ensures s.store.open[k].task != txs[i].task && s.store.open[k].run != txs[i].run
    {
      A.HoldersAreApart(h, txs, s.progress, i, k);
    }
  }

  /** Ending transactions keeps the exclusion of the rest. */
  lemma EndingKeepsExclusion(h: A.Hash, txs: seq<A.Transaction>, p: A.Progress, p': A.Progress)
    requires A.InRange(txs, p) && A.Exclusive(h, txs, p)
    requires |p'| == |p| && forall i | 0 <= i < |p| :: p'[i] == p[i] || p'[i] == 3
    ensures A.InRange(txs, p') && A.Exclusive(h, txs, p')
  {
    forall i, j, key | 0 <= i < |txs| && 0 <= j < |txs| && A.Holds(h, txs, p', i, key) && A.Holds(h, txs, p', j, key)
      ensures i == j
    {
      assert A.Holds(h, txs, p, i, key) && A.Holds(h, txs, p, j, key);
    }
  }

  /** An action never opens a transaction and never changes whose one is. */
  lemma ActionsKeepOwners(s: S.Store, x: S.Step)
    requires S.Inv(s) && !x.Enter?
    ensures forall i | i in S.Next(s, x).open ::
              i in s.open && S.Next(s, x).open[i].task == s.open[i].task && S.Next(s, x).open[i].run == s.open[i].run
  {
    hide S.CommitIn, S.PublishIn, S.Inv;
  }

  /** Every step is a step of the store that admits, and of the locks. */
  lemma StepRefines(h: A.Hash, txs: seq<A.Transaction>, s: State, x: Step)
    requires Inv(h, txs, s)
    ensures Inv(h, txs, Next(h, txs, s, x))
    ensures match x
            case Read(i, et, er) =>
              Next(h, txs, s, x).store == s.store
              || (i < |txs| && Next(h, txs, s, x).store == S.Next(s.store, S.Enter(i, txs[i].task, txs[i].run, et, er)))
            case Act(step) =>
              Next(h, txs, s, x).store == s.store || Next(h, txs, s, x).store == S.Next(s.store, step)
            case _ => Next(h, txs, s, x).store == s.store
  {
    var s' := Next(h, txs, s, x);
    hide A.Exclusive, A.Holds, S.Inv, S.Next;
    match x {
      case Lock(i) =>
        if A.Enabled(h, txs, s.progress, A.Acquire(i)) {
          A.StepKeepsExclusion(h, txs, s.progress, A.Acquire(i));
        }
      case GiveUp(i) =>
        if i < |txs| && i !in s.store.open {
          EndingKeepsExclusion(h, txs, s.progress, s'.progress);
        }
      case Read(i, et, er) => ReadRefines(h, txs, s, i, et, er);
      case Act(step) =>
        if !step.Enter? {
          S.EveryStepKeepsInv(s.store, step);
          ActionsKeepOwners(s.store, step);
          EndingKeepsExclusion(h, txs, s.progress, s'.progress);
        }
    }
  }

  lemma ReadRefines(h: A.Hash, txs: seq<A.Transaction>, s: State, i: nat, et: nat, er: nat)
    requires Inv(h, txs, s)
    ensures var s' := Next(h, txs, s, Read(i, et, er));
            && Inv(h, txs, s')
            && (s'.store == s.store || (i < |txs| && s'.store == S.Next(s.store, S.Enter(i, txs[i].task, txs[i].run, et, er))))
  {
    hide A.Exclusive, A.Holds, S.EnterIn, S.Sound, S.InStep;
    if i < |txs| && s.progress[i] == 2 && i !in s.store.open {
      LocksAdmit(h, txs, s, i);
      if S.EnterIn(s.store.db, txs[i].task, txs[i].run, et, er).Ok? {
        S.EveryStepKeepsInv(s.store, S.Enter(i, txs[i].task, txs[i].run, et, er));
        S.EnterIsInStep(s.store.db, txs[i].task, txs[i].run, et, er);
      } else {
        EndingKeepsExclusion(h, txs, s.progress, s.progress[i := 3]);
      }
    }
  }

  lemma InitialIsInv(h: A.Hash, txs: seq<A.Transaction>)
    ensures Inv(h, txs, Initial(txs))
  {
    S.EmptyIsInv();
  }

  ghost function Run(h: A.Hash, txs: seq<A.Transaction>, s: State, steps: seq<Step>): (r: State)
    requires Inv(h, txs, s)
    ensures Inv(h, txs, r)
    decreases |steps|
  {
    if steps == [] then s
    else
      StepRefines(h, txs, s, steps[0]);
      Run(h, txs, Next(h, txs, s, steps[0]), steps[1..])
  }

  lemma StepExtends(h: A.Hash, txs: seq<A.Transaction>, s: State, x: Step)
    requires Inv(h, txs, s)
    ensures S.Extends(s.store.db, Next(h, txs, s, x).store.db)
  {
    hide S.Extends, S.Announced, S.Next, S.Inv, Inv, Next;
    assert S.Inv(s.store) by { InvHasStore(h, txs, s); }
    StepRefines(h, txs, s, x);
    S.ExtendsItself(s.store.db);
    match x {
      case Read(i, et, er) => if i < |txs| { S.EveryStepExtends(s.store, S.Enter(i, txs[i].task, txs[i].run, et, er)); }
      case Act(step) => S.EveryStepExtends(s.store, step);
      case _ =>
    }
  }

  lemma InvHasStore(h: A.Hash, txs: seq<A.Transaction>, s: State)
    requires Inv(h, txs, s)
    ensures S.Inv(s.store)
  {
  }

  lemma {:induction false} RunExtends(h: A.Hash, txs: seq<A.Transaction>, s: State, steps: seq<Step>)
    requires Inv(h, txs, s)
    ensures S.Extends(s.store.db, Run(h, txs, s, steps).store.db)
    decreases |steps|
  {
    hide S.Extends, S.Inv, Next;
    if steps == [] {
      S.ExtendsItself(s.store.db);
    } else {
      StepRefines(h, txs, s, steps[0]);
      StepExtends(h, txs, s, steps[0]);
      RunExtends(h, txs, Next(h, txs, s, steps[0]), steps[1..]);
      S.ExtendsTransitively(s.store.db, Next(h, txs, s, steps[0]).store.db, Run(h, txs, s, steps).store.db);
    }
  }

  /**
   From the empty store, for any number of transactions, any hash and any interleaving of locking,
   reading, staging, committing, giving up and publishing: at most one transaction is open per task
   and per run, what it read is still what is stored, and every history is one gap-free chain that
   later steps only extend.
   */
  lemma LocksMakeEachHistoryOneChain(h: A.Hash, txs: seq<A.Transaction>, before: seq<Step>, after: seq<Step>)
    ensures Inv(h, txs, Initial(txs))
    ensures var s := Run(h, txs, Initial(txs), before);
            var s' := Run(h, txs, s, after);
            && S.Sound(s.store.db) && S.Extends(s.store.db, s'.store.db)
            && S.Apart(s.store.open) && forall i | i in s.store.open :: S.InStep(s.store.db, s.store.open[i])
  {
    InitialIsInv(h, txs);
    var s := Run(h, txs, Initial(txs), before);
    RunExtends(h, txs, s, after);
    hide S.Sound, S.InStep, S.Extends;
  }

  // ---- nobody is shut out -----------------------------------------------------------------

  lemma OneEnds(h: A.Hash, txs: seq<A.Transaction>, s: State, k: nat) returns (x: Step)
    requires Inv(h, txs, s) && k < |txs|
    ensures var s' := Next(h, txs, s, x);
            Inv(h, txs, s') && s'.progress == s.progress[k := 3] && s'.store.db == s.store.db
  {
    hide A.Exclusive, A.Holds, S.Sound, S.InStep;
    x := if k in s.store.open then Act(S.Exit(k)) else GiveUp(k);
    StepRefines(h, txs, s, x);
    assert Next(h, txs, s, x).progress == s.progress[k := 3];
  }

  lemma {:induction false} OthersEnd(h: A.Hash, txs: seq<A.Transaction>, s: State, i: nat, k: nat) returns (steps: seq<Step>)
    requires Inv(h, txs, s) && i < |txs| && k <= |txs| && s.progress[i] == 0
    requires forall j | 0 <= j < k && j != i :: s.progress[j] == 3
    ensures var s' := Run(h, txs, s, steps);
            && s'.store.db == s.store.db && s'.progress[i] == 0
            && forall j | 0 <= j < |txs| && j != i :: s'.progress[j] == 3
    decreases |txs| - k
  {
    hide Next, S.Inv, A.Exclusive;
    InvHasRange(h, txs, s);
    if k == |txs| {
      steps := [];
    } else if k == i {
      steps := OthersEnd(h, txs, s, i, k + 1);
    } else {
      var x := OneEnds(h, txs, s, k);
      var rest := OthersEnd(h, txs, Next(h, txs, s, x), i, k + 1);
      steps := [x] + rest;
      assert steps[1..] == rest;
    }
    InvHasRange(h, txs, Run(h, txs, s, steps));
  }

  lemma InvHasRange(h: A.Hash, txs: seq<A.Transaction>, s: State)
    requires Inv(h, txs, s)
    ensures A.InRange(txs, s.progress)
  {
  }

  /** Alone, a transaction takes both its locks, even if they have one key, and reads what is stored. */
  lemma AloneEnters(h: A.Hash, txs: seq<A.Transaction>, s: State, i: nat) returns (steps: seq<Step>)
    requires Inv(h, txs, s) && i < |txs| && s.progress[i] == 0
    requires forall j | 0 <= j < |txs| && j != i :: s.progress[j] == 3
    requires forall r | r in S.History(s.store.db.records, txs[i].run) :: r.task == txs[i].task
    ensures i in Run(h, txs, s, steps).store.open
  {
    hide S.Sound, S.InStep, A.Exclusive;
    var th, rh := S.History(s.store.db.transitions, txs[i].task), S.History(s.store.db.records, txs[i].run);
    var read := Read(i, |th|, |rh|);
    steps := [Lock(i), Lock(i), read];
    var s1 := Next(h, txs, s, Lock(i));
    StepRefines(h, txs, s, Lock(i));
    assert A.Enabled(h, txs, s.progress, A.Acquire(i));
    var s2 := Next(h, txs, s1, Lock(i));
    StepRefines(h, txs, s1, Lock(i));
    assert A.Enabled(h, txs, s1.progress, A.Acquire(i));
    S.EntersIff(s.store.db, txs[i].task, txs[i].run, |th|, |rh|);
    StepRefines(h, txs, s2, read);
    assert steps[1..] == [Lock(i), read] && [Lock(i), read][1..] == [read] && [read][1..] == [];
    assert Run(h, txs, s2, [read]) == Run(h, txs, Next(h, txs, s2, read), []);
  }

  lemma {:induction false} RunConcat(h: A.Hash, txs: seq<A.Transaction>, s: State, a: seq<Step>, b: seq<Step>)
    requires Inv(h, txs, s)
    ensures Run(h, txs, s, a + b) == Run(h, txs, Run(h, txs, s, a), b)
    decreases |a|
  {
    hide Next, S.Inv, A.Exclusive;
    if a == [] {
      assert a + b == b;
    } else {
      assert (a + b)[0] == a[0] && (a + b)[1..] == a[1..] + b;
      StepRefines(h, txs, s, a[0]);
      RunConcat(h, txs, Next(h, txs, s, a[0]), a[1..], b);
    }
  }

  /** Whatever the others hold, a transaction that has not begun can still be opened, exactly if its run is of its task. */
  lemma NobodyIsShutOut(h: A.Hash, txs: seq<A.Transaction>, s: State, i: nat)
    requires Inv(h, txs, s) && i < |txs| && s.progress[i] == 0
    ensures (exists steps: seq<Step> {:trigger Run(h, txs, s, steps)} :: i in Run(h, txs, s, steps).store.open)
            <==> forall r | r in S.History(s.store.db.records, txs[i].run) :: r.task == txs[i].task
  {
    if forall r | r in S.History(s.store.db.records, txs[i].run) :: r.task == txs[i].task {
      var before := OthersEnd(h, txs, s, i, 0);
      var after := AloneEnters(h, txs, Run(h, txs, s, before), i);
      RunConcat(h, txs, s, before, after);
      assert i in Run(h, txs, s, before + after).store.open;
    }
    if steps: seq<Step> :| i in Run(h, txs, s, steps).store.open {
      OpenRunIsOfItsTask(h, txs, s, steps, i);
    }
  }

  lemma OpenRunIsOfItsTask(h: A.Hash, txs: seq<A.Transaction>, s: State, steps: seq<Step>, i: nat)
    requires Inv(h, txs, s) && i < |txs| && i in Run(h, txs, s, steps).store.open
    ensures forall r | r in S.History(s.store.db.records, txs[i].run) :: r.task == txs[i].task
  {
    hide Next, Run, S.Sound, S.History;
    var s' := Run(h, txs, s, steps);
    RunExtends(h, txs, s, steps);
    var tx, was, now := s'.store.open[i], S.History(s.store.db.records, txs[i].run), S.History(s'.store.db.records, txs[i].run);
    assert S.InStep(s'.store.db, tx) && tx.task == txs[i].task && tx.run == txs[i].run;
    assert was <= now == tx.records[..tx.initialRun];
    forall k | 0 <= k < |was|
      ensures was[k].task == txs[i].task
    {
      assert was[k] == tx.records[k];
    }
  }
}
