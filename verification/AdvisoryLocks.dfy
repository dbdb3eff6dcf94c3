/**
 Transaction-scoped advisory locks: each transaction takes the key of its run and the key of its
 task in the order of their names, holds them while it checks and commits, and drops both at the
 end.  A key is a hash of a name, and nothing here assumes that the hash is free of collisions.
 */
module AdvisoryLocks {
  import opened IsoTimestamps

  datatype Transaction = Transaction(run: string, task: string)

  function RunName(run: string): string {
    "run:" + run
  }

  function TaskName(task: string): string {
    "task:" + task
  }

  /** sorted((run name, task name)) */
  function Names(x: Transaction): seq<string> {
    if TextLess(TaskName(x.task), RunName(x.run)) then [TaskName(x.task), RunName(x.run)]
    else [RunName(x.run), TaskName(x.task)]
  }

  /** Every run name sorts before every task name, whatever the identifiers are. */
  lemma RunsBeforeTasks(x: Transaction)
    ensures TextLess(RunName(x.run), TaskName(x.task)) && Names(x) == [RunName(x.run), TaskName(x.task)]
  {
    assert RunName(x.run)[0] == 'r' && TaskName(x.task)[0] == 't';
  }

  // ---- the lock table ---------------------------------------------------------------------

  /** How many locks each transaction has taken; 3 when it has ended, by commit, rollback or lock timeout. */
  type Progress = seq<nat>

  type Hash = string -> int

  function Key(h: Hash, x: Transaction, p: nat): int
    requires p < 2
  {
    h(Names(x)[p])
  }

  predicate InRange(txs: seq<Transaction>, pcs: Progress) {
    |pcs| == |txs| && forall i | 0 <= i < |pcs| :: pcs[i] <= 3
  }

  predicate Holds(h: Hash, txs: seq<Transaction>, pcs: Progress, i: nat, key: int)
    requires InRange(txs, pcs) && i < |txs|
  {
    (1 <= pcs[i] <= 2 && Key(h, txs[i], 0) == key) || (pcs[i] == 2 && Key(h, txs[i], 1) == key)
  }

  /** Transaction i cannot take its next lock because of j; it may hold that key itself. */
  predicate WaitsFor(h: Hash, txs: seq<Transaction>, pcs: Progress, i: nat, j: nat)
    requires InRange(txs, pcs) && i < |txs| && j < |txs|
  {
    pcs[i] < 2 && i != j && Holds(h, txs, pcs, j, Key(h, txs[i], pcs[i]))
  }

  datatype Event = Acquire(i: nat) | End(i: nat)

  ghost predicate Enabled(h: Hash, txs: seq<Transaction>, pcs: Progress, e: Event)
    requires InRange(txs, pcs)
  {
    e.i < |txs|
    && match e
       case Acquire(i) => pcs[i] < 2 && forall j | 0 <= j < |txs| :: !WaitsFor(h, txs, pcs, i, j)
       case End(i) => pcs[i] < 3
  }

  function After(pcs: Progress, e: Event): Progress
    requires e.i < |pcs|
  {
    match e
    case Acquire(i) => pcs[i := pcs[i] + 1]
    case End(i) => pcs[i := 3]
  }

  function Start(txs: seq<Transaction>): (pcs: Progress)
    ensures |pcs| == |txs| && forall i | 0 <= i < |pcs| :: pcs[i] == 0
  {
    seq(|txs|, _ => 0)
  }

  /** The events happen one after the other, each when it is enabled. */
  ghost predicate Happens(h: Hash, txs: seq<Transaction>, pcs: Progress, events: seq<Event>)
    requires InRange(txs, pcs)
    decreases |events|
  {
    events != [] ==>
      Enabled(h, txs, pcs, events[0]) && Happens(h, txs, After(pcs, events[0]), events[1..])
  }

  function Final(pcs: Progress, events: seq<Event>): (r: Progress)
    requires forall e | e in events :: e.i < |pcs|
    ensures |r| == |pcs|
    decreases |events|
  {
    if events == [] then pcs else Final(After(pcs, events[0]), events[1..])
  }

  // ---- mutual exclusion -------------------------------------------------------------------

  ghost predicate Exclusive(h: Hash, txs: seq<Transaction>, pcs: Progress)
    requires InRange(txs, pcs)
  {
    forall i, j, key {:trigger Holds(h, txs, pcs, i, key), Holds(h, txs, pcs, j, key)} |
      0 <= i < |txs| && 0 <= j < |txs| && Holds(h, txs, pcs, i, key) && Holds(h, txs, pcs, j, key) :: i == j
  }

  lemma StepKeepsExclusion(h: Hash, txs: seq<Transaction>, pcs: Progress, e: Event)
    requires InRange(txs, pcs) && Exclusive(h, txs, pcs) && Enabled(h, txs, pcs, e)
    ensures Exclusive(h, txs, After(pcs, e))
  {
    var pcs' := After(pcs, e);
    forall i, j, key | 0 <= i < |txs| && 0 <= j < |txs| && Holds(h, txs, pcs', i, key) && Holds(h, txs, pcs', j, key)
      ensures i == j
    {
      if i != j {
        if e.Acquire? && (e.i == i || e.i == j) {
          var other := if e.i == i then j else i;
          assert Holds(h, txs, pcs, other, key);
          assert !WaitsFor(h, txs, pcs, e.i, other);
          assert Holds(h, txs, pcs, e.i, key);
        } else {
          assert Holds(h, txs, pcs, i, key) && Holds(h, txs, pcs, j, key);
        }
      }
    }
  }

  /** No key is ever held by two transactions. */
  lemma {:induction false} LocksExclude(h: Hash, txs: seq<Transaction>, pcs: Progress, events: seq<Event>)
    requires InRange(txs, pcs) && Exclusive(h, txs, pcs) && Happens(h, txs, pcs, events)
    ensures forall e | e in events :: e.i < |pcs|
    ensures InRange(txs, Final(pcs, events)) && Exclusive(h, txs, Final(pcs, events))
    decreases |events|
  {
    if events == [] {
    } else {
      StepKeepsExclusion(h, txs, pcs, events[0]);
      LocksExclude(h, txs, After(pcs, events[0]), events[1..]);
      assert forall e | e in events :: e == events[0] || e in events[1..];
    }
  }

  /** An ended transaction holds nothing, and nobody waits for it, whatever happens then. */
  lemma {:induction false} EndedHoldsNothing(h: Hash, txs: seq<Transaction>, pcs: Progress, events: seq<Event>, i: nat)
    requires InRange(txs, pcs) && Happens(h, txs, pcs, events) && forall e | e in events :: e.i < |pcs|
    requires i < |txs| && (pcs[i] == 3 || End(i) in events)
    ensures InRange(txs, Final(pcs, events))
    ensures forall key :: !Holds(h, txs, Final(pcs, events), i, key)
    ensures forall j | 0 <= j < |txs| :: !WaitsFor(h, txs, Final(pcs, events), j, i) && !WaitsFor(h, txs, Final(pcs, events), i, j)
    decreases |events|
  {
    if events != [] {
      assert forall e | e in events[1..] :: e in events;
      assert events[0] in events;
      assert End(i) in events ==> events[0] == End(i) || End(i) in events[1..];
      EndedHoldsNothing(h, txs, After(pcs, events[0]), events[1..], i);
    }
  }

  lemma HoldersAreApart(h: Hash, txs: seq<Transaction>, pcs: Progress, i: nat, j: nat)
    requires InRange(txs, pcs) && Exclusive(h, txs, pcs)
    requires i < |txs| && j < |txs| && i != j && pcs[i] == pcs[j] == 2
    ensures txs[i].run != txs[j].run && txs[i].task != txs[j].task
  {
    RunsBeforeTasks(txs[i]);
    RunsBeforeTasks(txs[j]);
    assert Holds(h, txs, pcs, i, Key(h, txs[i], 0)) && Holds(h, txs, pcs, i, Key(h, txs[i], 1));
    assert Holds(h, txs, pcs, j, Key(h, txs[j], 0)) && Holds(h, txs, pcs, j, Key(h, txs[j], 1));
  }

  /** Two transactions that both hold their locks have different runs and different tasks. */
  lemma OpenTransactionsAreApart(h: Hash, txs: seq<Transaction>, events: seq<Event>, i: nat, j: nat)
    requires Happens(h, txs, Start(txs), events) && forall e | e in events :: e.i < |txs|
    requires i < |txs| && j < |txs| && i != j
    requires Final(Start(txs), events)[i] == 2 && Final(Start(txs), events)[j] == 2
    ensures txs[i].run != txs[j].run && txs[i].task != txs[j].task
  {
    LocksExclude(h, txs, Start(txs), events);
    HoldersAreApart(h, txs, Final(Start(txs), events), i, j);
  }

  // ---- deadlock ---------------------------------------------------------------------------

  function NextIn(m: nat, n: nat): nat {
    if m + 1 < n then m + 1 else 0
  }

  predicate Distinct(c: seq<nat>, n: nat) {
    && (forall m | 0 <= m < |c| :: c[m] < n)
    && (forall a, b | 0 <= a < b < |c| :: c[a] != c[b])
  }

  /** A circle of transactions, each waiting for the next. */
  ghost predicate Deadlock(h: Hash, txs: seq<Transaction>, pcs: Progress, c: seq<nat>)
    requires InRange(txs, pcs)
  {
    && |c| >= 2 && Distinct(c, |txs|)
    && forall m | 0 <= m < |c| :: WaitsFor(h, txs, pcs, c[m], c[NextIn(m, |c|)])
  }

  /** The collision that a deadlock needs: each task's key is the key of the next transaction's run. */
  ghost predicate CrossCollision(h: Hash, txs: seq<Transaction>, c: seq<nat>) {
    && |c| >= 2 && Distinct(c, |txs|)
    && (forall a, b | 0 <= a < b < |c| :: h(RunName(txs[c[a]].run)) != h(RunName(txs[c[b]].run)))
    && (forall m | 0 <= m < |c| :: h(TaskName(txs[c[m]].task)) == h(RunName(txs[c[NextIn(m, |c|)]].run)))
  }

  lemma Predecessor(m: nat, n: nat) returns (p: nat)
    requires m < n
    ensures p < n && NextIn(p, n) == m
  {
    p := if m == 0 then n - 1 else m - 1;
  }

  /** Everyone in the circle holds its run's lock and waits for its task's. */
  lemma CircleShape(h: Hash, txs: seq<Transaction>, pcs: Progress, c: seq<nat>, m: nat)
    requires InRange(txs, pcs) && Deadlock(h, txs, pcs, c) && m < |c|
    ensures pcs[c[m]] == 1
  {
    var p := Predecessor(m, |c|);
    assert WaitsFor(h, txs, pcs, c[p], c[NextIn(p, |c|)]);
    assert WaitsFor(h, txs, pcs, c[m], c[NextIn(m, |c|)]);
  }

  lemma DeadlockNeedsCrossCollision(h: Hash, txs: seq<Transaction>, pcs: Progress, c: seq<nat>)
    requires InRange(txs, pcs) && Exclusive(h, txs, pcs) && Deadlock(h, txs, pcs, c)
    ensures CrossCollision(h, txs, c)
  {
    forall m | 0 <= m < |c|
      ensures h(TaskName(txs[c[m]].task)) == h(RunName(txs[c[NextIn(m, |c|)]].run))
    {
      CircleShape(h, txs, pcs, c, m);
      CircleShape(h, txs, pcs, c, NextIn(m, |c|));
      RunsBeforeTasks(txs[c[m]]);
      RunsBeforeTasks(txs[c[NextIn(m, |c|)]]);
      assert WaitsFor(h, txs, pcs, c[m], c[NextIn(m, |c|)]);
    }
    forall a, b | 0 <= a < b < |c|
      ensures h(RunName(txs[c[a]].run)) != h(RunName(txs[c[b]].run))
    {
      CircleShape(h, txs, pcs, c, a);
      CircleShape(h, txs, pcs, c, b);
      RunsBeforeTasks(txs[c[a]]);
      RunsBeforeTasks(txs[c[b]]);
      assert Holds(h, txs, pcs, c[a], Key(h, txs[c[a]], 0)) && Holds(h, txs, pcs, c[b], Key(h, txs[c[b]], 0));
    }
  }

  /** The first `k` of the circle have taken their run's lock, nobody else anything. */
  ghost predicate RunsTaken(txs: seq<Transaction>, pcs: Progress, c: seq<nat>, k: nat)
    requires |pcs| == |txs| && k <= |c| && Distinct(c, |txs|)
  {
    && (forall m | 0 <= m < k :: pcs[c[m]] == 1)
    && (forall i | 0 <= i < |pcs| :: pcs[i] <= 1 && (pcs[i] == 1 ==> exists m | 0 <= m < k :: c[m] == i))
  }

  lemma {:induction false} TakeRuns(h: Hash, txs: seq<Transaction>, pcs: Progress, c: seq<nat>, k: nat) returns (events: seq<Event>)
    requires CrossCollision(h, txs, c) && k <= |c| && InRange(txs, pcs) && RunsTaken(txs, pcs, c, k)
    ensures Happens(h, txs, pcs, events) && forall e | e in events :: e.i < |pcs|
    ensures RunsTaken(txs, Final(pcs, events), c, |c|)
    decreases |c| - k
  {
    if k == |c| {
      events := [];
    } else {
      var e := Acquire(c[k]);
      RunsBeforeTasks(txs[c[k]]);
      assert pcs[c[k]] == 0;
      forall j | 0 <= j < |txs|
        ensures !WaitsFor(h, txs, pcs, c[k], j)
      {
        if pcs[j] == 1 {
          var m :| 0 <= m < k && c[m] == j;
          RunsBeforeTasks(txs[j]);
        }
      }
      var pcs' := After(pcs, e);
      forall i | 0 <= i < |pcs'|
        ensures pcs'[i] <= 1 && (pcs'[i] == 1 ==> exists m | 0 <= m < k + 1 :: c[m] == i)
      {
        if i == c[k] {
          assert c[k] == i;
        } else if pcs'[i] == 1 {
          var m :| 0 <= m < k && c[m] == i;
        }
      }
      var rest := TakeRuns(h, txs, pcs', c, k + 1);
      events := [e] + rest;
      assert events[1..] == rest;
    }
  }

  /** With such a collision the transactions of the circle can deadlock from the start. */
  lemma CrossCollisionDeadlocks(h: Hash, txs: seq<Transaction>, c: seq<nat>) returns (events: seq<Event>)
    requires CrossCollision(h, txs, c)
    ensures Happens(h, txs, Start(txs), events) && forall e | e in events :: e.i < |txs|
    ensures InRange(txs, Final(Start(txs), events)) && Deadlock(h, txs, Final(Start(txs), events), c)
  {
    events := TakeRuns(h, txs, Start(txs), c, 0);
    AllRunsTakenDeadlocks(h, txs, Final(Start(txs), events), c);
  }

  lemma AllRunsTakenDeadlocks(h: Hash, txs: seq<Transaction>, pcs: Progress, c: seq<nat>)
    requires CrossCollision(h, txs, c) && |pcs| == |txs| && RunsTaken(txs, pcs, c, |c|)
    ensures InRange(txs, pcs) && Deadlock(h, txs, pcs, c)
  {
    forall m | 0 <= m < |c|
      ensures WaitsFor(h, txs, pcs, c[m], c[NextIn(m, |c|)])
    {
      var n := NextIn(m, |c|);
      RunsBeforeTasks(txs[c[m]]);
      RunsBeforeTasks(txs[c[n]]);
      assert c[m] != c[n] by {
        if m < n { assert c[m] != c[n]; } else { assert c[n] != c[m]; }
      }
    }
  }

  /** These transactions can come to a deadlock of this circle. */
  ghost predicate CanDeadlock(h: Hash, txs: seq<Transaction>, c: seq<nat>) {
    exists events: seq<Event> {:trigger Happens(h, txs, Start(txs), events)} ::
      Happens(h, txs, Start(txs), events) && (forall e | e in events :: e.i < |txs|)
      && InRange(txs, Final(Start(txs), events)) && Deadlock(h, txs, Final(Start(txs), events), c)
  }

  /** Exactly when: for any number of transactions and a circle of any length. */
  lemma DeadlockIffCrossCollision(h: Hash, txs: seq<Transaction>, c: seq<nat>)
    ensures CanDeadlock(h, txs, c) <==> CrossCollision(h, txs, c)
  {
    if CanDeadlock(h, txs, c) {
      var events: seq<Event> :| Happens(h, txs, Start(txs), events) && (forall e | e in events :: e.i < |txs|)
                    && InRange(txs, Final(Start(txs), events)) && Deadlock(h, txs, Final(Start(txs), events), c);
      LocksExclude(h, txs, Start(txs), events);
      DeadlockNeedsCrossCollision(h, txs, Final(Start(txs), events), c);
    }
    if CrossCollision(h, txs, c) {
      var events := CrossCollisionDeadlocks(h, txs, c);
      assert Happens(h, txs, Start(txs), events);
    }
  }

  // ---- progress ---------------------------------------------------------------------------

  /** No task's key is a run's key; distinct names with distinct hashes give this. */
  ghost predicate RunsAndTasksApart(h: Hash, txs: seq<Transaction>) {
    forall i, j | 0 <= i < |txs| && 0 <= j < |txs| :: h(RunName(txs[i].run)) != h(TaskName(txs[j].task))
  }

  lemma InjectiveHashSeparates(h: Hash, txs: seq<Transaction>)
    requires forall a, b | h(a) == h(b) :: a == b
    ensures RunsAndTasksApart(h, txs)
  {
    forall i, j | 0 <= i < |txs| && 0 <= j < |txs|
      ensures h(RunName(txs[i].run)) != h(TaskName(txs[j].task))
    {
      assert RunName(txs[i].run)[0] != TaskName(txs[j].task)[0];
    }
  }

  lemma NeverDeadlocks(h: Hash, txs: seq<Transaction>, c: seq<nat>)
    requires RunsAndTasksApart(h, txs)
    ensures !CanDeadlock(h, txs, c)
  {
    DeadlockIffCrossCollision(h, txs, c);
    if |c| >= 2 && Distinct(c, |txs|) {
      assert h(TaskName(txs[c[0]].task)) != h(RunName(txs[c[NextIn(0, |c|)]].run));
    }
  }

  /** While a transaction is open and none is ready to commit, one of them can take its next lock. */
  lemma SomeoneCanLock(h: Hash, txs: seq<Transaction>, pcs: Progress, open: nat) returns (i: nat)
    requires InRange(txs, pcs) && Exclusive(h, txs, pcs) && RunsAndTasksApart(h, txs)
    requires open < |txs| && pcs[open] < 2 && forall j | 0 <= j < |txs| :: pcs[j] != 2
    ensures Enabled(h, txs, pcs, Acquire(i))
  {
    if exists k :: 0 <= k < |txs| && pcs[k] == 1 {
      i :| 0 <= i < |txs| && pcs[i] == 1;
    } else {
      i := open;
    }
    RunsBeforeTasks(txs[i]);
    forall j | 0 <= j < |txs|
      ensures !WaitsFor(h, txs, pcs, i, j)
    {
      RunsBeforeTasks(txs[j]);
    }
  }
}
