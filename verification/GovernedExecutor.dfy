/**
 The executor decorator that composes a worker lease, a budget reservation and a credential
 around an agent.  The agent, the clock and every other client of the lease store are the
 environment: what they do is an input or an arbitrary choice, so a contract below holds for
 every interleaving with orphan recovery.
 */
module GovernedExecutor {
  import opened Outcomes
  import L = WorkerLeases
  import B = Budgets

  // ---- usage readings ---------------------------------------------------------------------

  /** One field of a reading: left out, not an integer, or an integer. */
  datatype Field = Absent | NotAnInteger | Count(n: int)

  /** Absolute token and cost counters, as an agent event or a final result reports them. */
  datatype Reading = Reading(input: Field, output: Field, cost: Field)

  function Normal(f: Field, last: int): int {
    match f
    case Absent => last
    case NotAnInteger => 0
    case Count(n) => n
  }

  function Normalise(r: Reading, last: B.Usage): B.Usage {
    B.Usage(Normal(r.input, last.input), Normal(r.output, last.output), Normal(r.cost, last.cost), 0)
  }

  predicate Backwards(r: Reading, last: B.Usage) {
    var n := Normalise(r, last);
    n.input < last.input || n.output < last.output || n.cost < last.cost
  }

  /** Reads a log from its start; None when some reading moves backwards, which cancels the run. */
  function Absorb(last: B.Usage, log: seq<Reading>): Option<B.Usage>
    decreases |log|
  {
    if log == [] then Some(last)
    else if Backwards(log[0], last) then None
    else Absorb(Normalise(log[0], last), log[1..])
  }

  ghost predicate Leq(a: B.Usage, b: B.Usage) {
    a.input <= b.input && a.output <= b.output && a.cost <= b.cost
  }

  /** Every reading repeats the totals already accepted, in the fields it has. */
  ghost predicate Repeats(r: Reading, total: B.Usage) {
    Normalise(r, total) == total
  }

  lemma {:induction false} AbsorbedReadingsStayBelow(last: B.Usage, log: seq<Reading>)
    requires last.duration == 0 && Absorb(last, log).Some?
    ensures var total := Absorb(last, log).value;
            && Leq(last, total) && total.duration == 0
            && forall r | r in log :: Leq(Normalise(r, total), total)
    decreases |log|
  {
    if log == [] {
    } else {
      AbsorbedReadingsStayBelow(Normalise(log[0], last), log[1..]);
      var total := Absorb(last, log).value;
      assert Leq(Normalise(log[0], total), total);
    }
  }

  /**
   `collect` rereads the whole log on every poll.  Rereading never charges twice: it changes
   nothing, or it is refused.  It is refused, and the run cancelled, as soon as the log holds two
   different readings: it is accepted exactly when every reading repeats the accepted total.
   */
  lemma RereadingALog(log: seq<Reading>)
    requires Absorb(B.NOTHING, log).Some?
    ensures var total := Absorb(B.NOTHING, log).value;
            Absorb(total, log) == if forall r | r in log :: Repeats(r, total) then Some(total) else None
  {
    AbsorbedReadingsStayBelow(B.NOTHING, log);
    var total := Absorb(B.NOTHING, log).value;
    RereadingBelow(total, log);
  }

  /** It happens to any log with two different readings: accepted once, refused when it is read again. */
  lemma TwoReadingsAreRefusedTheSecondTime(first: nat, second: nat, cost: nat)
    requires first < second
    ensures var log := [Reading(Count(first), Absent, Count(cost)), Reading(Count(second), Absent, Absent)];
            && Absorb(B.NOTHING, log) == Some(B.Usage(second, 0, cost, 0))
            && Absorb(B.Usage(second, 0, cost, 0), log) == None
  {
    var log := [Reading(Count(first), Absent, Count(cost)), Reading(Count(second), Absent, Absent)];
    assert log[1..][1..] == [];
    assert Absorb(B.Usage(first, 0, cost, 0), log[1..]) == Absorb(B.Usage(second, 0, cost, 0), []);
  }

  lemma {:induction false} RereadingBelow(total: B.Usage, log: seq<Reading>)
    requires total.duration == 0 && forall r | r in log :: Leq(Normalise(r, total), total)
    ensures Absorb(total, log) == if forall r | r in log :: Repeats(r, total) then Some(total) else None
  {
    if log == [] {
    } else {
      assert log[0] in log;
      if Repeats(log[0], total) {
        RereadingBelow(total, log[1..]);
        assert forall r :: r in log <==> r == log[0] || r in log[1..];
      }
    }
  }

  /** A field that is left out keeps its total; one that is no integer counts as zero, so it goes back once anything was used. */
  lemma BackwardsIff(r: Reading, last: B.Usage)
    ensures Backwards(r, last) <==>
            || (r.input.Count? && r.input.n < last.input) || (r.input.NotAnInteger? && 0 < last.input)
            || (r.output.Count? && r.output.n < last.output) || (r.output.NotAnInteger? && 0 < last.output)
            || (r.cost.Count? && r.cost.n < last.cost) || (r.cost.NotAnInteger? && 0 < last.cost)
    ensures Normalise(Reading(Absent, Absent, Absent), last) == last.(duration := 0)
    ensures forall a, b, c :: Normalise(Reading(Count(a), Count(b), Count(c)), last) == B.Usage(a, b, c, 0)
  {
  }

  // ---- the executor -----------------------------------------------------------------------

  datatype AgentStatus = Completed | Failed | Cancelled | TimedOut

  datatype RunResult = RunResult(status: AgentStatus, usage: Reading, durationMs: nat)

  datatype CollectOutcome = Returned(result: RunResult) | StillRunning | Raised

  class Executor {
    const leases: L.SqliteWorkerLeaseStore
    const budgets: B.SqliteBudgetStore
    const worker: string
    const terms: B.Budget
    const leaseSeconds: int

    var snapshot: Option<B.Snapshot>
    var lease: Option<L.Lease>
    var lastUsage: B.Usage
    var exceeded: bool
    var revoked: bool
    var terminal: Option<RunResult>

    // What the outside saw: the stored lease status at each cancel signal, and the revocations.
    var signals: seq<Option<L.Status>>
    var revocations: nat

    /** A reading went over the budget, or backwards, in a call that did not raise. */
    ghost var stopped: bool

    constructor (leases: L.SqliteWorkerLeaseStore, budgets: B.SqliteBudgetStore, worker: string,
                 terms: B.Budget, leaseSeconds: int)
      requires L.Keyed(leases.rows) && B.Keyed(budgets.rows) && B.AllSound(budgets.rows)
      requires 2 <= leaseSeconds <= 3600
      ensures Valid() && snapshot.None? && terminal.None? && !revoked && !exceeded
      ensures this.leases == leases && this.budgets == budgets && this.terms == terms
    {
      this.leases, this.budgets, this.worker, this.terms, this.leaseSeconds := leases, budgets, worker, terms, leaseSeconds;
      snapshot, lease, lastUsage, exceeded := None, None, B.NOTHING, false;
      revoked, terminal, signals, revocations := false, None, [], 0;
      stopped := false;
    }

    /** The row of a held lease: as held, or expired under it by orphan recovery. */
    ghost predicate LeaseTracked()
      reads this, leases
    {
      && L.Keyed(leases.rows)
      && (lease.Some? ==>
            && lease.value.id in leases.rows
            && lease.value.status != L.Expired
            && (leases.rows[lease.value.id] == lease.value
                || (L.Live(lease.value.status) && leases.rows[lease.value.id] == L.ExpireLease(lease.value))))
    }

    ghost predicate BudgetTracked()
      reads this, budgets
    {
      && B.Keyed(budgets.rows) && B.AllSound(budgets.rows)
      && lastUsage.duration == 0
      && (snapshot.Some? ==>
            && snapshot.value.id in budgets.rows && budgets.rows[snapshot.value.id] == snapshot.value
            && snapshot.value.spent == lastUsage.(duration := snapshot.value.spent.duration)
            && (snapshot.value.status == B.Exhausted ==> exceeded))
      && (snapshot.None? ==> lastUsage == B.NOTHING)
    }

    ghost predicate Valid()
      reads this, leases, budgets
    {
      && 2 <= leaseSeconds <= 3600
      && LeaseTracked() && BudgetTracked()
      && (snapshot.Some? <==> lease.Some?)
      && (forall s | s in signals :: s != Some(L.Active))
      && revocations == (if revoked then 1 else 0)
      && (terminal.Some? ==> Closed())
      && (stopped ==> exceeded && snapshot.Some? && !HoldsActive())
    }

    predicate HoldsActive()
      reads this
    {
      lease.Some? && lease.value.status == L.Active
    }

    /** Everything the executor held has been given back. */
    ghost predicate Closed()
      reads this
    {
      && lease.Some? && lease.value.status == L.Released
      && snapshot.Some? && snapshot.value.status != B.Active
      && revoked
    }

    /** Orphan recovery took the lease while the executor still holds it. */
    ghost predicate LostLease()
      reads this, leases
    {
      lease.Some? && L.Live(lease.value.status)
      && lease.value.id in leases.rows && leases.rows[lease.value.id].status == L.Expired
    }

    // ---- the environment ----

    method Clock() returns (now: int)
    {
      now :| true;
    }

    /** Any number of steps by orphan recovery and by clients of other leases, at any times. */
    method Interference()
      requires LeaseTracked()
      modifies leases
      ensures LeaseTracked()
      ensures old(LostLease()) ==> LostLease()
      ensures forall id | id in old(leases.rows) :: id in leases.rows
    {
      var n: nat :| true;
      for i := 0 to n
        invariant LeaseTracked()
        invariant old(LostLease()) ==> LostLease()
        invariant forall id | id in old(leases.rows) :: id in leases.rows
      {
        var op: L.Op :| true;
        if op.OpRecover? || lease.None? || op.id != lease.value.id {
          ghost var before := leases.State();
          OtherClient(op);
          if lease.Some? {
            L.RewritesLiveLoadableRowsOnly(before, op, lease.value.id);
            L.RecoverRows(before, op.now);
          }
          forall id | id in before.rows
            ensures id in leases.rows
          {
            L.RewritesLiveLoadableRowsOnly(before, op, id);
          }
        }
      }
    }

    method OtherClient(op: L.Op)
      requires L.Keyed(leases.rows)
      modifies leases
      ensures leases.State() == L.Apply(old(leases.State()), op) && L.Keyed(leases.rows)
    {
      ghost var before := leases.State();
      match op {
        case OpAcquire(id, w, run, seconds, now) => var r := leases.Acquire(id, w, run, seconds, now);
        case OpBeat(id, expected, seconds, now) => var r := leases.Heartbeat(id, expected, seconds, now);
        case OpCancel(id, expected, now) => var r := leases.RequestCancel(id, expected, now);
        case OpRelease(id, expected, now) => var r := leases.Release(id, expected, now);
        case OpRecover(now) =>
          L.RecoverRows(before, now);
          var r := leases.RecoverOrphans(now);
      }
    }

    // ---- signalling ----

    method Signal()
      requires Valid() && (lease.Some? ==> leases.rows[lease.value.id].status != L.Active)
      modifies this`signals
      ensures Valid() && |signals| == |old(signals)| + 1 && old(signals) <= signals
    {
      signals := signals + [if lease.None? then None else Some(leases.rows[lease.value.id].status)];
    }

    /** Persists the cancellation, then signals.  `ok` is false where the source raises. */
    method RequestCancelBeforeSignal() returns (ok: bool, signalled: bool)
      requires Valid()
      modifies this`lease, this`signals, leases
      ensures Valid() && (old(LostLease()) ==> LostLease())
      ensures lease.Some? == old(lease.Some?)
      ensures signalled ==> ok && lease.Some? && lease.value.status == L.CancelRequested && |signals| == |old(signals)| + 1
      ensures !signalled ==> signals == old(signals) && lease == old(lease)
      ensures old(signals) <= signals
      ensures signalled <==> ok && old(HoldsActive())
      ensures ok ==> !HoldsActive()
      ensures old(LostLease()) && old(lease.value.status) == L.Active ==> !ok
    {
      if lease.None? || lease.value.status != L.Active {
        return true, false;
      }
      Interference();
      var now := Clock();
      var r := leases.RequestCancel(lease.value.id, lease.value.version, now);
      if r.Err? {
        return false, false;
      }
      lease := Some(r.value);
      Interference();
      Signal();
      return true, true;
    }

    /** After admission the agent is signalled only once the stored lease is not active. */
    method Cancel() returns (ok: bool)
      requires Valid()
      modifies this`lease, this`signals, leases
      ensures Valid()
      ensures ok <==> |signals| == |old(signals)| + 1
      ensures !ok ==> signals == old(signals)
    {
      var signalled: bool;
      ok, signalled := RequestCancelBeforeSignal();
      if !ok || signalled {
        return;
      }
      Interference();
      Signal();
    }

    // ---- charging ----

    /** Nothing the meter touches has been given up, and a lost lease stays lost. */
    twostate predicate Metered()
      reads this, leases, budgets
    {
      && Valid() && snapshot.Some? == old(snapshot.Some?)
      && (old(LostLease()) ==> LostLease())
      && (old(exceeded) ==> exceeded)
      && old(signals) <= signals
      && (old(stopped) ==> stopped) && (HoldsActive() ==> old(HoldsActive()) && signals == old(signals))
      && (!old(HoldsActive()) ==> lease == old(lease) && signals == old(signals))
      && (old(HoldsActive()) && !HoldsActive() ==>
            lease.Some? && lease.value.status == L.CancelRequested && |signals| > |old(signals)|)
      && (old(snapshot.Some?) && old(snapshot.value.status) != B.Active ==> snapshot == old(snapshot) && lastUsage == old(lastUsage))
    }

    /**
     Whoever goes over the budget is stopped: if a call that did not raise found the budget exceeded,
     the cancellation of an active lease was persisted and the agent signalled.
     */
    twostate predicate Stops(ok: bool)
      reads this
    {
      ok && exceeded && !old(exceeded) ==>
        && stopped && !HoldsActive()
        && (old(HoldsActive()) ==> lease.Some? && lease.value.status == L.CancelRequested && |signals| > |old(signals)|)
    }

    method ChargeAbsoluteUsage(r: Reading) returns (ok: bool)
      requires Valid()
      modifies this`snapshot, this`lastUsage, this`exceeded, this`stopped, this`lease, this`signals, leases, budgets
      ensures Metered()
      ensures snapshot.Some? ==> snapshot.value.spent.duration == old(snapshot.value.spent.duration)
      ensures ok && !exceeded && old(snapshot.Some? && snapshot.value.status == B.Active) ==>
                && !Backwards(r, old(lastUsage)) && lastUsage == Normalise(r, old(lastUsage))
                && snapshot.value.status == B.Active
      ensures Backwards(r, old(lastUsage)) && snapshot.Some? ==> exceeded && lastUsage == old(lastUsage) && (ok ==> stopped)
      ensures Stops(ok) && (HoldsActive() ==> lease == old(lease))
      ensures ok && !Backwards(r, old(lastUsage)) && old(snapshot.Some? && snapshot.value.status == B.Active) ==>
                (snapshot.value.status == B.Active <==> snapshot.value.spent.Within(snapshot.value.terms.maximum))
    {
      var normalized := Normalise(r, lastUsage);
      if Backwards(r, lastUsage) {
        if snapshot.None? {
          return false;
        }
        exceeded := true;
        ok := StopForUsage();
        return;
      }
      var delta := B.Usage(normalized.input - lastUsage.input, normalized.output - lastUsage.output,
                           normalized.cost - lastUsage.cost, 0);
      if delta == B.NOTHING {
        return true;
      }
      if snapshot.None? {
        return false;
      }
      if snapshot.value.status != B.Active {
        return true;
      }
      var overLimit: bool;
      ok, overLimit := CommitCharge(delta, normalized);
      if overLimit {
        ok := StopForUsage();
      }
    }

    /** The agent went over the budget: ask it to stop. */
    method StopForUsage() returns (ok: bool)
      requires Valid() && exceeded && snapshot.Some?
      modifies this`stopped, this`lease, this`signals, leases
      ensures Metered() && (ok ==> stopped && !HoldsActive()) && (HoldsActive() ==> lease == old(lease))
    {
      var signalled: bool;
      ok, signalled := RequestCancelBeforeSignal();
      stopped := stopped || ok;
    }

    /** The store's answer to a charge against the held snapshot, which is active. */
    method ChargeHeld(delta: B.Usage) returns (o: B.Outcome)
      requires BudgetTracked() && snapshot.Some? && snapshot.value.status == B.Active
      modifies budgets
      ensures B.Keyed(budgets.rows) && B.AllSound(budgets.rows) && !o.Denied?
      ensures snapshot.value.id in budgets.rows
      ensures o.Failed? ==> budgets.rows[snapshot.value.id] == snapshot.value
      ensures !o.Failed? ==>
                && budgets.rows[snapshot.value.id] == o.snapshot && o.snapshot.id == snapshot.value.id
                && o.snapshot.terms == snapshot.value.terms && o.snapshot.spent == snapshot.value.spent.Plus(delta)
                && o.snapshot.status == (if o.Granted? then B.Active else B.Exhausted)
                && (o.Granted? <==> o.snapshot.spent.Within(o.snapshot.terms.maximum))
    {
      var now := Clock();
      B.RowsStaySound(budgets.State(), B.OpCharge(snapshot.value.id, snapshot.value.version, delta, now));
      o := budgets.Charge(snapshot.value.id, snapshot.value.version, delta, now);
      if !o.Failed? {
        B.OverMeansNotWithin(o.snapshot.spent, o.snapshot.terms.maximum);
      }
    }

    /** One charge against the held snapshot; a charge over a limit is kept as well. */
    method CommitCharge(delta: B.Usage, normalized: B.Usage) returns (ok: bool, overLimit: bool)
      requires Valid() && snapshot.Some? && snapshot.value.status == B.Active
      requires delta.duration == normalized.duration == 0 && normalized == lastUsage.Plus(delta)
      modifies this`snapshot, this`lastUsage, this`exceeded, budgets
      ensures Valid() && snapshot.Some?
      ensures snapshot.value.spent.duration == old(snapshot.value.spent.duration)
      ensures overLimit ==> ok
      ensures ok ==> lastUsage == normalized
      ensures ok && !overLimit ==> snapshot.value.status == B.Active
      ensures !ok ==> snapshot == old(snapshot) && lastUsage == old(lastUsage)
      ensures exceeded == (old(exceeded) || overLimit)
      ensures ok ==> (overLimit <==> !snapshot.value.spent.Within(snapshot.value.terms.maximum))
      ensures ok ==> (overLimit <==> snapshot.value.status != B.Active)
    {
      var o := ChargeHeld(delta);
      match o {
        case Failed(e) => return false, false;
        case Denied(p, why) => return false, false;
        case Granted(p) =>
          snapshot, lastUsage := Some(p), normalized;
          return true, false;
        case Exceeded(p, limits) =>
          snapshot, lastUsage, exceeded := Some(p), normalized, true;
          return true, true;
      }
    }

    method Observe(log: seq<Reading>) returns (ok: bool)
      requires Valid()
      modifies this`snapshot, this`lastUsage, this`exceeded, this`stopped, this`lease, this`signals, leases, budgets
      ensures Metered()
      ensures snapshot.Some? ==> snapshot.value.spent.duration == old(snapshot.value.spent.duration)
      ensures ok && !exceeded && old(snapshot.Some? && snapshot.value.status == B.Active) ==>
                snapshot.value.status == B.Active && Absorb(old(lastUsage), log) == Some(lastUsage)
      ensures Stops(ok) && (HoldsActive() ==> lease == old(lease))
    {
      var k := 0;
      while k < |log|
        invariant 0 <= k <= |log|
        invariant Metered() && Stops(true) && (HoldsActive() ==> lease == old(lease))
        invariant snapshot.Some? ==> snapshot.value.spent.duration == old(snapshot.value.spent.duration)
        invariant !exceeded && old(snapshot.Some? && snapshot.value.status == B.Active) ==>
                    snapshot.value.status == B.Active && Absorb(lastUsage, log[k..]) == Absorb(old(lastUsage), log)
      {
        assert log[k..][0] == log[k] && log[k..][1..] == log[k + 1..];
        ok := ChargeAbsoluteUsage(log[k]);
        if !ok {
          return;
        }
        k := k + 1;
      }
      return true;
    }

    method ChargeDuration(durationMs: nat) returns (ok: bool)
      requires Valid() && snapshot.Some?
      modifies this`snapshot, this`exceeded, budgets
      ensures Metered() && lastUsage == old(lastUsage) && lease == old(lease)
      ensures ok && !exceeded && old(snapshot.value.status) == B.Active ==>
                && snapshot.value.status == B.Active
                && snapshot.value.spent.duration == Max(old(snapshot.value.spent.duration), durationMs)
      ensures ok && old(snapshot.value.status) == B.Active ==>
                && snapshot.value.spent == old(snapshot.value.spent).(duration := Max(old(snapshot.value.spent.duration), durationMs))
                && (snapshot.value.spent.Within(snapshot.value.terms.maximum) <==> snapshot.value.status == B.Active)
                && exceeded == (old(exceeded) || snapshot.value.status != B.Active)
    {
      if snapshot.value.status != B.Active {
        return true;
      }
      var delta := durationMs - snapshot.value.spent.duration;
      if delta <= 0 {
        return true;
      }
      var o := ChargeHeld(B.Usage(0, 0, 0, delta));
      match o {
        case Failed(e) => return false;
        case Denied(p, why) => return false;
        case Granted(p) =>
          snapshot := Some(p);
        case Exceeded(p, limits) =>
          snapshot, exceeded := Some(p), true;
      }
      return true;
    }

    /** A third of the lease has passed since the last heartbeat, and at least a second. */
    predicate HeartbeatDue(now: L.Time)
      reads this
    {
      HoldsActive() && now - lease.value.lastHeartbeatAt >= L.Seconds(if leaseSeconds < 6 then 1 else leaseSeconds / 3)
    }

    /** A heartbeat that is due renews the lease for its full length, or the worker is stopped and the call raises. */
    method HeartbeatIfDue(now: L.Time) returns (ok: bool)
      requires Valid()
      modifies this`lease, this`signals, leases
      ensures Valid() && lease.Some? == old(lease.Some?) && old(signals) <= signals
      ensures old(LostLease()) ==> LostLease()
      ensures !old(HeartbeatDue(now)) ==> ok && lease == old(lease) && signals == old(signals)
      ensures ok && old(HeartbeatDue(now)) ==>
                && lease.value == old(lease.value).(version := old(lease.value.version) + 1, lastHeartbeatAt := now,
                                                    expiresAt := now + L.Seconds(leaseSeconds))
                && now < old(lease.value.expiresAt) && signals == old(signals)
      ensures !ok ==> if |signals| == |old(signals)| then lease == old(lease) else lease.value.status == L.CancelRequested
    {
      if lease.None? || lease.value.status != L.Active {
        return true;
      }
      var interval := L.Seconds(if leaseSeconds / 3 < 1 then 1 else leaseSeconds / 3);
      if now - lease.value.lastHeartbeatAt < interval {
        return true;
      }
      Interference();
      var r := leases.Heartbeat(lease.value.id, lease.value.version, leaseSeconds, now);
      if r.Ok? {
        lease := Some(r.value);
        return true;
      }
      var _, _ := RequestCancelBeforeSignal();
      return false;
    }

    // ---- admission and collection ----

    method ReleaseLease() returns (ok: bool)
      requires Valid() && lease.Some? && terminal.None?
      modifies this`lease, leases
      ensures Valid() && lease.Some?
      ensures ok ==> lease.value.status == L.Released
      ensures !ok ==> lease == old(lease)
      ensures old(LostLease()) ==> !ok && LostLease()
    {
      if L.Live(lease.value.status) {
        Interference();
        var now := Clock();
        var r := leases.Release(lease.value.id, lease.value.version, now);
        if r.Err? {
          return false;
        }
        lease := Some(r.value);
      }
      return lease.value.status == L.Released;
    }

    method ReleaseReservation() returns (ok: bool)
      requires Valid() && snapshot.Some? && terminal.None?
      modifies this`snapshot, budgets
      ensures Valid() && snapshot.Some? && snapshot.value.spent == old(snapshot.value.spent)
      ensures ok <==> snapshot.value.status != B.Active
      ensures !ok || old(snapshot.value.status) != B.Active ==> snapshot == old(snapshot)
    {
      if snapshot.value.status == B.Active {
        var now := Clock();
        B.RowsStaySound(budgets.State(), B.OpRelease(snapshot.value.id, snapshot.value.version, now));
        var o := budgets.Release(snapshot.value.id, snapshot.value.version, now);
        if o.Failed? {
          return false;
        }
        snapshot := Some(o.snapshot);
      }
      return true;
    }

    method ReleaseAfterTerminal() returns (ok: bool)
      requires Valid() && snapshot.Some? && terminal.None?
      modifies this`lease, this`snapshot, this`revoked, this`revocations, leases, budgets
      ensures Valid() && snapshot.Some? && snapshot.value.spent == old(snapshot.value.spent)
      ensures ok ==> Closed()
      ensures old(snapshot.value.status) != B.Active ==> snapshot == old(snapshot)
      ensures old(LostLease()) ==> !ok && LostLease() && revoked == old(revoked) && snapshot == old(snapshot)
    {
      ok := ReleaseLease();
      if !ok {
        return;
      }
      ok := ReleaseReservation();
      if !ok {
        return;
      }
      if !revoked {
        revocations := revocations + 1;
        revoked := true;
      }
    }

    method ReserveAttempt(reservation: B.ReservationId) returns (r: Option<B.Snapshot>)
      requires Valid() && snapshot.None?
      modifies budgets
      ensures Valid()
      ensures r.Some? ==> && r.value.id == reservation && r.value.status == B.Active && r.value.attempts == 1
                          && r.value.repairs == 0 && r.value.spent == B.NOTHING && r.value.terms == terms
                          && reservation in budgets.rows && budgets.rows[reservation] == r.value
      ensures reservation in budgets.rows && reservation !in old(budgets.rows) ==>
                budgets.rows[reservation].status != B.Released
    {
      var reserveTime := Clock();
      B.RowsStaySound(budgets.State(), B.OpReserve(reservation, terms, reserveTime));
      var reserved := budgets.Reserve(reservation, terms, reserveTime);
      if reserved.Failed? {
        return None;
      }
      var attemptTime := Clock();
      B.RowsStaySound(budgets.State(), B.OpAuthorize(reservation, reserved.snapshot.version, false, attemptTime));
      var authorized := budgets.AuthorizeAttempt(reservation, reserved.snapshot.version, false, attemptTime);
      return if authorized.Granted? then Some(authorized.snapshot) else None;
    }

    /** Reserve, authorise, lease: the executor holds both or neither. */
    method Admit(reservation: B.ReservationId, leaseId: L.LeaseId) returns (ok: bool)
      requires Valid() && terminal.None? && snapshot.None? && lease.None?
      modifies this`snapshot, this`lease, leases, budgets
      ensures Valid() && snapshot.Some? == ok
      ensures ok ==> && snapshot.value.id == reservation && snapshot.value.status == B.Active
                     && snapshot.value.attempts == 1 && snapshot.value.repairs == 0 && snapshot.value.spent == B.NOTHING
                     && snapshot.value.terms == terms
                     && lease.value.id == leaseId && lease.value.status == L.Active && lease.value.run == terms.run
                     && lease.value.worker == worker
                     && lease.value.expiresAt == lease.value.acquiredAt + L.Seconds(leaseSeconds)
      ensures !ok && reservation in budgets.rows && reservation !in old(budgets.rows) ==>
                budgets.rows[reservation].status != B.Released
    {
      var authorized := ReserveAttempt(reservation);
      if authorized.None? {
        return false;
      }
      Interference();
      var leaseTime := Clock();
      var acquired := leases.Acquire(leaseId, worker, terms.run, leaseSeconds, leaseTime);
      if acquired.Err? {
        return false;
      }
      snapshot, lease := authorized, Some(acquired.value);
      return true;
    }

    /**
     Admission: reserve, authorise, lease, start.  A failed admission that got as far as the
     reservation leaves it open: it is stored, and the executor does not hold it.
     */
    method Start(reservation: B.ReservationId, leaseId: L.LeaseId, admitted: bool, agentStarts: bool) returns (ok: bool)
      requires Valid() && terminal.None?
      modifies this`snapshot, this`lease, this`revoked, this`revocations, leases, budgets
      ensures Valid() && lastUsage == old(lastUsage)
      ensures old(snapshot.Some?) || !admitted ==> !ok && snapshot == old(snapshot) && lease == old(lease)
                                                   && budgets.rows == old(budgets.rows) && revoked == old(revoked)
      ensures ok ==> && snapshot.Some? && snapshot.value.id == reservation && snapshot.value.status == B.Active
                     && snapshot.value.attempts == 1 && snapshot.value.spent == B.NOTHING && snapshot.value.terms == terms
                     && lease.value.id == leaseId && lease.value.status == L.Active
                     && lease.value.run == terms.run && lease.value.worker == worker
                     && lease.value.expiresAt == lease.value.acquiredAt + L.Seconds(leaseSeconds) && revoked == old(revoked)
      ensures ok ==> agentStarts
      ensures !ok && snapshot.None? ==>
                && revoked == old(revoked)
                && (reservation in budgets.rows && reservation !in old(budgets.rows) ==>
                      budgets.rows[reservation].status != B.Released)
    {
      if snapshot.Some? || lease.Some? {
        return false;
      }
      if !admitted {
        return false;
      }
      ok := Admit(reservation, leaseId);
      if !ok {
        return;
      }
      if agentStarts {
        return true;
      }
      var _ := ReleaseAfterTerminal();
      return false;
    }

    method Events(log: seq<Reading>, now: L.Time) returns (ok: bool)
      requires Valid()
      modifies this`snapshot, this`lastUsage, this`exceeded, this`stopped, this`lease, this`signals, leases, budgets
      ensures Metered()
      ensures snapshot.Some? ==> snapshot.value.spent.duration == old(snapshot.value.spent.duration)
      ensures ok && !exceeded && old(snapshot.Some? && snapshot.value.status == B.Active) ==>
                snapshot.value.status == B.Active && Absorb(old(lastUsage), log) == Some(lastUsage)
      ensures Stops(ok)
      ensures ok && HoldsActive() ==>
                lease.value == if old(HeartbeatDue(now)) then
                                 old(lease.value).(version := old(lease.value.version) + 1, lastHeartbeatAt := now,
                                                   expiresAt := now + L.Seconds(leaseSeconds))
                               else old(lease.value)
    {
      ok := Observe(log);
      if ok {
        ok := HeartbeatIfDue(now);
      }
    }

    /** Charges the final reading and the duration of a result. */
    method ChargeResult(result: RunResult) returns (ok: bool)
      requires Valid()
      modifies this`snapshot, this`lastUsage, this`exceeded, this`stopped, this`lease, this`signals, leases, budgets
      ensures Metered() && (ok ==> snapshot.Some?)
      ensures ok && !exceeded && old(snapshot.Some? && snapshot.value.status == B.Active) ==>
                && snapshot.value.status == B.Active
                && !Backwards(result.usage, old(lastUsage)) && lastUsage == Normalise(result.usage, old(lastUsage))
                && snapshot.value.spent.duration == Max(old(snapshot.value.spent.duration), result.durationMs)
    {
      hide Backwards, Normalise, Max;
      ok := ChargeAbsoluteUsage(result.usage);
      if !ok || snapshot.None? {
        return false;
      }
      ok := ChargeDuration(result.durationMs);
    }

    method Conclude(result: RunResult)
      requires Valid() && Closed()
      modifies this`terminal
      ensures Valid() && Closed() && terminal == Some(result)
    {
      terminal := Some(result);
    }

    /** From the agent's result on: charge it, give everything back, and only then answer. */
    method Finish(outcome: RunResult) returns (r: CollectOutcome)
      requires Valid() && terminal.None?
      modifies this, leases, budgets
      ensures Valid() && (old(exceeded) ==> exceeded) && !r.StillRunning?
      ensures r.Returned? ==> Closed() && revocations == 1 && terminal == Some(r.result)
                              && r.result == if exceeded && outcome.status == Completed then outcome.(status := Failed) else outcome
      ensures r.Returned? && r.result.status == Completed ==>
                && !exceeded && snapshot.value.spent.Within(snapshot.value.terms.maximum)
                && if old(snapshot.Some? && snapshot.value.status == B.Active)
                   then && !Backwards(outcome.usage, old(lastUsage)) && lastUsage == Normalise(outcome.usage, old(lastUsage))
                        && snapshot.value.spent == lastUsage.(duration := Max(old(snapshot.value.spent.duration), outcome.durationMs))
                   else snapshot == old(snapshot)
      ensures old(LostLease()) ==> !r.Returned? && LostLease() && revoked == old(revoked)
    {
      hide Backwards, Normalise, Max;
      var result := outcome;
      var ok := ChargeResult(result);
      if !ok {
        return Raised;
      }
      if exceeded && result.status == Completed {
        result := result.(status := Failed);
      }
      ok := ReleaseAfterTerminal();
      if !ok {
        return Raised;
      }
      Conclude(result);
      return Returned(result);
    }

    /**
     One poll: `log` is all events so far, `outcome` the agent's result if it has one.  A returned
     result means lease released, reservation closed and credential revoked, once.  Completed means
     within every limit, and, unless the reservation was already closed on entry (its agent never
     started), the stored totals are the last readings and the duration of the result.
     A lease lost to orphan recovery is never got back: the call cannot return, nothing is revoked.
     */
    method Collect(log: seq<Reading>, outcome: Option<RunResult>, now: L.Time) returns (r: CollectOutcome)
      requires Valid()
      modifies this, leases, budgets
      ensures Valid()
      ensures old(terminal.Some?) ==> r == Returned(old(terminal.value)) && terminal == old(terminal)
                                      && signals == old(signals) && budgets.rows == old(budgets.rows)
      ensures r.Returned? ==> Closed() && revocations == 1 && terminal == Some(r.result)
      ensures r.Returned? && old(terminal.None?) ==>
                outcome.Some? && r.result == if exceeded && outcome.value.status == Completed then outcome.value.(status := Failed) else outcome.value
      ensures r.Returned? && old(terminal.None?) && r.result.status == Completed ==>
                && !exceeded && snapshot.value.spent.Within(snapshot.value.terms.maximum)
                && if old(snapshot.Some? && snapshot.value.status == B.Active)
                   then && Absorb(old(lastUsage), log + [r.result.usage]) == Some(lastUsage)
                        && snapshot.value.spent == lastUsage.(duration := Max(old(snapshot.value.spent.duration), r.result.durationMs))
                   else snapshot == old(snapshot)
      ensures old(LostLease()) && old(terminal.None?) ==> !r.Returned? && LostLease() && revoked == old(revoked)
      ensures r.StillRunning? ==> Stops(true)
      ensures r.StillRunning? && old(HeartbeatDue(now)) && HoldsActive() ==> lease.value.expiresAt == now + L.Seconds(leaseSeconds)
    {
      hide Absorb, Backwards, Normalise, Max;
      if terminal.Some? {
        return Returned(terminal.value);
      }
      var ok := Events(log, now);
      if !ok {
        return Raised;
      }
      if outcome.None? {
        return StillRunning;
      }
      r := Finish(outcome.value);
      if r.Returned? && !exceeded && old(snapshot.Some? && snapshot.value.status == B.Active) {
        AbsorbAppend(old(lastUsage), log, r.result.usage);
      }
    }
  }

  lemma {:induction false} AbsorbAppend(last: B.Usage, log: seq<Reading>, r: Reading)
    requires Absorb(last, log).Some?
    ensures Absorb(last, log + [r]) ==
            (var total := Absorb(last, log).value; if Backwards(r, total) then None else Some(Normalise(r, total)))
    decreases |log|
  {
    if log == [] {
      assert Absorb(Normalise(r, last), []) == Some(Normalise(r, last));
      assert log + [r] == [r] && [r][1..] == [];
    } else {
      assert (log + [r])[1..] == log[1..] + [r];
      AbsorbAppend(Normalise(log[0], last), log[1..], r);
    }
  }

  function Max(a: int, b: int): int {
    if a <= b then b else a
  }
}
