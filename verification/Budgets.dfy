/**
 Budget reservations: versioned snapshots, one event per version.  Going over a limit is
 committed first and reported as an error afterwards, so an operation that raises may still
 have changed the store.
 */
module Budgets {
  import opened Outcomes

  type Time = int
  type ReservationId = nat

  /** Input tokens, output tokens, cost in micro-dollars, duration in milliseconds. */
  datatype Usage = Usage(input: int, output: int, cost: int, duration: int) {
    function Plus(u: Usage): Usage {
      Usage(input + u.input, output + u.output, cost + u.cost, duration + u.duration)
    }

    predicate Within(limit: Usage) {
      input <= limit.input && output <= limit.output && cost <= limit.cost && duration <= limit.duration
    }
  }

  const NOTHING := Usage(0, 0, 0, 0)

  datatype Terms = Terms(
    budget: string, task: string, run: string, maximum: Usage, maximumAttempts: nat, maximumRepairs: nat)

  predicate ValidTerms(t: Terms) {
    && NOTHING.Within(t.maximum) && 0 < t.maximum.duration
    && t.maximumRepairs < t.maximumAttempts <= 100
  }

  type Budget = t: Terms | ValidTerms(t) witness Terms("b", "t", "r", Usage(0, 0, 0, 1), 1, 0)

  datatype Status = Active | Exhausted | Released

  datatype Snapshot = Snapshot(
    id: ReservationId, terms: Budget, version: nat, status: Status, spent: Usage,
    attempts: nat, repairs: nat, reservedAt: Time, updatedAt: Time)

  datatype Kind =
    | Reserved | AttemptStarted | RepairStarted | AttemptDenied | UsageCharged | LimitExceeded | Closed

  datatype Event = Event(kind: Kind, snapshot: Snapshot)

  datatype Store = Store(rows: map<ReservationId, Snapshot>, events: seq<Event>)

  datatype Error = AlreadyReserved | Missing | Undecodable | Stale | NotActive | NegativeDelta

  datatype Denial = AttemptsSpent | RepairCannotBeFirst | RepairsSpent

  datatype Limit = InputTokens | OutputTokens | Cost | Duration

  /** Granted and the two refusals are committed; a failure leaves the store alone. */
  datatype Outcome =
    | Granted(snapshot: Snapshot)
    | Denied(snapshot: Snapshot, why: Denial)
    | Exceeded(snapshot: Snapshot, limits: seq<Limit>)
    | Failed(error: Error)

  predicate Decodable(p: Snapshot) {
    1 <= p.version && NOTHING.Within(p.spent) && p.reservedAt <= p.updatedAt && p.repairs <= p.attempts
  }

  // ---- the operations, as functions of the stored state -----------------------------------

  function Put(s: Store, kind: Kind, p: Snapshot): Store {
    Store(s.rows[p.id := p], s.events + [Event(kind, p)])
  }

  predicate Taken(rows: map<ReservationId, Snapshot>, b: Budget) {
    exists id | id in rows :: rows[id].terms.budget == b.budget || rows[id].terms.run == b.run
  }

  function ReserveIn(s: Store, id: ReservationId, b: Budget, now: Time): (Store, Outcome) {
    if id in s.rows || Taken(s.rows, b) then (s, Failed(AlreadyReserved))
    else
      var p := Snapshot(id, b, 1, Active, NOTHING, 0, 0, now, now);
      (Put(s, Reserved, p), Granted(p))
  }

  function LoadActive(s: Store, id: ReservationId, expected: nat): Result<Snapshot, Error> {
    if id !in s.rows then Err(Missing)
    else if !Decodable(s.rows[id]) then Err(Undecodable)
    else if s.rows[id].version != expected then Err(Stale)
    else if s.rows[id].status != Active then Err(NotActive)
    else Ok(s.rows[id])
  }

  function DenialFor(p: Snapshot, repair: bool): Option<Denial> {
    if p.attempts + 1 > p.terms.maximumAttempts then Some(AttemptsSpent)
    else if repair && p.attempts == 0 then Some(RepairCannotBeFirst)
    else if p.repairs + (if repair then 1 else 0) > p.terms.maximumRepairs then Some(RepairsSpent)
    else None
  }

  function AuthorizeIn(s: Store, id: ReservationId, expected: nat, repair: bool, now: Time): (Store, Outcome) {
    match LoadActive(s, id, expected)
    case Err(e) => (s, Failed(e))
    case Ok(p) =>
      var denial := DenialFor(p, repair);
      var p' := p.(version := p.version + 1, status := if denial.Some? then Exhausted else Active,
                   attempts := p.attempts + 1, repairs := p.repairs + (if repair then 1 else 0), updatedAt := now);
      if denial.Some? then (Put(s, AttemptDenied, p'), Denied(p', denial.value))
      else (Put(s, if repair then RepairStarted else AttemptStarted, p'), Granted(p'))
  }

  function Over(spent: Usage, maximum: Usage): seq<Limit> {
    (if spent.input > maximum.input then [InputTokens] else [])
    + (if spent.output > maximum.output then [OutputTokens] else [])
    + (if spent.cost > maximum.cost then [Cost] else [])
    + (if spent.duration > maximum.duration then [Duration] else [])
  }

  function ChargeIn(s: Store, id: ReservationId, expected: nat, delta: Usage, now: Time): (Store, Outcome) {
    if !NOTHING.Within(delta) then (s, Failed(NegativeDelta))
    else match LoadActive(s, id, expected)
      case Err(e) => (s, Failed(e))
      case Ok(p) =>
        var total := p.spent.Plus(delta);
        var over := Over(total, p.terms.maximum);
        var p' := p.(version := p.version + 1, status := if over != [] then Exhausted else Active,
                     spent := total, updatedAt := now);
        if over != [] then (Put(s, LimitExceeded, p'), Exceeded(p', over))
        else (Put(s, UsageCharged, p'), Granted(p'))
  }

  function ReleaseIn(s: Store, id: ReservationId, expected: nat, now: Time): (Store, Outcome) {
    match LoadActive(s, id, expected)
    case Err(e) => (s, Failed(e))
    case Ok(p) =>
      var p' := p.(version := p.version + 1, status := Released, updatedAt := now);
      (Put(s, Closed, p'), Granted(p'))
  }

  // ---- clients ----------------------------------------------------------------------------

  datatype Op =
    | OpReserve(id: ReservationId, terms: Budget, now: Time)
    | OpAuthorize(id: ReservationId, expected: nat, repair: bool, now: Time)
    | OpCharge(id: ReservationId, expected: nat, delta: Usage, now: Time)
    | OpRelease(id: ReservationId, expected: nat, now: Time)

  function Apply(s: Store, op: Op): (Store, Outcome) {
    match op
    case OpReserve(id, b, now) => ReserveIn(s, id, b, now)
    case OpAuthorize(id, expected, repair, now) => AuthorizeIn(s, id, expected, repair, now)
    case OpCharge(id, expected, delta, now) => ChargeIn(s, id, expected, delta, now)
    case OpRelease(id, expected, now) => ReleaseIn(s, id, expected, now)
  }

  function Run(s: Store, ops: seq<Op>): Store
    decreases |ops|
  {
    if ops == [] then s else Run(Apply(s, ops[0]).0, ops[1..])
  }

  const EMPTY := Store(map[], [])

  // ---- the invariant ----------------------------------------------------------------------

  function HistoryOf(events: seq<Event>, id: ReservationId): (h: seq<Event>)
    ensures h != [] ==> exists e :: e in events && e.snapshot.id == id
  {
    if events == [] then []
    else
      var h := HistoryOf(events[..|events| - 1], id);
      if events[|events| - 1].snapshot.id == id then h + [events[|events| - 1]] else h
  }

  ghost predicate WithinBudget(p: Snapshot) {
    && p.spent.Within(p.terms.maximum)
    && p.attempts <= p.terms.maximumAttempts && p.repairs <= p.terms.maximumRepairs
    && (p.repairs == 0 || p.repairs < p.attempts)
  }

  ghost predicate SameReservation(a: Snapshot, b: Snapshot) {
    a.id == b.id && a.terms == b.terms && a.reservedAt == b.reservedAt && b.version == a.version + 1
  }

  /** The only ways one event of a reservation may follow another: nothing follows a closed one. */
  ghost predicate Follows(a: Snapshot, e: Event) {
    var b := e.snapshot;
    && a.status == Active && Decodable(a) && SameReservation(a, b)
    && (b.status != Exhausted ==> WithinBudget(b))
    && match e.kind
       case Reserved => false
       case AttemptStarted => b.status == Active && b.spent == a.spent && b.attempts == a.attempts + 1 && b.repairs == a.repairs
       case RepairStarted => b.status == Active && b.spent == a.spent && b.attempts == a.attempts + 1 && b.repairs == a.repairs + 1
       case AttemptDenied => b.status == Exhausted && b.spent == a.spent && b.attempts == a.attempts + 1
                             && a.repairs <= b.repairs <= a.repairs + 1 && !WithinBudget(b)
       case UsageCharged => b.status == Active && a.spent.Within(b.spent) && b.attempts == a.attempts && b.repairs == a.repairs
       case LimitExceeded => b.status == Exhausted && a.spent.Within(b.spent) && b.attempts == a.attempts && b.repairs == a.repairs
                             && !b.spent.Within(b.terms.maximum)
       case Closed => b.status == Released && b.spent == a.spent && b.attempts == a.attempts && b.repairs == a.repairs
  }

  ghost predicate Begins(e: Event) {
    var p := e.snapshot;
    && e.kind == Reserved && p.status == Active && p.version == 1
    && p.spent == NOTHING && p.attempts == p.repairs == 0
  }

  ghost predicate Recorded(h: seq<Event>, row: Snapshot) {
    && |h| == row.version && 1 <= |h|
    && Begins(h[0])
    && h[|h| - 1].snapshot == row
    && (forall i | 0 <= i < |h| :: h[i].snapshot.version == i + 1)
    && (forall i | 1 <= i < |h| :: Follows(h[i - 1].snapshot, h[i]))
  }

  ghost predicate RecordedAt(s: Store, id: ReservationId)
    requires id in s.rows
  {
    Recorded(HistoryOf(s.events, id), s.rows[id])
  }

  ghost predicate SoundRow(p: Snapshot) {
    && NOTHING.Within(p.spent) && p.repairs <= p.attempts
    && (p.status != Exhausted ==> WithinBudget(p))
  }

  ghost predicate Keyed(rows: map<ReservationId, Snapshot>) {
    forall id | id in rows :: rows[id].id == id
  }

  ghost predicate OnePerRunAndBudget(rows: map<ReservationId, Snapshot>) {
    forall a, b | a in rows && b in rows && a != b ::
      rows[a].terms.run != rows[b].terms.run && rows[a].terms.budget != rows[b].terms.budget
  }

  ghost predicate AllRecorded(s: Store) {
    && (forall e | e in s.events :: e.snapshot.id in s.rows)
    && (forall id {:trigger RecordedAt(s, id)} | id in s.rows :: RecordedAt(s, id))
  }

  ghost predicate AllSound(rows: map<ReservationId, Snapshot>) {
    forall id | id in rows :: SoundRow(rows[id])
  }

  ghost predicate Inv(s: Store) {
    Keyed(s.rows) && AllSound(s.rows) && OnePerRunAndBudget(s.rows) && AllRecorded(s)
  }

  lemma HistoryGrows(events: seq<Event>, e: Event, id: ReservationId)
    ensures HistoryOf(events + [e], id) ==
            if e.snapshot.id == id then HistoryOf(events, id) + [e] else HistoryOf(events, id)
  {
    assert (events + [e])[..|events|] == events;
  }

  lemma RecordedGrows(h: seq<Event>, row: Snapshot, e: Event)
    requires Recorded(h, row) && Follows(row, e)
    ensures Recorded(h + [e], e.snapshot)
  {
  }

  lemma ReserveRecords(s: Store, p: Snapshot)
    requires AllRecorded(s) && p.id !in s.rows && Begins(Event(Reserved, p))
    ensures AllRecorded(Put(s, Reserved, p))
  {
    var e, s' := Event(Reserved, p), Put(s, Reserved, p);
    forall id | id in s'.rows
      ensures RecordedAt(s', id)
    {
      HistoryGrows(s.events, e, id);
      if id != p.id {
        assert RecordedAt(s, id);
      } else {
        NoHistory(s, id);
      }
      hide HistoryOf, Follows;
    }
  }

  lemma NoHistory(s: Store, id: ReservationId)
    requires AllRecorded(s) && id !in s.rows
    ensures HistoryOf(s.events, id) == []
  {
  }

  lemma PutRecords(s: Store, kind: Kind, p: Snapshot)
    requires AllRecorded(s) && p.id in s.rows && Follows(s.rows[p.id], Event(kind, p))
    ensures AllRecorded(Put(s, kind, p))
  {
    var e, s' := Event(kind, p), Put(s, kind, p);
    forall id | id in s'.rows
      ensures RecordedAt(s', id)
    {
      HistoryGrows(s.events, e, id);
      assert RecordedAt(s, id);
      if id == p.id {
        RecordedGrows(HistoryOf(s.events, id), s.rows[id], e);
      }
    }
  }

  lemma PutKeeps(s: Store, kind: Kind, p: Snapshot)
    requires Inv(s) && p.id in s.rows && Follows(s.rows[p.id], Event(kind, p)) && SoundRow(p)
    ensures Inv(Put(s, kind, p))
  {
    PutRecords(s, kind, p);
  }

  lemma OverMeansNotWithin(spent: Usage, maximum: Usage)
    ensures Over(spent, maximum) == [] <==> spent.Within(maximum)
    ensures InputTokens in Over(spent, maximum) <==> spent.input > maximum.input
    ensures OutputTokens in Over(spent, maximum) <==> spent.output > maximum.output
    ensures Cost in Over(spent, maximum) <==> spent.cost > maximum.cost
    ensures Duration in Over(spent, maximum) <==> spent.duration > maximum.duration
  {
  }

  lemma AuthorizeKeeps(s: Store, id: ReservationId, expected: nat, repair: bool, now: Time)
    requires Inv(s)
    ensures Inv(AuthorizeIn(s, id, expected, repair, now).0)
  {
    var (s', o) := AuthorizeIn(s, id, expected, repair, now);
    if !o.Failed? {
      PutKeeps(s, if o.Denied? then AttemptDenied else if repair then RepairStarted else AttemptStarted, o.snapshot);
    }
  }

  lemma ChargeKeeps(s: Store, id: ReservationId, expected: nat, delta: Usage, now: Time)
    requires Inv(s)
    ensures Inv(ChargeIn(s, id, expected, delta, now).0)
  {
    var (s', o) := ChargeIn(s, id, expected, delta, now);
    if !o.Failed? {
      OverMeansNotWithin(o.snapshot.spent, o.snapshot.terms.maximum);
      PutKeeps(s, if o.Exceeded? then LimitExceeded else UsageCharged, o.snapshot);
    }
  }

  lemma ReleaseKeeps(s: Store, id: ReservationId, expected: nat, now: Time)
    requires Inv(s)
    ensures Inv(ReleaseIn(s, id, expected, now).0)
  {
    var (s', o) := ReleaseIn(s, id, expected, now);
    if !o.Failed? {
      PutKeeps(s, Closed, o.snapshot);
    }
  }

  lemma ReserveKeeps(s: Store, id: ReservationId, b: Budget, now: Time)
    requires Inv(s)
    ensures Inv(ReserveIn(s, id, b, now).0)
  {
    var (s', o) := ReserveIn(s, id, b, now);
    if !o.Failed? {
      ReserveRecords(s, o.snapshot);
    }
  }

  lemma ApplyKeeps(s: Store, op: Op)
    requires Inv(s)
    ensures Inv(Apply(s, op).0)
  {
    match op
    case OpReserve(id, b, now) => ReserveKeeps(s, id, b, now);
    case OpAuthorize(id, expected, repair, now) => AuthorizeKeeps(s, id, expected, repair, now);
    case OpCharge(id, expected, delta, now) => ChargeKeeps(s, id, expected, delta, now);
    case OpRelease(id, expected, now) => ReleaseKeeps(s, id, expected, now);
  }

  lemma ChargedRowIsSound(s: Store, id: ReservationId, expected: nat, delta: Usage, now: Time)
    requires Keyed(s.rows) && AllSound(s.rows) && !ChargeIn(s, id, expected, delta, now).1.Failed?
    ensures SoundRow(ChargeIn(s, id, expected, delta, now).1.snapshot)
  {
    var o := ChargeIn(s, id, expected, delta, now).1;
    OverMeansNotWithin(o.snapshot.spent, o.snapshot.terms.maximum);
  }

  lemma CommittedRowIsSound(s: Store, op: Op)
    requires Keyed(s.rows) && AllSound(s.rows) && !Apply(s, op).1.Failed?
    ensures SoundRow(Apply(s, op).1.snapshot)
  {
    if op.OpCharge? {
      ChargedRowIsSound(s, op.id, op.expected, op.delta, op.now);
    }
  }

  lemma OnlyTheCommittedRowChanges(s: Store, op: Op)
    requires Keyed(s.rows)
    ensures var (s', o) := Apply(s, op);
            if o.Failed? then s' == s else o.snapshot.id == op.id && s'.rows == s.rows[op.id := o.snapshot]
  {
  }

  /** Row by row: what any operation leaves true of every snapshot. */
  lemma RowsStaySound(s: Store, op: Op)
    requires Keyed(s.rows) && AllSound(s.rows)
    ensures Keyed(Apply(s, op).0.rows) && AllSound(Apply(s, op).0.rows)
  {
    OnlyTheCommittedRowChanges(s, op);
    if !Apply(s, op).1.Failed? {
      CommittedRowIsSound(s, op);
    }
  }

  lemma EventsOnlyGrow(s: Store, op: Op)
    ensures s.events <= Apply(s, op).0.events
  {
  }

  /**
   Over every interleaving of clients: every snapshot is its last event, versions 1..n, active and
   released snapshots are within every limit, and nothing follows an exhausted or released one.
   */
  lemma {:induction false} EveryRunKeepsTheInvariant(s: Store, ops: seq<Op>)
    requires Inv(s)
    ensures Inv(Run(s, ops)) && s.events <= Run(s, ops).events
    decreases |ops|
  {
    if ops != [] {
      ApplyKeeps(s, ops[0]);
      EventsOnlyGrow(s, ops[0]);
      EveryRunKeepsTheInvariant(Apply(s, ops[0]).0, ops[1..]);
    }
  }

  lemma EveryHistoryIsSound(ops: seq<Op>)
    ensures Inv(Run(EMPTY, ops))
    ensures forall id, i | id in Run(EMPTY, ops).rows && 0 <= i < |HistoryOf(Run(EMPTY, ops).events, id)| - 1 ::
              var p := HistoryOf(Run(EMPTY, ops).events, id)[i].snapshot;
              p.status == Active && WithinBudget(p)
  {
    EveryRunKeepsTheInvariant(EMPTY, ops);
    var s := Run(EMPTY, ops);
    forall id, i | id in s.rows && 0 <= i < |HistoryOf(s.events, id)| - 1
      ensures var p := HistoryOf(s.events, id)[i].snapshot; p.status == Active && WithinBudget(p)
    {
      var h := HistoryOf(s.events, id);
      assert RecordedAt(s, id) && Follows(h[(i + 1) - 1].snapshot, h[i + 1]);
      assert i == 0 || Follows(h[i - 1].snapshot, h[i]);
    }
  }

  // ---- conservation -----------------------------------------------------------------------

  /** What the clients were told: usage accepted, attempts and repairs counted, for one reservation. */
  datatype Account = Account(usage: Usage, attempts: nat, repairs: nat)

  function Entry(op: Op, o: Outcome, id: ReservationId): Account {
    if o.Failed? || op.id != id then Account(NOTHING, 0, 0)
    else match op
      case OpCharge(_, _, delta, _) => Account(delta, 0, 0)
      case OpAuthorize(_, _, repair, _) => Account(NOTHING, 1, if repair then 1 else 0)
      case _ => Account(NOTHING, 0, 0)
  }

  function Told(s: Store, ops: seq<Op>, id: ReservationId): Account
    decreases |ops|
  {
    if ops == [] then Account(NOTHING, 0, 0)
    else
      var (s', o) := Apply(s, ops[0]);
      var first, rest := Entry(ops[0], o, id), Told(s', ops[1..], id);
      Account(first.usage.Plus(rest.usage), first.attempts + rest.attempts, first.repairs + rest.repairs)
  }

  ghost predicate Moved(p: Snapshot, a: Account, q: Snapshot) {
    && q.spent == p.spent.Plus(a.usage) && q.attempts == p.attempts + a.attempts
    && q.repairs == p.repairs + a.repairs && q.terms == p.terms
  }

  lemma ChargeIsTheDifference(s: Store, op: Op, id: ReservationId)
    requires Keyed(s.rows) && id in s.rows && op.OpCharge?
    ensures var (s', o) := Apply(s, op);
            Keyed(s'.rows) && id in s'.rows && Moved(s.rows[id], Entry(op, o, id), s'.rows[id])
  {
    hide Decodable, Over, HistoryOf;
  }

  lemma EntryIsTheDifference(s: Store, op: Op, id: ReservationId)
    requires Keyed(s.rows) && id in s.rows
    ensures var (s', o) := Apply(s, op);
            Keyed(s'.rows) && id in s'.rows && Moved(s.rows[id], Entry(op, o, id), s'.rows[id])
  {
    hide Decodable, DenialFor, ChargeIn, HistoryOf;
    if op.OpCharge? {
      ChargeIsTheDifference(s, op, id);
    }
  }

  /** Conservation: a snapshot's totals are the sum of the operations that were accepted, refused ones included. */
  lemma {:induction false} TotalsAreTheAcceptedOperations(s: Store, ops: seq<Op>, id: ReservationId)
    requires Keyed(s.rows) && id in s.rows
    ensures id in Run(s, ops).rows && Moved(s.rows[id], Told(s, ops, id), Run(s, ops).rows[id])
    decreases |ops|
  {
    if ops != [] {
      EntryIsTheDifference(s, ops[0], id);
      TotalsAreTheAcceptedOperations(Apply(s, ops[0]).0, ops[1..], id);
    }
  }

  /** No limit is passed by more than the one charge that was refused for it. */
  lemma OvershootIsOneCharge(s: Store, id: ReservationId, expected: nat, delta: Usage, now: Time)
    requires Inv(s)
    ensures var (s', o) := ChargeIn(s, id, expected, delta, now);
            o.Exceeded? ==>
              && o.limits != [] && o.snapshot.spent.Within(o.snapshot.terms.maximum.Plus(delta))
              && s'.rows[id].status == Exhausted && !s'.rows[id].spent.Within(s'.rows[id].terms.maximum)
  {
    var (s', o) := ChargeIn(s, id, expected, delta, now);
    if o.Exceeded? {
      OverMeansNotWithin(o.snapshot.spent, o.snapshot.terms.maximum);
    }
  }

  /** A charge is granted exactly when it is made against the active snapshot read and stays within every limit. */
  lemma ChargeGrantedIff(s: Store, id: ReservationId, expected: nat, delta: Usage, now: Time)
    requires Inv(s)
    ensures ChargeIn(s, id, expected, delta, now).1.Granted? <==>
            && NOTHING.Within(delta)
            && id in s.rows && Decodable(s.rows[id]) && s.rows[id].version == expected && s.rows[id].status == Active
            && s.rows[id].spent.Plus(delta).Within(s.rows[id].terms.maximum)
  {
    if id in s.rows {
      OverMeansNotWithin(s.rows[id].spent.Plus(delta), s.rows[id].terms.maximum);
    }
  }

  /** Repairs are authorised exactly after a first attempt, within both limits. */
  lemma RepairGrantedIff(s: Store, id: ReservationId, expected: nat, now: Time)
    requires Inv(s) && LoadActive(s, id, expected).Ok?
    ensures AuthorizeIn(s, id, expected, true, now).1.Granted? <==>
            && 1 <= s.rows[id].attempts < s.rows[id].terms.maximumAttempts
            && s.rows[id].repairs < s.rows[id].terms.maximumRepairs
  {
  }

  /** A committed snapshot loads again exactly when the clock has not fallen behind its reservation. */
  lemma LoadableIffClockNotBehind(s: Store, op: Op)
    requires Inv(s) && !Apply(s, op).1.Failed?
    ensures Decodable(Apply(s, op).1.snapshot) <==> Apply(s, op).1.snapshot.reservedAt <= op.now
  {
  }

  lemma {:induction false} UnloadableSnapshotIsStuck(s: Store, ops: seq<Op>, id: ReservationId)
    requires Keyed(s.rows) && id in s.rows && !Decodable(s.rows[id])
    ensures id in Run(s, ops).rows && Run(s, ops).rows[id] == s.rows[id]
    decreases |ops|
  {
    if ops != [] {
      OnlyTheCommittedRowChanges(s, ops[0]);
      assert Apply(s, ops[0]).0.rows[id] == s.rows[id];
      EntryIsTheDifference(s, ops[0], id);
      UnloadableSnapshotIsStuck(Apply(s, ops[0]).0, ops[1..], id);
    }
  }

  /** events(id): every snapshot is decoded, then the versions must be 1..n. */
  ghost predicate ReadsBack(h: seq<Event>) {
    forall i | 0 <= i < |h| :: Decodable(h[i].snapshot) && h[i].snapshot.version == i + 1
  }

  /** Of a reservation's events only the last can fail to decode. */
  lemma EventsReadIffRowLoads(s: Store, id: ReservationId)
    requires Inv(s)
    ensures ReadsBack(HistoryOf(s.events, id)) <==> id !in s.rows || Decodable(s.rows[id])
  {
    hide HistoryOf, WithinBudget, SoundRow;
    var h := HistoryOf(s.events, id);
    if id in s.rows {
      assert RecordedAt(s, id);
      forall i | 0 <= i < |h| - 1
        ensures Decodable(h[i].snapshot)
      {
        assert Follows(h[(i + 1) - 1].snapshot, h[i + 1]);
      }
    } else {
      NoHistory(s, id);
    }
  }

  /** Over every history: the events of a reservation can be read exactly when there are none or its row can be loaded. */
  lemma EventsReadIff(ops: seq<Op>, id: ReservationId)
    ensures var s := Run(EMPTY, ops);
            ReadsBack(HistoryOf(s.events, id)) <==> id !in s.rows || Decodable(s.rows[id])
  {
    EveryRunKeepsTheInvariant(EMPTY, ops);
    EventsReadIffRowLoads(Run(EMPTY, ops), id);
  }

  /** It happens: reserved at one clock and started at an earlier one; the reservation can never be used or released again. */
  lemma ClockThatStepsBackStrandsAReservation(id: ReservationId, terms: Budget, at: Time, back: Time, later: seq<Op>)
    requires back < at
    ensures var s := Run(EMPTY, [OpReserve(id, terms, at), OpAuthorize(id, 1, false, back)]);
            && id in s.rows && s.rows[id].status == Active
            && (forall expected :: LoadActive(Run(s, later), id, expected) == Err(Undecodable))
            && !ReadsBack(HistoryOf(Run(s, later).events, id))
  {
    var ops := [OpReserve(id, terms, at), OpAuthorize(id, 1, false, back)];
    var s1 := Apply(EMPTY, ops[0]).0;
    var s := Apply(s1, ops[1]).0;
    assert s1.rows == map[id := Snapshot(id, terms, 1, Active, NOTHING, 0, 0, at, at)];
    assert ops[1..][1..] == [] && Run(s1, ops[1..]) == Run(s, []) == s;
    UnloadableSnapshotIsStuck(s, later, id);
    EveryRunKeepsTheInvariant(EMPTY, ops);
    EveryRunKeepsTheInvariant(s, later);
    EventsReadIffRowLoads(Run(s, later), id);
  }

  // ---- what is granted, and what it leaves ------------------------------------------------

  /** A row that reads back at the version the client read, and is active. */
  predicate Chargeable(s: Store, id: ReservationId, expected: nat) {
    id in s.rows
    && var p := s.rows[id];
    && 1 <= p.version == expected && p.status == Active && p.reservedAt <= p.updatedAt && p.repairs <= p.attempts
    && 0 <= p.spent.input && 0 <= p.spent.output && 0 <= p.spent.cost && 0 <= p.spent.duration
  }

  /** Reserved exactly once per id, run and budget; nothing is spent yet. */
  lemma ReserveGrantedIff(s: Store, id: ReservationId, b: Budget, now: Time)
    ensures ReserveIn(s, id, b, now).1.Granted? <==>
            id !in s.rows && forall o | o in s.rows :: s.rows[o].terms.budget != b.budget && s.rows[o].terms.run != b.run
    ensures ReserveIn(s, id, b, now).1.Granted? ==>
              && ReserveIn(s, id, b, now).1.snapshot == Snapshot(id, b, 1, Active, Usage(0, 0, 0, 0), 0, 0, now, now)
              && ReserveIn(s, id, b, now).0.rows == s.rows[id := ReserveIn(s, id, b, now).1.snapshot]
  {
  }

  /** An attempt is granted up to the limits and counted either way; a refused one exhausts the reservation. */
  lemma AuthorizeDoes(s: Store, id: ReservationId, expected: nat, repair: bool, now: Time)
    requires Keyed(s.rows)
    ensures var (s', o) := AuthorizeIn(s, id, expected, repair, now);
            && (o.Failed? <==> !Chargeable(s, id, expected)) && (o.Failed? ==> s' == s)
            && (!o.Failed? ==>
                  var p := s.rows[id];
                  var granted := p.attempts + 1 <= p.terms.maximumAttempts
                                 && (repair ==> 1 <= p.attempts && p.repairs + 1 <= p.terms.maximumRepairs)
                                 && p.repairs <= p.terms.maximumRepairs;
                  && (o.Granted? <==> granted)
                  && o.snapshot == p.(version := expected + 1, status := if granted then Active else Exhausted, attempts := p.attempts + 1,
                                      repairs := p.repairs + (if repair then 1 else 0), updatedAt := now)
                  && s'.rows == s.rows[id := o.snapshot])
  {
  }

  /** A charge adds to every total, whether or not that is too much; too much exhausts the reservation. */
  lemma ChargeDoes(s: Store, id: ReservationId, expected: nat, delta: Usage, now: Time)
    requires Keyed(s.rows)
    ensures var (s', o) := ChargeIn(s, id, expected, delta, now);
            && (o.Failed? <==>
                  !Chargeable(s, id, expected) || delta.input < 0 || delta.output < 0 || delta.cost < 0 || delta.duration < 0)
            && (o.Failed? ==> s' == s)
            && (!o.Failed? ==>
                  var p := s.rows[id];
                  var total := Usage(p.spent.input + delta.input, p.spent.output + delta.output, p.spent.cost + delta.cost,
                                     p.spent.duration + delta.duration);
                  var over := total.input > p.terms.maximum.input || total.output > p.terms.maximum.output
                              || total.cost > p.terms.maximum.cost || total.duration > p.terms.maximum.duration;
                  && (o.Exceeded? <==> over) && !o.Denied?
                  && o.snapshot == p.(version := expected + 1, status := if over then Exhausted else Active, spent := total, updatedAt := now)
                  && s'.rows == s.rows[id := o.snapshot])
  {
    if id in s.rows {
      OverMeansNotWithin(s.rows[id].spent.Plus(delta), s.rows[id].terms.maximum);
    }
  }

  /** A release closes the reservation and keeps what was spent. */
  lemma ReleaseDoes(s: Store, id: ReservationId, expected: nat, now: Time)
    requires Keyed(s.rows)
    ensures var (s', o) := ReleaseIn(s, id, expected, now);
            if Chargeable(s, id, expected)
            then && o == Granted(s.rows[id].(version := expected + 1, status := Released, updatedAt := now))
                 && s'.rows == s.rows[id := o.snapshot]
            else o.Failed? && s' == s
  {
  }

  // ---- the store --------------------------------------------------------------------------

  class SqliteBudgetStore {
    var rows: map<ReservationId, Snapshot>
    var events: seq<Event>

    constructor ()
      ensures State() == EMPTY
    {
      rows, events := map[], [];
    }

    function State(): Store
      reads this
    {
      Store(rows, events)
    }

    method AppendEvent(kind: Kind, p: Snapshot)
      modifies this`events
      ensures events == old(events) + [Event(kind, p)]
    {
      events := events + [Event(kind, p)];
    }

    method Load(id: ReservationId, expected: nat) returns (r: Result<Snapshot, Error>)
      ensures r == LoadActive(State(), id, expected)
    {
      if id !in rows {
        return Err(Missing);
      }
      var current := rows[id];
      if !Decodable(current) {
        return Err(Undecodable);
      }
      if current.version != expected {
        return Err(Stale);
      }
      if current.status != Active {
        return Err(NotActive);
      }
      return Ok(current);
    }

    method Update(p: Snapshot, expected: nat, kind: Kind) returns (ok: bool)
      modifies this
      ensures ok <==> p.id in old(rows) && old(rows)[p.id].version == expected
      ensures State() == if ok then Put(old(State()), kind, p) else old(State())
    {
      ok := p.id in rows && rows[p.id].version == expected;
      if ok {
        rows := rows[p.id := p];
        AppendEvent(kind, p);
      }
    }

    method Reserve(id: ReservationId, b: Budget, now: Time) returns (o: Outcome)
      modifies this
      ensures (State(), o) == ReserveIn(old(State()), id, b, now)
    {
      if id in rows || Taken(rows, b) {
        return Failed(AlreadyReserved);
      }
      var snapshot := Snapshot(id, b, 1, Active, NOTHING, 0, 0, now, now);
      rows := rows[id := snapshot];
      AppendEvent(Reserved, snapshot);
      return Granted(snapshot);
    }

    method AuthorizeAttempt(id: ReservationId, expected: nat, repair: bool, now: Time) returns (o: Outcome)
      requires Keyed(rows)
      modifies this
      ensures (State(), o) == AuthorizeIn(old(State()), id, expected, repair, now)
    {
      var loaded := Load(id, expected);
      if loaded.Err? {
        return Failed(loaded.error);
      }
      var current := loaded.value;
      var attempts, repairs := current.attempts + 1, current.repairs;
      if repair {
        repairs := repairs + 1;
      }
      var denial := None;
      if attempts > current.terms.maximumAttempts {
        denial := Some(AttemptsSpent);
      } else if repair && current.attempts == 0 {
        denial := Some(RepairCannotBeFirst);
      } else if repairs > current.terms.maximumRepairs {
        denial := Some(RepairsSpent);
      }
      var updated := current.(version := current.version + 1, attempts := attempts, repairs := repairs,
                              status := if denial.Some? then Exhausted else Active, updatedAt := now);
      var ok := Update(updated, expected,
                       if denial.Some? then AttemptDenied else if repair then RepairStarted else AttemptStarted);
      if denial.Some? {
        return Denied(updated, denial.value);
      }
      return Granted(updated);
    }

    method Charge(id: ReservationId, expected: nat, delta: Usage, now: Time) returns (o: Outcome)
      requires Keyed(rows)
      modifies this
      ensures (State(), o) == ChargeIn(old(State()), id, expected, delta, now)
    {
      if delta.input < 0 || delta.output < 0 || delta.cost < 0 || delta.duration < 0 {
        return Failed(NegativeDelta);
      }
      var loaded := Load(id, expected);
      if loaded.Err? {
        return Failed(loaded.error);
      }
      var current := loaded.value;
      var total := current.spent.Plus(delta);
      var limits := [(InputTokens, total.input, current.terms.maximum.input),
                     (OutputTokens, total.output, current.terms.maximum.output),
                     (Cost, total.cost, current.terms.maximum.cost),
                     (Duration, total.duration, current.terms.maximum.duration)];
      var exceeded: seq<Limit> := [];
      var k := 0;
      while k < 4
        invariant 0 <= k <= 4
        invariant exceeded ==
                  (if k > 0 && total.input > current.terms.maximum.input then [InputTokens] else [])
                  + (if k > 1 && total.output > current.terms.maximum.output then [OutputTokens] else [])
                  + (if k > 2 && total.cost > current.terms.maximum.cost then [Cost] else [])
                  + (if k > 3 && total.duration > current.terms.maximum.duration then [Duration] else [])
      {
        if limits[k].1 > limits[k].2 {
          exceeded := exceeded + [limits[k].0];
        }
        k := k + 1;
      }
      var updated := current.(version := current.version + 1, spent := total, updatedAt := now,
                              status := if exceeded != [] then Exhausted else Active);
      var ok := Update(updated, expected, if exceeded != [] then LimitExceeded else UsageCharged);
      if exceeded != [] {
        return Exceeded(updated, exceeded);
      }
      return Granted(updated);
    }

    method Release(id: ReservationId, expected: nat, now: Time) returns (o: Outcome)
      requires Keyed(rows)
      modifies this
      ensures (State(), o) == ReleaseIn(old(State()), id, expected, now)
    {
      var loaded := Load(id, expected);
      if loaded.Err? {
        return Failed(loaded.error);
      }
      var updated := loaded.value.(version := loaded.value.version + 1, status := Released, updatedAt := now);
      var ok := Update(updated, expected, Closed);
      return Granted(updated);
    }

    /** Reads one reservation's events; refused while the row itself cannot be loaded. */
    method Events(id: ReservationId) returns (r: Option<seq<Event>>)
      ensures r == if ReadsBack(HistoryOf(events, id)) then Some(HistoryOf(events, id)) else None
      ensures Inv(State()) ==> (r.Some? <==> id !in rows || Decodable(rows[id]))
    {
      if Inv(State()) {
        EventsReadIffRowLoads(State(), id);
      }
      r := Checked(HistoryOf(events, id));
    }

    /** Decodes every record, then compares the versions with 1..n. */
    static method Checked(records: seq<Event>) returns (r: Option<seq<Event>>)
      ensures r.Some? <==> ReadsBack(records)
      ensures r.Some? ==> r.value == records
    {
      for i := 0 to |records|
        invariant forall j | 0 <= j < i :: Decodable(records[j].snapshot)
      {
        if !Decodable(records[i].snapshot) {
          return None;
        }
      }
      for i := 0 to |records|
        invariant forall j | 0 <= j < i :: records[j].snapshot.version == j + 1
      {
        if records[i].snapshot.version != i + 1 {
          return None;
        }
      }
      return Some(records);
    }
  }
}
