/**
 Worker leases: versioned rows, one event per version, orphan recovery by expiry time.
 Times are microseconds; `IsoTimestamps.OrphanQueryIsTimeOrder` justifies comparing them as
 numbers where the store compares UTC text.  Lease ids are numbers (a fixed-width hexadecimal
 id sorts as its number does).
 */
module WorkerLeases {
  import opened Ordering
  import opened Outcomes

  type Time = int
  type LeaseId = nat

  datatype Status = Active | CancelRequested | Released | Expired

  predicate Live(status: Status) {
    status == Active || status == CancelRequested
  }

  datatype Lease = Lease(
    id: LeaseId, worker: string, run: string, status: Status, version: nat,
    acquiredAt: Time, lastHeartbeatAt: Time, expiresAt: Time)

  datatype Kind = Acquired | Heartbeat | Cancel | Release | Expire

  datatype Event = Event(kind: Kind, lease: Lease)

  datatype Store = Store(rows: map<LeaseId, Lease>, events: seq<Event>)

  datatype Error = LiveLeaseExists | Missing | Stale | Undecodable | NotActive | NotLive | Elapsed | BadDuration

  datatype Change = Change(store: Store, lease: Lease)

  /** What loading a stored row validates; updating a copy of a row does not validate it. */
  predicate Decodable(l: Lease) {
    1 <= l.version && l.acquiredAt <= l.lastHeartbeatAt < l.expiresAt
  }

  function Seconds(n: int): Time {
    n * 1_000_000
  }

  // ---- the operations, as functions of the stored state -----------------------------------

  function Put(s: Store, kind: Kind, l: Lease): Store {
    Store(s.rows[l.id := l], s.events + [Event(kind, l)])
  }

  predicate HasLive(rows: map<LeaseId, Lease>, run: string) {
    exists id | id in rows :: rows[id].run == run && Live(rows[id].status)
  }

  function AcquireIn(s: Store, id: LeaseId, worker: string, run: string, seconds: int, now: Time): Result<Change, Error> {
    if seconds < 1 || seconds > 3600 then Err(BadDuration)
    else if id in s.rows || HasLive(s.rows, run) then Err(LiveLeaseExists)
    else
      var l := Lease(id, worker, run, Active, 1, now, now, now + Seconds(seconds));
      Ok(Change(Put(s, Acquired, l), l))
  }

  function Load(s: Store, id: LeaseId, expected: nat): Result<Lease, Error> {
    if id !in s.rows then Err(Missing)
    else if !Decodable(s.rows[id]) then Err(Undecodable)
    else if s.rows[id].version != expected then Err(Stale)
    else Ok(s.rows[id])
  }

  function HeartbeatIn(s: Store, id: LeaseId, expected: nat, seconds: int, now: Time): Result<Change, Error> {
    if seconds < 1 || seconds > 3600 then Err(BadDuration)
    else match Load(s, id, expected)
      case Err(e) => Err(e)
      case Ok(l) =>
        if l.status != Active then Err(NotActive)
        else if now >= l.expiresAt then Err(Elapsed)
        else
          var l' := l.(version := l.version + 1, lastHeartbeatAt := now, expiresAt := now + Seconds(seconds));
          Ok(Change(Put(s, Heartbeat, l'), l'))
  }

  function RequestCancelIn(s: Store, id: LeaseId, expected: nat, now: Time): Result<Change, Error> {
    match Load(s, id, expected)
    case Err(e) => Err(e)
    case Ok(l) =>
      if l.status != Active then Err(NotActive)
      else if now >= l.expiresAt then Err(Elapsed)
      else
        var l' := l.(status := CancelRequested, version := l.version + 1, lastHeartbeatAt := now);
        Ok(Change(Put(s, Cancel, l'), l'))
  }

  function Min(a: int, b: int): int {
    if a <= b then a else b
  }

  function ReleaseIn(s: Store, id: LeaseId, expected: nat, now: Time): Result<Change, Error> {
    match Load(s, id, expected)
    case Err(e) => Err(e)
    case Ok(l) =>
      if !Live(l.status) then Err(NotLive)
      else
        var l' := l.(status := Released, version := l.version + 1, lastHeartbeatAt := Min(now, l.expiresAt - 1));
        Ok(Change(Put(s, Release, l'), l'))
  }

  predicate Due(l: Lease, now: Time) {
    Live(l.status) && l.expiresAt <= now
  }

  function DueIds(s: Store, now: Time): set<LeaseId> {
    set id | id in s.rows && Due(s.rows[id], now)
  }

  function ExpireLease(l: Lease): Lease {
    l.(status := Expired, version := l.version + 1)
  }

  function ExpireEach(s: Store, ids: seq<LeaseId>): Result<Store, Error>
    requires forall id | id in ids :: id in s.rows
    decreases |ids|
  {
    if ids == [] then Ok(s)
    else if !Decodable(s.rows[ids[0]]) then Err(Undecodable)
    else ExpireEach(Put(s, Expire, ExpireLease(s.rows[ids[0]])), ids[1..])
  }

  /** One transaction: a row that cannot be loaded rolls the whole recovery back. */
  function RecoverOrphansIn(s: Store, now: Time): Result<Store, Error> {
    ExpireEach(s, InOrder(DueIds(s, now)))
  }

  // ---- clients, with any expected version and any clock -----------------------------------

  datatype Op =
    | OpAcquire(id: LeaseId, worker: string, run: string, seconds: int, now: Time)
    | OpBeat(id: LeaseId, expected: nat, seconds: int, now: Time)
    | OpCancel(id: LeaseId, expected: nat, now: Time)
    | OpRelease(id: LeaseId, expected: nat, now: Time)
    | OpRecover(now: Time)

  function Settle(s: Store, r: Result<Change, Error>): Store {
    if r.Ok? then r.value.store else s
  }

  function Apply(s: Store, op: Op): Store {
    match op
    case OpAcquire(id, worker, run, seconds, now) => Settle(s, AcquireIn(s, id, worker, run, seconds, now))
    case OpBeat(id, expected, seconds, now) => Settle(s, HeartbeatIn(s, id, expected, seconds, now))
    case OpCancel(id, expected, now) => Settle(s, RequestCancelIn(s, id, expected, now))
    case OpRelease(id, expected, now) => Settle(s, ReleaseIn(s, id, expected, now))
    case OpRecover(now) => var r := RecoverOrphansIn(s, now); if r.Ok? then r.value else s
  }

  function Run(s: Store, ops: seq<Op>): Store
    decreases |ops|
  {
    if ops == [] then s else Run(Apply(s, ops[0]), ops[1..])
  }

  const EMPTY := Store(map[], [])

  // ---- the invariant ----------------------------------------------------------------------

  function HistoryOf(events: seq<Event>, id: LeaseId): (h: seq<Event>)
    ensures forall e | e in h :: e in events && e.lease.id == id
    ensures h != [] ==> exists e :: e in events && e.lease.id == id
  {
    if events == [] then []
    else
      var h := HistoryOf(events[..|events| - 1], id);
      if events[|events| - 1].lease.id == id then h + [events[|events| - 1]] else h
  }

  /** The only ways one event of a lease may follow another: each was loaded, hence decoded, before it was replaced. */
  ghost predicate Follows(a: Lease, e: Event) {
    var b := e.lease;
    && Live(a.status) && Decodable(a)
    && b.id == a.id && b.worker == a.worker && b.run == a.run && b.acquiredAt == a.acquiredAt
    && b.version == a.version + 1
    && match e.kind
       case Acquired => false
       case Heartbeat => a.status == Active && b.status == Active
                         && b.lastHeartbeatAt < a.expiresAt
                         && b.lastHeartbeatAt < b.expiresAt <= b.lastHeartbeatAt + Seconds(3600)
       case Cancel => a.status == Active && b.status == CancelRequested
                      && b.lastHeartbeatAt < b.expiresAt == a.expiresAt
       case Release => b.status == Released && b.lastHeartbeatAt < b.expiresAt == a.expiresAt
       case Expire => b.status == Expired && b.lastHeartbeatAt == a.lastHeartbeatAt && b.expiresAt == a.expiresAt
  }

  ghost predicate Begins(e: Event) {
    && e.kind == Acquired && e.lease.status == Active && e.lease.version == 1
    && e.lease.acquiredAt == e.lease.lastHeartbeatAt < e.lease.expiresAt <= e.lease.acquiredAt + Seconds(3600)
  }

  /** Versions 1..n without a gap, each event following its predecessor, the row last. */
  ghost predicate Recorded(h: seq<Event>, row: Lease) {
    && |h| == row.version && 1 <= |h|
    && Begins(h[0])
    && h[|h| - 1].lease == row
    && VersionsFromOne(h)
    && (forall i | 1 <= i < |h| :: Follows(h[i - 1].lease, h[i]))
  }

  ghost predicate OneLivePerRun(rows: map<LeaseId, Lease>) {
    forall a, b | a in rows && b in rows && Live(rows[a].status) && Live(rows[b].status) ::
      rows[a].run == rows[b].run ==> a == b
  }

  ghost predicate Keyed(rows: map<LeaseId, Lease>) {
    forall id | id in rows :: rows[id].id == id
  }

  ghost predicate AllRecorded(s: Store) {
    && (forall e | e in s.events :: e.lease.id in s.rows)
    && (forall id {:trigger RecordedAt(s, id)} | id in s.rows :: RecordedAt(s, id))
  }

  ghost predicate RecordedAt(s: Store, id: LeaseId)
    requires id in s.rows
  {
    Recorded(HistoryOf(s.events, id), s.rows[id])
  }

  ghost predicate Inv(s: Store) {
    Keyed(s.rows) && OneLivePerRun(s.rows) && AllRecorded(s)
  }

  lemma HistoryGrows(events: seq<Event>, e: Event, id: LeaseId)
    ensures HistoryOf(events + [e], id) ==
            if e.lease.id == id then HistoryOf(events, id) + [e] else HistoryOf(events, id)
  {
    assert (events + [e])[..|events|] == events;
  }

  lemma RecordedGrows(h: seq<Event>, row: Lease, e: Event)
    requires Recorded(h, row) && Follows(row, e)
    ensures Recorded(h + [e], e.lease)
  {
  }

  lemma AcquireRecords(s: Store, l: Lease)
    requires AllRecorded(s) && l.id !in s.rows && Begins(Event(Acquired, l))
    ensures AllRecorded(Put(s, Acquired, l))
  {
    var e, s' := Event(Acquired, l), Put(s, Acquired, l);
    forall id | id in s'.rows
      ensures RecordedAt(s', id)
    {
      HistoryGrows(s.events, e, id);
      if id != l.id {
        assert RecordedAt(s, id);
      } else {
        assert HistoryOf(s.events, id) == [];
      }
    }
  }

  lemma PutRecords(s: Store, kind: Kind, l: Lease)
    requires AllRecorded(s) && l.id in s.rows && Follows(s.rows[l.id], Event(kind, l))
    ensures AllRecorded(Put(s, kind, l))
  {
    var e, s' := Event(kind, l), Put(s, kind, l);
    forall id | id in s'.rows
      ensures RecordedAt(s', id)
    {
      HistoryGrows(s.events, e, id);
      assert RecordedAt(s, id);
      if id == l.id {
        RecordedGrows(HistoryOf(s.events, id), s.rows[id], e);
      }
    }
  }

  lemma PutKeeps(s: Store, kind: Kind, l: Lease)
    requires Inv(s) && l.id in s.rows && Follows(s.rows[l.id], Event(kind, l))
    ensures Inv(Put(s, kind, l))
  {
    PutRecords(s, kind, l);
    assert OneLivePerRun(s.rows[l.id := l]);
  }

  ghost predicate Ascending(ids: seq<nat>) {
    forall i, j | 0 <= i < j < |ids| :: ids[i] < ids[j]
  }

  function AfterExpiry(s: Store, ids: seq<LeaseId>): map<LeaseId, Lease> {
    map id | id in s.rows :: if id in ids then ExpireLease(s.rows[id]) else s.rows[id]
  }

  lemma ExpireFirst(s: Store, ids: seq<LeaseId>)
    requires Keyed(s.rows) && Ascending(ids) && ids != [] && forall id | id in ids :: id in s.rows
    ensures var s' := Put(s, Expire, ExpireLease(s.rows[ids[0]]));
            && Keyed(s'.rows) && s'.rows.Keys == s.rows.Keys
            && (forall id | id in ids[1..] :: id != ids[0] && s'.rows[id] == s.rows[id])
            && AfterExpiry(s', ids[1..]) == AfterExpiry(s, ids)
  {
    var s' := Put(s, Expire, ExpireLease(s.rows[ids[0]]));
    forall id | id in ids[1..]
      ensures id != ids[0]
    {
      var k :| 1 <= k < |ids| && ids[k] == id;
      assert ids[0] < ids[k];
    }
    forall id | id in s.rows
      ensures AfterExpiry(s', ids[1..])[id] == AfterExpiry(s, ids)[id]
    {
      assert id in ids <==> id == ids[0] || id in ids[1..];
    }
  }

  /** A recovery pass succeeds exactly when every due row loads, and then expires those rows and no other. */
  lemma {:induction false} ExpireEachRows(s: Store, ids: seq<LeaseId>)
    requires Keyed(s.rows) && Ascending(ids) && forall id | id in ids :: id in s.rows
    ensures ExpireEach(s, ids).Ok? <==> forall id | id in ids :: Decodable(s.rows[id])
    ensures ExpireEach(s, ids).Ok? ==>
              ExpireEach(s, ids).value.rows == AfterExpiry(s, ids) && s.events <= ExpireEach(s, ids).value.events
    decreases |ids|
  {
    if ids == [] {
    } else {
      assert forall id | id in ids :: id == ids[0] || id in ids[1..];
      if Decodable(s.rows[ids[0]]) {
        ExpireFirst(s, ids);
        ExpireEachRows(Put(s, Expire, ExpireLease(s.rows[ids[0]])), ids[1..]);
      }
    }
  }

  lemma {:induction false} ExpireEachKeeps(s: Store, ids: seq<LeaseId>)
    requires Inv(s) && Ascending(ids)
    requires forall id | id in ids :: id in s.rows && Live(s.rows[id].status)
    requires ExpireEach(s, ids).Ok?
    ensures Inv(ExpireEach(s, ids).value)
    decreases |ids|
  {
    if ids == [] {
    } else {
      ExpireFirst(s, ids);
      PutKeeps(s, Expire, ExpireLease(s.rows[ids[0]]));
      ExpireEachKeeps(Put(s, Expire, ExpireLease(s.rows[ids[0]])), ids[1..]);
    }
  }

  lemma RecoverRows(s: Store, now: Time)
    requires Keyed(s.rows)
    ensures RecoverOrphansIn(s, now).Ok? <==> forall id | id in s.rows && Due(s.rows[id], now) :: Decodable(s.rows[id])
    ensures RecoverOrphansIn(s, now).Ok? ==>
              && s.events <= RecoverOrphansIn(s, now).value.events
              && RecoverOrphansIn(s, now).value.rows ==
                 map id | id in s.rows :: if Due(s.rows[id], now) then ExpireLease(s.rows[id]) else s.rows[id]
  {
    ExpireEachRows(s, InOrder(DueIds(s, now)));
  }

  lemma ApplyKeeps(s: Store, op: Op)
    requires Inv(s)
    ensures Inv(Apply(s, op)) && s.events <= Apply(s, op).events
  {
    match op
    case OpAcquire(id, worker, run, seconds, now) =>
      var r := AcquireIn(s, id, worker, run, seconds, now);
      if r.Ok? {
        AcquireRecords(s, r.value.lease);
      }
    case OpBeat(id, expected, seconds, now) =>
      var r := HeartbeatIn(s, id, expected, seconds, now);
      if r.Ok? {
        PutKeeps(s, Heartbeat, r.value.lease);
      }
    case OpCancel(id, expected, now) =>
      var r := RequestCancelIn(s, id, expected, now);
      if r.Ok? {
        PutKeeps(s, Cancel, r.value.lease);
      }
    case OpRelease(id, expected, now) =>
      var r := ReleaseIn(s, id, expected, now);
      if r.Ok? {
        PutKeeps(s, Release, r.value.lease);
      }
    case OpRecover(now) =>
      if RecoverOrphansIn(s, now).Ok? {
        RecoverRows(s, now);
        ExpireEachKeeps(s, InOrder(DueIds(s, now)));
      }
  }

  /**
   Over every interleaving of clients, with versions as stale and clocks as wrong as they may be:
   one live lease a run, every row its last event, versions 1..n, and only the transitions of
   `Follows`; the event log only grows.
   */
  lemma {:induction false} EveryRunKeepsTheInvariant(s: Store, ops: seq<Op>)
    requires Inv(s)
    ensures Inv(Run(s, ops)) && s.events <= Run(s, ops).events
    decreases |ops|
  {
    if ops != [] {
      ApplyKeeps(s, ops[0]);
      EveryRunKeepsTheInvariant(Apply(s, ops[0]), ops[1..]);
    }
  }

  lemma EveryHistoryIsSound(ops: seq<Op>)
    ensures Inv(Run(EMPTY, ops))
    ensures OneLivePerRun(Run(EMPTY, ops).rows)
    ensures forall id, i | id in Run(EMPTY, ops).rows && 0 <= i < |HistoryOf(Run(EMPTY, ops).events, id)| - 1 ::
              Live(HistoryOf(Run(EMPTY, ops).events, id)[i].lease.status)
  {
    EveryRunKeepsTheInvariant(EMPTY, ops);
    var s := Run(EMPTY, ops);
    forall id, i | id in s.rows && 0 <= i < |HistoryOf(s.events, id)| - 1
      ensures Live(HistoryOf(s.events, id)[i].lease.status)
    {
      assert RecordedAt(s, id) && Follows(HistoryOf(s.events, id)[(i + 1) - 1].lease, HistoryOf(s.events, id)[i + 1]);
    }
  }

  /** An operation rewrites only rows that are live and that load. */
  lemma RewritesLiveLoadableRowsOnly(s: Store, op: Op, id: LeaseId)
    requires Keyed(s.rows) && id in s.rows
    ensures Keyed(Apply(s, op).rows) && id in Apply(s, op).rows
    ensures Apply(s, op).rows[id] == s.rows[id] || (Live(s.rows[id].status) && Decodable(s.rows[id]))
  {
    if op.OpRecover? {
      RecoverRows(s, op.now);
    }
  }

  /** Released and expired are absorbing: no later operation touches the row. */
  lemma {:induction false} TerminalIsAbsorbing(s: Store, ops: seq<Op>, id: LeaseId)
    requires Keyed(s.rows) && id in s.rows && !Live(s.rows[id].status)
    ensures id in Run(s, ops).rows && Run(s, ops).rows[id] == s.rows[id]
    decreases |ops|
  {
    if ops != [] {
      RewritesLiveLoadableRowsOnly(s, ops[0], id);
      TerminalIsAbsorbing(Apply(s, ops[0]), ops[1..], id);
    }
  }

  /** One client's change against one lease, with the version it last read. */
  ghost predicate ClientChange(s: Store, id: LeaseId, expected: nat, now: Time, r: Result<Change, Error>) {
    || (exists seconds :: r == HeartbeatIn(s, id, expected, seconds, now))
    || r == RequestCancelIn(s, id, expected, now)
    || r == ReleaseIn(s, id, expected, now)
  }

  /**
   No update is lost: a client's change is accepted only against the version it read, adds one
   event on top of that version, and leaves every other lease alone.
   */
  lemma AcceptedOnlyAgainstTheVersionRead(
      s: Store, id: LeaseId, expected: nat, now: Time, r: Result<Change, Error>) returns (kind: Kind)
    requires Inv(s) && ClientChange(s, id, expected, now, r) && r.Ok?
    ensures id in s.rows && s.rows[id].version == expected
    ensures r.value.lease.version == expected + 1 && r.value.store.rows == s.rows[id := r.value.lease]
    ensures forall other :: HistoryOf(r.value.store.events, other) ==
              HistoryOf(s.events, other) + if other == id then [Event(kind, r.value.lease)] else []
  {
    kind := ChangeIsOnePut(s, id, expected, now, r);
    forall other
      ensures HistoryOf(r.value.store.events, other) ==
              HistoryOf(s.events, other) + if other == id then [Event(kind, r.value.lease)] else []
    {
      HistoryGrows(s.events, Event(kind, r.value.lease), other);
    }
  }

  lemma ChangeIsOnePut(s: Store, id: LeaseId, expected: nat, now: Time, r: Result<Change, Error>) returns (kind: Kind)
    requires Keyed(s.rows) && ClientChange(s, id, expected, now, r) && r.Ok?
    ensures id in s.rows && s.rows[id].version == expected && Follows(s.rows[id], Event(kind, r.value.lease))
    ensures r.value.store == Put(s, kind, r.value.lease)
  {
    kind := if r == RequestCancelIn(s, id, expected, now) then Cancel
    else if r == ReleaseIn(s, id, expected, now) then Release
    else Heartbeat;
  }

  /** After a recovery pass every live lease outlasts `now`, and exactly the orphaned runs can be leased again. */
  lemma RecoveryFreesOrphanedRuns(s: Store, now: Time, run: string, id: LeaseId, worker: string, seconds: int)
    requires Keyed(s.rows) && RecoverOrphansIn(s, now).Ok?
    requires id !in s.rows && 1 <= seconds <= 3600
    ensures var s' := RecoverOrphansIn(s, now).value;
            && (forall i | i in s'.rows && Live(s'.rows[i].status) :: now < s'.rows[i].expiresAt)
            && ((forall i | i in s.rows && s.rows[i].run == run && Live(s.rows[i].status) :: s.rows[i].expiresAt <= now)
                <==> AcquireIn(s', id, worker, run, seconds, now).Ok?)
  {
    RecoverRows(s, now);
    var s' := RecoverOrphansIn(s, now).value;
    forall i | i in s.rows && s.rows[i].run == run && Live(s.rows[i].status) && now < s.rows[i].expiresAt
      ensures HasLive(s'.rows, run)
    {
      assert s'.rows[i] == s.rows[i];
    }
  }

  // ---- what is granted, and for how long --------------------------------------------------

  /** A row that reads back and that a client may still change. */
  predicate Loads(s: Store, id: LeaseId, expected: nat) {
    id in s.rows
    && 1 <= s.rows[id].version == expected && s.rows[id].acquiredAt <= s.rows[id].lastHeartbeatAt < s.rows[id].expiresAt
  }

  /** Leases are granted for at most an hour, to a run none of whose leases is active or being cancelled. */
  lemma AcquireGrantedIff(s: Store, id: LeaseId, worker: string, run: string, seconds: int, now: Time)
    ensures AcquireIn(s, id, worker, run, seconds, now).Ok? <==>
            && 1 <= seconds <= 3600 && id !in s.rows
            && forall other | other in s.rows && s.rows[other].run == run :: s.rows[other].status in {Released, Expired}
  {
    forall other | other in s.rows
      ensures s.rows[other].status in {Released, Expired} <==> !Live(s.rows[other].status)
    {
    }
  }

  /** Each change of a client is granted exactly on the version it read, in time and in the right state. */
  lemma ChangesGrantedIff(s: Store, id: LeaseId, expected: nat, seconds: int, now: Time)
    ensures HeartbeatIn(s, id, expected, seconds, now).Ok? <==>
            1 <= seconds <= 3600 && Loads(s, id, expected) && s.rows[id].status == Active && now < s.rows[id].expiresAt
    ensures RequestCancelIn(s, id, expected, now).Ok? <==>
            Loads(s, id, expected) && s.rows[id].status == Active && now < s.rows[id].expiresAt
    ensures ReleaseIn(s, id, expected, now).Ok? <==> Loads(s, id, expected) && s.rows[id].status in {Active, CancelRequested}
  {
  }

  /** A recovery pass, or a client of another lease. */
  predicate Spares(op: Op, id: LeaseId) {
    op.OpRecover? || op.id != id
  }

  lemma {:induction false} HeldUntilExpiry(s: Store, id: LeaseId, ops: seq<Op>)
    requires Keyed(s.rows) && id in s.rows && Live(s.rows[id].status)
    requires forall op | op in ops :: Spares(op, id) && (op.OpRecover? ==> op.now < s.rows[id].expiresAt)
    ensures Keyed(Run(s, ops).rows) && id in Run(s, ops).rows && Run(s, ops).rows[id] == s.rows[id]
    decreases |ops|
  {
    if ops != [] {
      RewritesLiveLoadableRowsOnly(s, ops[0], id);
      SparedRow(s, ops[0], id);
      assert forall op | op in ops[1..] :: op in ops;
      HeldUntilExpiry(Apply(s, ops[0]), id, ops[1..]);
    }
  }

  lemma SparedRow(s: Store, op: Op, id: LeaseId)
    requires Keyed(s.rows) && id in s.rows && Live(s.rows[id].status)
    requires Spares(op, id) && (op.OpRecover? ==> op.now < s.rows[id].expiresAt)
    ensures id in Apply(s, op).rows && Apply(s, op).rows[id] == s.rows[id]
  {
    if op.OpRecover? {
      RecoverRows(s, op.now);
    }
  }

  /** How long `l` is held: against everyone else, until a successful pass at or after its expiry, and no longer. */
  ghost predicate LastsUntil(s: Store, l: Lease, expiry: Time) {
    forall ops: seq<Op>, t: Time |
      && (forall op | op in ops :: Spares(op, l.id) && (op.OpRecover? ==> op.now < expiry))
      && RecoverOrphansIn(Run(s, ops), t).Ok? ::
        && l.id in RecoverOrphansIn(Run(s, ops), t).value.rows
        && RecoverOrphansIn(Run(s, ops), t).value.rows[l.id]
           == if t < expiry then l else l.(status := Expired, version := l.version + 1)
  }

  lemma HeldLeaseLasts(s: Store, id: LeaseId)
    requires Keyed(s.rows) && id in s.rows && Live(s.rows[id].status)
    ensures LastsUntil(s, s.rows[id], s.rows[id].expiresAt)
  {
    var l := s.rows[id];
    forall ops: seq<Op>, t: Time |
      && (forall op | op in ops :: Spares(op, l.id) && (op.OpRecover? ==> op.now < l.expiresAt))
      && RecoverOrphansIn(Run(s, ops), t).Ok?
      ensures l.id in RecoverOrphansIn(Run(s, ops), t).value.rows
      ensures RecoverOrphansIn(Run(s, ops), t).value.rows[l.id]
              == if t < l.expiresAt then l else l.(status := Expired, version := l.version + 1)
    {
      HeldUntilExpiry(s, id, ops);
      RecoverRows(Run(s, ops), t);
    }
  }

  /** An acquired lease is held by its worker for its run, for exactly the time that was asked for. */
  lemma AcquiredLeaseLasts(s: Store, id: LeaseId, worker: string, run: string, seconds: int, now: Time)
    requires Keyed(s.rows) && AcquireIn(s, id, worker, run, seconds, now).Ok?
    ensures var c := AcquireIn(s, id, worker, run, seconds, now).value;
            && c.lease == Lease(id, worker, run, Active, 1, now, now, now + seconds * 1_000_000)
            && c.store.rows == s.rows[id := c.lease] && LastsUntil(c.store, c.lease, now + seconds * 1_000_000)
  {
    HeldLeaseLasts(AcquireIn(s, id, worker, run, seconds, now).value.store, id);
  }

  /** A heartbeat renews it for exactly the time that was asked for, from now. */
  lemma RenewedLeaseLasts(s: Store, id: LeaseId, expected: nat, seconds: int, now: Time)
    requires Keyed(s.rows) && HeartbeatIn(s, id, expected, seconds, now).Ok?
    ensures var c := HeartbeatIn(s, id, expected, seconds, now).value;
            && c.lease == s.rows[id].(version := expected + 1, lastHeartbeatAt := now, expiresAt := now + seconds * 1_000_000)
            && c.store.rows == s.rows[id := c.lease] && LastsUntil(c.store, c.lease, now + seconds * 1_000_000)
  {
    HeldLeaseLasts(HeartbeatIn(s, id, expected, seconds, now).value.store, id);
  }

  /** Asking to stop does not prolong a lease; releasing one ends it, and the heartbeat stays below the expiry. */
  lemma StoppedLeases(s: Store, id: LeaseId, expected: nat, now: Time)
    requires Keyed(s.rows)
    ensures var r := RequestCancelIn(s, id, expected, now);
            r.Ok? ==>
              && r.value.lease == s.rows[id].(status := CancelRequested, version := expected + 1, lastHeartbeatAt := now)
              && r.value.store.rows == s.rows[id := r.value.lease]
              && LastsUntil(r.value.store, r.value.lease, s.rows[id].expiresAt)
    ensures var r := ReleaseIn(s, id, expected, now);
            r.Ok? ==>
              && r.value.lease == s.rows[id].(status := Released, version := expected + 1,
                                              lastHeartbeatAt := if now < s.rows[id].expiresAt then now else s.rows[id].expiresAt - 1)
              && r.value.store.rows == s.rows[id := r.value.lease]
              && forall ops :: id in Run(r.value.store, ops).rows && Run(r.value.store, ops).rows[id] == r.value.lease
  {
    var c, r := RequestCancelIn(s, id, expected, now), ReleaseIn(s, id, expected, now);
    if c.Ok? {
      HeldLeaseLasts(c.value.store, id);
    }
    if r.Ok? {
      forall ops
        ensures id in Run(r.value.store, ops).rows && Run(r.value.store, ops).rows[id] == r.value.lease
      {
        TerminalIsAbsorbing(r.value.store, ops, id);
      }
    }
  }

  // ---- clocks that step back --------------------------------------------------------------

  ghost predicate AllDecodable(s: Store) {
    forall id | id in s.rows :: Decodable(s.rows[id])
  }

  function TimeOf(op: Op): Time {
    op.now
  }

  /** Rewriting a row leaves it loadable exactly when the clock has not fallen behind its acquisition. */
  lemma LoadableIffClockNotBehind(s: Store, id: LeaseId, expected: nat, now: Time, r: Result<Change, Error>)
    requires ClientChange(s, id, expected, now, r) && r.Ok?
    ensures Decodable(r.value.lease) <==> s.rows[id].acquiredAt <= now
  {
  }

  /** A row that no longer loads stays as it is for ever, and once due it blocks every recovery pass. */
  lemma {:induction false} UnloadableRowIsStuck(s: Store, ops: seq<Op>, id: LeaseId, now: Time)
    requires Keyed(s.rows) && id in s.rows && !Decodable(s.rows[id])
    ensures id in Run(s, ops).rows && Run(s, ops).rows[id] == s.rows[id]
    ensures Due(s.rows[id], now) ==> RecoverOrphansIn(Run(s, ops), now).Err?
    decreases |ops|
  {
    if ops == [] {
      RecoverRows(s, now);
    } else {
      RewritesLiveLoadableRowsOnly(s, ops[0], id);
      UnloadableRowIsStuck(Apply(s, ops[0]), ops[1..], id, now);
    }
  }

  /**
   It happens: a lease acquired at one clock and asked to stop at an earlier one.  Its run can never be
   leased again, and from the expiry on no recovery pass succeeds, for any lease.
   */
  lemma ClockThatStepsBackStrandsARun(id: LeaseId, worker: string, run: string, at: Time, back: Time, later: seq<Op>)
    requires back < at
    ensures var s := Run(EMPTY, [OpAcquire(id, worker, run, 3600, at), OpCancel(id, 1, back)]);
            && id in s.rows && !Decodable(s.rows[id])
            && HasLive(Run(s, later).rows, run)
            && forall now | at + Seconds(3600) <= now :: RecoverOrphansIn(Run(s, later), now).Err?
  {
    var ops := [OpAcquire(id, worker, run, 3600, at), OpCancel(id, 1, back)];
    var s1 := Apply(EMPTY, ops[0]);
    var s := Apply(s1, ops[1]);
    assert s1.rows == map[id := Lease(id, worker, run, Active, 1, at, at, at + Seconds(3600))];
    assert ops[1..][1..] == [] && Run(s1, ops[1..]) == Run(s, []) == s;
    UnloadableRowIsStuck(s, later, id, at + Seconds(3600));
    assert Run(s, later).rows[id].run == run;
    forall now | at + Seconds(3600) <= now
      ensures RecoverOrphansIn(Run(s, later), now).Err?
    {
      UnloadableRowIsStuck(s, later, id, now);
    }
  }

  ghost predicate ClockFrom(ops: seq<Op>, t: Time)
    decreases |ops|
  {
    ops != [] ==> t <= TimeOf(ops[0]) && ClockFrom(ops[1..], TimeOf(ops[0]))
  }

  lemma SteadyStep(s: Store, op: Op)
    requires Keyed(s.rows) && AllDecodable(s) && forall id | id in s.rows :: s.rows[id].acquiredAt <= TimeOf(op)
    ensures var s' := Apply(s, op);
            Keyed(s'.rows) && AllDecodable(s') && forall id | id in s'.rows :: s'.rows[id].acquiredAt <= TimeOf(op)
  {
    if op.OpRecover? {
      RecoverRows(s, op.now);
    }
  }

  /** While clocks do not step back, every row loads and every recovery pass succeeds. */
  lemma {:induction false} SteadyClockKeepsRowsLoadable(s: Store, ops: seq<Op>, t: Time, now: Time)
    requires Keyed(s.rows) && AllDecodable(s) && (forall id | id in s.rows :: s.rows[id].acquiredAt <= t)
    requires ClockFrom(ops, t)
    ensures AllDecodable(Run(s, ops)) && RecoverOrphansIn(Run(s, ops), now).Ok?
    decreases |ops|
  {
    if ops == [] {
      RecoverRows(s, now);
    } else {
      SteadyStep(s, ops[0]);
      SteadyClockKeepsRowsLoadable(Apply(s, ops[0]), ops[1..], TimeOf(ops[0]), now);
    }
  }

  ghost predicate VersionsFromOne(h: seq<Event>) {
    forall i | 0 <= i < |h| :: h[i].lease.version == i + 1
  }

  lemma VersionsHaveNoGap(s: Store, id: LeaseId)
    requires Inv(s)
    ensures VersionsFromOne(HistoryOf(s.events, id))
  {
    if id in s.rows {
      assert RecordedAt(s, id);
    } else {
      assert HistoryOf(s.events, id) == [];
    }
  }

  /** events(id): every event is decoded, then the versions must be 1..n. */
  ghost predicate ReadsBack(h: seq<Event>) {
    (forall i | 0 <= i < |h| :: Decodable(h[i].lease)) && VersionsFromOne(h)
  }

  /** Of a lease's events only the last can fail to decode. */
  lemma EventsReadIffRowLoads(s: Store, id: LeaseId)
    requires Inv(s)
    ensures ReadsBack(HistoryOf(s.events, id)) <==> id !in s.rows || Decodable(s.rows[id])
  {
    VersionsHaveNoGap(s, id);
    var h := HistoryOf(s.events, id);
    if id in s.rows {
      assert RecordedAt(s, id);
      forall i | 0 <= i < |h| - 1
        ensures Decodable(h[i].lease)
      {
        assert Follows(h[(i + 1) - 1].lease, h[i + 1]);
      }
    } else {
      assert h == [];
    }
  }

  /** Over every history: the events of a lease can be read exactly when there are none or its row can be loaded. */
  lemma EventsReadIff(ops: seq<Op>, id: LeaseId)
    ensures var s := Run(EMPTY, ops);
            ReadsBack(HistoryOf(s.events, id)) <==> id !in s.rows || Decodable(s.rows[id])
  {
    EveryRunKeepsTheInvariant(EMPTY, ops);
    EventsReadIffRowLoads(Run(EMPTY, ops), id);
  }

  /** It happens, and for ever: a cancellation dated before the acquisition hides the whole history of the lease. */
  lemma ClockThatStepsBackHidesTheEvents(id: LeaseId, worker: string, run: string, at: Time, back: Time, later: seq<Op>)
    requires back < at
    ensures var s := Run(EMPTY, [OpAcquire(id, worker, run, 3600, at), OpCancel(id, 1, back)]);
            && |HistoryOf(s.events, id)| == 2 && VersionsFromOne(HistoryOf(s.events, id))
            && !ReadsBack(HistoryOf(Run(s, later).events, id))
  {
    var ops := [OpAcquire(id, worker, run, 3600, at), OpCancel(id, 1, back)];
    ClockThatStepsBackStrandsARun(id, worker, run, at, back, later);
    EveryRunKeepsTheInvariant(EMPTY, ops);
    var s := Run(EMPTY, ops);
    SecondVersion(id, worker, run, at, back);
    VersionsHaveNoGap(s, id);
    UnloadableRowIsStuck(s, later, id, at);
    EveryRunKeepsTheInvariant(s, later);
    EventsReadIffRowLoads(Run(s, later), id);
  }

  lemma SecondVersion(id: LeaseId, worker: string, run: string, at: Time, back: Time)
    requires back < at
    ensures |HistoryOf(Run(EMPTY, [OpAcquire(id, worker, run, 3600, at), OpCancel(id, 1, back)]).events, id)| == 2
  {
    var ops := [OpAcquire(id, worker, run, 3600, at), OpCancel(id, 1, back)];
    var s1 := Apply(EMPTY, ops[0]);
    var s2 := Apply(s1, ops[1]);
    assert ops[1..][1..] == [] && Run(s1, ops[1..]) == Run(s2, []) == s2;
    HistoryGrows([], s2.events[0], id);
    HistoryGrows([s2.events[0]], s2.events[1], id);
    assert s2.events == [s2.events[0]] + [s2.events[1]] && [] + [s2.events[0]] == [s2.events[0]];
  }

  // ---- the store --------------------------------------------------------------------------

  /** Two tables and the transactions over them; a refused transaction is rolled back. */
  class SqliteWorkerLeaseStore {
    var rows: map<LeaseId, Lease>
    var events: seq<Event>

    constructor ()
      ensures State() == EMPTY
    {
      rows, events := map[], [];
    }

    function State(): Store
      reads this
    {
      Store(rows, events)
    }

    ghost predicate Committed(before: Store, change: Result<Change, Error>, r: Result<Lease, Error>)
      reads this
    {
      match change
      case Ok(c) => r == Ok(c.lease) && State() == c.store
      case Err(e) => r == Err(e) && State() == before
    }

    method AppendEvent(kind: Kind, l: Lease)
      modifies this`events
      ensures events == old(events) + [Event(kind, l)]
    {
      events := events + [Event(kind, l)];
    }

    method LoadForUpdate(id: LeaseId, expected: nat) returns (r: Result<Lease, Error>)
      ensures r == Load(State(), id, expected)
    {
      if id !in rows {
        return Err(Missing);
      }
      var current := rows[id];
      if !Decodable(current) {
        return Err(Undecodable);
      }
      if current.version != expected {
        return Err(Stale);
      }
      return Ok(current);
    }

    method Update(l: Lease, expected: nat, kind: Kind) returns (ok: bool)
      modifies this
      ensures ok <==> l.id in old(rows) && old(rows)[l.id].version == expected
      ensures State() == if ok then Put(old(State()), kind, l) else old(State())
    {
      ok := l.id in rows && rows[l.id].version == expected;
      if ok {
        rows := rows[l.id := l];
        AppendEvent(kind, l);
      }
    }

    method Acquire(id: LeaseId, worker: string, run: string, seconds: int, now: Time) returns (r: Result<Lease, Error>)
      modifies this
      ensures Committed(old(State()), AcquireIn(old(State()), id, worker, run, seconds, now), r)
    {
      if seconds < 1 || seconds > 3600 {
        return Err(BadDuration);
      }
      var lease := Lease(id, worker, run, Active, 1, now, now, now + Seconds(seconds));
      if id in rows || HasLive(rows, run) {
        return Err(LiveLeaseExists);
      }
      rows := rows[id := lease];
      AppendEvent(Acquired, lease);
      return Ok(lease);
    }

    method Heartbeat(id: LeaseId, expected: nat, seconds: int, now: Time) returns (r: Result<Lease, Error>)
      requires Keyed(rows)
      modifies this
      ensures Committed(old(State()), HeartbeatIn(old(State()), id, expected, seconds, now), r)
    {
      if seconds < 1 || seconds > 3600 {
        return Err(BadDuration);
      }
      r := LoadForUpdate(id, expected);
      if r.Err? {
        return;
      }
      var current := r.value;
      if current.status != Active {
        return Err(NotActive);
      }
      if now >= current.expiresAt {
        return Err(Elapsed);
      }
      var updated := current.(version := current.version + 1, lastHeartbeatAt := now,
                              expiresAt := now + Seconds(seconds));
      var ok := Update(updated, expected, Kind.Heartbeat);
      return Ok(updated);
    }

    method RequestCancel(id: LeaseId, expected: nat, now: Time) returns (r: Result<Lease, Error>)
      requires Keyed(rows)
      modifies this
      ensures Committed(old(State()), RequestCancelIn(old(State()), id, expected, now), r)
    {
      r := LoadForUpdate(id, expected);
      if r.Err? {
        return;
      }
      var current := r.value;
      if current.status != Active {
        return Err(NotActive);
      }
      if now >= current.expiresAt {
        return Err(Elapsed);
      }
      var updated := current.(status := CancelRequested, version := current.version + 1, lastHeartbeatAt := now);
      var ok := Update(updated, expected, Cancel);
      return Ok(updated);
    }

    method Release(id: LeaseId, expected: nat, now: Time) returns (r: Result<Lease, Error>)
      requires Keyed(rows)
      modifies this
      ensures Committed(old(State()), ReleaseIn(old(State()), id, expected, now), r)
    {
      r := LoadForUpdate(id, expected);
      if r.Err? {
        return;
      }
      var current := r.value;
      if !Live(current.status) {
        return Err(NotLive);
      }
      var updated := current.(status := Released, version := current.version + 1,
                              lastHeartbeatAt := Min(now, current.expiresAt - 1));
      var ok := Update(updated, expected, Kind.Release);
      return Ok(updated);
    }

    method RecoverOrphans(now: Time) returns (r: Result<seq<Lease>, Error>)
      requires Keyed(rows)
      modifies this
      ensures Recovered(old(State()), InOrder(DueIds(old(State()), now)), r)
    {
      r := ExpireRows(InOrder(DueIds(State(), now)));
    }

    ghost predicate Recovered(before: Store, due: seq<LeaseId>, r: Result<seq<Lease>, Error>)
      requires forall i | 0 <= i < |due| :: due[i] in before.rows
      reads this
    {
      match ExpireEach(before, due)
      case Err(e) => r == Err(e) && State() == before
      case Ok(s) => r.Ok? && State() == s && |r.value| == |due|
                    && forall i | 0 <= i < |due| :: r.value[i] == ExpireLease(before.rows[due[i]])
    }

    method ExpireRows(due: seq<LeaseId>) returns (r: Result<seq<Lease>, Error>)
      requires Keyed(rows) && Ascending(due) && forall i | 0 <= i < |due| :: due[i] in rows
      modifies this
      ensures Recovered(old(State()), due, r)
    {
      var saved := State();
      var recovered: seq<Lease> := [];
      var k := 0;
      while k < |due|
        invariant 0 <= k <= |due| && |recovered| == k
        invariant Keyed(rows) && rows.Keys == saved.rows.Keys
        invariant forall i | k <= i < |due| :: rows[due[i]] == saved.rows[due[i]]
        invariant forall i | 0 <= i < k :: recovered[i] == ExpireLease(saved.rows[due[i]])
        invariant ExpireEach(State(), due[k..]) == ExpireEach(saved, due)
      {
        var current := rows[due[k]];
        assert due[k..][0] == due[k] && due[k..][1..] == due[k + 1..];
        if !Decodable(current) {
          rows, events := saved.rows, saved.events;
          return Err(Undecodable);
        }
        var updated := ExpireLease(current);
        var ok := Update(updated, current.version, Expire);
        recovered := recovered + [updated];
        k := k + 1;
      }
      return Ok(recovered);
    }

    /** Reads one lease's events; refused while the row itself cannot be loaded. */
    method Events(id: LeaseId) returns (r: Option<seq<Event>>)
      ensures r == if ReadsBack(HistoryOf(events, id)) then Some(HistoryOf(events, id)) else None
      ensures Inv(State()) ==> (r.Some? <==> id !in rows || Decodable(rows[id]))
    {
      if Inv(State()) {
        EventsReadIffRowLoads(State(), id);
      }
      r := Checked(HistoryOf(events, id));
    }

    /** Decodes every record, then compares the versions with 1..n. */
    static method Checked(records: seq<Event>) returns (r: Option<seq<Event>>)
      ensures r.Some? <==> ReadsBack(records)
      ensures r.Some? ==> r.value == records
    {
      for i := 0 to |records|
        invariant forall j | 0 <= j < i :: Decodable(records[j].lease)
      {
        if !Decodable(records[i].lease) {
          return None;
        }
      }
      var k := 0;
      while k < |records|
        invariant 0 <= k <= |records|
        invariant forall i | 0 <= i < k :: records[i].lease.version == i + 1
      {
        if records[k].lease.version != k + 1 {
          return None;
        }
        k := k + 1;
      }
      return Some(records);
    }
  }
}
