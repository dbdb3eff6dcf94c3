/**
 The transactional store: expected-sequence transactions that stage task transitions, run
 records, artifacts and outbox events and write them all or none.  The same transaction runs on
 SQLite, where BEGIN IMMEDIATE admits one writer, and on PostgreSQL, where the advisory locks of
 `AdvisoryLocks` admit one per task and one per run; the interleavings below allow the latter.
 A digest is the thing it digests, so equal digests are equal contents.
 */
module StateTransactions {
  import opened Ordering
  import opened Outcomes
  import L = LocalRun

  // ---- rows -------------------------------------------------------------------------------

  datatype Stage = Execution | ImplementationReview | DecisionApplication | SourceIntegration | WorkspaceCleanup

  datatype Digest =
    | OfTransition(task: string, sequence: nat, from: L.TaskState, to: L.TaskState, detail: string, previous: Option<Digest>)
    | OfRecord(run: string, task: string, sequence: nat, stage: Stage, payload: string, at: int, previous: Option<Digest>)

  datatype Transition = Transition(
    task: string, sequence: nat, from: L.TaskState, to: L.TaskState, detail: string, previous: Option<Digest>, hash: Digest)

  datatype Record = Record(
    run: string, task: string, sequence: nat, stage: Stage, payload: string, at: int, previous: Option<Digest>, hash: Digest)

  datatype Artifact = Artifact(id: string, task: string, run: string, content: string)

  datatype Event = Event(id: string, topic: string, task: string, run: string, payload: string, createdAt: int, publishedAt: Option<int>)

  /** Primary key: owner and sequence. */
  type Table<T> = map<(string, nat), T>

  datatype Db = Db(transitions: Table<Transition>, records: Table<Record>, artifacts: map<string, Artifact>, outbox: seq<Event>)

  datatype Error = Conflict | BadIntegrity | NeedsEvent | BadStage

  function TransitionDigest(t: Transition): Digest {
    OfTransition(t.task, t.sequence, t.from, t.to, t.detail, t.previous)
  }

  function RecordDigest(r: Record): Digest {
    OfRecord(r.run, r.task, r.sequence, r.stage, r.payload, r.at, r.previous)
  }

  // ---- histories --------------------------------------------------------------------------

  function Sequences<T>(rows: Table<T>, owner: string): (r: set<nat>)
    ensures forall k :: k in r <==> (owner, k) in rows
  {
    set key | key in rows && key.0 == owner :: key.1
  }

  /** SELECT ... WHERE owner = ? ORDER BY sequence */
  function History<T>(rows: Table<T>, owner: string): (h: seq<T>)
  {
    var order := InOrder(Sequences(rows, owner));
    seq(|order|, i requires 0 <= i < |order| => rows[(owner, order[i])])
  }

  /** The owner's sequences are 1..n. */
  ghost predicate Full<T>(rows: Table<T>, owner: string, n: nat) {
    forall k: nat {:trigger (owner, k) in rows} :: (owner, k) in rows <==> 1 <= k <= n
  }

  lemma FullHistory<T>(rows: Table<T>, owner: string, n: nat)
    requires Full(rows, owner, n)
    ensures |History(rows, owner)| == n && forall i | 0 <= i < n :: (owner, i + 1) in rows && History(rows, owner)[i] == rows[(owner, i + 1)]
  {
    RangeInOrder(Sequences(rows, owner), 1, n + 1);
  }

  function PreviousOf(h: seq<Transition>, i: nat): Option<Digest>
    requires i <= |h|
  {
    if i == 0 then None else Some(h[i - 1].hash)
  }

  function StateAfter(h: seq<Transition>, i: nat): L.TaskState
    requires i <= |h|
  {
    if i == 0 then L.Draft else h[i - 1].to
  }

  /** verify_transition_sequence */
  predicate Verified(h: seq<Transition>) {
    forall i | 0 <= i < |h| :: h[i].sequence == i + 1 && h[i].previous == PreviousOf(h, i) && h[i].hash == TransitionDigest(h[i])
  }

  function LastHash(h: seq<Record>, i: nat): Option<Digest>
    requires i <= |h|
  {
    if i == 0 then None else Some(h[i - 1].hash)
  }

  function StageAt(k: nat): Option<Stage> {
    if k == 0 then Some(Execution) else if k == 1 then Some(ImplementationReview) else if k == 2 then Some(DecisionApplication)
    else if k == 3 then Some(SourceIntegration) else if k == 4 then Some(WorkspaceCleanup) else None
  }

  predicate VerifiedRun(h: seq<Record>) {
    forall i | 0 <= i < |h| ::
      && h[i].sequence == i + 1 && h[i].previous == LastHash(h, i) && h[i].hash == RecordDigest(h[i])
      && StageAt(i) == Some(h[i].stage)
  }

  // ---- one transaction --------------------------------------------------------------------

  datatype Tx = Tx(
    task: string, run: string, journal: seq<Transition>, initialTask: nat, records: seq<Record>, initialRun: nat,
    artifacts: seq<Artifact>, events: seq<Event>)

  function EnterIn(db: Db, task: string, run: string, expectedTask: nat, expectedRun: nat): Result<Tx, Error> {
    var th, rh := History(db.transitions, task), History(db.records, run);
    if !Verified(th) || !VerifiedRun(rh) then Err(BadIntegrity)
    else if |th| != expectedTask || |rh| != expectedRun then Err(Conflict)
    else if rh != [] && rh[0].task != task then Err(BadIntegrity)
    else Ok(Tx(task, run, th, |th|, rh, |rh|, [], []))
  }

  function BuildRecord(tx: Tx, stage: Stage, payload: string, at: int): Record {
    var n, previous := |tx.records| + 1, LastHash(tx.records, |tx.records|);
    Record(tx.run, tx.task, n, stage, payload, at, previous, OfRecord(tx.run, tx.task, n, stage, payload, at, previous))
  }

  function AppendRecordIn(tx: Tx, stage: Stage, payload: string, at: int): Result<Tx, Error> {
    if StageAt(|tx.records|) != Some(stage) then Err(BadStage)
    else Ok(tx.(records := tx.records + [BuildRecord(tx, stage, payload, at)]))
  }

  /** TransactionalAuditJournal.stage_record */
  function StageIn(tx: Tx, t: Transition): Result<Tx, Error> {
    if t.task != tx.task || t.sequence != |tx.journal| + 1 || t.from != StateAfter(tx.journal, |tx.journal|) then Err(BadIntegrity)
    else if !Verified(tx.journal + [t]) then Err(BadIntegrity)
    else Ok(tx.(journal := tx.journal + [t]))
  }

  function AddArtifactIn(tx: Tx, a: Artifact): Result<Tx, Error> {
    if a.task != tx.task || a.run != tx.run then Err(BadIntegrity) else Ok(tx.(artifacts := tx.artifacts + [a]))
  }

  function EnqueueIn(tx: Tx, e: Event): Result<Tx, Error> {
    if e.task != tx.task || e.run != tx.run || e.publishedAt.Some? then Err(BadIntegrity) else Ok(tx.(events := tx.events + [e]))
  }

  predicate ChangesTruth(tx: Tx) {
    |tx.journal| > tx.initialTask || |tx.records| > tx.initialRun || tx.artifacts != []
  }

  // ---- inserts, with the constraints of the schema ----------------------------------------

  function InsertTransitions(rows: Table<Transition>, ts: seq<Transition>): Option<Table<Transition>>
    decreases |ts|
  {
    if ts == [] then Some(rows)
    else
      var key := (ts[0].task, ts[0].sequence);
      if key in rows || (exists k | k in rows :: rows[k].hash == ts[0].hash) then None
      else InsertTransitions(rows[key := ts[0]], ts[1..])
  }

  function InsertRecords(rows: Table<Record>, rs: seq<Record>): Option<Table<Record>>
    decreases |rs|
  {
    if rs == [] then Some(rows)
    else
      var key := (rs[0].run, rs[0].sequence);
      if key in rows || (exists k | k in rows :: rows[k].hash == rs[0].hash) then None
      else InsertRecords(rows[key := rs[0]], rs[1..])
  }

  function InsertArtifacts(rows: map<string, Artifact>, xs: seq<Artifact>): Option<map<string, Artifact>>
    decreases |xs|
  {
    if xs == [] then Some(rows)
    else if xs[0].id in rows then None
    else InsertArtifacts(rows[xs[0].id := xs[0]], xs[1..])
  }

  predicate HasEvent(outbox: seq<Event>, id: string) {
    exists k | 0 <= k < |outbox| :: outbox[k].id == id
  }

  function InsertEvents(outbox: seq<Event>, es: seq<Event>): Option<seq<Event>>
    decreases |es|
  {
    if es == [] then Some(outbox)
    else if HasEvent(outbox, es[0].id) then None
    else InsertEvents(outbox + [es[0]], es[1..])
  }

  /** One database transaction: a violated constraint rolls every insert back. */
  function CommitIn(db: Db, tx: Tx): Result<Db, Error>
    requires tx.initialTask <= |tx.journal| && tx.initialRun <= |tx.records|
  {
    if ChangesTruth(tx) && tx.events == [] then Err(NeedsEvent)
    else
      var ts := InsertTransitions(db.transitions, tx.journal[tx.initialTask..]);
      var rs := InsertRecords(db.records, tx.records[tx.initialRun..]);
      var xs := InsertArtifacts(db.artifacts, tx.artifacts);
      var es := InsertEvents(db.outbox, tx.events);
      if ts.None? || rs.None? || xs.None? || es.None? then Err(Conflict)
      else Ok(Db(ts.value, rs.value, xs.value, es.value))
  }

  /** mark_outbox_published; the copied event is not validated again. */
  function PublishIn(db: Db, id: string, at: int): (Db, bool) {
    if !HasEvent(db.outbox, id) then (db, false)
    else
      var k := IndexOf(db.outbox, id);
      (if db.outbox[k].publishedAt.Some? then db
       else db.(outbox := db.outbox[k := db.outbox[k].(publishedAt := Some(at))]), true)
  }

  function IndexOf(outbox: seq<Event>, id: string): (k: nat)
    requires HasEvent(outbox, id)
    ensures k < |outbox| && outbox[k].id == id
  {
    if outbox[0].id == id then 0 else 1 + IndexOf(outbox[1..], id)
  }

  // ---- sound stores, and transactions in step with them -----------------------------------

  ghost predicate TaskSound(rows: Table<Transition>, task: string) {
    var h := History(rows, task);
    && Full(rows, task, |h|) && Verified(h)
    && forall i | 0 <= i < |h| :: h[i].task == task && h[i].from == StateAfter(h, i)
  }

  ghost predicate RunSound(rows: Table<Record>, run: string) {
    var h := History(rows, run);
    && Full(rows, run, |h|) && VerifiedRun(h)
    && forall i | 0 <= i < |h| :: h[i].run == run && h[i].task == h[0].task
  }

  ghost predicate UniqueEvents(outbox: seq<Event>) {
    forall i, j | 0 <= i < j < |outbox| :: outbox[i].id != outbox[j].id
  }

  /** Every task and every run is one gap-free chain. */
  ghost predicate Sound(db: Db) {
    && (forall task {:trigger TaskSound(db.transitions, task)} :: TaskSound(db.transitions, task))
    && (forall run {:trigger RunSound(db.records, run)} :: RunSound(db.records, run))
    && UniqueEvents(db.outbox)
  }

  ghost predicate JournalSound(task: string, h: seq<Transition>) {
    Verified(h) && forall i | 0 <= i < |h| :: h[i].task == task && h[i].from == StateAfter(h, i)
  }

  ghost predicate LedgerSound(task: string, run: string, h: seq<Record>) {
    VerifiedRun(h) && forall i | 0 <= i < |h| :: h[i].run == run && h[i].task == task
  }

  /** What the transaction read is still what the store holds for its task and run. */
  ghost predicate InStep(db: Db, tx: Tx) {
    && tx.initialTask <= |tx.journal| && tx.initialRun <= |tx.records|
    && tx.journal[..tx.initialTask] == History(db.transitions, tx.task)
    && tx.records[..tx.initialRun] == History(db.records, tx.run)
    && JournalSound(tx.task, tx.journal) && LedgerSound(tx.task, tx.run, tx.records)
    && (forall e | e in tx.events :: e.task == tx.task && e.run == tx.run && e.publishedAt.None?)
  }

  // ---- inserting what was staged ----------------------------------------------------------

  ghost predicate SameRows<T>(rows: Table<T>, rows': Table<T>, owner: string) {
    forall k: nat {:trigger (owner, k) in rows} {:trigger (owner, k) in rows'} ::
      ((owner, k) in rows <==> (owner, k) in rows') && ((owner, k) in rows ==> rows[(owner, k)] == rows'[(owner, k)])
  }

  lemma SameHistory<T>(rows: Table<T>, rows': Table<T>, owner: string)
    requires SameRows(rows, rows', owner)
    ensures History(rows, owner) == History(rows', owner)
  {
    assert Sequences(rows, owner) == Sequences(rows', owner);
    forall k | k in Sequences(rows, owner)
      ensures rows[(owner, k)] == rows'[(owner, k)]
    {
      assert (owner, k) in rows;
    }
  }

  ghost predicate Prefixed<T>(rows: Table<T>, owner: string, h: seq<T>, n: nat) {
    n <= |h| && Full(rows, owner, n) && forall k | 0 <= k < n :: (owner, k + 1) in rows && rows[(owner, k + 1)] == h[k]
  }

  lemma PrefixedIsHistory<T>(rows: Table<T>, owner: string, h: seq<T>)
    requires Prefixed(rows, owner, h, |h|)
    ensures History(rows, owner) == h && Full(rows, owner, |h|)
  {
    FullHistory(rows, owner, |h|);
  }

  ghost predicate Keyed(rows: Table<Transition>) {
    forall key | key in rows :: key == (rows[key].task, rows[key].sequence) && rows[key].hash == TransitionDigest(rows[key])
  }

  ghost predicate KeyedRuns(rows: Table<Record>) {
    forall key | key in rows :: key == (rows[key].run, rows[key].sequence) && rows[key].hash == RecordDigest(rows[key])
  }

  lemma SoundTaskIsKeyed(rows: Table<Transition>, key: (string, nat))
    requires TaskSound(rows, key.0) && key in rows
    ensures key == (rows[key].task, rows[key].sequence) && rows[key].hash == TransitionDigest(rows[key])
  {
    hide History, PreviousOf, StateAfter;
    var h := History(rows, key.0);
    FullHistory(rows, key.0, |h|);
    assert (key.0, key.1) in rows;
    assert h[key.1 - 1] == rows[key];
  }

  lemma SoundRunIsKeyed(rows: Table<Record>, key: (string, nat))
    requires RunSound(rows, key.0) && key in rows
    ensures key == (rows[key].run, rows[key].sequence) && rows[key].hash == RecordDigest(rows[key])
  {
    hide History, LastHash;
    var h := History(rows, key.0);
    FullHistory(rows, key.0, |h|);
    assert (key.0, key.1) in rows;
    assert h[key.1 - 1] == rows[key];
  }

  lemma SoundIsKeyed(db: Db)
    requires Sound(db)
    ensures Keyed(db.transitions) && KeyedRuns(db.records)
  {
    forall key | key in db.transitions
      ensures key == (db.transitions[key].task, db.transitions[key].sequence)
      ensures db.transitions[key].hash == TransitionDigest(db.transitions[key])
    {
      assert TaskSound(db.transitions, key.0);
      SoundTaskIsKeyed(db.transitions, key);
    }
    forall key | key in db.records
      ensures key == (db.records[key].run, db.records[key].sequence) && db.records[key].hash == RecordDigest(db.records[key])
    {
      assert RunSound(db.records, key.0);
      SoundRunIsKeyed(db.records, key);
    }
  }

  lemma NextTransitionFits(rows: Table<Transition>, task: string, h: seq<Transition>, n: nat)
    requires Prefixed(rows, task, h, n) && n < |h| && JournalSound(task, h)
    ensures (task, n + 1) !in rows && Prefixed(rows[(task, n + 1) := h[n]], task, h, n + 1)
    ensures h[n].task == task && h[n].sequence == n + 1 && h[n].hash == TransitionDigest(h[n])
  {
    hide PreviousOf, StateAfter;
    assert h[n].sequence == n + 1;
  }

  lemma NextRecordFits(rows: Table<Record>, task: string, run: string, h: seq<Record>, n: nat)
    requires Prefixed(rows, run, h, n) && n < |h| && KeyedRuns(rows) && LedgerSound(task, run, h)
    ensures (run, n + 1) !in rows && Prefixed(rows[(run, n + 1) := h[n]], run, h, n + 1)
    ensures h[n].run == run && h[n].sequence == n + 1 && KeyedRuns(rows[(run, n + 1) := h[n]])
    ensures !exists k | k in rows :: rows[k].hash == h[n].hash
  {
    assert h[n].sequence == n + 1 && h[n].hash == RecordDigest(h[n]);
    forall k | k in rows
      ensures rows[k].hash != h[n].hash
    {
      assert k == (rows[k].run, rows[k].sequence);
    }
  }

  lemma NextHashIsNew(rows: Table<Transition>, t: Transition)
    requires Keyed(rows) && (t.task, t.sequence) !in rows && t.hash == TransitionDigest(t)
    ensures !exists k | k in rows :: rows[k].hash == t.hash
    ensures Keyed(rows[(t.task, t.sequence) := t])
  {
    forall k | k in rows
      ensures rows[k].hash != t.hash
    {
      assert k == (rows[k].task, rows[k].sequence);
    }
  }

  /** The whole of `h` is in the tables, and no other history was touched. */
  ghost predicate Inserted<T>(rows: Table<T>, after: Option<Table<T>>, owner: string, h: seq<T>) {
    after.Some? && Prefixed(after.value, owner, h, |h|) && forall other | other != owner :: SameRows(rows, after.value, other)
  }

  lemma InsertedAfterTheFirst<T>(rows: Table<T>, first: Table<T>, after: Option<Table<T>>, owner: string, n: nat, h: seq<T>)
    requires (owner, n) in first && first == rows[(owner, n) := first[(owner, n)]] && Inserted(first, after, owner, h)
    ensures Inserted(rows, after, owner, h)
  {
    hide Prefixed;
    forall other | other != owner
      ensures SameRows(rows, after.value, other)
    {
      assert SameRows(first, after.value, other);
    }
  }

  lemma NothingIsLeft<T>(rows: Table<T>, owner: string, h: seq<T>, n: nat)
    requires Prefixed(rows, owner, h, n) && n >= |h|
    ensures h[n..] == [] && Inserted(rows, Some(rows), owner, h)
  {
    hide Full;
  }

  lemma {:induction false} TransitionsInsert(rows: Table<Transition>, task: string, h: seq<Transition>, n: nat)
    requires Prefixed(rows, task, h, n) && Keyed(rows) && JournalSound(task, h)
    ensures Inserted(rows, InsertTransitions(rows, h[n..]), task, h)
    decreases |h| - n
  {
    if n < |h| {
      var first := rows[(task, n + 1) := h[n]];
      NextTransitionFits(rows, task, h, n);
      NextHashIsNew(rows, h[n]);
      assert InsertTransitions(rows, h[n..]) == InsertTransitions(first, h[n + 1..]) by {
        assert h[n..][0] == h[n] && h[n..][1..] == h[n + 1..];
      }
      hide *;
      TransitionsInsert(first, task, h, n + 1);
      InsertedAfterTheFirst(rows, first, InsertTransitions(first, h[n + 1..]), task, n + 1, h);
    } else {
      NothingIsLeft(rows, task, h, n);
      hide *;
    }
  }

  lemma {:induction false} RecordsInsert(rows: Table<Record>, task: string, run: string, h: seq<Record>, n: nat)
    requires Prefixed(rows, run, h, n) && KeyedRuns(rows) && LedgerSound(task, run, h)
    ensures Inserted(rows, InsertRecords(rows, h[n..]), run, h)
    decreases |h| - n
  {
    if n < |h| {
      var first := rows[(run, n + 1) := h[n]];
      NextRecordFits(rows, task, run, h, n);
      assert InsertRecords(rows, h[n..]) == InsertRecords(first, h[n + 1..]) by {
        assert h[n..][0] == h[n] && h[n..][1..] == h[n + 1..];
      }
      hide *;
      RecordsInsert(first, task, run, h, n + 1);
      InsertedAfterTheFirst(rows, first, InsertRecords(first, h[n + 1..]), run, n + 1, h);
    } else {
      NothingIsLeft(rows, run, h, n);
      hide *;
    }
  }

  lemma {:induction false} EventsInsert(outbox: seq<Event>, es: seq<Event>)
    requires UniqueEvents(outbox)
    ensures InsertEvents(outbox, es).Some? <==> UniqueEvents(outbox + es)
    ensures InsertEvents(outbox, es).Some? ==> InsertEvents(outbox, es).value == outbox + es
    decreases |es|
  {
    if es == [] {
      assert outbox + es == outbox;
    } else {
      assert outbox + [es[0]] + es[1..] == outbox + es;
      if HasEvent(outbox, es[0].id) {
        var k :| 0 <= k < |outbox| && outbox[k].id == es[0].id;
        assert (outbox + es)[k].id == (outbox + es)[|outbox|].id;
      } else {
        EventsInsert(outbox + [es[0]], es[1..]);
      }
    }
  }

  /** The artifacts' ids are new and differ from each other. */
  predicate NewIds(rows: map<string, Artifact>, xs: seq<Artifact>) {
    && (forall i | 0 <= i < |xs| :: xs[i].id !in rows)
    && (forall i, j | 0 <= i < j < |xs| :: xs[i].id != xs[j].id)
  }

  lemma {:induction false} ArtifactsInsert(rows: map<string, Artifact>, xs: seq<Artifact>)
    ensures InsertArtifacts(rows, xs).Some? <==> NewIds(rows, xs)
    ensures InsertArtifacts(rows, xs).Some? ==>
              && (forall id | id in rows :: id in InsertArtifacts(rows, xs).value && InsertArtifacts(rows, xs).value[id] == rows[id])
              && (forall i | 0 <= i < |xs| :: xs[i].id in InsertArtifacts(rows, xs).value && InsertArtifacts(rows, xs).value[xs[i].id] == xs[i])
              && (forall id | id in InsertArtifacts(rows, xs).value :: id in rows || exists i | 0 <= i < |xs| :: xs[i].id == id)
    decreases |xs|
  {
    if xs != [] && xs[0].id !in rows {
      var x, rest := xs[0], xs[1..];
      ArtifactsInsert(rows[x.id := x], rest);
      assert forall i | 1 <= i < |xs| :: xs[i] == rest[i - 1];
      if NewIds(rows[x.id := x], rest) {
        forall i, j | 0 <= i < j < |xs|
          ensures xs[i].id != xs[j].id
        {
          assert xs[j] == rest[j - 1];
        }
      }
      if NewIds(rows, xs) {
        forall i | 0 <= i < |rest|
          ensures rest[i].id !in rows[x.id := x]
        {
          assert rest[i] == xs[i + 1];
        }
        forall i, j | 0 <= i < j < |rest|
          ensures rest[i].id != rest[j].id
        {
          assert rest[i] == xs[i + 1] && rest[j] == xs[j + 1];
        }
      }
    }
  }

  // ---- commit -----------------------------------------------------------------------------

  /** What a caller can check: a truth change brings an event, and the ids it chose are unused. */
  ghost predicate Committable(db: Db, tx: Tx) {
    (ChangesTruth(tx) ==> tx.events != []) && NewIds(db.artifacts, tx.artifacts) && UniqueEvents(db.outbox + tx.events)
  }

  lemma StagedInserts(db: Db, tx: Tx)
    requires Sound(db) && InStep(db, tx)
    ensures var ts := InsertTransitions(db.transitions, tx.journal[tx.initialTask..]);
            ts.Some? && Prefixed(ts.value, tx.task, tx.journal, |tx.journal|) && forall other | other != tx.task :: SameRows(db.transitions, ts.value, other)
    ensures var rs := InsertRecords(db.records, tx.records[tx.initialRun..]);
            rs.Some? && Prefixed(rs.value, tx.run, tx.records, |tx.records|) && forall other | other != tx.run :: SameRows(db.records, rs.value, other)
  {
    hide History, JournalSound, LedgerSound, Verified, VerifiedRun;
    SoundIsKeyed(db);
    assert TaskSound(db.transitions, tx.task) && RunSound(db.records, tx.run);
    FullHistory(db.transitions, tx.task, tx.initialTask);
    FullHistory(db.records, tx.run, tx.initialRun);
    assert forall k | 0 <= k < tx.initialTask :: tx.journal[k] == tx.journal[..tx.initialTask][k];
    assert forall k | 0 <= k < tx.initialRun :: tx.records[k] == tx.records[..tx.initialRun][k];
    TransitionsInsert(db.transitions, tx.task, tx.journal, tx.initialTask);
    RecordsInsert(db.records, tx.task, tx.run, tx.records, tx.initialRun);
  }

  /** The sequences never conflict: a commit is refused exactly for a missing event or a used id. */
  lemma CommitsIff(db: Db, tx: Tx)
    requires Sound(db) && InStep(db, tx)
    ensures CommitIn(db, tx).Ok? <==> Committable(db, tx)
  {
    StagedInserts(db, tx);
    ArtifactsInsert(db.artifacts, tx.artifacts);
    EventsInsert(db.outbox, tx.events);
  }

  /** All of it: the histories are those staged, every other history, artifact and event is as it was. */
  ghost predicate CommittedAs(db: Db, tx: Tx, db': Db) {
    && History(db'.transitions, tx.task) == tx.journal && History(db'.records, tx.run) == tx.records
    && (forall task | task != tx.task :: History(db'.transitions, task) == History(db.transitions, task))
    && (forall run | run != tx.run :: History(db'.records, run) == History(db.records, run))
    && (forall id | id in db.artifacts :: id in db'.artifacts && db'.artifacts[id] == db.artifacts[id])
    && (forall i | 0 <= i < |tx.artifacts| :: tx.artifacts[i].id in db'.artifacts && db'.artifacts[tx.artifacts[i].id] == tx.artifacts[i])
    && (forall id | id in db'.artifacts :: id in db.artifacts || exists i | 0 <= i < |tx.artifacts| :: tx.artifacts[i].id == id)
    && db'.outbox == db.outbox + tx.events
  }

  lemma CommitIsAtomic(db: Db, tx: Tx)
    requires Sound(db) && InStep(db, tx) && CommitIn(db, tx).Ok?
    ensures CommittedAs(db, tx, CommitIn(db, tx).value) && Sound(CommitIn(db, tx).value)
  {
    var db' := CommitIn(db, tx).value;
    StagedInserts(db, tx);
    ArtifactsInsert(db.artifacts, tx.artifacts);
    EventsInsert(db.outbox, tx.events);
    PrefixedIsHistory(db'.transitions, tx.task, tx.journal);
    PrefixedIsHistory(db'.records, tx.run, tx.records);
    forall task
      ensures TaskSound(db'.transitions, task)
      ensures task != tx.task ==> History(db'.transitions, task) == History(db.transitions, task)
    {
      if task != tx.task {
        SameHistory(db.transitions, db'.transitions, task);
        assert TaskSound(db.transitions, task);
      }
    }
    forall run
      ensures RunSound(db'.records, run)
      ensures run != tx.run ==> History(db'.records, run) == History(db.records, run)
    {
      if run != tx.run {
        SameHistory(db.records, db'.records, run);
        assert RunSound(db.records, run);
      }
    }
  }

  // ---- staging stays in step --------------------------------------------------------------

  lemma EnterIsInStep(db: Db, task: string, run: string, expectedTask: nat, expectedRun: nat)
    requires Sound(db) && EnterIn(db, task, run, expectedTask, expectedRun).Ok?
    ensures var tx := EnterIn(db, task, run, expectedTask, expectedRun).value;
            InStep(db, tx) && tx.task == task && tx.run == run && |tx.journal| == expectedTask && |tx.records| == expectedRun
  {
    assert TaskSound(db.transitions, task) && RunSound(db.records, run);
    var th, rh := History(db.transitions, task), History(db.records, run);
    assert th[..|th|] == th && rh[..|rh|] == rh;
  }

  lemma LedgerGrows(task: string, run: string, h: seq<Record>, r: Record)
    requires LedgerSound(task, run, h) && r.run == run && r.task == task && r.sequence == |h| + 1
    requires StageAt(|h|) == Some(r.stage) && r.previous == LastHash(h, |h|) && r.hash == RecordDigest(r)
    ensures LedgerSound(task, run, h + [r])
  {
    var h' := h + [r];
    forall i | 0 <= i < |h'|
      ensures LastHash(h', i) == LastHash(h, i)
    {
    }
  }

  lemma AppendKeepsStep(db: Db, tx: Tx, stage: Stage, payload: string, at: int)
    requires InStep(db, tx) && AppendRecordIn(tx, stage, payload, at).Ok?
    ensures var tx' := AppendRecordIn(tx, stage, payload, at).value; InStep(db, tx') && tx'.task == tx.task && tx'.run == tx.run
  {
    hide History, JournalSound, Verified, LedgerSound;
    var tx' := AppendRecordIn(tx, stage, payload, at).value;
    LedgerGrows(tx.task, tx.run, tx.records, BuildRecord(tx, stage, payload, at));
    assert tx'.records[..tx.initialRun] == tx.records[..tx.initialRun];
  }

  lemma StageKeepsStep(db: Db, tx: Tx, t: Transition)
    requires InStep(db, tx) && StageIn(tx, t).Ok?
    ensures var tx' := StageIn(tx, t).value; InStep(db, tx') && tx'.task == tx.task && tx'.run == tx.run
  {
    hide History, LedgerSound, VerifiedRun;
    var tx' := StageIn(tx, t).value;
    assert tx'.journal[..tx.initialTask] == tx.journal[..tx.initialTask];
    forall i | 0 <= i < |tx'.journal|
      ensures StateAfter(tx'.journal, i) == StateAfter(tx.journal, i)
    {
    }
  }

  /** A commit for another task and another run leaves the transaction in step. */
  lemma OthersStayInStep(db: Db, tx: Tx, other: Tx)
    requires Sound(db) && InStep(db, tx) && InStep(db, other) && CommitIn(db, tx).Ok?
    requires tx.task != other.task && tx.run != other.run
    ensures InStep(CommitIn(db, tx).value, other)
  {
    CommitIsAtomic(db, tx);
  }

  // ---- interleavings ----------------------------------------------------------------------

  datatype Store = Store(db: Db, open: map<nat, Tx>)

  datatype Step =
    | Enter(id: nat, task: string, run: string, expectedTask: nat, expectedRun: nat)
    | AppendRecord(id: nat, stage: Stage, payload: string, at: int)
    | StageTransition(id: nat, transition: Transition)
    | AddArtifact(id: nat, artifact: Artifact)
    | Enqueue(id: nat, event: Event)
    | Commit(id: nat)
    | Exit(id: nat)
    | Publish(eventId: string, when: int)

  /** The locks admit one open transaction per task and one per run. */
  predicate Admits(open: map<nat, Tx>, id: nat, task: string, run: string) {
    id !in open && forall k | k in open :: open[k].task != task && open[k].run != run
  }

  function Restage(s: Store, id: nat, r: Result<Tx, Error>): Store {
    if r.Ok? then s.(open := s.open[id := r.value]) else s
  }

  function Next(s: Store, x: Step): Store
    requires Inv(s)
  {
    match x
    case Enter(id, task, run, et, er) => if Admits(s.open, id, task, run) then Restage(s, id, EnterIn(s.db, task, run, et, er)) else s
    case AppendRecord(id, stage, payload, at) =>
      if id in s.open then Restage(s, id, AppendRecordIn(s.open[id], stage, payload, at)) else s
    case StageTransition(id, t) => if id in s.open then Restage(s, id, StageIn(s.open[id], t)) else s
    case AddArtifact(id, a) => if id in s.open then Restage(s, id, AddArtifactIn(s.open[id], a)) else s
    case Enqueue(id, e) => if id in s.open then Restage(s, id, EnqueueIn(s.open[id], e)) else s
    case Commit(id) =>
      if id !in s.open then s
      else
        var r := CommitIn(s.db, s.open[id]);
        if r.Ok? then Store(r.value, s.open - {id})
        else if r.error == Conflict then s.(open := s.open - {id})
        else s
    case Exit(id) => s.(open := s.open - {id})
    case Publish(event, when) => s.(db := PublishIn(s.db, event, when).0)
  }

  predicate Apart(open: map<nat, Tx>) {
    forall a, b | a in open && b in open && a != b :: open[a].task != open[b].task && open[a].run != open[b].run
  }

  ghost predicate Inv(s: Store) {
    && Sound(s.db) && Apart(s.open)
    && (forall id {:trigger s.open[id]} | id in s.open :: InStep(s.db, s.open[id]))
  }

  lemma PublishKeeps(s: Store, event: string, when: int)
    requires Inv(s)
    ensures Inv(Next(s, Publish(event, when)))
  {
    hide History, TaskSound, RunSound, JournalSound, LedgerSound;
    var db' := PublishIn(s.db, event, when).0;
    assert forall k | 0 <= k < |db'.outbox| :: db'.outbox[k].id == s.db.outbox[k].id;
    forall task
      ensures TaskSound(db'.transitions, task)
    {
      assert TaskSound(s.db.transitions, task);
    }
    forall run
      ensures RunSound(db'.records, run)
    {
      assert RunSound(s.db.records, run);
    }
    forall id | id in s.open
      ensures InStep(db', s.open[id])
    {
      assert InStep(s.db, s.open[id]);
    }
  }

  lemma CommitKeeps(s: Store, id: nat)
    requires Inv(s)
    ensures Inv(Next(s, Commit(id)))
  {
    hide Sound, JournalSound, LedgerSound, History, CommitIn, CommittedAs;
    if id in s.open && CommitIn(s.db, s.open[id]).Ok? {
      CommitIsAtomic(s.db, s.open[id]);
      forall k | k in s.open && k != id
        ensures InStep(CommitIn(s.db, s.open[id]).value, s.open[k])
      {
        OthersStayInStep(s.db, s.open[id], s.open[k]);
      }
    }
  }

  lemma EveryStepKeepsInv(s: Store, x: Step)
    requires Inv(s)
    ensures Inv(Next(s, x))
  {
    hide Sound, InStep, CommitIn, PublishIn, EnterIn, AppendRecordIn, StageIn, AddArtifactIn, EnqueueIn;
    match x {
      case Enter(id, task, run, et, er) =>
        if EnterIn(s.db, task, run, et, er).Ok? { EnterIsInStep(s.db, task, run, et, er); }
      case AppendRecord(id, stage, payload, at) =>
        if id in s.open && AppendRecordIn(s.open[id], stage, payload, at).Ok? { AppendKeepsStep(s.db, s.open[id], stage, payload, at); }
      case StageTransition(id, t) =>
        if id in s.open && StageIn(s.open[id], t).Ok? { StageKeepsStep(s.db, s.open[id], t); }
      case AddArtifact(id, a) =>
        if id in s.open { StagingArtifactKeepsStep(s.db, s.open[id], a); }
      case Enqueue(id, e) =>
        if id in s.open { StagingEventKeepsStep(s.db, s.open[id], e); }
      case Commit(id) => CommitKeeps(s, id);
      case Exit(_) =>
      case Publish(event, when) => PublishKeeps(s, event, when);
    }
  }

  lemma StagingArtifactKeepsStep(db: Db, tx: Tx, a: Artifact)
    requires InStep(db, tx)
    ensures var r := AddArtifactIn(tx, a); r.Ok? ==> InStep(db, r.value) && r.value.task == tx.task && r.value.run == tx.run
  {
  }

  lemma StagingEventKeepsStep(db: Db, tx: Tx, e: Event)
    requires InStep(db, tx)
    ensures var r := EnqueueIn(tx, e); r.Ok? ==> InStep(db, r.value) && r.value.task == tx.task && r.value.run == tx.run
  {
  }

  /** A commit is the end of its transaction, rolled back on a used id, unless it brings a truth change without an event. */
  lemma CommitEnds(s: Store, id: nat)
    requires Inv(s) && id in s.open
    ensures var tx := s.open[id];
            && (id in Next(s, Commit(id)).open <==>
                  (|tx.journal| > tx.initialTask || |tx.records| > tx.initialRun || tx.artifacts != []) && tx.events == [])
            && Next(s, Commit(id)).open - {id} == s.open - {id}
            && (Next(s, Commit(id)).db != s.db ==> id !in Next(s, Commit(id)).open)
  {
    hide Sound, InStep, Apart, InsertTransitions, InsertRecords, InsertArtifacts, InsertEvents;
    assert InStep(s.db, s.open[id]) by {
      assert Inv(s);
    }
    InStepLengths(s.db, s.open[id]);
  }

  lemma InStepLengths(db: Db, tx: Tx)
    requires InStep(db, tx)
    ensures tx.initialTask <= |tx.journal| && tx.initialRun <= |tx.records|
  {
  }

  // ---- what each call of an open transaction accepts, and stages --------------------------

  function StagesOf(h: seq<Record>): (r: seq<Stage>)
    ensures |r| == |h| && forall i | 0 <= i < |h| :: r[i] == h[i].stage
  {
    seq(|h|, i requires 0 <= i < |h| => h[i].stage)
  }

  predicate InStageOrder(stages: seq<Stage>) {
    stages <= [Execution, ImplementationReview, DecisionApplication, SourceIntegration, WorkspaceCleanup]
  }

  lemma VerifiedIsInStageOrder(h: seq<Record>)
    requires VerifiedRun(h)
    ensures InStageOrder(StagesOf(h))
  {
    if |h| > 5 {
      StageByNumber(h, 5);
    }
    forall i | 0 <= i < |h|
      ensures StageAt(i) == Some(h[i].stage)
    {
      StageByNumber(h, i);
    }
  }

  lemma StageByNumber(h: seq<Record>, i: nat)
    requires VerifiedRun(h) && i < |h|
    ensures i < 5 && StageAt(i) == Some(h[i].stage)
  {
    hide LastHash, RecordDigest;
    StagesByNumber(i);
    assert h[i].sequence == i + 1;
  }

  lemma StagesByNumber(i: nat)
    ensures StageAt(i) == if i < 5
                          then Some([Execution, ImplementationReview, DecisionApplication, SourceIntegration, WorkspaceCleanup][i])
                          else None
  {
  }

  /** A record is accepted exactly when the stages with it are still in order; then it is the next of its chain, as asked. */
  lemma AppendAcceptedIff(db: Db, tx: Tx, stage: Stage, payload: string, at: int)
    requires InStep(db, tx)
    ensures AppendRecordIn(tx, stage, payload, at).Ok? <==> InStageOrder(StagesOf(tx.records) + [stage])
    ensures AppendRecordIn(tx, stage, payload, at).Ok? ==>
              var n := |tx.records|;
              var previous := if n == 0 then None else Some(tx.records[n - 1].hash);
              AppendRecordIn(tx, stage, payload, at).value == tx.(records := tx.records + [
                Record(tx.run, tx.task, n + 1, stage, payload, at, previous, OfRecord(tx.run, tx.task, n + 1, stage, payload, at, previous))])
  {
    assert VerifiedRun(tx.records);
    hide InStep, JournalSound, LedgerSound, History, VerifiedRun, InStageOrder;
    StageIsNextIff(tx.records, stage);
  }

  lemma StageIsNextIff(h: seq<Record>, stage: Stage)
    requires VerifiedRun(h)
    ensures StageAt(|h|) == Some(stage) <==> InStageOrder(StagesOf(h) + [stage])
  {
    VerifiedIsInStageOrder(h);
    hide VerifiedRun;
    var stages, all := StagesOf(h), [Execution, ImplementationReview, DecisionApplication, SourceIntegration, WorkspaceCleanup];
    assert (stages + [stage])[|stages|] == stage;
    if |stages| < 5 && all[|stages|] == stage {
      assert all[..|stages|] == stages;
      assert all[..|stages| + 1] == stages + [stage];
    }
  }

  /** Over every interleaving from the empty store, each run's stored stages are the first of the five, in order. */
  lemma RunsFollowTheStages(steps: seq<Step>, run: string)
    ensures Inv(Store(EMPTY, map[]))
    ensures InStageOrder(StagesOf(History(Run(Store(EMPTY, map[]), steps).db.records, run)))
  {
    EmptyIsInv();
    var db := Run(Store(EMPTY, map[]), steps).db;
    assert RunSound(db.records, run);
    VerifiedIsInStageOrder(History(db.records, run));
    hide InStageOrder, VerifiedRun;
  }

  /** A transition is accepted exactly as the next of this task's chain, from the state the task is in. */
  lemma TransitionAcceptedIff(db: Db, tx: Tx, t: Transition)
    requires InStep(db, tx)
    ensures var n := |tx.journal|;
            StageIn(tx, t).Ok? <==>
            && t.task == tx.task && t.sequence == n + 1
            && t.from == (if n == 0 then L.Draft else tx.journal[n - 1].to)
            && t.previous == (if n == 0 then None else Some(tx.journal[n - 1].hash))
            && t.hash == OfTransition(t.task, t.sequence, t.from, t.to, t.detail, t.previous)
    ensures StageIn(tx, t).Ok? ==> StageIn(tx, t).value == tx.(journal := tx.journal + [t])
  {
    assert Verified(tx.journal);
    VerifiedGrowsIff(tx.journal, t);
    hide InStep, LedgerSound, JournalSound, History, Verified;
  }

  lemma VerifiedGrowsIff(h: seq<Transition>, t: Transition)
    requires Verified(h)
    ensures Verified(h + [t]) <==>
            && t.sequence == |h| + 1 && t.previous == (if h == [] then None else Some(h[|h| - 1].hash))
            && t.hash == OfTransition(t.task, t.sequence, t.from, t.to, t.detail, t.previous)
  {
    assert PreviousOf(h, |h|) == if h == [] then None else Some(h[|h| - 1].hash);
    assert TransitionDigest(t) == OfTransition(t.task, t.sequence, t.from, t.to, t.detail, t.previous);
    hide PreviousOf, TransitionDigest, Verified;
    if Verified(h + [t]) {
      LastLinkHolds(h, t);
    }
    if t.sequence == |h| + 1 && t.previous == PreviousOf(h, |h|) && t.hash == TransitionDigest(t) {
      OneMoreLink(h, t);
    }
  }

  lemma LastLinkHolds(h: seq<Transition>, t: Transition)
    requires Verified(h + [t])
    ensures t.sequence == |h| + 1 && t.previous == PreviousOf(h, |h|) && t.hash == TransitionDigest(t)
  {
    hide PreviousOf, TransitionDigest;
    PreviousGrows(h, t, |h|);
    assert (h + [t])[|h|] == t;
  }

  lemma OneMoreLink(h: seq<Transition>, t: Transition)
    requires Verified(h) && t.sequence == |h| + 1 && t.previous == PreviousOf(h, |h|) && t.hash == TransitionDigest(t)
    ensures Verified(h + [t])
  {
    hide PreviousOf, TransitionDigest;
    var h' := h + [t];
    forall i | 0 <= i < |h'|
      ensures h'[i].sequence == i + 1 && h'[i].previous == PreviousOf(h', i) && h'[i].hash == TransitionDigest(h'[i])
    {
      PreviousGrows(h, t, i);
      if i < |h| {
        assert h'[i] == h[i];
      }
    }
  }

  lemma PreviousGrows(h: seq<Transition>, t: Transition, i: nat)
    requires i <= |h|
    ensures PreviousOf(h + [t], i) == PreviousOf(h, i)
  {
  }

  /** Artifacts and events are accepted exactly for this task and run, and events only unpublished. */
  lemma CompanionsAcceptedIff(tx: Tx, a: Artifact, e: Event)
    ensures AddArtifactIn(tx, a) == if a.task == tx.task && a.run == tx.run then Ok(tx.(artifacts := tx.artifacts + [a])) else Err(BadIntegrity)
    ensures EnqueueIn(tx, e).Ok? <==> e.task == tx.task && e.run == tx.run && e.publishedAt == None
    ensures EnqueueIn(tx, e).Ok? ==> EnqueueIn(tx, e).value == tx.(events := tx.events + [e])
  {
  }

  /** A transaction opens exactly on the sequences its caller expects, and for a run of its own task. */
  lemma EntersIff(db: Db, task: string, run: string, expectedTask: nat, expectedRun: nat)
    requires Sound(db)
    ensures EnterIn(db, task, run, expectedTask, expectedRun).Ok? <==>
            && |History(db.transitions, task)| == expectedTask && |History(db.records, run)| == expectedRun
            && forall r | r in History(db.records, run) :: r.task == task
    ensures EnterIn(db, task, run, expectedTask, expectedRun).Ok? ==>
              EnterIn(db, task, run, expectedTask, expectedRun).value
              == Tx(task, run, History(db.transitions, task), expectedTask, History(db.records, run), expectedRun, [], [])
  {
    assert TaskSound(db.transitions, task) && RunSound(db.records, run);
    var rh := History(db.records, run);
    if rh != [] {
      assert rh[0] in rh;
    }
    hide History, Full;
  }

  /** An event is published at its first marking, and nothing else is. */
  lemma PublishesOnce(db: Db, id: string, at: int)
    requires UniqueEvents(db.outbox)
    ensures PublishIn(db, id, at).1 <==> exists e | e in db.outbox :: e.id == id
    ensures var db' := PublishIn(db, id, at).0;
            && (db'.transitions, db'.records, db'.artifacts) == (db.transitions, db.records, db.artifacts)
            && |db'.outbox| == |db.outbox|
            && forall k | 0 <= k < |db.outbox| ::
                 db'.outbox[k] == if db.outbox[k].id == id && db.outbox[k].publishedAt.None? then db.outbox[k].(publishedAt := Some(at)) else db.outbox[k]
  {
    HasEventIff(db.outbox, id);
    if HasEvent(db.outbox, id) {
      var k := IndexOf(db.outbox, id);
      assert db.outbox[k] in db.outbox;
    }
  }

  lemma HasEventIff(outbox: seq<Event>, id: string)
    ensures HasEvent(outbox, id) <==> exists e | e in outbox :: e.id == id
  {
    if HasEvent(outbox, id) {
      var k :| 0 <= k < |outbox| && outbox[k].id == id;
      assert outbox[k] in outbox;
    }
    if e :| e in outbox && e.id == id {
      var k :| 0 <= k < |outbox| && outbox[k] == e;
      assert outbox[k].id == id;
    }
  }

  // ---- over whole runs --------------------------------------------------------------------

  /** Histories only grow at their ends; artifacts stay; events stay, and a publication time stays once set. */
  ghost predicate Extends(db: Db, db': Db) {
    && (forall task :: History(db.transitions, task) <= History(db'.transitions, task))
    && (forall run :: History(db.records, run) <= History(db'.records, run))
    && (forall id | id in db.artifacts :: id in db'.artifacts && db'.artifacts[id] == db.artifacts[id])
    && |db.outbox| <= |db'.outbox|
    && (forall k | 0 <= k < |db.outbox| :: SameEvent(db.outbox[k], db'.outbox[k]))
  }

  predicate SameEvent(a: Event, b: Event) {
    b == a || (a.publishedAt.None? && b == a.(publishedAt := b.publishedAt))
  }

  /** When truth changes, new events say so: all of one task and run, and only their histories changed. */
  ghost predicate Announced(db: Db, db': Db) {
    (db.transitions, db.records, db.artifacts) != (db'.transitions, db'.records, db'.artifacts) ==>
      && |db.outbox| < |db'.outbox| && db'.outbox[..|db.outbox|] == db.outbox
      && var first := db'.outbox[|db.outbox|];
      && (forall k | |db.outbox| <= k < |db'.outbox| ::
            db'.outbox[k].task == first.task && db'.outbox[k].run == first.run && db'.outbox[k].publishedAt.None?)
      && (forall task | task != first.task :: History(db'.transitions, task) == History(db.transitions, task))
      && (forall run | run != first.run :: History(db'.records, run) == History(db.records, run))
  }

  lemma CommitGrows(db: Db, tx: Tx, db': Db)
    requires InStep(db, tx) && CommittedAs(db, tx, db')
    ensures Extends(db, db')
  {
    hide History, JournalSound, LedgerSound;
    assert tx.journal[..tx.initialTask] <= tx.journal && tx.records[..tx.initialRun] <= tx.records;
  }

  lemma NoTruthNoChange(db: Db, tx: Tx)
    requires tx.initialTask <= |tx.journal| && tx.initialRun <= |tx.records| && !ChangesTruth(tx) && CommitIn(db, tx).Ok?
    ensures var db' := CommitIn(db, tx).value;
            (db.transitions, db.records, db.artifacts) == (db'.transitions, db'.records, db'.artifacts)
  {
    assert tx.journal[tx.initialTask..] == [] && tx.records[tx.initialRun..] == [];
  }

  lemma CommitAnnounces(db: Db, tx: Tx)
    requires Sound(db) && InStep(db, tx) && CommitIn(db, tx).Ok?
    ensures Extends(db, CommitIn(db, tx).value) && Announced(db, CommitIn(db, tx).value)
  {
    hide Sound, Extends, CommitIn;
    var db' := CommitIn(db, tx).value;
    CommitIsAtomic(db, tx);
    CommitsIff(db, tx);
    CommitGrows(db, tx, db');
    if ChangesTruth(tx) {
      forall k | |db.outbox| <= k < |db'.outbox|
        ensures db'.outbox[k].task == tx.task && db'.outbox[k].run == tx.run && db'.outbox[k].publishedAt.None?
      {
        assert db'.outbox[k] in tx.events;
      }
    } else {
      NoTruthNoChange(db, tx);
    }
  }

  lemma PublishExtends(db: Db, id: string, at: int)
    ensures var db' := PublishIn(db, id, at).0;
            Extends(db, db') && Announced(db, db')
  {
    hide History;
  }

  /** A refused or abandoned transaction leaves no trace: only commits and publications write. */
  lemma OnlyCommitsAndPublicationsWrite(s: Store, x: Step)
    requires Inv(s)
    ensures Next(s, x).db ==
            match x
            case Commit(id) => if id in s.open && CommitIn(s.db, s.open[id]).Ok? then CommitIn(s.db, s.open[id]).value else s.db
            case Publish(id, when) => PublishIn(s.db, id, when).0
            case _ => s.db
  {
    hide Sound, CommitIn, PublishIn, EnterIn;
  }

  lemma ExtendsItself(db: Db)
    ensures Extends(db, db) && Announced(db, db)
  {
  }

  /** Each step extends the store, and truth never moves without an event. */
  lemma EveryStepExtends(s: Store, x: Step)
    requires Inv(s)
    ensures Extends(s.db, Next(s, x).db) && Announced(s.db, Next(s, x).db)
  {
    OnlyCommitsAndPublicationsWrite(s, x);
    hide Extends, Announced, CommitIn, PublishIn, Next;
    ExtendsItself(s.db);
    match x {
      case Commit(id) => if id in s.open && CommitIn(s.db, s.open[id]).Ok? { CommitAnnounces(s.db, s.open[id]); }
      case Publish(id, when) => PublishExtends(s.db, id, when);
      case _ =>
    }
  }

  function Run(s: Store, steps: seq<Step>): (s': Store)
    requires Inv(s)
    ensures Inv(s')
    decreases |steps|
  {
    if steps == [] then s
    else
      EveryStepKeepsInv(s, steps[0]);
      Run(Next(s, steps[0]), steps[1..])
  }

  lemma ExtendsTransitively(a: Db, b: Db, c: Db)
    requires Extends(a, b) && Extends(b, c)
    ensures Extends(a, c)
  {
    forall task
      ensures History(a.transitions, task) <= History(c.transitions, task)
    {
      assert History(a.transitions, task) <= History(b.transitions, task) <= History(c.transitions, task);
    }
    forall run
      ensures History(a.records, run) <= History(c.records, run)
    {
      assert History(a.records, run) <= History(b.records, run) <= History(c.records, run);
    }
    forall k | 0 <= k < |a.outbox|
      ensures SameEvent(a.outbox[k], c.outbox[k])
    {
      assert SameEvent(a.outbox[k], b.outbox[k]) && SameEvent(b.outbox[k], c.outbox[k]);
    }
  }

  /**
   Over every interleaving: each task's and each run's history stays one gap-free chain and grows
   only at its end, and an event is published at most once, at the first time it was marked.
   */
  lemma {:induction false} HistoriesOnlyGrow(s: Store, steps: seq<Step>)
    requires Inv(s)
    ensures Extends(s.db, Run(s, steps).db) && Sound(Run(s, steps).db)
    decreases |steps|
  {
    if steps == [] {
    } else {
      EveryStepKeepsInv(s, steps[0]);
      EveryStepExtends(s, steps[0]);
      HistoriesOnlyGrow(Next(s, steps[0]), steps[1..]);
      ExtendsTransitively(s.db, Next(s, steps[0]).db, Run(s, steps).db);
    }
  }

  const EMPTY := Db(map[], map[], map[], [])

  lemma EmptyIsInv()
    ensures Inv(Store(EMPTY, map[]))
  {
    assert forall task: string :: Sequences(EMPTY.transitions, task) == {};
    assert forall run: string :: Sequences(EMPTY.records, run) == {};
  }

  // ---- reading events back ----------------------------------------------------------------

  /** What decoding a stored event validates. */
  predicate Decodable(e: Event) {
    e.publishedAt.Some? ==> e.createdAt <= e.publishedAt.value
  }

  function EventsForRun(outbox: seq<Event>, run: string): Option<seq<Event>> {
    if outbox == [] then Some([])
    else
      var rest, e := EventsForRun(outbox[..|outbox| - 1], run), outbox[|outbox| - 1];
      if rest.None? then None
      else if e.run != run then rest
      else if !Decodable(e) then None
      else Some(rest.value + [e])
  }

  lemma {:induction false} EventsReadIff(outbox: seq<Event>, run: string)
    ensures EventsForRun(outbox, run).Some? <==> forall e | e in outbox && e.run == run :: Decodable(e)
    decreases |outbox|
  {
    if outbox != [] {
      EventsReadIff(outbox[..|outbox| - 1], run);
      assert forall e :: e in outbox <==> e in outbox[..|outbox| - 1] || e == outbox[|outbox| - 1];
    }
  }

  /**
   Marking an event published copies it without validating it.  A run whose events could be read
   can still be read exactly when the time given is not before the event was created.
   */
  lemma PublicationReadableIff(db: Db, id: string, at: int)
    requires UniqueEvents(db.outbox) && HasEvent(db.outbox, id)
    requires var e := db.outbox[IndexOf(db.outbox, id)]; e.publishedAt.None? && EventsForRun(db.outbox, e.run).Some?
    ensures var e := db.outbox[IndexOf(db.outbox, id)];
            EventsForRun(PublishIn(db, id, at).0.outbox, e.run).Some? <==> e.createdAt <= at
  {
    var k := IndexOf(db.outbox, id);
    var e, outbox' := db.outbox[k], PublishIn(db, id, at).0.outbox;
    EventsReadIff(db.outbox, e.run);
    EventsReadIff(outbox', e.run);
    assert outbox'[k] in outbox' && outbox'[k] == e.(publishedAt := Some(at));
    if e.createdAt <= at {
      forall x | x in outbox' && x.run == e.run
        ensures Decodable(x)
      {
        var i :| 0 <= i < |outbox'| && outbox'[i] == x;
        if i != k {
          assert db.outbox[i] in db.outbox;
        }
      }
    }
  }

  /** It happens: one transaction with one event, committed, then marked published before its creation. */
  function EarlyPublication(e: Event, at: int): seq<Step> {
    [Enter(0, e.task, e.run, 0, 0), Enqueue(0, e), Commit(0), Publish(e.id, at)]
  }

  lemma EarlyPublicationHidesTheEvents(e: Event, at: int)
    requires e.publishedAt.None?
    ensures Inv(Store(EMPTY, map[]))
    ensures var db := Run(Store(EMPTY, map[]), EarlyPublication(e, at)).db;
            && db.outbox == [e.(publishedAt := Some(at))]
            && (EventsForRun(db.outbox, e.run).Some? <==> e.createdAt <= at)
  {
    EmptyIsInv();
    var steps := EarlyPublication(e, at);
    var s0, published := Store(EMPTY, map[]), e.(publishedAt := Some(at));
    OneEventSteps(e, at);
    hide Next, Inv;
    RunFour(s0, steps);
    EventsReadIff([published], e.run);
    assert [published][0] in [published];
    hide Run, EventsForRun;
  }

  lemma RunFour(s: Store, steps: seq<Step>)
    requires |steps| == 4 && Inv(s) && Inv(Next(s, steps[0])) && Inv(Next(Next(s, steps[0]), steps[1]))
    requires Inv(Next(Next(Next(s, steps[0]), steps[1]), steps[2]))
    ensures Run(s, steps) == Next(Next(Next(Next(s, steps[0]), steps[1]), steps[2]), steps[3])
  {
    hide Next, Inv;
    var s1 := Next(s, steps[0]);
    var s2 := Next(s1, steps[1]);
    var s3 := Next(s2, steps[2]);
    assert steps[1..][1..] == [steps[2], steps[3]] && [steps[2], steps[3]][1..] == [steps[3]] && [steps[3]][1..] == [];
    EveryStepKeepsInv(s3, steps[3]);
    assert Run(s3, [steps[3]]) == Run(Next(s3, steps[3]), []);
    assert Run(s2, [steps[2], steps[3]]) == Run(s3, [steps[3]]);
    assert Run(s, steps) == Run(s1, steps[1..]) == Run(s2, steps[1..][1..]);
  }

  /** What each of the four steps leads to. */
  lemma OneEventSteps(e: Event, at: int)
    requires e.publishedAt.None?
    ensures var steps, tx := EarlyPublication(e, at), Tx(e.task, e.run, [], 0, [], 0, [], []);
            var s0, s1, s2 := Store(EMPTY, map[]), Store(EMPTY, map[0 := tx]), Store(EMPTY, map[0 := tx.(events := [e])]);
            var s3 := Store(EMPTY.(outbox := [e]), map[]);
            && Inv(s0) && Next(s0, steps[0]) == s1 && Inv(s1) && Next(s1, steps[1]) == s2 && Inv(s2)
            && Next(s2, steps[2]) == s3 && Inv(s3)
            && Next(s3, steps[3]) == Store(EMPTY.(outbox := [e.(publishedAt := Some(at))]), map[])
            && Inv(Next(s3, steps[3]))
  {
    EmptyIsInv();
    hide Inv, EnterIn, CommitIn;
    var steps, tx := EarlyPublication(e, at), Tx(e.task, e.run, [], 0, [], 0, [], []);
    EnterEmpty(e.task, e.run);
    CommitOneEvent(tx, e);
    EveryStepKeepsInv(Store(EMPTY, map[]), steps[0]);
    var s1 := Store(EMPTY, map[0 := tx]);
    assert Next(Store(EMPTY, map[]), steps[0]) == s1;
    EveryStepKeepsInv(s1, steps[1]);
    assert [] + [e] == [e];
    var s2 := Store(EMPTY, map[0 := tx.(events := [e])]);
    assert s1.open[0 := tx.(events := [e])] == s2.open;
    assert Next(s1, steps[1]) == s2;
    EveryStepKeepsInv(s2, steps[2]);
    assert s2.open - {0} == map[];
    var s3 := Store(EMPTY.(outbox := [e]), map[]);
    assert Next(s2, steps[2]) == s3;
    EveryStepKeepsInv(s3, steps[3]);
    assert [e][0].id == e.id;
    assert [e][0 := e.(publishedAt := Some(at))] == [e.(publishedAt := Some(at))];
  }

  lemma EnterEmpty(task: string, run: string)
    ensures EnterIn(EMPTY, task, run, 0, 0) == Ok(Tx(task, run, [], 0, [], 0, [], []))
  {
    assert Sequences(EMPTY.transitions, task) == {} && Sequences(EMPTY.records, run) == {};
  }

  lemma CommitOneEvent(tx: Tx, e: Event)
    requires tx == Tx(e.task, e.run, [], 0, [], 0, [], [])
    ensures CommitIn(EMPTY, tx.(events := [e])) == Ok(Db(map[], map[], map[], [e]))
  {
    assert [e][1..] == [] && [] + [e] == [e];
    assert InsertEvents([], [e]) == InsertEvents([e], []) == Some([e]);
  }

  // ---- the adapter ------------------------------------------------------------------------

  class ControlPlaneStore {
    var db: Db

    constructor ()
      ensures db == EMPTY
    {
      db := EMPTY;
    }

    method MarkOutboxPublished(id: string, at: int) returns (found: bool)
      modifies this
      ensures (db, found) == PublishIn(old(db), id, at)
    {
      if !HasEvent(db.outbox, id) {
        return false;
      }
      var k := IndexOf(db.outbox, id);
      if db.outbox[k].publishedAt.None? {
        db := db.(outbox := db.outbox[k := db.outbox[k].(publishedAt := Some(at))]);
      }
      return true;
    }
  }

  /** Staged lists over one store; nothing reaches the store before commit. */
  class StateTransaction {
    const store: ControlPlaneStore
    const task: string
    const run: string
    var open: bool
    var journal: seq<Transition>
    var initialTask: nat
    var records: seq<Record>
    var initialRun: nat
    var artifacts: seq<Artifact>
    var events: seq<Event>
    var committed: bool

    constructor (s: ControlPlaneStore, task: string, run: string)
      ensures store == s && this.task == task && this.run == run && !open && !committed
    {
      store, this.task, this.run, open, committed := s, task, run, false, false;
      journal, initialTask, records, initialRun, artifacts, events := [], 0, [], 0, [], [];
    }

    function Staged(): Tx
      reads this
    {
      Tx(task, run, journal, initialTask, records, initialRun, artifacts, events)
    }

    ghost predicate Valid()
      reads this
    {
      initialTask <= |journal| && initialRun <= |records|
    }

    method Enter(expectedTask: nat, expectedRun: nat) returns (r: Result<(), Error>)
      requires !open && !committed && artifacts == [] && events == []
      modifies this
      ensures r.Ok? <==> EnterIn(store.db, task, run, expectedTask, expectedRun).Ok?
      ensures r.Ok? ==> open && Valid() && Staged() == EnterIn(store.db, task, run, expectedTask, expectedRun).value
      ensures r.Err? ==> !open && Err(r.error) == EnterIn(store.db, task, run, expectedTask, expectedRun)
      ensures !committed
    {
      hide History, Verified, VerifiedRun;
      var taskHistory, runHistory := History(store.db.transitions, task), History(store.db.records, run);
      if !Verified(taskHistory) || !VerifiedRun(runHistory) {
        return Err(BadIntegrity);
      }
      if |taskHistory| != expectedTask || |runHistory| != expectedRun {
        return Err(Error.Conflict);
      }
      if runHistory != [] && runHistory[0].task != task {
        return Err(BadIntegrity);
      }
      journal, initialTask, records, initialRun := taskHistory, |taskHistory|, runHistory, |runHistory|;
      open := true;
      return Ok(());
    }

    /** The staged lists after an accepted call; a refused call changes nothing. */
    ghost predicate Restaged(before: Tx, r: Result<Tx, Error>, answer: Result<(), Error>)
      reads this
    {
      Staged() == (if r.Ok? then r.value else before) && answer == if r.Ok? then Ok(()) else Err(r.error)
    }

    method AppendRunRecord(stage: Stage, payload: string, at: int) returns (r: Result<(), Error>)
      requires open && Valid()
      modifies this`records
      ensures Valid() && Restaged(old(Staged()), AppendRecordIn(old(Staged()), stage, payload, at), r)
    {
      if StageAt(|records|) != Some(stage) {
        return Err(BadStage);
      }
      records := records + [BuildRecord(Staged(), stage, payload, at)];
      return Ok(());
    }

    method AppendTransitionRecord(t: Transition) returns (r: Result<(), Error>)
      requires open && Valid()
      modifies this`journal
      ensures Valid() && Restaged(old(Staged()), StageIn(old(Staged()), t), r)
    {
      if t.task != task || t.sequence != |journal| + 1 || t.from != StateAfter(journal, |journal|) {
        return Err(BadIntegrity);
      }
      if !Verified(journal + [t]) {
        return Err(BadIntegrity);
      }
      journal := journal + [t];
      return Ok(());
    }

    method AddArtifact(a: Artifact) returns (r: Result<(), Error>)
      requires open && Valid()
      modifies this`artifacts
      ensures Valid() && Restaged(old(Staged()), AddArtifactIn(old(Staged()), a), r)
    {
      if a.task != task || a.run != run {
        return Err(BadIntegrity);
      }
      artifacts := artifacts + [a];
      return Ok(());
    }

    method Enqueue(e: Event) returns (r: Result<(), Error>)
      requires open && Valid()
      modifies this`events
      ensures Valid() && Restaged(old(Staged()), EnqueueIn(old(Staged()), e), r)
    {
      if e.task != task || e.run != run || e.publishedAt.Some? {
        return Err(BadIntegrity);
      }
      events := events + [e];
      return Ok(());
    }

    method InsertStaged() returns (rows: Option<(Table<Transition>, Table<Record>)>)
      requires Valid()
      ensures rows == match (InsertTransitions(store.db.transitions, journal[initialTask..]),
                             InsertRecords(store.db.records, records[initialRun..]))
                      case (Some(ts), Some(rs)) => Some((ts, rs))
                      case _ => None
    {
      var ts, k := store.db.transitions, initialTask;
      while k < |journal|
        invariant initialTask <= k <= |journal|
        invariant InsertTransitions(ts, journal[k..]) == InsertTransitions(store.db.transitions, journal[initialTask..])
      {
        var t := journal[k];
        assert journal[k..][0] == t && journal[k..][1..] == journal[k + 1..];
        if (t.task, t.sequence) in ts || exists key | key in ts :: ts[key].hash == t.hash {
          return None;
        }
        ts := ts[(t.task, t.sequence) := t];
        k := k + 1;
      }
      assert journal[k..] == [];
      var rs, n := store.db.records, initialRun;
      while n < |records|
        invariant initialRun <= n <= |records|
        invariant InsertRecords(rs, records[n..]) == InsertRecords(store.db.records, records[initialRun..])
      {
        var record := records[n];
        assert records[n..][0] == record && records[n..][1..] == records[n + 1..];
        if (record.run, record.sequence) in rs || exists key | key in rs :: rs[key].hash == record.hash {
          return None;
        }
        rs := rs[(record.run, record.sequence) := record];
        n := n + 1;
      }
      assert records[n..] == [];
      return Some((ts, rs));
    }

    method InsertCompanions() returns (rows: Option<(map<string, Artifact>, seq<Event>)>)
      ensures rows == match (InsertArtifacts(store.db.artifacts, artifacts), InsertEvents(store.db.outbox, events))
                      case (Some(xs), Some(es)) => Some((xs, es))
                      case _ => None
    {
      var xs, k := store.db.artifacts, 0;
      assert artifacts[0..] == artifacts && events[0..] == events;
      while k < |artifacts|
        invariant 0 <= k <= |artifacts|
        invariant InsertArtifacts(xs, artifacts[k..]) == InsertArtifacts(store.db.artifacts, artifacts)
      {
        assert artifacts[k..][0] == artifacts[k] && artifacts[k..][1..] == artifacts[k + 1..];
        if artifacts[k].id in xs {
          return None;
        }
        xs := xs[artifacts[k].id := artifacts[k]];
        k := k + 1;
      }
      assert artifacts[k..] == [];
      var es, n := store.db.outbox, 0;
      while n < |events|
        invariant 0 <= n <= |events|
        invariant InsertEvents(es, events[n..]) == InsertEvents(store.db.outbox, events)
      {
        assert events[n..][0] == events[n] && events[n..][1..] == events[n + 1..];
        if HasEvent(es, events[n].id) {
          return None;
        }
        es := es + [events[n]];
        n := n + 1;
      }
      assert events[n..] == [];
      return Some((xs, es));
    }

    method Commit() returns (r: Result<(), Error>)
      requires open && !committed && Valid()
      modifies this`committed, store
      ensures match CommitIn(old(store.db), Staged())
              case Ok(db) => r == Ok(()) && store.db == db && committed
              case Err(e) => r == Err(e) && store.db == old(store.db) && !committed
    {
      if ChangesTruth(Staged()) && events == [] {
        return Err(NeedsEvent);
      }
      var staged := InsertStaged();
      var companions := InsertCompanions();
      if staged.None? || companions.None? {
        return Err(Error.Conflict);
      }
      store.db := Db(staged.value.0, staged.value.1, companions.value.0, companions.value.1);
      committed := true;
      return Ok(());
    }

    /** Closes the connection; what was not committed is gone with it. */
    method Exit()
      modifies this`open
      ensures !open
    {
      open := false;
    }
  }
}
