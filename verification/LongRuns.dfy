/**
 Resumable long runs: one projected handle per run, the events it was projected from, and the
 checkpoints bound to them.  Handles are valid values, so reading one back never refuses it; usage,
 limits and leases are part of a handle's opaque `rest`.  A digest is the thing it digests.
 */
module LongRuns {
  import opened Outcomes

  datatype Status = Admitted | Running | CancelRequested | Completed | Failed | Cancelled | Lost

  datatype Kind =
    | RunAdmitted | ProviderBound | Observed | Checkpointed | ProgressStalled | LimitWarning | LimitExceeded
    | CancelAsked | Recovered | RetryAuthorized | RunCompleted | RunFailed | RunCancelled | RunLost

  datatype Handle = Handle(
    run: string, task: string, policy: string, status: Status, version: nat, attempt: nat, cursor: nat,
    checkpoints: nat, createdAt: int, rest: string)

  datatype Digest = Of(run: string, sequence: nat, kind: Kind, handle: Handle, details: string, previous: Option<Digest>)

  datatype Event = Event(run: string, sequence: nat, kind: Kind, handle: Handle, details: string, previous: Option<Digest>, hash: Digest)

  type Positive = n: nat | 1 <= n witness 1

  /** Constructing a checkpoint validates that it counts from one. */
  datatype Checkpoint = Checkpoint(run: string, sequence: Positive, attempt: Positive, cursor: nat, summary: string)

  datatype Store = Store(handles: map<string, Handle>, events: map<string, seq<Event>>, checkpoints: map<(string, nat), Checkpoint>)

  const EMPTY := Store(map[], map[], map[])

  datatype Error = BadIntegrity | Conflict

  predicate Terminal(st: Status) {
    st == Completed || st == Failed || st == Cancelled || st == Lost
  }

  /** What constructing an event validates. */
  predicate Bound(e: Event) {
    e.handle.run == e.run && e.handle.version == e.sequence && e.sequence >= 1
  }

  predicate Honest(e: Event) {
    e.hash == Of(e.run, e.sequence, e.kind, e.handle, e.details, e.previous)
  }

  // ---- the operations ---------------------------------------------------------------------

  function CreateIn(s: Store, e: Event): Result<Store, Error>
    requires Bound(e)
  {
    if e.sequence != 1 || e.previous.Some? || e.kind != RunAdmitted || e.handle.status != Admitted || !Honest(e) then Err(BadIntegrity)
    else if e.run in s.handles then Err(Conflict)
    else Ok(s.(handles := s.handles[e.run := e.handle], events := s.events[e.run := [e]]))
  }

  predicate SameIdentity(a: Handle, b: Handle) {
    a.run == b.run && a.task == b.task && a.policy == b.policy && a.createdAt == b.createdAt
  }

  predicate CheckpointFits(e: Event, c: Option<Checkpoint>) {
    && (e.kind == Checkpointed <==> c.Some?)
    && (c.Some? ==> c.value.run == e.run && c.value.sequence == e.handle.checkpoints
                    && c.value.attempt == e.handle.attempt && c.value.cursor == e.handle.cursor)
  }

  function AppendError(s: Store, e: Event, expected: nat, c: Option<Checkpoint>): Option<Error> {
    if expected < 1 || e.sequence != expected + 1 then Some(Conflict)
    else if !Honest(e) then Some(BadIntegrity)
    else if e.run !in s.handles || e.run !in s.events || s.handles[e.run].version != expected then Some(Conflict)
    else if Terminal(s.handles[e.run].status) && e.kind != RetryAuthorized then Some(Conflict)
    else if !SameIdentity(s.handles[e.run], e.handle) then Some(BadIntegrity)
    else if |s.events[e.run]| < expected then Some(BadIntegrity)
    else if e.previous != Some(s.events[e.run][expected - 1].hash) then Some(BadIntegrity)
    else if !CheckpointFits(e, c) then Some(BadIntegrity)
    else if c.Some? && (c.value.run, c.value.sequence) in s.checkpoints then Some(Conflict)
    else None
  }

  function AppendIn(s: Store, e: Event, expected: nat, c: Option<Checkpoint>): Result<Store, Error>
    requires Bound(e)
  {
    var error := AppendError(s, e, expected, c);
    if error.Some? then Err(error.value)
    else
      Ok(Store(s.handles[e.run := e.handle], s.events[e.run := s.events[e.run] + [e]],
               if c.Some? then s.checkpoints[(c.value.run, c.value.sequence) := c.value] else s.checkpoints))
  }

  function PreviousOf(h: seq<Event>, i: nat): Option<Digest>
    requires i <= |h|
  {
    if i == 0 then None else Some(h[i - 1].hash)
  }

  predicate FitsAt(run: string, h: seq<Event>, i: nat)
    requires i < |h|
  {
    h[i].run == run && h[i].sequence == i + 1 && h[i].previous == PreviousOf(h, i) && Honest(h[i])
  }

  predicate Verified(run: string, h: seq<Event>) {
    forall i {:trigger FitsAt(run, h, i)} | 0 <= i < |h| :: FitsAt(run, h, i)
  }

  function HistoryIn(s: Store, run: string): Result<seq<Event>, Error> {
    var h := if run in s.events then s.events[run] else [];
    if Verified(run, h) then Ok(h) else Err(BadIntegrity)
  }

  function GetIn(s: Store, run: string): Result<Option<Handle>, Error> {
    if run !in s.handles then Ok(None)
    else match HistoryIn(s, run)
      case Err(e) => Err(e)
      case Ok(h) => if h == [] || h[|h| - 1].handle != s.handles[run] then Err(BadIntegrity) else Ok(Some(s.handles[run]))
  }

  // ---- the invariant ----------------------------------------------------------------------

  ghost predicate RunSound(s: Store, run: string)
    requires run in s.handles && run in s.events
  {
    var h := s.events[run];
    && h != [] && Verified(run, h) && s.handles[run] == h[|h| - 1].handle
    && (forall i | 0 <= i < |h| :: Bound(h[i]) && SameIdentity(h[0].handle, h[i].handle))
    && (forall i | 1 <= i < |h| :: Terminal(h[i - 1].handle.status) ==> h[i].kind == RetryAuthorized)
  }

  ghost predicate Inv(s: Store) {
    && s.handles.Keys == s.events.Keys
    && forall run {:trigger RunSound(s, run)} | run in s.handles :: RunSound(s, run)
  }

  lemma CreateKeeps(s: Store, e: Event)
    requires Inv(s) && Bound(e) && CreateIn(s, e).Ok?
    ensures Inv(CreateIn(s, e).value)
  {
    var s' := CreateIn(s, e).value;
    forall run | run in s'.handles
      ensures RunSound(s', run)
    {
      if run == e.run {
        assert FitsAt(run, [e], 0);
      } else {
        assert RunSound(s, run);
      }
    }
  }

  lemma ExtendsVerified(run: string, h: seq<Event>, e: Event)
    requires Verified(run, h) && e.run == run && e.sequence == |h| + 1 && e.previous == PreviousOf(h, |h|) && Honest(e)
    ensures Verified(run, h + [e])
  {
    var h' := h + [e];
    forall i | 0 <= i < |h'|
      ensures FitsAt(run, h', i)
    {
      assert PreviousOf(h', i) == PreviousOf(h, i);
      if i < |h| {
        assert FitsAt(run, h, i);
      }
    }
  }

  lemma VersionIsLength(s: Store, run: string)
    requires Inv(s) && run in s.handles
    ensures run in s.events && s.handles[run].version == |s.events[run]| && s.handles[run].run == run && s.events[run] != []
  {
    assert RunSound(s, run);
    var h := s.events[run];
    assert FitsAt(run, h, |h| - 1) && Bound(h[|h| - 1]);
  }

  lemma AppendKeeps(s: Store, e: Event, expected: nat, c: Option<Checkpoint>)
    requires Inv(s) && Bound(e) && AppendIn(s, e, expected, c).Ok?
    ensures Inv(AppendIn(s, e, expected, c).value)
  {
    var s' := AppendIn(s, e, expected, c).value;
    VersionIsLength(s, e.run);
    forall run | run in s'.handles
      ensures RunSound(s', run)
    {
      assert RunSound(s, run);
      if run == e.run {
        ExtendsVerified(run, s.events[run], e);
      }
    }
  }

  // ---- every history ----------------------------------------------------------------------

  datatype Op = Create(event: Event) | Append(event: Event, expected: nat, checkpoint: Option<Checkpoint>)

  function Apply(s: Store, op: Op): Store
    requires Bound(op.event)
  {
    var r := match op
      case Create(e) => CreateIn(s, e)
      case Append(e, expected, c) => AppendIn(s, e, expected, c);
    if r.Ok? then r.value else s
  }

  function Run(s: Store, ops: seq<Op>): Store
    requires forall op | op in ops :: Bound(op.event)
    decreases |ops|
  {
    if ops == [] then s else Run(Apply(s, ops[0]), ops[1..])
  }

  lemma ApplyKeeps(s: Store, op: Op)
    requires Inv(s) && Bound(op.event)
    ensures Inv(Apply(s, op))
    ensures forall run | run in s.events :: run in Apply(s, op).events && s.events[run] <= Apply(s, op).events[run]
  {
    hide Inv, CreateIn, AppendIn;
    match op {
      case Create(e) =>
        if CreateIn(s, e).Ok? {
          CreateKeeps(s, e);
          CreateExtends(s, e);
        }
      case Append(e, expected, c) =>
        if AppendIn(s, e, expected, c).Ok? {
          AppendKeeps(s, e, expected, c);
          AppendExtends(s, e, expected, c);
        }
    }
  }

  lemma CreateExtends(s: Store, e: Event)
    requires Inv(s) && Bound(e) && CreateIn(s, e).Ok?
    ensures forall run | run in s.events :: run in CreateIn(s, e).value.events && s.events[run] <= CreateIn(s, e).value.events[run]
  {
  }

  lemma AppendExtends(s: Store, e: Event, expected: nat, c: Option<Checkpoint>)
    requires Bound(e) && AppendIn(s, e, expected, c).Ok?
    ensures var s' := AppendIn(s, e, expected, c).value;
            forall run | run in s.events :: run in s'.events && s.events[run] <= s'.events[run]
  {
  }

  lemma {:induction false} RunKeeps(s: Store, ops: seq<Op>)
    requires Inv(s) && forall op | op in ops :: Bound(op.event)
    ensures Inv(Run(s, ops))
    ensures forall run | run in s.events :: run in Run(s, ops).events && s.events[run] <= Run(s, ops).events[run]
    decreases |ops|
  {
    hide Inv, Apply;
    if ops == [] {
    } else {
      ApplyKeeps(s, ops[0]);
      RunKeeps(Apply(s, ops[0]), ops[1..]);
      forall run | run in s.events
        ensures run in Run(s, ops).events && s.events[run] <= Run(s, ops).events[run]
      {
        assert s.events[run] <= Apply(s, ops[0]).events[run] <= Run(s, ops).events[run];
      }
    }
  }

  /**
   After any calls, every run can be read back: its history verifies, its handle is that of its
   last event, and its version is the number of its events.
   */
  lemma ProjectionIsTheLastEvent(ops: seq<Op>, run: string)
    requires forall op | op in ops :: Bound(op.event)
    ensures var s := Run(EMPTY, ops);
            && GetIn(s, run).Ok? && (GetIn(s, run).value.Some? <==> run in s.events)
            && (run in s.events ==>
                  && s.events[run] != [] && HistoryIn(s, run) == Ok(s.events[run])
                  && GetIn(s, run).value == Some(s.events[run][|s.events[run]| - 1].handle)
                  && GetIn(s, run).value.value.version == |s.events[run]|)
  {
    RunKeeps(EMPTY, ops);
    var s := Run(EMPTY, ops);
    if run in s.handles {
      assert RunSound(s, run);
      VersionIsLength(s, run);
    }
  }

  /** An event is accepted only at the next version, and after a terminal status only to authorize a retry. */
  lemma AcceptedOnlyAtTheNextVersion(s: Store, e: Event, expected: nat, c: Option<Checkpoint>)
    requires Inv(s) && Bound(e) && AppendIn(s, e, expected, c).Ok?
    ensures e.run in s.events && expected == |s.events[e.run]| && e.handle.version == expected + 1
    ensures var last := s.events[e.run][expected - 1];
            && (Terminal(last.handle.status) ==> e.kind == RetryAuthorized)
            && SameIdentity(last.handle, e.handle) && e.previous == Some(last.hash)
  {
    VersionIsLength(s, e.run);
    assert RunSound(s, e.run);
  }

  /** A run is admitted exactly once, by an honest first event in the admitted state. */
  lemma AdmittedIff(s: Store, e: Event)
    requires Bound(e)
    ensures CreateIn(s, e).Ok? <==>
            && e.sequence == 1 && e.previous == None && e.kind == RunAdmitted && e.handle.status == Admitted
            && e.hash == Of(e.run, 1, e.kind, e.handle, e.details, None) && e.run !in s.handles
    ensures CreateIn(s, e).Ok? ==>
              var s' := CreateIn(s, e).value;
              s'.handles == s.handles[e.run := e.handle] && s'.events == s.events[e.run := [e]] && s'.checkpoints == s.checkpoints
  {
  }

  /** An event is accepted exactly as the next link of its run, of the same identity, from a state that is not final, with its checkpoint. */
  lemma AcceptedIff(s: Store, e: Event, expected: nat, c: Option<Checkpoint>)
    requires Inv(s) && Bound(e)
    ensures AppendIn(s, e, expected, c).Ok? <==>
            && e.run in s.events && 1 <= expected == |s.events[e.run]| && e.sequence == expected + 1
            && e.hash == Of(e.run, e.sequence, e.kind, e.handle, e.details, e.previous)
            && var last := s.events[e.run][expected - 1];
            && e.previous == Some(last.hash)
            && (last.handle.status in {Completed, Failed, Cancelled, Lost} ==> e.kind == RetryAuthorized)
            && e.handle.task == last.handle.task && e.handle.policy == last.handle.policy && e.handle.createdAt == last.handle.createdAt
            && (if e.kind == Checkpointed
                then c.Some? && c.value.run == e.run && c.value.sequence == e.handle.checkpoints && c.value.attempt == e.handle.attempt
                     && c.value.cursor == e.handle.cursor && (e.run, e.handle.checkpoints) !in s.checkpoints
                else c.None?)
    ensures AppendIn(s, e, expected, c).Ok? ==>
              var s' := AppendIn(s, e, expected, c).value;
              && s'.handles == s.handles[e.run := e.handle] && s'.events == s.events[e.run := s.events[e.run] + [e]]
              && s'.checkpoints == if c.Some? then s.checkpoints[(e.run, e.handle.checkpoints) := c.value] else s.checkpoints
  {
    if e.run in s.handles {
      VersionIsLength(s, e.run);
      assert RunSound(s, e.run);
    }
  }

  // ---- checkpoints ------------------------------------------------------------------------

  /** checkpoints(run) succeeds: the run's checkpoint sequences are 1, 2, ..., n. */
  ghost predicate Readable(s: Store, run: string, n: nat) {
    forall k: nat {:trigger (run, k) in s.checkpoints} :: (run, k) in s.checkpoints <==> 1 <= k <= n
  }

  /** checkpoints(run) returns. */
  ghost predicate CanRead(s: Store, run: string) {
    exists n: nat :: Readable(s, run, n)
  }

  /** append does not ask that checkpoint counts be consecutive: the checkpoints stay readable exactly when they are. */
  lemma CheckpointsReadableIff(s: Store, e: Event, expected: nat, c: Checkpoint, n: nat)
    requires Bound(e) && AppendIn(s, e, expected, Some(c)).Ok? && Readable(s, e.run, n)
    ensures CanRead(AppendIn(s, e, expected, Some(c)).value, e.run) <==> e.handle.checkpoints == n + 1
  {
    var s' := AppendIn(s, e, expected, Some(c)).value;
    assert c.run == e.run && c.sequence == e.handle.checkpoints && (e.run, c.sequence) in s'.checkpoints;
    assert (e.run, c.sequence) !in s.checkpoints;
    if e.handle.checkpoints == n + 1 {
      assert Readable(s', e.run, n + 1);
    }
    forall m: nat | Readable(s', e.run, m)
      ensures e.handle.checkpoints == n + 1
    {
      assert (e.run, n + 1) !in s.checkpoints;
      assert (e.run, n + 1) in s'.checkpoints <==> n + 1 == c.sequence;
      assert 1 <= c.sequence <= m;
    }
  }

  /** The call is accepted and stores a checkpoint of this run. */
  predicate Counted(s: Store, op: Op, run: string)
    requires Bound(op.event)
  {
    op.Append? && op.event.run == run && op.checkpoint.Some? && AppendIn(s, op.event, op.expected, op.checkpoint).Ok?
  }

  /** The checkpoint counts that a history of calls accepted for a run, in the order of the calls. */
  function Counts(s: Store, ops: seq<Op>, run: string): seq<nat>
    requires forall op | op in ops :: Bound(op.event)
    decreases |ops|
  {
    if ops == [] then []
    else
      (if Counted(s, ops[0], run) then [ops[0].event.handle.checkpoints] else []) + Counts(Apply(s, ops[0]), ops[1..], run)
  }

  lemma CountStep(s: Store, op: Op, run: string)
    requires Bound(op.event)
    ensures forall k: nat ::
              (run, k) in Apply(s, op).checkpoints <==>
              (run, k) in s.checkpoints || (Counted(s, op, run) && k == op.event.handle.checkpoints)
    ensures Counted(s, op, run) ==> (run, op.event.handle.checkpoints) !in s.checkpoints
  {
  }

  /** The stored checkpoints are the accepted counts, each accepted once. */
  lemma {:induction false} CheckpointsAreTheCounts(s: Store, ops: seq<Op>, run: string)
    requires forall op | op in ops :: Bound(op.event)
    ensures forall k: nat :: (run, k) in Run(s, ops).checkpoints <==> (run, k) in s.checkpoints || k in Counts(s, ops, run)
    ensures forall k | k in Counts(s, ops, run) :: (run, k) !in s.checkpoints
    ensures forall i, j | 0 <= i < j < |Counts(s, ops, run)| :: Counts(s, ops, run)[i] != Counts(s, ops, run)[j]
    decreases |ops|
  {
    hide Apply, Counted;
    if ops != [] {
      CheckpointsAreTheCounts(Apply(s, ops[0]), ops[1..], run);
      CountStep(s, ops[0], run);
      var rest := Counts(Apply(s, ops[0]), ops[1..], run);
      var first := ops[0].event.handle.checkpoints;
      if Counted(s, ops[0], run) {
        assert Counts(s, ops, run) == [first] + rest;
        assert (run, first) in Apply(s, ops[0]).checkpoints;
        assert forall k | 0 <= k < |rest| :: rest[k] in rest && rest[k] != first;
      } else {
        assert Counts(s, ops, run) == rest;
      }
    }
  }

  /** The numbers 1..n, in any order. */
  ghost predicate InitialSegment(counts: seq<nat>) {
    exists n: nat :: SegmentTo(counts, n)
  }

  ghost predicate SegmentTo(counts: seq<nat>, n: nat) {
    forall k: nat :: k in counts <==> 1 <= k <= n
  }

  /**
   Over all histories: a run's checkpoints can be read exactly when the counts accepted for it are
   1, 2, ..., n in some order.  A gap makes them unreadable, until the missing count is accepted.
   */
  lemma CheckpointsReadableIffInitialSegment(ops: seq<Op>, run: string)
    requires forall op | op in ops :: Bound(op.event)
    ensures CanRead(Run(EMPTY, ops), run) <==> InitialSegment(Counts(EMPTY, ops, run))
  {
    CheckpointsAreTheCounts(EMPTY, ops, run);
    ReadableIffCounts(Run(EMPTY, ops), run, Counts(EMPTY, ops, run));
  }

  lemma ReadableIffCounts(s: Store, run: string, counts: seq<nat>)
    requires forall k: nat :: (run, k) in s.checkpoints <==> k in counts
    ensures CanRead(s, run) <==> InitialSegment(counts)
  {
    if InitialSegment(counts) {
      var n: nat :| SegmentTo(counts, n);
      assert Readable(s, run, n);
    }
    if CanRead(s, run) {
      var n: nat :| Readable(s, run, n);
      assert SegmentTo(counts, n);
    }
  }

  // ---- a history with a gap ---------------------------------------------------------------

  function Admission(run: string): Event {
    var h := Handle(run, "t", "p", Admitted, 1, 1, 0, 0, 0, "");
    Event(run, 1, RunAdmitted, h, "", None, Of(run, 1, RunAdmitted, h, "", None))
  }

  /** The second event of a run: a checkpoint that says it is the `count`th. */
  function SecondEvent(run: string, count: Positive): Event {
    var h := Handle(run, "t", "p", Running, 2, 1, 0, count, 0, "");
    Event(run, 2, Checkpointed, h, "", Some(Admission(run).hash), Of(run, 2, Checkpointed, h, "", Some(Admission(run).hash)))
  }

  function FirstCheckpoint(run: string, count: Positive): seq<Op> {
    [Create(Admission(run)), Append(SecondEvent(run, count), 1, Some(Checkpoint(run, count, 1, 0, "")))]
  }

  /** A first checkpoint with any count from one on is accepted, and can be read back only if the count is one. */
  lemma FirstCheckpointMayLeaveAGap(run: string, count: Positive)
    ensures forall op | op in FirstCheckpoint(run, count) :: Bound(op.event)
    ensures Counts(EMPTY, FirstCheckpoint(run, count), run) == [count]
    ensures CanRead(Run(EMPTY, FirstCheckpoint(run, count)), run) <==> count == 1
  {
    var ops := FirstCheckpoint(run, count);
    var s := Apply(EMPTY, ops[0]);
    assert s.events[run] == [Admission(run)];
    assert ops[1..][1..] == [];
    assert Counts(s, ops[1..], run) == [count] + Counts(Apply(s, ops[1]), [], run);
    CheckpointsReadableIffInitialSegment(ops, run);
    assert SegmentTo([1], 1);
    forall n: nat | SegmentTo([count], n)
      ensures count == 1
    {
      assert count in [count] && (1 in [count] <==> 1 <= n);
    }
  }

  // ---- the store --------------------------------------------------------------------------

  class SqliteLongRunStore {
    var handles: map<string, Handle>
    var events: map<string, seq<Event>>
    var checkpoints: map<(string, nat), Checkpoint>

    constructor ()
      ensures State() == EMPTY
    {
      handles, events, checkpoints := map[], map[], map[];
    }

    function State(): Store
      reads this
    {
      Store(handles, events, checkpoints)
    }

    ghost predicate Committed(before: Store, change: Result<Store, Error>, e: Event, r: Result<Handle, Error>)
      reads this
    {
      match change
      case Ok(s) => r == Ok(e.handle) && State() == s
      case Err(error) => r == Err(error) && State() == before
    }

    method CreateRun(e: Event) returns (r: Result<Handle, Error>)
      requires Bound(e)
      modifies this
      ensures Committed(old(State()), CreateIn(old(State()), e), e, r)
    {
      if e.sequence != 1 || e.previous.Some? || e.kind != RunAdmitted || e.handle.status != Admitted {
        return Err(BadIntegrity);
      }
      if !Honest(e) {
        return Err(BadIntegrity);
      }
      if e.run in handles {
        return Err(Conflict);
      }
      handles := handles[e.run := e.handle];
      events := events[e.run := [e]];
      return Ok(e.handle);
    }

    method AppendEvent(e: Event, expected: nat, c: Option<Checkpoint>) returns (r: Result<Handle, Error>)
      requires Bound(e)
      modifies this
      ensures Committed(old(State()), AppendIn(old(State()), e, expected, c), e, r)
    {
      if expected < 1 || e.sequence != expected + 1 {
        return Err(Conflict);
      }
      if !Honest(e) {
        return Err(BadIntegrity);
      }
      if e.run !in handles || e.run !in events {
        return Err(Conflict);
      }
      var current := handles[e.run];
      if current.version != expected || (Terminal(current.status) && e.kind != RetryAuthorized) {
        return Err(Conflict);
      }
      if !SameIdentity(current, e.handle) || |events[e.run]| < expected {
        return Err(BadIntegrity);
      }
      if e.previous != Some(events[e.run][expected - 1].hash) || !CheckpointFits(e, c) {
        return Err(BadIntegrity);
      }
      if c.Some? && (c.value.run, c.value.sequence) in checkpoints {
        return Err(Conflict);
      }
      handles := handles[e.run := e.handle];
      events := events[e.run := events[e.run] + [e]];
      if c.Some? {
        checkpoints := checkpoints[(c.value.run, c.value.sequence) := c.value];
      }
      return Ok(e.handle);
    }

    method History(run: string) returns (r: Result<seq<Event>, Error>)
      ensures r == HistoryIn(State(), run)
    {
      var h := if run in events then events[run] else [];
      var previous: Option<Digest>, k := None, 0;
      while k < |h|
        invariant 0 <= k <= |h| && previous == PreviousOf(h, k)
        invariant forall i {:trigger FitsAt(run, h, i)} | 0 <= i < k :: FitsAt(run, h, i)
      {
        ghost var fits := FitsAt(run, h, k);
        if h[k].run != run || h[k].sequence != k + 1 || h[k].previous != previous || !Honest(h[k]) {
          return Err(BadIntegrity);
        }
        previous := Some(h[k].hash);
        k := k + 1;
      }
      return Ok(h);
    }

    /** The projection, refused when it is not the handle of the last event. */
    method Get(run: string) returns (r: Result<Option<Handle>, Error>)
      ensures r == GetIn(State(), run)
    {
      if run !in handles {
        return Ok(None);
      }
      var h := History(run);
      if h.Err? {
        return Err(h.error);
      }
      if h.value == [] || h.value[|h.value| - 1].handle != handles[run] {
        return Err(BadIntegrity);
      }
      return Ok(Some(handles[run]));
    }
  }
}
