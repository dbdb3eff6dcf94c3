/**
 Three append-only revision journals - task runs, their coordinator, task plans - of one shape: a
 file of hash-linked records, replaced whole by each append.  They differ in what an append may
 change.  A digest is the thing it digests; record ids and time stamps are part of `note`.
 */
module RevisionJournals {
  import opened Outcomes

  // ---- records ----------------------------------------------------------------------------

  datatype Digest<S> = Of(owner: string, sequence: nat, snapshot: S, note: string, previous: Option<Digest<S>>)

  datatype Record<S> = Record(owner: string, sequence: nat, snapshot: S, note: string, previous: Option<Digest<S>>, hash: Digest<S>)

  function DigestOf<S>(r: Record<S>): Digest<S> {
    Of(r.owner, r.sequence, r.snapshot, r.note, r.previous)
  }

  function LastHash<S>(h: seq<Record<S>>, i: nat): Option<Digest<S>>
    requires i <= |h|
  {
    if i == 0 then None else Some(h[i - 1].hash)
  }

  predicate FitsAt<S(==)>(h: seq<Record<S>>, i: nat)
    requires i < |h|
  {
    h[i].sequence == i + 1 && h[i].owner == h[0].owner && h[i].previous == LastHash(h, i) && h[i].hash == DigestOf(h[i])
  }

  /** verify_*_history: positions, one owner, linked hashes, honest hashes. */
  predicate Verified<S(==)>(h: seq<Record<S>>) {
    forall i {:trigger FitsAt(h, i)} | 0 <= i < |h| :: FitsAt(h, i)
  }

  function Linked<S>(h: seq<Record<S>>, owner: string, snapshot: S, note: string): Record<S> {
    var n, previous := |h| + 1, LastHash(h, |h|);
    Record(owner, n, snapshot, note, previous, Of(owner, n, snapshot, note, previous))
  }

  lemma AppendVerifies<S>(h: seq<Record<S>>, owner: string, snapshot: S, note: string)
    requires Verified(h) && (h != [] ==> h[0].owner == owner)
    ensures Verified(h + [Linked(h, owner, snapshot, note)])
  {
    var h' := h + [Linked(h, owner, snapshot, note)];
    forall i | 0 <= i < |h'|
      ensures FitsAt(h', i)
    {
      assert LastHash(h', i) == LastHash(h, i);
      if i < |h| {
        assert FitsAt(h, i);
      }
    }
  }

  /** The last hash pins down the whole history. */
  lemma {:induction false} SameLastHashSameHistory<S>(a: seq<Record<S>>, b: seq<Record<S>>)
    requires Verified(a) && Verified(b) && a != [] && b != [] && a[|a| - 1].hash == b[|b| - 1].hash
    ensures a == b
    decreases |a|
  {
    var x, y := a[|a| - 1], b[|b| - 1];
    assert FitsAt(a, |a| - 1) && FitsAt(b, |b| - 1);
    assert DigestOf(x) == DigestOf(y);
    var p, q := a[..|a| - 1], b[..|b| - 1];
    if |a| > 1 {
      PrefixVerifies(a);
      PrefixVerifies(b);
      SameLastHashSameHistory(p, q);
    }
    assert a == p + [x] && b == q + [y];
  }

  lemma PrefixVerifies<S>(h: seq<Record<S>>)
    requires Verified(h) && |h| > 1
    ensures Verified(h[..|h| - 1])
  {
    var p := h[..|h| - 1];
    forall i | 0 <= i < |p|
      ensures FitsAt(p, i)
    {
      assert FitsAt(h, i) && LastHash(p, i) == LastHash(h, i);
    }
  }

  /** The loop of the three verifiers. */
  method Verify<S(==)>(h: seq<Record<S>>) returns (ok: bool)
    ensures ok <==> Verified(h)
  {
    var previous: Option<Digest<S>>, owner: Option<string>, k := None, None, 0;
    while k < |h|
      invariant 0 <= k <= |h| && previous == LastHash(h, k)
      invariant owner == if k == 0 then None else Some(h[0].owner)
      invariant forall i {:trigger FitsAt(h, i)} | 0 <= i < k :: FitsAt(h, i)
    {
      var r := h[k];
      ghost var fits := FitsAt(h, k);
      if r.sequence != k + 1 {
        return false;
      }
      if owner.None? {
        owner := Some(r.owner);
      } else if owner != Some(r.owner) {
        return false;
      }
      if r.previous != previous {
        return false;
      }
      if r.hash != DigestOf(r) {
        return false;
      }
      previous := Some(r.hash);
      k := k + 1;
    }
    return true;
  }

  // ---- what an append may change ----------------------------------------------------------

  /** `definition` is the node, its workflow task and its dependencies. */
  datatype Node = Node(definition: string, transitions: seq<string>, interactions: seq<string>, state: string)

  datatype RunSnapshot = RunSnapshot(
    run: string, plan: string, planRevision: nat, planHash: string, binding: string, createdAt: int, createdBy: string,
    updatedAt: int, revision: nat, nodes: seq<Node>)

  datatype Intent = Intent(id: string, node: string, action: string, expectedRunRevision: nat)

  datatype CoordinatorSnapshot = CoordinatorSnapshot(
    run: string, createdAt: int, updatedAt: int, revision: nat, runRevision: nat, pending: Option<Intent>)

  datatype PlanSnapshot = PlanSnapshot(plan: string, revision: nat, content: string)

  predicate SameBinding(a: RunSnapshot, b: RunSnapshot) {
    && a.run == b.run && a.plan == b.plan && a.planRevision == b.planRevision && a.planHash == b.planHash
    && a.binding == b.binding && a.createdAt == b.createdAt && a.createdBy == b.createdBy
    && |a.nodes| == |b.nodes| && forall k | 0 <= k < |a.nodes| :: a.nodes[k].definition == b.nodes[k].definition
  }

  predicate RunFollows(a: RunSnapshot, b: RunSnapshot) {
    && SameBinding(a, b) && a.updatedAt <= b.updatedAt
    && forall k | 0 <= k < |a.nodes| ::
         a.nodes[k].transitions <= b.nodes[k].transitions && a.nodes[k].interactions <= b.nodes[k].interactions
  }

  predicate CoordinatorFollows(a: CoordinatorSnapshot, b: CoordinatorSnapshot) {
    && a.run == b.run && a.createdAt == b.createdAt && a.updatedAt <= b.updatedAt && a.runRevision <= b.runRevision
    && (a.pending.None? || b.pending.None? || a.pending == b.pending)
  }

  function AppendRunIn(h: seq<Record<RunSnapshot>>, s: RunSnapshot, note: string): Option<seq<Record<RunSnapshot>>> {
    if s.revision != |h| + 1 || (h != [] && !RunFollows(h[|h| - 1].snapshot, s)) then None
    else Some(h + [Linked(h, s.run, s, note)])
  }

  /** A snapshot with a pending intent is validated to be at the run revision that the intent expects. */
  predicate IntentBound(s: CoordinatorSnapshot) {
    s.pending.Some? ==> s.pending.value.expectedRunRevision == s.runRevision
  }

  function AppendCoordinatorIn(h: seq<Record<CoordinatorSnapshot>>, s: CoordinatorSnapshot, note: string)
    : Option<seq<Record<CoordinatorSnapshot>>>
  {
    if !IntentBound(s) || s.revision != |h| + 1 || (h != [] && !CoordinatorFollows(h[|h| - 1].snapshot, s)) then None
    else Some(h + [Linked(h, s.run, s, note)])
  }

  function AppendPlanIn(h: seq<Record<PlanSnapshot>>, s: PlanSnapshot, note: string): Option<seq<Record<PlanSnapshot>>> {
    if s.revision != |h| + 1 || (h != [] && h[|h| - 1].owner != s.plan) then None
    else Some(h + [Linked(h, s.plan, s, note)])
  }

  // ---- histories built by the appends -----------------------------------------------------

  function RunHistory(h: seq<Record<RunSnapshot>>, appends: seq<(RunSnapshot, string)>): seq<Record<RunSnapshot>>
    decreases |appends|
  {
    if appends == [] then h
    else
      var r := AppendRunIn(h, appends[0].0, appends[0].1);
      RunHistory(if r.Some? then r.value else h, appends[1..])
  }

  function CoordinatorHistory(h: seq<Record<CoordinatorSnapshot>>, appends: seq<(CoordinatorSnapshot, string)>)
    : seq<Record<CoordinatorSnapshot>>
    decreases |appends|
  {
    if appends == [] then h
    else
      var r := AppendCoordinatorIn(h, appends[0].0, appends[0].1);
      CoordinatorHistory(if r.Some? then r.value else h, appends[1..])
  }

  function PlanHistory(h: seq<Record<PlanSnapshot>>, appends: seq<(PlanSnapshot, string)>): seq<Record<PlanSnapshot>>
    decreases |appends|
  {
    if appends == [] then h
    else
      var r := AppendPlanIn(h, appends[0].0, appends[0].1);
      PlanHistory(if r.Some? then r.value else h, appends[1..])
  }

  ghost predicate RunSound(h: seq<Record<RunSnapshot>>) {
    && Verified(h)
    && (forall i | 0 <= i < |h| :: h[i].owner == h[i].snapshot.run)
    && (forall i | 1 <= i < |h| :: RunFollows(h[i - 1].snapshot, h[i].snapshot))
  }

  ghost predicate CoordinatorSound(h: seq<Record<CoordinatorSnapshot>>) {
    && Verified(h)
    && (forall i | 0 <= i < |h| :: h[i].owner == h[i].snapshot.run && IntentBound(h[i].snapshot))
    && (forall i | 1 <= i < |h| :: CoordinatorFollows(h[i - 1].snapshot, h[i].snapshot))
  }

  lemma AppendRunKeeps(h: seq<Record<RunSnapshot>>, s: RunSnapshot, note: string)
    requires RunSound(h) && AppendRunIn(h, s, note).Some?
    ensures RunSound(AppendRunIn(h, s, note).value) && h < AppendRunIn(h, s, note).value
  {
    hide Verified;
    OwnersAgree(h);
    AppendVerifies(h, s.run, s, note);
  }

  lemma OwnersAgree<S>(h: seq<Record<S>>)
    requires Verified(h)
    ensures forall i | 0 <= i < |h| :: h[i].owner == h[0].owner
  {
    forall i | 0 <= i < |h|
      ensures h[i].owner == h[0].owner
    {
      assert FitsAt(h, i);
    }
  }

  lemma AppendCoordinatorKeeps(h: seq<Record<CoordinatorSnapshot>>, s: CoordinatorSnapshot, note: string)
    requires CoordinatorSound(h) && AppendCoordinatorIn(h, s, note).Some?
    ensures CoordinatorSound(AppendCoordinatorIn(h, s, note).value) && h < AppendCoordinatorIn(h, s, note).value
  {
    hide Verified;
    OwnersAgree(h);
    AppendVerifies(h, s.run, s, note);
  }

  /** Any history that appends built verifies, and each append only adds to it. */
  lemma {:induction false} RunHistoriesVerify(h: seq<Record<RunSnapshot>>, appends: seq<(RunSnapshot, string)>)
    requires RunSound(h)
    ensures RunSound(RunHistory(h, appends)) && Verified(RunHistory(h, appends)) && h <= RunHistory(h, appends)
    decreases |appends|
  {
    if appends == [] {
    } else {
      var r := AppendRunIn(h, appends[0].0, appends[0].1);
      if r.Some? {
        AppendRunKeeps(h, appends[0].0, appends[0].1);
      }
      RunHistoriesVerify(if r.Some? then r.value else h, appends[1..]);
    }
  }

  lemma {:induction false} CoordinatorHistoriesVerify(h: seq<Record<CoordinatorSnapshot>>, appends: seq<(CoordinatorSnapshot, string)>)
    requires CoordinatorSound(h)
    ensures CoordinatorSound(CoordinatorHistory(h, appends)) && Verified(CoordinatorHistory(h, appends))
    ensures h <= CoordinatorHistory(h, appends)
    decreases |appends|
  {
    if appends == [] {
    } else {
      var r := AppendCoordinatorIn(h, appends[0].0, appends[0].1);
      if r.Some? {
        AppendCoordinatorKeeps(h, appends[0].0, appends[0].1);
      }
      CoordinatorHistoriesVerify(if r.Some? then r.value else h, appends[1..]);
    }
  }

  lemma {:induction false} PlanHistoriesVerify(h: seq<Record<PlanSnapshot>>, appends: seq<(PlanSnapshot, string)>)
    requires Verified(h)
    ensures Verified(PlanHistory(h, appends)) && h <= PlanHistory(h, appends)
    decreases |appends|
  {
    if appends == [] {
    } else {
      var r := AppendPlanIn(h, appends[0].0, appends[0].1);
      if r.Some? {
        OwnersAgree(h);
        AppendVerifies(h, appends[0].0.plan, appends[0].0, appends[0].1);
      }
      PlanHistoriesVerify(if r.Some? then r.value else h, appends[1..]);
    }
  }

  // ---- over whole histories ---------------------------------------------------------------

  /** Between any two revisions of a run: one binding, one graph, and lists that only grew at their ends. */
  lemma {:induction false} RunRevisionsFollow(h: seq<Record<RunSnapshot>>, i: nat, j: nat)
    requires RunSound(h) && i <= j < |h|
    ensures RunFollows(h[i].snapshot, h[j].snapshot)
    decreases j
  {
    if i == j {
      FollowsItself(h[i].snapshot);
    }
    hide RunFollows, Verified;
    if i < j {
      RunRevisionsFollow(h, i, j - 1);
      FollowsTransitively(h[i].snapshot, h[j - 1].snapshot, h[j].snapshot);
    }
  }

  lemma FollowsItself(a: RunSnapshot)
    ensures RunFollows(a, a)
  {
  }

  lemma FollowsTransitively(a: RunSnapshot, b: RunSnapshot, c: RunSnapshot)
    requires RunFollows(a, b) && RunFollows(b, c)
    ensures RunFollows(a, c)
  {
    forall k | 0 <= k < |a.nodes|
      ensures a.nodes[k].transitions <= c.nodes[k].transitions && a.nodes[k].interactions <= c.nodes[k].interactions
    {
      assert a.nodes[k].transitions <= b.nodes[k].transitions <= c.nodes[k].transitions;
      assert a.nodes[k].interactions <= b.nodes[k].interactions <= c.nodes[k].interactions;
    }
  }

  lemma {:induction false} CoordinatorMovesForward(h: seq<Record<CoordinatorSnapshot>>, i: nat, j: nat)
    requires CoordinatorSound(h) && i <= j < |h|
    ensures var a, b := h[i].snapshot, h[j].snapshot;
            a.run == b.run && a.createdAt == b.createdAt && a.updatedAt <= b.updatedAt && a.runRevision <= b.runRevision
    decreases j
  {
    if i < j {
      CoordinatorMovesForward(h, i, j - 1);
    }
  }

  /** An unresolved intent stays, at one run revision, until a revision without any intent. */
  lemma {:induction false} IntentsPassThroughNone(h: seq<Record<CoordinatorSnapshot>>, i: nat, j: nat)
    requires CoordinatorSound(h) && i <= j < |h| && h[i].snapshot.pending.Some?
    ensures (exists k | i <= k <= j :: h[k].snapshot.pending.None?)
            || (h[j].snapshot.pending == h[i].snapshot.pending && h[j].snapshot.runRevision == h[i].snapshot.runRevision)
    decreases j
  {
    if i < j {
      IntentsPassThroughNone(h, i, j - 1);
    }
  }

  // ---- field by field ---------------------------------------------------------------------

  /** The record at `i` is numbered from one, of the first one's owner, and names the digest of all of the one before. */
  ghost predicate LinkedAt<S>(h: seq<Record<S>>, i: nat)
    requires i < |h|
  {
    && h[i].sequence == i + 1 && h[i].owner == h[0].owner
    && h[i].previous == (if i == 0 then None else Some(h[i - 1].hash))
    && h[i].hash == Of(h[i].owner, h[i].sequence, h[i].snapshot, h[i].note, h[i].previous)
  }

  lemma VerifiedMeans<S>(h: seq<Record<S>>)
    ensures Verified(h) <==> forall i | 0 <= i < |h| :: LinkedAt(h, i)
  {
    forall i | 0 <= i < |h|
      ensures FitsAt(h, i) <==> LinkedAt(h, i)
    {
    }
    hide FitsAt, LinkedAt;
  }

  /** What no later revision of a run may change, and what may only grow. */
  ghost predicate Continues(a: RunSnapshot, b: RunSnapshot) {
    && b.run == a.run && b.plan == a.plan && b.planRevision == a.planRevision && b.planHash == a.planHash
    && b.binding == a.binding && b.createdAt == a.createdAt && b.createdBy == a.createdBy && a.updatedAt <= b.updatedAt
    && |b.nodes| == |a.nodes|
    && forall k | 0 <= k < |a.nodes| ::
         && b.nodes[k].definition == a.nodes[k].definition
         && |a.nodes[k].transitions| <= |b.nodes[k].transitions|
         && b.nodes[k].transitions[..|a.nodes[k].transitions|] == a.nodes[k].transitions
         && |a.nodes[k].interactions| <= |b.nodes[k].interactions|
         && b.nodes[k].interactions[..|a.nodes[k].interactions|] == a.nodes[k].interactions
  }

  lemma FollowsMeansContinues(a: RunSnapshot, b: RunSnapshot)
    ensures RunFollows(a, b) <==> Continues(a, b)
  {
  }

  lemma RunRevisionsContinue(h: seq<Record<RunSnapshot>>, i: nat, j: nat)
    requires RunSound(h) && i <= j < |h|
    ensures Continues(h[i].snapshot, h[j].snapshot) && h[i].sequence == i + 1
  {
    RunRevisionsFollow(h, i, j);
    FollowsMeansContinues(h[i].snapshot, h[j].snapshot);
    assert FitsAt(h, i);
    hide RunFollows, Continues, RunSound, Verified;
  }

  /** A run revision is published exactly if it is the next and continues the last; then as the next link of the chain. */
  lemma RunAppendAcceptedIff(h: seq<Record<RunSnapshot>>, s: RunSnapshot, note: string)
    ensures AppendRunIn(h, s, note).Some? <==> s.revision == |h| + 1 && (h != [] ==> Continues(h[|h| - 1].snapshot, s))
    ensures AppendRunIn(h, s, note).Some? ==>
              AppendRunIn(h, s, note).value == h + [NextRecord(h, s.run, s, note)]
  {
    if h != [] {
      FollowsMeansContinues(h[|h| - 1].snapshot, s);
    }
    hide RunFollows, Continues;
  }

  function NextRecord<S>(h: seq<Record<S>>, owner: string, s: S, note: string): Record<S> {
    var previous := if h == [] then None else Some(h[|h| - 1].hash);
    Record(owner, |h| + 1, s, note, previous, Of(owner, |h| + 1, s, note, previous))
  }

  /** So is a coordinator revision, of one run, never back in time, and keeping an unresolved intent. */
  lemma CoordinatorAppendAcceptedIff(h: seq<Record<CoordinatorSnapshot>>, s: CoordinatorSnapshot, note: string)
    ensures AppendCoordinatorIn(h, s, note).Some? <==>
            && s.revision == |h| + 1 && (s.pending.Some? ==> s.pending.value.expectedRunRevision == s.runRevision)
            && (h != [] ==>
                  var last := h[|h| - 1].snapshot;
                  && s.run == last.run && s.createdAt == last.createdAt
                  && last.updatedAt <= s.updatedAt && last.runRevision <= s.runRevision
                  && (last.pending.Some? && s.pending.Some? ==> s.pending == last.pending))
    ensures AppendCoordinatorIn(h, s, note).Some? ==>
              AppendCoordinatorIn(h, s, note).value == h + [NextRecord(h, s.run, s, note)]
  {
  }

  /** And a plan revision, of the same plan. */
  lemma PlanAppendAcceptedIff(h: seq<Record<PlanSnapshot>>, s: PlanSnapshot, note: string)
    ensures AppendPlanIn(h, s, note).Some? <==> s.revision == |h| + 1 && (h != [] ==> h[|h| - 1].owner == s.plan)
    ensures AppendPlanIn(h, s, note).Some? ==>
              AppendPlanIn(h, s, note).value == h + [NextRecord(h, s.plan, s, note)]
  {
  }

  // ---- the stores -------------------------------------------------------------------------

  /** One file: an append reads it, verifies it, and publishes the next generation. */
  class LocalTaskManagerRunStore {
    var history: seq<Record<RunSnapshot>>

    constructor ()
      ensures history == [] && RunSound(history)
    {
      history := [];
    }

    method Append(s: RunSnapshot, note: string) returns (ok: bool)
      requires RunSound(history)
      modifies this
      ensures RunSound(history) && ok == AppendRunIn(old(history), s, note).Some?
      ensures history == if ok then AppendRunIn(old(history), s, note).value else old(history)
    {
      var verified := Verify(history);
      if s.revision != |history| + 1 {
        return false;
      }
      var follows := true;
      if history != [] {
        follows := Follows(history[|history| - 1].snapshot, s);
      }
      if !follows {
        return false;
      }
      AppendRunKeeps(history, s, note);
      history := history + [Linked(history, s.run, s, note)];
      return true;
    }

    /** The binding checks, then node by node the prefix checks. */
    static method Follows(a: RunSnapshot, b: RunSnapshot) returns (ok: bool)
      ensures ok <==> RunFollows(a, b)
    {
      if !SameBinding(a, b) || b.updatedAt < a.updatedAt {
        return false;
      }
      var k := 0;
      while k < |a.nodes|
        invariant 0 <= k <= |a.nodes|
        invariant forall i | 0 <= i < k ::
                    a.nodes[i].transitions <= b.nodes[i].transitions && a.nodes[i].interactions <= b.nodes[i].interactions
      {
        if !(a.nodes[k].transitions <= b.nodes[k].transitions) || !(a.nodes[k].interactions <= b.nodes[k].interactions) {
          return false;
        }
        k := k + 1;
      }
      return true;
    }
  }

  class LocalTaskManagerCoordinatorStore {
    var history: seq<Record<CoordinatorSnapshot>>

    constructor ()
      ensures history == [] && CoordinatorSound(history)
    {
      history := [];
    }

    method Append(s: CoordinatorSnapshot, note: string) returns (ok: bool)
      requires CoordinatorSound(history)
      modifies this
      ensures CoordinatorSound(history) && ok == AppendCoordinatorIn(old(history), s, note).Some?
      ensures history == if ok then AppendCoordinatorIn(old(history), s, note).value else old(history)
    {
      var verified := Verify(history);
      if !IntentBound(s) || s.revision != |history| + 1 {
        return false;
      }
      if history != [] {
        var previous := history[|history| - 1].snapshot;
        if previous.run != s.run || previous.createdAt != s.createdAt || s.updatedAt < previous.updatedAt
           || s.runRevision < previous.runRevision
        {
          return false;
        }
        if previous.pending.Some? && s.pending.Some? && previous.pending != s.pending {
          return false;
        }
      }
      AppendCoordinatorKeeps(history, s, note);
      history := history + [Linked(history, s.run, s, note)];
      return true;
    }
  }

  class LocalTaskPlanStore {
    var history: seq<Record<PlanSnapshot>>

    constructor ()
      ensures history == []
    {
      history := [];
    }

    method Append(s: PlanSnapshot, note: string) returns (ok: bool)
      requires Verified(history)
      modifies this
      ensures Verified(history) && ok == AppendPlanIn(old(history), s, note).Some?
      ensures history == if ok then AppendPlanIn(old(history), s, note).value else old(history)
    {
      var verified := Verify(history);
      if s.revision != |history| + 1 || (history != [] && history[|history| - 1].owner != s.plan) {
        return false;
      }
      OwnersAgree(history);
      AppendVerifies(history, s.plan, s, note);
      history := history + [Linked(history, s.plan, s, note)];
      return true;
    }
  }
}
