/**
 The Quick Agent keeps the last thousand events of a session and, for each streamed item of the
 current turn, the index of its event.  Eviction shifts every index.  The specification is a log
 that never drops an event and forgets an item's position only when its event would be evicted.
 Time stamps, models and process handling are not modelled.
 */
module QuickAgentWindow {
  import opened Outcomes

  const MAXIMUM_EVENTS := 1000
  const MAXIMUM_CHARACTERS := 24_000
  const MARKER := "\n…[本地显示已截断]"

  const PROVIDER_EXITED := "Codex app-server exited during the active turn"

  datatype State = Idle | Running | Completed | Failed | Cancelled | TimedOut

  /** (kind, item id) */
  type Key = (string, string)

  datatype Event = Event(sequence: nat, kind: string, role: string, content: string, status: string)

  // ---- bounded text -----------------------------------------------------------------------

  function Bounded(text: string): (r: string)
    ensures |r| <= MAXIMUM_CHARACTERS && (|text| <= MAXIMUM_CHARACTERS ==> r == text)
    ensures |text| > MAXIMUM_CHARACTERS ==> |r| == MAXIMUM_CHARACTERS - 13 && r[..MAXIMUM_CHARACTERS - 24] == text[..MAXIMUM_CHARACTERS - 24]
  {
    if |text| <= MAXIMUM_CHARACTERS then text
    else
      assert |MARKER| == 11;
      text[..MAXIMUM_CHARACTERS - 24] + MARKER
  }

  function Joined(deltas: seq<string>): string {
    if deltas == [] then "" else Joined(deltas[..|deltas| - 1]) + deltas[|deltas| - 1]
  }

  /** What a stream shows: every delta is appended to what is left of the earlier ones. */
  function Shown(deltas: seq<string>): string {
    if deltas == [] then "" else Bounded(Shown(deltas[..|deltas| - 1]) + deltas[|deltas| - 1])
  }

  /** A stream shows exactly what was sent if and only if all of it fits. */
  lemma {:induction false} ShowsAllIffItFits(deltas: seq<string>)
    ensures |Shown(deltas)| <= MAXIMUM_CHARACTERS
    ensures Shown(deltas) == Joined(deltas) <==> |Joined(deltas)| <= MAXIMUM_CHARACTERS
    decreases |deltas|
  {
    if deltas == [] {
    } else {
      ShowsAllIffItFits(deltas[..|deltas| - 1]);
    }
  }

  // ---- the unbounded log ------------------------------------------------------------------

  /** `owner` is the streamed item an event was created for. */
  datatype Entry = Entry(event: Event, owner: Option<Key>)

  datatype Log = Log(entries: seq<Entry>, positions: map<Key, nat>)

  const EMPTY := Log([], map[])

  /** The positions that a window of the last events still shows, in a log of this length. */
  function Remembered(positions: map<Key, nat>, length: nat): map<Key, nat> {
    map k | k in positions && positions[k] + MAXIMUM_EVENTS >= length :: positions[k]
  }

  function LogAppend(l: Log, kind: string, role: string, content: string, status: string, owner: Option<Key>): Log {
    Log(l.entries + [Entry(Event(|l.entries| + 1, kind, role, Bounded(content), status), owner)],
        Remembered(l.positions, |l.entries| + 1))
  }

  function LogCreate(l: Log, key: Key, kind: string, role: string, content: string, status: string): Log {
    var appended := LogAppend(l, kind, role, content, status, Some(key));
    appended.(positions := appended.positions[key := |l.entries|])
  }

  function LogRewrite(l: Log, key: Key, e: Event): Log
    requires key in l.positions && l.positions[key] < |l.entries|
  {
    l.(entries := l.entries[l.positions[key] := l.entries[l.positions[key]].(event := e)])
  }

  function LogDelta(l: Log, key: Key, role: string, delta: string): Log
    requires LogSound(l)
  {
    if key !in l.positions then LogCreate(l, key, key.0 + ".stream", role, delta, "streaming")
    else
      var e := l.entries[l.positions[key]].event;
      LogRewrite(l, key, e.(content := Bounded(e.content + delta), status := "streaming"))
  }

  predicate IsRunning(status: string) {
    status == "running" || status == "inProgress" || status == "in_progress"
  }

  function StreamKind(key: Key, status: string): string {
    key.0 + if IsRunning(status) then ".started" else ".completed"
  }

  function LogSet(l: Log, key: Key, role: string, content: string, status: string): Log
    requires LogSound(l)
  {
    if key !in l.positions then LogCreate(l, key, StreamKind(key, status), role, content, status)
    else
      var e := l.entries[l.positions[key]].event;
      LogRewrite(l, key, e.(content := Bounded(content), status := status, kind := StreamKind(key, status)))
  }

  /** Consecutive sequence numbers, bounded contents, and each position at an event made for its item. */
  ghost predicate LogSound(l: Log) {
    && (forall i | 0 <= i < |l.entries| :: l.entries[i].event.sequence == i + 1 && |l.entries[i].event.content| <= MAXIMUM_CHARACTERS)
    && (forall k | k in l.positions ::
          && l.positions[k] < |l.entries| <= l.positions[k] + MAXIMUM_EVENTS
          && l.entries[l.positions[k]].owner == Some(k))
  }

  datatype Op =
    | Append(kind: string, role: string, content: string, status: string)
    | Delta(key: Key, role: string, delta: string)
    | Set(key: Key, role: string, content: string, status: string)
    | StartTurn(prompt: string)
    | NewSession

  function LogApply(l: Log, op: Op): Log
    requires LogSound(l)
  {
    match op
    case Append(kind, role, content, status) => LogAppend(l, kind, role, content, status, None)
    case Delta(key, role, delta) => LogDelta(l, key, role, delta)
    case Set(key, role, content, status) => LogSet(l, key, role, content, status)
    case StartTurn(prompt) => LogAppend(l.(positions := map[]), "user.message", "user", prompt, "submitted", None)
    case NewSession => EMPTY
  }

  lemma AppendStaysSound(l: Log, kind: string, role: string, content: string, status: string, owner: Option<Key>)
    requires LogSound(l)
    ensures LogSound(LogAppend(l, kind, role, content, status, owner))
    ensures owner.Some? ==> LogSound(LogCreate(l, owner.value, kind, role, content, status))
  {
  }

  lemma RewriteStaysSound(l: Log, key: Key, e: Event)
    requires LogSound(l) && key in l.positions && |e.content| <= MAXIMUM_CHARACTERS
    requires l.positions[key] < |l.entries| && e.sequence == l.entries[l.positions[key]].event.sequence
    ensures LogSound(LogRewrite(l, key, e))
  {
  }

  lemma LogStaysSound(l: Log, op: Op)
    requires LogSound(l)
    ensures LogSound(LogApply(l, op))
  {
    hide Bounded, IsRunning, StreamKind, Remembered;
    match op {
      case Append(kind, role, content, status) => AppendStaysSound(l, kind, role, content, status, None);
      case Delta(key, role, delta) =>
        AppendStaysSound(l, key.0 + ".stream", role, delta, "streaming", Some(key));
        if key in l.positions {
          var e := l.entries[l.positions[key]].event;
          RewriteStaysSound(l, key, e.(content := Bounded(e.content + delta), status := "streaming"));
        }
      case Set(key, role, content, status) =>
        AppendStaysSound(l, StreamKind(key, status), role, content, status, Some(key));
        if key in l.positions {
          var e := l.entries[l.positions[key]].event;
          RewriteStaysSound(l, key, e.(content := Bounded(content), status := status, kind := StreamKind(key, status)));
        }
      case StartTurn(prompt) => AppendStaysSound(l.(positions := map[]), "user.message", "user", prompt, "submitted", None);
      case NewSession =>
    }
  }

  /** How an item is shown: streaming while deltas come, and started or completed by the status it is set to. */
  lemma ItemsAreShown(l: Log, key: Key, role: string, text: string, status: string)
    requires LogSound(l)
    ensures var l' := LogApply(l, Delta(key, role, text));
            && key in l'.positions && l'.positions[key] < |l'.entries|
            && var e := l'.entries[l'.positions[key]].event;
            && e.status == "streaming"
            && (key !in l.positions ==>
                  && l'.entries == l.entries + [Entry(Event(|l.entries| + 1, key.0 + ".stream", role, Bounded(text), "streaming"), Some(key))]
                  && l'.positions[key] == |l.entries|)
            && (key in l.positions ==>
                  && e == l.entries[l.positions[key]].event.(content := Bounded(l.entries[l.positions[key]].event.content + text), status := "streaming")
                  && l'.entries == l.entries[l.positions[key] := Entry(e, Some(key))])
    ensures var l' := LogApply(l, Set(key, role, text, status));
            && key in l'.positions && l'.positions[key] < |l'.entries|
            && var e := l'.entries[l'.positions[key]].event;
            && e.status == status && e.content == Bounded(text)
            && e.kind == key.0 + (if status in {"running", "inProgress", "in_progress"} then ".started" else ".completed")
            && (key !in l.positions ==> |l'.entries| == |l.entries| + 1 && e.role == role && e.sequence == |l.entries| + 1)
            && (key in l.positions ==>
                  && l'.entries == l.entries[l.positions[key] := Entry(e, Some(key))]
                  && e.role == l.entries[l.positions[key]].event.role)
  {
    hide Bounded, Remembered;
  }

  /** A turn starts with the prompt and no remembered item; a session starts with nothing. */
  lemma TurnsStartAfresh(l: Log, prompt: string)
    requires LogSound(l)
    ensures LogApply(l, StartTurn(prompt)).entries ==
            l.entries + [Entry(Event(|l.entries| + 1, "user.message", "user", Bounded(prompt), "submitted"), None)]
    ensures LogApply(l, StartTurn(prompt)).positions == map[] && LogApply(l, NewSession) == Log([], map[])
  {
    hide Bounded;
  }

  function LogRun(l: Log, ops: seq<Op>): (r: Log)
    requires LogSound(l)
    ensures LogSound(r)
    decreases |ops|
  {
    if ops == [] then l
    else
      LogStaysSound(l, ops[0]);
      LogRun(LogApply(l, ops[0]), ops[1..])
  }

  // ---- what a stream shows over a whole turn ----------------------------------------------

  /** Neither a rewrite of this item nor the start of another turn or session. */
  predicate LeavesStream(op: Op, key: Key) {
    !op.StartTurn? && !op.NewSession? && (op.Set? ==> op.key != key)
  }

  function DeltasOf(ops: seq<Op>, key: Key): seq<string> {
    if ops == [] then []
    else (if ops[0].Delta? && ops[0].key == key then [ops[0].delta] else []) + DeltasOf(ops[1..], key)
  }

  function Sent(sent: seq<string>, op: Op, key: Key): seq<string> {
    if op.Delta? && op.key == key then sent + [op.delta] else sent
  }

  lemma SentSoFar(sent: seq<string>, ops: seq<Op>, key: Key)
    requires ops != []
    ensures Sent(sent, ops[0], key) + DeltasOf(ops[1..], key) == sent + DeltasOf(ops, key)
    ensures Shown(Sent(sent, ops[0], key)) ==
            if ops[0].Delta? && ops[0].key == key then Bounded(Shown(sent) + ops[0].delta) else Shown(sent)
  {
    hide Bounded;
    if ops[0].Delta? && ops[0].key == key {
      assert (sent + [ops[0].delta])[..|sent|] == sent;
    }
  }

  function ContentAt(l: Log, key: Key): string
    requires LogSound(l) && key in l.positions
  {
    l.entries[l.positions[key]].event.content
  }

  lemma {:induction false} LogOnlyGrows(l: Log, ops: seq<Op>, key: Key)
    requires LogSound(l) && forall op | op in ops :: LeavesStream(op, key)
    ensures |LogRun(l, ops).entries| >= |l.entries|
    decreases |ops|
  {
    hide Bounded;
    if ops != [] {
      LogStaysSound(l, ops[0]);
      assert ops[0] in ops;
      assert |LogApply(l, ops[0]).entries| >= |l.entries|;
      assert forall op | op in ops[1..] :: op in ops;
      LogOnlyGrows(LogApply(l, ops[0]), ops[1..], key);
    }
  }

  /** One operation leaves a visible item's event where it is and changes it by its own deltas only. */
  lemma StreamStep(l: Log, op: Op, key: Key)
    requires LogSound(l) && LogSound(LogApply(l, op)) && key in l.positions && LeavesStream(op, key)
    requires |LogApply(l, op).entries| <= l.positions[key] + MAXIMUM_EVENTS
    ensures key in LogApply(l, op).positions && LogApply(l, op).positions[key] == l.positions[key]
    ensures ContentAt(LogApply(l, op), key) ==
            if op.Delta? && op.key == key then Bounded(ContentAt(l, key) + op.delta) else ContentAt(l, key)
  {
    hide Bounded;
    if (op.Delta? || op.Set?) && op.key in l.positions && op.key != key {
      assert l.entries[l.positions[key]].owner == Some(key) && l.entries[l.positions[op.key]].owner == Some(op.key);
    }
  }

  /**
   While its event is among the last thousand, an item shows its deltas in order, whatever other
   items and notices are appended between them.
   */
  lemma {:induction false} StreamShowsItsDeltas(l: Log, ops: seq<Op>, key: Key, sent: seq<string>)
    requires LogSound(l) && key in l.positions && ContentAt(l, key) == Shown(sent)
    requires forall op | op in ops :: LeavesStream(op, key)
    requires |LogRun(l, ops).entries| <= l.positions[key] + MAXIMUM_EVENTS
    ensures key in LogRun(l, ops).positions && LogRun(l, ops).positions[key] == l.positions[key]
    ensures ContentAt(LogRun(l, ops), key) == Shown(sent + DeltasOf(ops, key))
    decreases |ops|
  {
    hide Bounded, LogApply, LogSound;
    if ops == [] {
      assert sent + DeltasOf(ops, key) == sent;
    } else {
      LogStaysSound(l, ops[0]);
      assert ops[0] in ops;
      var l' := LogApply(l, ops[0]);
      assert forall op | op in ops[1..] :: op in ops;
      LogOnlyGrows(l', ops[1..], key);
      StreamStep(l, ops[0], key);
      var sent' := Sent(sent, ops[0], key);
      SentSoFar(sent, ops, key);
      hide Shown, Sent, LeavesStream, DeltasOf;
      StreamShowsItsDeltas(l', ops[1..], key, sent');
    }
  }

  // ---- the window -------------------------------------------------------------------------

  datatype Window = Window(events: seq<Event>, indices: map<Key, nat>, nextSequence: nat)

  function Visible(l: Log): nat {
    if |l.entries| <= MAXIMUM_EVENTS then |l.entries| else MAXIMUM_EVENTS
  }

  function Hidden(l: Log): nat {
    |l.entries| - Visible(l)
  }

  /** The window shows the last events; an index counts from the first event shown. */
  ghost predicate Shows(w: Window, l: Log) {
    && w.nextSequence == |l.entries| + 1 && |w.events| == Visible(l)
    && (forall i | 0 <= i < |w.events| :: w.events[i] == l.entries[Hidden(l) + i].event)
    && w.indices.Keys == l.positions.Keys
    && (forall k | k in w.indices :: w.indices[k] + Hidden(l) == l.positions[k])
  }

  /** What a reader of the window can rely on. */
  lemma WindowIsSound(w: Window, l: Log)
    requires LogSound(l) && Shows(w, l)
    ensures |w.events| == if |l.entries| <= 1000 then |l.entries| else 1000
    ensures forall k | k in w.indices :: w.indices[k] < |w.events|
    ensures forall a, b | a in w.indices && b in w.indices && w.indices[a] == w.indices[b] :: a == b
    ensures forall i | 0 <= i < |w.events| - 1 :: w.events[i + 1].sequence == w.events[i].sequence + 1
    ensures w.events != [] ==> w.events[|w.events| - 1].sequence + 1 == w.nextSequence
    ensures forall i | 0 <= i < |w.events| :: |w.events[i].content| <= 24_000
  {
    forall a, b | a in w.indices && b in w.indices && w.indices[a] == w.indices[b]
      ensures a == b
    {
      assert l.entries[l.positions[a]].owner == Some(a) && l.entries[l.positions[b]].owner == Some(b);
    }
  }

  /** A log has one window: what is shown and indexed depends on nothing else. */
  lemma OneWindowPerLog(w: Window, v: Window, l: Log)
    requires LogSound(l) && Shows(w, l) && Shows(v, l)
    ensures w == v
  {
    assert w.events == v.events;
    forall k | k in w.indices
      ensures w.indices[k] == v.indices[k]
    {
    }
  }

  lemma ShownAlone(first: string)
    ensures Shown([first]) == Bounded(first)
  {
    assert [first][..0] == [] && "" + first == first;
  }

  /** In any session a reader finds, at its index, the deltas of an item that is still shown: all of them if they fit. */
  lemma ReaderSeesTheDeltas(l: Log, key: Key, role: string, first: string, ops: seq<Op>, w: Window)
    requires LogSound(l) && key !in l.positions && forall op | op in ops :: LeavesStream(op, key)
    requires var r := LogRun(l, [Delta(key, role, first)] + ops); Shows(w, r) && Hidden(r) <= |l.entries|
    ensures key in w.indices && w.indices[key] < |w.events|
    ensures var sent := [first] + DeltasOf(ops, key);
            var content := w.events[w.indices[key]].content;
            content == Shown(sent) && (content == Joined(sent) <==> |Joined(sent)| <= MAXIMUM_CHARACTERS)
  {
    var all := [Delta(key, role, first)] + ops;
    assert all[0] == Delta(key, role, first) && all[1..] == ops;
    LogStaysSound(l, all[0]);
    var l' := LogApply(l, all[0]);
    ShownAlone(first);
    LogOnlyGrows(l', ops, key);
    assert LogRun(l, all) == LogRun(l', ops);
    hide LogSound, Shows, Shown, Joined, DeltasOf, LogRun, Bounded;
    StreamShowsItsDeltas(l', ops, key, [first]);
    LookupRefines(w, LogRun(l, all), key);
    ShowsAllIffItFits([first] + DeltasOf(ops, key));
  }

  /** The index map after the oldest event was dropped. */
  function Shifted(indices: map<Key, nat>): map<Key, nat> {
    map k | k in indices && indices[k] > 0 :: indices[k] - 1
  }

  function WindowAppend(w: Window, kind: string, role: string, content: string, status: string): Window {
    var full := |w.events| >= MAXIMUM_EVENTS;
    Window((if full then w.events[1..] else w.events) + [Event(w.nextSequence, kind, role, Bounded(content), status)],
           if full then Shifted(w.indices) else w.indices, w.nextSequence + 1)
  }

  lemma EvictRefines(w: Window, l: Log, kind: string, role: string, content: string, status: string, owner: Option<Key>)
    requires LogSound(l) && Shows(w, l) && |w.events| >= MAXIMUM_EVENTS
    ensures Shows(WindowAppend(w, kind, role, content, status), LogAppend(l, kind, role, content, status, owner))
  {
    hide Bounded;
    var w', l' := WindowAppend(w, kind, role, content, status), LogAppend(l, kind, role, content, status, owner);
    assert Hidden(l') == Hidden(l) + 1;
    assert w'.indices.Keys == l'.positions.Keys;
  }

  lemma GrowRefines(w: Window, l: Log, kind: string, role: string, content: string, status: string, owner: Option<Key>)
    requires LogSound(l) && Shows(w, l) && |w.events| < MAXIMUM_EVENTS
    ensures Shows(WindowAppend(w, kind, role, content, status), LogAppend(l, kind, role, content, status, owner))
  {
    assert forall k | k in l.positions :: l.positions[k] < |l.entries| <= l.positions[k] + MAXIMUM_EVENTS;
    hide Bounded, LogSound;
    var w', l' := WindowAppend(w, kind, role, content, status), LogAppend(l, kind, role, content, status, owner);
    assert Hidden(l') == Hidden(l) == 0;
    assert w'.indices.Keys == l'.positions.Keys;
  }

  /** Dropping the oldest event and shifting the indices is forgetting what the log forgets. */
  lemma AppendRefines(w: Window, l: Log, kind: string, role: string, content: string, status: string, owner: Option<Key>)
    requires LogSound(l) && Shows(w, l)
    ensures Shows(WindowAppend(w, kind, role, content, status), LogAppend(l, kind, role, content, status, owner))
  {
    if |w.events| >= MAXIMUM_EVENTS {
      EvictRefines(w, l, kind, role, content, status, owner);
    } else {
      GrowRefines(w, l, kind, role, content, status, owner);
    }
  }

  lemma CreateRefines(w: Window, l: Log, key: Key)
    requires LogSound(l) && Shows(w, l) && l.entries != [] && l.entries[|l.entries| - 1].owner == Some(key)
    ensures w.events != []
    ensures var l' := l.(positions := l.positions[key := |l.entries| - 1]);
            LogSound(l') && Shows(w.(indices := w.indices[key := |w.events| - 1]), l')
  {
    hide Bounded, LogAppend, LogCreate;
  }

  lemma LookupRefines(w: Window, l: Log, key: Key)
    requires LogSound(l) && Shows(w, l)
    ensures key in w.indices <==> key in l.positions
    ensures key in w.indices ==>
              && w.indices[key] < |w.events| && l.positions[key] < |l.entries|
              && w.events[w.indices[key]] == l.entries[l.positions[key]].event
  {
  }

  lemma RewriteRefines(w: Window, l: Log, key: Key, e: Event)
    requires LogSound(l) && Shows(w, l) && key in w.indices && w.indices[key] < |w.events|
    ensures key in l.positions && l.positions[key] < |l.entries|
    ensures Shows(w.(events := w.events[w.indices[key] := e]), LogRewrite(l, key, e))
  {
  }

  lemma ForgetRefines(w: Window, l: Log)
    requires LogSound(l) && Shows(w, l)
    ensures LogSound(l.(positions := map[])) && Shows(w.(indices := map[]), l.(positions := map[]))
  {
  }

  // ---- the adapter ------------------------------------------------------------------------

  /** The session under its lock; `log` is the specification's log. */
  class CodexQuickAgent {
    var events: seq<Event>
    var streamEvents: map<Key, nat>
    var nextSequence: nat
    var state: State
    var activeTurn: Option<string>
    var threadKnown: bool
    var cancelRequested: bool
    var timeoutRequested: bool
    var lastError: Option<string>
    ghost var log: Log

    constructor ()
      ensures Valid() && log == EMPTY && state == Idle
    {
      events, streamEvents, nextSequence := [], map[], 1;
      state, activeTurn, threadKnown, cancelRequested, timeoutRequested, lastError := Idle, None, false, false, false, None;
      log := EMPTY;
    }

    function View(): Window
      reads this
    {
      Window(events, streamEvents, nextSequence)
    }

    ghost predicate Tracked()
      reads this
    {
      LogSound(log) && Shows(View(), log)
    }

    ghost predicate Valid()
      reads this
    {
      Tracked() && (activeTurn.Some? ==> state == Running)
    }

    method AppendEvent(kind: string, role: string, content: string, status: string, ghost owner: Option<Key>)
      requires Tracked()
      modifies this`events, this`streamEvents, this`nextSequence, this`log
      ensures Tracked() && log == LogAppend(old(log), kind, role, content, status, owner)
      ensures View() == WindowAppend(old(View()), kind, role, content, status)
    {
      hide LogSound, Shows, Bounded, Remembered, LogAppend, LogCreate, Shifted;
      AppendRefines(View(), log, kind, role, content, status, owner);
      AppendStaysSound(log, kind, role, content, status, owner);
      if |events| >= MAXIMUM_EVENTS {
        events := events[1..];
        streamEvents := Shifted(streamEvents);
      }
      events := events + [Event(nextSequence, kind, role, Bounded(content), status)];
      nextSequence := nextSequence + 1;
      log := LogAppend(log, kind, role, content, status, owner);
    }

    method CreateStream(key: Key, kind: string, role: string, content: string, status: string)
      requires Tracked() && key !in streamEvents
      modifies this`events, this`streamEvents, this`nextSequence, this`log
      ensures Tracked() && log == LogCreate(old(log), key, kind, role, content, status)
    {
      hide LogSound, Shows, Bounded, Remembered, WindowAppend;
      AppendEvent(kind, role, content, status, Some(key));
      CreateRefines(View(), log, key);
      streamEvents := streamEvents[key := |events| - 1];
      log := log.(positions := log.positions[key := |old(log).entries|]);
    }

    method Rewrite(key: Key, e: Event)
      requires Tracked() && key in streamEvents && streamEvents[key] < |events|
      requires e.sequence == events[streamEvents[key]].sequence && |e.content| <= MAXIMUM_CHARACTERS
      modifies this`events, this`log
      ensures key in old(log).positions && old(log).positions[key] < |old(log).entries|
      ensures Tracked() && log == LogRewrite(old(log), key, e)
    {
      LookupRefines(View(), log, key);
      RewriteStaysSound(log, key, e);
      RewriteRefines(View(), log, key, e);
      hide LogSound, Shows, LogRewrite;
      events := events[streamEvents[key] := e];
      log := LogRewrite(log, key, e);
    }

    method AppendStreamDelta(key: Key, role: string, delta: string)
      requires Valid()
      modifies this`events, this`streamEvents, this`nextSequence, this`log
      ensures Valid() && log == if delta == "" then old(log) else LogApply(old(log), Delta(key, role, delta))
    {
      if delta == "" {
        return;
      }
      LookupRefines(View(), log, key);
      hide LogSound, Shows;
      if key !in streamEvents {
        CreateStream(key, key.0 + ".stream", role, delta, "streaming");
      } else {
        var event := events[streamEvents[key]];
        Rewrite(key, event.(content := Bounded(event.content + delta), status := "streaming"));
      }
    }

    method SetStreamContent(key: Key, role: string, content: string, status: string)
      requires Valid()
      modifies this`events, this`streamEvents, this`nextSequence, this`log
      ensures Valid() && log == LogApply(old(log), Set(key, role, content, status))
    {
      LookupRefines(View(), log, key);
      hide LogSound, Shows;
      if key !in streamEvents {
        CreateStream(key, StreamKind(key, status), role, content, status);
      } else {
        var event := events[streamEvents[key]];
        Rewrite(key, event.(content := Bounded(content), status := status, kind := StreamKind(key, status)));
      }
    }

    // ---- turns ----------------------------------------------------------------------------

    /** Neither the flags of the turn nor the thread were touched. */
    twostate predicate Unflagged()
      reads this
    {
      cancelRequested == old(cancelRequested) && timeoutRequested == old(timeoutRequested) && threadKnown == old(threadKnown)
    }

    method ForgetStreams()
      requires Tracked()
      modifies this`streamEvents, this`log
      ensures Tracked() && streamEvents == map[] && log == old(log).(positions := map[])
    {
      ForgetRefines(View(), log);
      hide LogSound, Shows;
      streamEvents := map[];
      log := log.(positions := map[]);
    }

    /** The first half of start_turn: the turn is running and has no identifier yet. */
    method BeginTurn(prompt: string) returns (ok: bool)
      requires Valid()
      modifies this
      ensures Valid() && ok == (old(state) != Running)
      ensures ok ==> state == Running && activeTurn.None? && streamEvents == map[] && log == LogApply(old(log), StartTurn(prompt))
      ensures ok ==> threadKnown && !cancelRequested && !timeoutRequested && lastError.None?
      ensures !ok ==> Unflagged() && log == old(log) && state == old(state) && activeTurn == old(activeTurn) && lastError == old(lastError)
    {
      if state == Running {
        return false;
      }
      state, activeTurn, threadKnown, lastError := Running, None, true, None;
      cancelRequested, timeoutRequested := false, false;
      ForgetStreams();
      hide LogSound, Shows, Bounded, LogAppend, WindowAppend;
      AppendEvent("user.message", "user", prompt, "submitted", None);
      assert streamEvents == map[];
      return true;
    }

    /** The turn's identifier arrives, by the response or by turn/started, in time or too late. */
    method TurnStarted(turn: string)
      requires Valid()
      modifies this`activeTurn
      ensures Valid() && activeTurn == if state == Running && turn != "" then Some(turn) else old(activeTurn)
    {
      if turn != "" && state == Running {
        activeTurn := Some(turn);
      }
    }

    method StartFailed(error: string)
      requires Valid()
      modifies this
      ensures Valid() && state == Failed && activeTurn.None? && lastError == Some(error) && Unflagged()
      ensures log == LogApply(old(log), Append("turn.failed", "system", error, "failed"))
    {
      hide LogSound, Shows, LogAppend, Bounded, WindowAppend;
      state, lastError, activeTurn := Failed, Some(error), None;
      AppendEvent("turn.failed", "system", error, "failed", None);
    }

    /** How a turn ends: a requested timeout outranks a cancellation, which outranks the provider's word. */
    function Ending(status: string): State
      reads this
    {
      if timeoutRequested then TimedOut
      else if cancelRequested || status == "interrupted" then Cancelled
      else if status == "completed" then Completed
      else Failed
    }

    /** turn/completed; `seconds` is the turn's limit as text, `error` empty when the provider gave none. */
    method CompleteTurn(status: string, error: string, seconds: string)
      requires Valid()
      modifies this
      ensures Valid() && activeTurn.None? && Unflagged()
      ensures old(timeoutRequested) ==>
                && state == TimedOut && lastError == old(lastError)
                && log == LogApply(old(log), Append("turn.timed_out", "system", "Codex turn 超过 " + seconds + " 秒，已中断。", "timed_out"))
      ensures !old(timeoutRequested) && (old(cancelRequested) || status == "interrupted") ==>
                && state == Cancelled && lastError == old(lastError)
                && log == LogApply(old(log), Append("turn.cancelled", "system", "Codex turn 已中断。", "cancelled"))
      ensures !old(timeoutRequested) && !old(cancelRequested) && status == "completed" ==>
                && state == Completed && lastError == old(lastError)
                && log == LogApply(old(log), Append("turn.completed", "system", "Codex turn 已完成。", "completed"))
      ensures !old(timeoutRequested) && !old(cancelRequested) && status != "interrupted" && status != "completed" ==>
                var why := if error == "" then "Codex turn failed" else error;
                && state == Failed && lastError == Some(why)
                && log == LogApply(old(log), Append("turn.failed", "system", why, "failed"))
    {
      hide LogSound, Shows, LogAppend, Bounded, WindowAppend;
      state, activeTurn := Ending(status), None;
      if state == TimedOut {
        AppendEvent("turn.timed_out", "system", "Codex turn 超过 " + seconds + " 秒，已中断。", "timed_out", None);
      } else if state == Cancelled {
        AppendEvent("turn.cancelled", "system", "Codex turn 已中断。", "cancelled", None);
      } else if state == Completed {
        AppendEvent("turn.completed", "system", "Codex turn 已完成。", "completed", None);
      } else {
        var why := if error == "" then "Codex turn failed" else error;
        lastError := Some(why);
        AppendEvent("turn.failed", "system", why, "failed", None);
      }
    }

    /** Only a running turn fails. */
    method FailRunning(kind: string, message: string)
      requires Valid()
      modifies this
      ensures Valid() && state == (if old(state) == Running then Failed else old(state))
      ensures log == if old(state) == Running then LogApply(old(log), Append(kind, "system", message, "failed")) else old(log)
      ensures activeTurn == if old(state) == Running then None else old(activeTurn)
      ensures lastError == if old(state) == Running then Some(message) else old(lastError)
      ensures Unflagged()
    {
      if state == Running {
        state, activeTurn, lastError := Failed, None, Some(message);
        AppendEvent(kind, "system", message, "failed", None);
      }
    }

    /** A protocol error is the last error whether or not a turn is running. */
    method RecordProtocolError(message: string)
      requires Valid()
      modifies this
      ensures Valid() && lastError == Some(message) && state == (if old(state) == Running then Failed else old(state))
      ensures log == if old(state) == Running then LogApply(old(log), Append("protocol.error", "system", message, "failed")) else old(log)
      ensures activeTurn == if old(state) == Running then None else old(activeTurn)
    {
      lastError := Some(message);
      FailRunning("protocol.error", message);
    }

    /** The end of a provider process; `obsolete` when the agent was closed or has another process by now. */
    method ProcessEnded(obsolete: bool)
      requires Valid()
      modifies this
      ensures Valid()
      ensures var fails := !obsolete && old(state) == Running;
              && state == (if fails then Failed else old(state))
              && activeTurn == (if fails then None else old(activeTurn))
              && lastError == (if fails then Some(PROVIDER_EXITED) else old(lastError))
              && log == if fails then LogApply(old(log), Append("provider.exited", "system", PROVIDER_EXITED, "failed")) else old(log)
    {
      if !obsolete {
        FailRunning("provider.exited", PROVIDER_EXITED);
      }
    }

    method Cancel(content: string) returns (r: Result<bool, ()>)
      requires Valid()
      modifies this
      ensures Valid() && state == old(state) && activeTurn == old(activeTurn)
      ensures r == if state != Running then Ok(false) else if activeTurn.None? || activeTurn == Some("") || !threadKnown then Err(()) else Ok(true)
      ensures log == if r == Ok(true) then LogApply(old(log), Append("turn.cancel.requested", "system", content, "interrupting")) else old(log)
      ensures cancelRequested == (old(cancelRequested) || r == Ok(true))
      ensures timeoutRequested == old(timeoutRequested) && threadKnown == old(threadKnown) && lastError == old(lastError)
    {
      hide LogSound, Shows, LogAppend, Bounded, WindowAppend;
      if state != Running {
        return Ok(false);
      }
      if !threadKnown || activeTurn.None? || activeTurn == Some("") {
        return Err(());
      }
      cancelRequested := true;
      AppendEvent("turn.cancel.requested", "system", content, "interrupting", None);
      return Ok(true);
    }

    /** The watchdog of one turn: a turn that ended, or another turn, is left alone. */
    method RequestTimeout(turn: string, content: string) returns (asked: bool)
      requires Valid()
      modifies this
      ensures Valid() && state == old(state) && activeTurn == old(activeTurn)
      ensures asked == (state == Running && activeTurn == Some(turn)) && timeoutRequested == (old(timeoutRequested) || asked)
      ensures cancelRequested == old(cancelRequested) && threadKnown == old(threadKnown) && lastError == old(lastError)
      ensures log == if asked then LogApply(old(log), Append("turn.timeout.requested", "system", content, "interrupting")) else old(log)
    {
      if activeTurn != Some(turn) || state != Running {
        return false;
      }
      hide LogSound, Shows, LogAppend, Bounded, WindowAppend;
      timeoutRequested := true;
      AppendEvent("turn.timeout.requested", "system", content, "interrupting", None);
      return true;
    }

    method NewSession() returns (ok: bool)
      requires Valid()
      modifies this
      ensures Valid() && ok == (old(state) != Running)
      ensures ok ==> log == EMPTY && events == [] && nextSequence == 1 && state == Idle && activeTurn.None?
      ensures ok ==> !threadKnown && !cancelRequested && !timeoutRequested && lastError.None?
      ensures !ok ==> log == old(log) && state == old(state) && activeTurn == old(activeTurn) && Unflagged() && lastError == old(lastError)
    {
      if state == Running {
        return false;
      }
      threadKnown, activeTurn, state := false, None, Idle;
      events, streamEvents, nextSequence := [], map[], 1;
      lastError, cancelRequested, timeoutRequested := None, false, false;
      log := EMPTY;
      return true;
    }
  }
}
