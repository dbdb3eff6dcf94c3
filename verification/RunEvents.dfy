/**
 The event log of one Codex process and the threads that share it: the stdout reader, any number
 of cancel calls, and the monitor that seals the log and publishes the result.  The reader takes
 only the log's own lock, so it runs between any two statements of the monitor; cancel and the
 monitor exclude each other by the run's lock.  A digest is the thing it digests.
 */
module RunEvents {
  import opened Outcomes

  datatype Digest = OfEvent(run: string, sequence: nat, kind: string)

  datatype Event = Event(run: string, sequence: nat, kind: string, digest: Digest)

  const COMPLETED := "run.completed"
  const FAILED := "run.failed"
  const CANCELLED := "run.cancelled"
  const TIMED_OUT := "run.timed_out"

  predicate Terminal(kind: string) {
    kind == COMPLETED || kind == FAILED || kind == CANCELLED || kind == TIMED_OUT
  }

  function Seal(run: string, sequence: nat, kind: string): Event {
    Event(run, sequence, kind, OfEvent(run, sequence, kind))
  }

  predicate Closed(log: seq<Event>) {
    log != [] && Terminal(log[|log| - 1].kind)
  }

  function AppendIn(run: string, log: seq<Event>, kind: string): Option<seq<Event>> {
    if Closed(log) then None else Some(log + [Seal(run, |log| + 1, kind)])
  }

  /** RunEventBuffer.verify */
  predicate Verified(run: string, log: seq<Event>) {
    forall i | 0 <= i < |log| ::
      && log[i].run == run && log[i].sequence == i + 1
      && log[i].digest == OfEvent(log[i].run, log[i].sequence, log[i].kind)
      && (Terminal(log[i].kind) ==> i + 1 == |log|)
  }

  lemma AppendVerifies(run: string, log: seq<Event>, kind: string)
    requires Verified(run, log)
    ensures AppendIn(run, log, kind).Some? ==> Verified(run, AppendIn(run, log, kind).value)
  {
    if !Closed(log) {
      var log' := log + [Seal(run, |log| + 1, kind)];
      forall i | 0 <= i < |log|
        ensures !Terminal(log'[i].kind)
      {
        assert log'[i] == log[i];
        assert !(i + 1 == |log| && Terminal(log[i].kind));
      }
    }
  }

  class RunEventBuffer {
    const run: string
    var events: seq<Event>

    constructor (run: string)
      ensures this.run == run && events == [] && Verified(run, events)
    {
      this.run, events := run, [];
    }

    method Append(kind: string) returns (ok: bool)
      requires Verified(run, events)
      modifies this
      ensures Verified(run, events)
      ensures ok == AppendIn(run, old(events), kind).Some?
      ensures events == if ok then AppendIn(run, old(events), kind).value else old(events)
    {
      AppendVerifies(run, events, kind);
      if events != [] && Terminal(events[|events| - 1].kind) {
        return false;
      }
      events := events + [Seal(run, |events| + 1, kind)];
      return true;
    }

    method Verify() returns (ok: bool)
      ensures ok == Verified(run, events)
    {
      var k := 0;
      while k < |events|
        invariant 0 <= k <= |events|
        invariant forall i | 0 <= i < k ::
                    && events[i].run == run && events[i].sequence == i + 1
                    && events[i].digest == OfEvent(events[i].run, events[i].sequence, events[i].kind)
                    && (Terminal(events[i].kind) ==> i + 1 == |events|)
      {
        var e := events[k];
        if e.run != run || e.sequence != k + 1 {
          return false;
        }
        if e.digest != OfEvent(e.run, e.sequence, e.kind) {
          return false;
        }
        if Terminal(e.kind) && k + 1 != |events| {
          return false;
        }
        k := k + 1;
      }
      return true;
    }
  }

  // ---- what the reader appends ------------------------------------------------------------

  datatype Item = NoItem | Item(kind: string)

  /** _normalize_event: the name an output line is logged under. */
  function Normalized(source: string, item: Item): string {
    if source == "thread.started" then "agent.thread.started"
    else if source == "turn.started" then "agent.turn.started"
    else if source == "turn.completed" then "agent.turn.completed"
    else if source == "turn.failed" then "agent.turn.failed"
    else if source == "error" then "agent.error"
    else if (source == "item.started" || source == "item.completed") && item.Item? then
      var phase := if source == "item.started" then "started" else "completed";
      if item.kind == "command_execution" then "command." + phase
      else if item.kind == "file_change" then (if phase == "completed" then "file.changed" else "file.change.started")
      else if item.kind == "agent_message" then "agent.message." + phase
      else if item.kind == "plan" || item.kind == "plan_update" then (if phase == "completed" then "plan.proposed" else "plan.started")
      else "agent.item." + item.kind + "." + phase
    else "codex." + source
  }

  /** None is a line that is not JSON. */
  datatype Line = Invalid | Json(source: string, item: Item)

  function Logged(line: Line): string {
    match line
    case Invalid => "executor.output.invalid"
    case Json(source, item) => Normalized(source, item)
  }

  lemma TerminalTypesBeginWithR(kind: string)
    requires Terminal(kind)
    ensures kind != "" && kind[0] == 'r'
  {
  }

  /** Every prefix that a printed line is logged under begins with another letter. */
  lemma LoggedTypesDoNot(line: Line)
    ensures Logged(line) != "" && Logged(line)[0] != 'r'
  {
    hide Terminal;
    if line.Json? && line.item.Item? {
      var phase := if line.source == "item.started" then "started" else "completed";
      assert ("command." + phase)[0] == 'c' && ("agent.message." + phase)[0] == 'a';
      assert ("agent.item." + line.item.kind + "." + phase)[0] == 'a';
    }
    if line.Json? {
      assert ("codex." + line.source)[0] == 'c';
    }
  }

  /** Whatever the process prints, it cannot make the reader log a terminal event. */
  lemma ReaderNeverEndsTheLog(line: Line)
    ensures !Terminal(Logged(line))
  {
    hide Terminal, Logged;
    LoggedTypesDoNot(line);
    if Terminal(Logged(line)) {
      TerminalTypesBeginWithR(Logged(line));
    }
  }

  // ---- one run ----------------------------------------------------------------------------

  datatype Status = Running | Completed | Failed | Cancelled | TimedOut

  /** The monitor waits; holds the lock with its status decided; has appended; is done; or has died. */
  datatype Monitor = Waiting | Deciding(status: Status) | Sealed(status: Status) | Finished | Crashed

  datatype Result = Result(status: Status, exitCode: Option<int>, eventCount: nat)

  datatype State = State(
    run: string, startedAt: int, log: seq<Event>, exitCode: Option<int>, cancelRequested: bool, timedOut: bool,
    protocolError: bool, failureSeen: bool, monitor: Monitor, result: Option<Result>, deadlocked: bool)

  predicate LockFree(s: State) {
    !s.monitor.Deciding? && !s.monitor.Sealed?
  }

  function StatusOf(s: State): Status {
    if s.cancelRequested then Cancelled
    else if s.timedOut then TimedOut
    else if s.protocolError || s.failureSeen then Failed
    else if s.exitCode == Some(0) then Completed
    else Failed
  }

  function TerminalKind(status: Status): string {
    match status
    case Completed => COMPLETED
    case Cancelled => CANCELLED
    case TimedOut => TIMED_OUT
    case _ => FAILED
  }

  /** Flags the reader sets need the run's lock; appending needs only the log's. */
  datatype Step =
    | ReaderAppends(line: Line)
    | ReaderFlags(protocolError: bool, failure: bool)
    | ProcessExits(code: int)
    | TimesOut
    | CancelCalled
    | MonitorDecides
    | MonitorAppends
    | MonitorPublishes(finishedAt: int)

  function ExitCodeFor(s: State, status: Status): Option<int> {
    if status == Completed || status == Failed then s.exitCode else None
  }

  function Next(s: State, x: Step): State {
    match x
    case ReaderAppends(line) =>
      var r := AppendIn(s.run, s.log, Logged(line));
      if r.Some? then s.(log := r.value) else s
    case ReaderFlags(p, f) =>
      if LockFree(s) then s.(protocolError := s.protocolError || p, failureSeen := s.failureSeen || f) else s
    case ProcessExits(code) => if s.exitCode.None? then s.(exitCode := Some(code)) else s
    case TimesOut => if s.monitor == Waiting && s.exitCode.None? then s.(timedOut := true) else s
    case CancelCalled =>
      if !LockFree(s) || s.monitor == Finished || s.exitCode.Some? then s
      else
        var r := AppendIn(s.run, s.log, "run.cancel.requested");
        s.(cancelRequested := true, log := if r.Some? then r.value else s.log)
    case MonitorDecides =>
      if s.monitor == Waiting && s.exitCode.Some? then s.(monitor := Deciding(StatusOf(s))) else s
    case MonitorAppends =>
      if !s.monitor.Deciding? then s
      else
        var r := AppendIn(s.run, s.log, TerminalKind(s.monitor.status));
        // Refused, it would take the run's lock a second time.
        if r.Some? then s.(log := r.value, monitor := Sealed(s.monitor.status)) else s.(deadlocked := true)
    case MonitorPublishes(finishedAt) =>
      if !s.monitor.Sealed? then s
      else if !Verified(s.run, s.log) || finishedAt < s.startedAt then s.(monitor := Crashed)
      else s.(result := Some(Result(s.monitor.status, ExitCodeFor(s, s.monitor.status), |s.log|)), monitor := Finished)
  }

  function Run(s: State, steps: seq<Step>): State
    decreases |steps|
  {
    if steps == [] then s else Run(Next(s, steps[0]), steps[1..])
  }

  function Started(run: string, startedAt: int): State {
    State(run, startedAt, [Seal(run, 1, "run.started")], None, false, false, false, false, Waiting, None, false)
  }

  /** Before the monitor appends the log is open; from then on it is closed by the monitor's event. */
  ghost predicate Inv(s: State) {
    && Verified(s.run, s.log) && s.log != [] && !s.deadlocked
    && (s.monitor == Waiting || s.monitor.Deciding? ==> !Closed(s.log) && s.result.None?)
    && (s.monitor.Deciding? || s.monitor.Sealed? || s.monitor == Finished || s.monitor == Crashed ==> s.exitCode.Some?)
    && (s.monitor.Sealed? ==> Closed(s.log) && s.log[|s.log| - 1].kind == TerminalKind(s.monitor.status) && s.result.None?)
    && (s.monitor == Crashed ==> Closed(s.log) && s.result.None?)
    && (s.monitor == Finished ==>
          && s.result.Some? && Closed(s.log) && s.log[|s.log| - 1].kind == TerminalKind(s.result.value.status)
          && s.result.value.eventCount == |s.log|
          && (s.result.value.exitCode.Some? <==> s.result.value.status == Completed || s.result.value.status == Failed))
    && (s.monitor.Deciding? || s.monitor.Sealed? ==> s.monitor.status != Running)
  }

  lemma NotACancel()
    ensures !Terminal("run.cancel.requested")
  {
    assert |"run.cancel.requested"| != |COMPLETED| && |"run.cancel.requested"| != |FAILED|
           && |"run.cancel.requested"| != |CANCELLED| && |"run.cancel.requested"| != |TIMED_OUT|;
  }

  lemma StatusIsFinal(s: State)
    ensures StatusOf(s) != Running
  {
  }

  lemma AppendedKeeps(s: State, kind: string)
    requires Inv(s) && !Terminal(kind)
    ensures var r := AppendIn(s.run, s.log, kind); r.Some? ==> Inv(s.(log := r.value))
  {
    hide Terminal;
    AppendVerifies(s.run, s.log, kind);
  }

  lemma MonitorAppendKeeps(s: State)
    requires Inv(s)
    ensures Inv(Next(s, MonitorAppends))
  {
    hide Terminal, Normalized;
    if s.monitor.Deciding? {
      AppendVerifies(s.run, s.log, TerminalKind(s.monitor.status));
      assert Terminal(TerminalKind(s.monitor.status)) by { EveryStatusEnds(s.monitor.status); }
    }
  }

  lemma StepKeeps(s: State, x: Step)
    requires Inv(s)
    ensures Inv(Next(s, x))
  {
    hide Terminal, Normalized, StatusOf, AppendIn, Verified;
    match x {
      case ReaderAppends(line) =>
        ReaderNeverEndsTheLog(line);
        AppendedKeeps(s, Logged(line));
      case CancelCalled =>
        NotACancel();
        AppendedKeeps(s, "run.cancel.requested");
        CancelKeeps(s);
      case MonitorDecides => StatusIsFinal(s);
      case MonitorAppends => MonitorAppendKeeps(s);
      case _ =>
    }
  }

  lemma CancelKeeps(s: State)
    requires Inv(s)
    requires var r := AppendIn(s.run, s.log, "run.cancel.requested"); r.Some? ==> Inv(s.(log := r.value))
    ensures Inv(Next(s, CancelCalled))
  {
    hide AppendIn, Verified, Closed;
  }

  lemma EveryStatusEnds(status: Status)
    ensures Terminal(TerminalKind(status))
  {
  }

  lemma StartedIsInv(run: string, startedAt: int)
    ensures Inv(Started(run, startedAt))
  {
    assert |"run.started"| == 11 && |COMPLETED| == 13 && |FAILED| == 10 && |CANCELLED| == 13 && |TIMED_OUT| == 13;
  }

  lemma {:induction false} RunKeeps(s: State, steps: seq<Step>)
    requires Inv(s)
    ensures Inv(Run(s, steps))
    decreases |steps|
  {
    if steps == [] {
    } else {
      StepKeeps(s, steps[0]);
      RunKeeps(Next(s, steps[0]), steps[1..]);
    }
  }

  function TerminalCount(log: seq<Event>): nat {
    if log == [] then 0
    else TerminalCount(log[..|log| - 1]) + if Terminal(log[|log| - 1].kind) then 1 else 0
  }

  lemma {:induction false} OneTerminalAtMost(run: string, log: seq<Event>, n: nat)
    requires Verified(run, log) && n <= |log|
    ensures TerminalCount(log[..n]) == if n == |log| && Closed(log) then 1 else 0
    decreases n
  {
    if n > 0 {
      OneTerminalAtMost(run, log, n - 1);
      assert log[..n][..n - 1] == log[..n - 1] && log[..n][n - 1] == log[n - 1];
    }
  }

  /**
   In every interleaving the log verifies, the monitor never blocks on its own lock, and once there
   is a result the log has exactly one terminal event, last and of the result's status, and the
   result counts every event of it.
   */
  lemma LogIsSealedOnce(run: string, startedAt: int, steps: seq<Step>)
    ensures var s := Run(Started(run, startedAt), steps);
            && Verified(run, s.log) && !s.deadlocked && TerminalCount(s.log) <= 1
            && (s.result.Some? ==>
                  && TerminalCount(s.log) == 1 && s.log[|s.log| - 1].kind == TerminalKind(s.result.value.status)
                  && s.result.value.eventCount == |s.log|)
  {
    var start := Started(run, startedAt);
    StartedIsInv(run, startedAt);
    RunKeeps(start, steps);
    RunIsConstant(start, steps);
    var s := Run(start, steps);
    OneTerminalAtMost(run, s.log, |s.log|);
    assert s.log[..|s.log|] == s.log;
    ResultMeansFinished(start, steps);
  }

  lemma StepIsConstant(s: State, x: Step)
    ensures Next(s, x).run == s.run && Next(s, x).startedAt == s.startedAt
    ensures (s.result.Some? ==> s.monitor == Finished) ==> (Next(s, x).result.Some? ==> Next(s, x).monitor == Finished)
  {
    hide AppendIn, Logged, Verified, StatusOf, TerminalKind, ExitCodeFor, Terminal, Normalized, LockFree;
    match x {
      case ReaderAppends(_) =>
      case MonitorAppends =>
      case MonitorPublishes(_) =>
      case CancelCalled =>
      case _ => QuietStepIsConstant(s, x);
    }
  }

  lemma QuietStepIsConstant(s: State, x: Step)
    requires !x.ReaderAppends? && !x.MonitorAppends? && !x.MonitorPublishes? && !x.CancelCalled?
    ensures Next(s, x).run == s.run && Next(s, x).startedAt == s.startedAt && Next(s, x).result == s.result
    ensures s.monitor == Finished ==> Next(s, x).monitor == Finished
  {
    hide AppendIn, Logged, Verified, StatusOf, TerminalKind, ExitCodeFor, Terminal, Normalized, LockFree;
  }

  lemma {:induction false} RunIsConstant(s: State, steps: seq<Step>)
    ensures Run(s, steps).run == s.run && Run(s, steps).startedAt == s.startedAt
    decreases |steps|
  {
    hide Next;
    if steps != [] {
      StepIsConstant(s, steps[0]);
      RunIsConstant(Next(s, steps[0]), steps[1..]);
    }
  }

  lemma {:induction false} ResultMeansFinished(s: State, steps: seq<Step>)
    requires s.result.Some? ==> s.monitor == Finished
    ensures Run(s, steps).result.Some? ==> Run(s, steps).monitor == Finished
    decreases |steps|
  {
    hide Next;
    if steps != [] {
      StepIsConstant(s, steps[0]);
      ResultMeansFinished(Next(s, steps[0]), steps[1..]);
    }
  }

  /** Once the monitor has appended, nothing appends any more: the count stays right for ever. */
  lemma {:induction false} SealedForEver(s: State, steps: seq<Step>)
    requires Inv(s) && Closed(s.log)
    ensures Run(s, steps).log == s.log
    ensures s.result.Some? && s.monitor == Finished ==> Run(s, steps).result == s.result
    decreases |steps|
  {
    if steps == [] {
    } else {
      StepKeeps(s, steps[0]);
      SealedStep(s, steps[0]);
      SealedForEver(Next(s, steps[0]), steps[1..]);
    }
  }

  lemma SealedStep(s: State, x: Step)
    requires Inv(s) && Closed(s.log)
    ensures Next(s, x).log == s.log
    ensures s.monitor == Finished ==> Next(s, x).result == s.result && Next(s, x).monitor == Finished
  {
    hide Terminal, Normalized;
  }

  /**
   When the monitor of any run has sealed the log, the time it then reads decides whether there is ever
   a result: exactly when that time is not before the start.  The check is made on the seal, so a clock
   that went back in between leaves a closed log and no result, whatever happens later.
   */
  lemma ResultIffClockForward(run: string, startedAt: int, before: seq<Step>, finishedAt: int, later: seq<Step>)
    requires Run(Started(run, startedAt), before).monitor.Sealed?
    ensures var s := Run(Started(run, startedAt), before);
            var s' := Run(Next(s, MonitorPublishes(finishedAt)), later);
            && (s'.result.Some? <==> startedAt <= finishedAt)
            && s'.log == s.log && Closed(s.log)
            && (s'.result.Some? ==> s'.result.value.status == s.monitor.status && s'.result.value.eventCount == |s'.log|)
  {
    var s := Run(Started(run, startedAt), before);
    StartedIsInv(run, startedAt);
    RunKeeps(Started(run, startedAt), before);
    RunIsConstant(Started(run, startedAt), before);
    StepKeeps(s, MonitorPublishes(finishedAt));
    var s' := Next(s, MonitorPublishes(finishedAt));
    SealedForEver(s', later);
    if finishedAt < startedAt {
      CrashedForEver(s', later);
    }
  }

  /** Such a run exists: a process that printed nothing and exited with 0, and a clock one tick back. */
  lemma ClockThatWentBack(run: string, startedAt: int, later: seq<Step>)
    ensures var steps := [ProcessExits(0), MonitorDecides, MonitorAppends, MonitorPublishes(startedAt - 1)];
            Run(Run(Started(run, startedAt), steps), later).result.None?
  {
    var before := [ProcessExits(0), MonitorDecides, MonitorAppends];
    var s0 := Started(run, startedAt);
    StartedIsInv(run, startedAt);
    var s1, s2 := Next(s0, before[0]), Next(Next(s0, before[0]), before[1]);
    StepKeeps(s0, before[0]);
    StepKeeps(s1, before[1]);
    assert s2.monitor.Deciding? && !Closed(s2.log);
    var s3 := Next(s2, before[2]);
    assert s3.monitor.Sealed?;
    assert before[1..] == [MonitorDecides, MonitorAppends] && before[1..][1..] == [MonitorAppends];
    assert Run(s2, [MonitorAppends]) == Run(s3, []) == s3;
    assert Run(s0, before) == s3;
    var steps := before + [MonitorPublishes(startedAt - 1)];
    assert steps == [ProcessExits(0), MonitorDecides, MonitorAppends, MonitorPublishes(startedAt - 1)];
    RunConcat(s0, before, [MonitorPublishes(startedAt - 1)]);
    assert Run(s3, [MonitorPublishes(startedAt - 1)]) == Next(s3, MonitorPublishes(startedAt - 1));
    ResultIffClockForward(run, startedAt, before, startedAt - 1, later);
  }

  lemma {:induction false} RunConcat(s: State, a: seq<Step>, b: seq<Step>)
    ensures Run(s, a + b) == Run(Run(s, a), b)
    decreases |a|
  {
    hide Next;
    if a == [] {
      assert a + b == b;
    } else {
      assert (a + b)[1..] == a[1..] + b;
      RunConcat(Next(s, a[0]), a[1..], b);
    }
  }

  lemma {:induction false} CrashedForEver(s: State, steps: seq<Step>)
    requires Inv(s) && s.monitor == Crashed
    ensures Run(s, steps).result.None?
    decreases |steps|
  {
    if steps == [] {
    } else {
      StepKeeps(s, steps[0]);
      CrashedForEver(Next(s, steps[0]), steps[1..]);
    }
  }

  // ---- what is logged and how a run ends --------------------------------------------------

  /** Each event is the next of its run, and the log takes none after one of the four that end it. */
  lemma AppendedIff(run: string, log: seq<Event>, kind: string)
    ensures AppendIn(run, log, kind).Some? <==>
            (log == [] || log[|log| - 1].kind !in {"run.completed", "run.failed", "run.cancelled", "run.timed_out"})
    ensures AppendIn(run, log, kind).Some? ==>
              AppendIn(run, log, kind).value == log + [Event(run, |log| + 1, kind, OfEvent(run, |log| + 1, kind))]
  {
  }

  /**
   How a run ends, at the moment the monitor decides: cancelled if that was asked for, else timed out,
   else failed for a protocol error, a failed turn or a bad exit, else completed; and what the log and
   the result then say.
   */
  lemma EndsAsItWent(run: string, startedAt: int, before: seq<Step>, finishedAt: int)
    requires var s := Run(Started(run, startedAt), before); s.monitor == Waiting && s.exitCode.Some? && startedAt <= finishedAt
    ensures var s := Run(Started(run, startedAt), before);
            var s' := Next(Next(Next(s, MonitorDecides), MonitorAppends), MonitorPublishes(finishedAt));
            && s'.result.Some?
            && var r := s'.result.value;
            && (r.status == Cancelled <==> s.cancelRequested)
            && (r.status == TimedOut <==> !s.cancelRequested && s.timedOut)
            && (r.status == Completed <==>
                  !s.cancelRequested && !s.timedOut && !s.protocolError && !s.failureSeen && s.exitCode == Some(0))
            && (r.status == Failed <==>
                  !s.cancelRequested && !s.timedOut && (s.protocolError || s.failureSeen || s.exitCode != Some(0)))
            && r.exitCode == (if r.status == Completed || r.status == Failed then s.exitCode else None)
            && |s'.log| == |s.log| + 1 == r.eventCount
            && s'.log[|s.log|].kind == (match r.status
                                        case Completed => "run.completed"
                                        case Cancelled => "run.cancelled"
                                        case TimedOut => "run.timed_out"
                                        case _ => "run.failed")
  {
    var s := Run(Started(run, startedAt), before);
    StartedIsInv(run, startedAt);
    RunKeeps(Started(run, startedAt), before);
    RunIsConstant(Started(run, startedAt), before);
    var d := Next(s, MonitorDecides);
    StepKeeps(s, MonitorDecides);
    var a := Next(d, MonitorAppends);
    StepKeeps(d, MonitorAppends);
    assert !Closed(s.log);
    hide Terminal, Verified, Run;
  }

  /** From the moment a cancellation is accepted, the run is on its way to end as cancelled. */
  ghost predicate WillBeCancelled(s: State) {
    match s.monitor
    case Waiting => s.cancelRequested
    case Deciding(status) => status == Cancelled
    case Sealed(status) => status == Cancelled
    case Finished => s.result.Some? && s.result.value.status == Cancelled
    case Crashed => s.result.None?
  }

  lemma StaysCancelled(s: State, x: Step)
    requires Inv(s) && WillBeCancelled(s)
    ensures WillBeCancelled(Next(s, x))
  {
    hide AppendIn, Logged, Verified, TerminalKind, ExitCodeFor, Terminal, Normalized;
  }

  lemma {:induction false} RunStaysCancelled(s: State, steps: seq<Step>)
    requires Inv(s) && WillBeCancelled(s)
    ensures WillBeCancelled(Run(s, steps)) && Inv(Run(s, steps))
    decreases |steps|
  {
    hide Next, Inv, WillBeCancelled;
    if steps != [] {
      StaysCancelled(s, steps[0]);
      StepKeeps(s, steps[0]);
      RunStaysCancelled(Next(s, steps[0]), steps[1..]);
    }
  }

  /** A cancellation of a live process that finds the lock free is logged, and whatever happens then, no other status is published. */
  lemma CancelledRunsEndCancelled(run: string, startedAt: int, before: seq<Step>, after: seq<Step>)
    requires var s := Run(Started(run, startedAt), before); LockFree(s) && s.exitCode.None?
    ensures var s := Run(Started(run, startedAt), before);
            var c, s' := Next(s, CancelCalled), Run(Next(s, CancelCalled), after);
            && c.log == s.log + [Event(run, |s.log| + 1, "run.cancel.requested", OfEvent(run, |s.log| + 1, "run.cancel.requested"))]
            && (s'.result.Some? ==> s'.result.value.status == Cancelled)
  {
    var s := Run(Started(run, startedAt), before);
    StartedIsInv(run, startedAt);
    RunKeeps(Started(run, startedAt), before);
    RunIsConstant(Started(run, startedAt), before);
    StepKeeps(s, CancelCalled);
    assert s.monitor == Waiting && !Closed(s.log);
    RunStaysCancelled(Next(s, CancelCalled), after);
    hide Run, Verified, Terminal;
  }

  /** What the other events of a run leave: flags stay up once raised, the exit code is the first one, a timeout needs a live process. */
  lemma FlagsAreRaised(s: State, p: bool, f: bool, code: int)
    ensures LockFree(s) ==> Next(s, ReaderFlags(p, f)) == s.(protocolError := s.protocolError || p, failureSeen := s.failureSeen || f)
    ensures Next(s, ProcessExits(code)) == if s.exitCode == None then s.(exitCode := Some(code)) else s
    ensures s.monitor == Waiting && s.exitCode == None ==> Next(s, TimesOut) == s.(timedOut := true)
    ensures !(s.monitor == Waiting && s.exitCode == None) ==> Next(s, TimesOut) == s
    ensures !LockFree(s) || s.monitor == Finished || s.exitCode.Some? ==> Next(s, CancelCalled) == s
  {
  }

  /** The names that printed lines are logged under. */
  lemma LoggedNames(item: Item)
    ensures Logged(Invalid) == "executor.output.invalid"
    ensures Logged(Json("thread.started", item)) == "agent.thread.started" && Logged(Json("turn.started", item)) == "agent.turn.started"
    ensures Logged(Json("turn.completed", item)) == "agent.turn.completed" && Logged(Json("turn.failed", item)) == "agent.turn.failed"
    ensures Logged(Json("error", item)) == "agent.error"
  {
  }

  lemma LoggedItems()
    ensures Logged(Json("item.started", Item("command_execution"))) == "command.started"
    ensures Logged(Json("item.completed", Item("command_execution"))) == "command.completed"
    ensures Logged(Json("item.started", Item("file_change"))) == "file.change.started"
    ensures Logged(Json("item.completed", Item("file_change"))) == "file.changed"
  {
  }

  lemma LoggedPlans()
    ensures Logged(Json("item.completed", Item("agent_message"))) == "agent.message.completed"
    ensures Logged(Json("item.started", Item("plan"))) == "plan.started" && Logged(Json("item.completed", Item("plan_update"))) == "plan.proposed"
  {
  }

  lemma OtherLinesKeepTheirSource(source: string, item: Item)
    ensures source !in {"thread.started", "turn.started", "turn.completed", "turn.failed", "error", "item.started", "item.completed"} ==>
              Logged(Json(source, item)) == "codex." + source
  {
  }

  // ---- the threads ------------------------------------------------------------------------

  class CodexRun {
    const events: RunEventBuffer
    const startedAt: int
    var exitCode: Option<int>
    var cancellationRequested: bool
    var timedOut: bool
    var protocolError: bool
    var failedEventSeen: bool
    var result: Option<Result>
    ghost var monitor: Monitor

    constructor (run: string, at: int)
      ensures Valid() && Snapshot() == Started(run, at) && fresh(events)
    {
      events := new RunEventBuffer(run);
      startedAt := at;
      exitCode, cancellationRequested, timedOut, protocolError, failedEventSeen, result := None, false, false, false, false, None;
      monitor := Waiting;
      new;
      var _ := events.Append("run.started");
      StartedIsInv(run, at);
    }

    ghost function Snapshot(): State
      reads this, events
    {
      State(events.run, startedAt, events.events, exitCode, cancellationRequested, timedOut, protocolError, failedEventSeen,
                      monitor, result, false)
    }

    ghost predicate Valid()
      reads this, events
    {
      Inv(Snapshot())
    }

    /** _append_event_safely outside the run's lock: a refused event only raises a flag. */
    method AppendEventSafely(line: Line)
      requires Valid() && LockFree(Snapshot())
      modifies this`protocolError, events
      ensures Valid()
      ensures Snapshot() == if Closed(old(events.events)) then Next(old(Snapshot()), ReaderFlags(true, false))
                         else Next(old(Snapshot()), ReaderAppends(line))
    {
      StepKeeps(Snapshot(), ReaderAppends(line));
      StepKeeps(Snapshot(), ReaderFlags(true, false));
      var ok := events.Append(Logged(line));
      if !ok {
        protocolError := true;
      }
    }

    /** Lines read while the monitor holds the run's lock: events may come, flags must wait. */
    method ReaderDuringMonitor(lines: seq<Line>)
      requires Valid()
      modifies events
      ensures Valid() && (Closed(old(events.events)) ==> events.events == old(events.events))
      ensures Closed(events.events) <==> Closed(old(events.events))
    {
      for k := 0 to |lines|
        invariant Valid() && (Closed(old(events.events)) ==> events.events == old(events.events))
        invariant Closed(events.events) <==> Closed(old(events.events))
      {
        StepKeeps(Snapshot(), ReaderAppends(lines[k]));
        ReaderNeverEndsTheLog(lines[k]);
        hide Terminal, Normalized, Inv;
        var _ := events.Append(Logged(lines[k]));
      }
    }

    method Cancel() returns (requested: bool)
      requires Valid() && LockFree(Snapshot())
      modifies this`cancellationRequested, events
      ensures Valid() && Snapshot() == Next(old(Snapshot()), CancelCalled)
      ensures requested == (old(monitor) != Finished && exitCode.None?)
    {
      StepKeeps(Snapshot(), CancelCalled);
      if result.Some? || exitCode.Some? {
        return false;
      }
      cancellationRequested := true;
      var _ := events.Append("run.cancel.requested");
      return true;
    }

    method DecideStatus() returns (status: Status)
      requires Valid() && monitor == Waiting && exitCode.Some?
      modifies this`monitor
      ensures Valid() && monitor == Deciding(status) && status == StatusOf(old(Snapshot()))
    {
      StepKeeps(Snapshot(), MonitorDecides);
      if cancellationRequested {
        status := Cancelled;
      } else if timedOut {
        status := TimedOut;
      } else if protocolError || failedEventSeen {
        status := Failed;
      } else if exitCode == Some(0) {
        status := Completed;
      } else {
        status := Failed;
      }
      monitor := Deciding(status);
    }

    /** Building the result validates that the run did not finish before it started. */
    method BuildResult(status: Status, finishedAt: int)
      requires Valid() && monitor == Sealed(status)
      modifies this`result, this`monitor
      ensures Valid() && Snapshot() == Next(old(Snapshot()), MonitorPublishes(finishedAt))
      ensures result.Some? <==> startedAt <= finishedAt
      ensures result.Some? ==> monitor == Finished && result.value.status == status && result.value.eventCount == |events.events|
    {
      hide Terminal, Normalized, Logged, AppendIn, StatusOf;
      StepKeeps(Snapshot(), MonitorPublishes(finishedAt));
      var verified := events.Verify();
      if verified && startedAt <= finishedAt {
        result := Some(Result(status, if status == Completed || status == Failed then exitCode else None, |events.events|));
        monitor := Finished;
      } else {
        monitor := Crashed;
      }
    }

    /** The monitor's critical section, with the reader at work between its statements. */
    method PublishResult(lines: seq<Line>, more: seq<Line>, finishedAt: int)
      requires Valid() && monitor == Waiting && exitCode.Some?
      modifies this`result, this`monitor, events
      ensures Valid() && Closed(events.events) && (result.Some? <==> startedAt <= finishedAt)
      ensures result.Some? ==> monitor == Finished && result.value.status == StatusOf(old(Snapshot()))
                               && result.value.eventCount == |events.events|
    {
      hide Inv, Closed, Next;
      var status := DecideStatus();
      ReaderDuringMonitor(lines);
      SealLog(status);
      ReaderDuringMonitor(more);
      BuildResult(status, finishedAt);
    }

    method SealLog(status: Status)
      requires Valid() && monitor == Deciding(status)
      modifies this`monitor, events
      ensures Valid() && monitor == Sealed(status) && Closed(events.events)
    {
      StepKeeps(Snapshot(), MonitorAppends);
      EveryStatusEnds(status);
      var ok := events.Append(TerminalKind(status));
      monitor := Sealed(status);
    }
  }
}
