/**
 The durable launch of one provider start key: an API process that writes a state directory file
 by file and may die between any two, and any number of detached workers that race for an
 exclusively created lock file.  Files are replaced atomically, so a file is absent or whole.
 */
module DurableLaunch {
  import opened Outcomes

  type Envelope = seq<string>

  datatype Reference = Reference(request: string, evidence: nat, startedAt: int)

  datatype Status = Succeeded | Failed

  /** A worker that lost the race for the lock, or ended, or died does nothing more. */
  datatype Worker = Spawned | Locked | Claimed | Launched | Done | Lost | Dead

  /**
   `launches` logs every agent process ever started, with the prompt and envelope it was given;
   `winner` is the worker that created the lock.
   */
  datatype World = World(
    request: Option<string>, prompt: Option<string>, launch: Option<Envelope>, reference: Option<Reference>,
    winner: Option<nat>, claim: Option<nat>, terminal: Option<Status>,
    workers: seq<Worker>, launches: seq<(string, Envelope)>)

  const EMPTY := World(None, None, None, None, None, None, None, [], [])

  /** Files the API writes, in its order; each only when it is absent and the one before is there. */
  datatype ApiStep = WriteRequest(request: string) | WritePrompt(prompt: string) | WriteLaunch(launch: Envelope)
                   | WriteReference(reference: Reference) | Spawn

  datatype WorkerStep = Lock | Claim | Launch | Fail | Finish(exitCode: int, timedOut: bool, protocolFailed: bool) | Die

  datatype Event = Api(step: ApiStep) | Work(i: nat, act: WorkerStep)

  predicate MayApi(w: World, x: ApiStep) {
    match x
    case WriteRequest(_) => w.request.None?
    case WritePrompt(_) => w.request.Some? && w.prompt.None?
    case WriteLaunch(_) => w.prompt.Some? && w.launch.None?
    case WriteReference(r) => w.launch.Some? && w.reference.None? && w.request == Some(r.request)
    case Spawn => w.request.Some? && w.prompt.Some? && w.launch.Some? && w.reference.Some?
  }

  function ApiNext(w: World, x: ApiStep): World {
    match x
    case WriteRequest(r) => w.(request := Some(r))
    case WritePrompt(p) => w.(prompt := Some(p))
    case WriteLaunch(e) => w.(launch := Some(e))
    case WriteReference(r) => w.(reference := Some(r))
    case Spawn => w.(workers := w.workers + [Spawned])
  }

  predicate MayWork(w: World, i: nat, act: WorkerStep) {
    i < |w.workers|
    && match act
       case Lock => w.workers[i] == Spawned
       case Claim => w.workers[i] == Locked
       case Launch => w.workers[i] == Claimed && w.prompt.Some? && w.launch.Some?
       case Fail => w.workers[i] == Claimed || w.workers[i] == Launched
       case Finish(_, _, _) => w.workers[i] == Launched
       case Die => true
  }

  function WorkNext(w: World, i: nat, act: WorkerStep): World
    requires MayWork(w, i, act)
  {
    match act
    case Lock => if w.winner.None? then w.(winner := Some(i), workers := w.workers[i := Locked]) else w.(workers := w.workers[i := Lost])
    case Claim => w.(claim := Some(i), workers := w.workers[i := Claimed])
    case Launch => w.(launches := w.launches + [(w.prompt.value, w.launch.value)], workers := w.workers[i := Launched])
    case Fail => w.(terminal := Some(Failed), workers := w.workers[i := Done])
    case Finish(exitCode, timedOut, protocolFailed) =>
      var succeeded := exitCode == 0 && !timedOut && !protocolFailed;
      w.(terminal := Some(if succeeded then Succeeded else Failed), workers := w.workers[i := Done])
    case Die => w.(workers := w.workers[i := Dead])
  }

  predicate May(w: World, e: Event) {
    match e
    case Api(x) => MayApi(w, x)
    case Work(i, act) => MayWork(w, i, act)
  }

  function Next(w: World, e: Event): World {
    if !May(w, e) then w
    else match e
      case Api(x) => ApiNext(w, x)
      case Work(i, act) => WorkNext(w, i, act)
  }

  function Run(w: World, events: seq<Event>): World
    decreases |events|
  {
    if events == [] then w else Run(Next(w, events[0]), events[1..])
  }

  // ---- what every step keeps --------------------------------------------------------------

  predicate Prepared(w: World) {
    w.request.Some? && w.prompt.Some? && w.launch.Some? && w.reference.Some?
  }

  predicate PastLock(p: Worker) {
    p == Locked || p == Claimed || p == Launched || p == Done
  }

  ghost predicate Inv(w: World) {
    && (w.prompt.Some? ==> w.request.Some?) && (w.launch.Some? ==> w.prompt.Some?) && (w.reference.Some? ==> w.launch.Some?)
    && (w.reference.Some? ==> w.request == Some(w.reference.value.request))
    && (w.workers != [] ==> Prepared(w))
    && (w.winner.Some? ==> w.winner.value < |w.workers|)
    && (forall i | 0 <= i < |w.workers| && PastLock(w.workers[i]) :: w.winner == Some(i))
    && (forall i | 0 <= i < |w.workers| && w.winner == Some(i) :: w.workers[i] != Spawned && w.workers[i] != Lost)
    && (w.claim.Some? ==> w.claim == w.winner && w.workers[w.claim.value] != Locked)
    && (forall i | 0 <= i < |w.workers| && (w.workers[i] == Claimed || w.workers[i] == Launched || w.workers[i] == Done) :: w.claim.Some?)
    && (w.terminal.Some? ==> w.claim.Some? && (w.workers[w.claim.value] == Done || w.workers[w.claim.value] == Dead))
    && |w.launches| <= 1
    && (w.launches != [] ==> w.claim.Some? && w.workers[w.claim.value] != Claimed
                             && w.prompt == Some(w.launches[0].0) && w.launch == Some(w.launches[0].1))
  }

  lemma ApiKeeps(w: World, x: ApiStep)
    requires Inv(w) && MayApi(w, x)
    ensures Inv(ApiNext(w, x))
  {
  }

  lemma WorkKeeps(w: World, i: nat, act: WorkerStep)
    requires Inv(w) && MayWork(w, i, act)
    ensures Inv(WorkNext(w, i, act))
  {
  }

  lemma StepKeeps(w: World, e: Event)
    requires Inv(w)
    ensures Inv(Next(w, e))
  {
    hide Inv, ApiNext, WorkNext;
    if May(w, e) {
      match e {
        case Api(x) => ApiKeeps(w, x);
        case Work(i, act) => WorkKeeps(w, i, act);
      }
    }
  }

  /** What is on disk stays as it was first written; workers and launches only accumulate. */
  ghost predicate Later(a: World, b: World) {
    && (a.request.Some? ==> b.request == a.request) && (a.prompt.Some? ==> b.prompt == a.prompt)
    && (a.launch.Some? ==> b.launch == a.launch) && (a.reference.Some? ==> b.reference == a.reference)
    && (a.winner.Some? ==> b.winner == a.winner) && (a.claim.Some? ==> b.claim == a.claim)
    && (a.terminal.Some? ==> b.terminal == a.terminal)
    && |a.workers| <= |b.workers| && a.launches <= b.launches
  }

  lemma StepIsLater(w: World, e: Event)
    requires Inv(w)
    ensures Later(w, Next(w, e))
  {
  }

  lemma {:induction false} RunIsLater(w: World, events: seq<Event>)
    requires Inv(w)
    ensures Inv(Run(w, events)) && Later(w, Run(w, events))
    decreases |events|
  {
    hide Inv;
    if events == [] {
    } else {
      StepKeeps(w, events[0]);
      StepIsLater(w, events[0]);
      RunIsLater(Next(w, events[0]), events[1..]);
    }
  }

  /**
   At most once: over any run of the API, restarted anywhere, and any workers, at most one agent
   process starts, and it gets the prompt and the envelope that were first written for the key.
   */
  lemma LaunchedAtMostOnce(before: seq<Event>, after: seq<Event>)
    ensures var early, late := Run(EMPTY, before), Run(Run(EMPTY, before), after);
            && |late.launches| <= 1
            && (late.launches != [] && early.prompt.Some? && early.launch.Some? ==>
                  late.launches == [(early.prompt.value, early.launch.value)])
            && (early.terminal.Some? ==> late.terminal == early.terminal && late.launches == early.launches)
  {
    RunIsLater(EMPTY, before);
    RunIsLater(Run(EMPTY, before), after);
    if Run(EMPTY, before).terminal.Some? {
      TerminalIsFinal(Run(EMPTY, before), after);
    }
  }

  lemma {:induction false} TerminalIsFinal(w: World, events: seq<Event>)
    requires Inv(w) && w.terminal.Some?
    ensures Run(w, events).launches == w.launches && Run(w, events).terminal == w.terminal
    decreases |events|
  {
    if events == [] {
    } else {
      StepKeeps(w, events[0]);
      StepIsLater(w, events[0]);
      TerminalIsFinal(Next(w, events[0]), events[1..]);
    }
  }

  // ---- what the terminal file and the launches say ----------------------------------------

  /** The worker that launched the agent sees it end well. */
  predicate Succeeds(w: World, e: Event) {
    e.Work? && e.i < |w.workers| && w.workers[e.i] == Launched && e.act == Finish(0, false, false)
  }

  /** It sees the agent end in any other way, or the worker itself fails after its claim. */
  predicate Fails(w: World, e: Event) {
    && e.Work? && e.i < |w.workers|
    && ((e.act == Fail && w.workers[e.i] in {Claimed, Launched})
        || (e.act.Finish? && e.act != Finish(0, false, false) && w.workers[e.i] == Launched))
  }

  predicate Starts(w: World, e: Event) {
    e.Work? && e.i < |w.workers| && w.workers[e.i] == Claimed && e.act == Launch
  }

  lemma StepSays(w: World, e: Event)
    requires Inv(w)
    ensures Succeeds(w, e) ==> w.terminal.None? && Next(w, e).terminal == Some(Succeeded)
    ensures Fails(w, e) ==> w.terminal.None? && Next(w, e).terminal == Some(Failed)
    ensures !Succeeds(w, e) && !Fails(w, e) ==> Next(w, e).terminal == w.terminal
    ensures Starts(w, e) ==> w.launches == [] && w.terminal.None? && Next(w, e).launches != []
    ensures !Starts(w, e) ==> Next(w, e).launches == w.launches
  {
  }

  /** Some event of the history was of this kind when it happened. */
  predicate Happened(w: World, events: seq<Event>, kind: (World, Event) -> bool)
    decreases |events|
  {
    events != [] && (kind(w, events[0]) || Happened(Next(w, events[0]), events[1..], kind))
  }

  /** Over whole histories: the terminal file says how the agent, or its worker, ended, and is absent while neither has. */
  lemma {:induction false} TerminalTellsTheEnd(w: World, events: seq<Event>)
    requires Inv(w) && w.terminal.None?
    ensures Run(w, events).terminal == Some(Succeeded) <==> Happened(w, events, Succeeds)
    ensures Run(w, events).terminal == Some(Failed) <==> Happened(w, events, Fails)
    decreases |events|
  {
    hide Inv;
    if events == [] {
    } else {
      var next, rest := Next(w, events[0]), events[1..];
      StepSays(w, events[0]);
      StepKeeps(w, events[0]);
      if next.terminal.Some? {
        TerminalIsFinal(next, rest);
        NothingEndsTwice(next, rest);
        assert !(Succeeds(w, events[0]) && Fails(w, events[0]));
      } else {
        TerminalTellsTheEnd(next, rest);
      }
    }
  }

  lemma {:induction false} NothingEndsTwice(w: World, events: seq<Event>)
    requires Inv(w) && w.terminal.Some?
    ensures !Happened(w, events, Succeeds) && !Happened(w, events, Fails)
    decreases |events|
  {
    hide Inv;
    if events == [] {
    } else {
      StepSays(w, events[0]);
      StepKeeps(w, events[0]);
      NothingEndsTwice(Next(w, events[0]), events[1..]);
    }
  }

  /** An agent ran exactly if a worker got from its claim to the launch. */
  lemma {:induction false} LaunchedIffStarted(w: World, events: seq<Event>)
    requires Inv(w) && w.launches == []
    ensures Run(w, events).launches != [] <==> Happened(w, events, Starts)
    decreases |events|
  {
    hide Inv;
    if events == [] {
    } else {
      StepSays(w, events[0]);
      StepKeeps(w, events[0]);
      if Starts(w, events[0]) {
        RunIsLater(Next(w, events[0]), events[1..]);
      } else {
        LaunchedIffStarted(Next(w, events[0]), events[1..]);
      }
    }
  }

  // ---- the wedge --------------------------------------------------------------------------

  /** The lock was created, and the worker that created it died before it wrote its claim. */
  predicate Wedged(w: World) {
    w.winner.Some? && w.winner.value < |w.workers| && w.workers[w.winner.value] == Dead && w.claim.None?
  }

  lemma WedgeStep(w: World, e: Event)
    requires Inv(w) && Wedged(w)
    ensures Wedged(Next(w, e)) && Next(w, e).launches == w.launches == [] && Next(w, e).terminal.None?
  {
  }

  /** A wedged key stays wedged: no worker ever claims it, launches it or ends it. */
  lemma {:induction false} WedgedForEver(w: World, events: seq<Event>)
    requires Inv(w) && Wedged(w)
    ensures Wedged(Run(w, events)) && Run(w, events).terminal.None? && Run(w, events).launches == []
    decreases |events|
  {
    hide Inv;
    if events == [] {
      WedgeStep(w, Api(Spawn));
    } else {
      WedgeStep(w, events[0]);
      StepKeeps(w, events[0]);
      WedgedForEver(Next(w, events[0]), events[1..]);
    }
  }

  /** It happens: the first worker of a fully prepared key dies between its lock and its claim. */
  lemma WorkerThatDiesWedges(request: string, prompt: string, launch: Envelope, evidence: nat, at: int, later: seq<Event>)
    ensures var w := Run(EMPTY, DeathBeforeTheClaim(request, prompt, launch, evidence, at));
            && Prepared(w) && Wedged(w) && Wedged(Run(w, later)) && Run(w, later).launches == []
  {
    var events := DeathBeforeTheClaim(request, prompt, launch, evidence, at);
    var w1 := Next(EMPTY, events[0]);
    var w2 := Next(w1, events[1]);
    var w3 := Next(w2, events[2]);
    var w4 := Next(w3, events[3]);
    var w5 := Next(w4, events[4]);
    RunTwo(w5, events[5], events[6]);
    assert events[1..][1..][1..][1..][1..] == [events[5], events[6]];
    assert Run(w4, events[1..][1..][1..][1..]) == Run(w5, [events[5], events[6]]);
    assert Run(w2, events[1..][1..]) == Run(w3, events[1..][1..][1..]) == Run(w4, events[1..][1..][1..][1..]);
    assert Run(EMPTY, events) == Run(w1, events[1..]) == Run(w2, events[1..][1..]);
    WedgedForEver(Run(EMPTY, events), later);
  }

  function DeathBeforeTheClaim(request: string, prompt: string, launch: Envelope, evidence: nat, at: int): seq<Event> {
    [Api(WriteRequest(request)), Api(WritePrompt(prompt)), Api(WriteLaunch(launch)),
     Api(WriteReference(Reference(request, evidence, at))), Api(Spawn), Work(0, Lock), Work(0, Die)]
  }

  /**
   Exactly unless it is wedged, a prepared key that was never claimed can still run its agent, with
   the prompt and envelope on file, to either end.
   */
  lemma RunnableIffNotWedged(w: World, status: Status)
    requires Inv(w) && Prepared(w) && w.claim.None?
    ensures (exists events: seq<Event> {:trigger Run(w, events)} ::
               Run(w, events).terminal == Some(status) && Run(w, events).launches == [(w.prompt.value, w.launch.value)])
            <==> !Wedged(w)
  {
    if Wedged(w) {
      forall events: seq<Event>
        ensures Run(w, events).launches == []
      {
        WedgedForEver(w, events);
      }
    } else {
      var events := WayToTheEnd(w, status);
      assert Run(w, events).terminal == Some(status);
    }
  }

  /** Unless the key is wedged, a prepared key that was never claimed can still be, by spawning one more worker. */
  lemma ClaimableIffNotWedged(w: World)
    requires Inv(w) && Prepared(w) && w.claim.None?
    ensures (exists events: seq<Event> {:trigger Run(w, events)} :: Run(w, events).claim.Some?) <==> !Wedged(w)
  {
    if Wedged(w) {
      forall events: seq<Event>
        ensures Run(w, events).claim.None?
      {
        WedgedForEver(w, events);
      }
    } else {
      var events, i := WayToClaim(w);
      assert Run(w, events).claim.Some?;
    }
  }

  lemma RunTwo(w: World, a: Event, b: Event)
    ensures Run(w, [a]) == Next(w, a) && Run(w, [a, b]) == Next(Next(w, a), b)
  {
    assert [a][1..] == [] && [a, b][1..] == [b] && [b][1..] == [];
    assert Run(Next(w, a), [b]) == Next(Next(w, a), b);
  }

  lemma {:induction false} RunConcat(w: World, a: seq<Event>, b: seq<Event>)
    ensures Run(w, a + b) == Run(Run(w, a), b)
    decreases |a|
  {
    if a == [] {
      assert a + b == b;
    } else {
      assert (a + b)[0] == a[0] && (a + b)[1..] == a[1..] + b;
      RunConcat(Next(w, a[0]), a[1..], b);
    }
  }

  lemma WayToTheEnd(w: World, status: Status) returns (events: seq<Event>)
    requires Inv(w) && Prepared(w) && w.claim.None? && !Wedged(w)
    ensures Run(w, events).terminal == Some(status) && Run(w, events).launches == [(w.prompt.value, w.launch.value)]
  {
    var way, i := WayToClaim(w);
    var claimed := Run(w, way);
    RunIsLater(w, way);
    var end := Finish(if status == Succeeded then 0 else 1, false, false);
    events := way + [Work(i, Launch), Work(i, end)];
    RunConcat(w, way, [Work(i, Launch), Work(i, end)]);
    RunTwo(claimed, Work(i, Launch), Work(i, end));
  }

  lemma WayToClaim(w: World) returns (events: seq<Event>, i: nat)
    requires Inv(w) && Prepared(w) && w.claim.None? && !Wedged(w)
    ensures var w' := Run(w, events); w'.claim == Some(i) && i < |w'.workers| && w'.workers[i] == Claimed && w'.launches == []
  {
    if w.winner.Some? {
      i := w.winner.value;
      assert w.workers[i] == Locked;
      events := [Work(i, Claim)];
      RunTwo(w, Work(i, Claim), Work(i, Claim));
    } else {
      i := |w.workers|;
      var w1 := Next(w, Api(Spawn));
      var w2 := Next(w1, Work(i, Lock));
      events := [Api(Spawn), Work(i, Lock), Work(i, Claim)];
      assert events[1..] == [Work(i, Lock), Work(i, Claim)];
      RunTwo(w1, Work(i, Lock), Work(i, Claim));
      assert w2.workers[i] == Locked;
    }
  }

  lemma ReferenceFits(w: World)
    requires Inv(w) && w.reference.Some?
    ensures w.request == Some(w.reference.value.request)
  {
  }

  // ---- the executor -----------------------------------------------------------------------

  /** `argv` is what this process's configuration makes of the request. */
  datatype Request = Request(text: string, executable: bool, prompt: string, limit: Option<nat>, argv: Envelope)

  datatype Error = NotExecutable | KeyReused | PromptTooLong | PromptDrifted | EnvelopeDrifted | ForeignReference | NotClaimed

  /** A call returns, raises, or its process dies part way. */
  datatype Answer = Returned(reference: Reference) | Raised(error: Error) | Died

  class DurableTaskManagerCodexExecutor {
    var world: World

    constructor ()
      ensures world == EMPTY && Inv(world)
    {
      world := EMPTY;
    }

    /** One durable write, or one spawned worker. */
    method Put(x: ApiStep)
      requires Inv(world) && MayApi(world, x)
      modifies this
      ensures world == ApiNext(old(world), x) && Inv(world) && Later(old(world), world)
    {
      ApiKeeps(world, x);
      StepIsLater(world, Api(x));
      match x {
        case WriteRequest(r) => world := world.(request := Some(r));
        case WritePrompt(p) => world := world.(prompt := Some(p));
        case WriteLaunch(e) => world := world.(launch := Some(e));
        case WriteReference(r) => world := world.(reference := Some(r));
        case Spawn => world := world.(workers := world.workers + [Spawned]);
      }
    }

    /** What workers leave alone: the API's files and the number of workers; a wedge stays. */
    ghost predicate Undisturbed(before: World)
      reads this
    {
      && Later(before, world)
      && (world.request, world.prompt, world.launch, world.reference)
         == (before.request, before.prompt, before.launch, before.reference)
      && |world.workers| == |before.workers|
      && (Wedged(before) ==> Wedged(world))
    }

    method WorkerActs(i: nat, act: WorkerStep)
      requires Inv(world) && MayWork(world, i, act)
      modifies this
      ensures Inv(world) && Undisturbed(old(world))
    {
      WorkKeeps(world, i, act);
      StepIsLater(world, Work(i, act));
      if Wedged(world) {
        WedgeStep(world, Work(i, act));
      }
      world := WorkNext(world, i, act);
    }

    /** Any steps of any workers, between two statements of the API. */
    method Workers()
      requires Inv(world)
      modifies this
      ensures Inv(world) && Undisturbed(old(world))
    {
      hide Inv, WorkNext, Wedged;
      var n: nat :| true;
      for k := 0 to n
        invariant Inv(world) && Undisturbed(old(world))
      {
        var i: nat, act: WorkerStep :| true;
        if MayWork(world, i, act) {
          WorkerActs(i, act);
        }
      }
    }

    /** The call dies before its next write. */
    method Dies() returns (dies: bool)
    {
      dies :| true;
    }

    method PersistRequest(r: Request) returns (e: Option<Answer>)
      requires Inv(world)
      modifies this
      ensures Inv(world) && Later(old(world), world)
      ensures (world.workers, world.winner, world.claim) == old((world.workers, world.winner, world.claim))
      ensures e.Some? ==> !e.value.Returned?
      ensures e.None? ==> world.request == Some(r.text)
      ensures if old(world).request.Some?
              then world == old(world) && e == if world.request == Some(r.text) then None else Some(Raised(KeyReused))
              else if e.None? then world == old(world).(request := Some(r.text)) else e == Some(Died) && world == old(world)
    {
      if world.request.Some? {
        return if world.request != Some(r.text) then Some(Raised(KeyReused)) else None;
      }
      var dies := Dies();
      if dies {
        return Some(Died);
      }
      Put(WriteRequest(r.text));
      return None;
    }

    method PersistPrompt(r: Request) returns (e: Option<Answer>)
      requires Inv(world) && world.request == Some(r.text)
      modifies this
      ensures Inv(world) && Later(old(world), world)
      ensures (world.workers, world.winner, world.claim) == old((world.workers, world.winner, world.claim))
      ensures e.Some? ==> !e.value.Returned?
      ensures e.None? ==> world.prompt == Some(r.prompt)
      ensures if r.limit.None? || |r.prompt| > r.limit.value then world == old(world) && e == Some(Raised(PromptTooLong))
              else if old(world).prompt.Some?
              then world == old(world) && e == if world.prompt == Some(r.prompt) then None else Some(Raised(PromptDrifted))
              else if e.None? then world == old(world).(prompt := Some(r.prompt)) else e == Some(Died) && world == old(world)
    {
      if r.limit.None? || |r.prompt| > r.limit.value {
        return Some(Raised(PromptTooLong));
      }
      if world.prompt.Some? {
        return if world.prompt != Some(r.prompt) then Some(Raised(PromptDrifted)) else None;
      }
      var dies := Dies();
      if dies {
        return Some(Died);
      }
      Put(WritePrompt(r.prompt));
      return None;
    }

    method PersistLaunch(r: Request) returns (e: Option<Answer>)
      requires Inv(world) && world.prompt == Some(r.prompt)
      modifies this
      ensures Inv(world) && Later(old(world), world)
      ensures (world.workers, world.winner, world.claim) == old((world.workers, world.winner, world.claim))
      ensures e.Some? ==> !e.value.Returned?
      ensures e.None? ==> world.launch == Some(r.argv)
      ensures if old(world).launch.Some?
              then world == old(world) && e == if world.launch == Some(r.argv) then None else Some(Raised(EnvelopeDrifted))
              else if e.None? then world == old(world).(launch := Some(r.argv)) else e == Some(Died) && world == old(world)
    {
      if world.launch.Some? {
        return if world.launch != Some(r.argv) then Some(Raised(EnvelopeDrifted)) else None;
      }
      var dies := Dies();
      if dies {
        return Some(Died);
      }
      Put(WriteLaunch(r.argv));
      return None;
    }

    method PersistReference(r: Request, evidence: nat, now: int) returns (e: Option<Answer>)
      requires Inv(world) && world.request == Some(r.text) && world.launch.Some?
      modifies this
      ensures Inv(world) && Later(old(world), world)
      ensures (world.workers, world.winner, world.claim) == old((world.workers, world.winner, world.claim))
      ensures e.Some? ==> !e.value.Returned?
      ensures e.None? ==> world.reference.Some?
      ensures if old(world).reference.Some?
              then world == old(world) && e == if world.reference.value.request == r.text then None else Some(Raised(ForeignReference))
              else if e.None? then world == old(world).(reference := Some(Reference(r.text, evidence, now)))
              else e == Some(Died) && world == old(world)
    {
      if world.reference.Some? {
        return if world.reference.value.request != r.text then Some(Raised(ForeignReference)) else None;
      }
      var dies := Dies();
      if dies {
        return Some(Died);
      }
      Put(WriteReference(Reference(r.text, evidence, now)));
      return None;
    }

    /** Spawns a worker unless one claimed the launch, and waits a bounded time for a claim. */
    method EnsureWorker(polls: nat) returns (claimed: bool)
      requires Inv(world) && Prepared(world)
      modifies this
      ensures Inv(world) && Later(old(world), world)
      ensures |world.workers| == |old(world).workers| + if old(world).claim.Some? || old(world).terminal.Some? then 0 else 1
      ensures claimed ==> world.claim.Some?
      ensures old(Wedged(world)) ==> !claimed
      ensures old(world).claim.Some? || old(world).terminal.Some? ==> claimed && world == old(world)
    {
      if world.terminal.Some? || world.claim.Some? {
        return true;
      }
      if Wedged(world) {
        WedgeStep(world, Api(Spawn));
      }
      Put(Spawn);
      for k := 0 to polls
        invariant Inv(world) && Later(old(world), world) && |world.workers| == |old(world).workers| + 1
        invariant old(Wedged(world)) ==> Wedged(world)
      {
        Workers();
        if world.claim.Some? || world.terminal.Some? {
          return true;
        }
      }
      return false;
    }

    /** Each file that is there is the one this request would write, and its prompt fits. */
    predicate Agrees(w: World, r: Request) {
      && (w.request.Some? ==> w.request == Some(r.text))
      && r.limit.Some? && |r.prompt| <= r.limit.value
      && (w.prompt.Some? ==> w.prompt == Some(r.prompt))
      && (w.launch.Some? ==> w.launch == Some(r.argv))
      && (w.reference.Some? ==> w.reference.value.request == r.text)
    }

    /** The three files a worker starts from. */
    method PersistInputs(r: Request) returns (e: Option<Answer>)
      requires Inv(world)
      modifies this
      ensures Inv(world) && Later(old(world), world)
      ensures (world.workers, world.winner, world.claim) == old((world.workers, world.winner, world.claim))
      ensures e.Some? ==> !e.value.Returned?
      ensures e.None? ==> world.request == Some(r.text) && world.prompt == Some(r.prompt) && world.launch == Some(r.argv)
      ensures world.reference == old(world).reference
      ensures e.None? ==> r.limit.Some? && |r.prompt| <= r.limit.value
      ensures old(Agrees(world, r)) ==> e == None || e == Some(Died)
      ensures e == Some(Raised(KeyReused)) <==> old(world).request.Some? && old(world).request != Some(r.text)
      ensures e != Some(Raised(NotClaimed)) && e != Some(Raised(NotExecutable))
    {
      hide Inv;
      e := PersistRequest(r);
      if e.None? {
        e := PersistPrompt(r);
      }
      if e.None? {
        e := PersistLaunch(r);
      }
    }

    /** The four files, each written once or compared with what is there. */
    method Persist(r: Request, evidence: nat, now: int) returns (e: Option<Answer>)
      requires Inv(world)
      modifies this
      ensures Inv(world) && Later(old(world), world)
      ensures (world.workers, world.winner, world.claim) == old((world.workers, world.winner, world.claim))
      ensures e.Some? ==> !e.value.Returned?
      ensures e.None? ==> Prepared(world) && world.request == Some(r.text) && world.prompt == Some(r.prompt) && world.launch == Some(r.argv)
      ensures e.None? ==> r.limit.Some? && |r.prompt| <= r.limit.value
      ensures e.None? && old(world).reference.None? ==> world.reference == Some(Reference(r.text, evidence, now))
      ensures old(Agrees(world, r)) ==> e == None || e == Some(Died)
      ensures e == Some(Raised(KeyReused)) <==> old(world).request.Some? && old(world).request != Some(r.text)
      ensures e != Some(Raised(NotClaimed)) && e != Some(Raised(NotExecutable))
    {
      hide Inv;
      e := PersistInputs(r);
      if e.None? {
        e := PersistReference(r, evidence, now);
      }
    }

    /**
     Every successful call on a key returns the reference first persisted for it, after the launch
     was claimed; a call spawns at most one worker; a wedged key makes every call raise.
     */
    method StartOrLocate(r: Request, evidence: nat, now: int, polls: nat) returns (answer: Answer)
      requires Inv(world)
      modifies this
      ensures Inv(world) && Later(old(world), world)
      ensures |world.workers| <= |old(world).workers| + 1
      ensures answer == Raised(NotClaimed) || (answer.Returned? && old(world).workers == []) ==>
                |world.workers| == |old(world).workers| + 1
      ensures answer.Returned? ==>
                world.reference == Some(answer.reference) && answer.reference.request == r.text
                && world.prompt == Some(r.prompt) && world.launch == Some(r.argv) && world.claim.Some?
      ensures answer.Returned? && old(world).reference.Some? ==> answer.reference == old(world).reference.value
      ensures old(Wedged(world)) ==> !answer.Returned?
      ensures answer.Returned? && old(world).reference.None? ==> answer.reference == Reference(r.text, evidence, now)
      ensures answer.Returned? ==> r.executable && r.limit.Some? && |r.prompt| <= r.limit.value
      ensures answer == Raised(NotExecutable) <==> !r.executable
      ensures answer == Raised(KeyReused) <==> r.executable && old(world).request.Some? && old(world).request != Some(r.text)
      ensures r.executable && old(Agrees(world, r)) ==> answer.Returned? || answer.Died? || answer == Raised(NotClaimed)
      ensures old(world).claim.Some? ==> |world.workers| == |old(world).workers| && answer != Raised(NotClaimed)
      ensures answer.Raised? && answer.error != NotClaimed ==> |world.workers| == |old(world).workers|
    {
      if !r.executable {
        return Raised(NotExecutable);
      }
      hide Inv;
      Workers();
      var e := Persist(r, evidence, now);
      if e.Some? {
        return e.value;
      }
      Workers();
      var dies := Dies();
      if dies {
        return Died;
      }
      var claimed := EnsureWorker(polls);
      if !claimed {
        return Raised(NotClaimed);
      }
      ReferenceFits(world);
      return Returned(world.reference.value);
    }
  }
}
