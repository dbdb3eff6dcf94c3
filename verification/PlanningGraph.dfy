/**
 The local planning agent: every message edits a task graph, and the draft it returns is checked
 by a depth-first search for cycles.  Messages are whitespace-normalised; of a node only the
 fields that the edits distinguish are modelled.
 */
module PlanningGraph {
  import opened Outcomes

  datatype Kind = Milestone | Task | Validation | HumanGate

  datatype Relation = Sequence | Branch | Subtask | Dependency

  datatype Node = Node(id: string, title: string, description: string, kind: Kind, executor: string, needsHuman: bool)

  datatype Edge = Edge(id: string, source: string, target: string, relation: Relation)

  datatype Graph = Graph(nodes: seq<Node>, edges: seq<Edge>)

  datatype Error = BlankMessage | UnknownSelection | TooLong

  const MAXIMUM_DESCRIPTION := 8000

  // ---- decimal names ----------------------------------------------------------------------

  function Digit(d: nat): char
    requires d < 10
  {
    (48 + d) as char
  }

  function Decimal(n: nat): (r: string)
    ensures |r| >= 1
  {
    (if n < 10 then "" else Decimal(n / 10)) + [Digit(n % 10)]
  }

  lemma {:induction false} DecimalIsInjective(m: nat, n: nat)
    requires Decimal(m) == Decimal(n)
    ensures m == n
    decreases m
  {
    var a, b := Decimal(m), Decimal(n);
    assert a[|a| - 1] == Digit(m % 10) && b[|b| - 1] == Digit(n % 10);
    assert m % 10 == n % 10;
    var p, q := if m < 10 then "" else Decimal(m / 10), if n < 10 then "" else Decimal(n / 10);
    assert p == a[..|a| - 1] && q == b[..|b| - 1];
    if m >= 10 && n >= 10 {
      DecimalIsInjective(m / 10, n / 10);
    }
  }

  function Name(prefix: string, index: nat): string {
    prefix + Decimal(index)
  }

  lemma NamesDiffer(prefix: string, m: nat, n: nat)
    requires m != n
    ensures Name(prefix, m) != Name(prefix, n)
  {
    if Name(prefix, m) == Name(prefix, n) {
      assert Name(prefix, m)[|prefix|..] == Decimal(m) && Name(prefix, n)[|prefix|..] == Decimal(n);
      DecimalIsInjective(m, n);
    }
  }

  /** The first free name from an index on; a name that was tried need not be looked at again. */
  function FreshIndex(prefix: string, known: set<string>, index: nat): (k: nat)
    ensures index <= k
    decreases |known|
  {
    if Name(prefix, index) in known then FreshIndex(prefix, known - {Name(prefix, index)}, index + 1) else index
  }

  /** The search ends by the pigeonhole principle, at a name that is free, after the taken ones. */
  lemma {:induction false} FreshIndexIsFree(prefix: string, known: set<string>, index: nat)
    ensures var k := FreshIndex(prefix, known, index);
            && Name(prefix, k) !in known && k <= index + |known|
            && forall j | index <= j < k :: Name(prefix, j) in known
    decreases |known|
  {
    hide Name, Decimal;
    var name := Name(prefix, index);
    if name in known {
      FreshIndexIsFree(prefix, known - {name}, index + 1);
      NamesDiffer(prefix, index, FreshIndex(prefix, known - {name}, index + 1));
    }
  }

  function NodeIds(nodes: seq<Node>): set<string> {
    set k | 0 <= k < |nodes| :: nodes[k].id
  }

  function EdgeIds(edges: seq<Edge>): set<string> {
    set k | 0 <= k < |edges| :: edges[k].id
  }

  function NextNodeId(nodes: seq<Node>): string {
    Name("step-", FreshIndex("step-", NodeIds(nodes), |nodes| + 1))
  }

  function NextEdgeId(edges: seq<Edge>): string {
    Name("edge-", FreshIndex("edge-", EdgeIds(edges), |edges| + 1))
  }

  lemma {:induction false} FewIds(nodes: seq<Node>)
    ensures |NodeIds(nodes)| <= |nodes|
    decreases |nodes|
  {
    if nodes == [] {
    } else {
      var rest := nodes[..|nodes| - 1];
      FewIds(rest);
      assert NodeIds(nodes) == NodeIds(rest) + {nodes[|nodes| - 1].id};
    }
  }

  /** The index of a fresh node id is at most 2n + 1. */
  lemma FreshNodeId(nodes: seq<Node>)
    ensures NextNodeId(nodes) !in NodeIds(nodes)
    ensures FreshIndex("step-", NodeIds(nodes), |nodes| + 1) <= 2 * |nodes| + 1
  {
    FreshIndexIsFree("step-", NodeIds(nodes), |nodes| + 1);
    FewIds(nodes);
  }

  /** The loop of _next_node_id and _next_edge_id. */
  method SearchName(prefix: string, known: set<string>, start: nat) returns (id: string)
    ensures id == Name(prefix, FreshIndex(prefix, known, start))
    ensures id !in known
  {
    var index := start;
    ghost var left := known;
    FreshIndexIsFree(prefix, known, start);
    while Name(prefix, index) in known
      invariant start <= index && left <= known
      invariant FreshIndex(prefix, left, index) == FreshIndex(prefix, known, start)
      invariant forall n | n >= index && Name(prefix, n) in known :: Name(prefix, n) in left
      decreases |left|
    {
      left := left - {Name(prefix, index)};
      forall n | n >= index + 1 && Name(prefix, n) in known
        ensures Name(prefix, n) in left
      {
        NamesDiffer(prefix, n, index);
      }
      index := index + 1;
    }
    return Name(prefix, index);
  }

  // ---- sound graphs -----------------------------------------------------------------------

  ghost predicate UniqueNodes(nodes: seq<Node>) {
    forall i, j | 0 <= i < j < |nodes| :: nodes[i].id != nodes[j].id
  }

  ghost predicate UniqueEdges(edges: seq<Edge>) {
    forall i, j | 0 <= i < j < |edges| :: edges[i].id != edges[j].id
  }

  ghost predicate ClosedEdges(g: Graph) {
    forall e | e in g.edges :: e.source in NodeIds(g.nodes) && e.target in NodeIds(g.nodes)
  }

  predicate Linked(edges: seq<Edge>, a: string, b: string) {
    exists k | 0 <= k < |edges| :: edges[k].source == a && edges[k].target == b
  }

  /** A sequence of nodes, each linked to the next. */
  predicate IsWalk(edges: seq<Edge>, walk: seq<string>) {
    forall i | 0 <= i < |walk| - 1 :: Linked(edges, walk[i], walk[i + 1])
  }

  ghost predicate Cyclic(edges: seq<Edge>) {
    exists walk :: |walk| >= 2 && walk[0] == walk[|walk| - 1] && IsWalk(edges, walk)
  }

  type Rank = map<string, nat>

  /** Every edge goes up. */
  ghost predicate Ranked(g: Graph, rank: Rank) {
    && NodeIds(g.nodes) <= rank.Keys
    && forall e | e in g.edges :: e.source in rank && e.target in rank && rank[e.source] < rank[e.target]
  }

  ghost predicate Sound(g: Graph) {
    UniqueNodes(g.nodes) && UniqueEdges(g.edges) && ClosedEdges(g) && exists rank :: Ranked(g, rank)
  }

  lemma {:induction false} WalksGoUp(g: Graph, rank: Rank, walk: seq<string>)
    requires Ranked(g, rank) && |walk| >= 2 && IsWalk(g.edges, walk)
    ensures walk[0] in rank && walk[|walk| - 1] in rank && rank[walk[0]] < rank[walk[|walk| - 1]]
    decreases |walk|
  {
    assert Linked(g.edges, walk[0], walk[1]);
    if |walk| > 2 {
      forall i | 0 <= i < |walk| - 2
        ensures Linked(g.edges, walk[1..][i], walk[1..][i + 1])
      {
        assert Linked(g.edges, walk[i + 1], walk[i + 2]);
      }
      WalksGoUp(g, rank, walk[1..]);
    }
  }

  lemma SoundIsAcyclic(g: Graph)
    requires Sound(g)
    ensures !Cyclic(g.edges)
  {
    var rank :| Ranked(g, rank);
    forall walk | |walk| >= 2 && IsWalk(g.edges, walk)
      ensures walk[0] != walk[|walk| - 1]
    {
      WalksGoUp(g, rank, walk);
    }
  }

  // ---- the validator's search -------------------------------------------------------------

  function Successors(edges: seq<Edge>, id: string): seq<string> {
    if edges == [] then []
    else
      var rest, e := Successors(edges[..|edges| - 1], id), edges[|edges| - 1];
      if e.source == id then rest + [e.target] else rest
  }

  lemma {:induction false} SuccessorsAreLinked(edges: seq<Edge>, id: string)
    ensures forall b :: b in Successors(edges, id) <==> Linked(edges, id, b)
    decreases |edges|
  {
    if edges == [] {
    } else {
      var init, e := edges[..|edges| - 1], edges[|edges| - 1];
      SuccessorsAreLinked(init, id);
      forall b
        ensures Linked(edges, id, b) <==> Linked(init, id, b) || (e.source == id && e.target == b)
      {
        if Linked(init, id, b) {
          var k :| 0 <= k < |init| && init[k].source == id && init[k].target == b;
          assert edges[k] == init[k];
        }
      }
    }
  }

  /** Every node's successors were finished before it. */
  ghost predicate FinishOrder(edges: seq<Edge>, visited: seq<string>) {
    && (forall i, j | 0 <= i < j < |visited| :: visited[i] != visited[j])
    && forall i, b | 0 <= i < |visited| && Linked(edges, visited[i], b) :: b in visited[..i]
  }

  ghost predicate OnPath(edges: seq<Edge>, path: seq<string>, id: string) {
    IsWalk(edges, path + [id]) && forall i, j | 0 <= i < j < |path| :: path[i] != path[j]
  }

  function Unvisited(known: set<string>, path: seq<string>): set<string> {
    known - set k | 0 <= k < |path| :: path[k]
  }

  /** visit(): `path` are the nodes being visited; false means that a cycle was found. */
  method Visit(g: Graph, id: string, path: seq<string>, visited: seq<string>) returns (ok: bool, now: seq<string>)
    requires ClosedEdges(g) && id in NodeIds(g.nodes) && OnPath(g.edges, path, id)
    requires (forall p | p in path :: p in NodeIds(g.nodes)) && FinishOrder(g.edges, visited)
    requires forall v | v in visited :: v in NodeIds(g.nodes) && v !in path
    ensures !ok ==> Cyclic(g.edges)
    ensures ok ==> FinishOrder(g.edges, now) && visited <= now && id in now
    ensures ok ==> forall v | v in now :: v in NodeIds(g.nodes) && v !in path
    decreases |Unvisited(NodeIds(g.nodes), path)|
  {
    hide Cyclic, FinishOrder, OnPath, ClosedEdges, NodeIds, Unvisited;
    if id in path {
      var k :| 0 <= k < |path| && path[k] == id;
      PathCloses(g.edges, path, id, k);
      return false, visited;
    }
    if id in visited {
      return true, visited;
    }
    now := visited;
    var next, k := Successors(g.edges, id), 0;
    SuccessorsAreLinked(g.edges, id);
    PathShrinks(NodeIds(g.nodes), path, id);
    while k < |next|
      invariant 0 <= k <= |next| && FinishOrder(g.edges, now) && visited <= now
      invariant forall v | v in now :: v in NodeIds(g.nodes) && v !in path + [id]
      invariant forall i | 0 <= i < k :: next[i] in now
    {
      assert next[k] in next && Linked(g.edges, id, next[k]);
      PathExtends(g.edges, path, id, next[k]);
      LinkedIsKnown(g, id, next[k]);
      ok, now := Visit(g, next[k], path + [id], now);
      if !ok {
        return false, now;
      }
      k := k + 1;
    }
    FinishExtends(g.edges, now, id);
    return true, now + [id];
  }

  lemma LinkedIsKnown(g: Graph, a: string, b: string)
    requires ClosedEdges(g) && Linked(g.edges, a, b)
    ensures a in NodeIds(g.nodes) && b in NodeIds(g.nodes)
  {
    var k :| 0 <= k < |g.edges| && g.edges[k].source == a && g.edges[k].target == b;
    assert g.edges[k] in g.edges;
  }

  lemma PathCloses(edges: seq<Edge>, path: seq<string>, id: string, k: nat)
    requires OnPath(edges, path, id) && k < |path| && path[k] == id
    ensures Cyclic(edges)
  {
    var full := path + [id];
    var walk := full[k..];
    forall i | 0 <= i < |walk| - 1
      ensures Linked(edges, walk[i], walk[i + 1])
    {
      assert Linked(edges, full[k + i], full[k + i + 1]);
    }
    assert walk[0] == walk[|walk| - 1] == id;
  }

  lemma PathShrinks(known: set<string>, path: seq<string>, id: string)
    requires id in known && id !in path
    ensures |Unvisited(known, path + [id])| < |Unvisited(known, path)|
  {
    var p := path + [id];
    assert p[|path|] == id;
    assert forall k | 0 <= k < |path| :: p[k] == path[k];
    assert Unvisited(known, p) == Unvisited(known, path) - {id};
    assert id in Unvisited(known, path);
  }

  lemma PathExtends(edges: seq<Edge>, path: seq<string>, id: string, b: string)
    requires OnPath(edges, path, id) && id !in path && Linked(edges, id, b)
    ensures OnPath(edges, path + [id], b)
  {
    var full := path + [id] + [b];
    forall i | 0 <= i < |full| - 1
      ensures Linked(edges, full[i], full[i + 1])
    {
      if i + 1 < |full| - 1 {
        assert Linked(edges, (path + [id])[i], (path + [id])[i + 1]);
      }
    }
  }

  lemma FinishExtends(edges: seq<Edge>, visited: seq<string>, id: string)
    requires FinishOrder(edges, visited) && id !in visited
    requires forall b | Linked(edges, id, b) :: b in visited
    ensures FinishOrder(edges, visited + [id])
  {
    var now := visited + [id];
    forall i, b | 0 <= i < |now| && Linked(edges, now[i], b)
      ensures b in now[..i]
    {
      if i < |visited| {
        assert now[..i] == visited[..i];
      } else {
        assert now[..i] == visited;
      }
    }
  }

  /** A finish order that covers every node ranks the graph. */
  lemma FinishRanks(g: Graph, visited: seq<string>) returns (rank: Rank)
    requires ClosedEdges(g) && FinishOrder(g.edges, visited) && forall id | id in NodeIds(g.nodes) :: id in visited
    ensures Ranked(g, rank)
  {
    rank := map id | id in visited :: Behind(visited, id);
    forall e | e in g.edges
      ensures e.source in rank && e.target in rank && rank[e.source] < rank[e.target]
    {
      var k :| 0 <= k < |g.edges| && g.edges[k] == e;
      assert Linked(g.edges, e.source, e.target);
      var i :| 0 <= i < |visited| && visited[i] == e.source;
      assert e.target in visited[..i];
      var j :| 0 <= j < i && visited[j] == e.target;
      BehindIs(visited, i);
      BehindIs(visited, j);
    }
  }

  /** How many places from the end a node was finished. */
  function Behind(visited: seq<string>, id: string): nat {
    if visited == [] || visited[|visited| - 1] == id then 0 else 1 + Behind(visited[..|visited| - 1], id)
  }

  lemma {:induction false} BehindIs(visited: seq<string>, i: nat)
    requires i < |visited| && forall a, b | 0 <= a < b < |visited| :: visited[a] != visited[b]
    ensures Behind(visited, visited[i]) == |visited| - 1 - i
    decreases |visited|
  {
    if i < |visited| - 1 {
      BehindIs(visited[..|visited| - 1], i);
    }
  }

  method AllDistinct(ids: seq<string>) returns (ok: bool)
    ensures ok <==> forall i, j | 0 <= i < j < |ids| :: ids[i] != ids[j]
  {
    var k := 0;
    while k < |ids|
      invariant 0 <= k <= |ids|
      invariant forall i, j | 0 <= i < j < k :: ids[i] != ids[j]
    {
      if ids[k] in ids[..k] {
        var i :| 0 <= i < k && ids[i] == ids[k];
        return false;
      }
      assert forall i | 0 <= i < k :: ids[i] == ids[..k][i];
      k := k + 1;
    }
    return true;
  }

  method ValidateIds(g: Graph) returns (ok: bool)
    ensures ok <==> UniqueNodes(g.nodes) && UniqueEdges(g.edges) && ClosedEdges(g)
  {
    var nodeIds := seq(|g.nodes|, i requires 0 <= i < |g.nodes| => g.nodes[i].id);
    var edgeIds := seq(|g.edges|, i requires 0 <= i < |g.edges| => g.edges[i].id);
    assert UniqueNodes(g.nodes) <==> forall i, j | 0 <= i < j < |nodeIds| :: nodeIds[i] != nodeIds[j] by {
      forall i, j | 0 <= i < j < |g.nodes|
        ensures g.nodes[i].id != g.nodes[j].id <==> nodeIds[i] != nodeIds[j]
      {
      }
    }
    assert UniqueEdges(g.edges) <==> forall i, j | 0 <= i < j < |edgeIds| :: edgeIds[i] != edgeIds[j] by {
      forall i, j | 0 <= i < j < |g.edges|
        ensures g.edges[i].id != g.edges[j].id <==> edgeIds[i] != edgeIds[j]
      {
      }
    }
    ok := AllDistinct(nodeIds);
    if ok {
      ok := AllDistinct(edgeIds);
    }
    ok := ok && forall e | e in g.edges :: e.source in NodeIds(g.nodes) && e.target in NodeIds(g.nodes);
  }

  method SearchCycles(g: Graph) returns (ok: bool)
    requires ClosedEdges(g)
    ensures ok ==> exists rank :: Ranked(g, rank)
    ensures !ok ==> Cyclic(g.edges)
  {
    hide Cyclic, Ranked, FinishOrder;
    var visited: seq<string>, k := [], 0;
    EmptyOrder(g.edges);
    while k < |g.nodes|
      invariant 0 <= k <= |g.nodes| && FinishOrder(g.edges, visited)
      invariant forall v | v in visited :: v in NodeIds(g.nodes)
      invariant forall i | 0 <= i < k :: g.nodes[i].id in visited
    {
      assert g.nodes[k].id in NodeIds(g.nodes);
      ok, visited := Visit(g, g.nodes[k].id, [], visited);
      if !ok {
        return false;
      }
      k := k + 1;
    }
    ghost var rank := FinishRanks(g, visited);
    return true;
  }

  lemma EmptyOrder(edges: seq<Edge>)
    ensures FinishOrder(edges, [])
  {
  }

  /** validate_task_plan_graph accepts exactly the sound graphs; what it accepts has no cycle, what it refuses as cyclic has one. */
  method Validate(g: Graph) returns (ok: bool)
    ensures ok <==> UniqueNodes(g.nodes) && UniqueEdges(g.edges) && ClosedEdges(g) && !Cyclic(g.edges)
    ensures ok <==> Sound(g)
  {
    if Sound(g) {
      SoundIsAcyclic(g);
    }
    hide Cyclic, Ranked, ClosedEdges, UniqueNodes, UniqueEdges;
    ok := ValidateIds(g);
    if ok {
      ok := SearchCycles(g);
      if ok {
        assert Sound(g);
        SoundIsAcyclic(g);
      }
    }
  }

  // ---- proposals --------------------------------------------------------------------------

  predicate Contains(text: string, word: string) {
    exists k {:trigger text[k..]} | 0 <= k <= |text| :: word <= text[k..]
  }

  predicate Mentions(text: string, words: seq<string>) {
    exists k | 0 <= k < |words| :: Contains(text, words[k])
  }

  function RelationOf(message: string): Relation {
    if Mentions(message, ["支线", "分支", "并行"]) then Branch
    else if Mentions(message, ["子任务", "拆分", "拆成"]) then Subtask
    else if Mentions(message, ["依赖", "前置"]) then Dependency
    else Sequence
  }

  function StripLeft(text: string, chars: string): string {
    if text != "" && text[0] in chars then StripLeft(text[1..], chars) else text
  }

  function StripRight(text: string, chars: string): string {
    if text != "" && text[|text| - 1] in chars then StripRight(text[..|text| - 1], chars) else text
  }

  function TitleOf(message: string): string {
    var cleaned := StripRight(StripLeft(message, "。.!！?？ "), "。.!！?？ ");
    if cleaned == "" then "待细化任务" else if |cleaned| <= 72 then cleaned else cleaned[..72]
  }

  function InitialGraph(description: string): Graph {
    var nodes := [
      Node("scope", "确认目标与边界", "澄清“" + description + "”的范围、约束、验收条件与未决问题。", Milestone, "human + planner", false),
      Node("design", "形成可执行方案", "围绕“" + description + "”完成形成可执行方案。", Task, "planning agent", false),
      Node("implement", "分步实施任务", "围绕“" + description + "”完成分步实施任务。", Task, "unassigned", false),
      Node("verify", "执行确定性验证", "围绕“" + description + "”完成执行确定性验证。", Validation, "verification engine", false),
      Node("finalize", "用户确认最终路径", "围绕“" + description + "”完成用户确认最终路径。", HumanGate, "authorized planner", true)];
    Graph(nodes, [Edge("edge-1", "scope", "design", Sequence), Edge("edge-2", "design", "implement", Sequence),
                  Edge("edge-3", "implement", "verify", Sequence), Edge("edge-4", "verify", "finalize", Sequence)])
  }

  /** Building a node validates its length; so building the initial graph can fail. */
  predicate Fits(nodes: seq<Node>) {
    forall k | 0 <= k < |nodes| :: |nodes[k].description| <= MAXIMUM_DESCRIPTION
  }

  /** Task descriptions may be 12,000 characters; from 7,980 on, the planning agent cannot start the discussion. */
  lemma InitialGraphFitsIff(description: string)
    ensures Fits(InitialGraph(description).nodes) <==> |description| <= 7979
  {
    var nodes := InitialGraph(description).nodes;
    assert |nodes[0].description| == |description| + 21;
    assert |nodes[1].description| == |description| + 14 && |nodes[2].description| == |description| + 13;
    assert |nodes[3].description| == |description| + 14 && |nodes[4].description| == |description| + 15;
  }

  function SelectedIndex(nodes: seq<Node>, id: string): (k: nat)
    requires nodes != []
    ensures k < |nodes| && (nodes[k].id == id || k == |nodes| - 1)
  {
    if nodes[0].id == id || |nodes| == 1 then 0 else 1 + SelectedIndex(nodes[1..], id)
  }

  function WithoutNode(nodes: seq<Node>, id: string): (r: seq<Node>)
    ensures forall n :: n in r <==> n in nodes && n.id != id
  {
    if nodes == [] then []
    else
      var rest, n := WithoutNode(nodes[..|nodes| - 1], id), nodes[|nodes| - 1];
      if n.id == id then rest else rest + [n]
  }

  function WithoutEdges(edges: seq<Edge>, id: string): (r: seq<Edge>)
    ensures forall e :: e in r <==> e in edges && e.source != id && e.target != id
  {
    if edges == [] then []
    else
      var rest, e := WithoutEdges(edges[..|edges| - 1], id), edges[|edges| - 1];
      if e.source == id || e.target == id then rest else rest + [e]
  }

  function Replaced(nodes: seq<Node>, n: Node): seq<Node> {
    seq(|nodes|, k requires 0 <= k < |nodes| => if nodes[k].id == n.id then n else nodes[k])
  }

  function Addition(g: Graph, message: string): Node {
    Node(NextNodeId(g.nodes), TitleOf(message), message, if Mentions(message, ["验证", "测试"]) then Validation else Task, "unassigned", false)
  }

  function AddIn(g: Graph, message: string, after: string): Graph {
    var n := Addition(g, message);
    Graph(g.nodes + [n], g.edges + [Edge(NextEdgeId(g.edges), after, n.id, RelationOf(message))])
  }

  function ProposeIn(g: Graph, description: string, message: string, chosen: Option<string>): Result<Graph, Error> {
    if message == "" then Err(BlankMessage)
    else if g.nodes == [] then
      if Fits(InitialGraph(description).nodes) then Ok(InitialGraph(description)) else Err(TooLong)
    else
      var id := if chosen.Some? then chosen.value else "";
      var selected := g.nodes[SelectedIndex(g.nodes, id)];
      if id != "" && selected.id != id then Err(UnknownSelection)
      else if id != "" && Contains(message, "删除") then Ok(Graph(WithoutNode(g.nodes, id), WithoutEdges(g.edges, id)))
      else if |message| > MAXIMUM_DESCRIPTION then Err(TooLong)
      else if id != "" && Mentions(message, ["修改", "调整", "改成", "改为"]) then
        Ok(Graph(Replaced(g.nodes, selected.(title := TitleOf(message), description := message)), g.edges))
      else Ok(AddIn(g, message, selected.id))
  }

  // ---- every proposal is sound ------------------------------------------------------------

  lemma InitialIsSound(description: string)
    ensures Sound(InitialGraph(description))
  {
    InitialIds(description);
    InitialIsRanked(description);
    hide Ranked, NodeIds;
  }

  lemma InitialIds(description: string)
    ensures NodeIds(InitialGraph(description).nodes) == {"scope", "design", "implement", "verify", "finalize"}
  {
    var nodes := InitialGraph(description).nodes;
    assert nodes[0].id == "scope" && nodes[1].id == "design" && nodes[2].id == "implement"
           && nodes[3].id == "verify" && nodes[4].id == "finalize";
  }

  lemma InitialIsRanked(description: string)
    ensures exists rank :: Ranked(InitialGraph(description), rank)
  {
    InitialIds(description);
    hide NodeIds;
    var rank: Rank := map["scope" := 0, "design" := 1, "implement" := 2, "verify" := 3, "finalize" := 4];
    assert Ranked(InitialGraph(description), rank);
  }

  lemma {:induction false} WithoutKeepsUniqueNodes(nodes: seq<Node>, id: string)
    requires UniqueNodes(nodes)
    ensures UniqueNodes(WithoutNode(nodes, id))
    decreases |nodes|
  {
    if nodes != [] {
      var init := nodes[..|nodes| - 1];
      WithoutKeepsUniqueNodes(init, id);
      assert forall n | n in WithoutNode(init, id) :: n in init;
    }
  }

  lemma {:induction false} WithoutKeepsUniqueEdges(edges: seq<Edge>, id: string)
    requires UniqueEdges(edges)
    ensures UniqueEdges(WithoutEdges(edges, id))
    decreases |edges|
  {
    if edges != [] {
      var init := edges[..|edges| - 1];
      WithoutKeepsUniqueEdges(init, id);
      assert forall e | e in WithoutEdges(init, id) :: e in init;
    }
  }

  lemma DeletionIsSound(g: Graph, id: string)
    requires Sound(g)
    ensures Sound(Graph(WithoutNode(g.nodes, id), WithoutEdges(g.edges, id)))
  {
    var g' := Graph(WithoutNode(g.nodes, id), WithoutEdges(g.edges, id));
    WithoutKeepsUniqueNodes(g.nodes, id);
    WithoutKeepsUniqueEdges(g.edges, id);
    forall x | x in NodeIds(g.nodes) && x != id
      ensures x in NodeIds(g'.nodes)
    {
      var k :| 0 <= k < |g.nodes| && g.nodes[k].id == x;
      assert g.nodes[k] in g'.nodes;
      var j :| 0 <= j < |g'.nodes| && g'.nodes[j] == g.nodes[k];
    }
    forall x | x in NodeIds(g'.nodes)
      ensures x in NodeIds(g.nodes)
    {
      var j :| 0 <= j < |g'.nodes| && g'.nodes[j].id == x;
      assert g'.nodes[j] in g.nodes;
      var k :| 0 <= k < |g.nodes| && g.nodes[k] == g'.nodes[j];
    }
    var rank :| Ranked(g, rank);
    assert Ranked(g', rank);
  }

  lemma ReplacementIsSound(g: Graph, n: Node)
    requires Sound(g)
    ensures Sound(Graph(Replaced(g.nodes, n), g.edges))
  {
    var g' := Graph(Replaced(g.nodes, n), g.edges);
    forall k | 0 <= k < |g.nodes|
      ensures g'.nodes[k].id == g.nodes[k].id
    {
    }
    assert NodeIds(g'.nodes) == NodeIds(g.nodes);
    var rank :| Ranked(g, rank);
    assert Ranked(g', rank);
  }

  lemma AppendedId(nodes: seq<Node>, n: Node)
    ensures NodeIds(nodes + [n]) == NodeIds(nodes) + {n.id}
  {
    var all := nodes + [n];
    assert all[|nodes|] == n;
    forall x | x in NodeIds(nodes)
      ensures x in NodeIds(all)
    {
      var k :| 0 <= k < |nodes| && nodes[k].id == x;
      assert all[k] == nodes[k];
    }
  }

  lemma AdditionIsSound(g: Graph, message: string, after: string)
    requires Sound(g) && after in NodeIds(g.nodes)
    ensures Sound(AddIn(g, message, after))
  {
    hide NextNodeId, NextEdgeId, RelationOf, TitleOf, Mentions;
    var g', id := AddIn(g, message, after), NextNodeId(g.nodes);
    FreshNodeId(g.nodes);
    FreshEdgeId(g.edges);
    AppendedId(g.nodes, g'.nodes[|g.nodes|]);
    var rank :| Ranked(g, rank);
    var rank' := rank[id := rank[after] + 1];
    assert Ranked(g', rank');
    forall i, j | 0 <= i < j < |g'.nodes|
      ensures g'.nodes[i].id != g'.nodes[j].id
    {
      if j == |g.nodes| {
        assert g.nodes[i].id in NodeIds(g.nodes);
      }
    }
    forall i, j | 0 <= i < j < |g'.edges|
      ensures g'.edges[i].id != g'.edges[j].id
    {
      if j == |g.edges| {
        assert g.edges[i].id in EdgeIds(g.edges);
      }
    }
  }

  lemma FreshEdgeId(edges: seq<Edge>)
    ensures NextEdgeId(edges) !in EdgeIds(edges)
  {
    FreshIndexIsFree("edge-", EdgeIds(edges), |edges| + 1);
  }

  lemma ProposalIsSound(g: Graph, description: string, message: string, chosen: Option<string>)
    requires Sound(g)
    ensures ProposeIn(g, description, message, chosen).Ok? ==> Sound(ProposeIn(g, description, message, chosen).value)
  {
    hide Sound, InitialGraph, Fits, TitleOf, Mentions, Contains;
    if message != "" && g.nodes != [] {
      var id := if chosen.Some? then chosen.value else "";
      var selected := g.nodes[SelectedIndex(g.nodes, id)];
      DeletionIsSound(g, id);
      ReplacementIsSound(g, selected.(title := TitleOf(message), description := message));
      assert selected.id in NodeIds(g.nodes);
      AdditionIsSound(g, message, selected.id);
    } else {
      InitialIsSound(description);
    }
  }

  // ---- what a proposal does to the graph --------------------------------------------------

  lemma ContainsIff(text: string, word: string)
    ensures Contains(text, word) <==> exists before, after :: text == before + word + after
  {
    if Contains(text, word) {
      var k :| 0 <= k <= |text| && word <= text[k..];
      assert text == text[..k] + word + text[k + |word|..];
    }
    if before, after :| text == before + word + after {
      assert text[|before|..] == word + after;
      assert word <= text[|before|..];
    }
  }

  /** The text between what was stripped: of the characters only what is inside is left. */
  ghost predicate Stripped(text: string, core: string, chars: string) {
    && (exists before, after :: text == before + core + after && (forall c | c in before :: c in chars) && forall c | c in after :: c in chars)
    && (core != "" ==> core[0] !in chars && core[|core| - 1] !in chars)
  }

  lemma {:induction false} StripLeftSplits(text: string, chars: string) returns (before: string)
    ensures text == before + StripLeft(text, chars) && forall c | c in before :: c in chars
    ensures StripLeft(text, chars) != "" ==> StripLeft(text, chars)[0] !in chars
    decreases |text|
  {
    before := "";
    if text != "" && text[0] in chars {
      var rest := StripLeftSplits(text[1..], chars);
      before := [text[0]] + rest;
      assert text == [text[0]] + text[1..];
    }
  }

  lemma {:induction false} StripRightSplits(text: string, chars: string) returns (after: string)
    ensures text == StripRight(text, chars) + after && forall c | c in after :: c in chars
    ensures StripRight(text, chars) != "" ==>
              StripRight(text, chars)[|StripRight(text, chars)| - 1] !in chars && StripRight(text, chars)[0] == text[0]
    decreases |text|
  {
    after := "";
    if text != "" && text[|text| - 1] in chars {
      var rest := StripRightSplits(text[..|text| - 1], chars);
      after := rest + [text[|text| - 1]];
      assert text == text[..|text| - 1] + [text[|text| - 1]];
    }
  }

  /** A title is the message without the punctuation and blanks around it, its first 72 characters, or a placeholder. */
  lemma TitleIs(message: string) returns (core: string)
    ensures Stripped(message, core, "。.!！?？ ")
    ensures TitleOf(message) == if core == "" then "待细化任务" else if |core| <= 72 then core else core[..72]
  {
    var chars := "。.!！?？ ";
    var before := StripLeftSplits(message, chars);
    var after := StripRightSplits(StripLeft(message, chars), chars);
    core := StripRight(StripLeft(message, chars), chars);
    assert message == before + core + after;
  }

  /** The node a message is about: the chosen one, or the last. */
  ghost predicate IsAbout(g: Graph, k: nat, chosen: Option<string>) {
    && k < |g.nodes|
    && if chosen.None? || chosen.value == "" then k == |g.nodes| - 1 else g.nodes[k].id == chosen.value
  }

  lemma {:induction false} SelectedFirst(nodes: seq<Node>, id: string, k: nat)
    requires UniqueNodes(nodes) && k < |nodes| && nodes[k].id == id
    ensures SelectedIndex(nodes, id) == k
    decreases |nodes|
  {
    if k > 0 {
      assert nodes[0].id != nodes[k].id;
      assert UniqueNodes(nodes[1..]) by {
        forall i, j | 0 <= i < j < |nodes[1..]|
          ensures nodes[1..][i].id != nodes[1..][j].id
        {
          assert nodes[i + 1].id != nodes[j + 1].id;
        }
      }
      SelectedFirst(nodes[1..], id, k - 1);
    }
  }

  lemma {:induction false} SelectedLast(nodes: seq<Node>, id: string)
    requires nodes != [] && forall n | n in nodes :: n.id != id
    ensures SelectedIndex(nodes, id) == |nodes| - 1
    decreases |nodes|
  {
    assert nodes[0] in nodes;
    if |nodes| > 1 {
      assert forall n | n in nodes[1..] :: n in nodes;
      SelectedLast(nodes[1..], id);
    }
  }

  lemma SelectedIsAbout(g: Graph, chosen: Option<string>, k: nat)
    requires UniqueNodes(g.nodes) && (forall n | n in g.nodes :: n.id != "") && IsAbout(g, k, chosen)
    ensures SelectedIndex(g.nodes, if chosen.Some? then chosen.value else "") == k
  {
    if chosen.Some? && chosen.value != "" {
      SelectedFirst(g.nodes, chosen.value, k);
    } else {
      SelectedLast(g.nodes, "");
    }
  }

  /** Every other node stays, in its place and its order. */
  lemma {:induction false} WithoutOne(nodes: seq<Node>, k: nat)
    requires UniqueNodes(nodes) && k < |nodes|
    ensures WithoutNode(nodes, nodes[k].id) == nodes[..k] + nodes[k + 1..]
    decreases |nodes|
  {
    var n, init := |nodes|, nodes[..|nodes| - 1];
    assert nodes == init + [nodes[n - 1]];
    if k == n - 1 {
      WithoutNone(init, nodes[k].id);
      assert nodes[..k] + nodes[k + 1..] == init;
    } else {
      assert nodes[n - 1].id != nodes[k].id;
      assert UniqueNodes(init) && init[k] == nodes[k];
      WithoutOne(init, k);
      DropInside(nodes, k);
      hide UniqueNodes;
    }
  }

  lemma DropInside(nodes: seq<Node>, k: nat)
    requires k + 1 < |nodes|
    ensures var init := nodes[..|nodes| - 1]; init[..k] + init[k + 1..] + [nodes[|nodes| - 1]] == nodes[..k] + nodes[k + 1..]
  {
  }

  lemma {:induction false} WithoutNone(nodes: seq<Node>, id: string)
    requires forall n | n in nodes :: n.id != id
    ensures WithoutNode(nodes, id) == nodes
    decreases |nodes|
  {
    if nodes != [] {
      var init := nodes[..|nodes| - 1];
      assert nodes == init + [nodes[|nodes| - 1]];
      WithoutNone(init, id);
    }
  }

  lemma ReplacedOne(nodes: seq<Node>, k: nat, n: Node)
    requires UniqueNodes(nodes) && k < |nodes| && n.id == nodes[k].id
    ensures Replaced(nodes, n) == nodes[k := n]
  {
    forall i | 0 <= i < |nodes|
      ensures Replaced(nodes, n)[i] == nodes[k := n][i]
    {
      if i < k {
        assert nodes[i].id != nodes[k].id;
      } else if k < i {
        assert nodes[k].id != nodes[i].id;
      }
    }
  }

  /** Deleting takes exactly the chosen node, and the edges that touch it. */
  ghost predicate Deletes(g: Graph, k: nat, g': Graph)
    requires k < |g.nodes|
  {
    && g'.nodes == g.nodes[..k] + g.nodes[k + 1..]
    && forall e :: e in g'.edges <==> e in g.edges && e.source != g.nodes[k].id && e.target != g.nodes[k].id
  }

  /** Changing rewrites title and description of the chosen node, and nothing else. */
  ghost predicate Changes(g: Graph, k: nat, message: string, g': Graph)
    requires k < |g.nodes|
  {
    g'.edges == g.edges && g'.nodes == g.nodes[k := g.nodes[k].(title := TitleOf(message), description := message)]
  }

  /** Adding leaves the graph and appends one node, linked from the node the message is about. */
  ghost predicate Adds(g: Graph, k: nat, message: string, g': Graph)
    requires k < |g.nodes|
  {
    && |g'.nodes| == |g.nodes| + 1 && g.nodes <= g'.nodes && |g'.edges| == |g.edges| + 1 && g.edges <= g'.edges
    && var n, e := g'.nodes[|g.nodes|], g'.edges[|g.edges|];
    && (forall o | o in g.nodes :: o.id != n.id) && (forall o | o in g.edges :: o.id != e.id)
    && n.title == TitleOf(message) && n.description == message
    && n.kind == (if Contains(message, "验证") || Contains(message, "测试") then Validation else Task)
    && e.source == g.nodes[k].id && e.target == n.id
    && e.relation == if Contains(message, "支线") || Contains(message, "分支") || Contains(message, "并行") then Branch
                     else if Contains(message, "子任务") || Contains(message, "拆分") || Contains(message, "拆成") then Subtask
                     else if Contains(message, "依赖") || Contains(message, "前置") then Dependency
                     else Sequence
  }

  lemma MentionsTwo(text: string, a: string, b: string)
    ensures Mentions(text, [a, b]) <==> Contains(text, a) || Contains(text, b)
  {
    hide Contains;
    assert [a, b][0] == a && [a, b][1] == b;
  }

  lemma MentionsThree(text: string, a: string, b: string, c: string)
    ensures Mentions(text, [a, b, c]) <==> Contains(text, a) || Contains(text, b) || Contains(text, c)
  {
    hide Contains;
    assert [a, b, c][0] == a && [a, b, c][1] == b && [a, b, c][2] == c;
  }

  lemma MentionsFour(text: string, a: string, b: string, c: string, d: string)
    ensures Mentions(text, [a, b, c, d]) <==> Contains(text, a) || Contains(text, b) || Contains(text, c) || Contains(text, d)
  {
    hide Contains;
    assert [a, b, c, d][0] == a && [a, b, c, d][1] == b && [a, b, c, d][2] == c && [a, b, c, d][3] == d;
  }

  lemma AdditionAdds(g: Graph, k: nat, message: string)
    requires k < |g.nodes|
    ensures Adds(g, k, message, AddIn(g, message, g.nodes[k].id))
  {
    FreshNodeId(g.nodes);
    FreshEdgeId(g.edges);
    MentionsTwo(message, "验证", "测试");
    MentionsThree(message, "支线", "分支", "并行");
    MentionsThree(message, "子任务", "拆分", "拆成");
    MentionsTwo(message, "依赖", "前置");
    hide Contains, Mentions, TitleOf, NextNodeId, NextEdgeId;
    forall o | o in g.nodes
      ensures o.id in NodeIds(g.nodes)
    {
    }
    forall o | o in g.edges
      ensures o.id in EdgeIds(g.edges)
    {
    }
  }

  /** What each message does to a draft, by its words and the node it is about. */
  lemma ProposalDoes(g: Graph, description: string, message: string, chosen: Option<string>, k: nat)
    requires UniqueNodes(g.nodes) && (forall n | n in g.nodes :: n.id != "") && IsAbout(g, k, chosen) && message != ""
    ensures var r, picked := ProposeIn(g, description, message, chosen), chosen.Some? && chosen.value != "";
            if picked && Contains(message, "删除") then r.Ok? && Deletes(g, k, r.value)
            else if |message| > 8000 then r == Err(TooLong)
            else if picked && (Contains(message, "修改") || Contains(message, "调整") || Contains(message, "改成") || Contains(message, "改为"))
            then r.Ok? && Changes(g, k, message, r.value)
            else r.Ok? && Adds(g, k, message, r.value)
  {
    SelectedIsAbout(g, chosen, k);
    WithoutOne(g.nodes, k);
    ReplacedOne(g.nodes, k, g.nodes[k].(title := TitleOf(message), description := message));
    AdditionAdds(g, k, message);
    MentionsFour(message, "修改", "调整", "改成", "改为");
    hide Contains, Mentions, TitleOf, Adds, AddIn, SelectedIndex, UniqueNodes, InitialGraph;
  }

  /** A choice that is not in the draft is refused, and an empty draft becomes the five phases in line. */
  lemma OtherProposals(g: Graph, description: string, message: string, chosen: Option<string>)
    requires message != "" && forall n | n in g.nodes :: n.id != ""
    ensures g.nodes != [] && chosen.Some? && chosen.value != "" && (forall n | n in g.nodes :: n.id != chosen.value) ==>
              ProposeIn(g, description, message, chosen) == Err(UnknownSelection)
    ensures g.nodes == [] && |description| <= 7979 ==>
              var r := ProposeIn(g, description, message, chosen);
              && r.Ok? && |r.value.nodes| == 5 && |r.value.edges| == 4
              && (forall i | 0 <= i < 5 :: r.value.nodes[i].id == ["scope", "design", "implement", "verify", "finalize"][i]
                                           && Contains(r.value.nodes[i].description, description))
              && (forall i | 0 <= i < 4 :: r.value.edges[i].source == r.value.nodes[i].id && r.value.edges[i].target == r.value.nodes[i + 1].id
                                           && r.value.edges[i].relation == Sequence)
  {
    if g.nodes != [] && chosen.Some? && (forall n | n in g.nodes :: n.id != chosen.value) {
      SelectedLast(g.nodes, chosen.value);
      assert g.nodes[|g.nodes| - 1] in g.nodes;
    }
    if g.nodes == [] {
      InitialGraphFitsIff(description);
      PhasesQuote(description);
    }
    hide Contains, Mentions, InitialGraph;
  }

  lemma PhasesQuote(description: string)
    ensures var g := InitialGraph(description);
            && |g.nodes| == 5 && |g.edges| == 4
            && (forall i | 0 <= i < 5 :: g.nodes[i].id == ["scope", "design", "implement", "verify", "finalize"][i]
                                         && Contains(g.nodes[i].description, description))
            && (forall i | 0 <= i < 4 :: g.edges[i].source == g.nodes[i].id && g.edges[i].target == g.nodes[i + 1].id
                                         && g.edges[i].relation == Sequence)
  {
    Quotes("澄清“", description, "”的范围、约束、验收条件与未决问题。");
    Quotes("围绕“", description, "”完成形成可执行方案。");
    Quotes("围绕“", description, "”完成分步实施任务。");
    Quotes("围绕“", description, "”完成执行确定性验证。");
    Quotes("围绕“", description, "”完成用户确认最终路径。");
    hide Contains;
  }

  lemma Quotes(before: string, text: string, after: string)
    ensures Contains(before + text + after, text)
  {
    ContainsIff(before + text + after, text);
  }

  datatype Turn = Turn(message: string, chosen: Option<string>)

  /** Every proposal is applied before the next message. */
  function Discussed(g: Graph, description: string, turns: seq<Turn>): Graph
    decreases |turns|
  {
    if turns == [] then g
    else
      var r := ProposeIn(g, description, turns[0].message, turns[0].chosen);
      Discussed(if r.Ok? then r.value else g, description, turns[1..])
  }

  /** Over every discussion: ids stay unique, edges closed, and no walk ever returns to its start. */
  lemma {:induction false} EveryDiscussionIsAcyclic(g: Graph, description: string, turns: seq<Turn>)
    requires Sound(g)
    ensures Sound(Discussed(g, description, turns)) && !Cyclic(Discussed(g, description, turns).edges)
    decreases |turns|
  {
    hide Sound, Cyclic, ProposeIn;
    if turns == [] {
      SoundIsAcyclic(g);
    } else {
      var r := ProposeIn(g, description, turns[0].message, turns[0].chosen);
      ProposalIsSound(g, description, turns[0].message, turns[0].chosen);
      EveryDiscussionIsAcyclic(if r.Ok? then r.value else g, description, turns[1..]);
    }
  }

  const EMPTY_DRAFT := Graph([], [])

  /** A plan starts from an empty draft, so this is every graph a discussion can lead to. */
  lemma EveryDraftIsAcyclic(description: string, turns: seq<Turn>)
    ensures Sound(Discussed(EMPTY_DRAFT, description, turns)) && !Cyclic(Discussed(EMPTY_DRAFT, description, turns).edges)
  {
    assert Ranked(EMPTY_DRAFT, map[]);
    EveryDiscussionIsAcyclic(EMPTY_DRAFT, description, turns);
  }

  /** propose; what it returns always passes the validator. */
  method Propose(g: Graph, description: string, message: string, chosen: Option<string>) returns (r: Result<Graph, Error>)
    requires Sound(g)
    ensures r == ProposeIn(g, description, message, chosen)
    ensures r.Ok? ==> Sound(r.value)
  {
    hide Sound, InitialGraph, Fits, Mentions, Contains, TitleOf, RelationOf, Replaced, WithoutNode, WithoutEdges, NodeIds, EdgeIds;
    ProposalIsSound(g, description, message, chosen);
    if message == "" {
      return Err(BlankMessage);
    }
    if g.nodes == [] {
      var initial := InitialGraph(description);
      return if Fits(initial.nodes) then Ok(initial) else Err(TooLong);
    }
    var id := if chosen.Some? then chosen.value else "";
    var selected := g.nodes[SelectedIndex(g.nodes, id)];
    if id != "" && selected.id != id {
      return Err(UnknownSelection);
    }
    if id != "" && Contains(message, "删除") {
      return Ok(Graph(WithoutNode(g.nodes, id), WithoutEdges(g.edges, id)));
    }
    if |message| > MAXIMUM_DESCRIPTION {
      return Err(TooLong);
    }
    if id != "" && Mentions(message, ["修改", "调整", "改成", "改为"]) {
      return Ok(Graph(Replaced(g.nodes, selected.(title := TitleOf(message), description := message)), g.edges));
    }
    var relation := RelationOf(message);
    var nodeId := SearchName("step-", NodeIds(g.nodes), |g.nodes| + 1);
    var addition := Node(nodeId, TitleOf(message), message, if Mentions(message, ["验证", "测试"]) then Validation else Task, "unassigned", false);
    var edgeId := SearchName("edge-", EdgeIds(g.edges), |g.edges| + 1);
    var nodes, edges := g.nodes + [addition], g.edges + [Edge(edgeId, selected.id, addition.id, relation)];
    return Ok(Graph(nodes, edges));
  }
}
