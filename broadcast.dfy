/** The buffered graph colouring broadcast: a context holding a directed graph and a path stack of
    vertex labels, a strategy that grows a tree of traces in that context by moving a frontier
    forwards (`extend`) and back along the path (`retreat`), and a facade over the strategy. */
module Broadcast {
  import opened Wrappers
  import DiGraph

  /** `list.pop()` on an empty path. */
  datatype PathError = IndexError

  /** `pop_from_path`: the last vertex pushed, and the path without it. */
  function PathPop(path: seq<int>): (r: (seq<int>, Result<int, PathError>))
    ensures path == [] <==> r.1.Err?
    ensures path == [] ==> r.0 == []
    ensures path != [] ==> r.0 + [r.1.value] == path
  {
    if path == [] then ([], Err(IndexError)) else (path[..|path| - 1], Ok(path[|path| - 1]))
  }

  /** The path is a stack: a push followed by a pop gives back the vertex and the old path. */
  lemma PushThenPopPath(path: seq<int>, vertex: int)
    ensures PathPop(path + [vertex]) == (path, Ok(vertex))
  {
    assert (path + [vertex])[..|path|] == path;
  }

  /** The strategy's counter and frontier together with its context's graph and path. */
  datatype State<D> = State(nodes: int, frontier: int, graph: DiGraph.Graph<int, D>, path: seq<int>)

  /** A fresh strategy in a fresh context: no vertex, no edge, an empty path, frontier 0. */
  function Init<D>(): (s: State<D>)
    ensures s.nodes == 0 && s.frontier == 0 && s.path == []
    ensures s.graph.nodes == [] && s.graph.edges == {} && forall v :: v !in s.graph.data
  {
    State(0, 0, DiGraph.Empty(), [])
  }

  /** `extend(d)`: a new vertex numbered `nodes + 1` holding `d`, an edge to it from the frontier,
      the old frontier pushed on the path, and the new vertex as frontier; exactly one edge is
      added and the new vertex loads as `d`. */
  function ExtendStep<D>(s: State<D>, d: D): (t: State<D>)
    ensures t.nodes == s.nodes + 1 && t.frontier == s.nodes + 1
    ensures t.path == s.path + [s.frontier]
    ensures t.graph.edges == s.graph.edges + {(s.frontier, s.nodes + 1)}
    ensures DiGraph.Load(t.graph, s.nodes + 1) == Ok(Some(d))
  {
    var vertex := s.nodes + 1;
    DiGraph.AddEdgeRecords(DiGraph.AddNode(s.graph, vertex, d), s.frontier, vertex);
    var g := DiGraph.AddEdge(DiGraph.AddNode(s.graph, vertex, d), s.frontier, vertex);
    State(vertex, vertex, g, s.path + [s.frontier])
  }

  /** `retreat()`: the frontier becomes the vertex popped from the path; with an empty path the pop
      raises and the frontier is kept. It fails exactly on an empty path, and then changes nothing;
      the counter and the graph never change. */
  function RetreatStep<D>(s: State<D>): (r: (State<D>, Result<(), PathError>))
    ensures r.1.Ok? <==> s.path != []
    ensures r.1.Err? ==> r.0 == s
    ensures r.1.Ok? ==> r.0.frontier == s.path[|s.path| - 1] && r.0.path == s.path[..|s.path| - 1]
    ensures r.0.nodes == s.nodes && r.0.graph == s.graph
  {
    var (path, popped) := PathPop(s.path);
    if popped.Err? then (s, Err(popped.error)) else (s.(frontier := popped.value, path := path), Ok(()))
  }

  /** Retreating right after extending returns to the frontier extended from, with the path as
      it was; only the new vertex and edge remain. */
  lemma ExtendThenRetreat<D>(s: State<D>, d: D)
    ensures var t := ExtendStep(s, d);
            RetreatStep(t) == (t.(frontier := s.frontier, path := s.path), Ok(()))
  {
    PushThenPopPath(s.path, s.frontier);
  }

  /** Vertex `v` has an incoming edge from a smaller label. */
  ghost predicate HasParent(edges: set<(int, int)>, v: int) {
    exists u :: 0 <= u < v && Edge(u, v) in edges
  }

  function Edge(u: int, v: int): (int, int) {
    (u, v)
  }

  /** The path climbs strictly towards the frontier, which is at most the counter. */
  ghost predicate PathShape<D>(s: State<D>) {
    && 0 <= s.frontier <= s.nodes
    && (forall i, j :: 0 <= i < j < |s.path| ==> s.path[i] < s.path[j])
    && (forall i :: 0 <= i < |s.path| ==> 0 <= s.path[i] < s.frontier)
  }

  /** The vertices are 0 to `nodes` once vertex 1 exists; 0 has no data and the others have. */
  ghost predicate DataShape<D>(s: State<D>) {
    && DiGraph.WellFormed(s.graph)
    && (forall v :: v in s.graph.data <==> 0 < s.nodes && 0 <= v <= s.nodes)
    && (0 < s.nodes ==> s.graph.data[0] == None)
    && (forall v :: 0 < v <= s.nodes ==> v in s.graph.data && s.graph.data[v].Some?)
  }

  /** Every edge goes up from a smaller label, and every vertex but 0 has exactly one incoming edge. */
  ghost predicate EdgeShape<D>(s: State<D>) {
    && (forall e :: e in s.graph.edges ==> 0 <= e.0 < e.1 <= s.nodes)
    && (forall e, f :: e in s.graph.edges && f in s.graph.edges && e.1 == f.1 ==> e == f)
    && (forall v :: 0 < v <= s.nodes ==> HasParent(s.graph.edges, v))
  }

  /** The shape the strategy keeps: the path and frontier as `PathShape` says, and a graph that is a
      tree rooted at 0 over the labels 0 to `nodes`. */
  ghost predicate Tree<D>(s: State<D>) {
    PathShape(s) && DataShape(s) && EdgeShape(s)
  }

  lemma InitIsTree<D>()
    ensures Tree(Init<D>())
  {
  }

  lemma ExtendPreservesTree<D>(s: State<D>, d: D)
    requires Tree(s)
    ensures Tree(ExtendStep(s, d))
  {
    ExtendKeepsPath(s, d);
    ExtendKeepsData(s, d);
    ExtendKeepsEdges(s, d);
  }

  lemma ExtendKeepsPath<D>(s: State<D>, d: D)
    requires PathShape(s)
    ensures PathShape(ExtendStep(s, d))
  {
  }

  lemma ExtendKeepsData<D>(s: State<D>, d: D)
    requires 0 <= s.frontier <= s.nodes && DataShape(s)
    ensures DataShape(ExtendStep(s, d))
  {
    ExtendWellFormed(s, d);
    ExtendData(s, d);
  }

  lemma ExtendWellFormed<D>(s: State<D>, d: D)
    requires DiGraph.WellFormed(s.graph)
    ensures DiGraph.WellFormed(ExtendStep(s, d).graph)
  {
    var vertex := s.nodes + 1;
    var g1 := DiGraph.AddNode(s.graph, vertex, d);
    DiGraph.AddNodePreservesWellFormed(s.graph, vertex, d);
    DiGraph.AddEdgePreservesWellFormed(g1, s.frontier, vertex);
    assert ExtendStep(s, d).graph == DiGraph.AddEdge(g1, s.frontier, vertex);
  }

  /** The attribute map after `extend`: the new vertex holds its data, and vertex 0 appears
      without data on the first call. */
  lemma ExtendData<D>(s: State<D>, d: D)
    requires 0 <= s.frontier <= s.nodes
    requires forall v :: v in s.graph.data <==> 0 < s.nodes && 0 <= v <= s.nodes
    requires forall v :: 0 < v <= s.nodes ==> v in s.graph.data && s.graph.data[v].Some?
    ensures var t := ExtendStep(s, d);
            && (forall v :: v in t.graph.data <==> 0 <= v <= t.nodes)
            && t.graph.data[0] == (if s.nodes == 0 then None else s.graph.data[0])
            && (forall v :: 0 < v <= t.nodes ==> v in t.graph.data && t.graph.data[v].Some?)
            && t.graph.data[t.nodes] == Some(d)
  {
    var vertex := s.nodes + 1;
    var t := ExtendStep(s, d);
    var g1 := DiGraph.AddNode(s.graph, vertex, d);
    assert vertex !in s.graph.data;
    assert g1.data == s.graph.data[vertex := Some(d)];
    if s.nodes == 0 {
      assert 0 !in g1.data;
      assert t.graph.data == g1.data[0 := None];
    } else {
      assert s.frontier in g1.data;
      assert t.graph.data == g1.data;
    }
  }

  lemma {:induction false} ExtendKeepsEdges<D>(s: State<D>, d: D)
    requires 0 <= s.frontier <= s.nodes && EdgeShape(s)
    ensures EdgeShape(ExtendStep(s, d))
  {
    var vertex := s.nodes + 1;
    var t := ExtendStep(s, d);
    forall v | 0 < v <= t.nodes
      ensures HasParent(t.graph.edges, v)
    {
      if v == vertex {
        assert Edge(s.frontier, v) in t.graph.edges;
      } else {
        assert HasParent(s.graph.edges, v);
        var u :| 0 <= u < v && Edge(u, v) in s.graph.edges;
        assert Edge(u, v) in t.graph.edges;
      }
    }
  }

  lemma RetreatPreservesTree<D>(s: State<D>)
    requires Tree(s)
    ensures Tree(RetreatStep(s).0)
  {
    if s.path != [] {
      var n := |s.path|;
      var t := s.(frontier := s.path[n - 1], path := s.path[..n - 1]);
      assert RetreatStep(s).0 == t;
      assert forall i :: 0 <= i < n - 1 ==> t.path[i] == s.path[i];
    }
  }

  /** One call on the strategy: `extend(d)` or `retreat()`. */
  datatype Call<D> = Extend(data: D) | Retreat

  function Step<D>(s: State<D>, c: Call<D>): State<D> {
    match c
    case Extend(d) => ExtendStep(s, d)
    case Retreat => RetreatStep(s).0
  }

  /** The state after a sequence of calls; a failing retreat changes nothing. */
  function Run<D>(s: State<D>, calls: seq<Call<D>>): State<D>
    decreases |calls|
  {
    if calls == [] then s else Run(Step(s, calls[0]), calls[1..])
  }

  lemma {:induction false} RunAppend<D>(s: State<D>, a: seq<Call<D>>, b: seq<Call<D>>)
    ensures Run(s, a + b) == Run(Run(s, a), b)
    decreases |a|
  {
    if a == [] {
      assert a + b == b;
    } else {
      assert (a + b)[0] == a[0] && (a + b)[1..] == a[1..] + b;
      RunAppend(Step(s, a[0]), a[1..], b);
    }
  }

  lemma RunPair<D>(s: State<D>, a: Call<D>, b: Call<D>)
    ensures Run(s, [a, b]) == Step(Step(s, a), b)
  {
    var calls := [a, b];
    assert calls[1..] == [b] && calls[1..][1..] == [];
    assert Run(s, calls) == Run(Step(s, a), [b]);
    assert Run(Step(s, a), [b]) == Run(Step(Step(s, a), b), []);
  }

  /** Any sequence of calls from a fresh strategy grows a tree. */
  lemma {:induction false} RunIsTree<D>(s: State<D>, calls: seq<Call<D>>)
    requires Tree(s)
    ensures Tree(Run(s, calls))
    decreases |calls|
  {
    if calls != [] {
      match calls[0] {
        case Extend(d) => ExtendPreservesTree(s, d);
        case Retreat => RetreatPreservesTree(s);
      }
      RunIsTree(Step(s, calls[0]), calls[1..]);
    }
  }

  /** `k` leaves hung from the frontier: `extend` and `retreat`, `k` times. */
  function Leaves<D>(d: D, k: nat): seq<Call<D>> {
    if k == 0 then [] else [Extend(d), Retreat] + Leaves(d, k - 1)
  }

  /** A branch: `extend`, then `k` leaves below the new vertex, then `retreat`. */
  function Branch<D>(d: D, k: nat): seq<Call<D>> {
    [Extend(d)] + Leaves(d, k) + [Retreat]
  }

  /** The edges from `u` to the `k` labels after `n`. */
  function Fan(u: int, n: int, k: nat): set<(int, int)> {
    set j | n < j <= n + k :: (u, j)
  }

  /** Hanging `k` leaves numbers them after the counter, joins each to the frontier, and leaves the
      frontier and the path where they were. */
  lemma {:induction false} LeavesEffect<D>(s: State<D>, d: D, k: nat)
    ensures var t := Run(s, Leaves(d, k));
            && t.nodes == s.nodes + k && t.frontier == s.frontier && t.path == s.path
            && t.graph.edges == s.graph.edges + Fan(s.frontier, s.nodes, k)
    decreases k
  {
    if k == 0 {
      assert Fan(s.frontier, s.nodes, 0) == {};
    } else {
      var m := RetreatStep(ExtendStep(s, d)).0;
      FirstLeaf(s, d, k);
      ExtendThenRetreat(s, d);
        LeavesEffect(m, d, k - 1);
      FanShifts(s.frontier, s.nodes, k);
    }
  }

  lemma FirstLeaf<D>(s: State<D>, d: D, k: nat)
    requires k > 0
    ensures Run(s, Leaves(d, k)) == Run(RetreatStep(ExtendStep(s, d)).0, Leaves(d, k - 1))
  {
    var calls := Leaves(d, k);
    assert calls[0] == Extend(d) && calls[1..][0] == Retreat && calls[1..][1..] == Leaves(d, k - 1);
  }

  lemma FanShifts(u: int, n: int, k: nat)
    requires k > 0
    ensures Fan(u, n, k) == {(u, n + 1)} + Fan(u, n + 1, k - 1)
  {
  }

  /** A branch adds one vertex below the frontier and `k` leaves below that vertex, then comes back
      to the frontier it started from, with the path as it was. */
  lemma BranchEffect<D>(s: State<D>, d: D, k: nat)
    ensures var t := Run(s, Branch(d, k));
            && t.nodes == s.nodes + 1 + k && t.frontier == s.frontier && t.path == s.path
            && t.graph.edges == s.graph.edges + {(s.frontier, s.nodes + 1)} + Fan(s.nodes + 1, s.nodes + 1, k)
  {
    var e := ExtendStep(s, d);
    RunAppend(s, [Extend(d)] + Leaves(d, k), [Retreat]);
    RunAppend(s, [Extend(d)], Leaves(d, k));
    assert Run(s, [Extend(d)]) == e;
    LeavesEffect(e, d, k);
    var m := Run(e, Leaves(d, k));
    assert Run(m, [Retreat]) == RetreatStep(m).0;
    PushThenPopPath(s.path, s.frontier);
  }

  lemma NestedCalls<D>(d: D)
    ensures [Extend(d), Extend(d), Retreat, Extend(d), Retreat, Retreat,
             Extend(d), Extend(d), Retreat, Retreat,
             Extend(d), Retreat] == Branch(d, 2) + Branch(d, 1) + Branch(d, 0)
  {
    assert Leaves(d, 1) == [Extend(d), Retreat];
    assert Leaves(d, 2) == [Extend(d), Retreat, Extend(d), Retreat];
  }

  /** The nested test: for `i` in 0..2, a branch with one leaf per later `i`; the tree it grows has
      exactly the edges below. */
  lemma NestedTrace<D>(d: D)
    ensures Run(Init(), [Extend(d), Extend(d), Retreat, Extend(d), Retreat, Retreat,
                         Extend(d), Extend(d), Retreat, Retreat,
                         Extend(d), Retreat]).graph.edges
            == {(0, 1), (0, 4), (0, 6), (1, 2), (1, 3), (4, 5)}
  {
    NestedCalls(d);
    NestedBranches(d);
  }

  lemma NestedBranches<D>(d: D)
    ensures Run(Init(), Branch(d, 2) + Branch(d, 1) + Branch(d, 0)).graph.edges
            == {(0, 1), (0, 4), (0, 6), (1, 2), (1, 3), (4, 5)}
  {
    var s0 := Init<D>();
    RunAppend(s0, Branch(d, 2) + Branch(d, 1), Branch(d, 0));
    RunAppend(s0, Branch(d, 2), Branch(d, 1));
    SmallFans();
    BranchEffect(s0, d, 2);
    var s1 := Run(s0, Branch(d, 2));
    assert s1.nodes == 3 && s1.frontier == 0 && s1.graph.edges == {(0, 1), (1, 2), (1, 3)};
    BranchEffect(s1, d, 1);
    var s2 := Run(s1, Branch(d, 1));
    assert s2.nodes == 5 && s2.frontier == 0 && s2.graph.edges == {(0, 1), (1, 2), (1, 3), (0, 4), (4, 5)};
    BranchEffect(s2, d, 0);
    var s3 := Run(s2, Branch(d, 0));
    assert s3.graph.edges == {(0, 1), (1, 2), (1, 3), (0, 4), (4, 5), (0, 6)};
  }

  lemma SmallFans()
    ensures Fan(1, 1, 2) == {(1, 2), (1, 3)}
    ensures Fan(4, 4, 1) == {(4, 5)}
    ensures Fan(6, 6, 0) == {}
  {
    FanShifts(1, 1, 2);
    FanShifts(1, 2, 1);
    FanShifts(4, 4, 1);
  }

  /** `SimpleBufferedGraphColouringContext`: a graph and a path, both changed in place. */
  class Context<D> {
    var graph: DiGraph.Graph<int, D>
    var path: seq<int>

    constructor ()
      ensures graph == DiGraph.Empty() && path == []
    {
      graph := DiGraph.Empty();
      path := [];
    }

    method AddEdge(source: int, destination: int)
      modifies this
      ensures graph == DiGraph.AddEdge(old(graph), source, destination) && path == old(path)
    {
      graph := DiGraph.AddEdge(graph, source, destination);
    }

    method AddVertex(vertex: int, data: D)
      modifies this
      ensures graph == DiGraph.AddNode(old(graph), vertex, data) && path == old(path)
    {
      graph := DiGraph.AddNode(graph, vertex, data);
    }

    method PushToPath(vertex: int)
      modifies this
      ensures path == old(path) + [vertex] && graph == old(graph)
    {
      path := path + [vertex];
    }

    method PopFromPath() returns (r: Result<int, PathError>)
      modifies this
      ensures (path, r) == PathPop(old(path)) && graph == old(graph)
    {
      if path == [] {
        return Err(IndexError);
      }
      r := Ok(path[|path| - 1]);
      path := path[..|path| - 1];
    }
  }

  /** `SimpleBufferedGraphColouringStrategy`: a vertex counter and a frontier over a context. */
  class Strategy<D> {
    var nodes: int
    var frontier: int
    const context: Context<D>

    ghost function View(): State<D>
      reads this, context
    {
      State(nodes, frontier, context.graph, context.path)
    }

    constructor (context: Context<D>)
      ensures nodes == 0 && frontier == 0 && this.context == context
    {
      nodes := 0;
      frontier := 0;
      this.context := context;
    }

    method Extend(data: D)
      modifies this, context
      ensures View() == ExtendStep(old(View()), data)
    {
      nodes := nodes + 1;
      context.AddVertex(nodes, data);
      context.AddEdge(frontier, nodes);
      context.PushToPath(frontier);
      frontier := nodes;
    }

    method Retreat() returns (r: Result<(), PathError>)
      modifies this, context
      ensures (View(), r) == RetreatStep(old(View()))
    {
      var popped := context.PopFromPath();
      if popped.Err? {
        return Err(popped.error);
      }
      frontier := popped.value;
      r := Ok(());
    }
  }

  /** `SimpleBroadcastFacade`: starts and stops traces through a strategy of its own. */
  class Facade<D> {
    const strategy: Strategy<D>

    constructor ()
      ensures fresh(strategy) && fresh(strategy.context)
      ensures strategy.View() == Init()
    {
      var context := new Context<D>();
      strategy := new Strategy<D>(context);
    }

    /** `trace(data)` is `extend(data)`. */
    method Trace(data: D)
      modifies strategy, strategy.context
      ensures strategy.View() == ExtendStep(old(strategy.View()), data)
    {
      strategy.Extend(data);
    }

    /** `untrace()` is `retreat()`. */
    method Untrace() returns (r: Result<(), PathError>)
      modifies strategy, strategy.context
      ensures (strategy.View(), r) == RetreatStep(old(strategy.View()))
    {
      r := strategy.Retreat();
    }
  }

  /** The context test: vertices listed in insertion order, one edge, and the path popped last
      vertex first. */
  method ContextScenario<D>(d: D) returns (nodes: seq<int>, edges: set<(int, int)>, first: Result<int, PathError>, second: Result<int, PathError>)
    ensures nodes == [0, 9] && edges == {(0, 9)}
    ensures first == Ok(9) && second == Ok(0)
  {
    var context := new Context<D>();
    context.AddVertex(0, d);
    context.AddVertex(9, d);
    context.AddEdge(0, 9);
    nodes, edges := context.graph.nodes, context.graph.edges;
    context.PushToPath(0);
    context.PushToPath(9);
    first := context.PopFromPath();
    second := context.PopFromPath();
  }

  /** The facade test: one trace and one untrace leave one edge, an empty path, the counter at 1,
      the frontier back at 0, and the traced datum on vertex 1. */
  method FacadeScenario<D>(d: D) returns (edges: set<(int, int)>, path: seq<int>, nodes: int, frontier: int, stored: Result<Option<D>, DiGraph.LookupError>)
    ensures edges == {(0, 1)} && path == [] && nodes == 1 && frontier == 0
    ensures stored == Ok(Some(d))
  {
    var facade := new Facade<D>();
    facade.Trace(d);
    var r := facade.Untrace();
    ghost var t := facade.strategy.View();
    TraceUntrace(d);
    var s := facade.strategy;
    edges, path, nodes, frontier := s.context.graph.edges, s.context.path, s.nodes, s.frontier;
    stored := DiGraph.Load(s.context.graph, 1);
  }

  /** One trace and one untrace from a fresh facade, on the state values. */
  lemma TraceUntrace<D>(d: D)
    ensures var t := RetreatStep(ExtendStep(Init(), d)).0;
            && t.graph.edges == {(0, 1)} && t.path == [] && t.nodes == 1 && t.frontier == 0
            && DiGraph.Load(t.graph, 1) == Ok(Some(d))
  {
    ExtendThenRetreat(Init(), d);
  }
}
