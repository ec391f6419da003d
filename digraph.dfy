/** The part of a networkx `DiGraph` that the broadcast context and the graph database rely on:
    the vertices in the order they were first added, each vertex's optional `data` attribute
    (`None` when the vertex only came into being as an edge endpoint), and the set of edges. */
module DiGraph {
  import opened Wrappers

  datatype Graph<L(==), D> = Graph(nodes: seq<L>, data: map<L, Option<D>>, edges: set<(L, L)>)

  /** `graph.nodes[label]` on a label that is not a vertex. */
  datatype LookupError = KeyError

  /** Every vertex is listed once, the listed vertices are exactly those with an attribute slot,
      and every edge joins two vertices. */
  ghost predicate WellFormed<L(!new), D>(g: Graph<L, D>) {
    && (forall i, j :: 0 <= i < j < |g.nodes| ==> g.nodes[i] != g.nodes[j])
    && (forall l :: l in g.data <==> l in g.nodes)
    && (forall e :: e in g.edges ==> e.0 in g.data && e.1 in g.data)
  }

  /** `DiGraph()`. */
  function Empty<L(==, !new), D>(): (g: Graph<L, D>)
    ensures WellFormed(g) && g.nodes == [] && g.edges == {}
    ensures forall l :: l !in g.data
  {
    Graph([], map[], {})
  }

  /** Adds a vertex without attributes unless it is already there: afterwards `l` is a vertex,
      a known one is left as it was, and no edge is added. */
  function Touch<L(==), D>(g: Graph<L, D>, l: L): (r: Graph<L, D>)
    ensures l in r.data && r.edges == g.edges
    ensures l in g.data ==> r == g
    ensures l !in g.data ==> r.data[l] == None
  {
    if l in g.data then g else Graph(g.nodes + [l], g.data[l := None], g.edges)
  }

  /** `add_node(label, data=d)`: a new label goes to the end of the vertex list; an existing one
      keeps its place and has its `data` attribute replaced. Either way the vertex then carries
      `d`, and the edges are untouched. */
  function AddNode<L(==), D>(g: Graph<L, D>, l: L, d: D): (r: Graph<L, D>)
    ensures l in r.data && r.data[l] == Some(d)
    ensures r.edges == g.edges
  {
    Graph(if l in g.data then g.nodes else g.nodes + [l], g.data[l := Some(d)], g.edges)
  }

  /** `add_edge(u, v)`: adds `u` and then `v` as bare vertices when missing, then the edge; both
      endpoints are vertices afterwards and no edge is lost. */
  function AddEdge<L(==), D>(g: Graph<L, D>, u: L, v: L): (r: Graph<L, D>)
    ensures (u, v) in r.edges && g.edges <= r.edges
    ensures u in r.data && v in r.data
  {
    var h := Touch(Touch(g, u), v);
    h.(edges := h.edges + {(u, v)})
  }

  /** `graph.nodes[label].get('data')`: fails on a label that is not a vertex, and gives `None` for
      a vertex that has no `data` attribute. */
  function Load<L(==), D>(g: Graph<L, D>, l: L): (r: Result<Option<D>, LookupError>)
    ensures r.Ok? <==> l in g.data
    ensures r.Ok? ==> r.value == g.data[l]
  {
    if l in g.data then Ok(g.data[l]) else Err(KeyError)
  }

  lemma TouchPreservesWellFormed<L(!new), D>(g: Graph<L, D>, l: L)
    requires WellFormed(g)
    ensures WellFormed(Touch(g, l))
  {
  }

  /** Both writes keep the graph well formed. */
  lemma AddNodePreservesWellFormed<L(!new), D>(g: Graph<L, D>, l: L, d: D)
    requires WellFormed(g)
    ensures WellFormed(AddNode(g, l, d))
  {
  }

  lemma AddEdgePreservesWellFormed<L(!new), D>(g: Graph<L, D>, u: L, v: L)
    requires WellFormed(g)
    ensures WellFormed(AddEdge(g, u, v))
  {
    TouchPreservesWellFormed(g, u);
    TouchPreservesWellFormed(Touch(g, u), v);
  }

  /** Writing a vertex and then loading it gives back the data written, whatever was there. */
  lemma LoadAfterWrite<L, D>(g: Graph<L, D>, l: L, d: D)
    ensures Load(AddNode(g, l, d), l) == Ok(Some(d))
  {
  }

  /** A new label is appended to the vertex list; a known one does not move. */
  lemma AddNodeOrder<L, D>(g: Graph<L, D>, l: L, d: D)
    ensures l !in g.data ==> AddNode(g, l, d).nodes == g.nodes + [l]
    ensures l in g.data ==> AddNode(g, l, d).nodes == g.nodes
  {
  }

  /** An edge is recorded even between labels never written as vertices; those become vertices
      without data, listed source first, and nothing else is added. */
  lemma AddEdgeRecords<L, D>(g: Graph<L, D>, u: L, v: L)
    ensures AddEdge(g, u, v).edges == g.edges + {(u, v)}
    ensures Load(AddEdge(g, u, v), u).Ok? && Load(AddEdge(g, u, v), v).Ok?
    ensures u !in g.data && u != v ==> AddEdge(g, u, v).nodes == g.nodes + [u] + (if v in g.data then [] else [v])
    ensures u in g.data && v in g.data ==> AddEdge(g, u, v).nodes == g.nodes
  {
  }

  /** A vertex that only exists as an edge endpoint loads as `None`. */
  lemma EdgeEndpointHasNoData<L, D>(g: Graph<L, D>, u: L, v: L, l: L)
    requires l !in g.data && (l == u || l == v)
    ensures Load(AddEdge(g, u, v), l) == Ok(None)
  {
  }

  /** Loading a label that was never written, as a vertex or as an endpoint, fails. */
  lemma LoadAbsentFails<L, D>(g: Graph<L, D>, l: L)
    requires l !in g.data
    ensures Load(g, l) == Err(KeyError)
  {
  }

  /** Writing an edge, or a vertex under another label, leaves every other stored datum as it was. */
  lemma WritesKeepOtherData<L, D>(g: Graph<L, D>, l: L, d: D, u: L, v: L, other: L)
    requires other != l
    ensures Load(AddNode(g, l, d), other) == Load(g, other)
    ensures other in g.data ==> Load(AddEdge(g, u, v), other) == Load(g, other)
  {
  }
}
