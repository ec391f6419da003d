/** `SimpleGraphDB`: a directed graph to which vertices with data and unlabelled edges are
    written, and from which a vertex's data is loaded back. */
module GraphDB {
  import opened Wrappers
  import DiGraph

  class SimpleGraphDB<L(==, !new), D> {
    var graph: DiGraph.Graph<L, D>

    constructor ()
      ensures graph == DiGraph.Empty()
    {
      graph := DiGraph.Empty();
    }

    /** `write_stateful_vertex(label, data)`. */
    method WriteStatefulVertex(vertex: L, data: D)
      modifies this
      ensures graph == DiGraph.AddNode(old(graph), vertex, data)
    {
      graph := DiGraph.AddNode(graph, vertex, data);
    }

    /** `write_stateless_directed_edge(source, destination)`. */
    method WriteStatelessDirectedEdge(source: L, destination: L)
      modifies this
      ensures graph == DiGraph.AddEdge(old(graph), source, destination)
    {
      graph := DiGraph.AddEdge(graph, source, destination);
    }

    /** `load_stateful_vertex(label)`: the vertex's data attribute, `None` when it has none, and a
        failure when the label is not a vertex. */
    function LoadStatefulVertex(vertex: L): (r: Result<Option<D>, DiGraph.LookupError>)
      reads this
      ensures r.Ok? <==> vertex in graph.data
      ensures r.Ok? ==> r.value == graph.data[vertex]
    {
      DiGraph.Load(graph, vertex)
    }
  }

  /** The vertex test: writing 0 and then 9 lists the vertices in that order. */
  method VertexOrderScenario<D>(d: D) returns (first: seq<int>, second: seq<int>)
    ensures first == [0] && second == [0, 9]
  {
    var db := new SimpleGraphDB<int, D>();
    db.WriteStatefulVertex(0, d);
    first := db.graph.nodes;
    db.WriteStatefulVertex(9, d);
    second := db.graph.nodes;
  }

  /** The edge test: an edge between two labels never written is recorded, both endpoints become
      vertices that load as `None`, and nothing else is loadable. */
  method EdgeScenario<D>() returns (edges: set<(int, int)>, nodes: seq<int>, source: Result<Option<D>, DiGraph.LookupError>, other: Result<Option<D>, DiGraph.LookupError>)
    ensures edges == {(0, 9)} && nodes == [0, 9]
    ensures source == Ok(None) && other == Err(DiGraph.KeyError)
  {
    var db := new SimpleGraphDB<int, D>();
    db.WriteStatelessDirectedEdge(0, 9);
    edges, nodes := db.graph.edges, db.graph.nodes;
    source := db.LoadStatefulVertex(0);
    other := db.LoadStatefulVertex(1);
  }

  /** A write followed by a load of the same label gives back what was written. */
  method WriteThenLoad<L(==, !new), D>(db: SimpleGraphDB<L, D>, vertex: L, data: D) returns (r: Result<Option<D>, DiGraph.LookupError>)
    modifies db
    ensures r == Ok(Some(data))
  {
    db.WriteStatefulVertex(vertex, data);
    r := db.LoadStatefulVertex(vertex);
  }
}
