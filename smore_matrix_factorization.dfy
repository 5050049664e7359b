/**
 * The older trainer's matrix-factorization model: it checks the edge list,
 * builds the graph with the rows' ids kept as doubles, and caches a pronet
 * edge sampler over it. Its `train()` is an empty stub.
 */
module SmoreMatrixFactorization {
  import opened Wrappers
  import opened DiGraph
  import opened Fixtures
  import opened SmorePronetSampler
  import PysmoreMatrixFactorization
  import PysmoreLossFunction

  type EdgeListInput = PysmoreMatrixFactorization.EdgeListInput

  /** The two exceptions `__init__` raises on a bad edge list: `raise ValueError` and a failed `assert`. */
  datatype LoadError = ValueError | AssertionError

  /** The checks at the top of `__init__`: a numpy array first, then exactly 3 columns. */
  function Validate(input: EdgeListInput): (r: Outcome<LoadError>)
    ensures r == Fail(ValueError) <==> !input.NdArray?
    ensures r == Fail(AssertionError) <==> input.NdArray? && input.columns != 3
    ensures r == Pass <==> input.NdArray? && input.columns == 3
  {
    if !input.NdArray? then Fail(ValueError)
    else if input.columns != 3 then Fail(AssertionError)
    else Pass
  }

  /**
   * A 2-column array, which the newer trainer loads with weight 1, fails the
   * assertion here; 1- and 4-column arrays fail it too, and a plain list is a
   * ValueError in both trainers.
   */
  lemma {:induction false} InvalidInputs(rows: seq<seq<real>>, dtype: PysmoreMatrixFactorization.DType)
    ensures Validate(PysmoreMatrixFactorization.NdArray(dtype, 2, rows)) == Fail(AssertionError)
    ensures PysmoreMatrixFactorization.Validate(PysmoreMatrixFactorization.NdArray(dtype, 2, rows)) == Pass
    ensures Validate(PysmoreMatrixFactorization.NdArray(dtype, 1, rows)) == Fail(AssertionError)
    ensures Validate(PysmoreMatrixFactorization.NdArray(dtype, 4, rows)) == Fail(AssertionError)
    ensures Validate(PysmoreMatrixFactorization.Other) == Fail(ValueError)
    ensures PysmoreMatrixFactorization.Validate(PysmoreMatrixFactorization.Other) == Fail(PysmoreMatrixFactorization.ValueError)
    ensures Validate(PysmoreMatrixFactorization.NdArray(dtype, 3, rows)) == Pass
  {
  }

  /** Whatever the newer trainer accepts with 3 columns the older one accepts too, and it accepts nothing else. */
  lemma {:induction false} AcceptsFewer(input: EdgeListInput)
    ensures Validate(input).Pass? ==> PysmoreMatrixFactorization.Validate(input).Pass?
    ensures PysmoreMatrixFactorization.Validate(input).Pass? ==> (Validate(input).Pass? <==> input.columns == 3)
  {
  }

  // ---------------------------------------------------------------------
  // The graph

  predicate RowsOfThree(rows: seq<seq<real>>) {
    forall i :: 0 <= i < |rows| ==> |rows[i]| == 3
  }

  /** The `add_edge(edge[0], edge[1], weight=edge[2])` call of each row, the ids left as doubles. */
  function Triples(rows: seq<seq<real>>): (ts: seq<(real, real, real)>)
    requires RowsOfThree(rows)
    ensures |ts| == |rows|
  {
    seq(|rows|, i requires 0 <= i < |rows| => (rows[i][0], rows[i][1], rows[i][2]))
  }

  /** The graph `build_graph` leaves behind: the rows' `add_edge` calls on an empty graph, in order. */
  function BuiltGraph(rows: seq<seq<real>>): Graph<real>
    requires RowsOfThree(rows)
  {
    AddWeightedEdgesFrom(Empty(), Triples(rows))
  }

  /** The distinct ids of the rows and their distinct (source, target) pairs. */
  function Ids(rows: seq<seq<real>>): set<real>
    requires RowsOfThree(rows)
  {
    (set t | t in Triples(rows) :: t.0) + (set t | t in Triples(rows) :: t.1)
  }

  function Pairs(rows: seq<seq<real>>): set<(real, real)>
    requires RowsOfThree(rows)
  {
    set t | t in Triples(rows) :: (t.0, t.1)
  }

  /**
   * The built graph is a valid DiGraph whose nodes are exactly the ids the
   * rows name, as doubles, and whose edges are exactly their distinct pairs,
   * so `node_num` and `edge_num` count distinct ids and distinct pairs.
   */
  lemma {:induction false} BuiltGraphCounts(rows: seq<seq<real>>)
    requires RowsOfThree(rows)
    ensures Valid(BuiltGraph(rows))
    ensures Elements(BuiltGraph(rows).nodes) == Ids(rows)
    ensures PairSet(BuiltGraph(rows)) == Pairs(rows)
    ensures |BuiltGraph(rows).nodes| == |Ids(rows)|
    ensures |BuiltGraph(rows).edges| == |Pairs(rows)|
  {
    var g := BuiltGraph(rows);
    assert Valid(Empty<real>());
    AddWeightedEdgesFromSpec(Empty(), Triples(rows));
    ValidCounts(g);
  }

  /** Each row's edge is in the graph with the row's weight unless a later row names the same pair. */
  lemma {:induction false} BuiltGraphEdge(rows: seq<seq<real>>, i: nat)
    requires RowsOfThree(rows) && i < |rows|
    requires forall j :: i < j < |rows| ==> (rows[j][0], rows[j][1]) != (rows[i][0], rows[i][1])
    ensures Edge(rows[i][0], rows[i][1], Some(rows[i][2])) in BuiltGraph(rows).edges
  {
    assert Valid(Empty<real>());
    LastWriteWins(Empty(), Triples(rows), i);
  }

  /** The loop of `build_graph()`: one `add_edge(edge[0], edge[1], weight=edge[2])` per row, in order, on an empty graph. */
  method AddRows(rows: seq<seq<real>>) returns (g: Graph<real>)
    requires RowsOfThree(rows)
    ensures g == BuiltGraph(rows)
  {
    ghost var ts := Triples(rows);
    g := Empty();
    LoadStart(ts);
    for i := 0 to |rows|
      invariant Loaded(ts, i, g)
    {
      ghost var before := g;
      var edge := rows[i];
      g := AddEdge(g, edge[0], edge[1], edge[2]);
      LoadStep(ts, i, before, g);
    }
    LoadEnd(ts, g);
  }

  // ---------------------------------------------------------------------
  // The model

  /** `MatrixFactorization(edge_list, dimension)` of the older trainer. */
  class MatrixFactorization {
    const dimension: int
    var edgeList: EdgeListInput
    var graph: Graph<real>
    var edgeNum: Option<nat>
    var nodeNum: Option<nat>
    var sampler: EdgeSampler?<real>

    /**
     * The state `__init__` leaves: the double edge list, the graph built from
     * it with its counts, and a pronet sampler over that graph.
     */
    ghost predicate Built()
      reads this
    {
      && edgeList.NdArray? && edgeList.dtype == PysmoreMatrixFactorization.Double && RowsOfThree(edgeList.rows)
      && graph == BuiltGraph(edgeList.rows) && Valid(graph)
      && nodeNum == Some(|graph.nodes|) && edgeNum == Some(|graph.edges|)
      && sampler != null && sampler.graph == graph && sampler.Cached()
    }

    /**
     * `MatrixFactorization(edge_list, dimension)` past its checks: the edge
     * list cast to double, the graph built, and the sampler created over it.
     */
    constructor(edgeList: EdgeListInput, dimension: int := 64)
      requires Validate(edgeList).Pass? && PysmoreMatrixFactorization.WellShaped(edgeList)
      ensures Built()
      ensures this.edgeList == PysmoreMatrixFactorization.AsDouble(edgeList) && graph == BuiltGraph(edgeList.rows)
      ensures this.dimension == dimension
      ensures fresh(sampler)
    {
      this.dimension := dimension;
      this.edgeList := PysmoreMatrixFactorization.AsDouble(edgeList);
      graph := Empty();
      edgeNum := None;
      nodeNum := None;
      sampler := null;
      new;
      BuildGraph();
      var smp := new EdgeSampler(graph);
      sampler := smp;
    }

    /** `build_graph()`: one `add_edge` per row in order, then the edge and node counts. */
    method BuildGraph()
      requires edgeList.NdArray? && RowsOfThree(edgeList.rows) && graph == Empty()
      modifies this
      ensures edgeList == old(edgeList) && sampler == old(sampler)
      ensures graph == BuiltGraph(edgeList.rows) && Valid(graph)
      ensures nodeNum == Some(|graph.nodes|) && edgeNum == Some(|graph.edges|)
    {
      graph := AddRows(edgeList.rows);
      BuiltGraphCounts(edgeList.rows);
      edgeNum := Some(|graph.edges|);
      nodeNum := Some(|graph.nodes|);
    }

    /** `train()`: its body is only a docstring, so it changes nothing. */
    method Train()
      ensures unchanged(this)
    {
    }
  }

  /**
   * `MatrixFactorization(...)` with its checks: a ValueError for anything but
   * a numpy array, an AssertionError for an array without exactly 3 columns,
   * the built model otherwise.
   */
  method Load(edgeList: EdgeListInput, dimension: int := 64) returns (r: Result<MatrixFactorization, LoadError>)
    requires PysmoreMatrixFactorization.WellShaped(edgeList)
    ensures r.Failure? <==> Validate(edgeList).Fail?
    ensures r.Failure? ==> Validate(edgeList) == Fail(r.error)
    ensures r.Success? ==> fresh(r.value) && r.value.Built() && r.value.graph == BuiltGraph(edgeList.rows)
  {
    match Validate(edgeList)
    case Fail(e) =>
      return Failure(e);
    case Pass =>
      var model := new MatrixFactorization(edgeList, dimension);
      return Success(model);
  }

  // ---------------------------------------------------------------------
  // The graph the sampler and distribution tests load

  /** The rows of `mf_graph`. */
  function MfRows(): (rows: seq<seq<real>>)
    ensures RowsOfThree(rows)
  {
    [[1.0, 2.0, 0.1], [1.0, 3.0, 0.3], [2.0, 4.0, 0.2], [3.0, 4.0, 0.4]]
  }

  /** A new edge whose source comes no earlier than any present edge's joins the end of the list. */
  lemma {:induction false} InsertAtEnd(es: seq<Edge<real>>, e: Edge<real>, nodes: seq<real>)
    requires forall k :: 0 <= k < |es| ==> Rank(nodes, es[k].source) <= Rank(nodes, e.source)
    ensures InsertInGroup(es, e, nodes) == es + [e]
    decreases |es|
  {
    if es != [] {
      InsertAtEnd(es[1..], e, nodes);
      assert [es[0]] + (es[1..] + [e]) == es + [e];
    }
  }

  /** Positions of the fixture's nodes once all four are present. */
  lemma NodeRanks()
    ensures Rank([1.0, 2.0, 3.0, 4.0], 1.0) == 0 && Rank([1.0, 2.0, 3.0, 4.0], 2.0) == 1
    ensures Rank([1.0, 2.0, 3.0, 4.0], 3.0) == 2
  {
    MfGraphRanks();
  }

  /** The fixture's first call: both endpoints are new. */
  lemma MfFirstEdge()
    ensures AddEdge(Empty(), 1.0, 2.0, 0.1) == Graph([1.0, 2.0], [Edge(1.0, 2.0, Some(0.1))])
  {
  }

  /** The second call: node 3 is new and the edge joins node 1's group. */
  lemma MfSecondEdge()
    ensures AddEdge(Graph([1.0, 2.0], [Edge(1.0, 2.0, Some(0.1))]), 1.0, 3.0, 0.3)
      == Graph([1.0, 2.0, 3.0], [Edge(1.0, 2.0, Some(0.1)), Edge(1.0, 3.0, Some(0.3))])
  {
    var es, ns := [Edge(1.0, 2.0, Some(0.1))], [1.0, 2.0, 3.0];
    assert FindEdge(es, 1.0, 3.0).None?;
    assert AddNode(AddNode([1.0, 2.0], 1.0), 3.0) == ns;
    InsertAtEnd(es, Edge(1.0, 3.0, Some(0.3)), ns);
  }

  /** The third call: node 4 is new and the edge goes after node 1's group. */
  lemma MfThirdEdge()
    ensures AddEdge(Graph([1.0, 2.0, 3.0], [Edge(1.0, 2.0, Some(0.1)), Edge(1.0, 3.0, Some(0.3))]), 2.0, 4.0, 0.2)
      == Graph([1.0, 2.0, 3.0, 4.0], [Edge(1.0, 2.0, Some(0.1)), Edge(1.0, 3.0, Some(0.3)), Edge(2.0, 4.0, Some(0.2))])
  {
    var es, ns := [Edge(1.0, 2.0, Some(0.1)), Edge(1.0, 3.0, Some(0.3))], [1.0, 2.0, 3.0, 4.0];
    assert FindEdge(es, 2.0, 4.0).None?;
    assert [1.0, 2.0, 3.0][1] == 2.0 && 4.0 !in [1.0, 2.0, 3.0];
    assert [1.0, 2.0, 3.0] + [4.0] == ns;
    NodeRanks();
    assert es[0].source == 1.0 && es[1].source == 1.0;
    forall k | 0 <= k < |es| ensures Rank(ns, es[k].source) <= 1 {
      if k == 0 {
      } else {
        assert k == 1;
      }
    }
    InsertAtEnd(es, Edge(2.0, 4.0, Some(0.2)), ns);
    assert es + [Edge(2.0, 4.0, Some(0.2))] == [Edge(1.0, 2.0, Some(0.1)), Edge(1.0, 3.0, Some(0.3)), Edge(2.0, 4.0, Some(0.2))];
  }

  /** The last call: both endpoints exist and the edge goes after node 2's group. */
  lemma MfFourthEdge()
    ensures AddEdge(Graph([1.0, 2.0, 3.0, 4.0], [Edge(1.0, 2.0, Some(0.1)), Edge(1.0, 3.0, Some(0.3)), Edge(2.0, 4.0, Some(0.2))]), 3.0, 4.0, 0.4)
      == MfGraph()
  {
    var es, ns := [Edge(1.0, 2.0, Some(0.1)), Edge(1.0, 3.0, Some(0.3)), Edge(2.0, 4.0, Some(0.2))], [1.0, 2.0, 3.0, 4.0];
    assert FindEdge(es, 3.0, 4.0).None?;
    NodeRanks();
    assert es[0].source == 1.0 && es[1].source == 1.0 && es[2].source == 2.0;
    forall k | 0 <= k < |es| ensures Rank(ns, es[k].source) <= 2 {
      if k == 0 {
      } else if k == 1 {
      } else {
        assert k == 2;
      }
    }
    InsertAtEnd(es, Edge(3.0, 4.0, Some(0.4)), ns);
    assert es + [Edge(3.0, 4.0, Some(0.4))] == MfGraph().edges;
  }

  /** Loading those rows one call at a time gives exactly the shared fixture graph. */
  lemma MfRowsBuildFixture()
    ensures BuiltGraph(MfRows()) == MfGraph()
  {
    var rows := MfRows();
    var g1 := Graph([1.0, 2.0], [Edge(1.0, 2.0, Some(0.1))]);
    var g2 := Graph([1.0, 2.0, 3.0], [Edge(1.0, 2.0, Some(0.1)), Edge(1.0, 3.0, Some(0.3))]);
    var g3 := Graph([1.0, 2.0, 3.0, 4.0], [Edge(1.0, 2.0, Some(0.1)), Edge(1.0, 3.0, Some(0.3)), Edge(2.0, 4.0, Some(0.2))]);
    var ts := Triples(rows);
    LoadStart(ts);
    MfFirstEdge();
    LoadStep(ts, 0, Empty(), g1);
    MfSecondEdge();
    LoadStep(ts, 1, g1, g2);
    MfThirdEdge();
    LoadStep(ts, 2, g2, g3);
    MfFourthEdge();
    LoadStep(ts, 3, g3, MfGraph());
    LoadEnd(ts, MfGraph());
  }

  /** The model over `mf_graph`'s rows counts 4 nodes and 4 edges and samples from the fixture's lists. */
  lemma {:induction false} MfModel(m: MatrixFactorization)
    requires m.Built() && m.edgeList.rows == MfRows()
    ensures m.graph == MfGraph()
    ensures m.nodeNum == Some(4) && m.edgeNum == Some(4)
    ensures m.sampler.nodeDistribution == [0.4, 0.3, 0.7, 0.6]
    ensures m.sampler.negativeDistribution == [0.0, 0.1, 0.3, 0.6]
    ensures m.sampler.edgeDistribution == [0.1, 0.3, 0.2, 0.4]
  {
    MfRowsBuildFixture();
    SamplerFixture(m.sampler);
  }

  /** Unlike the newer trainer, ids are not truncated: a row (1.5, 2, w) adds the nodes 1.5 and 2. */
  lemma FractionalIdsKept()
    ensures RowsOfThree([[1.5, 2.0, 0.5]]) && PysmoreMatrixFactorization.RowsOfWidth([[1.5, 2.0, 0.5]])
    ensures BuiltGraph([[1.5, 2.0, 0.5]]) == Graph([1.5, 2.0], [Edge(1.5, 2.0, Some(0.5))])
    ensures PysmoreMatrixFactorization.BuiltGraph([[1.5, 2.0, 0.5]]) == Graph([1, 2], [Edge(1, 2, Some(0.5))])
  {
    var rows := [[1.5, 2.0, 0.5]];
    assert Triples(rows) == [(1.5, 2.0, 0.5)];
    assert Triples(rows)[..0] == [];
    assert PysmoreLossFunction.Trunc(1.5) == 1 && PysmoreLossFunction.Trunc(2.0) == 2;
    assert PysmoreMatrixFactorization.Triples(rows) == [(1, 2, 0.5)];
    assert PysmoreMatrixFactorization.Triples(rows)[..0] == [];
  }
}
