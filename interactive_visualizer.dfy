/**
 * The graph data behind the interactive visualizer: one node per agent,
 * edges by connection pattern numbered in creation order, connectivity
 * statistics, agent colours and the output file name. The HTML page built
 * around this data is not part of this model.
 */
module InteractiveVisualizer {
  import opened Wrappers
  import opened Text
  import ComprehensiveDemo

  /** The default colour, for agent types outside the palette. */
  const DefaultColor: string := "#DDA0DD"

  /** The colour of an agent type; types outside the palette get the default colour. */
  function AgentColor(agentType: string): (color: string)
    ensures color == DefaultColor <==> agentType !in {"IO", "TOT", "COT", "WEB", "TOOL"}
  {
    var colors := map["IO" := "#FF6B6B", "TOT" := "#4ECDC4", "COT" := "#45B7D1", "WEB" := "#96CEB4", "TOOL" := "#FFEAA7"];
    if agentType in colors then colors[agentType] else DefaultColor
  }

  /** Different agent types of the palette are drawn in different colours. */
  lemma PaletteDistinguishesTypes(a: string, b: string)
    requires a in {"IO", "TOT", "COT", "WEB", "TOOL"} && b in {"IO", "TOT", "COT", "WEB", "TOOL"}
    requires a != b
    ensures AgentColor(a) != AgentColor(b)
  {
  }

  /**
   * The output file name of a graph: "graph_", then the lower-cased name
   * with every space turned into an underscore, then ".html".
   */
  function GraphFileName(name: string): (file: string)
    ensures |file| == |name| + 11
    ensures file[..6] == "graph_" && file[|file| - 5..] == ".html"
    ensures forall i :: 0 <= i < |name| ==> file[6 + i] == (if name[i] == ' ' then '_' else LowerChar(name[i]))
    ensures forall i :: 6 <= i < |file| - 5 ==> file[i] != ' ' && !('A' <= file[i] <= 'Z')
  {
    "graph_" + ReplaceChar(Lower(name), ' ', '_') + ".html"
  }

  datatype Node = Node(id: nat, labelText: string, agentType: string, color: string, size: nat)
  datatype Edge = Edge(id: nat, from: nat, to: nat, weight: real, color: string)
  datatype GraphStats = GraphStats(numNodes: nat, numEdges: nat, connectivity: real)
  datatype GraphData = GraphData(nodes: seq<Node>, edges: seq<Edge>, stats: GraphStats)

  /** The node of agent `i`: labelled with its type and index, larger for a TOT agent. */
  function NodeOf(i: nat, agentType: string): Node
  {
    Node(i, agentType + "_" + NatToString(i), agentType, AgentColor(agentType), if agentType == "TOT" then 20 else 15)
  }

  /** Consecutive pairs (i, i + 1) of n nodes. */
  function SequentialPairs(n: nat): seq<(nat, nat)>
  {
    seq(if n == 0 then 0 else n - 1, i requires 0 <= i => (i, i + 1))
  }

  /** The pairs (i, j) with i < j < n, for one row i. */
  function RowPairs(i: nat, n: nat): seq<(nat, nat)>
    requires i < n
  {
    seq(n - i - 1, k requires 0 <= k => (i, i + 1 + k))
  }

  /** The pairs of the first `rows` rows, row by row. */
  function PairsBefore(rows: nat, n: nat): seq<(nat, nat)>
    requires rows <= n
    decreases rows
  {
    if rows == 0 then [] else PairsBefore(rows - 1, n) + RowPairs(rows - 1, n)
  }

  /** Every unordered pair of n nodes, smaller index first. */
  function FullPairs(n: nat): seq<(nat, nat)>
  {
    PairsBefore(n, n)
  }

  /** The pairs (0, i) for 1 <= i < n: node 0 is the hub. */
  function HubPairs(n: nat): seq<(nat, nat)>
  {
    seq(if n == 0 then 0 else n - 1, k requires 0 <= k => (0, k + 1))
  }

  /** The pairs a connection label asks for; an unknown label asks for none. */
  function PairsFor(connections: string, n: nat): seq<(nat, nat)>
  {
    if connections == "sequential" then SequentialPairs(n)
    else if connections == "full" then FullPairs(n)
    else if connections == "hub" then HubPairs(n)
    else []
  }

  /** The weight and colour of the edges of a connection label. */
  function EdgeStyle(connections: string): (real, string)
  {
    if connections == "sequential" then (0.8, "#2E8B57")
    else if connections == "full" then (0.6, "#4169E1")
    else (0.7, "#DC143C")
  }

  /** The pairs as edges numbered 0, 1, ... in order. */
  function EdgesOf(pairs: seq<(nat, nat)>, style: (real, string)): seq<Edge>
  {
    seq(|pairs|, k requires 0 <= k < |pairs| => Edge(k, pairs[k].0, pairs[k].1, style.0, style.1))
  }

  /** Edges over the number of possible pairs, 0 for fewer than two nodes. */
  function Connectivity(numEdges: nat, n: nat): real
  {
    if n > 1 then numEdges as real / ((n * (n - 1)) as real / 2.0) else 0.0
  }

  /** The graph data of a team under a connection label. */
  function GraphDataOf(agents: seq<string>, connections: string): GraphData
  {
    var n := |agents|;
    var edges := EdgesOf(PairsFor(connections, n), EdgeStyle(connections));
    GraphData(
      seq(n, i requires 0 <= i < n => NodeOf(i, agents[i])),
      edges,
      GraphStats(n, |edges|, Connectivity(|edges|, n)))
  }

  /** Builds the nodes, then the edges of the label with a running edge id, then the statistics. */
  method GenerateGraphData(agents: seq<string>, connections: string) returns (data: GraphData)
    ensures data == GraphDataOf(agents, connections)
  {
    var n := |agents|;
    var nodes := BuildNodes(agents);
    var edges: seq<Edge> := [];
    if connections == "sequential" {
      edges := SequentialEdges(n);
    } else if connections == "full" {
      edges := FullEdges(n);
    } else if connections == "hub" {
      edges := HubEdges(n);
    }
    assert edges == EdgesOf(PairsFor(connections, n), EdgeStyle(connections));
    var connectivity := if n > 1 then |edges| as real / ((n * (n - 1)) as real / 2.0) else 0.0;
    data := GraphData(nodes, edges, GraphStats(n, |edges|, connectivity));
  }

  /** The nodes of a team, one per agent in team order. */
  method BuildNodes(agents: seq<string>) returns (nodes: seq<Node>)
    ensures nodes == seq(|agents|, i requires 0 <= i < |agents| => NodeOf(i, agents[i]))
  {
    nodes := [];
    for i := 0 to |agents|
      invariant |nodes| == i
      invariant forall k :: 0 <= k < i ==> nodes[k] == NodeOf(k, agents[k])
    {
      var agentType := agents[i];
      nodes := nodes + [Node(i, agentType + "_" + NatToString(i), agentType, AgentColor(agentType), if agentType == "TOT" then 20 else 15)];
    }
  }

  /** The sequential edges: node i to node i + 1, numbered by a running edge id. */
  method SequentialEdges(n: nat) returns (edges: seq<Edge>)
    ensures edges == EdgesOf(SequentialPairs(n), (0.8, "#2E8B57"))
  {
    edges := [];
    var edgeId := 0;
    var i := 0;
    while i < n - 1
      invariant 0 <= i && (n == 0 ==> i == 0) && (0 < n ==> i <= n - 1)
      invariant edgeId == |edges| == i
      invariant forall k :: 0 <= k < i ==> edges[k] == Edge(k, k, k + 1, 0.8, "#2E8B57")
    {
      edges := edges + [Edge(edgeId, i, i + 1, 0.8, "#2E8B57")];
      edgeId := edgeId + 1;
      i := i + 1;
    }
  }

  /** The full edges: every pair i < j, row by row, numbered by a running edge id. */
  method FullEdges(n: nat) returns (edges: seq<Edge>)
    ensures edges == EdgesOf(FullPairs(n), (0.6, "#4169E1"))
  {
    edges := [];
    var edgeId := 0;
    for i := 0 to n
      invariant edgeId == |edges|
      invariant edges == EdgesOf(PairsBefore(i, n), (0.6, "#4169E1"))
    {
      for j := i + 1 to n
        invariant edgeId == |edges|
        invariant edges == EdgesOf(PairsBefore(i, n) + RowPairs(i, n)[..j - (i + 1)], (0.6, "#4169E1"))
      {
        ghost var done := PairsBefore(i, n) + RowPairs(i, n)[..j - (i + 1)];
        assert PairsBefore(i, n) + RowPairs(i, n)[..j + 1 - (i + 1)] == done + [(i, j)];
        EdgesOfAppend(done, (i, j), (0.6, "#4169E1"));
        edges := edges + [Edge(edgeId, i, j, 0.6, "#4169E1")];
        edgeId := edgeId + 1;
      }
      assert RowPairs(i, n)[..n - (i + 1)] == RowPairs(i, n);
    }
  }

  /** The hub edges: node 0 to every other node, numbered by a running edge id. */
  method HubEdges(n: nat) returns (edges: seq<Edge>)
    ensures edges == EdgesOf(HubPairs(n), (0.7, "#DC143C"))
  {
    edges := [];
    var edgeId := 0;
    var hubNode := 0;
    var i := 1;
    while i < n
      invariant 1 <= i <= if n < 1 then 1 else n
      invariant edgeId == |edges| == i - 1
      invariant forall k :: 0 <= k < i - 1 ==> edges[k] == Edge(k, 0, k + 1, 0.7, "#DC143C")
    {
      edges := edges + [Edge(edgeId, hubNode, i, 0.7, "#DC143C")];
      edgeId := edgeId + 1;
      i := i + 1;
    }
    assert |HubPairs(n)| == |edges|;
  }

  /** Numbering one more pair appends one edge with the next id. */
  lemma EdgesOfAppend(pairs: seq<(nat, nat)>, p: (nat, nat), style: (real, string))
    ensures EdgesOf(pairs + [p], style) == EdgesOf(pairs, style) + [Edge(|pairs|, p.0, p.1, style.0, style.1)]
  {
    var longer := pairs + [p];
    assert forall k :: 0 <= k < |pairs| ==> longer[k] == pairs[k];
  }

  // ---------------------------------------------------------------------------
  // Properties of the pair sequences

  /** Pair p comes before pair q in row-major order. */
  predicate RowMajorBefore(p: (nat, nat), q: (nat, nat))
  {
    p.0 < q.0 || (p.0 == q.0 && p.1 < q.1)
  }

  /** The first `rows` rows hold exactly the pairs i < j < n with i < rows. */
  lemma {:induction false} PairsBeforeMembers(rows: nat, n: nat)
    requires rows <= n
    ensures forall p :: p in PairsBefore(rows, n) <==> p.0 < rows && p.0 < p.1 < n
    decreases rows
  {
    if rows > 0 {
      var i := rows - 1;
      PairsBeforeMembers(i, n);
      var row := RowPairs(i, n);
      forall p: (nat, nat) | p.0 == i && p.0 < p.1 < n
        ensures p in row
      {
        assert row[p.1 - i - 1] == p;
      }
    }
  }

  /** The pairs of the first `rows` rows come in strictly increasing row-major order. */
  lemma {:induction false} PairsBeforeOrdered(rows: nat, n: nat)
    requires rows <= n
    ensures forall a, b :: 0 <= a < b < |PairsBefore(rows, n)| ==>
      RowMajorBefore(PairsBefore(rows, n)[a], PairsBefore(rows, n)[b])
    decreases rows
  {
    if rows > 0 {
      var i := rows - 1;
      PairsBeforeOrdered(i, n);
      PairsBeforeMembers(i, n);
      var earlier := PairsBefore(i, n);
      var row := RowPairs(i, n);
      var pairs := earlier + row;
      forall a, b | 0 <= a < b < |pairs|
        ensures RowMajorBefore(pairs[a], pairs[b])
      {
        if b < |earlier| {
          assert pairs[a] == earlier[a] && pairs[b] == earlier[b];
        } else if a < |earlier| {
          assert pairs[a] == earlier[a] && earlier[a] in earlier;
          assert pairs[b] == row[b - |earlier|];
        } else {
          assert pairs[a] == row[a - |earlier|] && pairs[b] == row[b - |earlier|];
        }
      }
    }
  }

  /** The first `rows` rows hold rows * (2n - rows - 1) / 2 pairs. */
  lemma {:induction false} PairsBeforeCount(rows: nat, n: nat)
    requires rows <= n
    ensures 2 * |PairsBefore(rows, n)| == rows * (2 * n - rows - 1)
    decreases rows
  {
    if rows > 0 {
      var i := rows - 1;
      PairsBeforeCount(i, n);
      assert rows * (2 * n - rows - 1) == i * (2 * n - i - 1) + 2 * (n - i - 1);
    }
  }

  /**
   * The first `rows` rows hold exactly the pairs i < j < n with i < rows,
   * in strictly increasing row-major order (so each pair once), and their
   * number is rows * (2n - rows - 1) / 2.
   */
  lemma PairsBeforeShape(rows: nat, n: nat)
    requires rows <= n
    ensures forall p :: p in PairsBefore(rows, n) <==> p.0 < rows && p.0 < p.1 < n
    ensures forall a, b :: 0 <= a < b < |PairsBefore(rows, n)| ==>
      RowMajorBefore(PairsBefore(rows, n)[a], PairsBefore(rows, n)[b])
    ensures 2 * |PairsBefore(rows, n)| == rows * (2 * n - rows - 1)
  {
    PairsBeforeMembers(rows, n);
    PairsBeforeOrdered(rows, n);
    PairsBeforeCount(rows, n);
  }

  /** Two numbered pairs in increasing row-major order differ. */
  lemma RowMajorDistinct(pairs: seq<(nat, nat)>)
    requires forall a, b :: 0 <= a < b < |pairs| ==> RowMajorBefore(pairs[a], pairs[b])
    ensures forall a, b :: 0 <= a < b < |pairs| ==> pairs[a] != pairs[b]
  {
  }

  // ---------------------------------------------------------------------------
  // Properties of the graph data

  /** Some edge runs from node i to node j. */
  predicate HasEdge(edges: seq<Edge>, i: nat, j: nat)
  {
    exists k :: 0 <= k < |edges| && edges[k].from == i && edges[k].to == j
  }

  /**
   * One node per agent: node i has id i, the label "{type}_{i}", the
   * agent's type and colour, and size 20 exactly for a TOT agent; the
   * statistics count the nodes and the edges.
   */
  lemma GraphNodes(agents: seq<string>, connections: string)
    ensures var g := GraphDataOf(agents, connections);
      |g.nodes| == |agents| && g.stats.numNodes == |agents| && g.stats.numEdges == |g.edges| &&
      forall i :: 0 <= i < |agents| ==>
        g.nodes[i].id == i && g.nodes[i].labelText == agents[i] + "_" + NatToString(i) &&
        g.nodes[i].agentType == agents[i] && g.nodes[i].color == AgentColor(agents[i]) &&
        (g.nodes[i].size == 20 <==> agents[i] == "TOT")
  {
  }

  /** Edges are numbered 0, 1, ... in creation order and always run from a lower to a higher node index. */
  lemma GraphEdgesWellFormed(agents: seq<string>, connections: string)
    ensures var edges := GraphDataOf(agents, connections).edges;
      forall k :: 0 <= k < |edges| ==> edges[k].id == k && edges[k].from < edges[k].to < |agents|
  {
    var n := |agents|;
    if connections == "full" {
      PairsBeforeShape(n, n);
      var pairs := FullPairs(n);
      assert forall k :: 0 <= k < |pairs| ==> pairs[k] in pairs;
    }
  }

  /** The sequential label links each node to the next: max(n - 1, 0) edges, edge k from node k to node k + 1. */
  lemma SequentialGraph(agents: seq<string>)
    ensures var edges := GraphDataOf(agents, "sequential").edges;
      |edges| == (if |agents| == 0 then 0 else |agents| - 1) &&
      forall k :: 0 <= k < |edges| ==> edges[k].from == k && edges[k].to == k + 1 && edges[k].weight == 0.8
  {
  }

  /** The hub label links node 0 to every other node: max(n - 1, 0) edges, edge k to node k + 1. */
  lemma HubGraph(agents: seq<string>)
    ensures var edges := GraphDataOf(agents, "hub").edges;
      |edges| == (if |agents| == 0 then 0 else |agents| - 1) &&
      forall k :: 0 <= k < |edges| ==> edges[k].from == 0 && edges[k].to == k + 1 && edges[k].weight == 0.7
  {
  }

  /**
   * The full label links every pair of nodes exactly once: n(n-1)/2 edges,
   * an edge for each i < j < n and no two edges for the same pair, with
   * connectivity 1.0 from two nodes on.
   */
  lemma FullGraph(agents: seq<string>)
    ensures var g := GraphDataOf(agents, "full");
      2 * |g.edges| == |agents| * (|agents| - 1) &&
      (forall i: nat, j: nat :: i < j < |agents| ==> HasEdge(g.edges, i, j)) &&
      (forall a, b :: 0 <= a < b < |g.edges| ==> (g.edges[a].from, g.edges[a].to) != (g.edges[b].from, g.edges[b].to)) &&
      (|agents| >= 2 ==> g.stats.connectivity == 1.0)
  {
    var n := |agents|;
    var edges := GraphDataOf(agents, "full").edges;
    assert edges == EdgesOf(FullPairs(n), EdgeStyle("full"));
    FullPairsCount(n);
    FullEdgesCover(n, EdgeStyle("full"));
    FullEdgesDistinct(n, EdgeStyle("full"));
    FullConnectivity(n);
  }

  /** From two nodes on, the full pairs reach connectivity 1.0. */
  lemma FullConnectivity(n: nat)
    ensures n >= 2 ==> Connectivity(|FullPairs(n)|, n) == 1.0
  {
    if n >= 2 {
      FullPairsCount(n);
      AllPairsRatio(n, |FullPairs(n)|);
    }
  }

  /** As many edges as pairs of at least two nodes give connectivity 1.0. */
  lemma AllPairsRatio(n: nat, e: nat)
    requires n >= 2 && 2 * e == n * (n - 1)
    ensures Connectivity(e, n) == 1.0
  {
    var m := n * (n - 1);
    assert e > 0 by {
      assert m == (n - 1) * (n - 1) + (n - 1);
    }
    var x := e as real;
    var pairs := m as real / 2.0;
    assert pairs == x;
    assert x / x == 1.0;
  }

  /** n nodes have n(n-1)/2 pairs. */
  lemma FullPairsCount(n: nat)
    ensures 2 * |FullPairs(n)| == n * (n - 1)
  {
    PairsBeforeShape(n, n);
    assert 2 * n - n - 1 == n - 1;
  }

  /** Every pair i < j < n has an edge among the numbered full pairs. */
  lemma FullEdgesCover(n: nat, style: (real, string))
    ensures forall i: nat, j: nat :: i < j < n ==> HasEdge(EdgesOf(FullPairs(n), style), i, j)
  {
    var pairs := FullPairs(n);
    var edges := EdgesOf(pairs, style);
    PairsBeforeShape(n, n);
    forall i: nat, j: nat | i < j < n
      ensures HasEdge(edges, i, j)
    {
      assert (i, j) in pairs;
      var k :| 0 <= k < |pairs| && pairs[k] == (i, j);
      assert edges[k].from == i && edges[k].to == j;
    }
  }

  /** No two numbered full pairs join the same two nodes. */
  lemma FullEdgesDistinct(n: nat, style: (real, string))
    ensures var edges := EdgesOf(FullPairs(n), style);
      forall a, b :: 0 <= a < b < |edges| ==> (edges[a].from, edges[a].to) != (edges[b].from, edges[b].to)
  {
    var pairs := FullPairs(n);
    var edges := EdgesOf(pairs, style);
    PairsBeforeShape(n, n);
    RowMajorDistinct(pairs);
    forall a, b | 0 <= a < b < |edges|
      ensures (edges[a].from, edges[a].to) != (edges[b].from, edges[b].to)
    {
      assert (edges[a].from, edges[a].to) == pairs[a];
      assert (edges[b].from, edges[b].to) == pairs[b];
    }
  }

  /** An unknown connection label yields no edges and connectivity 0. */
  lemma UnknownLabelGraph(agents: seq<string>, connections: string)
    requires connections !in {"sequential", "full", "hub"}
    ensures GraphDataOf(agents, connections).edges == []
    ensures GraphDataOf(agents, connections).stats.connectivity == 0.0
  {
  }

  /** A team of fewer than two agents has connectivity 0 under any label. */
  lemma SmallTeamConnectivity(agents: seq<string>, connections: string)
    requires |agents| <= 1
    ensures GraphDataOf(agents, connections).stats.connectivity == 0.0
    ensures GraphDataOf(agents, connections).edges == []
  {
    if connections == "full" {
      PairsBeforeShape(|agents|, |agents|);
    }
  }

  // ---------------------------------------------------------------------------
  // The demo's graph statistics against the visualizer's graph

  /**
   * For the three known labels and a team of at least two agents, the
   * comprehensive demo's counts are those of the graph the visualizer
   * draws: same nodes, same number of edges, same connectivity.
   */
  lemma DemoStatisticsMatchGraph(agents: seq<string>, connections: string)
    requires connections in {"sequential", "full", "hub"} && |agents| >= 2
    ensures var stats := ComprehensiveDemo.CreateDemoGraph(agents, connections);
      var g := GraphDataOf(agents, connections);
      stats.Some? && stats.value.nodes == g.stats.numNodes &&
      stats.value.edges == |g.edges| && stats.value.connectivity == g.stats.connectivity
  {
    var n := |agents|;
    if connections == "full" {
      FullGraph(agents);
      assert |GraphDataOf(agents, connections).edges| == n * (n - 1) / 2;
    } else {
      var edges := |GraphDataOf(agents, connections).edges|;
      assert edges == n - 1;
      assert (n * (n - 1)) as real / 2.0 == n as real * (n - 1) as real / 2.0;
    }
  }

  /**
   * For an unknown label the two disagree: the demo claims one edge per
   * agent and connectivity 0.5, while the visualizer draws no edge.
   */
  lemma DemoStatisticsDisagreeOnUnknownLabel(agents: seq<string>, connections: string)
    requires connections !in {"sequential", "full", "hub"} && |agents| >= 1
    ensures var stats := ComprehensiveDemo.CreateDemoGraph(agents, connections);
      var g := GraphDataOf(agents, connections);
      stats.Some? && stats.value.edges == |agents| && |g.edges| == 0 &&
      stats.value.connectivity == 0.5 && g.stats.connectivity == 0.0
  {
    UnknownLabelGraph(agents, connections);
  }

  /**
   * For the full label and at most one agent the two also disagree: the demo
   * claims connectivity 1.0, while the visualizer reports 0 for a graph
   * without pairs. Both count no edge.
   */
  lemma DemoStatisticsDisagreeOnSmallFullTeam(agents: seq<string>)
    requires |agents| <= 1
    ensures var stats := ComprehensiveDemo.CreateDemoGraph(agents, "full");
      var g := GraphDataOf(agents, "full");
      stats.Some? && stats.value.edges == |g.edges| == 0 &&
      stats.value.connectivity == 1.0 && g.stats.connectivity == 0.0
  {
    SmallTeamConnectivity(agents, "full");
  }
}
