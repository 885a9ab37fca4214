/**
 * The graph snapshot action: the project's documents become nodes and the
 * citations between two of them become edges.
 */
module GraphSnapshot {
  import opened Wrappers
  import opened Js
  import opened Store

  datatype Node = Node(id: string, caption: string, radius: real, color: string)

  datatype Edge = Edge(id: string, source: string, target: string, weight: real, edgeType: string)

  datatype Snapshot = Snapshot(nodes: seq<Node>, edges: seq<Edge>)

  const ArxivColor := "#ef4444"
  const DefaultColor := "#6366f1"

  /** The node of one document (its `label` is `caption` here): `title || "Untitled"`, radius `10 + (score || 0) * 5`, red for arXiv. */
  function NodeOf(d: RemoteDoc): (n: Node)
    ensures n.id == d.id && n.caption != []
    ensures n.caption == "Untitled" || d.title == Some(n.caption)
    ensures d.title.Some? && d.title.value != [] ==> n.caption == d.title.value
    ensures d.title.None? || d.title.value == [] ==> n.caption == "Untitled"
    ensures n.radius == 10.0 + 5.0 * OrZero(d.score)
    ensures OrZero(d.score) >= 0.0 ==> n.radius >= 10.0
    ensures n.color == ArxivColor <==> d.sourceType == Some("arxiv")
  {
    Node(d.id, OrElse(d.title, "Untitled"), 10.0 + OrZero(d.score) * 5.0,
         if d.sourceType == Some("arxiv") then ArxivColor else DefaultColor)
  }

  /** One node per document, in order. */
  function Nodes(docs: seq<RemoteDoc>): (ns: seq<Node>)
    ensures |ns| == |docs|
    ensures forall i :: 0 <= i < |docs| ==> ns[i] == NodeOf(docs[i])
  {
    seq(|docs|, i requires 0 <= i < |docs| => NodeOf(docs[i]))
  }

  function NodeIds(ns: seq<Node>): (ids: set<string>)
    ensures forall x :: x in ids <==> exists i :: 0 <= i < |ns| && ns[i].id == x
  {
    set i | 0 <= i < |ns| :: ns[i].id
  }

  /** The edge of one citation: `weight || 1`, `citation_type || "semantic"`. */
  function EdgeOf(c: RemoteCitation): (e: Edge)
    ensures e.id == c.source + "_" + c.target && e.source == c.source && e.target == c.target
    ensures e.weight == (if c.weight.Some? && c.weight.value != 0.0 then c.weight.value else 1.0)
    ensures e.edgeType == OrElse(c.citationType, "semantic")
  {
    Edge(c.source + "_" + c.target, c.source, c.target,
         if c.weight.Some? && c.weight.value != 0.0 then c.weight.value else 1.0,
         OrElse(c.citationType, "semantic"))
  }

  predicate Inside(c: RemoteCitation, ids: set<string>) {
    c.source in ids && c.target in ids
  }

  /** The citations whose two endpoints are nodes, mapped to edges, in order. */
  function Edges(cits: seq<RemoteCitation>, ids: set<string>): (es: seq<Edge>)
    ensures |es| <= |cits|
    ensures forall e :: e in es ==> e.source in ids && e.target in ids
  {
    if cits == [] then []
    else (if Inside(cits[0], ids) then [EdgeOf(cits[0])] else []) + Edges(cits[1..], ids)
  }

  /** Every citation between two nodes gives its edge. */
  lemma {:induction false} EdgesComplete(cits: seq<RemoteCitation>, ids: set<string>, c: RemoteCitation)
    requires c in cits && Inside(c, ids)
    ensures EdgeOf(c) in Edges(cits, ids)
  {
    if cits[0] != c {
      EdgesComplete(cits[1..], ids, c);
    }
  }

  /** The filter keeps the original order: edges of a concatenation are the concatenated edges. */
  lemma {:induction false} EdgesAppend(a: seq<RemoteCitation>, b: seq<RemoteCitation>, ids: set<string>)
    ensures Edges(a + b, ids) == Edges(a, ids) + Edges(b, ids)
  {
    if a == [] {
      assert a + b == b;
    } else {
      assert (a + b)[1..] == a[1..] + b;
      EdgesAppend(a[1..], b, ids);
    }
  }

  /**
   * `getGraphSnapshot`: the two fetches are inputs (their row limits are
   * applied by the store). A document fetch error gives an empty graph; a
   * citation fetch error still gives every node, and no edge.
   */
  function GetGraphSnapshot(docFetch: Result<seq<RemoteDoc>>, citFetch: Result<seq<RemoteCitation>>): (g: Snapshot)
    ensures docFetch.Err? ==> g == Snapshot([], [])
    ensures docFetch.Ok? ==> g.nodes == Nodes(docFetch.value)
    ensures docFetch.Ok? && citFetch.Err? ==> g.edges == []
    ensures docFetch.Ok? && citFetch.Ok? ==> g.edges == Edges(citFetch.value, NodeIds(g.nodes))
    ensures forall e :: e in g.edges ==> e.source in NodeIds(g.nodes) && e.target in NodeIds(g.nodes)
  {
    if docFetch.Err? then Snapshot([], [])
    else
      var nodes := Nodes(docFetch.value);
      var cits := if citFetch.Ok? then citFetch.value else [];
      Snapshot(nodes, Edges(cits, NodeIds(nodes)))
  }

  /** With both fetches answered, every citation between two fetched documents is an edge of the snapshot. */
  lemma SnapshotEdgesComplete(docs: seq<RemoteDoc>, cits: seq<RemoteCitation>, c: RemoteCitation)
    requires c in cits && Inside(c, NodeIds(Nodes(docs)))
    ensures EdgeOf(c) in GetGraphSnapshot(Ok(docs), Ok(cits)).edges
  {
    EdgesComplete(cits, NodeIds(Nodes(docs)), c);
  }
}
