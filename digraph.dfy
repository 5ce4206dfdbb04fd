/**
 * The directed attributed graph the engine holds: an ordered sequence of
 * nodes and an ordered sequence of edges, as a networkx DiGraph iterates them.
 */
module DiGraph {
  import opened Wrappers

  /** A graph node: its key and the three node attributes the engine reads. */
  datatype Node = Node(key: string, isFraud: bool, customerId: string, id: string)

  /** The aggregate edge of all transfers from `sender` to `receiver` (both node keys). */
  datatype Edge = Edge(sender: string, receiver: string, totalAmount: real, totalTransactions: int)

  predicate HasNode(nodes: seq<Node>, key: string)
  {
    exists i :: 0 <= i < |nodes| && nodes[i].key == key
  }

  predicate HasEdge(edges: seq<Edge>, sender: string, receiver: string)
  {
    exists i :: 0 <= i < |edges| && edges[i].sender == sender && edges[i].receiver == receiver
  }

  /** Node keys are unique: a graph has one node per key. */
  predicate UniqueKeys(nodes: seq<Node>)
  {
    forall i, j :: 0 <= i < j < |nodes| ==> nodes[i].key != nodes[j].key
  }

  /** A DiGraph has at most one edge per ordered (sender, receiver) pair. */
  predicate UniquePairs(edges: seq<Edge>)
  {
    forall i, j :: 0 <= i < j < |edges| ==>
      edges[i].sender != edges[j].sender || edges[i].receiver != edges[j].receiver
  }

  /** Both endpoints of every edge are nodes of the graph. */
  predicate EndpointsAreNodes(nodes: seq<Node>, edges: seq<Edge>)
  {
    forall i :: 0 <= i < |edges| ==> HasNode(nodes, edges[i].sender) && HasNode(nodes, edges[i].receiver)
  }

  predicate WellFormed(nodes: seq<Node>, edges: seq<Edge>)
  {
    UniqueKeys(nodes) && UniquePairs(edges) && EndpointsAreNodes(nodes, edges)
  }

  /** The position of the node with the given key (`has_node` / `nodes[key]`). */
  function NodeIndex(nodes: seq<Node>, key: string): (r: Option<nat>)
    ensures r.None? <==> !HasNode(nodes, key)
    ensures r.Some? ==> r.value < |nodes| && nodes[r.value].key == key
    ensures r.Some? ==> forall j :: 0 <= j < r.value ==> nodes[j].key != key
  {
    if |nodes| == 0 then None
    else if nodes[0].key == key then Some(0)
    else
      match NodeIndex(nodes[1..], key)
      case None =>
        assert forall j :: 1 <= j < |nodes| ==> nodes[j] == nodes[1..][j - 1];
        None
      case Some(i) => Some(i + 1)
  }

  /** The position of the edge for the ordered pair (`edges[(sender, receiver)]`). */
  function EdgeIndex(edges: seq<Edge>, sender: string, receiver: string): (r: Option<nat>)
    ensures r.None? <==> !HasEdge(edges, sender, receiver)
    ensures r.Some? ==> r.value < |edges| && edges[r.value].sender == sender && edges[r.value].receiver == receiver
    ensures r.Some? ==> forall j :: 0 <= j < r.value ==> edges[j].sender != sender || edges[j].receiver != receiver
  {
    if |edges| == 0 then None
    else if edges[0].sender == sender && edges[0].receiver == receiver then Some(0)
    else
      match EdgeIndex(edges[1..], sender, receiver)
      case None =>
        assert forall j :: 1 <= j < |edges| ==> edges[j] == edges[1..][j - 1];
        None
      case Some(i) => Some(i + 1)
  }

  /** With unique pairs, the edge found for a pair is the one carrying it. */
  lemma EdgeIndexOfPair(edges: seq<Edge>, i: nat)
    requires UniquePairs(edges) && i < |edges|
    ensures EdgeIndex(edges, edges[i].sender, edges[i].receiver) == Some(i)
  {
  }
}
