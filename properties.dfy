/** What the engine's queries and its mutation promise, proved about the model. */
module Properties {
  import opened Wrappers
  import opened DiGraph
  import opened Models

  // ----- Transaction queries -----

  /** A query returns the records of exactly the kept edges, in edge order. */
  lemma {:induction false} TransactionsAreSelectedRecords(nodes: seq<Node>, edges: seq<Edge>, f: Filters)
    requires EndpointsAreNodes(nodes, edges)
    ensures |Transactions(nodes, edges, f)| == |SelectedIndices(edges, f)|
    ensures forall k :: 0 <= k < |SelectedIndices(edges, f)| ==>
      Transactions(nodes, edges, f)[k] == Record(nodes, edges[SelectedIndices(edges, f)[k]])
  {
    if |edges| > 0 {
      var n := |edges| - 1;
      var prefix := edges[..n];
      assert forall i :: 0 <= i < n ==> prefix[i] == edges[i];
      TransactionsAreSelectedRecords(nodes, prefix, f);
      var t0, idx0 := Transactions(nodes, prefix, f), SelectedIndices(prefix, f);
      var t, idx := Transactions(nodes, edges, f), SelectedIndices(edges, f);
      var kept := Selects(f, edges[n].sender, edges[n].receiver);
      assert t == t0 + (if kept then [Record(nodes, edges[n])] else []);
      assert idx == idx0 + (if kept then [n] else []);
      forall k | 0 <= k < |idx| ensures t[k] == Record(nodes, edges[idx[k]]) {
        if k < |idx0| {
          assert t[k] == t0[k] && idx[k] == idx0[k];
        }
      }
    }
  }

  /** Each record carries the edge's endpoint keys, the customer ids of those nodes and the edge's totals. */
  lemma RecordFields(nodes: seq<Node>, e: Edge, si: nat, ri: nat)
    requires UniqueKeys(nodes)
    requires si < |nodes| && nodes[si].key == e.sender
    requires ri < |nodes| && nodes[ri].key == e.receiver
    ensures Record(nodes, e) == AggregatedTransactionBetweenSenderReceiver(
      Account(e.sender, nodes[si].customerId, false, 0.0),
      Account(e.receiver, nodes[ri].customerId, false, 0.0),
      e.totalAmount, e.totalTransactions, 0.0)
  {
  }

  /** With neither filter present, nothing is kept. */
  lemma {:induction false} NoFilterKeepsNothing(nodes: seq<Node>, edges: seq<Edge>, f: Filters)
    requires EndpointsAreNodes(nodes, edges)
    requires !Present(f.senderId) && !Present(f.receiverId)
    ensures Transactions(nodes, edges, f) == []
  {
    if |edges| > 0 {
      var n := |edges| - 1;
      assert forall i :: 0 <= i < n ==> edges[..n][i] == edges[i];
      NoFilterKeepsNothing(nodes, edges[..n], f);
    }
  }

  /** With both filters present, a kept edge carries exactly that pair. */
  lemma PairSelectsExactPair(edges: seq<Edge>, f: Filters, k: nat)
    requires Present(f.senderId) && Present(f.receiverId)
    requires k < |SelectedIndices(edges, f)|
    ensures var e := edges[SelectedIndices(edges, f)[k]];
      e.sender == f.senderId.value && e.receiver == f.receiverId.value
  {
  }

  /** With both filters present, only the position of the edge for that pair is kept. */
  lemma PairSelectsOnlyItsEdge(edges: seq<Edge>, f: Filters)
    requires UniquePairs(edges)
    requires Present(f.senderId) && Present(f.receiverId)
    ensures SelectedIndices(edges, f) ==
      match EdgeIndex(edges, f.senderId.value, f.receiverId.value)
      case None => []
      case Some(i) => [i]
  {
    var idx := SelectedIndices(edges, f);
    var s, r := f.senderId.value, f.receiverId.value;
    match EdgeIndex(edges, s, r)
    case None =>
      if |idx| > 0 {
        PairSelectsExactPair(edges, f, 0);
        assert false;
      }
    case Some(i) =>
      assert Selects(f, edges[i].sender, edges[i].receiver);
      assert i in idx;
      forall k | 0 <= k < |idx| ensures idx[k] == i {
        PairSelectsExactPair(edges, f, k);
      }
  }

  /**
   * With both filters present, the query returns the record of the one edge
   * for that exact pair, or nothing when the graph has no such edge.
   */
  lemma PairQuery(nodes: seq<Node>, edges: seq<Edge>, f: Filters)
    requires WellFormed(nodes, edges)
    requires Present(f.senderId) && Present(f.receiverId)
    ensures var t := Transactions(nodes, edges, f);
      match EdgeIndex(edges, f.senderId.value, f.receiverId.value)
      case None => t == []
      case Some(i) => t == [Record(nodes, edges[i])]
  {
    TransactionsAreSelectedRecords(nodes, edges, f);
    PairSelectsOnlyItsEdge(edges, f);
  }

  /** Querying with both endpoints of an edge returns exactly that edge's record. */
  lemma PairQueryOfEdge(nodes: seq<Node>, edges: seq<Edge>, i: nat)
    requires WellFormed(nodes, edges)
    requires i < |edges| && edges[i].sender != "" && edges[i].receiver != ""
    ensures Transactions(nodes, edges, Filters(Some(edges[i].sender), Some(edges[i].receiver)))
            == [Record(nodes, edges[i])]
  {
    EdgeIndexOfPair(edges, i);
    PairQuery(nodes, edges, Filters(Some(edges[i].sender), Some(edges[i].receiver)));
  }

  /** With only the sender filter present, exactly the edges leaving that account are kept. */
  lemma SenderOnlyQuery(nodes: seq<Node>, edges: seq<Edge>, f: Filters)
    requires EndpointsAreNodes(nodes, edges)
    requires Present(f.senderId) && !Present(f.receiverId)
    ensures forall t :: t in Transactions(nodes, edges, f) ==> t.sender.id == f.senderId.value
    ensures forall i :: 0 <= i < |edges| && edges[i].sender == f.senderId.value ==>
      Record(nodes, edges[i]) in Transactions(nodes, edges, f)
  {
  }

  /**
   * With only the receiver filter present, exactly the edges whose receiver
   * DIFFERS from the given account are kept.
   */
  lemma ReceiverOnlyQuery(nodes: seq<Node>, edges: seq<Edge>, f: Filters)
    requires EndpointsAreNodes(nodes, edges)
    requires !Present(f.senderId) && Present(f.receiverId)
    ensures forall t :: t in Transactions(nodes, edges, f) ==> t.receiver.id != f.receiverId.value
    ensures forall i :: 0 <= i < |edges| && edges[i].receiver != f.receiverId.value ==>
      Record(nodes, edges[i]) in Transactions(nodes, edges, f)
  {
  }

  /** A receiver-only query for B over edges A->B and A->C returns only A->C. */
  lemma ReceiverOnlyQueryExample()
    ensures var nodes := [Node("A", false, "c1", "A"), Node("B", false, "c2", "B"), Node("C", true, "c3", "C")];
      var edges := [Edge("A", "B", 100.0, 2), Edge("A", "C", 5.0, 1)];
      EndpointsAreNodes(nodes, edges) &&
      Transactions(nodes, edges, Filters(None, Some("B"))) ==
        [AggregatedTransactionBetweenSenderReceiver(
          Account("A", "c1", false, 0.0), Account("C", "c3", false, 0.0), 5.0, 1, 0.0)]
  {
    var nodes := [Node("A", false, "c1", "A"), Node("B", false, "c2", "B"), Node("C", true, "c3", "C")];
    var edges := [Edge("A", "B", 100.0, 2), Edge("A", "C", 5.0, 1)];
    assert HasNode(nodes, "A") by { assert nodes[0].key == "A"; }
    assert HasNode(nodes, "B") by { assert nodes[1].key == "B"; }
    assert HasNode(nodes, "C") by { assert nodes[2].key == "C"; }
    assert edges[..1] == [edges[0]];
    assert edges[..1][..0] == [];
  }

  // ----- Creating a transaction -----

  /**
   * When both accounts exist, the edge between their `id` attributes gains the
   * amount and one transfer and every other edge is unchanged; when that edge
   * does not exist the operation fails.
   */
  lemma NewTransactionFoldsOneEdge(
    nodes: seq<Node>, edges: seq<Edge>, senderId: string, receiverId: string, amount: real, si: nat, ri: nat)
    requires WellFormed(nodes, edges)
    requires si < |nodes| && nodes[si].key == senderId
    requires ri < |nodes| && nodes[ri].key == receiverId
    ensures var a, b, r := nodes[si].id, nodes[ri].id, NewTransaction(nodes, edges, senderId, receiverId, amount);
      (!HasEdge(edges, a, b) ==> r == Failure(EdgeNotFound(a, b))) &&
      (HasEdge(edges, a, b) ==>
         r.Success? && |r.value| == |edges| &&
         forall j :: 0 <= j < |edges| ==>
           r.value[j] == if edges[j].sender == a && edges[j].receiver == b then Fold(edges[j], amount) else edges[j])
  {
  }

  /** Creating a transaction never adds, removes or re-targets an edge, so the graph stays well formed. */
  lemma NewTransactionPreservesWellFormed(
    nodes: seq<Node>, edges: seq<Edge>, senderId: string, receiverId: string, amount: real)
    requires WellFormed(nodes, edges)
    ensures var r := NewTransaction(nodes, edges, senderId, receiverId, amount);
      r.Success? ==>
        WellFormed(nodes, r.value) && |r.value| == |edges| &&
        forall j :: 0 <= j < |edges| ==> r.value[j].sender == edges[j].sender && r.value[j].receiver == edges[j].receiver
  {
  }

  /** When the edge for the two `id` attributes is at position `i`, creating a transaction folds into it. */
  lemma NewTransactionOnEdge(
    nodes: seq<Node>, edges: seq<Edge>, senderId: string, receiverId: string, amount: real,
    si: nat, ri: nat, i: nat)
    requires WellFormed(nodes, edges)
    requires si < |nodes| && nodes[si].key == senderId
    requires ri < |nodes| && nodes[ri].key == receiverId
    requires i < |edges| && edges[i].sender == nodes[si].id && edges[i].receiver == nodes[ri].id
    ensures NewTransaction(nodes, edges, senderId, receiverId, amount) == Success(edges[i := Fold(edges[i], amount)])
  {
  }

  /** Folding a transfer into an edge keeps the graph well formed. */
  lemma FoldPreservesWellFormed(nodes: seq<Node>, edges: seq<Edge>, i: nat, amount: real)
    requires WellFormed(nodes, edges) && i < |edges|
    ensures WellFormed(nodes, edges[i := Fold(edges[i], amount)])
  {
  }

  /** The edge after `n` transfers of `amount`. */
  function Accumulated(e: Edge, amount: real, n: nat): Edge
  {
    e.(totalAmount := e.totalAmount + n as real * amount, totalTransactions := e.totalTransactions + n)
  }

  /** One transfer followed by `n - 1` more is `n` transfers. */
  lemma AccumulatedAfterFold(e: Edge, amount: real, n: nat)
    requires n > 0
    ensures Accumulated(Fold(e, amount), amount, n - 1) == Accumulated(e, amount, n)
  {
  }

  /** Creating `n` transactions one after another. */
  function RepeatNewTransaction(
    nodes: seq<Node>, edges: seq<Edge>, senderId: string, receiverId: string, amount: real, n: nat): Result<seq<Edge>, Error>
    decreases n
  {
    if n == 0 then Success(edges)
    else
      match NewTransaction(nodes, edges, senderId, receiverId, amount)
      case Failure(e) => Failure(e)
      case Success(next) => RepeatNewTransaction(nodes, next, senderId, receiverId, amount, n - 1)
  }

  /**
   * Sequentially, `n` transactions of `amount` on an existing edge add exactly
   * `n * amount` to its total and `n` to its count, and leave every other edge
   * unchanged: no update is lost.
   */
  lemma {:induction false} RepeatedTransactionsAccumulate(
    nodes: seq<Node>, edges: seq<Edge>, senderId: string, receiverId: string, amount: real, n: nat,
    si: nat, ri: nat, i: nat)
    requires WellFormed(nodes, edges)
    requires si < |nodes| && nodes[si].key == senderId
    requires ri < |nodes| && nodes[ri].key == receiverId
    requires i < |edges| && edges[i].sender == nodes[si].id && edges[i].receiver == nodes[ri].id
    ensures RepeatNewTransaction(nodes, edges, senderId, receiverId, amount, n)
         == Success(edges[i := Accumulated(edges[i], amount, n)])
    decreases n
  {
    if n == 0 {
      assert edges[i := Accumulated(edges[i], amount, 0)] == edges;
    } else {
      NewTransactionOnEdge(nodes, edges, senderId, receiverId, amount, si, ri, i);
      var next := edges[i := Fold(edges[i], amount)];
      FoldPreservesWellFormed(nodes, edges, i, amount);
      RepeatedTransactionsAccumulate(nodes, next, senderId, receiverId, amount, n - 1, si, ri, i);
      AccumulatedAfterFold(edges[i], amount, n);
      assert next[i := Accumulated(next[i], amount, n - 1)] == edges[i := Accumulated(edges[i], amount, n)];
    }
  }

  /** An edge A->B holding 100 over 2 transfers holds 150 over 3 after a transfer of 50. */
  lemma NewTransactionExample()
    ensures var nodes := [Node("A", false, "c1", "A"), Node("B", false, "c2", "B")];
      var edges := [Edge("A", "B", 100.0, 2)];
      NewTransaction(nodes, edges, "A", "B", 50.0) == Success([Edge("A", "B", 150.0, 3)])
  {
    var nodes := [Node("A", false, "c1", "A"), Node("B", false, "c2", "B")];
    assert NodeIndex(nodes, "A") == Some(0);
    assert NodeIndex(nodes, "B") == Some(1);
    var edges := [Edge("A", "B", 100.0, 2)];
    assert EdgeIndex(edges, "A", "B") == Some(0);
    assert edges[0 := Fold(edges[0], 50.0)] == [Edge("A", "B", 150.0, 3)];
  }

  /**
   * The edge is looked up by the nodes' `id` attributes, not by the keys passed
   * in: when node A's `id` attribute is X, a transaction from A to B fails even
   * though the edge A->B exists.
   */
  lemma IdAttributeSelectsTheEdge()
    ensures var nodes := [Node("A", false, "c1", "X"), Node("B", false, "c2", "B")];
      var edges := [Edge("A", "B", 100.0, 2)];
      NewTransaction(nodes, edges, "A", "B", 50.0) == Failure(EdgeNotFound("X", "B"))
  {
  }
}
