/**
 * The transaction-graph engine: account and aggregated-transaction records,
 * the transaction filter, and the GraphDatabase object that answers queries
 * over the graph and folds new transactions into its edges.
 */
module Models {
  import opened Wrappers
  import opened DiGraph

  datatype Account = Account(id: string, customerId: string, fraudulent: bool, fraudProbability: real)

  datatype AggregatedTransactionBetweenSenderReceiver = AggregatedTransactionBetweenSenderReceiver(
    sender: Account,
    receiver: Account,
    totalAmount: real,
    totalTransactions: int,
    fraudProbability: real)

  /** The `{sender_id, receiver_id}` dictionary passed to a transaction query. */
  datatype Filters = Filters(senderId: Option<string>, receiverId: Option<string>)

  /** Why creating a transaction failed: the two `ValueError`s and the `KeyError` on the edge. */
  datatype Error =
    | SenderNotFound(senderId: string)
    | ReceiverNotFound(receiverId: string)
    | EdgeNotFound(sender: string, receiver: string)

  /** Python truthiness of an optional string: neither `None` nor empty. */
  predicate Present(v: Option<string>): (b: bool)
    ensures v == None ==> !b
    ensures v == Some("") ==> !b
    ensures v.Some? && |v.value| > 0 ==> b
  {
    v.Some? && v.value != ""
  }

  /**
   * Whether a query keeps the edge from `sender` to `receiver`. With both
   * filters present only the exact pair is kept; otherwise an edge is kept
   * when the sender filter names its sender or the receiver filter names a
   * receiver other than its own.
   */
  predicate Selects(f: Filters, sender: string, receiver: string): (b: bool)
    ensures Present(f.senderId) && Present(f.receiverId) ==>
      (b <==> sender == f.senderId.value && receiver == f.receiverId.value)
    ensures Present(f.senderId) && !Present(f.receiverId) ==> (b <==> sender == f.senderId.value)
    ensures !Present(f.senderId) && Present(f.receiverId) ==> (b <==> receiver != f.receiverId.value)
    ensures !Present(f.senderId) && !Present(f.receiverId) ==> !b
  {
    if Present(f.senderId) && Present(f.receiverId) then
      f.senderId.value == sender && f.receiverId.value == receiver
    else
      (Present(f.senderId) && f.senderId.value == sender) ||
      (Present(f.receiverId) && f.receiverId.value != receiver)
  }

  /** The record a query builds for one kept edge. */
  function Record(nodes: seq<Node>, e: Edge): (t: AggregatedTransactionBetweenSenderReceiver)
    requires HasNode(nodes, e.sender) && HasNode(nodes, e.receiver)
    ensures t.sender.id == e.sender && t.receiver.id == e.receiver
    ensures !t.sender.fraudulent && !t.receiver.fraudulent
    ensures t.sender.fraudProbability == 0.0 && t.receiver.fraudProbability == 0.0 && t.fraudProbability == 0.0
    ensures t.totalAmount == e.totalAmount && t.totalTransactions == e.totalTransactions
  {
    var s := nodes[NodeIndex(nodes, e.sender).value];
    var r := nodes[NodeIndex(nodes, e.receiver).value];
    AggregatedTransactionBetweenSenderReceiver(
      Account(e.sender, s.customerId, false, 0.0),
      Account(e.receiver, r.customerId, false, 0.0),
      e.totalAmount, e.totalTransactions, 0.0)
  }

  /** What a query returns: the records of the kept edges, in edge order. */
  function Transactions(nodes: seq<Node>, edges: seq<Edge>, f: Filters): (r: seq<AggregatedTransactionBetweenSenderReceiver>)
    requires EndpointsAreNodes(nodes, edges)
    ensures |r| <= |edges|
    ensures forall k :: 0 <= k < |r| ==>
      r[k].fraudProbability == 0.0 && !r[k].sender.fraudulent && !r[k].receiver.fraudulent
  {
    if |edges| == 0 then []
    else
      var e := edges[|edges| - 1];
      Transactions(nodes, edges[..|edges| - 1], f) +
      (if Selects(f, e.sender, e.receiver) then [Record(nodes, e)] else [])
  }

  /** The positions of the edges a query keeps, in increasing order. */
  function SelectedIndices(edges: seq<Edge>, f: Filters): (r: seq<nat>)
    ensures forall k :: 0 <= k < |r| ==> r[k] < |edges| && Selects(f, edges[r[k]].sender, edges[r[k]].receiver)
    ensures forall k, l :: 0 <= k < l < |r| ==> r[k] < r[l]
    ensures forall i :: 0 <= i < |edges| && Selects(f, edges[i].sender, edges[i].receiver) ==> i in r
  {
    if |edges| == 0 then []
    else
      var n := |edges| - 1;
      assert forall i :: 0 <= i < n ==> edges[..n][i] == edges[i];
      SelectedIndices(edges[..n], f) + (if Selects(f, edges[n].sender, edges[n].receiver) then [n] else [])
  }

  /** The edge after one more transfer of `amount` has been folded into it. */
  function Fold(e: Edge, amount: real): (r: Edge)
    ensures r.sender == e.sender && r.receiver == e.receiver
    ensures r.totalAmount - e.totalAmount == amount
    ensures r.totalTransactions == e.totalTransactions + 1
  {
    e.(totalAmount := e.totalAmount + amount, totalTransactions := e.totalTransactions + 1)
  }

  /**
   * The edge sequence after creating a transaction, or the error raised. The
   * sender is checked before the receiver; the edge is looked up by the `id`
   * attributes of the two nodes, and it is never created.
   */
  function NewTransaction(nodes: seq<Node>, edges: seq<Edge>, senderId: string, receiverId: string, amount: real): (r: Result<seq<Edge>, Error>)
    ensures r == Failure(SenderNotFound(senderId)) <==> !HasNode(nodes, senderId)
    ensures HasNode(nodes, senderId) && !HasNode(nodes, receiverId) ==> r == Failure(ReceiverNotFound(receiverId))
    ensures r.Success? ==> |r.value| == |edges|
  {
    match NodeIndex(nodes, senderId)
    case None => Failure(SenderNotFound(senderId))
    case Some(si) =>
      match NodeIndex(nodes, receiverId)
      case None => Failure(ReceiverNotFound(receiverId))
      case Some(ri) =>
        var sender, receiver := nodes[si].id, nodes[ri].id;
        match EdgeIndex(edges, sender, receiver)
        case None => Failure(EdgeNotFound(sender, receiver))
        case Some(i) => Success(edges[i := Fold(edges[i], amount)])
  }

  /** The in-memory graph database: nodes and edges of the loaded graph. */
  class GraphDatabase {
    var nodes: seq<Node>
    var edges: seq<Edge>

    ghost predicate Valid()
      reads this
    {
      WellFormed(nodes, edges)
    }

    /** Takes the already-parsed graph in place of reading the GraphML file. */
    constructor (nodes: seq<Node>, edges: seq<Edge>)
      requires WellFormed(nodes, edges)
      ensures Valid() && this.nodes == nodes && this.edges == edges
    {
      this.nodes := nodes;
      this.edges := edges;
    }

    /** One account per node, in node order, identified by the node key. */
    method GetAccounts() returns (accounts: seq<Account>)
      ensures |accounts| == |nodes|
      ensures forall i :: 0 <= i < |nodes| ==>
        accounts[i] == Account(nodes[i].key, nodes[i].customerId, nodes[i].isFraud, 0.0)
      ensures Valid() ==> forall i, j :: 0 <= i < j < |accounts| ==> accounts[i].id != accounts[j].id
    {
      accounts := [];
      for i := 0 to |nodes|
        invariant |accounts| == i
        invariant forall k :: 0 <= k < i ==>
          accounts[k] == Account(nodes[k].key, nodes[k].customerId, nodes[k].isFraud, 0.0)
      {
        var node := nodes[i];
        var account := Account(node.key, node.customerId, node.isFraud, 0.0);
        accounts := accounts + [account];
      }
    }

    /** The account of the node with key `id`, built from the node's `id` attribute. */
    function GetAccount(id: string): (r: Option<Account>)
      reads this
      ensures r.None? <==> !HasNode(nodes, id)
      ensures r.Some? ==>
        exists i :: 0 <= i < |nodes| && nodes[i].key == id &&
                    r.value == Account(nodes[i].id, nodes[i].customerId, nodes[i].isFraud, 0.0)
      ensures Valid() ==> forall i :: 0 <= i < |nodes| && nodes[i].key == id ==>
        r == Some(Account(nodes[i].id, nodes[i].customerId, nodes[i].isFraud, 0.0))
    {
      match NodeIndex(nodes, id)
      case None => None
      case Some(i) =>
        var node := nodes[i];
        Some(Account(node.id, node.customerId, node.isFraud, 0.0))
    }

    /** The records of the edges the filters keep, in edge order; the graph is only read. */
    method GetTransactions(filters: Filters) returns (transactions: seq<AggregatedTransactionBetweenSenderReceiver>)
      requires Valid()
      ensures transactions == Transactions(nodes, edges, filters)
    {
      transactions := [];
      for i := 0 to |edges|
        invariant transactions == Transactions(nodes, edges[..i], filters)
      {
        var e := edges[i];
        var isFiltered := false;
        var isPairFiltered := Present(filters.senderId) && Present(filters.receiverId);
        if isPairFiltered {
          if filters.senderId.value == e.sender && filters.receiverId.value == e.receiver {
            isFiltered := true;
          }
        } else {
          if Present(filters.senderId) && filters.senderId.value == e.sender {
            isFiltered := true;
          }
          if Present(filters.receiverId) && filters.receiverId.value != e.receiver {
            isFiltered := true;
          }
        }
        assert edges[..i + 1][..i] == edges[..i];
        if !isFiltered {
          continue;
        }
        var sender := GetAccount(e.sender);
        var receiver := GetAccount(e.receiver);
        var senderAccount := Account(e.sender, sender.value.customerId, false, 0.0);
        var receiverAccount := Account(e.receiver, receiver.value.customerId, false, 0.0);
        var transaction := AggregatedTransactionBetweenSenderReceiver(
          senderAccount, receiverAccount, e.totalAmount, e.totalTransactions, 0.0);
        transactions := transactions + [transaction];
      }
      assert edges[..|edges|] == edges;
    }

    /**
     * Folds one transfer of `totalAmount` into the existing edge between the
     * two accounts; fails, leaving the graph as it was, when the sender, the
     * receiver or the edge does not exist.
     */
    method CreateNewTransaction(senderId: string, receiverId: string, totalAmount: real) returns (outcome: Outcome<Error>)
      requires Valid()
      modifies this`edges
      ensures Valid()
      ensures var r := NewTransaction(old(nodes), old(edges), senderId, receiverId, totalAmount);
        (r.Success? ==> outcome == Pass && edges == r.value) &&
        (r.Failure? ==> outcome == Fail(r.error) && edges == old(edges))
    {
      var sender := GetAccount(senderId);
      var receiver := GetAccount(receiverId);
      if sender.None? {
        return Fail(SenderNotFound(senderId));
      }
      if receiver.None? {
        return Fail(ReceiverNotFound(receiverId));
      }
      var pair := (sender.value.id, receiver.value.id);
      var i := EdgeIndex(edges, pair.0, pair.1);
      if i.None? {
        return Fail(EdgeNotFound(pair.0, pair.1));
      }
      var e := edges[i.value];
      edges := edges[i.value := e.(totalAmount := e.totalAmount + totalAmount,
                                   totalTransactions := e.totalTransactions + 1)];
      outcome := Pass;
    }
  }
}
