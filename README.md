# Transaction-graph engine (GraphDatabase)

This project models the in-memory engine behind a small fraud-exploration API.
Accounts are the nodes of a directed graph. Each edge aggregates every transfer
from one sender to one receiver, as a running `total_amount` and a
`total_transactions` count. The engine covers four things:

- it lists accounts;
- it looks one account up;
- it answers filtered transaction queries;
- it folds a new transfer into an existing edge, in place.

Files:

- `wrappers.dfy` (`Wrappers`): `Option`, `Result` and `Outcome`.
- `digraph.dfy` (`DiGraph`): the graph as an ordered node sequence and an
  ordered edge sequence, standing in for the networkx `DiGraph`. It holds the
  key and pair lookups and the well-formedness invariant. That invariant says
  three things: node keys are unique, there is at most one edge per ordered
  pair, and both endpoints of every edge are nodes.
- `models.dfy` (`Models`): the `Account` and
  `AggregatedTransactionBetweenSenderReceiver` records, the query filter, the
  specification functions, and the class `GraphDatabase`.
- `properties.dfy` (`Properties`): lemmas about the queries and the mutation.

A node keeps its key and its `id` attribute as separate fields. The listing
(`get_accounts`) and the query records (`get_transactions`) use the key.
`get_account` builds its `Account` from the `id` attribute, and
`create_new_transaction` looks the edge up by those `id` attributes.

The query filter `Models.Selects` follows the code exactly:

- If both the sender and receiver values are present, only the exact pair is
  kept. "Present" means neither `None` nor the empty string, as Python
  truthiness has it.
- Otherwise an edge is kept when the sender value is present and equals the
  edge's sender, or when the receiver value is present and *differs* from the
  edge's receiver.

A receiver-only query therefore returns every edge whose receiver is *not* the
one given (lab/backend/models.py:53-54), and the model keeps this
(`Properties.ReceiverOnlyQuery`, `Properties.ReceiverOnlyQueryExample`).

The code has no error path for an edge whose endpoint is not a node. A
networkx graph always holds the endpoints of its edges, and the model states
this as the class invariant `Valid()`, which lets `GetTransactions` find both
endpoint accounts.

I/O and the parsing of the GraphML file are replaced by parameters.
`GraphDatabase`'s constructor takes the already-parsed nodes and edges.

## Model

| member | source | states |
|---|---|---|
| `DiGraph.NodeIndex` | lab/backend/models.py:78-79 | finds the node with the given key: absent exactly when no node has that key, otherwise the first position holding it |
| `DiGraph.EdgeIndex` | lab/backend/models.py:94-95 | finds the edge for an ordered (sender, receiver) pair: absent exactly when the graph has no such edge, otherwise the first position holding it |
| `Models.Present` | lab/backend/models.py:44-53 | the truthiness test on a filter value: false for `None` and for the empty string, true for any non-empty string |
| `Models.Selects` | lab/backend/models.py:43-54 | with both values present keeps only the exact pair; with only the sender, keeps edges from that sender; with only the receiver, keeps edges whose receiver differs; with neither, keeps nothing |
| `Models.Record` | lab/backend/models.py:59-73 | a record carries the edge's endpoint keys as account ids, `fraudulent` false and fraud probability 0.0 on both accounts and on the record, and the edge's unchanged totals (the customer ids are stated by `Properties.RecordFields`) |
| `Models.Transactions` | lab/backend/models.py:40-75 | a query returns no more records than there are edges, each with fraud probability 0.0 and both accounts marked not fraudulent |
| `Models.Fold` | lab/backend/models.py:95-96 | folding a transfer keeps the edge's endpoints, adds the amount to its total and one to its count |
| `Models.GraphDatabase.constructor` | lab/backend/models.py:23-29 | the database holds exactly the given well-formed nodes and edges |
| `Models.GraphDatabase.GetAccounts` | lab/backend/models.py:31-38 | one account per node in node order, with id = node key, the node's customer id, fraudulent = the node's is_fraud, fraud probability 0.0; ids are unique |
| `Models.GraphDatabase.GetAccount` | lab/backend/models.py:77-82 | absent exactly when no node has key `id`; otherwise Account(the node's `id` attribute, its customer id, its is_fraud, 0.0) of the node with that key |
| `Models.GraphDatabase.GetTransactions` | lab/backend/models.py:40-75 | the loop with its `is_filtered` flag returns exactly the query's specified records; the graph is only read |
| `Models.SelectedIndices` | lab/backend/models.py:42-57 | the positions of the kept edges, strictly increasing, each kept, and including every edge the filter keeps |
| `Properties.TransactionsAreSelectedRecords` | lab/backend/models.py:41-75 | a query result is, in order, the records of exactly the kept edges: an order-preserving subsequence of the edge list |
| `Properties.RecordFields` | lab/backend/models.py:59-73 | each record is sender Account(edge sender key, that node's customer id, false, 0.0), the same for the receiver, the edge's unchanged totals and fraud probability 0.0 |
| `Properties.NoFilterKeepsNothing` | lab/backend/models.py:43-57 | with neither filter present, the result is empty |
| `Properties.PairSelectsExactPair` | lab/backend/models.py:44-48 | with both filters present, every kept edge carries exactly that (sender, receiver) pair |
| `Properties.PairSelectsOnlyItsEdge` | lab/backend/models.py:44-48 | with both filters present, the kept positions are just the position of the pair's edge, or none |
| `Properties.PairQuery` | lab/backend/models.py:44-48 | with both filters present, the result is the single record of that pair's edge, or empty when no such edge exists |
| `Properties.PairQueryOfEdge` | lab/backend/models.py:44-48 | querying with both endpoints of any edge whose endpoint keys are non-empty returns exactly that edge's record (an empty key is falsy, so the pair branch is not taken) |
| `Properties.SenderOnlyQuery` | lab/backend/models.py:49-51 | with only the sender present, every record comes from that sender, and every edge from that sender has its record in the result |
| `Properties.ReceiverOnlyQuery` | lab/backend/models.py:49-54 | with only the receiver present, every record's receiver differs from it, and every edge whose receiver differs has its record in the result |
| `Properties.ReceiverOnlyQueryExample` | lab/backend/models.py:53-54 | over edges A->B and A->C, a receiver-only query for B returns only the A->C record |
| `Models.NewTransaction` | lab/backend/models.py:84-96 | fails with "sender not found" exactly when the sender is not a node; otherwise fails with "receiver not found" when the receiver is not a node; a success never changes the number of edges |
| `Models.GraphDatabase.CreateNewTransaction` | lab/backend/models.py:84-96 | the new edges are the specified successor, or on any error the graph is unchanged and the error is returned; nodes never change; the invariant is kept |
| `Properties.NewTransactionFoldsOneEdge` | lab/backend/models.py:94-96 | when both accounts exist, the edge keyed by their `id` attributes gains the amount and one transaction and all other edges are unchanged; without that edge the operation fails with the missing pair |
| `Properties.NewTransactionOnEdge` | lab/backend/models.py:94-96 | when the edge for the two `id` attributes is at position i, the result is the edge list with only position i folded |
| `Properties.NewTransactionPreservesWellFormed` | lab/backend/models.py:94-96 | a successful transaction keeps every edge's endpoints, adds no edge and keeps the graph well formed |
| `Properties.FoldPreservesWellFormed` | lab/backend/models.py:95-96 | folding a transfer into one edge keeps the graph well formed |
| `Properties.RepeatedTransactionsAccumulate` | lab/backend/models.py:95-96 | n transactions of an amount in a row add exactly n times the amount and n transactions to the edge, and change nothing else |
| `Properties.NewTransactionExample` | lab/backend/models.py:95-96 | an edge A->B holding 100 over 2 transactions holds 150 over 3 after a transaction of 50 |
| `Properties.IdAttributeSelectsTheEdge` | lab/backend/models.py:82-94 | the edge is looked up by the nodes' `id` attributes: if node A's `id` is X, a transaction A->B fails with the pair (X, B) missing, even though A->B exists |

## Left out

- Reading the GraphML file in `GraphDatabase.__init__` (lab/backend/models.py:23-29) and its progress messages: this is file I/O. The constructor takes the parsed nodes and edges instead.
- networkx itself: the graph is an ordered node sequence and an ordered edge sequence. The invariant `WellFormed` gives unique keys, one edge per ordered pair, and edge endpoints that are nodes.
- Floating point: `total_amount` and `fraud_probability` are `real`, with no rounding.
- Missing node attributes (a `KeyError` on `is_fraud`, `customer_id` or `id`): these are required fields of `Node`.
- Integer versus string identifiers: ids are strings, and `str(id)` is the identity on them.
- Models.GraphDatabase.GetTransactions: does not model the Python crash when an edge endpoint is not a node. `Valid()` rules that case out, as a networkx graph does.
- lab/backend/app.py (Flask routing, JSON encoding, the "both parameters missing" 400 reply, the fixed reply to a new transaction, the static page): this is the HTTP layer. `/graphml` calls `get_graphml`, which `GraphDatabase` does not define, so there is no export or round trip to model.
- Concurrency and lost updates under parallel requests: the code has no locks. The model is sequential, and `Properties.RepeatedTransactionsAccumulate` states the sequential accumulation only.
- The message text of the errors: `Error` keeps which check failed and the id or pair involved, not the formatted string.
