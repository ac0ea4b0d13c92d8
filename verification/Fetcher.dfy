/** The background fetcher: it takes requested outpoints in order, asks the node for their transactions in
    batches of concurrent requests whose responses come back in any order, and sends the outputs back in the
    order of the requests. */
module Fetcher {
  import opened Wrappers
  import opened Arithmetic
  import opened Prefetch

  const BATCH_SIZE: nat := 2048

  datatype NodeTx = NodeTx(outputs: seq<TxOut>)

  /** One response of a batched request; None is a missing or unreadable result. */
  datatype Response = Response(id: nat, error: bool, result: Option<NodeTx>)

  /** The node's transactions, and what a request gets on its n-th try. */
  datatype Node = Node(tx: string -> NodeTx, ask: (nat, seq<string>) -> Result<seq<Response>>)

  /** One response per request, each under its own id, in any order; without error it is the transaction. */
  predicate Answered(node: Node, txids: seq<string>, rs: seq<Response>) {
    && |rs| == |txids|
    && (forall i :: 0 <= i < |rs| ==> rs[i].id < |txids|)
    && (forall i :: 0 <= i < |rs| && rs[i].result.Some? ==> rs[i].result.value == node.tx(txids[rs[i].id]))
    && (forall i, j :: 0 <= i < j < |rs| ==> rs[i].id != rs[j].id)
  }

  ghost predicate Honest(node: Node) {
    forall n, txids :: node.ask(n, txids).Ok? ==> Answered(node, txids, node.ask(n, txids).value)
  }

  // ---------- sorting responses ----------

  predicate IdsAscend(rs: seq<Response>) {
    forall i, j :: 0 <= i < j < |rs| ==> rs[i].id < rs[j].id
  }

  function InsertById(rs: seq<Response>, r: Response): (s: seq<Response>)
    ensures |s| == |rs| + 1
    ensures forall x :: x in s <==> x in rs || x == r
  {
    if rs == [] || rs[|rs| - 1].id <= r.id then rs + [r]
    else InsertById(rs[..|rs| - 1], r) + [rs[|rs| - 1]]
  }

  /** Sorting by id, as any stable sort would. */
  function SortById(rs: seq<Response>): (s: seq<Response>)
    ensures |s| == |rs|
    ensures forall x :: x in s <==> x in rs
  {
    if rs == [] then [] else InsertById(SortById(rs[..|rs| - 1]), rs[|rs| - 1])
  }

  lemma {:induction false} InsertAscends(rs: seq<Response>, r: Response)
    requires IdsAscend(rs) && forall x :: x in rs ==> x.id != r.id
    ensures IdsAscend(InsertById(rs, r))
  {
    if rs != [] && rs[|rs| - 1].id > r.id {
      var front := rs[..|rs| - 1];
      InsertAscends(front, r);
      var s := InsertById(front, r);
      forall i | 0 <= i < |s| ensures s[i].id < rs[|rs| - 1].id {
        assert s[i] in s;
      }
    } else {
      forall i | 0 <= i < |rs| ensures rs[i].id < r.id {
        assert rs[i] in rs;
      }
    }
  }

  lemma {:induction false} SortAscends(rs: seq<Response>)
    requires forall i, j :: 0 <= i < j < |rs| ==> rs[i].id != rs[j].id
    ensures IdsAscend(SortById(rs))
  {
    if rs != [] {
      var front := rs[..|rs| - 1];
      SortAscends(front);
      InsertAscends(SortById(front), rs[|rs| - 1]);
    }
  }

  /** n ascending numbers below n are 0, 1, .., n-1. */
  lemma AscendingIsIdentity(rs: seq<Response>, n: nat)
    requires IdsAscend(rs) && |rs| <= n && forall i :: 0 <= i < |rs| ==> n - |rs| <= rs[i].id < n
    ensures forall i :: 0 <= i < |rs| ==> rs[i].id == n - |rs| + i
  {
    if rs != [] {
      forall i | 0 <= i < |rs| ensures rs[i].id == n - |rs| + i {
        IdsGrow(rs, i);
        IdsRoom(rs, i);
      }
    }
  }

  lemma {:induction false} IdsGrow(rs: seq<Response>, i: nat)
    requires IdsAscend(rs) && i < |rs|
    ensures rs[i].id >= rs[0].id + i
  {
    if i > 0 {
      IdsGrow(rs, i - 1);
    }
  }

  lemma {:induction false} IdsRoom(rs: seq<Response>, i: nat)
    requires IdsAscend(rs) && i < |rs|
    ensures rs[i].id + (|rs| - 1 - i) <= rs[|rs| - 1].id
    decreases |rs| - i
  {
    if i < |rs| - 1 {
      IdsRoom(rs, i + 1);
    }
  }

  /** Sorted, the i-th response answers the i-th request. */
  lemma SortedAnswers(node: Node, txids: seq<string>, rs: seq<Response>)
    requires Answered(node, txids, rs)
    ensures forall i :: 0 <= i < |txids| ==> SortById(rs)[i].id == i
    ensures forall i ::
              0 <= i < |txids| && SortById(rs)[i].result.Some? ==> SortById(rs)[i].result.value == node.tx(txids[i])
  {
    var s := SortById(rs);
    SortAscends(rs);
    forall i | 0 <= i < |s| ensures s[i].id < |txids| {
      assert s[i] in s;
    }
    AscendingIsIdentity(s, |txids|);
    forall i | 0 <= i < |s| && s[i].result.Some? ensures s[i].result.value == node.tx(txids[i]) {
      assert s[i] in s;
    }
  }

  // ---------- one request ----------

  function Transactions(node: Node, txids: seq<string>): seq<NodeTx> {
    seq(|txids|, i requires 0 <= i < |txids| => node.tx(txids[i]))
  }

  predicate AnyError(rs: seq<Response>) {
    exists i :: 0 <= i < |rs| && rs[i].error
  }

  predicate AllResults(rs: seq<Response>) {
    forall i :: 0 <= i < |rs| ==> rs[i].result.Some?
  }

  function Results(rs: seq<Response>): seq<NodeTx>
    requires AllResults(rs)
  {
    seq(|rs|, i requires 0 <= i < |rs| => rs[i].result.value)
  }

  /** What is made of the responses, whatever they are. */
  function Accepted(rs: seq<Response>): Result<seq<NodeTx>> {
    if AnyError(rs) || !AllResults(SortById(rs)) then Err else Ok(Results(SortById(rs)))
  }

  /** The first of six tries that gets responses. */
  function FirstResponses(node: Node, txids: seq<string>, n: nat): Result<seq<Response>>
    decreases 6 - n
  {
    if n > 5 then Err else if node.ask(n, txids).Ok? then node.ask(n, txids) else FirstResponses(node, txids, n + 1)
  }

  lemma {:induction false} FirstIsAsked(node: Node, txids: seq<string>, n: nat)
    requires Honest(node) && FirstResponses(node, txids, n).Ok?
    ensures Answered(node, txids, FirstResponses(node, txids, n).value)
    decreases 6 - n
  {
    if node.ask(n, txids).Err? {
      FirstIsAsked(node, txids, n + 1);
    }
  }

  lemma AnsweredAccepted(node: Node, txids: seq<string>, rs: seq<Response>)
    requires Answered(node, txids, rs) && Accepted(rs).Ok?
    ensures Accepted(rs).value == Transactions(node, txids)
  {
    SortedAnswers(node, txids, rs);
  }

  /** At most six tries; then every response must be there, and they are put in order. Nothing checks that there is one
      response per request; from a node of which that holds, they are the requested transactions. */
  method GetTransactions(node: Node, txids: seq<string>) returns (r: Result<seq<NodeTx>>)
    ensures r == if txids == [] then Ok([])
                 else match FirstResponses(node, txids, 0) case Err => Err case Ok(rs) => Accepted(rs)
    ensures Honest(node) && r.Ok? ==> r.value == Transactions(node, txids)
  {
    if |txids| == 0 {
      return Ok([]);
    }
    var retries := 0;
    var results := node.ask(0, txids);
    while results.Err?
      invariant retries <= 5 && results == node.ask(retries, txids)
      invariant FirstResponses(node, txids, 0) == FirstResponses(node, txids, retries)
      decreases 5 - retries
    {
      if retries >= 5 {
        assert FirstResponses(node, txids, 6) == Err;
        return Err;
      }
      retries := retries + 1;
      results := node.ask(retries, txids);
    }
    if AnyError(results.value) {
      return Err;
    }
    var sorted := SortById(results.value);
    var txs := [];
    for i := 0 to |sorted|
      invariant AllResults(sorted[..i]) && txs == Results(sorted[..i])
    {
      if sorted[i].result.None? {
        return Err;
      }
      txs := txs + [sorted[i].result.value];
    }
    assert sorted[..|sorted|] == sorted;
    if Honest(node) {
      FirstIsAsked(node, txids, 0);
      AnsweredAccepted(node, txids, results.value);
    }
    return Ok(txs);
  }

  // ---------- a node that does not answer one to one ----------

  /** Every response is a transaction that was asked for, under its id. */
  predicate Truthful(node: Node, txids: seq<string>, rs: seq<Response>) {
    forall r :: r in rs ==> !r.error && r.id < |txids| && r.result == Some(node.tx(txids[r.id]))
  }

  predicate OneToOne(txids: seq<string>, rs: seq<Response>) {
    |rs| == |txids| && forall i, j :: 0 <= i < j < |rs| ==> rs[i].id != rs[j].id
  }

  predicate AllDistinct<T(==)>(s: seq<T>) {
    forall i, j :: 0 <= i < j < |s| ==> s[i] != s[j]
  }

  function Ids(rs: seq<Response>): seq<nat> {
    seq(|rs|, i requires 0 <= i < |rs| => rs[i].id)
  }

  lemma {:induction false} InsertPermutes(rs: seq<Response>, r: Response)
    ensures multiset(InsertById(rs, r)) == multiset(rs) + multiset{r}
  {
    if rs != [] && rs[|rs| - 1].id > r.id {
      InsertPermutes(rs[..|rs| - 1], r);
      assert rs == rs[..|rs| - 1] + [rs[|rs| - 1]];
    }
  }

  lemma {:induction false} SortPermutes(rs: seq<Response>)
    ensures multiset(SortById(rs)) == multiset(rs)
  {
    if rs != [] {
      SortPermutes(rs[..|rs| - 1]);
      InsertPermutes(SortById(rs[..|rs| - 1]), rs[|rs| - 1]);
      assert rs == rs[..|rs| - 1] + [rs[|rs| - 1]];
    }
  }

  /** Two equal ids at different positions would be two equal responses, or two of one id, in the sorted list too. */
  lemma DistinctBack(sorted: seq<Response>, rs: seq<Response>, i: nat, j: nat)
    requires multiset(sorted) == multiset(rs) && i < j < |rs|
    requires forall k :: 0 <= k < |sorted| ==> sorted[k].id == k
    ensures rs[i].id != rs[j].id
  {
    if rs[i].id == rs[j].id {
      assert rs[i] in multiset(rs) && rs[j] in multiset(rs);
      assert rs[i] in sorted && rs[j] in sorted;
      var r := rs[i];
      assert rs[j] == r;
      assert rs == rs[..j] + [r] + rs[j + 1..] && rs[..j] == rs[..i] + [r] + rs[i + 1..j];
      assert multiset(rs)[r] >= 2;
      CountOnce(sorted, r);
    }
  }

  lemma CountOnce(sorted: seq<Response>, r: Response)
    requires forall k :: 0 <= k < |sorted| ==> sorted[k].id == k
    requires r in sorted
    ensures multiset(sorted)[r] == 1
  {
    var k := r.id;
    assert sorted == sorted[..k] + [r] + sorted[k + 1..];
    assert r !in sorted[..k] && r !in sorted[k + 1..];
  }

  /** When all requested transactions are different, a node's truthful responses are accepted as the requested
      transactions if and only if there is exactly one for each request. */
  lemma OneToOneMatters(node: Node, txids: seq<string>, rs: seq<Response>)
    requires Truthful(node, txids, rs) && AllDistinct(Transactions(node, txids))
    ensures Accepted(rs) == Ok(Transactions(node, txids)) <==> OneToOne(txids, rs)
  {
    var sorted, txs := SortById(rs), Transactions(node, txids);
    forall i | 0 <= i < |rs| ensures !rs[i].error {
      assert rs[i] in rs;
    }
    forall i | 0 <= i < |sorted| ensures sorted[i].id < |txids| && sorted[i].result == Some(txs[sorted[i].id]) {
      assert sorted[i] in rs;
    }
    assert Accepted(rs) == Ok(Results(sorted));
    if OneToOne(txids, rs) {
      forall i | 0 <= i < |rs| ensures rs[i].id < |txids| && rs[i].result == Some(node.tx(txids[rs[i].id])) {
        assert rs[i] in rs;
      }
      AnsweredAccepted(node, txids, rs);
    } else if Results(sorted) == txs {
      forall k | 0 <= k < |sorted| ensures sorted[k].id == k {
        assert Results(sorted)[k] == txs[sorted[k].id] == txs[k];
      }
      SortPermutes(rs);
      forall i, j | 0 <= i < j < |rs| ensures rs[i].id != rs[j].id {
        DistinctBack(sorted, rs, i, j);
      }
    }
  }

  // ---------- one batch ----------

  function TxidsOf(outpoints: seq<OutPoint>): seq<string> {
    seq(|outpoints|, i requires 0 <= i < |outpoints| => outpoints[i].txid)
  }

  predicate Exists(node: Node, o: OutPoint) {
    o.vout < |node.tx(o.txid).outputs|
  }

  function OutputsOf(node: Node, outpoints: seq<OutPoint>): seq<TxOut>
    requires forall i :: 0 <= i < |outpoints| ==> Exists(node, outpoints[i])
  {
    seq(|outpoints|, i requires 0 <= i < |outpoints| && Exists(node, outpoints[i]) => OutputOf(node, outpoints[i]))
  }

  function OutputOf(node: Node, o: OutPoint): TxOut
    requires Exists(node, o)
  {
    node.tx(o.txid).outputs[o.vout]
  }

  /** What the thread sends is what the updater expects. */
  lemma ServedIsAnswers(node: Node, w: World, outpoints: seq<OutPoint>)
    requires forall i :: 0 <= i < |outpoints| ==>
               Exists(node, outpoints[i]) && w.node(outpoints[i]) == OutputOf(node, outpoints[i])
    ensures OutputsOf(node, outpoints) == Answers(w, outpoints)
  {
  }

  /** Splitting a batch by the number of parallel requests makes no more requests than that. */
  lemma ChunksFit(n: nat, parallel: nat, chunk: nat, chunks: nat)
    requires parallel > 0 && chunk == n / parallel + 1 && chunks * chunk < n
    ensures chunks < parallel
  {
    assert parallel * chunk == parallel * (n / parallel) + parallel > n;
    if parallel <= chunks {
      MulMonotone(parallel, chunks, chunk);
    }
  }

  /** The transactions of a batch, chunk by chunk; concurrent requests are joined in request order. */
  method FetchChunks(node: Node, txids: seq<string>, parallel: nat) returns (r: Result<seq<NodeTx>>, requests: nat)
    requires Honest(node) && parallel > 0
    ensures r.Ok? ==> r.value == Transactions(node, txids)
    ensures requests <= parallel
  {
    var chunk := |txids| / parallel + 1;
    var start, txs := 0, [];
    requests := 0;
    while start < |txids|
      invariant start <= |txids| && txs == Transactions(node, txids[..start])
      invariant requests <= parallel && (start < |txids| ==> start == requests * chunk)
      decreases |txids| - start
    {
      ChunksFit(|txids|, parallel, chunk, requests);
      var end := if start + chunk <= |txids| then start + chunk else |txids|;
      var part := GetTransactions(node, txids[start..end]);
      requests := requests + 1;
      if part.Err? {
        return Err, requests;
      }
      assert txids[..end] == txids[..start] + txids[start..end];
      MulDistributes(requests - 1, 1, chunk);
      txs := txs + part.value;
      start := end;
    }
    assert txids[..start] == txids;
    return Ok(txs), requests;
  }

  method FetchBatch(node: Node, outpoints: seq<OutPoint>, parallel: nat) returns (r: Result<seq<TxOut>>)
    requires Honest(node) && parallel > 0 && forall i :: 0 <= i < |outpoints| ==> Exists(node, outpoints[i])
    ensures r.Ok? ==> r.value == OutputsOf(node, outpoints)
  {
    var txs, _ := FetchChunks(node, TxidsOf(outpoints), parallel);
    if txs.Err? {
      return Err;
    }
    var out := [];
    for i := 0 to |txs.value|
      invariant out == OutputsOf(node, outpoints[..i])
    {
      out := out + [txs.value[i].outputs[outpoints[i].vout]];
    }
    assert outpoints[..|txs.value|] == outpoints;
    return Ok(out);
  }

  // ---------- the thread ----------

  /** However many requests happen to be waiting each time, the outputs come back in request order; a failed
      request ends the thread, having answered a prefix. */
  method Serve(node: Node, requested: seq<OutPoint>, waiting: nat -> nat, parallel: nat)
    returns (sent: seq<TxOut>, ok: bool)
    requires Honest(node) && parallel > 0 && forall i :: 0 <= i < |requested| ==> Exists(node, requested[i])
    ensures sent <= OutputsOf(node, requested)
    ensures ok ==> sent == OutputsOf(node, requested)
  {
    var start := 0;
    sent := [];
    while start < |requested|
      invariant start <= |requested| && sent == OutputsOf(node, requested[..start])
      invariant sent <= OutputsOf(node, requested)
      decreases |requested| - start
    {
      var end := start + 1;
      while end < |requested| && end - start < BATCH_SIZE && end - start <= waiting(start)
        invariant start < end <= |requested|
      {
        end := end + 1;
      }
      var part := FetchBatch(node, requested[start..end], parallel);
      if part.Err? {
        return sent, false;
      }
      assert requested[..end] == requested[..start] + requested[start..end];
      sent := sent + part.value;
      start := end;
    }
    assert requested[..start] == requested;
    return sent, true;
  }

}
