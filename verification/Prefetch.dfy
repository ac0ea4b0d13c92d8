/** ord's unspent-output store: a cache in front of the database, and a queue of outputs fetched from the
    node for the inputs neither has. The queue carries no names, so the loop that fills it and the loop that
    drains it must agree on order. */
module Prefetch {
  import opened Wrappers
  import opened Bytes
  import opened Varint
  import opened UtxoEntry

  datatype OutPoint = OutPoint(txid: string, vout: nat)

  /** The value of an output is all the index keeps of it. */
  datatype TxOut = TxOut(value: U64)

  datatype Tx = Tx(txid: string, inputs: seq<OutPoint>, outputs: seq<TxOut>)

  type Entry = seq<Byte>
  type Utxos = map<OutPoint, Entry>

  const ZERO_TXID: string
    := "0000000000000000000000000000000000000000000000000000000000000000"
  const NULL_OUTPOINT := OutPoint(ZERO_TXID, 0xFFFF_FFFF)
  const UNBOUND_OUTPOINT := OutPoint(ZERO_TXID, 0)

  predicate IsSpecial(o: OutPoint) {
    o == NULL_OUTPOINT || o == UNBOUND_OUTPOINT
  }

  /** What lies outside: the node's answer for an outpoint, and what locating inscriptions makes of a
      transaction, given the entries of its inputs: entries of its outputs, and of the special outpoints. */
  datatype World = World(
    node: OutPoint -> TxOut,
    locate: (nat, seq<Entry>) -> seq<Entry>,
    lost: (nat, seq<Entry>, Utxos) -> Utxos
  )

  predicate OnlySpecial(utxos: Utxos) {
    forall o :: o in utxos ==> IsSpecial(o)
  }

  function Specials(utxos: Utxos): Utxos {
    map o | o in utxos && IsSpecial(o) :: utxos[o]
  }

  function Ordinary(utxos: Utxos): Utxos {
    map o | o in utxos && !IsSpecial(o) :: utxos[o]
  }

  /** Locating keeps the number of outputs and writes nothing else but special outpoints. */
  ghost predicate Locates(w: World, block: seq<Tx>) {
    && (forall i, entries :: 0 <= i < |block| ==> |w.locate(i, entries)| == |block[i].outputs|)
    && (forall i, entries, specials :: OnlySpecial(w.lost(i, entries, specials)))
  }

  function FetchedEntry(out: TxOut): Entry {
    Encode(out.value)
  }

  // ---------- one map of unspent outputs ----------

  function InputEntry(w: World, utxos: Utxos, o: OutPoint): Entry {
    if o in utxos then utxos[o] else FetchedEntry(w.node(o))
  }

  function InputEntries(w: World, utxos: Utxos, inputs: seq<OutPoint>): seq<Entry> {
    seq(|inputs|, k requires 0 <= k < |inputs| => InputEntry(w, utxos, inputs[k]))
  }

  function Spent(inputs: seq<OutPoint>): set<OutPoint> {
    set o | o in inputs
  }

  function Created(txid: string, entries: seq<Entry>): Utxos {
    if entries == [] then map[]
    else
      var vout := |entries| - 1;
      Created(txid, entries[..vout])[OutPoint(txid, vout) := entries[vout]]
  }

  /** The inputs of the coinbase are not looked at. */
  function InputsAt(block: seq<Tx>, i: nat): seq<OutPoint>
    requires i < |block|
  {
    if i == 0 then [] else block[i].inputs
  }

  function ApplyTx(w: World, block: seq<Tx>, i: nat, utxos: Utxos): Utxos
    requires i < |block|
  {
    var inputs := InputsAt(block, i);
    var entries := InputEntries(w, utxos, inputs);
    utxos - Spent(inputs) + w.lost(i, entries, Specials(utxos)) + Created(block[i].txid, w.locate(i, entries))
  }

  /** After the transactions 1 .. n-1, in order. */
  function ApplyUpTo(w: World, block: seq<Tx>, n: nat, utxos: Utxos): Utxos
    requires 1 <= n <= |block|
  {
    if n == 1 then utxos else ApplyTx(w, block, n - 1, ApplyUpTo(w, block, n - 1, utxos))
  }

  /** The coinbase comes last. */
  function ApplyBlock(w: World, block: seq<Tx>, utxos: Utxos): Utxos
    requires block != []
  {
    ApplyTx(w, block, 0, ApplyUpTo(w, block, |block|, utxos))
  }

  // ---------- valid blocks ----------

  function Txids(block: seq<Tx>): set<string> {
    set tx | tx in block :: tx.txid
  }

  predicate IsOutput(tx: Tx, o: OutPoint) {
    o.txid == tx.txid && o.vout < |tx.outputs|
  }

  /** An output of one of the transactions 1 .. n-1. */
  predicate CreatedBefore(block: seq<Tx>, n: nat, o: OutPoint)
    requires n <= |block|
  {
    n > 1 && (IsOutput(block[n - 1], o) || CreatedBefore(block, n - 1, o))
  }

  /** An input of one of the transactions 1 .. n-1. */
  predicate SpentBefore(block: seq<Tx>, n: nat, o: OutPoint)
    requires n <= |block|
  {
    n > 1 && (o in block[n - 1].inputs || SpentBefore(block, n - 1, o))
  }

  /** An input refers to an output of an earlier transaction of the block other than the coinbase, or to a
      transaction outside the block, and was not spent before. */
  predicate GoodInput(block: seq<Tx>, i: nat, k: nat)
    requires i < |block| && k < |block[i].inputs|
  {
    var o := block[i].inputs[k];
    && !IsSpecial(o) && (o.txid in Txids(block) ==> CreatedBefore(block, i, o))
    && !SpentBefore(block, i, o) && o !in block[i].inputs[..k]
  }

  predicate ValidBlock(block: seq<Tx>) {
    && block != []
    && (forall k :: 0 <= k < |block[0].inputs| ==> block[0].inputs[k] == NULL_OUTPOINT)
    && (forall i, k :: 1 <= i < |block| && 0 <= k < |block[i].inputs| ==> GoodInput(block, i, k))
  }

  /** No unspent output belongs to a transaction of the block yet. */
  predicate NewTxids(block: seq<Tx>, utxos: Utxos) {
    forall o :: o in utxos && !IsSpecial(o) ==> o.txid !in Txids(block)
  }

  // ---------- which inputs are missing ----------

  /** What the scan asks of an input before it is requested from the node. */
  predicate Missing(txids: set<string>, utxos: Utxos, o: OutPoint) {
    o != NULL_OUTPOINT && o.txid !in txids && o !in utxos
  }

  /** The missing ones among inputs k, k+1, .. of a transaction. */
  function MissingIn(txids: set<string>, utxos: Utxos, inputs: seq<OutPoint>, k: nat): seq<OutPoint>
    requires k <= |inputs|
    decreases |inputs| - k
  {
    if k == |inputs| then []
    else (if Missing(txids, utxos, inputs[k]) then [inputs[k]] else []) + MissingIn(txids, utxos, inputs, k + 1)
  }

  /** The missing inputs of transactions i, i+1, .. in block order. */
  function MissingFrom(block: seq<Tx>, txids: set<string>, utxos: Utxos, i: nat): seq<OutPoint>
    requires i <= |block|
    decreases |block| - i
  {
    if i == |block| then []
    else MissingIn(txids, utxos, block[i].inputs, 0) + MissingFrom(block, txids, utxos, i + 1)
  }

  function Answers(w: World, outpoints: seq<OutPoint>): seq<TxOut> {
    seq(|outpoints|, k requires 0 <= k < |outpoints| => w.node(outpoints[k]))
  }

  lemma AnswersConcat(w: World, a: seq<OutPoint>, b: seq<OutPoint>)
    ensures Answers(w, a + b) == Answers(w, a) + Answers(w, b)
  {
  }

  // ---------- the two loops agree ----------

  /** An outpoint not spent by transactions 1 .. n-1 is in the map exactly when it was there before or one
      of them created it. */
  lemma {:induction false} HeldUpTo(w: World, block: seq<Tx>, n: nat, utxos: Utxos, o: OutPoint)
    requires Locates(w, block) && 1 <= n <= |block| && !IsSpecial(o) && !SpentBefore(block, n, o)
    ensures o in ApplyUpTo(w, block, n, utxos) <==> o in utxos || CreatedBefore(block, n, o)
  {
    if n > 1 {
      HeldUpTo(w, block, n - 1, utxos, o);
      HeldAfter(w, block, n - 1, ApplyUpTo(w, block, n - 1, utxos), o);
    }
  }

  lemma HeldAfter(w: World, block: seq<Tx>, i: nat, utxos: Utxos, o: OutPoint)
    requires Locates(w, block) && 1 <= i < |block| && !IsSpecial(o) && o !in block[i].inputs
    ensures o in ApplyTx(w, block, i, utxos) <==> o in utxos || IsOutput(block[i], o)
  {
    var entries := InputEntries(w, utxos, block[i].inputs);
    CreatedHolds(block[i].txid, w.locate(i, entries), o);
  }

  lemma {:induction false} CreatedHolds(txid: string, entries: seq<Entry>, o: OutPoint)
    ensures o in Created(txid, entries) <==> o.txid == txid && o.vout < |entries|
    ensures o in Created(txid, entries) ==> Created(txid, entries)[o] == entries[o.vout]
  {
    if entries != [] {
      CreatedHolds(txid, entries[..|entries| - 1], o);
    }
  }

  lemma {:induction false} CreatedInBlock(block: seq<Tx>, n: nat, o: OutPoint)
    requires n <= |block| && CreatedBefore(block, n, o)
    ensures o.txid in Txids(block)
  {
    if IsOutput(block[n - 1], o) {
      assert block[n - 1] in block;
    } else {
      CreatedInBlock(block, n - 1, o);
    }
  }

  /** When transaction i is processed, each of its inputs is absent from the map exactly when the scan, made
      before the block, requested it: outpoints created in the block are not in the map from before. */
  lemma AbsentIffRequested(w: World, block: seq<Tx>, utxos: Utxos, i: nat, k: nat)
    requires Locates(w, block) && ValidBlock(block) && 1 <= i < |block| && k < |block[i].inputs|
    ensures var o := block[i].inputs[k];
            o !in ApplyUpTo(w, block, i, utxos) <==> Missing(Txids(block), utxos, o)
  {
    var o := block[i].inputs[k];
    assert GoodInput(block, i, k);
    HeldUpTo(w, block, i, utxos, o);
    if CreatedBefore(block, i, o) {
      CreatedInBlock(block, i, o);
    }
  }

  // ---------- every input gets its own output ----------

  function EntryValue(entry: Entry): Option<nat> {
    match Decode(entry)
    case Value(n, _) => Some(n)
    case Failed(_) => None
  }

  /** Every stored entry carries the value of its output. */
  ghost predicate Faithful(w: World, utxos: Utxos) {
    forall o :: o in utxos && !IsSpecial(o) ==> EntryValue(utxos[o]) == Some(w.node(o).value)
  }

  /** The node knows the block's outputs, and locating keeps the values that were pushed first. */
  ghost predicate KeepsValues(w: World, block: seq<Tx>) {
    && (forall i, v :: 0 <= i < |block| && 0 <= v < |block[i].outputs| ==>
          w.node(OutPoint(block[i].txid, v)) == block[i].outputs[v])
    && (forall i, entries, v :: 0 <= i < |block| && 0 <= v < |block[i].outputs| && v < |w.locate(i, entries)| ==>
          EntryValue(w.locate(i, entries)[v]) == Some(block[i].outputs[v].value))
  }

  lemma FaithfulInput(w: World, utxos: Utxos, o: OutPoint)
    requires Faithful(w, utxos) && !IsSpecial(o)
    ensures EntryValue(InputEntry(w, utxos, o)) == Some(w.node(o).value)
  {
    if o !in utxos {
      DecodeEncode(w.node(o).value, []);
      assert Encode(w.node(o).value) + [] == Encode(w.node(o).value);
    }
  }

  lemma FaithfulAfter(w: World, block: seq<Tx>, i: nat, utxos: Utxos)
    requires Faithful(w, utxos) && Locates(w, block) && KeepsValues(w, block) && i < |block|
    ensures Faithful(w, ApplyTx(w, block, i, utxos))
  {
    var entries := InputEntries(w, utxos, InputsAt(block, i));
    var after, outputs := ApplyTx(w, block, i, utxos), w.locate(i, entries);
    assert OnlySpecial(w.lost(i, entries, Specials(utxos)));
    forall o | o in after && !IsSpecial(o) ensures EntryValue(after[o]) == Some(w.node(o).value) {
      CreatedHolds(block[i].txid, outputs, o);
      if o in Created(block[i].txid, outputs) {
        assert o == OutPoint(block[i].txid, o.vout);
      }
    }
  }

  lemma {:induction false} FaithfulUpTo(w: World, block: seq<Tx>, n: nat, utxos: Utxos)
    requires Faithful(w, utxos) && Locates(w, block) && KeepsValues(w, block) && 1 <= n <= |block|
    ensures Faithful(w, ApplyUpTo(w, block, n, utxos))
  {
    if n > 1 {
      FaithfulUpTo(w, block, n - 1, utxos);
      FaithfulAfter(w, block, n - 1, ApplyUpTo(w, block, n - 1, utxos));
    }
  }

  /** From a faithful store, every input of every transaction is given an entry with the value of the output
      it spends, and the store stays faithful. */
  lemma BlockIsFaithful(w: World, block: seq<Tx>, utxos: Utxos)
    requires Faithful(w, utxos) && Locates(w, block) && KeepsValues(w, block) && ValidBlock(block)
    ensures forall i, k :: 1 <= i < |block| && 0 <= k < |block[i].inputs| ==>
              EntryValue(InputEntry(w, ApplyUpTo(w, block, i, utxos), block[i].inputs[k]))
                == Some(w.node(block[i].inputs[k]).value)
    ensures Faithful(w, ApplyBlock(w, block, utxos))
  {
    forall i, k | 1 <= i < |block| && 0 <= k < |block[i].inputs|
      ensures EntryValue(InputEntry(w, ApplyUpTo(w, block, i, utxos), block[i].inputs[k]))
                == Some(w.node(block[i].inputs[k]).value) {
      FaithfulUpTo(w, block, i, utxos);
      assert GoodInput(block, i, k);
      FaithfulInput(w, ApplyUpTo(w, block, i, utxos), block[i].inputs[k]);
    }
    FaithfulUpTo(w, block, |block|, utxos);
    FaithfulAfter(w, block, 0, ApplyUpTo(w, block, |block|, utxos));
  }

  // ---------- special outpoints do not matter to the others ----------

  predicate SameAt(a: Utxos, b: Utxos, o: OutPoint) {
    (o in a <==> o in b) && (o in a && o in b ==> a[o] == b[o])
  }

  ghost predicate SameOrdinary(a: Utxos, b: Utxos) {
    forall o :: !IsSpecial(o) ==> SameAt(a, b, o)
  }

  lemma SameEntries(w: World, inputs: seq<OutPoint>, a: Utxos, b: Utxos)
    requires SameOrdinary(a, b) && forall k :: 0 <= k < |inputs| ==> !IsSpecial(inputs[k])
    ensures InputEntries(w, a, inputs) == InputEntries(w, b, inputs)
  {
    forall k | 0 <= k < |inputs| ensures InputEntry(w, a, inputs[k]) == InputEntry(w, b, inputs[k]) {
      assert SameAt(a, b, inputs[k]);
    }
  }

  lemma SameOrdinaryAfter(w: World, block: seq<Tx>, i: nat, a: Utxos, b: Utxos)
    requires SameOrdinary(a, b) && Locates(w, block) && ValidBlock(block) && i < |block|
    ensures SameOrdinary(ApplyTx(w, block, i, a), ApplyTx(w, block, i, b))
  {
    var inputs := InputsAt(block, i);
    forall k | 0 <= k < |inputs| ensures !IsSpecial(inputs[k]) {
      assert GoodInput(block, i, k);
    }
    SameEntries(w, inputs, a, b);
    var entries := InputEntries(w, a, inputs);
    assert OnlySpecial(w.lost(i, entries, Specials(a))) && OnlySpecial(w.lost(i, entries, Specials(b)));
    forall o | !IsSpecial(o) ensures SameAt(ApplyTx(w, block, i, a), ApplyTx(w, block, i, b), o) {
      assert SameAt(a, b, o);
    }
  }

  lemma {:induction false} SameOrdinaryUpTo(w: World, block: seq<Tx>, n: nat, a: Utxos, b: Utxos)
    requires SameOrdinary(a, b) && Locates(w, block) && ValidBlock(block) && 1 <= n <= |block|
    ensures SameOrdinary(ApplyUpTo(w, block, n, a), ApplyUpTo(w, block, n, b))
  {
    if n > 1 {
      SameOrdinaryUpTo(w, block, n - 1, a, b);
      SameOrdinaryAfter(w, block, n - 1, ApplyUpTo(w, block, n - 1, a), ApplyUpTo(w, block, n - 1, b));
    }
  }

  lemma SameOrdinaryBlock(w: World, block: seq<Tx>, a: Utxos, b: Utxos)
    requires SameOrdinary(a, b) && Locates(w, block) && ValidBlock(block)
    ensures SameOrdinary(ApplyBlock(w, block, a), ApplyBlock(w, block, b))
  {
    SameOrdinaryUpTo(w, block, |block|, a, b);
    SameOrdinaryAfter(w, block, 0, ApplyUpTo(w, block, |block|, a), ApplyUpTo(w, block, |block|, b));
  }

  // ---------- several blocks ----------

  datatype Block = Block(world: World, txs: seq<Tx>, commitAfter: bool)

  /** One map, no cache, no commits. */
  function ApplyBlocks(blocks: seq<Block>, utxos: Utxos): Utxos
    requires forall b :: b in blocks ==> b.txs != []
  {
    if blocks == [] then utxos
    else
      var last := blocks[|blocks| - 1];
      ApplyBlock(last.world, last.txs, ApplyBlocks(blocks[..|blocks| - 1], utxos))
  }

  ghost predicate ValidBlocks(blocks: seq<Block>, utxos: Utxos) {
    && (forall b :: b in blocks ==> ValidBlock(b.txs) && Locates(b.world, b.txs))
    && (forall i :: 0 <= i < |blocks| ==> NewTxids(blocks[i].txs, ApplyBlocks(blocks[..i], utxos)))
  }

  // ---------- the updater ----------

  class Updater {
    var cache: Utxos
    var db: Utxos
    /** Outputs fetched and not received yet, oldest first. */
    var answers: seq<TxOut>

    /** Cache and database together. */
    ghost function View(): Utxos
      reads this`cache, this`db
    {
      db + cache
    }

    /** No outpoint is in both, and special ones are never stored. */
    ghost predicate Valid()
      reads this`cache, this`db
    {
      cache.Keys !! db.Keys && forall o :: o in db ==> !IsSpecial(o)
    }

    constructor ()
      ensures Valid() && View() == map[] && answers == []
    {
      cache, db, answers := map[], map[], [];
    }

    /** The inputs of one transaction. */
    method RequestInputs(w: World, txids: set<string>, inputs: seq<OutPoint>)
      requires Valid()
      modifies this`answers
      ensures answers == old(answers) + Answers(w, MissingIn(txids, View(), inputs, 0))
    {
      ghost var all, before, sent := MissingIn(txids, View(), inputs, 0), answers, [];
      assert answers == before + Answers(w, sent);
      for k := 0 to |inputs|
        invariant sent + MissingIn(txids, View(), inputs, k) == all
        invariant answers == before + Answers(w, sent)
      {
        var o := inputs[k];
        if o != NULL_OUTPOINT && o.txid !in txids && o !in cache && o !in db {
          AnswersConcat(w, sent, [o]);
          answers := answers + [w.node(o)];
          sent := sent + [o];
          assert answers == before + Answers(w, sent);
        }
      }
    }

    /** Asking the background fetcher for every input that nothing here will have. */
    method RequestMissing(w: World, block: seq<Tx>)
      requires Valid() && answers == []
      modifies this`answers
      ensures answers == Answers(w, MissingFrom(block, Txids(block), View(), 0))
    {
      var txids := Txids(block);
      ghost var all, sent := MissingFrom(block, txids, View(), 0), [];
      for i := 0 to |block|
        invariant sent + MissingFrom(block, txids, View(), i) == all && answers == Answers(w, sent)
      {
        RequestInputs(w, txids, block[i].inputs);
        AnswersConcat(w, sent, MissingIn(txids, View(), block[i].inputs, 0));
        sent := sent + MissingIn(txids, View(), block[i].inputs, 0);
      }
    }

    /** The cache, else the database, else the next answer; whoever has the entry gives it up. */
    method TakeInput(w: World, o: OutPoint) returns (entry: Entry)
      requires Valid() && (o !in View() ==> answers != [])
      modifies this
      ensures Valid() && View() == old(View()) - {o}
      ensures answers == if o in old(View()) then old(answers) else old(answers)[1..]
      ensures entry == if o in old(View()) then old(View())[o] else FetchedEntry(old(answers)[0])
      ensures db.Keys <= old(db.Keys)
    {
      if o in cache {
        entry := cache[o];
        cache := cache - {o};
      } else if o in db {
        entry := db[o];
        db := db - {o};
      } else {
        entry := EncodeToVec(answers[0].value, []);
        assert [] + Encode(answers[0].value) == Encode(answers[0].value);
        answers := answers[1..];
      }
    }

    /** What is left to receive when input k of transaction i is next. */
    ghost predicate Expecting(w: World, block: seq<Tx>, start: Utxos, i: nat, k: nat)
      reads this`answers
    {
      && 1 <= i < |block| && k <= |block[i].inputs|
      && answers == Answers(w, MissingIn(Txids(block), start, block[i].inputs, k)
                               + MissingFrom(block, Txids(block), start, i + 1))
    }

    /** The answers for one transaction's inputs are its own: each input gets the entry it had, or the entry
        of the output it spends. */
    method TakeInputs(w: World, block: seq<Tx>, i: nat, ghost start: Utxos) returns (entries: seq<Entry>)
      requires Valid() && Locates(w, block) && ValidBlock(block) && 1 <= i < |block|
      requires Expecting(w, block, start, i, 0) && View() == ApplyUpTo(w, block, i, start)
      modifies this
      ensures Valid() && View() == old(View()) - Spent(block[i].inputs) && db.Keys <= old(db.Keys)
      ensures entries == InputEntries(w, old(View()), block[i].inputs)
      ensures Expecting(w, block, start, i, |block[i].inputs|)
    {
      var inputs := block[i].inputs;
      ghost var before := View();
      entries := [];
      for k := 0 to |inputs|
        invariant Valid() && db.Keys <= old(db.Keys)
        invariant View() == before - Spent(inputs[..k])
        invariant entries == InputEntries(w, before, inputs[..k])
        invariant Expecting(w, block, start, i, k)
      {
        AbsentIffRequested(w, block, start, i, k);
        assert GoodInput(block, i, k);
        NextAnswer(w, block, start, i, k);
        var entry := TakeInput(w, inputs[k]);
        SpentPush(before, inputs, k);
        EntriesPush(w, before, inputs, k);
        entries := entries + [entry];
      }
      assert inputs[..|inputs|] == inputs;
    }

    /** One transaction: its inputs are taken, its outputs enter the cache. */
    method IndexTx(w: World, block: seq<Tx>, i: nat, ghost start: Utxos)
      requires Valid() && Locates(w, block) && ValidBlock(block) && 1 <= i < |block|
      requires Expecting(w, block, start, i, 0) && View() == ApplyUpTo(w, block, i, start)
      requires DbIsOlder(block)
      modifies this
      ensures Valid() && View() == ApplyTx(w, block, i, old(View())) && DbIsOlder(block)
      ensures answers == Answers(w, MissingFrom(block, Txids(block), start, i + 1))
    {
      ghost var before := View();
      var entries := TakeInputs(w, block, i, start);
      assert MissingIn(Txids(block), start, block[i].inputs, |block[i].inputs|) == [];
      assert [] + MissingFrom(block, Txids(block), start, i + 1) == MissingFrom(block, Txids(block), start, i + 1);
      SpecialsKept(before, block[i].inputs, block, i);
      AddOutputs(w, block, i, entries);
    }

    /** Outputs are inserted one by one; their ids are not in the database. */
    method InsertOutputs(block: seq<Tx>, i: nat, outputs: seq<Entry>)
      requires Valid() && i < |block| && DbIsOlder(block)
      modifies this`cache
      ensures Valid() && View() == old(View()) + Created(block[i].txid, outputs)
    {
      ghost var before := cache;
      var txid := block[i].txid;
      assert before + Created(txid, outputs[..0]) == before;
      for vout := 0 to |outputs|
        invariant cache == before + Created(txid, outputs[..vout])
      {
        assert outputs[..vout + 1][..vout] == outputs[..vout];
        cache := cache[OutPoint(txid, vout) := outputs[vout]];
      }
      assert outputs[..|outputs|] == outputs;
      InsertedView(db, before, txid, outputs, block, i);
    }

    /** Special outpoints may be written while locating. */
    method AddOutputs(w: World, block: seq<Tx>, i: nat, entries: seq<Entry>)
      requires Valid() && Locates(w, block) && i < |block|
      requires DbIsOlder(block)
      modifies this`cache
      ensures Valid()
      ensures View() == old(View()) + w.lost(i, entries, Specials(old(View())))
                        + Created(block[i].txid, w.locate(i, entries))
    {
      ghost var before := View();
      var lost := w.lost(i, entries, Specials(cache));
      assert Specials(cache) == Specials(before);
      assert OnlySpecial(lost);
      cache := cache + lost;
      assert View() == before + lost;
      InsertOutputs(block, i, w.locate(i, entries));
    }

    ghost predicate DbIsOlder(block: seq<Tx>)
      reads this`db
    {
      forall o :: o in db ==> o.txid !in Txids(block)
    }

    lemma OlderThan(block: seq<Tx>)
      requires Valid() && NewTxids(block, View())
      ensures DbIsOlder(block)
    {
    }

    method IndexTxs(w: World, block: seq<Tx>, ghost start: Utxos)
      requires Valid() && Locates(w, block) && ValidBlock(block) && View() == start && DbIsOlder(block)
      requires answers == Answers(w, MissingFrom(block, Txids(block), start, 1))
      modifies this
      ensures Valid() && answers == [] && View() == ApplyUpTo(w, block, |block|, start) && DbIsOlder(block)
    {
      for i := 1 to |block|
        invariant Valid() && View() == ApplyUpTo(w, block, i, start) && DbIsOlder(block)
        invariant answers == Answers(w, MissingFrom(block, Txids(block), start, i))
      {
        IndexTx(w, block, i, start);
      }
    }

    /** A block: request, then transactions 1, 2, .., then the coinbase. The queue is empty again afterwards,
        and cache and database together changed as one map would. */
    method IndexUtxoEntries(w: World, block: seq<Tx>, haveFullUtxoIndex: bool)
      requires Valid() && answers == [] && Locates(w, block) && ValidBlock(block)
      requires NewTxids(block, View())
      requires haveFullUtxoIndex ==> MissingFrom(block, Txids(block), View(), 0) == []
      modifies this
      ensures Valid() && answers == [] && View() == ApplyBlock(w, block, old(View()))
    {
      ghost var start := View();
      OlderThan(block);
      if !haveFullUtxoIndex {
        RequestMissing(w, block);
      }
      CoinbaseIsNotRequested(block, start);
      IndexTxs(w, block, start);
      CoinbaseApplies(w, block, View());
      AddOutputs(w, block, 0, []);
    }

    /** Moving the cache into the database; special outpoints are dropped. */
    method Commit()
      requires Valid()
      modifies this`cache, this`db
      ensures Valid() && cache == map[] && View() == Ordinary(old(View()))
    {
      ghost var before, all := db, cache;
      var left := cache;
      assert Moved(before, all, left, db);
      while left != map[]
        invariant Moved(before, all, left, db)
        decreases |left|
      {
        var o :| o in left;
        MovedOne(before, all, left, db, o);
        if !IsSpecial(o) {
          db := db[o := left[o]];
        }
        left := left - {o};
      }
      cache := map[];
      AllMoved(before, all, db);
    }

  }

  /** Whatever blocks arrive and whenever the cache is committed, the unspent outputs are those of one plain
      map, and no answer of the node is ever left over or missing. */
  method IndexBlocks(u: Updater, blocks: seq<Block>)
    requires u.Valid() && u.answers == [] && ValidBlocks(blocks, u.View())
    modifies u
    ensures u.Valid() && u.answers == [] && SameOrdinary(u.View(), ApplyBlocks(blocks, old(u.View())))
  {
    ghost var start := u.View();
    for i := 0 to |blocks|
      invariant u.Valid() && u.answers == [] && SameOrdinary(u.View(), ApplyBlocks(blocks[..i], start))
    {
      var b := blocks[i];
      NewEitherWay(b.txs, u.View(), ApplyBlocks(blocks[..i], start));
      SameOrdinaryBlock(b.world, b.txs, u.View(), ApplyBlocks(blocks[..i], start));
      assert blocks[..i + 1][..i] == blocks[..i];
      u.IndexUtxoEntries(b.world, b.txs, false);
      if b.commitAfter {
        CommitKeepsOrdinary(u.View(), ApplyBlocks(blocks[..i + 1], start));
        u.Commit();
      }
    }
    assert blocks[..|blocks|] == blocks;
  }

  lemma NewEitherWay(block: seq<Tx>, a: Utxos, b: Utxos)
    requires SameOrdinary(a, b) && NewTxids(block, b)
    ensures NewTxids(block, a)
  {
    forall o | o in a && !IsSpecial(o) ensures o.txid !in Txids(block) {
      assert SameAt(a, b, o);
    }
  }

  lemma CommitKeepsOrdinary(a: Utxos, b: Utxos)
    requires SameOrdinary(a, b)
    ensures SameOrdinary(Ordinary(a), b)
  {
    forall o | !IsSpecial(o) ensures SameAt(Ordinary(a), b, o) {
      assert SameAt(a, b, o);
    }
  }

  /** The cache entries not left any more are in the database, unless special. */
  ghost predicate Moved(before: Utxos, all: Utxos, left: Utxos, db: Utxos) {
    && (forall o :: o in left ==> o in all && left[o] == all[o])
    && (forall o :: o in db <==> o in before || (o in all && o !in left && !IsSpecial(o)))
    && (forall o :: o in db ==> db[o] == if o in all && o !in left && !IsSpecial(o) then all[o] else before[o])
  }

  lemma MovedOne(before: Utxos, all: Utxos, left: Utxos, db: Utxos, o: OutPoint)
    requires Moved(before, all, left, db) && o in left
    ensures Moved(before, all, left - {o}, if IsSpecial(o) then db else db[o := left[o]])
  {
  }

  lemma AllMoved(before: Utxos, all: Utxos, db: Utxos)
    requires Moved(before, all, map[], db) && all.Keys !! before.Keys && forall o :: o in before ==> !IsSpecial(o)
    ensures db + map[] == Ordinary(before + all) && forall o :: o in db ==> !IsSpecial(o)
  {
  }

  /** The inserted outpoints are new, so cache and database stay apart. */
  lemma InsertedView(db: Utxos, before: Utxos, txid: string, outputs: seq<Entry>, block: seq<Tx>, i: nat)
    requires before.Keys !! db.Keys && i < |block| && txid == block[i].txid
    requires forall o :: o in db ==> o.txid !in Txids(block)
    ensures (before + Created(txid, outputs)).Keys !! db.Keys
    ensures db + (before + Created(txid, outputs)) == db + before + Created(txid, outputs)
  {
    assert block[i] in block;
    forall o | o in Created(txid, outputs) ensures o !in db {
      CreatedHolds(txid, outputs, o);
    }
  }

  lemma SpentPush(before: Utxos, inputs: seq<OutPoint>, k: nat)
    requires k < |inputs|
    ensures before - Spent(inputs[..k + 1]) == before - Spent(inputs[..k]) - {inputs[k]}
  {
    assert inputs[..k + 1] == inputs[..k] + [inputs[k]];
  }

  lemma EntriesPush(w: World, before: Utxos, inputs: seq<OutPoint>, k: nat)
    requires k < |inputs|
    ensures InputEntries(w, before, inputs[..k + 1])
              == InputEntries(w, before, inputs[..k]) + [InputEntry(w, before, inputs[k])]
  {
  }

  /** The next answer is this input's, or this input needs none. */
  lemma NextAnswer(w: World, block: seq<Tx>, start: Utxos, i: nat, k: nat)
    requires i < |block| && k < |block[i].inputs|
    ensures var o, rest := block[i].inputs[k], MissingFrom(block, Txids(block), start, i + 1);
            var now, later := MissingIn(Txids(block), start, block[i].inputs, k) + rest,
                              MissingIn(Txids(block), start, block[i].inputs, k + 1) + rest;
            if Missing(Txids(block), start, o)
            then Answers(w, now) != [] && Answers(w, now)[0] == w.node(o) && Answers(w, now)[1..] == Answers(w, later)
            else Answers(w, now) == Answers(w, later)
  {
    var o, rest := block[i].inputs[k], MissingFrom(block, Txids(block), start, i + 1);
    var later := MissingIn(Txids(block), start, block[i].inputs, k + 1);
    if Missing(Txids(block), start, o) {
      assert [o] + later + rest == [o] + (later + rest);
      AnswersConcat(w, [o], later + rest);
    } else {
      assert [] + later == later;
    }
  }

  lemma {:induction false} CoinbaseRequestsNothing(block: seq<Tx>, txids: set<string>, utxos: Utxos, k: nat)
    requires ValidBlock(block) && k <= |block[0].inputs|
    ensures MissingIn(txids, utxos, block[0].inputs, k) == []
    decreases |block[0].inputs| - k
  {
    if k < |block[0].inputs| {
      CoinbaseRequestsNothing(block, txids, utxos, k + 1);
    }
  }

  lemma CoinbaseApplies(w: World, block: seq<Tx>, utxos: Utxos)
    requires block != []
    ensures ApplyTx(w, block, 0, utxos)
              == utxos + w.lost(0, [], Specials(utxos)) + Created(block[0].txid, w.locate(0, []))
  {
    assert InputEntries(w, utxos, []) == [] && utxos - Spent([]) == utxos;
  }

  lemma CoinbaseIsNotRequested(block: seq<Tx>, utxos: Utxos)
    requires ValidBlock(block)
    ensures MissingFrom(block, Txids(block), utxos, 0) == MissingFrom(block, Txids(block), utxos, 1)
  {
    CoinbaseRequestsNothing(block, Txids(block), utxos, 0);
    assert [] + MissingFrom(block, Txids(block), utxos, 1) == MissingFrom(block, Txids(block), utxos, 1);
  }

  /** Inputs are never special, so taking them leaves the special entries. */
  lemma SpecialsKept(before: Utxos, inputs: seq<OutPoint>, block: seq<Tx>, i: nat)
    requires ValidBlock(block) && 1 <= i < |block| && inputs == block[i].inputs
    ensures Specials(before - Spent(inputs)) == Specials(before)
  {
    forall o | o in inputs ensures !IsSpecial(o) {
      var k :| 0 <= k < |inputs| && inputs[k] == o;
      assert GoodInput(block, i, k);
    }
  }

}
