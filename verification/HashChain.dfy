/** Event hashes: each block's event text is hashed, and chained to the hash of everything before it. */
module HashChain {

  const EVENT_SEPARATOR: char := '|'

  type Digest = string -> string

  ghost predicate IsDigest(sha: Digest) {
    forall s :: |sha(s)| == 64
  }

  /** Without any separators at the end. */
  function TrimEnd(s: string): string {
    if s != "" && s[|s| - 1] == EVENT_SEPARATOR then TrimEnd(s[..|s| - 1]) else s
  }

  // ---------- the text of a block ----------

  /** As collected while the block is indexed: every event followed by a separator. */
  function Collected(events: seq<string>): string {
    if events == [] then "" else Collected(events[..|events| - 1]) + events[|events| - 1] + [EVENT_SEPARATOR]
  }

  /** As read back from the table: events joined by separators. */
  function Joined(events: seq<string>): string {
    if events == [] then ""
    else if |events| == 1 then events[0]
    else Joined(events[..|events| - 1]) + [EVENT_SEPARATOR] + events[|events| - 1]
  }

  lemma {:induction false} CollectedIsJoined(events: seq<string>)
    requires events != []
    ensures Collected(events) == Joined(events) + [EVENT_SEPARATOR]
  {
    if |events| == 1 {
      assert events[..0] == [];
      assert "" + events[0] == events[0];
    } else {
      CollectedIsJoined(events[..|events| - 1]);
    }
  }

  /** Both texts are the same once trimmed, so both hash the same. */
  lemma SameTrimmed(events: seq<string>)
    ensures TrimEnd(Collected(events)) == TrimEnd(Joined(events))
  {
    if events != [] {
      CollectedIsJoined(events);
      assert (Joined(events) + [EVENT_SEPARATOR])[..|Joined(events)|] == Joined(events);
    }
  }

  // ---------- the chain ----------

  function BlockHash(sha: Digest, text: string): string {
    sha(TrimEnd(text))
  }

  /** What is hashed to get the cumulative hash of block k: the block's own text for the first block. */
  function Preimage(sha: Digest, texts: seq<string>, k: nat): string
    requires k < |texts|
    decreases k, 0
  {
    if k == 0 then TrimEnd(texts[0]) else Cumulative(sha, texts, k - 1) + BlockHash(sha, texts[k])
  }

  function Cumulative(sha: Digest, texts: seq<string>, k: nat): string
    requires k < |texts|
    decreases k, 1
  {
    sha(Preimage(sha, texts, k))
  }

  /** No collision between what two nodes hash for the same block. */
  predicate NoCollision(sha: Digest, a: seq<string>, b: seq<string>, k: nat)
    requires k < |a| && k < |b|
  {
    && (BlockHash(sha, a[k]) == BlockHash(sha, b[k]) ==> TrimEnd(a[k]) == TrimEnd(b[k]))
    && (Cumulative(sha, a, k) == Cumulative(sha, b, k) ==> Preimage(sha, a, k) == Preimage(sha, b, k))
  }

  predicate SameText(a: seq<string>, b: seq<string>, k: nat)
    requires k < |a| && k < |b|
  {
    TrimEnd(a[k]) == TrimEnd(b[k])
  }

  /** The first n texts agree. */
  predicate AllSame(a: seq<string>, b: seq<string>, n: nat)
    requires n <= |a| && n <= |b|
  {
    forall j :: 0 <= j < n ==> SameText(a, b, j)
  }

  predicate NoCollisions(sha: Digest, a: seq<string>, b: seq<string>, n: nat)
    requires n <= |a| && n <= |b|
  {
    forall j :: 0 <= j < n ==> NoCollision(sha, a, b, j)
  }

  /** Equal cumulative hashes mean equal texts of that block and of every block below, and conversely. */
  lemma {:induction false} ChainAgrees(sha: Digest, a: seq<string>, b: seq<string>, k: nat)
    requires IsDigest(sha) && k < |a| && k < |b|
    requires NoCollisions(sha, a, b, k + 1)
    ensures Cumulative(sha, a, k) == Cumulative(sha, b, k) <==> AllSame(a, b, k + 1)
  {
    assert NoCollision(sha, a, b, k);
    assert AllSame(a, b, k + 1) <==> AllSame(a, b, k) && SameText(a, b, k);
    if k > 0 {
      ChainAgrees(sha, a, b, k - 1);
      var x, y := Cumulative(sha, a, k - 1), Cumulative(sha, b, k - 1);
      var s, t := BlockHash(sha, a[k]), BlockHash(sha, b[k]);
      assert (x + s)[..64] == x && (x + s)[64..] == s && (y + t)[..64] == y && (y + t)[64..] == t;
    }
  }

  /** The first block whose cumulative hashes differ is the first block whose texts differ. */
  lemma FirstDivergence(sha: Digest, a: seq<string>, b: seq<string>, k: nat)
    requires IsDigest(sha) && k < |a| && k < |b|
    requires NoCollisions(sha, a, b, k + 1)
    requires k > 0 ==> Cumulative(sha, a, k - 1) == Cumulative(sha, b, k - 1)
    ensures Cumulative(sha, a, k) != Cumulative(sha, b, k) <==> !SameText(a, b, k)
    ensures AllSame(a, b, k)
  {
    ChainAgrees(sha, a, b, k);
    assert AllSame(a, b, k + 1) <==> AllSame(a, b, k) && SameText(a, b, k);
    if k > 0 {
      ChainAgrees(sha, a, b, k - 1);
    }
  }

  // ---------- the table of hashes ----------

  datatype Hashes = Hashes(blockHash: string, cumulative: string)

  function ChainRow(sha: Digest, texts: seq<string>, k: nat): Hashes
    requires k < |texts|
  {
    Hashes(BlockHash(sha, texts[k]), Cumulative(sha, texts, k))
  }

  lemma ChainRowIs(sha: Digest, texts: seq<string>, k: nat)
    requires k < |texts|
    ensures ChainRow(sha, texts, k).cumulative
              == if k == 0 then BlockHash(sha, texts[0])
                 else sha(ChainRow(sha, texts, k - 1).cumulative + BlockHash(sha, texts[k]))
  {
    assert Cumulative(sha, texts, k) == sha(Preimage(sha, texts, k));
  }

  type Table = map<int, Hashes>

  /** The first n rows, from height `first` on, continue the chain of the texts. */
  ghost predicate ChainedRows(table: Table, first: int, sha: Digest, texts: seq<string>, n: nat) {
    n <= |texts| && forall k :: 0 <= k < n ==> RowIs(table, first, sha, texts, k)
  }

  predicate RowIs(table: Table, first: int, sha: Digest, texts: seq<string>, k: nat)
    requires k < |texts|
  {
    first + k in table && table[first + k] == ChainRow(sha, texts, k)
  }

  lemma RowReplaced(table: Table, first: int, sha: Digest, texts: seq<string>, n: nat, row: Hashes)
    requires n < |texts| && ChainedRows(table, first, sha, texts, n) && row == ChainRow(sha, texts, n)
    ensures ChainedRows(table[first + n := row], first, sha, texts, n + 1)
  {
    var table' := table[first + n := row];
    forall k | 0 <= k < n + 1 ensures RowIs(table', first, sha, texts, k) {
      if k < n {
        assert RowIs(table, first, sha, texts, k);
      }
    }
  }

  lemma ChainExtends(table: Table, first: int, sha: Digest, texts: seq<string>, text: string, row: Hashes)
    requires ChainedRows(table, first, sha, texts, |texts|)
    requires row == ChainRow(sha, texts + [text], |texts|)
    ensures ChainedRows(table[first + |texts| := row], first, sha, texts + [text], |texts| + 1)
  {
    NextRow(sha, texts, text);
    var table' := table[first + |texts| := row];
    forall k | 0 <= k < |texts| + 1 ensures RowIs(table', first, sha, texts + [text], k) {
      if k < |texts| {
        assert RowIs(table, first, sha, texts, k);
      }
    }
  }

  class HashTable {
    const first: int
    var hashes: Table
    var collected: map<int, string>

    constructor (first: int)
      ensures this.first == first && hashes == map[] && collected == map[]
    {
      this.first := first;
      hashes, collected := map[], map[];
    }

    /** One row a block, from `first` on. */
    ghost predicate Rows(n: nat)
      reads this`hashes
    {
      forall h :: h in hashes <==> first <= h < first + n
    }

    /** The first n rows continue the chain of the texts. */
    ghost predicate Chained(sha: Digest, texts: seq<string>, n: nat)
      reads this`hashes
    {
      ChainedRows(hashes, first, sha, texts, n)
    }

    /** The table holds the chain of the texts. */
    ghost predicate Holds(sha: Digest, texts: seq<string>)
      reads this`hashes
    {
      Rows(|texts|) && Chained(sha, texts, |texts|)
    }

    /** The hash of a block chained to the row before, if there is one. */
    method ChainHash(sha: Digest, height: int, text: string) returns (row: Hashes)
      ensures row.blockHash == BlockHash(sha, text)
      ensures row.cumulative
                == if height - 1 in hashes then sha(hashes[height - 1].cumulative + row.blockHash) else row.blockHash
    {
      var blockHash := sha(TrimEnd(text));
      var cumulative := if height - 1 in hashes then sha(hashes[height - 1].cumulative + blockHash) else blockHash;
      return Hashes(blockHash, cumulative);
    }

    method CacheEvent(height: int, event: string)
      modifies this`collected
      ensures collected == old(collected)[height :=
                (if height in old(collected) then old(collected)[height] else "") + event + [EVENT_SEPARATOR]]
    {
      var text := if height in collected then collected[height] else "";
      collected := collected[height := text + event + [EVENT_SEPARATOR]];
    }

    /** Indexing the next block appends one row to the chain. */
    method SetBlockHashes(sha: Digest, height: int, ghost texts: seq<string>)
      requires Holds(sha, texts) && height == first + |texts|
      modifies this`hashes, this`collected
      ensures Holds(sha, texts + [if height in old(collected) then old(collected)[height] else ""])
      ensures collected == old(collected) - {height}
    {
      var text := if height in collected then collected[height] else "";
      var row := ChainHash(sha, height, text);
      collected := collected - {height};
      PreviousRow(sha, texts, text);
      ChainExtends(hashes, first, sha, texts, text, row);
      hashes := hashes[height := row];
    }

    lemma PreviousRow(sha: Digest, texts: seq<string>, text: string)
      requires Holds(sha, texts)
      ensures ChainRow(sha, texts + [text], |texts|).cumulative
                == if first + |texts| - 1 in hashes then
                     sha(hashes[first + |texts| - 1].cumulative + BlockHash(sha, text))
                   else BlockHash(sha, text)
    {
      NextRow(sha, texts, text);
      ChainRowIs(sha, texts + [text], |texts|);
      if texts != [] {
        assert RowIs(hashes, first, sha, texts, |texts| - 1);
      }
    }

    /** Recomputing from a height on, with the texts as they now are in the event table: whatever the rows
        from that height held, they then continue the chain. */
    method RecalculateCumulativeEventHashes(sha: Digest, from: int, current: int, texts: seq<string>)
      requires first <= from <= current == first + |texts| - 1
      requires Rows(|texts|) && Chained(sha, texts, from - first)
      modifies this`hashes
      ensures Holds(sha, texts)
    {
      var height := from;
      while height <= current
        invariant from <= height <= current + 1
        invariant Rows(|texts|) && Chained(sha, texts, height - first)
      {
        RecalculateRow(sha, height, texts, height - first);
        height := height + 1;
      }
    }

    /** One row of the recomputation. */
    method RecalculateRow(sha: Digest, height: int, texts: seq<string>, n: nat)
      requires height == first + n && n < |texts| && Rows(|texts|) && Chained(sha, texts, n)
      modifies this`hashes
      ensures Rows(|texts|) && Chained(sha, texts, n + 1)
    {
      ChainRowIs(sha, texts, n);
      assert n > 0 ==> RowIs(hashes, first, sha, texts, n - 1);
      var row := ChainHash(sha, height, texts[n]);
      RowReplaced(hashes, first, sha, texts, n, row);
      hashes := hashes[height := row];
    }
  }

  lemma {:induction false} CumulativePrefix(sha: Digest, texts: seq<string>, more: seq<string>, k: nat)
    requires k < |texts|
    ensures Cumulative(sha, texts + more, k) == Cumulative(sha, texts, k)
  {
    if k > 0 {
      CumulativePrefix(sha, texts, more, k - 1);
    }
  }

  lemma NextRow(sha: Digest, texts: seq<string>, text: string)
    ensures forall k :: 0 <= k < |texts| ==> ChainRow(sha, texts + [text], k) == ChainRow(sha, texts, k)
  {
    forall k | 0 <= k < |texts| ensures ChainRow(sha, texts + [text], k) == ChainRow(sha, texts, k) {
      CumulativePrefix(sha, texts, [text], k);
    }
  }

  /** Recomputing from the table's joined texts reproduces what was written while indexing. */
  lemma {:induction false} SameChain(sha: Digest, blocks: seq<seq<string>>, collected: seq<string>, joined: seq<string>,
                                     k: nat)
    requires k < |blocks| == |collected| == |joined|
    requires forall j :: 0 <= j < |blocks| ==> collected[j] == Collected(blocks[j]) && joined[j] == Joined(blocks[j])
    ensures Cumulative(sha, collected, k) == Cumulative(sha, joined, k)
    ensures BlockHash(sha, collected[k]) == BlockHash(sha, joined[k])
  {
    SameTrimmed(blocks[k]);
    if k > 0 {
      SameChain(sha, blocks, collected, joined, k - 1);
    }
  }

}
