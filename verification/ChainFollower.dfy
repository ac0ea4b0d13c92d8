/** An indexer that follows a chain of blocks: it repairs its tables after a crash, looks for a reorg
    against the hashes it stored, rolls back, or indexes one more block. The theorems hold for every
    machine that obeys the laws below; module Pow20Run shows that the POW-20 indexer does. */
module ChainFollower {
  import opened Wrappers
  import opened Rows
  import opened Pow20Ledger
  import opened Pow20Blocks

  /** index is uninterrupted indexing of a block (None when it aborts), stateAt the state when
      indexing stops after a number of units of work, repair the residue check, and settled tells
      that the tables are between blocks with this next height. */
  datatype Machine = Machine(first: int, index: (Tables, int, Block) -> Option<Tables>,
                             stateAt: (Tables, int, Block, nat) -> Tables, repair: Tables -> Tables,
                             rollback: (Tables, int) -> Tables, settled: (Tables, int) -> bool)

  predicate Finishes(m: Machine, t: Tables, height: int, block: Block, stop: nat) {
    stop > |block.transfers| + 1 && m.index(t, height, block).Some?
  }

  ghost predicate FinishedIsIndexed(m: Machine) {
    forall t, height, block, stop :: Finishes(m, t, height, block, stop) ==>
      Some(m.stateAt(t, height, block, stop)) == m.index(t, height, block)
  }

  ghost predicate RepairsCrashes(m: Machine) {
    forall t, height, block, stop :: m.settled(t, height) && !Finishes(m, t, height, block, stop) ==>
      m.repair(m.stateAt(t, height, block, stop)) == t
  }

  predicate SettlesAt(m: Machine, t: Tables, height: int, block: Block) {
    m.settled(t, height) && m.index(t, height, block).Some? ==>
      var u := m.index(t, height, block).value;
      m.settled(u, height + 1) && u.blocks == t.blocks + [Row(height, block.hash)]
  }

  ghost predicate IndexingSettles(m: Machine) {
    forall t, height, block: Block :: SettlesAt(m, t, height, block)
  }

  ghost predicate RollbackUndoes(m: Machine) {
    forall t, height, block, h :: h < height && m.index(t, height, block).Some? ==>
      m.rollback(m.index(t, height, block).value, h) == m.rollback(t, h)
  }

  ghost predicate SettledRests(m: Machine) {
    && m.settled(EMPTY_TABLES, m.first)
    && forall t, next :: m.settled(t, next) ==>
         && m.repair(t) == t && m.rollback(t, next - 1) == t && CurrentBlock(t, m.first) == next
  }

  ghost predicate Lawful(m: Machine) {
    FinishedIsIndexed(m) && RepairsCrashes(m) && IndexingSettles(m) && RollbackUndoes(m) && SettledRests(m)
  }

  // ---------- replay ----------

  /** Indexing a chain of blocks from the first height, with no interruption. */
  function Replay(m: Machine, chain: seq<Block>): Option<Tables> {
    if chain == [] then Some(EMPTY_TABLES)
    else
      match Replay(m, chain[..|chain| - 1])
      case None => None
      case Some(t) => m.index(t, m.first + |chain| - 1, chain[|chain| - 1])
  }

  /** The block rows are the chain's hashes at consecutive heights. */
  predicate Records(blocks: seq<Row<string>>, first: int, chain: seq<Block>) {
    && |blocks| == |chain|
    && forall i :: 0 <= i < |chain| ==> blocks[i] == Row(first + i, chain[i].hash)
  }

  lemma {:induction false} ReplayIsSettled(m: Machine, chain: seq<Block>, t: Tables)
    requires SettledRests(m) && IndexingSettles(m) && Replay(m, chain) == Some(t)
    ensures m.settled(t, m.first + |chain|)
    ensures Records(t.blocks, m.first, chain)
  {
    if chain != [] {
      var front, last := chain[..|chain| - 1], chain[|chain| - 1];
      var before := Replay(m, front).value;
      ReplayIsSettled(m, front, before);
      Settles(m, before, m.first + |front|, last);
      RecordsNext(before, t, m.first, chain);
    }
  }

  lemma Settles(m: Machine, t: Tables, height: int, block: Block)
    requires IndexingSettles(m) && m.settled(t, height) && m.index(t, height, block).Some?
    ensures var u := m.index(t, height, block).value;
            m.settled(u, height + 1) && u.blocks == t.blocks + [Row(height, block.hash)]
  {
    assert SettlesAt(m, t, height, block);
  }

  lemma RecordsNext(before: Tables, t: Tables, first: int, chain: seq<Block>)
    requires chain != [] && Records(before.blocks, first, chain[..|chain| - 1])
    requires t.blocks == before.blocks + [Row(first + |chain| - 1, chain[|chain| - 1].hash)]
    ensures Records(t.blocks, first, chain)
  {
  }

  /** Rolling a replay back to the height of block n - 1 is replaying the first n blocks. */
  lemma {:induction false} RollbackOfReplay(m: Machine, chain: seq<Block>, t: Tables, n: nat)
    requires SettledRests(m) && IndexingSettles(m) && RollbackUndoes(m)
    requires n <= |chain| && Replay(m, chain) == Some(t)
    ensures Replay(m, chain[..n]) == Some(m.rollback(t, m.first + n - 1))
    decreases |chain|
  {
    if n == |chain| {
      assert chain[..n] == chain;
      ReplayIsSettled(m, chain, t);
    } else {
      var front := chain[..|chain| - 1];
      assert front[..n] == chain[..n];
      RollbackOfReplay(m, front, Replay(m, front).value, n);
    }
  }

  // ---------- reorgs ----------

  datatype ReorgCheck = NoReorg | ReorgTo(height: int) | Critical

  function ChainHash(chain: seq<Block>, first: int, height: int): Option<string> {
    if 0 <= height - first < |chain| then Some(chain[height - first].hash) else None
  }

  /** Look for a matching hash among the newest `limit` block rows. */
  function FindMatch(blocks: seq<Row<string>>, chain: seq<Block>, first: int, limit: nat): ReorgCheck {
    if blocks == [] || limit == 0 then Critical
    else
      var last := blocks[|blocks| - 1];
      match ChainHash(chain, first, last.height)
      case None => Critical
      case Some(hash) =>
        if hash == last.value then ReorgTo(last.height)
        else FindMatch(blocks[..|blocks| - 1], chain, first, limit - 1)
  }

  /** check_for_reorg. A hash missing from the chain raises, which ends the process like Critical. */
  function CheckForReorg(blocks: seq<Row<string>>, chain: seq<Block>, first: int): ReorgCheck {
    if blocks == [] then NoReorg
    else
      var last := blocks[|blocks| - 1];
      match ChainHash(chain, first, last.height)
      case None => Critical
      case Some(hash) => if hash == last.value then NoReorg else FindMatch(blocks, chain, first, 10)
  }

  /** Equal hashes at a height mean equal blocks up to that height. */
  ghost predicate Linked(c: seq<Block>, d: seq<Block>) {
    forall i :: SameHashAt(c, d, i) ==> c[..i + 1] == d[..i + 1]
  }

  predicate SameHashAt(c: seq<Block>, d: seq<Block>, i: int) {
    0 <= i < |c| && i < |d| && c[i].hash == d[i].hash
  }

  /** The two chains share exactly the first m blocks. */
  predicate ForkAt(c: seq<Block>, d: seq<Block>, m: nat) {
    && m <= |c| && m <= |d| && c[..m] == d[..m]
    && (m < |c| && m < |d| ==> c[m].hash != d[m].hash)
  }

  lemma HashesDifferAfterFork(c: seq<Block>, d: seq<Block>, m: nat, i: nat)
    requires Linked(c, d) && ForkAt(c, d, m) && m <= i < |c| && i < |d|
    ensures c[i].hash != d[i].hash
  {
    if c[i].hash == d[i].hash {
      SameHashBelow(c, d, m, i);
    }
  }

  lemma SameHashBelow(c: seq<Block>, d: seq<Block>, m: nat, i: nat)
    requires Linked(c, d) && m <= i < |c| && i < |d| && c[i].hash == d[i].hash
    ensures c[m].hash == d[m].hash
  {
    assert SameHashAt(c, d, i);
    assert c[..i + 1][m] == d[..i + 1][m];
  }

  lemma {:induction false} FindMatchAtFork(t: Tables, c: seq<Block>, d: seq<Block>, first: int, m: nat, n: nat,
                                           limit: nat)
    requires Records(t.blocks, first, c) && Linked(c, d) && ForkAt(c, d, m) && m <= n <= |c| && n <= |d|
    ensures FindMatch(t.blocks[..n], d, first, limit)
              == if 1 <= m && n - m < limit then ReorgTo(first + m - 1) else Critical
    decreases n
  {
    if n > 0 && limit > 0 {
      var last := t.blocks[..n][n - 1];
      assert last == Row(first + n - 1, c[n - 1].hash);
      if n > m {
        HashesDifferAfterFork(c, d, m, n - 1);
        assert t.blocks[..n][..n - 1] == t.blocks[..n - 1];
        FindMatchAtFork(t, c, d, first, m, n - 1, limit - 1);
      } else {
        assert c[..m][m - 1] == d[..m][m - 1];
      }
    }
  }

  /** The reorg check, for every fork: no reorg when the indexed blocks are all on the new chain,
      else the height of the last common block when at most nine indexed blocks left the chain and
      the first block stayed, else a critical error. */
  lemma CheckForReorgFindsFork(t: Tables, c: seq<Block>, d: seq<Block>, first: int, m: nat)
    requires Records(t.blocks, first, c) && Linked(c, d) && ForkAt(c, d, m) && |c| <= |d|
    ensures CheckForReorg(t.blocks, d, first)
              == if m == |c| then NoReorg
                 else if 1 <= m && |c| - m <= 9 then ReorgTo(first + m - 1) else Critical
  {
    if |c| > 0 {
      assert t.blocks[..|c|] == t.blocks;
      if m < |c| {
        HashesDifferAfterFork(c, d, m, |c| - 1);
        FindMatchAtFork(t, c, d, first, m, |c|, 10);
      } else {
        assert c[..m][m - 1] == d[..m][m - 1];
      }
    }
  }

  lemma {:induction false} ForkExists(c: seq<Block>, d: seq<Block>) returns (m: nat)
    requires Linked(c, d)
    ensures ForkAt(c, d, m)
  {
    m := 0;
    while m < |c| && m < |d| && c[m].hash == d[m].hash
      invariant m <= |c| && m <= |d| && c[..m] == d[..m]
    {
      assert SameHashAt(c, d, m);
      m := m + 1;
    }
  }

  /** The reorg check read off the common prefix, for a caller that does not know the fork. */
  lemma ReorgDecision(t: Tables, c: seq<Block>, d: seq<Block>, first: int) returns (m: nat)
    requires Records(t.blocks, first, c) && Linked(c, d) && |c| <= |d|
    ensures m <= |c|
    ensures var check := CheckForReorg(t.blocks, d, first);
            && (check == NoReorg ==> c == d[..|c|])
            && (check.ReorgTo? ==> check.height == first + m - 1 && m > 0)
  {
    m := ForkExists(c, d);
    CheckForReorgFindsFork(t, c, d, first, m);
    if m == |c| {
      assert c[..m] == c;
    }
  }

  // ---------- the main loop ----------

  /** What one pass of the main loop sees: the chain, and the point at which the process stops. */
  datatype Iteration = Iteration(chain: seq<Block>, stop: nat)

  /** A pass on repaired tables reaches index_block. */
  predicate Indexes(t: Tables, first: int, chain: seq<Block>) {
    && 0 <= CurrentBlock(t, first) - first < |chain|
    && CheckForReorg(t.blocks, chain, first) == NoReorg
  }

  /** A pass of the main loop on repaired tables: wait, stop, roll back, or index one block. */
  function Pass(m: Machine, t: Tables, it: Iteration): Tables {
    var current := CurrentBlock(t, m.first);
    if !(0 <= current - m.first < |it.chain|) then t
    else
      match CheckForReorg(t.blocks, it.chain, m.first)
      case Critical => t
      case ReorgTo(h) => m.rollback(t, h)
      case NoReorg => m.stateAt(t, current, it.chain[current - m.first], it.stop)
  }

  function Iterate(m: Machine, t: Tables, it: Iteration): Tables {
    Pass(m, m.repair(t), it)
  }

  function RunLoop(m: Machine, its: seq<Iteration>): Tables {
    if its == [] then EMPTY_TABLES
    else Iterate(m, RunLoop(m, its[..|its| - 1]), its[|its| - 1])
  }

  ghost predicate AllLinked(its: seq<Iteration>) {
    forall i, j :: 0 <= i < |its| && 0 <= j < |its| ==> Linked(its[i].chain, its[j].chain)
  }

  /** After the residue check the tables are a replay of these blocks. */
  predicate Follows(m: Machine, t: Tables, chain: seq<Block>) {
    Replay(m, chain) == Some(m.repair(t))
  }

  /** The first block, once indexed, stays. */
  predicate SameStart(c: seq<Block>, d: seq<Block>) {
    c != [] ==> d != [] && d[0] == c[0]
  }

  lemma ReplayFollows(m: Machine, chain: seq<Block>, t: Tables)
    requires Lawful(m) && Replay(m, chain) == Some(t)
    ensures Follows(m, t, chain)
  {
    ReplayIsSettled(m, chain, t);
  }

  /** When a pass reaches index_block, the blocks indexed so far are on the chain it sees. */
  lemma IndexesCanonical(m: Machine, t: Tables, indexed: seq<Block>, chain: seq<Block>)
    requires Lawful(m) && Replay(m, indexed) == Some(t) && Linked(indexed, chain) && Indexes(t, m.first, chain)
    ensures CurrentBlock(t, m.first) == m.first + |indexed|
    ensures |indexed| < |chain| && indexed == chain[..|indexed|]
  {
    ReplayIsSettled(m, indexed, t);
    var _ := ReorgDecision(t, indexed, chain, m.first);
  }

  lemma IndexingFollows(m: Machine, t: Tables, chain: seq<Block>, n: nat, stop: nat) returns (next: seq<Block>)
    requires Lawful(m) && n < |chain| && Replay(m, chain[..n]) == Some(t)
    ensures next <= chain && n <= |next| <= n + 1
    ensures Follows(m, m.stateAt(t, m.first + n, chain[n], stop), next)
  {
    ReplayIsSettled(m, chain[..n], t);
    if Finishes(m, t, m.first + n, chain[n], stop) {
      next := chain[..n + 1];
      assert next[..n] == chain[..n];
      ReplayFollows(m, next, m.stateAt(t, m.first + n, chain[n], stop));
    } else {
      next := chain[..n];
    }
  }

  lemma ReorgFollows(m: Machine, t: Tables, indexed: seq<Block>, chain: seq<Block>) returns (n: nat)
    requires Lawful(m) && Replay(m, indexed) == Some(t) && Linked(indexed, chain) && |indexed| <= |chain|
    ensures n <= |indexed|
    ensures var check := CheckForReorg(t.blocks, chain, m.first);
            check.ReorgTo? ==> n > 0 && Follows(m, m.rollback(t, check.height), indexed[..n])
  {
    ReplayIsSettled(m, indexed, t);
    n := ReorgDecision(t, indexed, chain, m.first);
    RollbackOfReplay(m, indexed, t, n);
    ReplayFollows(m, indexed[..n], m.rollback(t, m.first + n - 1));
  }

  /** One pass leaves tables that follow a prefix of either the old blocks or the chain just seen. */
  lemma PassFollows(m: Machine, t: Tables, indexed: seq<Block>, it: Iteration) returns (next: seq<Block>)
    requires Lawful(m) && Replay(m, indexed) == Some(t) && Linked(indexed, it.chain)
    ensures Follows(m, Pass(m, t, it), next)
    ensures (next <= indexed || next <= it.chain) && SameStart(indexed, next)
  {
    ReplayIsSettled(m, indexed, t);
    ReplayFollows(m, indexed, t);
    next := indexed;
    if |indexed| < |it.chain| {
      match CheckForReorg(t.blocks, it.chain, m.first)
      case Critical =>
      case NoReorg =>
        IndexesCanonical(m, t, indexed, it.chain);
        next := IndexingFollows(m, t, it.chain, |indexed|, it.stop);
      case ReorgTo(h) =>
        var n := ReorgFollows(m, t, indexed, it.chain);
        next := indexed[..n];
    }
  }

  lemma LinkedPrefix(c: seq<Block>, d: seq<Block>, p: seq<Block>)
    requires Linked(c, d) && p <= c
    ensures Linked(p, d)
  {
    forall i | SameHashAt(p, d, i) ensures p[..i + 1] == d[..i + 1] {
      assert SameHashAt(c, d, i);
      assert p[..i + 1] == c[..i + 1];
    }
  }

  /** After any run the tables follow a prefix of one of the chains seen. */
  lemma {:induction false} RunFollows(m: Machine, its: seq<Iteration>) returns (indexed: seq<Block>)
    requires Lawful(m) && AllLinked(its)
    ensures Follows(m, RunLoop(m, its), indexed)
    ensures indexed == [] || exists i :: 0 <= i < |its| && indexed <= its[i].chain
  {
    if its == [] {
      indexed := [];
    } else {
      var front, last := its[..|its| - 1], its[|its| - 1];
      assert AllLinked(front);
      var before := RunFollows(m, front);
      if before != [] {
        var i :| 0 <= i < |front| && before <= front[i].chain;
        assert front[i] == its[i] && last == its[|its| - 1];
        LinkedPrefix(its[i].chain, last.chain, before);
      }
      indexed := PassFollows(m, m.repair(RunLoop(m, front)), before, last);
    }
  }

  /** After the run `its`, a pass that sees this chain starts index_block. Equal block hashes mean
      equal ancestors across all the chains involved. */
  ghost predicate RunReaches(m: Machine, its: seq<Iteration>, chain: seq<Block>) {
    && AllLinked(its)
    && (forall i :: 0 <= i < |its| ==> Linked(its[i].chain, chain))
    && Indexes(m.repair(RunLoop(m, its)), m.first, chain)
  }

  /** Whole-run safety: for every run of the main loop, with crashes at any point and reorgs of any
      depth, whenever index_block starts on a chain, the tables equal an uninterrupted replay of
      that chain's blocks below the height being indexed. */
  ghost predicate SafeRuns(m: Machine) {
    forall its, chain :: RunReaches(m, its, chain) ==>
      var t := m.repair(RunLoop(m, its));
      Replay(m, chain[..CurrentBlock(t, m.first) - m.first]) == Some(t)
  }

  lemma RunIsSafe(m: Machine, its: seq<Iteration>, chain: seq<Block>)
    requires Lawful(m) && RunReaches(m, its, chain)
    ensures var t := m.repair(RunLoop(m, its));
            Replay(m, chain[..CurrentBlock(t, m.first) - m.first]) == Some(t)
  {
    var indexed := RunFollows(m, its);
    if indexed != [] {
      var i :| 0 <= i < |its| && indexed <= its[i].chain;
      LinkedPrefix(its[i].chain, chain, indexed);
    }
    IndexesCanonical(m, m.repair(RunLoop(m, its)), indexed, chain);
  }

  lemma LawfulMachinesAreSafe(m: Machine)
    requires Lawful(m)
    ensures SafeRuns(m)
  {
    forall its, chain | RunReaches(m, its, chain)
      ensures var t := m.repair(RunLoop(m, its));
              Replay(m, chain[..CurrentBlock(t, m.first) - m.first]) == Some(t) {
      RunIsSafe(m, its, chain);
    }
  }

  /** A pass after a crash does what it would have done had the crashed block never been started. */
  lemma CrashIsForgotten(m: Machine, t: Tables, height: int, block: Block, stop: nat, it: Iteration)
    requires Lawful(m) && m.settled(t, height) && !Finishes(m, t, height, block, stop)
    ensures Iterate(m, m.stateAt(t, height, block, stop), it) == Iterate(m, t, it)
  {
  }

  /** A pass that indexes a whole block leaves a replay with one block more. */
  lemma FinishedPass(m: Machine, t: Tables, indexed: seq<Block>, it: Iteration)
    requires Lawful(m) && Replay(m, indexed) == Some(t) && Linked(indexed, it.chain) && Indexes(t, m.first, it.chain)
    requires Finishes(m, t, CurrentBlock(t, m.first), it.chain[CurrentBlock(t, m.first) - m.first], it.stop)
    ensures |indexed| < |it.chain| && indexed == it.chain[..|indexed|]
    ensures Replay(m, it.chain[..|indexed| + 1]) == Some(Pass(m, t, it))
  {
    IndexesCanonical(m, t, indexed, it.chain);
    FinishedReplay(m, t, it, |indexed|);
  }

  lemma FinishedReplay(m: Machine, t: Tables, it: Iteration, n: nat)
    requires FinishedIsIndexed(m) && n < |it.chain| && Replay(m, it.chain[..n]) == Some(t)
    requires Indexes(t, m.first, it.chain) && CurrentBlock(t, m.first) == m.first + n
    requires Finishes(m, t, m.first + n, it.chain[n], it.stop)
    ensures Replay(m, it.chain[..n + 1]) == Some(Pass(m, t, it))
  {
    assert it.chain[..n + 1][..n] == it.chain[..n];
  }

  // ---------- progress ----------

  /** k passes that all see the same chain. */
  function Passes(m: Machine, t: Tables, it: Iteration, k: nat): Tables {
    if k == 0 then t else Iterate(m, Passes(m, t, it, k - 1), it)
  }

  /** Uninterrupted passes over a chain whose blocks can all be indexed. */
  ghost predicate Unhindered(m: Machine, it: Iteration) {
    && Replay(m, it.chain).Some?
    && forall i :: 0 <= i < |it.chain| ==> it.stop > |it.chain[i].transfers| + 1
  }

  lemma {:induction false} ReplayPrefix(m: Machine, chain: seq<Block>, n: nat)
    requires n <= |chain| && Replay(m, chain).Some?
    ensures Replay(m, chain[..n]).Some?
    decreases |chain|
  {
    if n < |chain| {
      assert chain[..|chain| - 1][..n] == chain[..n];
      ReplayPrefix(m, chain[..|chain| - 1], n);
    } else {
      assert chain[..n] == chain;
    }
  }

  /** From the first n blocks of the chain one pass indexes the next. */
  lemma PassIndexesNext(m: Machine, t: Tables, it: Iteration, n: nat)
    requires Lawful(m) && Unhindered(m, it) && n < |it.chain| && Follows(m, t, it.chain[..n])
    ensures Replay(m, it.chain[..n + 1]) == Some(Iterate(m, t, it))
  {
    var c, r := it.chain[..n], m.repair(t);
    ReplayIsSettled(m, c, r);
    assert Linked(it.chain, it.chain);
    LinkedPrefix(it.chain, it.chain, c);
    CheckForReorgFindsFork(r, c, it.chain, m.first, n);
    ReplayPrefix(m, it.chain, n + 1);
    assert it.chain[..n + 1][..n] == c;
    FinishedPass(m, r, c, it);
  }

  /** A machine whose blocks are not fewer than the chain's waits. */
  lemma PassWaits(m: Machine, t: Tables, indexed: seq<Block>, it: Iteration)
    requires Lawful(m) && Follows(m, t, indexed) && |indexed| >= |it.chain|
    ensures Iterate(m, t, it) == m.repair(t) && Follows(m, Iterate(m, t, it), indexed)
  {
    ReplayIsSettled(m, indexed, m.repair(t));
    ReplayFollows(m, indexed, m.repair(t));
  }

  /** At most nine blocks off the chain, one pass rolls back to the fork. */
  lemma PassRollsBack(m: Machine, t: Tables, indexed: seq<Block>, it: Iteration, fork: nat)
    requires Lawful(m) && Follows(m, t, indexed) && Linked(indexed, it.chain) && ForkAt(indexed, it.chain, fork)
    requires |indexed| < |it.chain| && 1 <= fork < |indexed| <= fork + 9
    ensures Follows(m, Iterate(m, t, it), it.chain[..fork])
  {
    var r := m.repair(t);
    ReplayIsSettled(m, indexed, r);
    CheckForReorgFindsFork(r, indexed, it.chain, m.first, fork);
    RollbackOfReplay(m, indexed, r, fork);
    ReplayFollows(m, indexed[..fork], m.rollback(r, m.first + fork - 1));
  }

  /** Off the chain by more than nine blocks, or from its first block on, no pass changes anything. */
  lemma PassIsStuck(m: Machine, t: Tables, indexed: seq<Block>, it: Iteration, fork: nat)
    requires Lawful(m) && Follows(m, t, indexed) && Linked(indexed, it.chain) && ForkAt(indexed, it.chain, fork)
    requires |indexed| < |it.chain| && fork < |indexed| && (fork == 0 || |indexed| > fork + 9)
    ensures Iterate(m, t, it) == m.repair(t) && Follows(m, Iterate(m, t, it), indexed)
  {
    ReplayIsSettled(m, indexed, m.repair(t));
    ReplayFollows(m, indexed, m.repair(t));
    CheckForReorgFindsFork(m.repair(t), indexed, it.chain, m.first, fork);
  }

  /** From the first n blocks of the chain, one block a pass, then waiting. */
  lemma {:induction false} PassesAdvance(m: Machine, t: Tables, it: Iteration, n: nat, k: nat)
    requires Lawful(m) && Unhindered(m, it) && n <= |it.chain| && Follows(m, t, it.chain[..n])
    ensures var reached := if n + k <= |it.chain| then n + k else |it.chain|;
            Follows(m, Passes(m, t, it, k), it.chain[..reached])
  {
    if k > 0 {
      PassesAdvance(m, t, it, n, k - 1);
      var u := Passes(m, t, it, k - 1);
      if n + k <= |it.chain| {
        PassIndexesNext(m, u, it, n + k - 1);
        ReplayFollows(m, it.chain[..n + k], Iterate(m, u, it));
      } else {
        PassWaits(m, u, it.chain[..|it.chain|], it);
      }
    }
  }

  lemma {:induction false} PassesShift(m: Machine, t: Tables, it: Iteration, k: nat)
    ensures Passes(m, Iterate(m, t, it), it, k) == Passes(m, t, it, k + 1)
  {
    if k > 0 {
      PassesShift(m, t, it, k - 1);
    }
  }

  lemma {:induction false} PassesStay(m: Machine, t: Tables, indexed: seq<Block>, it: Iteration, fork: nat, k: nat)
    requires Lawful(m) && Follows(m, t, indexed) && Linked(indexed, it.chain) && ForkAt(indexed, it.chain, fork)
    requires |indexed| >= |it.chain| || (fork < |indexed| && (fork == 0 || |indexed| > fork + 9))
    ensures Follows(m, Passes(m, t, it, k), indexed)
  {
    if k > 0 {
      PassesStay(m, t, indexed, it, fork, k - 1);
      if |indexed| >= |it.chain| {
        PassWaits(m, Passes(m, t, it, k - 1), indexed, it);
      } else {
        PassIsStuck(m, Passes(m, t, it, k - 1), indexed, it, fork);
      }
    }
  }

  /** When the blocks indexed so far do not keep a machine from reaching the chain: they are the chain, or they are
      fewer and at most nine of them left it, the first not among them. */
  predicate CanReach(indexed: seq<Block>, chain: seq<Block>, fork: nat) {
    || indexed == chain
    || (|indexed| < |chain| && (fork == |indexed| || (1 <= fork && |indexed| <= fork + 9)))
  }

  /** Progress: after as many uninterrupted passes as the chain has blocks, and one for a rollback, the tables are
      a replay of the chain if and only if it can be reached. */
  lemma PassesReach(m: Machine, t: Tables, indexed: seq<Block>, it: Iteration, fork: nat, k: nat)
    requires Lawful(m) && Unhindered(m, it) && Follows(m, t, indexed)
    requires Linked(indexed, it.chain) && ForkAt(indexed, it.chain, fork) && k > |it.chain|
    ensures Follows(m, Passes(m, t, it, k), it.chain) <==> CanReach(indexed, it.chain, fork)
  {
    var chain := it.chain;
    assert chain[..|chain|] == chain;
    if indexed == chain {
      PassesAdvance(m, t, it, |chain|, k);
    } else if CanReach(indexed, chain, fork) && fork == |indexed| {
      assert indexed[..fork] == indexed;
      PassesAdvance(m, t, it, fork, k);
    } else if CanReach(indexed, chain, fork) {
      PassRollsBack(m, t, indexed, it, fork);
      PassesAdvance(m, Iterate(m, t, it), it, fork, k - 1);
      PassesShift(m, t, it, k - 1);
    } else {
      PassesStay(m, t, indexed, it, fork, k);
      ReplaysDiffer(m, indexed, chain, m.repair(Passes(m, t, it, k)), fork);
    }
  }

  /** Replays of different chains have different block rows. */
  lemma ReplaysDiffer(m: Machine, c: seq<Block>, d: seq<Block>, t: Tables, fork: nat)
    requires Lawful(m) && Replay(m, c) == Some(t) && c != d && ForkAt(c, d, fork)
    ensures Replay(m, d) != Some(t)
  {
    ReplayIsSettled(m, c, t);
    RecordsDiffer(t, m.first, c, d, fork);
    if Replay(m, d) == Some(t) {
      ReplayIsSettled(m, d, t);
    }
  }

  lemma RecordsDiffer(t: Tables, first: int, c: seq<Block>, d: seq<Block>, fork: nat)
    requires Records(t.blocks, first, c) && c != d && ForkAt(c, d, fork)
    ensures !Records(t.blocks, first, d)
  {
    if |c| == |d| {
      if fork == |c| {
        ForkAtEnd(c, d, fork);
      } else {
        assert t.blocks[fork] == Row(first + fork, c[fork].hash);
      }
    }
  }

  lemma ForkAtEnd(c: seq<Block>, d: seq<Block>, fork: nat)
    requires |c| == |d| == fork && ForkAt(c, d, fork)
    ensures c == d
  {
    assert c[..fork] == c && d[..fork] == d;
  }

  // ---------- an instance ----------

  /** n blocks: a first block that stays, and blocks of one branch after it. */
  function Branch(letter: char, n: nat): seq<Block> {
    seq(n, i requires 0 <= i < n => Block(if i == 0 then "first" else seq(i, _ => letter), []))
  }

  function RowsFrom(first: int, chain: seq<Block>): seq<Row<string>> {
    seq(|chain|, i requires 0 <= i < |chain| => Row(first + i, chain[i].hash))
  }

  lemma BranchLeaves(first: int, n: nat)
    requires 1 < n <= 12
    ensures CheckForReorg(RowsFrom(first, Branch('a', n)), Branch('b', 12), first)
              == if n <= 10 then ReorgTo(first) else Critical
  {
    var c, d := Branch('a', n), Branch('b', 12);
    var t := EMPTY_TABLES.(blocks := RowsFrom(first, c));
    assert c[..1] == [Block("first", [])] == d[..1];
    forall i | 1 <= i < n ensures c[i].hash != d[i].hash {
      assert c[i].hash[0] == 'a' && d[i].hash[0] == 'b';
    }
    assert Linked(c, d);
    CheckForReorgFindsFork(t, c, d, first, 1);
  }

  /** When nine blocks leave, the check finds the first block; when ten leave, it gives up. */
  lemma TenBlocksLeave(first: int)
    ensures CheckForReorg(RowsFrom(first, Branch('a', 10)), Branch('b', 12), first) == ReorgTo(first)
    ensures CheckForReorg(RowsFrom(first, Branch('a', 11)), Branch('b', 12), first) == Critical
  {
    BranchLeaves(first, 10);
    BranchLeaves(first, 11);
  }

}
