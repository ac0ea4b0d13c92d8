/** check_extra_tables: after the main tables moved to another chain, find where the derived tables left
    it, roll them back and bring them forward again. */
module Pow20ExtrasRun {
  import opened Wrappers
  import opened Rows
  import opened Pow20Ledger
  import opened Pow20Rollback
  import opened Pow20Regular
  import opened Pow20Wallets
  import opened Pow20Extras
  import opened Pow20ExtraTables
  import F = ChainFollower
  import opened Pow20Run

  /** `select min(e.block_height) from extras e join blocks b on height where hashes differ`, or None. */
  function FirstDifference(extras: seq<Row<string>>, blocks: seq<Row<string>>): Option<int> {
    if extras == [] then None
    else
      var last := extras[|extras| - 1];
      var before := FirstDifference(extras[..|extras| - 1], blocks);
      var main := BlockHashAt(blocks, last.height);
      if main.Some? && main.value != last.value && (before.None? || last.height < before.value) then Some(last.height)
      else before
  }

  lemma {:induction false} BlockHashIs(blocks: seq<Row<string>>, first: int, chain: seq<Block>, h: int)
    requires F.Records(blocks, first, chain)
    ensures BlockHashAt(blocks, h) == F.ChainHash(chain, first, h)
    decreases |blocks|
  {
    if blocks != [] {
      assert blocks[|blocks| - 1] == Row(first + |chain| - 1, chain[|chain| - 1].hash);
      var front := chain[..|chain| - 1];
      assert F.Records(blocks[..|blocks| - 1], first, front);
      BlockHashIs(blocks[..|blocks| - 1], first, front, h);
    }
  }

  /** The first differing hash is the fork. */
  lemma {:induction false} DifferenceIsFork(extras: seq<Row<string>>, blocks: seq<Row<string>>, first: int,
                                            c: seq<Block>, d: seq<Block>, m: nat, n: nat)
    requires F.Records(extras, first, c)
    requires F.Records(blocks, first, d)
    requires F.Linked(c, d) && F.ForkAt(c, d, m) && n <= |c|
    ensures FirstDifference(extras[..n], blocks) == if m < n && m < |d| then Some(first + m) else None
    decreases n
  {
    if n > 0 {
      DifferenceIsFork(extras, blocks, first, c, d, m, n - 1);
      assert extras[..n][..n - 1] == extras[..n - 1];
      assert extras[n - 1] == Row(first + n - 1, c[n - 1].hash);
      BlockHashIs(blocks, first, d, first + n - 1);
      if n - 1 < |d| {
        if n - 1 >= m {
          F.HashesDifferAfterFork(c, d, m, n - 1);
        } else {
          assert c[..m][n - 1] == d[..m][n - 1];
        }
      }
    }
  }

  // ---------- tracking a replay ----------

  /** What this module needs of the machine that keeps the main tables. */
  ghost predicate KeepsTables(m: F.Machine) {
    && F.Lawful(m)
    && (forall t, h :: m.rollback(t, h) == Rollback(t, h))
    && (forall t, next :: m.settled(t, next) ==> Bounded(t, next - 1))
    && forall chain, t :: F.Replay(m, chain) == Some(t) ==> Derivable(t)
  }

  /** What the derived tables need of the main tables. */
  predicate Derivable(t: Tables) {
    Regular(t) && WalletsFixed(t.balances)
  }

  lemma Pow20KeepsTables(env: Env, first: int)
    ensures KeepsTables(Pow20Machine(env, first))
  {
    Pow20MachineIsLawful(env, first);
    forall chain, t | F.Replay(Pow20Machine(env, first), chain) == Some(t) ensures Derivable(t) {
      ReplayIsRegular(env, first, chain, t);
      ReplayWalletsFixed(env, first, chain, t);
    }
  }

  /** The derived tables are those of the replay of this chain, and so are their block rows. */
  ghost predicate Tracks(x: ExtraTables, m: F.Machine, chain: seq<Block>)
    reads x
  {
    && F.Replay(m, chain).Some?
    && x.Agrees(F.Replay(m, chain).value, m.first + |chain| - 1)
    && F.Records(x.blocks, m.first, chain)
  }

  /** A process stopped inside the block above the first n blocks of this chain. */
  ghost predicate StoppedInside(x: ExtraTables, m: F.Machine, chain: seq<Block>, n: nat)
    reads x
  {
    && F.Replay(m, chain).Some? && n < |chain|
    && x.Interrupted(F.Replay(m, chain).value, m.first + n - 1)
    && F.Records(x.blocks, m.first, chain[..n])
  }

  /** All three derived tables are those that initial_index_of_extra_tables computes from scratch. */
  ghost predicate FromScratch(x: ExtraTables, t: Tables)
    reads x
  {
    x.current == CurrentFrom(t.balances) && x.unused == UnusedFrom(t.events) && x.blocks == t.blocks
  }

  lemma ReplayRows(m: F.Machine, chain: seq<Block>, t: Tables)
    requires KeepsTables(m) && F.Replay(m, chain) == Some(t)
    ensures UpTo(t.balances, m.first + |chain| - 1) == t.balances
    ensures UpTo(t.events, m.first + |chain| - 1) == t.events
    ensures F.Records(t.blocks, m.first, chain)
  {
    F.ReplayIsSettled(m, chain, t);
    UpToAll(t.balances, m.first + |chain| - 1);
    UpToAll(t.events, m.first + |chain| - 1);
  }

  /** Tracking the replay that the main tables hold is being built from scratch. */
  lemma TrackedIsScratch(x: ExtraTables, m: F.Machine, chain: seq<Block>, t: Tables)
    requires KeepsTables(m) && F.Replay(m, chain) == Some(t)
    ensures Tracks(x, m, chain) <==> FromScratch(x, t)
  {
    ReplayRows(m, chain, t);
    if F.Records(x.blocks, m.first, chain) {
      assert x.blocks == t.blocks;
    }
  }

  /** New tables track the empty chain. */
  lemma NewTablesTrack(x: ExtraTables, m: F.Machine)
    requires KeepsTables(m) && x.current == map[] && x.unused == map[] && x.blocks == []
    ensures Tracks(x, m, [])
  {
    TrackedIsScratch(x, m, [], EMPTY_TABLES);
  }

  predicate SameUpTo(s: Tables, t: Tables, h: int) {
    UpTo(s.balances, h) == UpTo(t.balances, h) && UpTo(s.events, h) == UpTo(t.events, h)
  }

  /** Two replays of chains with a common prefix have the same rows up to it. */
  lemma SharedRows(m: F.Machine, c: seq<Block>, d: seq<Block>, s: Tables, t: Tables, n: nat)
    requires KeepsTables(m) && F.Replay(m, c) == Some(s) && F.Replay(m, d) == Some(t)
    requires n <= |c| && n <= |d| && c[..n] == d[..n]
    ensures SameUpTo(s, t, m.first + n - 1)
  {
    F.RollbackOfReplay(m, c, s, n);
    F.RollbackOfReplay(m, d, t, n);
    assert Rollback(s, m.first + n - 1) == Rollback(t, m.first + n - 1);
  }

  lemma AgreesAlike(x: ExtraTables, s: Tables, t: Tables, h: int)
    requires SameUpTo(s, t, h) && x.Agrees(t, h)
    ensures x.Agrees(s, h)
  {
  }

  /** Tables that agree with a replay up to its first n blocks, block rows included, track those. */
  lemma TracksPrefix(x: ExtraTables, m: F.Machine, chain: seq<Block>, t: Tables, n: nat)
    requires KeepsTables(m) && F.Replay(m, chain) == Some(t) && n <= |chain|
    requires x.Agrees(t, m.first + n - 1) && F.Records(x.blocks, m.first, chain[..n])
    ensures Tracks(x, m, chain[..n])
  {
    F.ReplayPrefix(m, chain, n);
    SharedRows(m, chain, chain[..n], t, F.Replay(m, chain[..n]).value, n);
    AgreesAlike(x, F.Replay(m, chain[..n]).value, t, m.first + n - 1);
  }

  lemma RecordsReach(blocks: seq<Row<string>>, first: int, chain: seq<Block>, h: int)
    requires F.Records(blocks, first, chain)
    ensures MaxHeight(blocks) == if chain == [] then None else Some(first + |chain| - 1)
    ensures h > 0 ==> (Ahead(blocks, h) <==> chain != [] && first + |chain| - 1 >= h)
  {
    if chain != [] {
      var h' := first + |chain| - 1;
      MaxHeightBounds(blocks, h');
      MaxHeightBounds(blocks, h' - 1);
      assert blocks[|blocks| - 1].height == h';
    }
  }

  lemma {:induction false} RecordsUpTo(blocks: seq<Row<string>>, first: int, chain: seq<Block>, n: nat)
    requires F.Records(blocks, first, chain) && n <= |chain|
    ensures F.Records(UpTo(blocks, first + n - 1), first, chain[..n])
    decreases |chain|
  {
    if n == |chain| {
      UpToAll(blocks, first + n - 1);
    } else {
      var front := blocks[..|blocks| - 1];
      assert blocks[|blocks| - 1].height == first + |chain| - 1;
      assert F.Records(front, first, chain[..|chain| - 1]);
      RecordsUpTo(front, first, chain[..|chain| - 1], n);
      assert chain[..|chain| - 1][..n] == chain[..n];
    }
  }

  // ---------- the residue check ----------

  lemma TrackingIsQuiet(x: ExtraTables, m: F.Machine, had: seq<Block>)
    requires Tracks(x, m, had)
    ensures x.Quiet(x.Next(m.first) - 1)
  {
    RecordsReach(x.blocks, m.first, had, m.first);
    x.AgreesIsQuiet(F.Replay(m, had).value, m.first + |had| - 1);
  }

  lemma StoppedIsInterrupted(x: ExtraTables, m: F.Machine, t: Tables, had: seq<Block>, chain: seq<Block>)
    requires had < chain && StoppedInside(x, m, chain, |had|) && F.Replay(m, chain) == Some(t)
    ensures x.Next(m.first) - 1 == m.first + |had| - 1 && x.Interrupted(t, m.first + |had| - 1)
    ensures chain[..|had|] == had && F.Records(x.blocks, m.first, had)
  {
    assert chain[..|had|] == had;
    RecordsReach(x.blocks, m.first, had, m.first);
  }

  /** The residue check leaves tracking tables alone, whatever chain the main tables are on by now, and brings back
      those of a stopped process to the blocks they had finished. */
  method Resume(x: ExtraTables, t: Tables, first: int, ghost m: F.Machine, ghost had: seq<Block>,
                ghost chain: seq<Block>)
    requires KeepsTables(m) && first == m.first && F.Replay(m, chain) == Some(t)
    requires Tracks(x, m, had) || (had < chain && StoppedInside(x, m, chain, |had|))
    modifies x
    ensures Tracks(x, m, had) && x.blocks == old(x.blocks)
  {
    ghost var tracking := Tracks(x, m, had);
    if tracking {
      TrackingIsQuiet(x, m, had);
    } else {
      StoppedIsInterrupted(x, m, t, had, chain);
    }
    x.CheckResidueOnExtraTables(t, first);
    if !tracking {
      TracksPrefix(x, m, chain, t, |had|);
    }
  }

  // ---------- one block ----------

  /** Tables that agree with some rows up to g are fit for a block up to g + 1 of rows that are the same below it. */
  lemma FitFrom(x: ExtraTables, s: Tables, t: Tables, g: int, height: int)
    requires x.Agrees(s, g) && Ascending(s.balances) && SameUpTo(s, t, height - 1)
    requires if Ahead(x.blocks, height) then height <= g else height == g + 1
    ensures x.FitFor(t, height)
  {
    if Ahead(x.blocks, height) {
      AgreesBelowShared(s.balances, t.balances, g, height - 1);
    } else {
      AgreesAlike(x, t, s, g);
    }
  }

  lemma ReplayDerivable(m: F.Machine, chain: seq<Block>, t: Tables)
    requires KeepsTables(m) && F.Replay(m, chain) == Some(t)
    ensures Derivable(t)
  {
  }

  /** Tables that track one chain are fit to receive the next block of another that shares the blocks below it. */
  lemma FitForBlock(x: ExtraTables, m: F.Machine, had: seq<Block>, chain: seq<Block>, t: Tables, n: nat)
    requires KeepsTables(m) && m.first + n > 0 && Tracks(x, m, had) && F.Replay(m, chain) == Some(t)
    requires n <= |chain| && n <= |had| && had[..n] == chain[..n]
    ensures x.FitFor(t, m.first + n)
  {
    var s := F.Replay(m, had).value;
    SharedRows(m, had, chain, s, t, n);
    ReplayDerivable(m, had, s);
    RecordsReach(x.blocks, m.first, had, m.first + n);
    FitFrom(x, s, t, m.first + |had| - 1, m.first + n);
  }

  /** The block rows that are kept before the next one is written, and with it. */
  lemma KeptRecords(blocks: seq<Row<string>>, kept: seq<Row<string>>, first: int, had: seq<Block>, chain: seq<Block>,
                    n: nat)
    requires F.Records(blocks, first, had) && n <= |had| && n < |chain| && had[..n] == chain[..n] && first + n > 0
    requires kept == if Ahead(blocks, first + n) then UpTo(blocks, first + n - 1) else blocks
    ensures F.Records(kept, first, chain[..n])
    ensures F.Records(kept + [Row(first + n, chain[n].hash)], first, chain[..n + 1])
  {
    RecordsReach(blocks, first, had, first + n);
    RecordsUpTo(blocks, first, had, n);
    if |had| == n {
      assert had[..n] == had;
    }
    assert chain[..n + 1] == chain[..n] + [chain[n]];
  }

  /** One turn of the catching-up loop. */
  method CatchUpOne(x: ExtraTables, t: Tables, height: int, budget: nat, ghost kept: seq<Row<string>>,
                    ghost hash: string)
    returns (left: Option<nat>)
    requires Derivable(t) && x.FitFor(t, height) && BlockHashAt(t.blocks, height) == Some(hash)
    requires kept == if Ahead(x.blocks, height) then UpTo(x.blocks, height - 1) else x.blocks
    modifies x
    ensures if left.Some? then x.Agrees(t, height) && x.blocks == kept + [Row(height, hash)]
            else x.Interrupted(t, height - 1) && x.blocks == kept
  {
    var blockHash := BlockHashAt(t.blocks, height).value;
    left := x.IndexExtraTables(t, height, blockHash, budget);
  }

  /** One block more is tracked, or the process stopped inside it. */
  method CatchUpStep(x: ExtraTables, t: Tables, height: int, budget: nat, ghost m: F.Machine, ghost had: seq<Block>,
                     ghost chain: seq<Block>, ghost n: nat) returns (left: Option<nat>)
    requires KeepsTables(m) && height == m.first + n > 0 && Tracks(x, m, had) && F.Replay(m, chain) == Some(t)
    requires n < |chain| && n <= |had| && had[..n] == chain[..n]
    modifies x
    ensures if left.Some? then Tracks(x, m, chain[..n + 1]) else StoppedInside(x, m, chain, n)
  {
    ghost var kept := if Ahead(x.blocks, height) then UpTo(x.blocks, height - 1) else x.blocks;
    StepReady(x, m, had, chain, t, n, kept);
    left := CatchUpOne(x, t, height, budget, kept, chain[n].hash);
    if left.Some? {
      TracksPrefix(x, m, chain, t, n + 1);
    }
  }

  lemma StepReady(x: ExtraTables, m: F.Machine, had: seq<Block>, chain: seq<Block>, t: Tables, n: nat,
                  kept: seq<Row<string>>)
    requires KeepsTables(m) && m.first + n > 0 && Tracks(x, m, had) && F.Replay(m, chain) == Some(t)
    requires n < |chain| && n <= |had| && had[..n] == chain[..n]
    requires kept == if Ahead(x.blocks, m.first + n) then UpTo(x.blocks, m.first + n - 1) else x.blocks
    ensures Derivable(t) && x.FitFor(t, m.first + n) && BlockHashAt(t.blocks, m.first + n) == Some(chain[n].hash)
    ensures F.Records(kept, m.first, chain[..n])
    ensures F.Records(kept + [Row(m.first + n, chain[n].hash)], m.first, chain[..n + 1])
  {
    ReplayDerivable(m, chain, t);
    FitForBlock(x, m, had, chain, t, n);
    ReplayRows(m, chain, t);
    BlockHashIs(t.blocks, m.first, chain, m.first + n);
    KeptRecords(x.blocks, kept, m.first, had, chain, n);
  }

  // ---------- where to start ----------

  /** The height check_extra_tables starts from: the first differing one, else the one after the derived tables'
      last, else the first; 0 is taken to mean that none was found. */
  function StartHeight(extras: seq<Row<string>>, blocks: seq<Row<string>>, first: int): int {
    var difference := match FirstDifference(extras, blocks) case None => 0 case Some(h) => h;
    var next := match MaxHeight(extras) case None => 0 case Some(h) => h + 1;
    if difference != 0 then difference else if next != 0 then next else first
  }

  function LastHeight(blocks: seq<Row<string>>, first: int): int {
    match MaxHeight(blocks) case None => first case Some(h) => h
  }

  /** Where two chains part, the start is the fork, except when that is at height 0; where they do not part, it is
      the height after the derived tables' last. */
  lemma StartsAtFork(extras: seq<Row<string>>, blocks: seq<Row<string>>, first: int, had: seq<Block>, chain: seq<Block>,
                     fork: nat)
    requires first >= 0 && F.Records(extras, first, had) && F.Records(blocks, first, chain)
    requires F.Linked(had, chain) && F.ForkAt(had, chain, fork)
    ensures fork < |had| && fork < |chain| ==>
              (StartHeight(extras, blocks, first) == first + fork <==> first + fork > 0)
    ensures !(fork < |had| && fork < |chain|) ==> StartHeight(extras, blocks, first) == first + |had|
    ensures LastHeight(blocks, first) == if chain == [] then first else first + |chain| - 1
  {
    assert extras[..|had|] == extras;
    DifferenceIsFork(extras, blocks, first, had, chain, fork, |had|);
    RecordsReach(extras, first, had, first);
    RecordsReach(blocks, first, chain, first);
  }

  /** On a network whose first height is 0, a different first block goes unnoticed: the check would start at height 1,
      and here it does nothing at all. */
  lemma ForkAtZeroIsMissed()
    ensures var extras, blocks := [Row(0, "a")], [Row(0, "b")];
            FirstDifference(extras, blocks) == Some(0) && StartHeight(extras, blocks, 0) > LastHeight(blocks, 0)
  {
    var extras, blocks := [Row(0, "a")], [Row(0, "b")];
    assert extras[..0] == [] && blocks[..0] == [];
    assert BlockHashAt(blocks, 0) == Some("b");
  }

  /** The fork of two chains is not at height 0. */
  predicate ForkIsSeen(first: int, had: seq<Block>, chain: seq<Block>) {
    first >= 0 && (first > 0 || had == [] || chain == [] || had[0].hash == chain[0].hash)
  }

  /** The start, in terms of the two chains: past the end only when the derived tables have all blocks already. */
  lemma StartIsRight(extras: seq<Row<string>>, blocks: seq<Row<string>>, first: int, had: seq<Block>, chain: seq<Block>)
    requires F.Records(extras, first, had) && F.Records(blocks, first, chain)
    requires F.Linked(had, chain) && ForkIsSeen(first, had, chain)
    ensures var start, last := StartHeight(extras, blocks, first), LastHeight(blocks, first);
            if start > last then chain < had || (chain == had && chain != [])
            else
              var n := start - first;
              && 0 <= n <= |had| && n <= |chain| && had[..n] == chain[..n]
              && (chain != [] ==> last == first + |chain| - 1)
              && (n == |chain| ==> n == 0) && (n > 0 ==> start > 0) && !(chain < had)
  {
    var fork := F.ForkExists(had, chain);
    StartsAtFork(extras, blocks, first, had, chain, fork);
    if fork == |chain| {
      assert chain[..fork] == chain;
    }
    if fork == |had| {
      assert had[..fork] == had;
    }
  }

  // ---------- check_extra_tables ----------

  /** The block rows tell whether the derived tables are ahead on the same chain. */
  lemma RowsTellAhead(extras: seq<Row<string>>, blocks: seq<Row<string>>, first: int, had: seq<Block>,
                      chain: seq<Block>)
    requires F.Records(extras, first, had) && F.Records(blocks, first, chain) && F.Linked(had, chain)
    ensures chain < had <==> blocks < extras
  {
    if blocks < extras && chain != [] {
      var i := |chain| - 1;
      assert extras[i] == blocks[i];
      assert F.SameHashAt(had, chain, i);
      assert had[..i + 1] == chain[..i + 1] == chain;
    }
  }

  /** After a finished check the derived tables are those computed from scratch, except exactly when they were ahead. */
  lemma CheckedIsScratch(x: ExtraTables, m: F.Machine, had: seq<Block>, chain: seq<Block>, t: Tables)
    requires KeepsTables(m) && F.Replay(m, chain) == Some(t) && Tracks(x, m, if chain < had then had else chain)
    ensures FromScratch(x, t) <==> !(chain < had)
  {
    ReplayRows(m, chain, t);
    TrackedIsScratch(x, m, chain, t);
  }

  method HeightToCheck(extras: seq<Row<string>>, blocks: seq<Row<string>>, first: int) returns (toCheck: int, main: int)
    ensures toCheck == StartHeight(extras, blocks, first) && main == LastHeight(blocks, first)
  {
    toCheck := 0;
    var difference := FirstDifference(extras, blocks);
    if difference.Some? {
      toCheck := difference.value;
    }
    if toCheck == 0 && MaxHeight(extras).Some? {
      toCheck := MaxHeight(extras).value + 1;
    }
    if toCheck == 0 {
      toCheck := first;
    }
    main := first;
    if MaxHeight(blocks).Some? {
      main := MaxHeight(blocks).value;
    }
  }

  /** The derived tables track some chain `had` and the main tables now hold a replay of `chain`. The check, unless
      the process stops, makes the derived tables track `chain` too: they are then those computed from scratch. Only
      when `had` goes on beyond `chain` does it leave them alone; they wait until the main tables have caught up. */
  method CheckExtraTables(x: ExtraTables, t: Tables, first: int, budget: nat, ghost m: F.Machine, ghost had: seq<Block>,
                          ghost chain: seq<Block>) returns (left: Option<nat>)
    requires KeepsTables(m) && first == m.first && Tracks(x, m, had) && F.Replay(m, chain) == Some(t)
    requires F.Linked(had, chain) && ForkIsSeen(first, had, chain)
    modifies x
    ensures left.Some? ==> Tracks(x, m, if chain < had then had else chain)
    ensures left.Some? ==> (FromScratch(x, t) <==> !(t.blocks < old(x.blocks)))
    ensures t.blocks < old(x.blocks) ==>
              && left == Some(budget)
              && x.current == old(x.current) && x.unused == old(x.unused) && x.blocks == old(x.blocks)
    ensures left.None? ==> exists n: nat :: StoppedInside(x, m, chain, n)
  {
    ReplayRows(m, chain, t);
    RowsTellAhead(x.blocks, t.blocks, first, had, chain);
    StartIsRight(x.blocks, t.blocks, first, had, chain);
    var toCheck, main := HeightToCheck(x.blocks, t.blocks, first);
    if toCheck > main {
      CheckedIsScratch(x, m, had, chain, t);
      return Some(budget);
    }
    left := CatchUp(x, t, first, toCheck, main, budget, m, had, chain);
    if left.Some? {
      CheckedIsScratch(x, m, had, chain, t);
    }
  }

  method CatchUp(x: ExtraTables, t: Tables, first: int, toCheck: int, main: int, budget: nat, ghost m: F.Machine,
                 ghost had: seq<Block>, ghost chain: seq<Block>) returns (left: Option<nat>)
    requires KeepsTables(m) && first == m.first && Tracks(x, m, had) && F.Replay(m, chain) == Some(t)
    requires first <= toCheck <= main && (toCheck > first ==> toCheck > 0 && chain != [])
    requires chain != [] ==> main == first + |chain| - 1
    requires toCheck - first <= |had| && toCheck - first <= |chain|
    requires had[..toCheck - first] == chain[..toCheck - first]
    modifies x
    ensures if left.Some? then Tracks(x, m, chain) else exists n: nat :: StoppedInside(x, m, chain, n)
  {
    if toCheck == first {
      x.InitialIndexOfExtraTables(t);
      TrackedIsScratch(x, m, chain, t);
      return Some(budget);
    }
    var height, remaining := toCheck, budget;
    ghost var now := had;
    while height <= main
      invariant toCheck <= height <= main + 1
      invariant height - first <= |now| && now[..height - first] == chain[..height - first]
      invariant height > toCheck ==> now == chain[..height - first]
      invariant Tracks(x, m, now)
    {
      left := CatchUpStep(x, t, height, remaining, m, now, chain, height - first);
      if left.None? {
        return None;
      }
      remaining := left.value;
      height := height + 1;
      now := chain[..height - first];
    }
    assert now == chain;
    return Some(remaining);
  }

}
