/** The POW-20 process as a whole: main tables and derived tables, turn after turn, over a chain that reorganizes, with
    the process stopping anywhere in either and starting again. */
module Pow20FullRun {
  import opened Wrappers
  import opened Pow20Ledger
  import opened Pow20Rollback
  import opened Pow20Blocks
  import opened Pow20ExtraTables
  import opened Pow20ExtrasRun
  import F = ChainFollower
  import opened Pow20Run
  import opened Pow20Indexer

  /** One turn. Every turn begins with the residue check of the main tables; `reach` says how far it gets: 0 no further,
      1 to the residue check of the derived tables, 2 on. Before its main loop a process checks the derived tables at
      once (startup); in the loop it looks at the chain and, when it has indexed a whole block, checks them then.
      `budget` is the number of statements after which the process stops while it updates the derived tables. */
  datatype Turn = Turn(it: F.Iteration, startup: bool, reach: nat, budget: nat)

  /** What a turn is to the main tables: a pass, or nothing but the residue check. */
  function MainPart(turn: Turn): F.Iteration {
    if turn.reach < 2 || turn.startup then F.Iteration([], 0) else turn.it
  }

  function MainParts(turns: seq<Turn>): seq<F.Iteration> {
    seq(|turns|, i requires 0 <= i < |turns| => MainPart(turns[i]))
  }

  /** The derived tables between two turns: they track the blocks `had`, or were left inside the block after them. */
  ghost predicate Standing(x: ExtraTables, m: F.Machine, had: seq<Block>, indexed: seq<Block>)
    reads x
  {
    Tracks(x, m, had) || (had < indexed && StoppedInside(x, m, indexed, |had|))
  }

  /** A finished check leaves the tables computed from scratch, unless they are further along the same chain. */
  ghost predicate Checked(x: ExtraTables, m: F.Machine, had: seq<Block>, indexed: seq<Block>)
    reads x
  {
    Tracks(x, m, had) && (had == indexed || indexed < had)
  }

  /** check_extra_tables inside a turn. */
  method Derive(x: ExtraTables, t: Tables, first: int, budget: nat, ghost m: F.Machine, ghost had: seq<Block>,
                ghost indexed: seq<Block>)
    returns (checked: bool, ghost now: seq<Block>)
    requires KeepsTables(m) && 0 <= first == m.first && Tracks(x, m, had) && F.Replay(m, indexed) == Some(t)
    requires F.Linked(had, indexed) && F.SameStart(had, indexed)
    modifies x
    ensures Standing(x, m, now, indexed) && (now == had || now <= indexed) && F.SameStart(now, indexed)
    ensures checked ==> Checked(x, m, now, indexed) && (FromScratch(x, t) <==> !(t.blocks < old(x.blocks)))
  {
    var left := CheckExtraTables(x, t, first, budget, m, had, indexed);
    if left.Some? {
      checked, now := true, if indexed < had then had else indexed;
    } else {
      ghost var n: nat :| StoppedInside(x, m, indexed, n);
      checked, now := false, indexed[..n];
    }
  }

  lemma LinkedToPrefix(c: seq<Block>, d: seq<Block>, p: seq<Block>)
    requires F.Linked(c, d) && p <= d
    ensures F.Linked(c, p)
  {
    forall i | F.SameHashAt(c, p, i) ensures c[..i + 1] == p[..i + 1] {
      assert F.SameHashAt(c, d, i);
      assert p[..i + 1] == d[..i + 1];
    }
  }

  /** What a pass leaves of the main tables. */
  lemma MainTurns(m: F.Machine, t: Tables, indexed: seq<Block>, it: F.Iteration, finished: bool)
    returns (next: seq<Block>)
    requires F.Lawful(m) && F.Replay(m, indexed) == Some(t) && F.Linked(indexed, it.chain)
    requires finished ==>
               && F.Indexes(t, m.first, it.chain)
               && F.Finishes(m, t, CurrentBlock(t, m.first), it.chain[CurrentBlock(t, m.first) - m.first], it.stop)
    ensures F.Follows(m, F.Pass(m, t, it), next) && F.SameStart(indexed, next) && (next <= indexed || next <= it.chain)
    ensures finished ==> F.Replay(m, next) == Some(F.Pass(m, t, it)) && next <= it.chain
  {
    if finished {
      F.FinishedPass(m, t, indexed, it);
      next := it.chain[..|indexed| + 1];
      F.ReplayFollows(m, next, F.Pass(m, t, it));
    } else {
      next := F.PassFollows(m, t, indexed, it);
    }
  }

  lemma ReplayIsBounded(env: Env, first: int, indexed: seq<Block>, t: Tables)
    requires F.Lawful(Pow20Machine(env, first)) && F.Replay(Pow20Machine(env, first), indexed) == Some(t)
    ensures Bounded(t, CurrentBlock(t, first) - 1)
  {
    F.ReplayIsSettled(Pow20Machine(env, first), indexed, t);
  }

  /** What the main part of a turn will do. */
  lemma Planned(ix: Indexer, m: F.Machine, t: Tables, indexed: seq<Block>, it: F.Iteration, done: bool)
    returns (next: seq<Block>)
    requires m == Pow20Machine(ix.env, ix.first) && F.Lawful(m) && F.Replay(m, indexed) == Some(t)
    requires F.Linked(indexed, it.chain)
    requires done == ix.PassFinishes(t, it, F.CheckForReorg(t.blocks, it.chain, ix.first))
    ensures F.Follows(m, F.Pass(m, t, it), next) && F.SameStart(indexed, next) && (next <= indexed || next <= it.chain)
    ensures done ==> F.Replay(m, next) == Some(F.Pass(m, t, it)) && next <= it.chain
  {
    ix.PassFinishesSo(t, it);
    next := MainTurns(m, t, indexed, it, done);
  }

  /** The main part of a turn, after both residue checks. */
  method MainTurn(ix: Indexer, it: F.Iteration, ghost m: F.Machine, ghost indexed: seq<Block>)
    returns (finished: bool, ghost next: seq<Block>)
    requires ix.Valid() && m == Pow20Machine(ix.env, ix.first) && F.Lawful(m)
    requires F.Replay(m, indexed) == Some(ix.Db()) && F.Linked(indexed, it.chain)
    modifies ix, ix.balanceCache.Values
    ensures ix.Valid() && fresh(ix.balanceCache.Values - old(ix.balanceCache.Values))
    ensures ix.Db() == F.Pass(m, old(ix.Db()), it)
    ensures F.Follows(m, ix.Db(), next) && F.SameStart(indexed, next) && (next <= indexed || next <= it.chain)
    ensures finished ==> F.Replay(m, next) == Some(ix.Db()) && next <= it.chain
  {
    ghost var t := ix.Db();
    ghost var check := F.CheckForReorg(t.blocks, it.chain, ix.first);
    ghost var done := ix.PassFinishes(t, it, check);
    ReplayIsBounded(ix.env, ix.first, indexed, t);
    ix.PassEndsSo(t, it);
    next := Planned(ix, m, t, indexed, it, done);
    finished := ix.PassOn(it, t, check, F.Pass(m, t, it), done);
  }

  /** What a turn keeps: the main tables follow the blocks `indexed`, the derived tables stand at the blocks `had`,
      and both began with the same block. */
  ghost predicate Underway(ix: Indexer, x: ExtraTables, m: F.Machine, had: seq<Block>, indexed: seq<Block>)
    reads ix, x
  {
    F.Follows(m, ix.Db(), indexed) && Standing(x, m, had, indexed) && F.SameStart(had, indexed)
  }

  /** A pass of the main loop after both residue checks: the derived tables are checked when a whole block was
      indexed. */
  method PassAndDerive(ix: Indexer, x: ExtraTables, it: F.Iteration, budget: nat, ghost m: F.Machine,
                       ghost had: seq<Block>,
                       ghost indexed: seq<Block>)
    returns (checked: bool, ghost had': seq<Block>, ghost indexed': seq<Block>)
    requires ix.Valid() && ix.first >= 0 && m == Pow20Machine(ix.env, ix.first) && KeepsTables(m)
    requires F.Replay(m, indexed) == Some(ix.Db()) && Tracks(x, m, had) && F.SameStart(had, indexed)
    requires F.Linked(had, it.chain) && F.Linked(indexed, it.chain)
    modifies ix, ix.balanceCache.Values, x
    ensures ix.Valid() && fresh(ix.balanceCache.Values - old(ix.balanceCache.Values))
    ensures ix.Db() == F.Pass(m, old(ix.Db()), it)
    ensures Underway(ix, x, m, had', indexed')
    ensures (indexed' <= indexed || indexed' <= it.chain) && (had' == had || had' <= indexed')
    ensures checked ==> Checked(x, m, had', indexed') && F.Replay(m, indexed') == Some(ix.Db())
    ensures checked ==> (FromScratch(x, ix.Db()) <==> !(ix.Db().blocks < old(x.blocks)))
  {
    var finished;
    checked, had' := false, had;
    finished, indexed' := MainTurn(ix, it, m, indexed);
    if finished {
      LinkedToPrefix(had, it.chain, indexed');
      checked, had' := Derive(x, ix.Db(), ix.first, budget, m, had, indexed');
    }
  }

  /** What is left of a turn after both residue checks. */
  method RestOfTurn(ix: Indexer, x: ExtraTables, turn: Turn, ghost m: F.Machine, ghost had: seq<Block>,
                    ghost indexed: seq<Block>)
    returns (checked: bool, ghost had': seq<Block>, ghost indexed': seq<Block>)
    requires ix.Valid() && ix.first >= 0 && m == Pow20Machine(ix.env, ix.first) && KeepsTables(m) && turn.reach >= 2
    requires F.Replay(m, indexed) == Some(ix.Db()) && Tracks(x, m, had) && F.SameStart(had, indexed)
    requires F.Linked(had, indexed) && F.Linked(had, MainPart(turn).chain) && F.Linked(indexed, MainPart(turn).chain)
    modifies ix, ix.balanceCache.Values, x
    ensures ix.Valid() && fresh(ix.balanceCache.Values - old(ix.balanceCache.Values))
    ensures ix.Db() == F.Pass(m, old(ix.Db()), MainPart(turn))
    ensures Underway(ix, x, m, had', indexed')
    ensures (indexed' <= indexed || indexed' <= MainPart(turn).chain) && (had' == had || had' <= indexed')
    ensures checked ==> Checked(x, m, had', indexed') && F.Replay(m, indexed') == Some(ix.Db())
    ensures checked ==> (FromScratch(x, ix.Db()) <==> !(ix.Db().blocks < old(x.blocks)))
  {
    if turn.startup {
      indexed' := indexed;
      F.ReplayFollows(m, indexed, ix.Db());
      checked, had' := Derive(x, ix.Db(), ix.first, turn.budget, m, had, indexed);
    } else {
      checked, had', indexed' := PassAndDerive(ix, x, turn.it, turn.budget, m, had, indexed);
    }
  }

  method TakeTurn(ix: Indexer, x: ExtraTables, turn: Turn, ghost m: F.Machine, ghost had: seq<Block>,
                  ghost indexed: seq<Block>)
    returns (checked: bool, ghost had': seq<Block>, ghost indexed': seq<Block>)
    requires ix.Valid() && ix.first >= 0 && m == Pow20Machine(ix.env, ix.first) && KeepsTables(m)
    requires Underway(ix, x, m, had, indexed) && F.Linked(had, indexed)
    requires F.Linked(had, MainPart(turn).chain) && F.Linked(indexed, MainPart(turn).chain)
    modifies ix, ix.balanceCache.Values, x
    ensures ix.Valid() && fresh(ix.balanceCache.Values - old(ix.balanceCache.Values))
    ensures ix.Db() == F.Iterate(m, old(ix.Db()), MainPart(turn))
    ensures Underway(ix, x, m, had', indexed')
    ensures (indexed' <= indexed || indexed' <= MainPart(turn).chain) && (had' == had || had' <= indexed')
    ensures checked ==> Checked(x, m, had', indexed') && F.Replay(m, indexed') == Some(ix.Db())
    ensures checked ==> (FromScratch(x, ix.Db()) <==> !(ix.Db().blocks < old(x.blocks)))
  {
    checked, had', indexed' := false, had, indexed;
    ix.CheckIfThereIsResidueFromLastRun();
    F.ReplayFollows(m, indexed, ix.Db());
    if turn.reach > 0 {
      Resume(x, ix.Db(), ix.first, m, had, indexed);
      if turn.reach > 1 {
        checked, had', indexed' := RestOfTurn(ix, x, turn, m, had, indexed);
      }
    }
  }

  // ---------- whole runs ----------

  /** Blocks that were on one of the chains seen. */
  ghost predicate Seen(c: seq<Block>, its: seq<F.Iteration>) {
    c == [] || exists i :: 0 <= i < |its| && c <= its[i].chain
  }

  lemma SeenLater(c: seq<Block>, d: seq<Block>, its: seq<F.Iteration>, i: nat)
    requires i < |its| && (c <= d || c <= its[i].chain) && Seen(d, its[..i])
    ensures Seen(c, its[..i + 1])
  {
    if c <= its[i].chain {
      assert its[..i + 1][i] == its[i];
    } else if c != [] {
      var j :| 0 <= j < i && d <= its[..i][j].chain;
      assert its[..i + 1][j] == its[..i][j];
    }
  }

  lemma SeenIsLinked(c: seq<Block>, d: seq<Block>, its: seq<F.Iteration>, i: nat)
    requires F.AllLinked(its) && i <= |its| && Seen(c, its[..i])
    requires (Seen(d, its[..i]) || exists j :: 0 <= j < |its| && d <= its[j].chain)
    ensures F.Linked(c, d)
  {
    if c != [] && d != [] {
      var k :| 0 <= k < i && c <= its[..i][k].chain;
      assert its[..i][k] == its[k];
      if Seen(d, its[..i]) {
        var j :| 0 <= j < i && d <= its[..i][j].chain;
        assert its[..i][j] == its[j];
        LinkedBoth(c, d, its[k].chain, its[j].chain);
      } else {
        var j :| 0 <= j < |its| && d <= its[j].chain;
        LinkedBoth(c, d, its[k].chain, its[j].chain);
      }
    }
  }

  lemma LinkedBoth(c: seq<Block>, d: seq<Block>, cc: seq<Block>, dd: seq<Block>)
    requires F.Linked(cc, dd) && c <= cc && d <= dd
    ensures F.Linked(c, d)
  {
    F.LinkedPrefix(cc, dd, c);
    LinkedToPrefix(c, dd, d);
  }

  lemma SeenPrefix(p: seq<Block>, c: seq<Block>, its: seq<F.Iteration>)
    requires p <= c && Seen(c, its)
    ensures Seen(p, its)
  {
    if p != [] {
      var i :| 0 <= i < |its| && c <= its[i].chain;
      assert p <= its[i].chain;
    }
  }

  /** The blocks that both tables stand at after a turn. */
  lemma SeenAfter(had: seq<Block>, indexed: seq<Block>, had': seq<Block>, indexed': seq<Block>, its: seq<F.Iteration>,
                  i: nat)
    requires i < |its| && Seen(had, its[..i]) && Seen(indexed, its[..i])
    requires (indexed' <= indexed || indexed' <= its[i].chain) && (had' == had || had' <= indexed')
    ensures Seen(had', its[..i + 1]) && Seen(indexed', its[..i + 1])
  {
    SeenLater(indexed', indexed, its, i);
    if had' == had {
      SeenLater(had', had, its, i);
    } else {
      SeenPrefix(had', indexed', its[..i + 1]);
    }
  }

  lemma AllLinkedSoFar(had: seq<Block>, indexed: seq<Block>, its: seq<F.Iteration>, i: nat)
    requires F.AllLinked(its) && i < |its| && Seen(had, its[..i]) && Seen(indexed, its[..i])
    ensures F.Linked(had, indexed) && F.Linked(had, its[i].chain) && F.Linked(indexed, its[i].chain)
  {
    SeenIsLinked(had, indexed, its, i);
    SeenIsLinked(had, its[i].chain, its, i);
    SeenIsLinked(indexed, its[i].chain, its, i);
  }

  lemma LoopNext(m: F.Machine, its: seq<F.Iteration>, i: nat)
    requires i < |its|
    ensures F.RunLoop(m, its[..i + 1]) == F.Iterate(m, F.RunLoop(m, its[..i]), its[i])
  {
    assert its[..i + 1][..i] == its[..i];
  }

  /** What a run keeps. */
  ghost predicate Running(ix: Indexer, x: ExtraTables, m: F.Machine, its: seq<F.Iteration>, i: nat, had: seq<Block>,
                          indexed: seq<Block>)
    reads ix, x
  {
    && i <= |its| && Underway(ix, x, m, had, indexed)
    && ix.Db() == F.RunLoop(m, its[..i]) && Seen(had, its[..i]) && Seen(indexed, its[..i])
  }

  /** One turn of a run. */
  method RunTurn(ix: Indexer, x: ExtraTables, turn: Turn, ghost m: F.Machine, ghost its: seq<F.Iteration>, ghost i: nat,
                 ghost had: seq<Block>, ghost indexed: seq<Block>)
    returns (checked: bool, ghost had': seq<Block>, ghost indexed': seq<Block>)
    requires ix.Valid() && ix.first >= 0 && m == Pow20Machine(ix.env, ix.first) && KeepsTables(m) && F.AllLinked(its)
    requires i < |its| && its[i] == MainPart(turn) && Running(ix, x, m, its, i, had, indexed)
    modifies ix, ix.balanceCache.Values, x
    ensures ix.Valid() && fresh(ix.balanceCache.Values - old(ix.balanceCache.Values))
    ensures Running(ix, x, m, its, i + 1, had', indexed')
    ensures checked ==> Checked(x, m, had', indexed') && F.Replay(m, indexed') == Some(ix.Db())
  {
    AllLinkedSoFar(had, indexed, its, i);
    LoopNext(m, its, i);
    checked, had', indexed' := TakeTurn(ix, x, turn, m, had, indexed);
    SeenAfter(had, indexed, had', indexed', its, i);
  }

  /** The process may die after the turn, and another one take over. */
  method RunTurnOrDie(ix: Indexer, x: ExtraTables, turn: Turn, ghost m: F.Machine, ghost its: seq<F.Iteration>,
                      ghost i: nat,
                      ghost had: seq<Block>, ghost indexed: seq<Block>)
    returns (checked: bool, ghost had': seq<Block>, ghost indexed': seq<Block>)
    requires ix.Valid() && ix.first >= 0 && m == Pow20Machine(ix.env, ix.first) && KeepsTables(m) && F.AllLinked(its)
    requires i < |its| && its[i] == MainPart(turn) && Running(ix, x, m, its, i, had, indexed)
    modifies ix, ix.balanceCache.Values, x
    ensures ix.Valid() && fresh(ix.balanceCache.Values - old(ix.balanceCache.Values))
    ensures Running(ix, x, m, its, i + 1, had', indexed')
    ensures checked ==> Checked(x, m, had', indexed') && F.Replay(m, indexed') == Some(ix.Db())
  {
    checked, had', indexed' := RunTurn(ix, x, turn, m, its, i, had, indexed);
    if * {
      ix.ResetCaches();
    }
  }

  lemma RunBegins(ix: Indexer, x: ExtraTables, m: F.Machine, its: seq<F.Iteration>)
    requires KeepsTables(m) && ix.Db() == EMPTY_TABLES && x.current == map[] && x.unused == map[] && x.blocks == []
    ensures Running(ix, x, m, its, 0, [], [])
  {
    NewTablesTrack(x, m);
    F.ReplayFollows(m, [], EMPTY_TABLES);
  }

  /** After a check has finished the derived tables have all blocks of the main tables, and they are those computed from
      scratch from the main tables exactly when they have no more: after the chain went away and came back, they may
      still have blocks that the main tables have yet to index again, and then they are those of a replay of these
      blocks too. */
  ghost predicate Derived(ix: Indexer, x: ExtraTables, m: F.Machine)
    reads ix, x
  {
    && ix.Db().blocks <= x.blocks && (FromScratch(x, ix.Db()) <==> !(ix.Db().blocks < x.blocks))
    && exists had :: Tracks(x, m, had)
  }

  lemma CheckedIsDerived(ix: Indexer, x: ExtraTables, m: F.Machine, had: seq<Block>, indexed: seq<Block>)
    requires KeepsTables(m) && Checked(x, m, had, indexed) && F.Replay(m, indexed) == Some(ix.Db())
    ensures Derived(ix, x, m)
  {
    ReplayRows(m, indexed, ix.Db());
    CheckedIsScratch(x, m, had, indexed, ix.Db());
    if had != indexed {
      assert ix.Db().blocks < x.blocks;
    }
  }

  /** Over every run, whatever the chains seen, wherever in the main or the derived tables the process stops and however
      often it starts again: the main tables are those of the main loop; the derived tables track blocks seen or were
      left inside one block; and when the last turn finished its check they are those computed from scratch, exactly
      unless they are still ahead. */
  method FullRun(ix: Indexer, x: ExtraTables, turns: seq<Turn>) returns (checked: bool)
    requires ix.Valid() && ix.Db() == EMPTY_TABLES && ix.first >= 0
    requires x.current == map[] && x.unused == map[] && x.blocks == []
    requires F.AllLinked(MainParts(turns))
    modifies ix, ix.balanceCache.Values, x
    ensures ix.Db() == F.RunLoop(Pow20Machine(ix.env, ix.first), MainParts(turns))
    ensures exists had, indexed :: Underway(ix, x, Pow20Machine(ix.env, ix.first), had, indexed)
    ensures checked ==> Derived(ix, x, Pow20Machine(ix.env, ix.first))
  {
    ghost var m, its := Pow20Machine(ix.env, ix.first), MainParts(turns);
    Pow20KeepsTables(ix.env, ix.first);
    RunBegins(ix, x, m, its);
    ghost var had, indexed: seq<Block> := [], [];
    checked := false;
    for i := 0 to |turns|
      invariant ix.Valid() && fresh(ix.balanceCache.Values - old(ix.balanceCache.Values))
      invariant Running(ix, x, m, its, i, had, indexed)
      invariant checked ==> Checked(x, m, had, indexed) && F.Replay(m, indexed) == Some(ix.Db())
    {
      checked, had, indexed := RunTurnOrDie(ix, x, turns[i], m, its, i, had, indexed);
    }
    assert its[..|turns|] == its;
    if checked {
      CheckedIsDerived(ix, x, m, had, indexed);
    }
  }

}
