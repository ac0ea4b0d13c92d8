/** A node that dies inside a block, before anything of it is flushed, and starts again. */
module Brc20Deaths {
  import opened Wrappers
  import opened Rows
  import opened Brc20Ledger
  import opened Brc20Invariants
  import opened Brc20Run
  import opened Brc20Database
  import opened Brc20Store
  import opened Brc20FullNode
  import opened Brc20LightNode

  /** Between two blocks: consistent, and everything written down. */
  ghost predicate Resting(db: Store, cfg: Config, height: int)
    reads db
  {
    db.Valid(cfg) && db.NothingPending() && db.RowsUpTo(height)
  }

  /** Before every thousandth block the caches are cleared. */
  method Prepare(db: Store, ghost cfg: Config, height: int)
    requires Resting(db, cfg, height)
    modifies db`cachedEvents, db`transferValidity, db`balanceCache
    ensures Resting(db, cfg, height) && db.View() == old(db.View())
  {
    if height % 1000 == 0 {
      db.ClearCaches(cfg);
    }
  }

  /** What the tables alone stand for, once everything is written down. */
  ghost function Stored(db: Store): Ledger
    reads db`tickerTable, db`balanceTable, db`eventTable
  {
    Ledger(db.tickerTable, BalanceMap(db.balanceTable), db.eventTable)
  }

  lemma RestingIsStored(db: Store, cfg: Config, height: int)
    requires Resting(db, cfg, height)
    ensures Stored(db) == db.View() && Ascending(db.balanceTable) && AllUpTo(db.balanceTable, height)
  {
    db.SettledIsFlushed();
  }

  /** A new process on the tables of a node that died before it wrote anything down. */
  method Reborn(db: Store, ghost cfg: Config, height: int)
    requires Ascending(db.balanceTable) && AllUpTo(db.balanceTable, height)
    modifies db
    ensures Resting(db, cfg, height) && db.View() == old(Stored(db))
    ensures db.tickerTable == old(db.tickerTable) && db.balanceTable == old(db.balanceTable)
    ensures db.eventTable == old(db.eventTable)
  {
    db.Init(cfg);
    db.pendingSince := height;
    assert db.balanceTable + db.balanceUpdates == db.balanceTable;
  }

  /** The full node dies after this many transfers of a block; the next process finds the ledger as it was before. */
  method DieInBlock(db: Store, cfg: Config, height: int, steps: seq<Step>, after: nat)
    requires Resting(db, cfg, height) && Inv(cfg, db.View()) && ValidRun(cfg, db.View(), steps)
    requires forall k :: 0 <= k < |steps| ==> steps[k].height == height
    modifies db
    ensures Resting(db, cfg, height) && db.View() == old(db.View())
    ensures db.tickerTable == old(db.tickerTable) && db.balanceTable == old(db.balanceTable)
    ensures db.eventTable == old(db.eventTable)
  {
    RestingIsStored(db, cfg, height);
    ghost var start := db.View();
    var i, alive := 0, true;
    while i < |steps| && i < after && alive
      invariant 0 <= i <= |steps| && Stored(db) == start && db.balanceTable == old(db.balanceTable)
      invariant alive ==> db.Valid(cfg) && db.RowsUpTo(height) && Inv(cfg, db.View())
                          && Run(cfg, start, steps[..i]) == Ok(db.View())
    {
      alive := IndexNext(db, cfg, height, steps, i, start);
      i := i + 1;
    }
    Reborn(db, cfg, height);
  }

  /** The light node dies after this many events of a block, or ends because its module refuses the next deposit. */
  method DieInEvents(db: Store, cfg: Config, height: int, records: seq<Published>, after: nat)
    requires Resting(db, cfg, height) && Inv(cfg, db.View()) && ValidReplay(cfg, db.View(), records)
    requires forall k :: 0 <= k < |records| ==> records[k].height == height
    modifies db
    ensures Resting(db, cfg, height) && db.View() == old(db.View())
    ensures db.tickerTable == old(db.tickerTable) && db.balanceTable == old(db.balanceTable)
    ensures db.eventTable == old(db.eventTable)
  {
    RestingIsStored(db, cfg, height);
    ghost var start := db.View();
    var i, alive := 0, true;
    while i < |records| && i < after && alive
      invariant 0 <= i <= |records| && Stored(db) == start && db.balanceTable == old(db.balanceTable)
      invariant alive ==> db.Valid(cfg) && db.RowsUpTo(height) && Inv(cfg, db.View())
                          && Replay(cfg, NOTHING_CACHED, start, records[..i]) == Ok(db.View())
    {
      alive := ProcessNext(db, cfg, height, records, ALL_TAKEN, i, start);
      i := i + 1;
    }
    Reborn(db, cfg, height);
  }

}
