/** A full node that dies after a block was flushed and before its block row is written. The next process finds the
    residue and rolls it back: it has the ledger from before the block again, but for what the block burned. */
module Brc20Restart {
  import opened Wrappers
  import opened Rows
  import opened Brc20Ledger
  import opened Brc20Invariants
  import opened Brc20Run
  import opened Brc20Database
  import opened Brc20Store
  import opened Brc20FullNode
  import opened Brc20LightNode
  import opened Brc20Deaths
  import opened Brc20Rollback

  /** The event rows of a block, with their height. */
  function Dated(ps: seq<Published>): seq<Row<Rec>> {
    seq(|ps|, i requires 0 <= i < |ps| => Row(ps[i].height, ps[i].rec))
  }

  /** A run writes its events behind the others, and its tickers are those that a rollback undoes but for burning. */
  ghost predicate RunUndone(cfg: Config, start: Ledger, before: seq<Row<Rec>>, h: int, l: Ledger,
                            dated: seq<Row<Rec>>) {
    && l.log == start.log + Values(dated) && (forall i :: 0 <= i < |dated| ==> dated[i].height > h)
    && TickersRestored(cfg, start.tickers, l.tickers, before + dated, h)
  }

  lemma NothingRun(cfg: Config, start: Ledger, before: seq<Row<Rec>>, h: int)
    requires AllUpTo(before, h) && forall k :: k in start.tickers ==> start.tickers[k].deployHeight <= h
    ensures RunUndone(cfg, start, before, h, start, [])
  {
    assert before + [] == before && start.log + [] == start.log;
    forall k ensures TickerRestored(cfg, start.tickers, start.tickers, before + [], h, k) {
      NothingAbove(cfg, before, h, k);
    }
  }

  lemma OneMoreEvent(cfg: Config, start: Ledger, before: seq<Row<Rec>>, h: int, l: Ledger, dated: seq<Row<Rec>>,
                     step: Step)
    requires RunUndone(cfg, start, before, h, l, dated) && step.height > h
    requires Generate(cfg, l, step.height, step.tx).Emit? && Exec(cfg, step.height, l, step.tx, step.granted).Ok?
    ensures var rec := Generate(cfg, l, step.height, step.tx).rec;
            RunUndone(cfg, start, before, h, Exec(cfg, step.height, l, step.tx, step.granted).value,
                      dated + [Row(step.height, rec)])
  {
    var rec := Generate(cfg, l, step.height, step.tx).rec;
    if rec.event.TransferTransfer? {
      GeneratedCanSpend(cfg, l, step.height, step.tx);
    }
    ProcessedTickers(cfg, step.height, l, rec, step.granted);
    EventDated(cfg, start, before, h, l, dated, step.height, rec,
               Exec(cfg, step.height, l, step.tx, step.granted).value);
  }

  lemma EventDated(cfg: Config, start: Ledger, before: seq<Row<Rec>>, h: int, l: Ledger, dated: seq<Row<Rec>>,
                   height: int, rec: Rec, u: Ledger)
    requires RunUndone(cfg, start, before, h, l, dated) && height > h
    requires u.log == l.log + [rec] && u.tickers == TickersAfter(cfg, l.tickers, height, rec)
    requires rec.event.DeployInscribe? ==> rec.event.ticker !in l.tickers
    requires rec.event.MintInscribe? ==>
               rec.event.ticker in l.tickers && rec.event.amount <= l.tickers[rec.event.ticker].remaining
    ensures RunUndone(cfg, start, before, h, u, dated + [Row(height, rec)])
  {
    EventForgotten(cfg, start.tickers, l.tickers, before + dated, h, height, rec);
    assert before + dated + [Row(height, rec)] == before + (dated + [Row(height, rec)]);
    assert Values(dated + [Row(height, rec)]) == Values(dated) + [rec];
  }

  lemma {:induction false} RunIsUndone(cfg: Config, start: Ledger, before: seq<Row<Rec>>, h: int, steps: seq<Step>)
    requires Run(cfg, start, steps).Ok? && AllUpTo(before, h) && forall i :: 0 <= i < |steps| ==> steps[i].height > h
    requires forall k :: k in start.tickers ==> start.tickers[k].deployHeight <= h
    ensures RunUndone(cfg, start, before, h, Run(cfg, start, steps).value, Dated(Publications(cfg, start, steps)))
  {
    if steps == [] {
      NothingRun(cfg, start, before, h);
    } else {
      var front, last := steps[..|steps| - 1], steps[|steps| - 1];
      RunIsUndone(cfg, start, before, h, front);
      var l, ps := Run(cfg, start, front).value, Publications(cfg, start, front);
      var g := Generate(cfg, l, last.height, last.tx);
      if g.Emit? {
        OneMoreEvent(cfg, start, before, h, l, Dated(ps), last);
        assert Dated(ps + [Published(last.height, g.rec, last.granted)]) == Dated(ps) + [Row(last.height, g.rec)];
      }
    }
  }

  predicate DeployedUpTo(tickers: map<string, Ticker>, height: int) {
    forall k :: k in tickers ==> tickers[k].deployHeight <= height
  }

  lemma StepStaysBelow(cfg: Config, l: Ledger, height: int, step: Step)
    requires Exec(cfg, step.height, l, step.tx, step.granted).Ok? && step.height <= height
    requires DeployedUpTo(l.tickers, height)
    ensures DeployedUpTo(Exec(cfg, step.height, l, step.tx, step.granted).value.tickers, height)
  {
    var g := Generate(cfg, l, step.height, step.tx);
    if g.Emit? {
      if g.rec.event.TransferTransfer? {
        GeneratedCanSpend(cfg, l, step.height, step.tx);
      }
      ProcessedTickers(cfg, step.height, l, g.rec, step.granted);
    }
  }

  /** Nothing in a run is newer than its newest block. */
  lemma {:induction false} RunStaysBelow(cfg: Config, start: Ledger, height: int, steps: seq<Step>)
    requires Run(cfg, start, steps).Ok? && forall i :: 0 <= i < |steps| ==> steps[i].height <= height
    requires DeployedUpTo(start.tickers, height)
    ensures DeployedUpTo(Run(cfg, start, steps).value.tickers, height)
  {
    if steps != [] {
      var front, last := steps[..|steps| - 1], steps[|steps| - 1];
      RunStaysBelow(cfg, start, height, front);
      StepStaysBelow(cfg, Run(cfg, start, front).value, height, last);
    }
  }

  /** The tables once the block is flushed. */
  ghost predicate BlockWritten(cfg: Config, before: Tables, after: Tables, height: int, steps: seq<Step>) {
    && Run(cfg, Stands(before), steps).Ok? && (forall i :: 0 <= i < |steps| ==> steps[i].height == height)
    && Stands(after) == Run(cfg, Stands(before), steps).value
    && after.events == before.events + Dated(Publications(cfg, Stands(before), steps))
    && ExtendedSince(before.balances, after.balances, height) && AllUpTo(after.balances, height)
  }

  /** Rolling back what a block has written. */
  lemma BlockIsUndone(cfg: Config, before: Tables, after: Tables, height: int, steps: seq<Step>)
    requires Settled(before, height - 1) && BlockWritten(cfg, before, after, height, steps)
    ensures Reorged(after, height - 1) == before.(tickers := Overburned(cfg, before.tickers, after.events, height - 1))
  {
    var h := height - 1;
    var dated, more := Dated(Publications(cfg, Stands(before), steps)), after.balances[|before.balances|..];
    RunIsUndone(cfg, Stands(before), before.events, h, steps);
    RestoredAll(cfg, before.tickers, after.tickers, after.events, h);
    assert after.balances == before.balances + more;
    AppendedForgotten(before.balances, more, h);
    AppendedForgotten(before.events, dated, h);
    UpToAll(before.balances, h);
    UpToAll(before.events, h);
  }

  lemma BlockAtZero(cfg: Config, before: Tables, after: Tables, steps: seq<Step>)
    requires Settled(before, -1) && BlockWritten(cfg, before, after, 0, steps)
    ensures !HasResidue(after, -1)
  {
    RunStaysBelow(cfg, Stands(before), 0, steps);
    PublishedHeights(cfg, Stands(before), steps, 0);
  }

  lemma SettledStays(t: Tables, h: int)
    requires Settled(t, h)
    ensures Reorged(t, h) == t
  {
    UpToAll(t.balances, h);
    UpToAll(t.events, h);
    forall k | k in t.tickers ensures MintedAbove(t.events, h, k) == 0 {
      NothingMinted(t.events, h, k);
    }
    assert GivenBack(KeptTickers(t.tickers, h), t.events, h) == t.tickers;
  }

  lemma {:induction false} NothingMinted(events: seq<Row<Rec>>, h: int, ticker: string)
    requires AllUpTo(events, h)
    ensures MintedAbove(events, h, ticker) == 0
  {
    if events != [] {
      NothingMinted(events[..|events| - 1], h, ticker);
    }
  }

  /** What the next process makes of the tables: rolled back to the newest block row, unless nothing is found above. */
  function Cleared(t: Tables, h: int): Tables {
    if HasResidue(t, h) then Reorged(t, h) else t
  }

  /** After a block above height 0 the next process undoes it but for burning; one at height 0 it does not notice. */
  lemma BlockCleared(cfg: Config, before: Tables, after: Tables, height: int, steps: seq<Step>)
    requires height >= 0 && Settled(before, height - 1) && BlockWritten(cfg, before, after, height, steps)
    ensures Cleared(after, height - 1)
              == if height == 0 then after
                 else before.(tickers := Overburned(cfg, before.tickers, after.events, height - 1))
  {
    if height == 0 {
      BlockAtZero(cfg, before, after, steps);
    } else {
      BlockIsUndone(cfg, before, after, height, steps);
      if Settled(after, height - 1) {
        SettledStays(after, height - 1);
      }
    }
  }

  /** A node's tables, given the rows of its event table. */
  function OnDisk(db: Store, rows: seq<Row<Rec>>): Tables
    reads db`tickerTable, db`balanceTable
  {
    Tables(db.tickerTable, db.balanceTable, rows)
  }

  /** A new process: the residue check, the rollback, and the tickers loaded. `dated` are the event rows with their
      heights. */
  method StartAgain(db: Store, ghost cfg: Config, height: int, dated: seq<Row<Rec>>) returns (rows: seq<Row<Rec>>)
    requires height >= 0 && Values(dated) == db.eventTable
    requires Ascending(db.balanceTable) && AllUpTo(db.balanceTable, height)
    modifies db
    ensures OnDisk(db, rows) == Cleared(old(OnDisk(db, dated)), height - 1) && Values(rows) == db.eventTable
    ensures db.View() == Stands(OnDisk(db, rows)) && Resting(db, cfg, height)
  {
    var disk := new Database(OnDisk(db, dated));
    var found := disk.CheckResidue(height - 1);
    UpToIsPrefix(db.balanceTable, height - 1);
    if found {
      disk.Reorg(height - 1);
    }
    rows := disk.events;
    db.tickerTable, db.balanceTable, db.eventTable := disk.tickers, disk.balances, Values(rows);
    Reborn(db, cfg, height);
  }

  lemma LogOfRun(cfg: Config, l: Ledger, before: seq<Row<Rec>>, h: int, steps: seq<Step>)
    requires Run(cfg, l, steps).Ok? && AllUpTo(before, h) && forall i :: 0 <= i < |steps| ==> steps[i].height > h
    requires DeployedUpTo(l.tickers, h) && Values(before) == l.log
    ensures Values(before + Dated(Publications(cfg, l, steps))) == Run(cfg, l, steps).value.log
  {
    RunIsUndone(cfg, l, before, h, steps);
    assert Values(before + Dated(Publications(cfg, l, steps)))
        == Values(before) + Values(Dated(Publications(cfg, l, steps)));
  }

  // ---------- what a block burns ----------

  /** The block burns nothing of tickers that are older than it. */
  predicate BurnsNothing(cfg: Config, l: Ledger, height: int, steps: seq<Step>) {
    NothingBurned(cfg, l.tickers, Dated(Publications(cfg, l, steps)), height - 1)
  }

  /** The ledger with what the block burns burned already, and nothing else of the block. */
  function BurnedAhead(cfg: Config, l: Ledger, height: int, steps: seq<Step>): Ledger {
    l.(tickers := Overburned(cfg, l.tickers, Dated(Publications(cfg, l, steps)), height - 1))
  }

  lemma {:induction false} OlderBurnNothing(cfg: Config, older: seq<Row<Rec>>, rows: seq<Row<Rec>>, h: int, k: string)
    requires AllUpTo(older, h)
    ensures BurnedAbove(cfg, older + rows, h, k) == BurnedAbove(cfg, rows, h, k)
  {
    if rows == [] {
      assert older + rows == older;
      NothingAbove(cfg, older, h, k);
    } else {
      OlderBurnNothing(cfg, older, rows[..|rows| - 1], h, k);
      assert (older + rows)[..|older + rows| - 1] == older + rows[..|rows| - 1];
    }
  }

  lemma SameOverburned(cfg: Config, tickers: map<string, Ticker>, older: seq<Row<Rec>>, rows: seq<Row<Rec>>, h: int)
    requires AllUpTo(older, h)
    ensures Overburned(cfg, tickers, older + rows, h) == Overburned(cfg, tickers, rows, h)
  {
    forall k ensures BurnedAbove(cfg, older + rows, h, k) == BurnedAbove(cfg, rows, h, k) {
      OlderBurnNothing(cfg, older, rows, h, k);
    }
  }

  lemma BurnedAheadIsSame(cfg: Config, l: Ledger, height: int, steps: seq<Step>)
    ensures BurnedAhead(cfg, l, height, steps) == l <==> BurnsNothing(cfg, l, height, steps)
  {
    OverburnedIsSame(cfg, l.tickers, Dated(Publications(cfg, l, steps)), height - 1);
  }

  // ---------- dying between the flush and the block row ----------

  /** Between two blocks: a node at rest, on tables in which nothing is newer than the newest block row. */
  ghost predicate Waiting(db: Store, cfg: Config, rows: seq<Row<Rec>>, height: int)
    reads db
  {
    Resting(db, cfg, height) && Values(rows) == db.eventTable && Settled(OnDisk(db, rows), height - 1)
  }

  /** A block as a full node may be given it. */
  ghost predicate Indexable(cfg: Config, l: Ledger, height: int, steps: seq<Step>) {
    Inv(cfg, l) && ValidRun(cfg, l, steps) && forall k :: 0 <= k < |steps| ==> steps[k].height == height
  }

  /** The block indexed and flushed. */
  method IndexFlushed(db: Store, cfg: Config, height: int, steps: seq<Step>, rows: seq<Row<Rec>>)
    returns (ok: bool, written: seq<Row<Rec>>)
    requires Waiting(db, cfg, rows, height) && Indexable(cfg, db.View(), height, steps)
    modifies db
    ensures Run(cfg, old(db.View()), steps) == if ok then Ok(db.View()) else Err
    ensures ok ==> Resting(db, cfg, height) && Inv(cfg, db.View()) && Values(written) == db.eventTable
    ensures ok ==> BlockWritten(cfg, old(OnDisk(db, rows)), OnDisk(db, written), height, steps)
    ensures old(db.View()) == Stands(old(OnDisk(db, rows)))
  {
    ghost var l := db.View();
    RestingIsStored(db, cfg, height);
    written := rows + Dated(Publications(cfg, Ledger(db.tickers, BalanceMap(db.balanceTable + db.balanceUpdates),
                                                     db.eventTable + db.eventInserts), steps));
    ok := IndexBlock(db, cfg, height, steps);
    if ok {
      LogOfRun(cfg, l, rows, height - 1, steps);
      RestingIsStored(db, cfg, height);
    }
  }

  /** The block's events processed and flushed. */
  method ProcessFlushed(db: Store, cfg: Config, height: int, ghost steps: seq<Step>, records: seq<Published>,
                        rows: seq<Row<Rec>>)
    returns (written: seq<Row<Rec>>)
    requires Waiting(db, cfg, rows, height) && Indexable(cfg, db.View(), height, steps)
    requires Run(cfg, db.View(), steps).Ok? && records == Publications(cfg, db.View(), steps)
    modifies db
    ensures Run(cfg, old(db.View()), steps) == Ok(db.View())
    ensures Resting(db, cfg, height) && Inv(cfg, db.View()) && Values(written) == db.eventTable
    ensures BlockWritten(cfg, old(OnDisk(db, rows)), OnDisk(db, written), height, steps)
    ensures old(db.View()) == Stands(old(OnDisk(db, rows)))
  {
    ghost var l := db.View();
    RestingIsStored(db, cfg, height);
    PublishedReplays(cfg, l, steps);
    ReplayAgrees(cfg, NOTHING_CACHED, l, steps);
    PublishedHeights(cfg, l, steps, height);
    LogOfRun(cfg, l, rows, height - 1, steps);
    written := rows + Dated(records);
    var _ := ProcessEvents(db, cfg, height, records, ALL_TAKEN);
    RestingIsStored(db, cfg, height);
  }

  lemma BlockSettles(cfg: Config, before: Tables, after: Tables, height: int, steps: seq<Step>)
    requires Settled(before, height - 1) && BlockWritten(cfg, before, after, height, steps)
    ensures Settled(after, height)
  {
    RunStaysBelow(cfg, Stands(before), height, steps);
    PublishedHeights(cfg, Stands(before), steps, height);
  }

  /** What a node that died behind the flush of a block has once it started again: the tables from before the block,
      with what the block burns burned already; at height 0 the residue is not found, and the block stays. */
  predicate StartedAgain(cfg: Config, before: Tables, t: Tables, height: int, steps: seq<Step>) {
    if height == 0 then Run(cfg, Stands(before), steps) == Ok(Stands(t))
    else Stands(t) == BurnedAhead(cfg, Stands(before), height, steps) && t == before.(tickers := t.tickers)
  }

  lemma ClearedSo(cfg: Config, before: Tables, after: Tables, height: int, steps: seq<Step>)
    requires height >= 0 && Settled(before, height - 1) && BlockWritten(cfg, before, after, height, steps)
    ensures StartedAgain(cfg, before, Cleared(after, height - 1), height, steps)
  {
    BlockCleared(cfg, before, after, height, steps);
    SameOverburned(cfg, before.tickers, before.events, Dated(Publications(cfg, Stands(before), steps)), height - 1);
  }

  /** A process that starts on the tables of one that died behind the flush of a block. */
  method StartBehindFlush(db: Store, ghost cfg: Config, height: int, written: seq<Row<Rec>>, ghost before: Tables,
                          ghost steps: seq<Step>)
    returns (rows: seq<Row<Rec>>)
    requires height >= 0 && Values(written) == db.eventTable && Ascending(db.balanceTable)
    requires Settled(before, height - 1) && BlockWritten(cfg, before, OnDisk(db, written), height, steps)
    modifies db
    ensures Resting(db, cfg, height) && db.View() == Stands(OnDisk(db, rows)) && Values(rows) == db.eventTable
    ensures StartedAgain(cfg, before, OnDisk(db, rows), height, steps)
  {
    ClearedSo(cfg, before, OnDisk(db, written), height, steps);
    rows := StartAgain(db, cfg, height, written);
  }

  /** A node that died behind the flush of a block and started again has the ledger from before the block, with what
      the block burns of older tickers burned already; so it is the same ledger exactly when the block burns nothing of
      them. At height 0 the block stays. */
  ghost predicate DiedLate(db: Store, cfg: Config, l: Ledger, rows: seq<Row<Rec>>, height: int, steps: seq<Step>)
    reads db
  {
    if height == 0 then Run(cfg, l, steps) == Ok(db.View())
    else
      && db.View() == BurnedAhead(cfg, l, height, steps) && (db.View() == l <==> BurnsNothing(cfg, l, height, steps))
      && (db.View() == l ==> Waiting(db, cfg, rows, height))
  }

  lemma DiedLateSo(db: Store, cfg: Config, before: Tables, rows: seq<Row<Rec>>, height: int, steps: seq<Step>)
    requires height >= 0 && Settled(before, height - 1) && StartedAgain(cfg, before, OnDisk(db, rows), height, steps)
    requires Resting(db, cfg, height) && db.View() == Stands(OnDisk(db, rows)) && Values(rows) == db.eventTable
    ensures DiedLate(db, cfg, Stands(before), rows, height, steps)
  {
    BurnedAheadIsSame(cfg, Stands(before), height, steps);
    assert height > 0 && db.View() == Stands(before) ==> OnDisk(db, rows) == before;
  }

  /** The full node indexes a block, flushes it, dies, and starts again. */
  method DieAfterFlush(db: Store, cfg: Config, height: int, steps: seq<Step>, rows: seq<Row<Rec>>)
    returns (ok: bool, left: seq<Row<Rec>>)
    requires height >= 0 && Waiting(db, cfg, rows, height) && Indexable(cfg, db.View(), height, steps)
    modifies db
    ensures ok <==> Run(cfg, old(db.View()), steps).Ok?
    ensures ok ==> DiedLate(db, cfg, old(db.View()), left, height, steps)
  {
    ghost var before := OnDisk(db, rows);
    ok, left := IndexFlushed(db, cfg, height, steps, rows);
    if ok {
      RestingIsStored(db, cfg, height);
      left := StartBehindFlush(db, cfg, height, left, before, steps);
      DiedLateSo(db, cfg, before, left, height, steps);
    }
  }

  /** So does the light node with the events of a block. */
  method DieAfterEvents(db: Store, cfg: Config, height: int, ghost steps: seq<Step>, records: seq<Published>,
                        rows: seq<Row<Rec>>)
    returns (left: seq<Row<Rec>>)
    requires height >= 0 && Waiting(db, cfg, rows, height) && Indexable(cfg, db.View(), height, steps)
    requires Run(cfg, db.View(), steps).Ok? && records == Publications(cfg, db.View(), steps)
    modifies db
    ensures DiedLate(db, cfg, old(db.View()), left, height, steps)
  {
    ghost var before := OnDisk(db, rows);
    left := ProcessFlushed(db, cfg, height, steps, records, rows);
    RestingIsStored(db, cfg, height);
    left := StartBehindFlush(db, cfg, height, left, before, steps);
    DiedLateSo(db, cfg, before, left, height, steps);
  }

}
