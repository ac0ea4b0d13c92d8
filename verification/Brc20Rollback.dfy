/** Rolling the BRC-20 tables back: what was minted above a height is given back, and tickers, balances and events above
    it are deleted. Burned supply is not given back, so the rollback is the inverse of indexing exactly when nothing of
    an older ticker was burned above the height. */
module Brc20Rollback {
  import opened Wrappers
  import opened Rows
  import opened Brc20Ledger
  import opened Brc20Sums
  import opened Brc20Invariants
  import opened Brc20Run
  import opened Brc20Database

  /** The tables, with the height each row was written at. */
  datatype Tables = Tables(tickers: map<string, Ticker>, balances: seq<Row<BalanceUpdate>>, events: seq<Row<Rec>>)

  function Values<T>(rows: seq<Row<T>>): (values: seq<T>)
    ensures |values| == |rows|
  {
    seq(|rows|, i requires 0 <= i < |rows| => rows[i].value)
  }

  /** The ledger the tables stand for. */
  function Stands(t: Tables): Ledger {
    Ledger(t.tickers, BalanceMap(t.balances), Values(t.events))
  }

  // ---------- what happened above a height ----------

  function MintIn(r: Row<Rec>, h: int, ticker: string): nat {
    if r.height > h && r.value.event.MintInscribe? && r.value.event.ticker == ticker then r.value.event.amount else 0
  }

  function MintedAbove(events: seq<Row<Rec>>, h: int, ticker: string): nat {
    if events == [] then 0 else MintedAbove(events[..|events| - 1], h, ticker) + MintIn(events[|events| - 1], h, ticker)
  }

  function BurnIn(cfg: Config, r: Row<Rec>, h: int, ticker: string): nat {
    var e := r.value.event;
    if r.height > h && e.TransferTransfer? && e.ticker == ticker && DestinationOf(cfg, r.height, e) == Burned then
      e.amount
    else 0
  }

  function BurnedAbove(cfg: Config, events: seq<Row<Rec>>, h: int, ticker: string): nat {
    if events == [] then 0
    else BurnedAbove(cfg, events[..|events| - 1], h, ticker) + BurnIn(cfg, events[|events| - 1], h, ticker)
  }

  lemma AbovePush(cfg: Config, events: seq<Row<Rec>>, r: Row<Rec>, h: int, ticker: string)
    ensures MintedAbove(events + [r], h, ticker) == MintedAbove(events, h, ticker) + MintIn(r, h, ticker)
    ensures BurnedAbove(cfg, events + [r], h, ticker) == BurnedAbove(cfg, events, h, ticker) + BurnIn(cfg, r, h, ticker)
  {
    assert (events + [r])[..|events|] == events;
  }

  lemma {:induction false} NothingAbove(cfg: Config, events: seq<Row<Rec>>, h: int, ticker: string)
    requires AllUpTo(events, h)
    ensures MintedAbove(events, h, ticker) == 0 && BurnedAbove(cfg, events, h, ticker) == 0
  {
    if events != [] {
      NothingAbove(cfg, events[..|events| - 1], h, ticker);
    }
  }

  // ---------- the rollback ----------

  function KeptTickers(tickers: map<string, Ticker>, h: int): map<string, Ticker> {
    map k | k in tickers && tickers[k].deployHeight <= h :: tickers[k]
  }

  function GivenBack(tickers: map<string, Ticker>, events: seq<Row<Rec>>, h: int): map<string, Ticker> {
    map k | k in tickers :: tickers[k].(remaining := tickers[k].remaining + MintedAbove(events, h, k))
  }

  function Reorged(t: Tables, h: int): Tables {
    Tables(GivenBack(KeptTickers(t.tickers, h), t.events, h), UpTo(t.balances, h), UpTo(t.events, h))
  }

  lemma GaveBack(kept: map<string, Ticker>, after: map<string, Ticker>, changes: map<string, nat>,
                 events: seq<Row<Rec>>, h: int)
    requires after.Keys == kept.Keys
    requires forall k :: MintedAbove(events, h, k) == if k in changes then changes[k] else 0
    requires forall k :: k in after ==>
      after[k] == kept[k].(remaining := kept[k].remaining + if k in changes then changes[k] else 0)
    ensures after == GivenBack(kept, events, h)
  {
  }

  /** Nothing stands above the height. */
  predicate Settled(t: Tables, h: int) {
    AllUpTo(t.balances, h) && AllUpTo(t.events, h) && forall k :: k in t.tickers ==> t.tickers[k].deployHeight <= h
  }

  /** The comparison of the residue check: a newest height of 0 never counts. */
  predicate Beyond(newest: Option<int>, h: int) {
    var max := if newest.None? then -1 else newest.value;
    max != 0 && h < max
  }

  lemma BeyondIsNewer<T>(rows: seq<Row<T>>, h: int)
    requires h >= -1
    ensures Beyond(MaxHeight(rows), h) <==> !AllUpTo(rows, if h < 0 then 0 else h)
  {
    MaxHeightBounds(rows, if h < 0 then 0 else h);
  }

  /** The residue check finds rows above the newest indexed block, but for rows of a block at height 0. */
  predicate HasResidue(t: Tables, h: int) {
    !Settled(t, if h < 0 then 0 else h)
  }

  class Database {
    var tickers: map<string, Ticker>
    var balances: seq<Row<BalanceUpdate>>
    var events: seq<Row<Rec>>

    constructor (t: Tables)
      ensures Contents() == t
    {
      tickers, balances, events := t.tickers, t.balances, t.events;
    }

    function Contents(): Tables
      reads this
    {
      Tables(tickers, balances, events)
    }

    /** The newest height in each table, and -1 for an empty one, compared with the newest indexed block. */
    method CheckResidue(h: int) returns (found: bool)
      requires h >= -1
      ensures found <==> HasResidue(Contents(), h)
    {
      var newest := NewestTicker();
      BeyondIsNewer(balances, h);
      BeyondIsNewer(events, h);
      found := Beyond(newest, h) || Beyond(MaxHeight(balances), h) || Beyond(MaxHeight(events), h);
    }

    method NewestTicker() returns (newest: Option<int>)
      ensures newest.None? <==> tickers == map[]
      ensures newest.Some? ==> exists k :: k in tickers && tickers[k].deployHeight == newest.value
      ensures forall k :: k in tickers ==> newest.Some? && tickers[k].deployHeight <= newest.value
    {
      newest := None;
      var todo := tickers.Keys;
      while todo != {}
        invariant todo <= tickers.Keys && (newest.None? <==> todo == tickers.Keys)
        invariant newest.Some? ==> exists k :: k in tickers && tickers[k].deployHeight == newest.value
        invariant forall k :: k in tickers && k !in todo ==> newest.Some? && tickers[k].deployHeight <= newest.value
      {
        var ticker :| ticker in todo;
        if newest.None? || newest.value < tickers[ticker].deployHeight {
          newest := Some(tickers[ticker].deployHeight);
        }
        todo := todo - {ticker};
      }
    }

    method SumMinted(h: int) returns (changes: map<string, nat>)
      ensures forall k :: MintedAbove(events, h, k) == if k in changes then changes[k] else 0
    {
      changes := map[];
      for i := 0 to |events|
        invariant forall k :: MintedAbove(events[..i], h, k) == if k in changes then changes[k] else 0
      {
        assert events[..i + 1][..i] == events[..i];
        var event := events[i].value.event;
        if events[i].height > h && event.MintInscribe? {
          var before := if event.ticker in changes then changes[event.ticker] else 0;
          changes := changes[event.ticker := before + event.amount];
        }
      }
      assert events[..|events|] == events;
    }

    method GiveBack(changes: map<string, nat>)
      modifies this`tickers
      ensures tickers.Keys == old(tickers).Keys
      ensures forall k :: k in tickers ==>
        tickers[k] == old(tickers)[k].(remaining := old(tickers)[k].remaining + if k in changes then changes[k] else 0)
    {
      var todo := changes.Keys;
      while todo != {}
        invariant todo <= changes.Keys && tickers.Keys == old(tickers).Keys
        invariant forall k :: k in tickers ==>
          tickers[k] == old(tickers)[k].(remaining := old(tickers)[k].remaining
                                         + if k in changes && k !in todo then changes[k] else 0)
        decreases |todo|
      {
        var ticker :| ticker in todo;
        if ticker in tickers {
          tickers := tickers[ticker := tickers[ticker].(remaining := tickers[ticker].remaining + changes[ticker])];
        }
        todo := todo - {ticker};
      }
    }

    method Reorg(h: int)
      modifies this
      ensures Contents() == Reorged(old(Contents()), h)
    {
      tickers := KeptTickers(tickers, h);
      ghost var kept := tickers;
      var changes := SumMinted(h);
      GiveBack(changes);
      GaveBack(kept, tickers, changes, events, h);
      balances := UpTo(balances, h);
      events := UpTo(events, h);
    }
  }

  // ---------- one transfer, rolled back ----------

  /** What a transfer writes: its event, and balance rows at its height; the tables then stand for the next ledger. */
  predicate Commits(cfg: Config, step: Step, t: Tables, t': Tables) {
    var g := Generate(cfg, Stands(t), step.height, step.tx);
    && t.balances <= t'.balances
    && (forall i :: |t.balances| <= i < |t'.balances| ==> t'.balances[i].height == step.height)
    && (if g.Emit? then t'.events == t.events + [Row(step.height, g.rec)] else t' == t)
    && Exec(cfg, step.height, Stands(t), step.tx, step.granted) == Ok(Stands(t'))
  }

  lemma {:induction false} AppendedForgotten<T>(rows: seq<Row<T>>, more: seq<Row<T>>, h: int)
    requires forall i :: 0 <= i < |more| ==> more[i].height > h
    ensures UpTo(rows + more, h) == UpTo(rows, h)
  {
    if more == [] {
      assert rows + more == rows;
    } else {
      AppendedForgotten(rows, more[..|more| - 1], h);
      assert rows + more == rows + more[..|more| - 1] + [more[|more| - 1]];
      UpToPush(rows + more[..|more| - 1], more[|more| - 1], h);
    }
  }

  /** What an event does to the tickers. */
  function TickersAfter(cfg: Config, tickers: map<string, Ticker>, height: int, rec: Rec): map<string, Ticker> {
    var e := rec.event;
    if e.DeployInscribe? then
      tickers[e.ticker := Ticker(e.originalTicker, e.maxSupply, e.maxSupply, 0, e.limitPerMint, e.decimals,
                                 e.isSelfMint, height, rec.id)]
    else if e.ticker !in tickers then tickers
    else if e.MintInscribe? && e.amount <= tickers[e.ticker].remaining then
      tickers[e.ticker := tickers[e.ticker].(remaining := tickers[e.ticker].remaining - e.amount)]
    else if e.TransferTransfer? && DestinationOf(cfg, height, e) == Burned then
      tickers[e.ticker := tickers[e.ticker].(burned := tickers[e.ticker].burned + e.amount)]
    else tickers
  }

  lemma ProcessedTickers(cfg: Config, height: int, l: Ledger, rec: Rec, granted: bool)
    requires Process(cfg, height, l, rec, granted).Ok?
    requires rec.event.TransferTransfer? ==> CanSpend(l.log, InscribeKind, TransferKind, rec.id)
    ensures Process(cfg, height, l, rec, granted).value.tickers == TickersAfter(cfg, l.tickers, height, rec)
    ensures rec.event.DeployInscribe? ==> rec.event.ticker !in l.tickers
    ensures rec.event.MintInscribe? ==>
              rec.event.ticker in l.tickers && rec.event.amount <= l.tickers[rec.event.ticker].remaining
  {
  }

  lemma GeneratedCanSpend(cfg: Config, l: Ledger, height: int, tx: Tx)
    requires Generate(cfg, l, height, tx).Emit? && Generate(cfg, l, height, tx).rec.event.TransferTransfer?
    ensures CanSpend(l.log, InscribeKind, TransferKind, Generate(cfg, l, height, tx).rec.id)
    ensures Generate(cfg, l, height, tx).rec.event.ticker in l.tickers
  {
  }

  /** The tickers, but with more burned. */
  function Overburned(cfg: Config, tickers: map<string, Ticker>, events: seq<Row<Rec>>, h: int): map<string, Ticker> {
    map k | k in tickers :: tickers[k].(burned := tickers[k].burned + BurnedAbove(cfg, events, h, k))
  }

  /** One ticker of what rolling back gives; none when it was deployed above the height. */
  function Restored(tickers: map<string, Ticker>, events: seq<Row<Rec>>, h: int, k: string): Option<Ticker> {
    if k in tickers && tickers[k].deployHeight <= h then
      Some(tickers[k].(remaining := tickers[k].remaining + MintedAbove(events, h, k)))
    else None
  }

  /** What rolling back the tickers gives, if nothing but burning is left behind. */
  ghost predicate TickersRestored(cfg: Config, start: map<string, Ticker>, tickers: map<string, Ticker>,
                                  events: seq<Row<Rec>>, h: int) {
    forall k :: TickerRestored(cfg, start, tickers, events, h, k)
  }

  predicate TickerRestored(cfg: Config, start: map<string, Ticker>, tickers: map<string, Ticker>, events: seq<Row<Rec>>,
                           h: int, k: string) {
    Restored(tickers, events, h, k)
      == if k in start then Some(start[k].(burned := start[k].burned + BurnedAbove(cfg, events, h, k))) else None
  }

  lemma RestoredAll(cfg: Config, start: map<string, Ticker>, tickers: map<string, Ticker>, events: seq<Row<Rec>>,
                    h: int)
    requires TickersRestored(cfg, start, tickers, events, h)
    ensures GivenBack(KeptTickers(tickers, h), events, h) == Overburned(cfg, start, events, h)
  {
    var back, over := GivenBack(KeptTickers(tickers, h), events, h), Overburned(cfg, start, events, h);
    forall k ensures (k in back <==> k in over) && (k in back ==> back[k] == over[k]) {
      assert TickerRestored(cfg, start, tickers, events, h, k);
    }
  }

  lemma TickerForgotten(cfg: Config, tickers: map<string, Ticker>, events: seq<Row<Rec>>, h: int, height: int, rec: Rec,
                        k: string)
    requires height > h
    requires rec.event.DeployInscribe? ==> rec.event.ticker !in tickers
    requires rec.event.MintInscribe? ==>
               rec.event.ticker in tickers && rec.event.amount <= tickers[rec.event.ticker].remaining
    ensures var r := Row(height, rec);
            Restored(TickersAfter(cfg, tickers, height, rec), events + [r], h, k)
              == match Restored(tickers, events, h, k)
                 case None => None
                 case Some(t) => Some(t.(burned := t.burned + BurnIn(cfg, r, h, k)))
  {
    AbovePush(cfg, events, Row(height, rec), h, k);
  }

  lemma EventForgotten(cfg: Config, start: map<string, Ticker>, tickers: map<string, Ticker>, events: seq<Row<Rec>>,
                       h: int, height: int, rec: Rec)
    requires TickersRestored(cfg, start, tickers, events, h) && height > h
    requires rec.event.DeployInscribe? ==> rec.event.ticker !in tickers
    requires rec.event.MintInscribe? ==>
               rec.event.ticker in tickers && rec.event.amount <= tickers[rec.event.ticker].remaining
    ensures TickersRestored(cfg, start, TickersAfter(cfg, tickers, height, rec), events + [Row(height, rec)], h)
  {
    var events' := events + [Row(height, rec)];
    var tickers' := TickersAfter(cfg, tickers, height, rec);
    forall k ensures TickerRestored(cfg, start, tickers', events', h, k) {
      AbovePush(cfg, events, Row(height, rec), h, k);
      TickerForgotten(cfg, tickers, events, h, height, rec, k);
      assert TickerRestored(cfg, start, tickers, events, h, k);
    }
  }

  // ---------- a run, rolled back ----------

  /** The tables after each of the transfers. */
  ghost predicate Trace(cfg: Config, steps: seq<Step>, ts: seq<Tables>) {
    |ts| == |steps| + 1 && forall i :: 0 <= i < |steps| ==> Commits(cfg, steps[i], ts[i], ts[i + 1])
  }

  ghost predicate Undone(cfg: Config, start: Tables, t: Tables, h: int) {
    UpTo(t.balances, h) == start.balances && UpTo(t.events, h) == start.events
    && TickersRestored(cfg, start.tickers, t.tickers, t.events, h)
  }

  lemma SettledIsUndone(cfg: Config, start: Tables, h: int)
    requires Settled(start, h)
    ensures Undone(cfg, start, start, h)
  {
    UpToAll(start.balances, h);
    UpToAll(start.events, h);
    forall k ensures TickerRestored(cfg, start.tickers, start.tickers, start.events, h, k) {
      NothingAbove(cfg, start.events, h, k);
    }
  }

  lemma CommittedTickers(cfg: Config, step: Step, t: Tables, t': Tables)
    requires Commits(cfg, step, t, t') && Generate(cfg, Stands(t), step.height, step.tx).Emit?
    ensures var rec := Generate(cfg, Stands(t), step.height, step.tx).rec;
            && t'.tickers == TickersAfter(cfg, t.tickers, step.height, rec)
            && (rec.event.DeployInscribe? ==> rec.event.ticker !in t.tickers)
            && (rec.event.MintInscribe? ==>
                  rec.event.ticker in t.tickers && rec.event.amount <= t.tickers[rec.event.ticker].remaining)
  {
    var l := Stands(t);
    var rec := Generate(cfg, l, step.height, step.tx).rec;
    if rec.event.TransferTransfer? {
      GeneratedCanSpend(cfg, l, step.height, step.tx);
    }
    ProcessedTickers(cfg, step.height, l, rec, step.granted);
  }

  lemma RowsForgotten(step: Step, t: Tables, t': Tables, rec: Rec, h: int)
    requires step.height > h && t'.events == t.events + [Row(step.height, rec)] && t.balances <= t'.balances
    requires forall i :: |t.balances| <= i < |t'.balances| ==> t'.balances[i].height == step.height
    ensures UpTo(t'.events, h) == UpTo(t.events, h) && UpTo(t'.balances, h) == UpTo(t.balances, h)
  {
    UpToPush(t.events, Row(step.height, rec), h);
    AppendedForgotten(t.balances, t'.balances[|t.balances|..], h);
    assert t.balances + t'.balances[|t.balances|..] == t'.balances;
  }

  lemma CommitForgotten(cfg: Config, start: Tables, h: int, step: Step, t: Tables, t': Tables)
    requires Undone(cfg, start, t, h) && step.height > h && Commits(cfg, step, t, t')
    ensures Undone(cfg, start, t', h)
  {
    var g := Generate(cfg, Stands(t), step.height, step.tx);
    if g.Emit? {
      CommittedTickers(cfg, step, t, t');
      EventForgotten(cfg, start.tickers, t.tickers, t.events, h, step.height, g.rec);
      RowsForgotten(step, t, t', g.rec, h);
    }
  }

  lemma {:induction false} RunForgotten(cfg: Config, h: int, steps: seq<Step>, ts: seq<Tables>)
    requires Trace(cfg, steps, ts) && Settled(ts[0], h)
    requires forall i :: 0 <= i < |steps| ==> steps[i].height > h
    ensures Undone(cfg, ts[0], ts[|steps|], h)
  {
    if steps == [] {
      SettledIsUndone(cfg, ts[0], h);
    } else {
      RunForgotten(cfg, h, steps[..|steps| - 1], ts[..|steps|]);
      CommitForgotten(cfg, ts[0], h, steps[|steps| - 1], ts[|steps| - 1], ts[|steps|]);
    }
  }

  /** Rolling back any run above a height restores balances and events, and every ticker but for what was burned. */
  lemma RollbackRestores(cfg: Config, h: int, steps: seq<Step>, ts: seq<Tables>)
    requires Trace(cfg, steps, ts) && Settled(ts[0], h)
    requires forall i :: 0 <= i < |steps| ==> steps[i].height > h
    ensures Reorged(ts[|steps|], h) == ts[0].(tickers := Overburned(cfg, ts[0].tickers, ts[|steps|].events, h))
  {
    RunForgotten(cfg, h, steps, ts);
    RestoredAll(cfg, ts[0].tickers, ts[|steps|].tickers, ts[|steps|].events, h);
  }

  predicate NothingBurned(cfg: Config, tickers: map<string, Ticker>, events: seq<Row<Rec>>, h: int) {
    forall k :: k in tickers ==> BurnedAbove(cfg, events, h, k) == 0
  }

  lemma OverburnedIsSame(cfg: Config, tickers: map<string, Ticker>, events: seq<Row<Rec>>, h: int)
    ensures Overburned(cfg, tickers, events, h) == tickers <==> NothingBurned(cfg, tickers, events, h)
  {
    var over := Overburned(cfg, tickers, events, h);
    forall k | k in tickers ensures over[k] == tickers[k] <==> BurnedAbove(cfg, events, h, k) == 0 {
      assert over[k].burned == tickers[k].burned + BurnedAbove(cfg, events, h, k);
    }
  }

  /** So it is the inverse of indexing if and only if nothing of an older ticker was burned above the height. */
  lemma RollbackIsInverse(cfg: Config, h: int, steps: seq<Step>, ts: seq<Tables>)
    requires Trace(cfg, steps, ts) && Settled(ts[0], h)
    requires forall i :: 0 <= i < |steps| ==> steps[i].height > h
    ensures Reorged(ts[|steps|], h) == ts[0] <==> NothingBurned(cfg, ts[0].tickers, ts[|steps|].events, h)
  {
    RollbackRestores(cfg, h, steps, ts);
    OverburnedIsSame(cfg, ts[0].tickers, ts[|steps|].events, h);
  }

  /** The same of one transfer. */
  lemma StepIsInverse(cfg: Config, h: int, step: Step, t: Tables, t': Tables)
    requires Commits(cfg, step, t, t') && Settled(t, h) && step.height > h
    ensures Reorged(t', h) == t <==> NothingBurned(cfg, t.tickers, t'.events, h)
  {
    var steps, ts := [step], [t, t'];
    assert Trace(cfg, steps, ts);
    RollbackIsInverse(cfg, h, steps, ts);
  }

  /** What it takes to commit an event. */
  lemma CommitsSo(cfg: Config, step: Step, t: Tables, t': Tables, rec: Rec)
    requires Generate(cfg, Stands(t), step.height, step.tx) == Emit(rec)
    requires Process(cfg, step.height, Stands(t), rec, step.granted) == Ok(Stands(t'))
    requires t.balances <= t'.balances && t'.events == t.events + [Row(step.height, rec)]
    requires forall i :: |t.balances| <= i < |t'.balances| ==> t'.balances[i].height == step.height
    ensures Commits(cfg, step, t, t')
  {
  }

  /** After the rollback the supply of every ticker is overstated by exactly what was burned. */
  lemma SupplyOverstated(cfg: Config, h: int, steps: seq<Step>, ts: seq<Tables>, k: string)
    requires Trace(cfg, steps, ts) && Settled(ts[0], h) && Inv(cfg, Stands(ts[0])) && k in ts[0].tickers
    requires forall i :: 0 <= i < |steps| ==> steps[i].height > h
    ensures var l := Stands(Reorged(ts[|steps|], h));
            k in l.tickers && Total(l.balances, k) + l.tickers[k].burned + l.tickers[k].remaining
                              == l.tickers[k].maxSupply + BurnedAbove(cfg, ts[|steps|].events, h, k)
  {
    RollbackRestores(cfg, h, steps, ts);
    var l := Stands(ts[0]);
    assert Accounted(l.tickers[k], Total(l.balances, k));
  }

}
