/** Rolling the POW-20 tables back to a height undoes every transaction committed above it. */
module Pow20Rollback {
  import opened Wrappers
  import opened Rows
  import opened Pow20Ledger

  /** The amount of a ticker minted by the event rows above a height. */
  function MintedAbove(events: seq<Row<EventRec>>, h: int, tick: string): nat {
    if events == [] then 0
    else
      var last := events[|events| - 1];
      MintedAbove(events[..|events| - 1], h, tick)
      + if last.height > h && last.value.event.MintInscribe? && last.value.event.tick == tick
        then last.value.event.amount else 0
  }

  function TickersBack(t: Tables, h: int): map<string, Ticker> {
    map k | k in t.tickers && t.tickers[k].height <= h ::
      t.tickers[k].(remaining := t.tickers[k].remaining + MintedAbove(t.events, h, k))
  }

  /** reorg_fix: delete the rows above h and return minted amounts to the surviving tickers. */
  function Rollback(t: Tables, h: int): Tables {
    Tables(UpTo(t.events, h), TickersBack(t, h), UpTo(t.balances, h), UpTo(t.hashes, h), UpTo(t.blocks, h))
  }

  /** No table has a row above h. */
  predicate Bounded(t: Tables, h: int) {
    && AllUpTo(t.events, h) && AllUpTo(t.balances, h) && AllUpTo(t.hashes, h) && AllUpTo(t.blocks, h)
    && forall k :: k in t.tickers ==> t.tickers[k].height <= h
  }

  lemma {:induction false} NothingMintedAbove(events: seq<Row<EventRec>>, h: int, tick: string)
    requires AllUpTo(events, h)
    ensures MintedAbove(events, h, tick) == 0
  {
    if events != [] {
      NothingMintedAbove(events[..|events| - 1], h, tick);
    }
  }

  lemma {:induction false} MintedAboveTwice(events: seq<Row<EventRec>>, h: int, g: int, tick: string)
    requires g <= h
    ensures MintedAbove(UpTo(events, h), g, tick) + MintedAbove(events, h, tick) == MintedAbove(events, g, tick)
  {
    if events != [] {
      var front, last := events[..|events| - 1], events[|events| - 1];
      MintedAboveTwice(front, h, g, tick);
      if last.height <= h {
        MintedAbovePush(UpTo(front, h), last, g, tick);
      }
    }
  }

  lemma MintedAbovePush(events: seq<Row<EventRec>>, r: Row<EventRec>, h: int, tick: string)
    ensures MintedAbove(events + [r], h, tick)
              == MintedAbove(events, h, tick)
                 + if r.height > h && r.value.event.MintInscribe? && r.value.event.tick == tick
                   then r.value.event.amount else 0
  {
    assert (events + [r])[..|events|] == events;
  }

  /** Rolling back a state that has nothing above h changes nothing. */
  lemma RollbackOfBounded(t: Tables, h: int)
    requires Bounded(t, h)
    ensures Rollback(t, h) == t
  {
    UpToAll(t.events, h);
    UpToAll(t.balances, h);
    UpToAll(t.hashes, h);
    UpToAll(t.blocks, h);
    forall k | k in t.tickers ensures MintedAbove(t.events, h, k) == 0 {
      NothingMintedAbove(t.events, h, k);
    }
    assert TickersBack(t, h) == t.tickers;
  }

  lemma RollbackIsBounded(t: Tables, h: int)
    ensures Bounded(Rollback(t, h), h)
  {
    UpToBounded(t.events, h);
    UpToBounded(t.balances, h);
    UpToBounded(t.hashes, h);
    UpToBounded(t.blocks, h);
  }

  /** Rolling back in two stages is rolling back at once. */
  lemma RollbackTwice(t: Tables, h: int, g: int)
    requires g <= h
    ensures Rollback(Rollback(t, h), g) == Rollback(t, g)
  {
    UpToTwice(t.events, h, g);
    UpToTwice(t.balances, h, g);
    UpToTwice(t.hashes, h, g);
    UpToTwice(t.blocks, h, g);
    forall k ensures MintedAbove(UpTo(t.events, h), g, k) + MintedAbove(t.events, h, k)
                     == MintedAbove(t.events, g, k) {
      MintedAboveTwice(t.events, h, g, k);
    }
    assert TickersBack(Rollback(t, h), g) == TickersBack(t, g);
  }

  /** One transaction above h is invisible to a rollback to h. */
  lemma RollbackAbsorbsStep(t: Tables, height: int, s: Step, h: int)
    requires CanApply(t, s) && h < height
    ensures Rollback(Apply(t, height, s), h) == Rollback(t, h)
  {
    UpToPush(t.events, Row(height, EventRec(s.inscriptionId, EventOf(t, s))), h);
    BalanceRowsAbsorbed(t, height, s, h);
    TickersAbsorbed(t, height, s, h);
  }

  function MintOf(s: Step, tick: string): nat {
    if s.Mint? && s.tick == tick then s.amount else 0
  }

  lemma MintedByStep(t: Tables, height: int, s: Step, h: int, tick: string)
    requires CanApply(t, s) && h < height
    ensures MintedAbove(Apply(t, height, s).events, h, tick) == MintedAbove(t.events, h, tick) + MintOf(s, tick)
  {
    MintedAbovePush(t.events, Row(height, EventRec(s.inscriptionId, EventOf(t, s))), h, tick);
  }

  lemma TickersAbsorbed(t: Tables, height: int, s: Step, h: int)
    requires CanApply(t, s) && h < height
    ensures TickersBack(Apply(t, height, s), h) == TickersBack(t, h)
  {
    var after, back, back' := TickersAfter(t, height, s), TickersBack(t, h), TickersBack(Apply(t, height, s), h);
    forall k ensures k in back' <==> k in back {}
    forall k | k in back ensures back'[k] == back[k] {
      MintedByStep(t, height, s, h, k);
      assert after[k].remaining == t.tickers[k].remaining - MintOf(s, k);
    }
  }

  lemma BalanceRowsAbsorbed(t: Tables, height: int, s: Step, h: int)
    requires CanApply(t, s) && h < height
    ensures UpTo(t.balances + BalanceRowsOf(t, height, s), h) == UpTo(t.balances, h)
  {
    var rows := BalanceRowsOf(t, height, s);
    if |rows| == 0 {
      assert t.balances + rows == t.balances;
    } else if |rows| == 1 {
      assert rows == [rows[0]];
      UpToPush(t.balances, rows[0], h);
    } else {
      assert t.balances + rows == (t.balances + [rows[0]]) + [rows[1]];
      UpToPush(t.balances, rows[0], h);
      UpToPush(t.balances + [rows[0]], rows[1], h);
    }
  }

  /** A sequence of transactions, each at its own height. */
  function ApplyAll(t: Tables, steps: seq<(int, Step)>): Option<Tables> {
    if steps == [] then Some(t)
    else
      match ApplyAll(t, steps[..|steps| - 1])
      case None => None
      case Some(u) =>
        var (height, s) := steps[|steps| - 1];
        if CanApply(u, s) then Some(Apply(u, height, s)) else None
  }

  /** Rollback is an inverse: from a state with nothing above h, any run of deploys, mints and
      transfers above h followed by a rollback to h restores every table, remaining supplies
      included. */
  lemma {:induction false} RollbackIsInverse(t: Tables, steps: seq<(int, Step)>, h: int)
    requires Bounded(t, h)
    requires forall i :: 0 <= i < |steps| ==> steps[i].0 > h
    requires ApplyAll(t, steps).Some?
    ensures Rollback(ApplyAll(t, steps).value, h) == t
  {
    if steps == [] {
      RollbackOfBounded(t, h);
    } else {
      var front := steps[..|steps| - 1];
      var (height, s) := steps[|steps| - 1];
      RollbackIsInverse(t, front, h);
      RollbackAbsorbsStep(ApplyAll(t, front).value, height, s, h);
    }
  }

}
