/** POW-20 supply is conserved: what all accounts hold of a ticker and what is left to mint make up its maximum
    supply, in every replay, and so through every crash and reorganization. */
module Pow20Supply {
  import opened Wrappers
  import opened MapSums
  import opened Rows
  import opened Sequences
  import opened Balances
  import opened Pow20Ledger
  import opened Pow20Rollback
  import opened Pow20Blocks
  import opened Pow20Regular
  import opened Pow20Extras
  import F = ChainFollower
  import opened Pow20Run
  import opened Pow20Induction

  // ---------- the total of a ticker over all accounts ----------

  function Share(tick: string): (Account, CurrentRow) -> int {
    (k: Account, c: CurrentRow) => if k.1 == tick then c.balance.overall else 0
  }

  // ---------- appending rows ----------

  /** What all accounts hold of a ticker. */
  ghost function Held(rows: seq<Row<BalanceRec>>, tick: string): int {
    Total(CurrentFrom(rows), Share(tick))
  }

  lemma BalanceIsHeld(rows: seq<Row<BalanceRec>>, pk: string, tick: string)
    requires Ascending(rows)
    ensures BalanceOf(rows, pk, tick).overall == At(CurrentFrom(rows), (pk, tick), Share(tick))
  {
    NewestIsLastInserted(rows, pk, tick);
    CurrentIsLastInserted(rows, (pk, tick));
  }

  /** A new row that adjusts its account's balance adjusts its ticker's total, and no other. */
  lemma AppendShifts(rows: seq<Row<BalanceRec>>, pk: string, wallet: Option<string>, tick: string, overallBy: int,
                     availableBy: int, height: int, k: string)
    requires Ascending(rows)
    ensures var row := AdjustedRow(BalanceOf(rows, pk, tick), pk, wallet, tick, overallBy, availableBy, height);
            Held(rows + [row], k) == Held(rows, k) + if k == tick then overallBy else 0
  {
    var row := AdjustedRow(BalanceOf(rows, pk, tick), pk, wallet, tick, overallBy, availableBy, height);
    assert (rows + [row])[..|rows|] == rows;
    BalanceIsHeld(rows, pk, tick);
    TotalUpdate(CurrentFrom(rows), (pk, tick), CurrentOf(row), Share(k));
  }

  lemma DebitShifts(rows: seq<Row<BalanceRec>>, debit: Row<BalanceRec>, wallet: Option<string>, amount: nat, k: string)
    requires Ascending(rows) && AllUpTo(rows, debit.height)
    requires var (pk, tick) := AccountOf(debit);
             debit == AdjustedRow(BalanceOf(rows, pk, tick), pk, wallet, tick, 0 - amount, 0, debit.height)
    ensures Held(rows + [debit], k) == Held(rows, k) - if k == debit.value.tick then amount else 0
    ensures Ascending(rows + [debit])
  {
    AppendShifts(rows, debit.value.pkscript, wallet, debit.value.tick, 0 - amount, 0, debit.height, k);
  }

  /** A transfer moves the amount and changes no total, also when it goes back to its source. */
  lemma MoveShifts(rows: seq<Row<BalanceRec>>, source: string, sourceWallet: Option<string>, spent: string,
                   spentWallet: Option<string>, tick: string, amount: nat, height: int, k: string)
    requires Ascending(rows) && AllUpTo(rows, height)
    ensures Held(rows + MovedRows(rows, source, sourceWallet, spent, spentWallet, tick, amount, height), k)
              == Held(rows, k)
  {
    var debit := AdjustedRow(BalanceOf(rows, source, tick), source, sourceWallet, tick, 0 - amount, 0, height);
    var credit := AdjustedRow(BalanceOf(rows + [debit], spent, tick), spent, spentWallet, tick, amount, amount, height);
    MovedOneByOne(rows, source, sourceWallet, spent, spentWallet, tick, amount, height);
    Associates(rows, [debit], [credit]);
    DebitShifts(rows, debit, sourceWallet, amount, k);
    AppendShifts(rows + [debit], spent, spentWallet, tick, amount, amount, height, k);
  }

  function MintedBy(s: Step, k: string): nat {
    if s.Mint? && s.tick == k then s.amount else 0
  }

  /** Of all five transactions only a mint changes a total. */
  lemma StepShifts(t: Tables, height: int, s: Step, k: string)
    requires CanApply(t, s) && Ascending(t.balances) && AllUpTo(t.balances, height)
    ensures Held(t.balances + BalanceRowsOf(t, height, s), k) == Held(t.balances, k) + MintedBy(s, k)
  {
    match s
    case Deploy(_, _, _, _, _, _, _, _, _) => assert t.balances + [] == t.balances;
    case Mint(_, pk, wallet, tick, amount, _) => AppendShifts(t.balances, pk, wallet, tick, amount, amount, height, k);
    case Inscribe(_, pk, wallet, tick, amount) => AppendShifts(t.balances, pk, wallet, tick, 0, 0 - amount, height, k);
    case Move(id, pk, wallet, tick, amount, _) =>
      var e := FindEvent(t.events, InscribeKind, id).value;
      MoveShifts(t.balances, e.sourcePkscript, e.sourceWallet, pk, wallet, tick, amount, height, k);
    case SpendToFee(id, tick, amount, _) =>
      var e := FindEvent(t.events, InscribeKind, id).value;
      AppendShifts(t.balances, e.sourcePkscript, e.sourceWallet, tick, 0, amount, height, k);
  }

  // ---------- the invariant ----------

  predicate Accounted(ticker: Ticker, held: int) {
    held + ticker.remaining == ticker.maxSupply && 0 <= ticker.remaining
  }

  predicate OnlyDeployed(t: Tables) {
    forall r :: r in t.balances ==> r.value.tick in t.tickers
  }

  ghost predicate Conserved(t: Tables) {
    OnlyDeployed(t) && forall k :: k in t.tickers ==> Accounted(t.tickers[k], Held(t.balances, k))
  }

  /** A mint is clamped to what is left. */
  predicate Covered(t: Tables, s: Step) {
    s.Mint? ==> s.tick in t.tickers && s.amount <= t.tickers[s.tick].remaining
  }

  lemma DecidedIsCovered(env: Env, t: Tables, height: int, tr: Transfer)
    ensures var d := Decide(env, t, height, tr); d.Commit? ==> Covered(t, d.step)
  {
  }

  lemma UndeployedHoldsNothing(t: Tables, tick: string)
    requires OnlyDeployed(t) && tick !in t.tickers
    ensures Held(t.balances, tick) == 0
  {
    forall k | k in CurrentFrom(t.balances) ensures k.1 != tick {
      var i := CurrentComesFromARow(t.balances, k);
      assert t.balances[i] in t.balances;
    }
    TotalOfNothing(CurrentFrom(t.balances), Share(tick));
  }

  lemma RowsAreOfTheStep(t: Tables, height: int, s: Step)
    requires CanApply(t, s) && OnlyDeployed(t)
    ensures OnlyDeployed(Apply(t, height, s))
  {
    var rows, after := BalanceRowsOf(t, height, s), Apply(t, height, s);
    RowsOfStep(t, height, s);
    forall r | r in after.balances ensures r.value.tick in after.tickers {
      if r in rows {
        var i :| 0 <= i < |rows| && rows[i] == r;
      }
    }
  }

  lemma StepConserves(t: Tables, height: int, s: Step)
    requires Conserved(t) && Ascending(t.balances) && AllUpTo(t.balances, height)
    requires CanApply(t, s) && Covered(t, s)
    ensures Conserved(Apply(t, height, s))
  {
    var after := Apply(t, height, s);
    RowsAreOfTheStep(t, height, s);
    forall k | k in after.tickers ensures Accounted(after.tickers[k], Held(after.balances, k)) {
      StepShifts(t, height, s, k);
      if k in t.tickers {
        assert Accounted(t.tickers[k], Held(t.balances, k));
      } else {
        UndeployedHoldsNothing(t, k);
      }
    }
  }

  // ---------- whole replays ----------

  lemma AdvanceConserves(env: Env, c: Cursor, height: int, tr: Transfer)
    requires Conserved(c.tables) && Regular(c.tables) && Bounded(c.tables, height)
    ensures Conserved(Pow20Rules(env).advance(c, height, tr).cursor.tables)
  {
    DecideIsApplicable(env, c.tables, height, tr);
    DecidedIsCovered(env, c.tables, height, tr);
    var d := Decide(env, c.tables, height, tr);
    if d.Commit? {
      StepConserves(c.tables, height, d.step);
    }
  }

  /** In every replay, what all accounts hold of a ticker and what is left to mint make up its maximum supply. By the
      whole-run theorem the same holds whenever a block starts to be indexed. */
  lemma SupplyIsConserved(env: Env, first: int, chain: seq<Block>, t: Tables, tick: string)
    requires F.Replay(Pow20Machine(env, first), chain) == Some(t) && tick in t.tickers
    ensures Held(t.balances, tick) + t.tickers[tick].remaining == t.tickers[tick].maxSupply
    ensures 0 <= t.tickers[tick].remaining
  {
    var P: Tables -> bool := t => Conserved(t);
    forall c: Cursor, height, tr ensures KeptAt(env, P, c, height, tr) {
      if Conserved(c.tables) && Regular(c.tables) && Bounded(c.tables, height) {
        AdvanceConserves(env, c, height, tr);
      }
    }
    HoldsOfReplays(env, first, P, chain, t);
    assert Accounted(t.tickers[tick], Held(t.balances, tick));
  }

}
