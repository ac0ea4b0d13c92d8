/** What a node does for a recorded event: it moves balances through the database. Amounts are unsigned
    128-bit numbers; that no operation leaves that range is part of what is verified. */
module Brc20Node {
  import opened Wrappers
  import opened Amounts
  import opened Brc20Ledger
  import opened Brc20Invariants
  import opened Brc20Database
  import opened Brc20Store

  type u128 = x: nat | x <= U128_MAX

  predicate SmallBalance(b: Balance) {
    b.overall <= MAX_AMOUNT && b.available <= MAX_AMOUNT
  }

  ghost predicate Small(balances: map<Account, Balance>, ticker: string) {
    forall pk :: SmallBalance(BalanceOf(balances, ticker, pk))
  }

  /** Sums of two small quantities fit 128 bits, and so does everything in a sound ledger. */
  lemma SoundIsSmall(l: Ledger, ticker: string)
    requires Sound(l)
    ensures Small(l.balances, ticker)
    ensures ticker in l.tickers ==> l.tickers[ticker].burned <= MAX_AMOUNT
    ensures MAX_AMOUNT + MAX_AMOUNT <= U128_MAX
  {
    forall pk ensures SmallBalance(BalanceOf(l.balances, ticker, pk)) {
      Bounds(l, ticker, pk);
    }
    if ticker in l.tickers {
      Bounds(l, ticker, "");
    }
  }

  method Credit(db: Store, height: int, ticker: string, pk: Pkscript, overall: u128, available: u128)
    requires db.BalancesOk() && db.RowsUpTo(height)
    requires SmallBalance(BalanceOf(db.View().balances, ticker, pk)) && overall <= MAX_AMOUNT && available <= MAX_AMOUNT
    modifies db`balanceCache, db`balanceUpdates
    ensures db.BalancesOk() && db.RowsUpTo(height)
    ensures db.View() == old(db.View()).(balances := AddTo(old(db.View().balances), ticker, pk, overall, available))
  {
    ghost var balances := db.View().balances;
    var b := db.GetBalance(ticker, pk);
    assert AddTo(balances, ticker, pk, overall, available)
        == balances[(ticker, pk) := Balance(b.overall + overall, b.available + available)];
    var newOverall: u128, newAvailable: u128 := b.overall + overall, b.available + available;
    db.UpdateBalance(ticker, pk, Balance(newOverall, newAvailable), height);
  }

  method Debit(db: Store, height: int, ticker: string, pk: Pkscript, overall: u128, available: u128)
    requires db.BalancesOk() && db.RowsUpTo(height)
    requires CanTake(db.View().balances, ticker, pk, overall, available)
    requires SmallBalance(BalanceOf(db.View().balances, ticker, pk))
    modifies db`balanceCache, db`balanceUpdates
    ensures db.BalancesOk() && db.RowsUpTo(height)
    ensures db.View() == old(db.View()).(balances := TakeFrom(old(db.View().balances), ticker, pk, overall, available))
  {
    ghost var balances := db.View().balances;
    var b := db.GetBalance(ticker, pk);
    assert TakeFrom(balances, ticker, pk, overall, available)
        == balances[(ticker, pk) := Balance(b.overall - overall, b.available - available)];
    var newOverall: u128, newAvailable: u128 := b.overall - overall, b.available - available;
    db.UpdateBalance(ticker, pk, Balance(newOverall, newAvailable), height);
  }

  /** Taking the amount from the source, then adding it to another account, which may be the source. */
  method MoveTo(db: Store, height: int, ticker: string, source: Pkscript, target: Pkscript, amount: u128,
                available: u128)
    requires db.BalancesOk() && db.RowsUpTo(height)
    requires Small(db.View().balances, ticker) && amount <= MAX_AMOUNT && available <= amount
    requires CanTake(db.View().balances, ticker, source, amount, available)
    modifies db`balanceCache, db`balanceUpdates
    ensures db.BalancesOk() && db.RowsUpTo(height)
    ensures db.View() == old(db.View()).(balances :=
              AddTo(TakeFrom(old(db.View().balances), ticker, source, amount, available), ticker, target, amount,
                    amount))
  {
    assert SmallBalance(BalanceOf(db.View().balances, ticker, source));
    assert SmallBalance(BalanceOf(db.View().balances, ticker, target));
    Debit(db, height, ticker, source, amount, available);
    Credit(db, height, ticker, target, amount, amount);
  }

  method Burn(db: Store, height: int, ticker: string, source: Pkscript, amount: u128) returns (ok: bool)
    requires db.BalancesOk() && db.TickersOk() && db.RowsUpTo(height)
    requires CanTake(db.View().balances, ticker, source, amount, 0) && amount <= MAX_AMOUNT
    requires SmallBalance(BalanceOf(db.View().balances, ticker, source))
    requires ticker in db.View().tickers ==> db.View().tickers[ticker].burned <= MAX_AMOUNT
    modifies db`balanceCache, db`balanceUpdates, db`tickers, db`tickerUpdates
    ensures ok <==> ticker in old(db.View().tickers)
    ensures db.BalancesOk() && db.TickersOk() && db.RowsUpTo(height)
    ensures ok ==> var t := old(db.View().tickers)[ticker];
                   db.View() == old(db.View()).(
                     balances := TakeFrom(old(db.View().balances), ticker, source, amount, 0),
                     tickers := old(db.View().tickers)[ticker := t.(burned := t.burned + amount)])
  {
    ghost var l := db.View();
    Debit(db, height, ticker, source, amount, 0);
    ghost var debited := db.View();
    assert debited == l.(balances := TakeFrom(l.balances, ticker, source, amount, 0));
    var found := db.GetTicker(ticker);
    if found.None? {
      return false;
    }
    var t := found.value;
    var burned: u128 := t.burned + amount;
    ok := db.UpdateTicker(ticker, t.(burned := burned));
    assert db.View() == debited.(tickers := debited.tickers[ticker := t.(burned := burned)]);
  }

  // ---------- the processor ----------

  method ProcessDeployInscribe(db: Store, height: int, id: InscriptionId, e: Event) returns (ok: bool)
    requires db.TickersOk() && e.DeployInscribe?
    modifies db`tickers, db`newTickers
    ensures db.TickersOk() && (ok <==> e.ticker !in old(db.View().tickers))
    ensures ok ==> db.View() == old(db.View()).(tickers := old(db.View().tickers)[e.ticker :=
              Ticker(e.originalTicker, e.maxSupply, e.maxSupply, 0, e.limitPerMint, e.decimals, e.isSelfMint, height,
                     id)])
  {
    ok := db.AddTicker(e.ticker, Ticker(e.originalTicker, e.maxSupply, e.maxSupply, 0, e.limitPerMint, e.decimals,
                                        e.isSelfMint, height, id));
  }

  method ProcessMintInscribe(db: Store, height: int, e: Event) returns (ok: bool)
    requires db.BalancesOk() && db.TickersOk() && db.RowsUpTo(height) && e.MintInscribe?
    requires e.amount <= MAX_AMOUNT && SmallBalance(BalanceOf(db.View().balances, e.ticker, e.mintedPkscript))
    requires e.ticker in db.View().tickers ==> e.amount <= db.View().tickers[e.ticker].remaining <= MAX_AMOUNT
    modifies db`tickers, db`tickerUpdates, db`balanceCache, db`balanceUpdates
    ensures ok <==> e.ticker in old(db.View().tickers)
    ensures db.BalancesOk() && db.TickersOk() && db.RowsUpTo(height)
    ensures ok ==> var t := old(db.View().tickers)[e.ticker];
                   db.View() == old(db.View()).(
                     tickers := old(db.View().tickers)[e.ticker := t.(remaining := t.remaining - e.amount)],
                     balances := AddTo(old(db.View().balances), e.ticker, e.mintedPkscript, e.amount, e.amount))
  {
    var found := db.GetTicker(e.ticker);
    if found.None? {
      return false;
    }
    var ticker := found.value;
    var remaining: u128 := ticker.remaining - e.amount;
    ghost var l := db.View();
    ok := db.UpdateTicker(e.ticker, ticker.(remaining := remaining));
    ghost var taken := db.View();
    assert taken == l.(tickers := l.tickers[e.ticker := ticker.(remaining := remaining)]);
    Credit(db, height, e.ticker, e.mintedPkscript, e.amount, e.amount);
    assert db.View() == taken.(balances := AddTo(taken.balances, e.ticker, e.mintedPkscript, e.amount, e.amount));
  }

  method ProcessTransferInscribe(db: Store, height: int, id: InscriptionId, e: Event) returns (ok: bool)
    requires db.BalancesOk() && db.RowsUpTo(height) && e.TransferInscribe?
    requires SmallBalance(BalanceOf(db.View().balances, e.ticker, e.sourcePkscript))
    modifies db`transferValidity, db`balanceCache, db`balanceUpdates
    ensures ok <==> CanTake(old(db.View().balances), e.ticker, e.sourcePkscript, 0, e.amount)
    ensures db.BalancesOk() && db.RowsUpTo(height)
    ensures ok ==>
              db.View() == old(db.View()).(
                balances := TakeFrom(old(db.View().balances), e.ticker, e.sourcePkscript, 0, e.amount))
    ensures db.transferValidity == old(db.transferValidity)[id := Validity.Valid]
  {
    db.SetTransferValidity(id, Validity.Valid);
    var b := db.GetBalance(e.ticker, e.sourcePkscript);
    if b.available < e.amount {
      return false;
    }
    Debit(db, height, e.ticker, e.sourcePkscript, 0, e.amount);
    return true;
  }

  /** What settling needs of the state. */
  ghost predicate Settleable(db: Store, height: int, l: Ledger, e: Event)
    reads db
  {
    && db.BalancesOk() && db.TickersOk() && db.RowsUpTo(height) && db.View() == l
    && e.TransferTransfer? && e.amount <= MAX_AMOUNT && Small(l.balances, e.ticker)
    && (e.ticker in l.tickers ==> l.tickers[e.ticker].burned <= MAX_AMOUNT)
    && CanTake(l.balances, e.ticker, e.sourcePkscript, e.amount, 0)
  }

  method SettleAtSource(db: Store, cfg: Config, height: int, e: Event, ghost l: Ledger, ghost settled: Result<Ledger>)
    requires Settleable(db, height, l, e) && settled == ProcessTransfer(cfg, height, l, e)
    requires DestinationOf(cfg, height, e) == ToSource
    modifies db`balanceCache, db`balanceUpdates
    ensures db.BalancesOk() && db.RowsUpTo(height) && settled == Ok(db.View())
  {
    assert SmallBalance(BalanceOf(l.balances, e.ticker, e.sourcePkscript));
    Credit(db, height, e.ticker, e.sourcePkscript, 0, e.amount);
  }

  method SettleAtTarget(db: Store, cfg: Config, height: int, e: Event, target: Pkscript, ghost l: Ledger,
                        ghost settled: Result<Ledger>)
    requires Settleable(db, height, l, e) && settled == ProcessTransfer(cfg, height, l, e)
    requires var d := DestinationOf(cfg, height, e);
             d == ToPkscript(target) || (d == ToModule && target == MODULE_PKSCRIPT)
    modifies db`balanceCache, db`balanceUpdates
    ensures db.BalancesOk() && db.RowsUpTo(height) && settled == Ok(db.View())
  {
    MoveTo(db, height, e.ticker, e.sourcePkscript, target, e.amount, 0);
  }

  function BurnedLedger(l: Ledger, e: Event): Result<Ledger>
    requires e.TransferTransfer? && CanTake(l.balances, e.ticker, e.sourcePkscript, e.amount, 0)
  {
    if e.ticker !in l.tickers then Err
    else
      var t := l.tickers[e.ticker];
      Ok(Ledger(l.tickers[e.ticker := t.(burned := t.burned + e.amount)],
                TakeFrom(l.balances, e.ticker, e.sourcePkscript, e.amount, 0), l.log))
  }

  lemma BurningProcesses(cfg: Config, height: int, l: Ledger, e: Event)
    requires e.TransferTransfer? && CanTake(l.balances, e.ticker, e.sourcePkscript, e.amount, 0)
    requires DestinationOf(cfg, height, e) == Burned
    ensures ProcessTransfer(cfg, height, l, e) == BurnedLedger(l, e)
  {
  }

  method SettleBurned(db: Store, height: int, e: Event, ghost l: Ledger, ghost settled: Result<Ledger>)
    returns (ok: bool)
    requires Settleable(db, height, l, e) && settled == BurnedLedger(l, e)
    modifies db`balanceCache, db`balanceUpdates, db`tickers, db`tickerUpdates
    ensures db.BalancesOk() && db.TickersOk() && db.RowsUpTo(height)
    ensures settled == if ok then Ok(db.View()) else Err
  {
    assert SmallBalance(BalanceOf(l.balances, e.ticker, e.sourcePkscript));
    ok := Burn(db, height, e.ticker, e.sourcePkscript, e.amount);
  }

  /** All five ends of a transfer: back to the source when sent as a fee, to the module, burned because the
      module does not take it, burned by an OP_RETURN, or to a script. */
  method Settle(db: Store, cfg: Config, height: int, e: Event, ghost l: Ledger, ghost settled: Result<Ledger>)
    returns (ok: bool)
    requires Settleable(db, height, l, e) && settled == ProcessTransfer(cfg, height, l, e)
    modifies db`balanceCache, db`balanceUpdates, db`tickers, db`tickerUpdates
    ensures db.BalancesOk() && db.TickersOk() && db.RowsUpTo(height)
    ensures settled == if ok then Ok(db.View()) else Err
  {
    var spent: Pkscript := if e.spentPkscript.Some? then e.spentPkscript.value else "";
    ok := true;
    if spent == "" {
      SettleAtSource(db, cfg, height, e, l, settled);
    } else if spent == MODULE_PKSCRIPT {
      if BurnsDeposits(cfg, height, e.originalTicker) {
        BurningProcesses(cfg, height, l, e);
        ok := SettleBurned(db, height, e, l, settled);
      } else {
        SettleAtTarget(db, cfg, height, e, MODULE_PKSCRIPT, l, settled);
      }
    } else if spent == OP_RETURN {
      BurningProcesses(cfg, height, l, e);
      ok := SettleBurned(db, height, e, l, settled);
    } else {
      SettleAtTarget(db, cfg, height, e, spent, l, settled);
    }
  }

  /** Is the transfer's end one that leaves the inscription's judgement alone: burned because the module does not
      take it, or deposited and refused by the module after the balances moved? */
  predicate LeavesJudgement(cfg: Config, height: int, e: Event, accepted: bool)
    requires e.TransferTransfer?
  {
    e.spentPkscript == Some(MODULE_PKSCRIPT) && (BurnsDeposits(cfg, height, e.originalTicker) || !accepted)
  }

  function JudgementAfter(cfg: Config, height: int, e: Event, accepted: bool): Validity
    requires e.TransferTransfer?
  {
    if LeavesJudgement(cfg, height, e, accepted) then Validity.Valid else Validity.Used
  }

  /** The balances first, then the judgement. */
  method SettleValid(db: Store, cfg: Config, height: int, id: InscriptionId, e: Event, accepted: bool,
                     ghost settled: Result<Ledger>)
    returns (ok: bool)
    requires Settleable(db, height, db.View(), e) && settled == ProcessTransfer(cfg, height, db.View(), e)
    requires id in db.transferValidity && db.transferValidity[id] == Validity.Valid
    modifies db`transferValidity, db`balanceCache, db`balanceUpdates, db`tickers, db`tickerUpdates
    ensures db.BalancesOk() && db.TickersOk() && db.RowsUpTo(height)
    ensures settled == if ok then Ok(db.View()) else Err
    ensures ok ==> db.transferValidity == old(db.transferValidity)[id := JudgementAfter(cfg, height, e, accepted)]
  {
    ok := Settle(db, cfg, height, e, db.View(), settled);
    if ok && !LeavesJudgement(cfg, height, e, accepted) {
      db.SetTransferValidity(id, Validity.Used);
    }
  }

  /** Only an inscription judged valid is settled. Both ends at the module that return early leave the judgement
      `Valid`; every other end marks the inscription used. The caller goes on after a refused deposit. */
  method ProcessTransferTransfer(db: Store, cfg: Config, height: int, id: InscriptionId, e: Event, accepted: bool,
                                 ghost settled: Result<Ledger>, ghost judged: Validity)
    returns (ok: bool)
    requires Settleable(db, height, db.View(), e)
    requires settled == ProcessTransfer(cfg, height, db.View(), e)
    requires db.EffectiveValidity(InscribeKind, TransferKind, id) == judged
    modifies db`transferValidity, db`balanceCache, db`balanceUpdates, db`tickers, db`tickerUpdates
    ensures db.BalancesOk() && db.TickersOk() && db.RowsUpTo(height)
    ensures if judged == Validity.Valid then
              && settled == (if ok then Ok(db.View()) else Err)
              && (ok ==>
                    db.transferValidity == old(db.transferValidity)[id := JudgementAfter(cfg, height, e, accepted)])
            else ok && db.View() == old(db.View()) && db.transferValidity == old(db.transferValidity)[id := judged]
  {
    var v := db.GetTransferValidity(id, InscribeKind, TransferKind);
    if v != Validity.Valid {
      return true;
    }
    ok := SettleValid(db, cfg, height, id, e, accepted, settled);
  }

  method ProcessWithdrawTransfer(db: Store, height: int, id: InscriptionId, e: Event, granted: bool) returns (ok: bool)
    requires db.BalancesOk() && db.RowsUpTo(height) && e.WithdrawTransfer? && e.amount <= MAX_AMOUNT
    requires Small(db.View().balances, e.ticker) && OracleSound(db.View(), e, granted)
    modifies db`transferValidity, db`balanceCache, db`balanceUpdates
    ensures db.BalancesOk() && db.RowsUpTo(height)
    ensures ok <==> ProcessWithdraw(old(db.View()), e, granted).Ok?
    ensures ok ==> ProcessWithdraw(old(db.View()), e, granted) == Ok(db.View())
    ensures id in db.transferValidity && db.transferValidity[id] != Validity.Valid
    ensures db.transferValidity == old(db.transferValidity)[id := db.transferValidity[id]]
  {
    if e.spentPkscript.Some? && OP_RETURN <= e.spentPkscript.value {
      db.SetTransferValidity(id, Validity.Invalid);
      return true;
    }
    db.SetTransferValidity(id, Validity.Used);
    if granted {
      assert SmallBalance(BalanceOf(db.View().balances, e.ticker, MODULE_PKSCRIPT));
      Debit(db, height, e.ticker, MODULE_PKSCRIPT, e.amount, e.amount);
      if e.spentPkscript.None? {
        return false;
      }
      assert SmallBalance(BalanceOf(old(db.View().balances), e.ticker, e.spentPkscript.value));
      Credit(db, height, e.ticker, e.spentPkscript.value, e.amount, e.amount);
    }
    return true;
  }

}
