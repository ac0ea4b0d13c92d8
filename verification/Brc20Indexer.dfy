/** The indexer: a full node generates an event for every valid inscription transfer, records and processes
    it; a light node records and processes events it is given. Both are the ledger of Brc20Ledger. */
module Brc20Indexer {
  import opened Wrappers
  import opened Amounts
  import opened Brc20Ledger
  import opened Brc20Invariants
  import opened Brc20Run
  import opened Brc20Database
  import opened Brc20Store
  import opened Brc20Node

  /** What processing needs of the ledger so that nothing leaves its range. */
  ghost predicate Processable(l: Ledger, rec: Rec) {
    var e := rec.event;
    && Small(l.balances, e.ticker)
    && (e.ticker in l.tickers ==> l.tickers[e.ticker].burned <= MAX_AMOUNT)
    && match KindOf(e)
       case DeployKind => e.ticker !in l.tickers
       case MintKind => e.ticker in l.tickers && e.amount <= l.tickers[e.ticker].remaining <= MAX_AMOUNT
       case InscribeKind => CanTake(l.balances, e.ticker, e.sourcePkscript, 0, e.amount)
       case TransferKind =>
         && CanSpend(l.log, InscribeKind, TransferKind, rec.id) && e.ticker in l.tickers
         && e.amount <= MAX_AMOUNT && CanTake(l.balances, e.ticker, e.sourcePkscript, e.amount, 0)
       case WithdrawInscribeKind => true
       case WithdrawTransferKind => e.amount <= MAX_AMOUNT
  }

  lemma FitsIsProcessable(l: Ledger, rec: Rec)
    requires Sound(l) && Fits(l, rec)
    ensures Processable(l, rec)
  {
    SoundIsSmall(l, rec.event.ticker);
    if rec.event.TransferTransfer? {
      SourceHolds(l, rec.id);
      Bounds(l, rec.event.ticker, rec.event.sourcePkscript);
    } else if rec.event.MintInscribe? {
      Bounds(l, rec.event.ticker, "");
    }
  }

  /** The event is recorded, nothing else was done. */
  ghost predicate Started(db: Store, height: int, l: Ledger, rec: Rec)
    reads db
  {
    && db.BalancesOk() && db.TickersOk() && db.RowsUpTo(height)
    && db.View() == l.(log := l.log + [rec]) && Processable(l, rec)
  }

  /** Deploys and mints. */
  method FinishSupply(db: Store, ghost cfg: Config, height: int, ghost l: Ledger, rec: Rec,
                      ghost result: Result<Ledger>) returns (ok: bool)
    requires Started(db, height, l, rec) && (rec.event.DeployInscribe? || rec.event.MintInscribe?)
    requires result == Process(cfg, height, l, rec, false)
    modifies db`tickers, db`newTickers, db`tickerUpdates, db`balanceCache, db`balanceUpdates
    ensures db.BalancesOk() && db.TickersOk() && db.RowsUpTo(height)
    ensures ok && result == Ok(db.View())
  {
    if rec.event.DeployInscribe? {
      ok := ProcessDeployInscribe(db, height, rec.id, rec.event);
    } else {
      assert SmallBalance(BalanceOf(l.balances, rec.event.ticker, rec.event.mintedPkscript));
      ok := ProcessMintInscribe(db, height, rec.event);
    }
  }

  /** Inscribing a transfer or a withdrawal. */
  method FinishInscribe(db: Store, ghost cfg: Config, height: int, ghost l: Ledger, rec: Rec,
                        ghost result: Result<Ledger>) returns (ok: bool)
    requires Started(db, height, l, rec) && (rec.event.TransferInscribe? || rec.event.WithdrawInscribe?)
    requires result == Process(cfg, height, l, rec, false)
    modifies db`transferValidity, db`balanceCache, db`balanceUpdates
    ensures db.BalancesOk() && db.RowsUpTo(height)
    ensures ok && result == Ok(db.View())
    ensures db.transferValidity == old(db.transferValidity)[rec.id := Validity.Valid]
  {
    if rec.event.TransferInscribe? {
      assert SmallBalance(BalanceOf(l.balances, rec.event.ticker, rec.event.sourcePkscript));
      ok := ProcessTransferInscribe(db, height, rec.id, rec.event);
    } else {
      db.SetTransferValidity(rec.id, Validity.Valid);
      ok := true;
    }
  }

  /** Settling does not look at the log, so it may come after recording. */
  lemma SettlesLogged(cfg: Config, height: int, l: Ledger, rec: Rec)
    requires rec.event.TransferTransfer? && CanSpend(l.log, InscribeKind, TransferKind, rec.id)
    ensures ProcessTransfer(cfg, height, l.(log := l.log + [rec]), rec.event) == Process(cfg, height, l, rec, false)
  {
    var later := l.(log := l.log + [rec]);
    match ProcessTransfer(cfg, height, l, rec.event)
    case Err => assert ProcessTransfer(cfg, height, later, rec.event).Err?;
    case Ok(u) => assert ProcessTransfer(cfg, height, later, rec.event) == Ok(u.(log := later.log));
  }

  method FinishTransfer(db: Store, cfg: Config, height: int, ghost l: Ledger, rec: Rec, accepted: bool,
                        ghost result: Result<Ledger>)
    returns (ok: bool)
    requires Started(db, height, l, rec) && rec.event.TransferTransfer?
    requires db.EffectiveValidity(InscribeKind, TransferKind, rec.id) == Validity.Valid
    requires result == Process(cfg, height, l, rec, false)
    modifies db`transferValidity, db`balanceCache, db`balanceUpdates, db`tickers, db`tickerUpdates
    ensures db.BalancesOk() && db.TickersOk() && db.RowsUpTo(height)
    ensures result == if ok then Ok(db.View()) else Err
    ensures ok ==> rec.id in db.transferValidity
    ensures ok ==> db.transferValidity == old(db.transferValidity)[rec.id := db.transferValidity[rec.id]]
  {
    SettlesLogged(cfg, height, l, rec);
    ok := ProcessTransferTransfer(db, cfg, height, rec.id, rec.event, accepted, result, Validity.Valid);
  }

  lemma WithdrawsLogged(cfg: Config, height: int, l: Ledger, rec: Rec, granted: bool)
    requires rec.event.WithdrawTransfer?
    ensures ProcessWithdraw(l.(log := l.log + [rec]), rec.event, granted) == Process(cfg, height, l, rec, granted)
  {
  }

  method FinishWithdraw(db: Store, ghost cfg: Config, height: int, ghost l: Ledger, rec: Rec, granted: bool,
                        ghost result: Result<Ledger>)
    returns (ok: bool)
    requires Started(db, height, l, rec) && rec.event.WithdrawTransfer? && OracleSound(l, rec.event, granted)
    requires result == Process(cfg, height, l, rec, granted)
    modifies db`transferValidity, db`balanceCache, db`balanceUpdates
    ensures db.BalancesOk() && db.RowsUpTo(height)
    ensures result == if ok then Ok(db.View()) else Err
    ensures rec.id in db.transferValidity
    ensures db.transferValidity == old(db.transferValidity)[rec.id := db.transferValidity[rec.id]]
  {
    WithdrawsLogged(cfg, height, l, rec, granted);
    ok := ProcessWithdrawTransfer(db, height, rec.id, rec.event, granted);
  }

  /** The module's answer decides withdrawals alone: a refused deposit has moved its balances. */
  lemma GrantMatters(cfg: Config, height: int, l: Ledger, rec: Rec, granted: bool)
    requires !rec.event.WithdrawTransfer?
    ensures Process(cfg, height, l, rec, granted) == Process(cfg, height, l, rec, false)
  {
  }

  /** Processing by kind of event. */
  method Dispatch(db: Store, cfg: Config, height: int, ghost l: Ledger, rec: Rec, granted: bool,
                  ghost result: Result<Ledger>)
    returns (ok: bool)
    requires Started(db, height, l, rec) && OracleSound(l, rec.event, granted)
    requires rec.event.TransferTransfer? ==> db.EffectiveValidity(InscribeKind, TransferKind, rec.id) == Validity.Valid
    requires result == Process(cfg, height, l, rec, granted)
    modifies db`transferValidity, db`balanceCache, db`balanceUpdates, db`tickers, db`newTickers, db`tickerUpdates
    ensures db.BalancesOk() && db.TickersOk() && db.RowsUpTo(height)
    ensures result == if ok then Ok(db.View()) else Err
    ensures ok ==>
              if rec.event.DeployInscribe? || rec.event.MintInscribe? then
                db.transferValidity == old(db.transferValidity)
              else
                && rec.id in db.transferValidity
                && db.transferValidity == old(db.transferValidity)[rec.id := db.transferValidity[rec.id]]
    ensures ok && (rec.event.TransferInscribe? || rec.event.WithdrawInscribe?) ==>
              db.transferValidity[rec.id] == Validity.Valid
  {
    if rec.event.WithdrawTransfer? {
      ok := FinishWithdraw(db, cfg, height, l, rec, granted, result);
    } else {
      GrantMatters(cfg, height, l, rec, granted);
      if rec.event.DeployInscribe? || rec.event.MintInscribe? {
        ok := FinishSupply(db, cfg, height, l, rec, result);
      } else if rec.event.TransferTransfer? {
        ok := FinishTransfer(db, cfg, height, l, rec, granted, result);
      } else {
        ok := FinishInscribe(db, cfg, height, l, rec, result);
      }
    }
  }

  /** Processing the event just recorded makes the whole state valid again. */
  method ProcessRecorded(db: Store, cfg: Config, height: int, ghost l: Ledger, rec: Rec, granted: bool)
    returns (ok: bool)
    requires db.JustRecorded(cfg, l, rec) && db.RowsUpTo(height) && Sound(l) && Fits(l, rec)
    requires KindFits(cfg, rec) && OracleSound(l, rec.event, granted)
    modifies db`transferValidity, db`balanceCache, db`balanceUpdates, db`tickers, db`newTickers, db`tickerUpdates
    ensures Process(cfg, height, l, rec, granted) == if ok then Ok(db.View()) else Err
    ensures ok ==> db.Valid(cfg) && db.RowsUpTo(height)
  {
    ghost var before := db.transferValidity;
    FitsIsProcessable(l, rec);
    if rec.event.TransferTransfer? {
      db.JudgedValid(cfg, l, rec);
    }
    ok := Dispatch(db, cfg, height, l, rec, granted, Process(cfg, height, l, rec, granted));
    if ok {
      db.JudgedNow(cfg, l, rec, before, if OwnKind(cfg, rec) then db.transferValidity[rec.id] else Validity.Valid);
    }
  }

}
