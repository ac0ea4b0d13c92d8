/** What every run of the BRC-20 ledger keeps: supply is conserved, the locked part of every balance is
    backed by unspent transfer inscriptions, and nothing is spent twice. */
module Brc20Invariants {
  import opened Wrappers
  import opened Amounts
  import opened Brc20Ledger
  import opened Brc20Sums

  /** Held plus burned plus still to be minted is the maximum supply. */
  predicate Accounted(ticker: Ticker, held: nat) {
    held + ticker.burned + ticker.remaining == ticker.maxSupply <= MAX_AMOUNT
  }

  ghost predicate Conserved(tickers: map<string, Ticker>, balances: map<Account, Balance>) {
    forall t :: t in tickers ==> Accounted(tickers[t], Total(balances, t))
  }

  predicate OnlyDeployed(tickers: map<string, Ticker>, balances: map<Account, Balance>) {
    forall account :: account in balances ==> account.0 in tickers
  }

  predicate BackedAt(balances: map<Account, Balance>, log: seq<Rec>, ticker: string, pk: Pkscript) {
    var b := BalanceOf(balances, ticker, pk);
    b.overall == b.available + Locked(log, ticker, pk)
  }

  ghost predicate Backed(balances: map<Account, Balance>, log: seq<Rec>) {
    forall ticker, pk :: BackedAt(balances, log, ticker, pk)
  }

  /** Re-reading an unspent transfer inscription gives the event that was recorded for it. */
  predicate Rereads(cfg: Config, tickers: map<string, Ticker>, log: seq<Rec>, rec: Rec) {
    rec.event.TransferInscribe? && !Recorded(log, TransferKind, rec.id) ==>
      var js, e := cfg.content(rec.id), rec.event;
      && "tick" in js && e.ticker == cfg.lower(js["tick"]) && e.ticker in tickers
      && ReadAmount(Get(js, "amt"), tickers[e.ticker].decimals, false) == Ok(e.amount)
  }

  predicate AllReread(cfg: Config, tickers: map<string, Ticker>, log: seq<Rec>) {
    forall rec :: rec in log ==> Rereads(cfg, tickers, log, rec)
  }

  /** Supply is conserved, locks are backed, nothing is spent twice. */
  ghost predicate Sound(l: Ledger) {
    && Conserved(l.tickers, l.balances) && OnlyDeployed(l.tickers, l.balances)
    && Backed(l.balances, l.log) && SpentOnce(l.log)
  }

  ghost predicate Inv(cfg: Config, l: Ledger) {
    Sound(l) && AllReread(cfg, l.tickers, l.log)
  }

  // ---------- what the invariant says of numbers ----------

  /** Every quantity of a deployed ticker is bounded by its maximum supply, hence fits 128 bits, and what
      is available never exceeds what is held. */
  lemma Bounds(l: Ledger, ticker: string, pk: Pkscript)
    requires Sound(l)
    ensures var b := BalanceOf(l.balances, ticker, pk);
            && b.available <= b.overall <= MAX_AMOUNT < U128_MAX
            && (ticker in l.tickers ==>
                  b.overall + l.tickers[ticker].burned + l.tickers[ticker].remaining <= l.tickers[ticker].maxSupply)
            && Locked(l.log, ticker, pk) <= b.overall
  {
    assert BackedAt(l.balances, l.log, ticker, pk);
    HoldsAtMostTotal(l.balances, ticker, pk);
    if ticker in l.tickers {
      assert Accounted(l.tickers[ticker], Total(l.balances, ticker));
    }
  }

  // ---------- balances ----------

  /** Setting one account of a ticker keeps every other ticker accounted for. */
  lemma SetAccount(tickers: map<string, Ticker>, balances: map<Account, Balance>, t: string, ticker: Ticker,
                   pk: Pkscript, b: Balance)
    requires Conserved(tickers, balances) && OnlyDeployed(tickers, balances) && t in tickers
    requires Accounted(ticker, Total(balances[(t, pk) := b], t))
    ensures Conserved(tickers[t := ticker], balances[(t, pk) := b])
    ensures OnlyDeployed(tickers[t := ticker], balances[(t, pk) := b])
  {
    var tickers', balances' := tickers[t := ticker], balances[(t, pk) := b];
    forall u | u in tickers' ensures Accounted(tickers'[u], Total(balances', u)) {
      TotalUpdate(balances, t, pk, b, u);
    }
  }

  /** Taking from one account and adding to another of the same ticker keeps the ticker's total. */
  lemma Move(tickers: map<string, Ticker>, balances: map<Account, Balance>, t: string, from: Pkscript, to: Pkscript,
             amount: nat, available: nat)
    requires Conserved(tickers, balances) && OnlyDeployed(tickers, balances) && t in tickers
    requires CanTake(balances, t, from, amount, available)
    ensures var moved := AddTo(TakeFrom(balances, t, from, amount, available), t, to, amount, amount);
            Conserved(tickers, moved) && OnlyDeployed(tickers, moved)
  {
    var debited := TakeFrom(balances, t, from, amount, available);
    var moved := AddTo(debited, t, to, amount, amount);
    forall u | u in tickers ensures Accounted(tickers[u], Total(moved, u)) {
      assert Accounted(tickers[u], Total(balances, u));
      TotalUpdate(balances, t, from, debited[(t, from)], u);
      TotalUpdate(debited, t, to, moved[(t, to)], u);
    }
  }

  // ---------- processing, kind by kind ----------

  /** Appending a record that neither inscribes nor spends a transfer keeps the log's part of the invariant. */
  lemma OtherRecord(cfg: Config, l: Ledger, rec: Rec)
    requires Inv(cfg, l) && FitsAfter(l.log, rec)
    requires KindOf(rec.event) != InscribeKind && KindOf(rec.event) != TransferKind
    ensures AllReread(cfg, l.tickers, l.log + [rec]) && SpentOnce(l.log + [rec])
    ensures forall t, pk :: Locked(l.log + [rec], t, pk) == Locked(l.log, t, pk)
  {
    var log' := l.log + [rec];
    assert log'[..|l.log|] == l.log;
    forall r | r in log' ensures Rereads(cfg, l.tickers, log', r) {
      FindPush(l.log, rec, TransferKind, r.id);
    }
    forall t, pk ensures Locked(log', t, pk) == Locked(l.log, t, pk) {
      LockedPush(l.log, rec, t, pk);
    }
  }

  lemma RereadsLater(cfg: Config, tickers: map<string, Ticker>, later: map<string, Ticker>, log: seq<Rec>)
    requires AllReread(cfg, tickers, log)
    requires forall t :: t in tickers ==> t in later && later[t].decimals == tickers[t].decimals
    ensures AllReread(cfg, later, log)
  {
    forall rec | rec in log ensures Rereads(cfg, later, log, rec) {
      assert Rereads(cfg, tickers, log, rec);
    }
  }

  lemma DeployKeeps(cfg: Config, height: int, l: Ledger, rec: Rec)
    requires Inv(cfg, l) && rec.event.DeployInscribe? && FitsAfter(l.log, rec) && rec.event.ticker !in l.tickers
    requires rec.event.maxSupply <= MAX_AMOUNT
    ensures Process(cfg, height, l, rec, false).Ok? && Inv(cfg, Process(cfg, height, l, rec, false).value)
  {
    var l' := Process(cfg, height, l, rec, false).value;
    OtherRecord(cfg, l, rec);
    RereadsLater(cfg, l.tickers, l'.tickers, l'.log);
    TotalOfAbsent(l.balances, rec.event.ticker);
    forall t | t in l'.tickers ensures Accounted(l'.tickers[t], Total(l'.balances, t)) {
      if t != rec.event.ticker { assert Accounted(l.tickers[t], Total(l.balances, t)); }
    }
    forall t, pk ensures BackedAt(l'.balances, l'.log, t, pk) {
      assert BackedAt(l.balances, l.log, t, pk);
    }
  }

  lemma MintConserves(tickers: map<string, Ticker>, balances: map<Account, Balance>, t: string, pk: Pkscript,
                      amount: nat)
    requires Conserved(tickers, balances) && OnlyDeployed(tickers, balances) && t in tickers
    requires amount <= tickers[t].remaining
    ensures var minted := tickers[t := tickers[t].(remaining := tickers[t].remaining - amount)];
            && Conserved(minted, AddTo(balances, t, pk, amount, amount))
            && OnlyDeployed(minted, AddTo(balances, t, pk, amount, amount))
  {
    var ticker := tickers[t].(remaining := tickers[t].remaining - amount);
    var b := AddTo(balances, t, pk, amount, amount)[(t, pk)];
    assert Accounted(tickers[t], Total(balances, t));
    TotalUpdate(balances, t, pk, b, t);
    SetAccount(tickers, balances, t, ticker, pk, b);
  }

  /** Adding the same amount to both parts of a balance, when the event locks and unlocks nothing. */
  lemma CreditBacked(balances: map<Account, Balance>, log: seq<Rec>, rec: Rec, t: string, pk: Pkscript, amount: nat)
    requires Backed(balances, log) && forall u, p :: Locked(log + [rec], u, p) == Locked(log, u, p)
    ensures Backed(AddTo(balances, t, pk, amount, amount), log + [rec])
  {
    forall u, p ensures BackedAt(AddTo(balances, t, pk, amount, amount), log + [rec], u, p) {
      assert BackedAt(balances, log, u, p);
    }
  }

  lemma MintShape(cfg: Config, height: int, l: Ledger, rec: Rec)
    requires rec.event.MintInscribe? && rec.event.ticker in l.tickers
    requires rec.event.amount <= l.tickers[rec.event.ticker].remaining
    ensures var e, t := rec.event, l.tickers[rec.event.ticker];
            Process(cfg, height, l, rec, false)
              == Ok(Ledger(l.tickers[e.ticker := t.(remaining := t.remaining - e.amount)],
                           AddTo(l.balances, e.ticker, e.mintedPkscript, e.amount, e.amount), l.log + [rec]))
  {
  }

  lemma MintKeeps(cfg: Config, height: int, l: Ledger, rec: Rec)
    requires Inv(cfg, l) && rec.event.MintInscribe? && FitsAfter(l.log, rec)
    requires rec.event.ticker in l.tickers && rec.event.amount <= l.tickers[rec.event.ticker].remaining
    ensures Process(cfg, height, l, rec, false).Ok? && Inv(cfg, Process(cfg, height, l, rec, false).value)
  {
    var e, t := rec.event, l.tickers[rec.event.ticker];
    MintShape(cfg, height, l, rec);
    OtherRecord(cfg, l, rec);
    RereadsLater(cfg, l.tickers, l.tickers[e.ticker := t.(remaining := t.remaining - e.amount)], l.log + [rec]);
    MintConserves(l.tickers, l.balances, e.ticker, e.mintedPkscript, e.amount);
    CreditBacked(l.balances, l.log, rec, e.ticker, e.mintedPkscript, e.amount);
  }

  lemma InscribeKeeps(cfg: Config, height: int, l: Ledger, rec: Rec)
    requires Sound(l) && rec.event.TransferInscribe? && FitsAfter(l.log, rec)
    requires rec.event.ticker in l.tickers
    requires CanTake(l.balances, rec.event.ticker, rec.event.sourcePkscript, 0, rec.event.amount)
    ensures Process(cfg, height, l, rec, false).Ok? && Sound(Process(cfg, height, l, rec, false).value)
  {
    var l', e := Process(cfg, height, l, rec, false).value, rec.event;
    var b := l'.balances[(e.ticker, e.sourcePkscript)];
    assert l'.log[..|l.log|] == l.log;
    assert Accounted(l.tickers[e.ticker], Total(l.balances, e.ticker));
    TotalUpdate(l.balances, e.ticker, e.sourcePkscript, b, e.ticker);
    SetAccount(l.tickers, l.balances, e.ticker, l.tickers[e.ticker], e.sourcePkscript, b);
    assert l.tickers[e.ticker := l.tickers[e.ticker]] == l.tickers;
    forall t, pk ensures BackedAt(l'.balances, l'.log, t, pk) {
      assert BackedAt(l.balances, l.log, t, pk);
      LockedPush(l.log, rec, t, pk);
    }
  }

  lemma InscribeRereads(cfg: Config, tickers: map<string, Ticker>, log: seq<Rec>, rec: Rec)
    requires AllReread(cfg, tickers, log) && rec.event.TransferInscribe? && Rereads(cfg, tickers, log, rec)
    requires FitsAfter(log, rec)
    ensures AllReread(cfg, tickers, log + [rec])
  {
    forall r | r in log + [rec] ensures Rereads(cfg, tickers, log + [rec], r) {
      FindPush(log, rec, TransferKind, r.id);
    }
  }

  /** The source of an unspent transfer still holds what it locked. */
  lemma SourceHolds(l: Ledger, id: InscriptionId)
    requires Sound(l) && CanSpend(l.log, InscribeKind, TransferKind, id)
    ensures var e := Find(l.log, InscribeKind, id).value;
            && e.amount <= Locked(l.log, e.ticker, e.sourcePkscript)
            && CanTake(l.balances, e.ticker, e.sourcePkscript, e.amount, 0)
  {
    var e := Find(l.log, InscribeKind, id).value;
    LockedSpent(l.log, l.log, Rec(id, TransferTransfer("", None, "", "", 0)), e.ticker, e.sourcePkscript);
    assert BackedAt(l.balances, l.log, e.ticker, e.sourcePkscript);
  }

  /** The event spends the recorded inscription: same source, ticker and amount. */
  predicate Spends(log: seq<Rec>, rec: Rec) {
    && rec.event.TransferTransfer? && CanSpend(log, InscribeKind, TransferKind, rec.id)
    && var i, e := Find(log, InscribeKind, rec.id).value, rec.event;
       i.sourcePkscript == e.sourcePkscript && i.ticker == e.ticker && i.amount == e.amount
  }

  lemma SpendRereads(cfg: Config, l: Ledger, rec: Rec)
    requires AllReread(cfg, l.tickers, l.log) && Spends(l.log, rec) && SpentOnce(l.log)
    ensures AllReread(cfg, l.tickers, l.log + [rec]) && SpentOnce(l.log + [rec])
  {
    var log' := l.log + [rec];
    assert log'[..|l.log|] == l.log;
    forall r | r in log' ensures Rereads(cfg, l.tickers, log', r) {
      FindPush(l.log, rec, TransferKind, r.id);
    }
  }

  /** Spending releases the source's lock. */
  lemma SpendUnlocks(log: seq<Rec>, rec: Rec, t: string, pk: Pkscript)
    requires SpentOnce(log) && Spends(log, rec)
    ensures Locked(log, t, pk) == Locked(log + [rec], t, pk)
              + (if t == rec.event.ticker && pk == rec.event.sourcePkscript then rec.event.amount else 0)
  {
    LockedPush(log, rec, t, pk);
  }

  /** Whatever the destination, spending keeps the totals: the amount is returned, moved, or burned. */
  lemma TransferConserves(cfg: Config, height: int, l: Ledger, rec: Rec)
    requires Sound(l) && Spends(l.log, rec) && rec.event.ticker in l.tickers
    ensures ProcessTransfer(cfg, height, l, rec.event).Ok?
    ensures var l' := ProcessTransfer(cfg, height, l, rec.event).value;
            Conserved(l'.tickers, l'.balances) && OnlyDeployed(l'.tickers, l'.balances)
  {
    SourceHolds(l, rec.id);
    var e := rec.event;
    assert Accounted(l.tickers[e.ticker], Total(l.balances, e.ticker));
    match DestinationOf(cfg, height, e)
    case ToModule =>
      Move(l.tickers, l.balances, e.ticker, e.sourcePkscript, MODULE_PKSCRIPT, e.amount, 0);
    case ToPkscript(pk) =>
      Move(l.tickers, l.balances, e.ticker, e.sourcePkscript, pk, e.amount, 0);
    case Burned =>
      var l' := ProcessTransfer(cfg, height, l, e).value;
      var b := l'.balances[(e.ticker, e.sourcePkscript)];
      TotalUpdate(l.balances, e.ticker, e.sourcePkscript, b, e.ticker);
      SetAccount(l.tickers, l.balances, e.ticker, l'.tickers[e.ticker], e.sourcePkscript, b);
    case ToSource =>
      var b := AddTo(l.balances, e.ticker, e.sourcePkscript, 0, e.amount)[(e.ticker, e.sourcePkscript)];
      TotalUpdate(l.balances, e.ticker, e.sourcePkscript, b, e.ticker);
      SetAccount(l.tickers, l.balances, e.ticker, l.tickers[e.ticker], e.sourcePkscript, b);
      assert l.tickers[e.ticker := l.tickers[e.ticker]] == l.tickers;
  }

  /** Spending lowers overall minus available of the source by the amount, and of nobody else; also when
      the source sends to itself, to the module, or is the module. */
  lemma TransferUnlocks(cfg: Config, height: int, l: Ledger, e: Event, t: string, pk: Pkscript)
    requires e.TransferTransfer? && ProcessTransfer(cfg, height, l, e).Ok?
    ensures var b := BalanceOf(l.balances, t, pk);
            var b' := BalanceOf(ProcessTransfer(cfg, height, l, e).value.balances, t, pk);
            (b.overall - b.available) - (b'.overall - b'.available)
              == if t == e.ticker && pk == e.sourcePkscript then e.amount else 0
  {
  }

  lemma TransferSound(cfg: Config, height: int, l: Ledger, rec: Rec)
    requires Sound(l) && Spends(l.log, rec) && rec.event.ticker in l.tickers
    ensures Process(cfg, height, l, rec, false).Ok? && Sound(Process(cfg, height, l, rec, false).value)
  {
    TransferConserves(cfg, height, l, rec);
    var l' := Process(cfg, height, l, rec, false).value;
    assert l'.log[..|l.log|] == l.log;
    forall t, pk ensures BackedAt(l'.balances, l'.log, t, pk) {
      assert BackedAt(l.balances, l.log, t, pk);
      TransferUnlocks(cfg, height, l, rec.event, t, pk);
      SpendUnlocks(l.log, rec, t, pk);
    }
  }

  lemma TransferKeeps(cfg: Config, height: int, l: Ledger, rec: Rec)
    requires Inv(cfg, l) && Spends(l.log, rec) && rec.event.ticker in l.tickers
    ensures Process(cfg, height, l, rec, false).Ok? && Inv(cfg, Process(cfg, height, l, rec, false).value)
  {
    TransferSound(cfg, height, l, rec);
    var l' := Process(cfg, height, l, rec, false).value;
    SpendRereads(cfg, l, rec);
    RereadsLater(cfg, l.tickers, l'.tickers, l'.log);
  }

  /** What the module must have checked when it grants a withdrawal. */
  predicate OracleSound(l: Ledger, e: Event, granted: bool) {
    e.WithdrawTransfer? && granted ==> CanTake(l.balances, e.ticker, MODULE_PKSCRIPT, e.amount, e.amount)
  }

  /** A granted withdrawal sent as a fee has nowhere to go: the block is abandoned. */
  predicate NoTarget(e: Event, granted: bool) {
    e.WithdrawTransfer? && granted && e.spentPkscript.None?
  }

  lemma WithdrawKeeps(cfg: Config, height: int, l: Ledger, rec: Rec, granted: bool)
    requires Inv(cfg, l) && rec.event.WithdrawTransfer? && FitsAfter(l.log, rec) && rec.event.ticker in l.tickers
    requires OracleSound(l, rec.event, granted)
    ensures Process(cfg, height, l, rec, granted).Err? <==> NoTarget(rec.event, granted)
    ensures Process(cfg, height, l, rec, granted).Ok? ==> Inv(cfg, Process(cfg, height, l, rec, granted).value)
  {
    var e := rec.event;
    if !NoTarget(e, granted) {
      var l' := Process(cfg, height, l, rec, granted).value;
      OtherRecord(cfg, l, rec);
      if granted && !(OP_RETURN <= e.spentPkscript.value) {
        Move(l.tickers, l.balances, e.ticker, MODULE_PKSCRIPT, e.spentPkscript.value, e.amount, e.amount);
      }
      forall t, pk ensures BackedAt(l'.balances, l'.log, t, pk) {
        assert BackedAt(l.balances, l.log, t, pk);
      }
    }
  }

  lemma WithdrawInscribeKeeps(cfg: Config, height: int, l: Ledger, rec: Rec)
    requires Inv(cfg, l) && rec.event.WithdrawInscribe? && FitsAfter(l.log, rec)
    ensures Process(cfg, height, l, rec, false).Ok? && Inv(cfg, Process(cfg, height, l, rec, false).value)
  {
    var l' := Process(cfg, height, l, rec, false).value;
    OtherRecord(cfg, l, rec);
    forall t, pk ensures BackedAt(l'.balances, l'.log, t, pk) {
      assert BackedAt(l.balances, l.log, t, pk);
    }
  }

}
