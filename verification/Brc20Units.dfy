/** Every quantity of a ticker with `d` decimals stays a multiple of 10^(18-d), over every run. */
module Brc20Units {
  import opened Wrappers
  import opened Arithmetic
  import opened Numerals
  import opened Amounts
  import opened Units
  import opened Brc20Ledger
  import opened Brc20Run

  predicate TickerInUnits(t: Ticker) {
    && Multiple(t.maxSupply, t.decimals) && Multiple(t.remaining, t.decimals)
    && Multiple(t.burned, t.decimals) && Multiple(t.limitPerMint, t.decimals)
  }

  predicate BalanceInUnits(b: Balance, decimals: Decimals) {
    Multiple(b.overall, decimals) && Multiple(b.available, decimals)
  }

  function AmountIn(e: Event): nat {
    if e.DeployInscribe? then e.maxSupply else e.amount
  }

  predicate EventInUnits(tickers: map<string, Ticker>, e: Event) {
    e.ticker in tickers && Multiple(AmountIn(e), tickers[e.ticker].decimals)
  }

  predicate BalancesInUnits(tickers: map<string, Ticker>, balances: map<Account, Balance>) {
    forall a :: a in balances ==> a.0 in tickers && BalanceInUnits(balances[a], tickers[a.0].decimals)
  }

  predicate LogInUnits(tickers: map<string, Ticker>, log: seq<Rec>) {
    forall rec :: rec in log ==> EventInUnits(tickers, rec.event)
  }

  predicate InUnits(l: Ledger) {
    && (forall t :: t in l.tickers ==> TickerInUnits(l.tickers[t]))
    && BalancesInUnits(l.tickers, l.balances)
    && LogInUnits(l.tickers, l.log)
  }

  lemma BalanceOfInUnits(tickers: map<string, Ticker>, balances: map<Account, Balance>, t: string, pk: Pkscript)
    requires BalancesInUnits(tickers, balances) && t in tickers
    ensures BalanceInUnits(BalanceOf(balances, t, pk), tickers[t].decimals)
  {
    ZeroIsMultiple(tickers[t].decimals);
  }

  lemma ShiftInUnits(b: Balance, overall: nat, available: nat, decimals: Decimals)
    requires BalanceInUnits(b, decimals) && Multiple(overall, decimals) && Multiple(available, decimals)
    ensures BalanceInUnits(Balance(b.overall + overall, b.available + available), decimals)
    ensures overall <= b.overall && available <= b.available ==>
              BalanceInUnits(Balance(b.overall - overall, b.available - available), decimals)
  {
    ShiftedMultiple(b.overall, overall, decimals);
    ShiftedMultiple(b.available, available, decimals);
  }

  lemma SetInUnits(tickers: map<string, Ticker>, balances: map<Account, Balance>, t: string, pk: Pkscript, b: Balance,
                   updated: map<Account, Balance>)
    requires BalancesInUnits(tickers, balances) && t in tickers && BalanceInUnits(b, tickers[t].decimals)
    requires updated == balances[(t, pk) := b]
    ensures BalancesInUnits(tickers, updated)
  {
  }

  lemma AddInUnits(tickers: map<string, Ticker>, balances: map<Account, Balance>, t: string, pk: Pkscript, overall: nat,
                   available: nat)
    requires BalancesInUnits(tickers, balances) && t in tickers
    requires Multiple(overall, tickers[t].decimals) && Multiple(available, tickers[t].decimals)
    ensures BalancesInUnits(tickers, AddTo(balances, t, pk, overall, available))
  {
    var b := BalanceOf(balances, t, pk);
    BalanceOfInUnits(tickers, balances, t, pk);
    ShiftInUnits(b, overall, available, tickers[t].decimals);
    SetInUnits(tickers, balances, t, pk, Balance(b.overall + overall, b.available + available),
               AddTo(balances, t, pk, overall, available));
  }

  lemma TakeInUnits(tickers: map<string, Ticker>, balances: map<Account, Balance>, t: string, pk: Pkscript,
                    overall: nat, available: nat)
    requires BalancesInUnits(tickers, balances) && t in tickers && CanTake(balances, t, pk, overall, available)
    requires Multiple(overall, tickers[t].decimals) && Multiple(available, tickers[t].decimals)
    ensures BalancesInUnits(tickers, TakeFrom(balances, t, pk, overall, available))
  {
    var b := BalanceOf(balances, t, pk);
    BalanceOfInUnits(tickers, balances, t, pk);
    ShiftInUnits(b, overall, available, tickers[t].decimals);
    SetInUnits(tickers, balances, t, pk, Balance(b.overall - overall, b.available - available),
               TakeFrom(balances, t, pk, overall, available));
  }

  lemma ReadInUnits(text: Option<string>, decimals: Decimals, allowZero: bool)
    requires ReadAmount(text, decimals, allowZero).Ok?
    ensures Multiple(ReadAmount(text, decimals, allowZero).value, decimals)
  {
    ScaledIsMultiple(text.value, decimals);
  }

  lemma MaxInUnits(decimals: Decimals)
    ensures Multiple(MAX_AMOUNT, decimals)
  {
    PowerEighteen();
    Pow10Add(decimals, 18 - decimals);
    MultipleOfProduct(18446744073709551615, Pow10(decimals), Pow10(18 - decimals));
  }

  /** A generated event is in units: amounts come from texts, from a supply, or are the maximum. */
  predicate Fine(l: Ledger, e: Event) {
    if e.DeployInscribe? then
      e.ticker !in l.tickers && Multiple(e.maxSupply, e.decimals) && Multiple(e.limitPerMint, e.decimals)
    else EventInUnits(l.tickers, e)
  }

  lemma DeployFine(cfg: Config, l: Ledger, height: int, tx: Tx, js: map<string, string>, original: string)
    requires GenerateDeploy(cfg, l, height, tx, js, original).Emit?
    ensures Fine(l, GenerateDeploy(cfg, l, height, tx, js, original).rec.event)
  {
    var decimals := ReadDecimals(Get(js, "dec")).value;
    MaxInUnits(decimals);
    ReadInUnits(Get(js, "max"), decimals, true);
    if ReadAmount(Get(js, "lim"), decimals, false).Ok? {
      ReadInUnits(Get(js, "lim"), decimals, false);
    }
  }

  lemma AmountFine(cfg: Config, l: Ledger, height: int, tx: Tx)
    requires InUnits(l) && Generate(cfg, l, height, tx).Emit?
    requires !Generate(cfg, l, height, tx).rec.event.DeployInscribe?
    ensures Fine(l, Generate(cfg, l, height, tx).rec.event)
  {
    var js := cfg.content(tx.id);
    var ticker := cfg.lower(js["tick"]);
    assert TickerInUnits(l.tickers[ticker]);
    ReadInUnits(Get(js, "amt"), l.tickers[ticker].decimals, false);
  }

  lemma GenerateFine(cfg: Config, l: Ledger, height: int, tx: Tx)
    requires InUnits(l) && Generate(cfg, l, height, tx).Emit?
    ensures Fine(l, Generate(cfg, l, height, tx).rec.event)
  {
    var js := cfg.content(tx.id);
    if Generate(cfg, l, height, tx).rec.event.DeployInscribe? {
      DeployFine(cfg, l, height, tx, js, js["tick"]);
    } else {
      AmountFine(cfg, l, height, tx);
    }
  }

  lemma TickerShifts(t: Ticker, amount: nat)
    requires TickerInUnits(t) && Multiple(amount, t.decimals)
    ensures TickerInUnits(t.(burned := t.burned + amount))
    ensures amount <= t.remaining ==> TickerInUnits(t.(remaining := t.remaining - amount))
  {
    ShiftedMultiple(t.burned, amount, t.decimals);
    ShiftedMultiple(t.remaining, amount, t.decimals);
  }

  /** One supply of one ticker changed by the amount of the event, or nothing. */
  predicate Shifted(before: map<string, Ticker>, e: Event, after: map<string, Ticker>)
    requires !e.DeployInscribe?
  {
    || after == before
    || (e.ticker in before
        && var t := before[e.ticker];
           || after == before[e.ticker := t.(burned := t.burned + e.amount)]
           || (e.amount <= t.remaining && after == before[e.ticker := t.(remaining := t.remaining - e.amount)]))
  }

  /** Apart from deploying, processing leaves the tickers alone or changes one supply of one ticker. */
  lemma TickersChange(cfg: Config, height: int, l: Ledger, rec: Rec, granted: bool)
    requires !rec.event.DeployInscribe? && Effect(cfg, height, l, rec, granted).Ok?
    ensures Shifted(l.tickers, rec.event, Effect(cfg, height, l, rec, granted).value.tickers)
  {
  }

  lemma ShiftStaysInUnits(before: map<string, Ticker>, e: Event, after: map<string, Ticker>)
    requires !e.DeployInscribe? && EventInUnits(before, e) && Shifted(before, e, after)
    requires forall t :: t in before ==> TickerInUnits(before[t])
    ensures forall t :: t in after ==> TickerInUnits(after[t])
    ensures forall t :: t in before ==> t in after && after[t].decimals == before[t].decimals
    ensures EventInUnits(after, e)
  {
    TickerShifts(before[e.ticker], e.amount);
  }

  /** Processing changes tickers only by amounts in units. */
  lemma TickersStayInUnits(cfg: Config, height: int, l: Ledger, rec: Rec, granted: bool)
    requires InUnits(l) && Fine(l, rec.event) && Effect(cfg, height, l, rec, granted).Ok?
    ensures var tickers := Effect(cfg, height, l, rec, granted).value.tickers;
            && (forall t :: t in tickers ==> TickerInUnits(tickers[t]))
            && (forall t :: t in l.tickers ==> t in tickers && tickers[t].decimals == l.tickers[t].decimals)
            && EventInUnits(tickers, rec.event)
  {
    var e := rec.event;
    if e.DeployInscribe? {
      ZeroIsMultiple(e.decimals);
    } else {
      OthersStayInUnits(cfg, height, l, rec, granted);
    }
  }

  lemma OthersStayInUnits(cfg: Config, height: int, l: Ledger, rec: Rec, granted: bool)
    requires InUnits(l) && Fine(l, rec.event) && Effect(cfg, height, l, rec, granted).Ok? && !rec.event.DeployInscribe?
    ensures var tickers := Effect(cfg, height, l, rec, granted).value.tickers;
            && (forall t :: t in tickers ==> TickerInUnits(tickers[t]))
            && (forall t :: t in l.tickers ==> t in tickers && tickers[t].decimals == l.tickers[t].decimals)
            && EventInUnits(tickers, rec.event)
  {
    TickersChange(cfg, height, l, rec, granted);
    ShiftStaysInUnits(l.tickers, rec.event, Effect(cfg, height, l, rec, granted).value.tickers);
  }

  lemma BalancesLater(tickers: map<string, Ticker>, later: map<string, Ticker>, balances: map<Account, Balance>)
    requires BalancesInUnits(tickers, balances)
    requires forall t :: t in tickers ==> t in later && later[t].decimals == tickers[t].decimals
    ensures BalancesInUnits(later, balances)
  {
  }

  lemma TransferInUnits(cfg: Config, height: int, l: Ledger, e: Event)
    requires InUnits(l) && e.TransferTransfer? && Fine(l, e) && ProcessTransfer(cfg, height, l, e).Ok?
    ensures BalancesInUnits(l.tickers, ProcessTransfer(cfg, height, l, e).value.balances)
  {
    ZeroIsMultiple(l.tickers[e.ticker].decimals);
    match DestinationOf(cfg, height, e)
    case ToSource => AddInUnits(l.tickers, l.balances, e.ticker, e.sourcePkscript, 0, e.amount);
    case Burned => TakeInUnits(l.tickers, l.balances, e.ticker, e.sourcePkscript, e.amount, 0);
    case ToModule => MoveInUnits(l, e.ticker, e.sourcePkscript, MODULE_PKSCRIPT, e.amount, 0);
    case ToPkscript(pk) => MoveInUnits(l, e.ticker, e.sourcePkscript, pk, e.amount, 0);
  }

  lemma MoveInUnits(l: Ledger, t: string, from: Pkscript, to: Pkscript, amount: nat, available: nat)
    requires InUnits(l) && t in l.tickers && CanTake(l.balances, t, from, amount, available)
    requires Multiple(amount, l.tickers[t].decimals) && Multiple(available, l.tickers[t].decimals)
    ensures BalancesInUnits(l.tickers, AddTo(TakeFrom(l.balances, t, from, amount, available), t, to, amount, amount))
  {
    TakeInUnits(l.tickers, l.balances, t, from, amount, available);
    AddInUnits(l.tickers, TakeFrom(l.balances, t, from, amount, available), t, to, amount, amount);
  }

  lemma BalancesStayInUnits(cfg: Config, height: int, l: Ledger, rec: Rec, granted: bool)
    requires InUnits(l) && Fine(l, rec.event) && Effect(cfg, height, l, rec, granted).Ok?
    ensures BalancesInUnits(l.tickers, Effect(cfg, height, l, rec, granted).value.balances)
  {
    var e := rec.event;
    match KindOf(e)
    case MintKind => AddInUnits(l.tickers, l.balances, e.ticker, e.mintedPkscript, e.amount, e.amount);
    case InscribeKind =>
      ZeroIsMultiple(l.tickers[e.ticker].decimals);
      TakeInUnits(l.tickers, l.balances, e.ticker, e.sourcePkscript, 0, e.amount);
    case TransferKind =>
      if CanSpend(l.log, InscribeKind, TransferKind, rec.id) {
        TransferInUnits(cfg, height, l, e);
      }
    case WithdrawTransferKind =>
      if ProcessWithdraw(l, e, granted).value != l {
        MoveInUnits(l, e.ticker, MODULE_PKSCRIPT, e.spentPkscript.value, e.amount, e.amount);
      }
    case _ =>
  }

  lemma ProcessInUnits(cfg: Config, height: int, l: Ledger, rec: Rec, granted: bool)
    requires InUnits(l) && Fine(l, rec.event) && Process(cfg, height, l, rec, granted).Ok?
    ensures InUnits(Process(cfg, height, l, rec, granted).value)
  {
    var u := Effect(cfg, height, l, rec, granted).value;
    TickersStayInUnits(cfg, height, l, rec, granted);
    BalancesStayInUnits(cfg, height, l, rec, granted);
    BalancesLater(l.tickers, u.tickers, u.balances);
    forall r | r in l.log ensures EventInUnits(u.tickers, r.event) {
      assert EventInUnits(l.tickers, r.event);
    }
  }

  /** In every reachable ledger all supplies, balances and event amounts are whole units of their ticker. */
  lemma {:induction false} RunsStayInUnits(cfg: Config, start: Ledger, steps: seq<Step>)
    requires InUnits(start) && Run(cfg, start, steps).Ok?
    ensures InUnits(Run(cfg, start, steps).value)
  {
    if steps != [] {
      var front, last := steps[..|steps| - 1], steps[|steps| - 1];
      RunsStayInUnits(cfg, start, front);
      var l := Run(cfg, start, front).value;
      if Generate(cfg, l, last.height, last.tx).Emit? {
        GenerateFine(cfg, l, last.height, last.tx);
        ProcessInUnits(cfg, last.height, l, Generate(cfg, l, last.height, last.tx).rec, last.granted);
      }
    }
  }

}
