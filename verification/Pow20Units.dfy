/** Every POW-20 quantity of a ticker with d decimals is a whole number of its units of 10^(18-d). So the text of an
    event, which cuts amounts to the ticker's decimals, states them exactly. */
module Pow20Units {
  import opened Wrappers
  import opened Numerals
  import opened Amounts
  import opened Units
  import opened Rows
  import opened Balances
  import opened Pow20Ledger
  import opened Pow20Blocks
  import F = ChainFollower
  import opened Pow20Run
  import opened Pow20Induction

  predicate TickerInUnits(t: Ticker) {
    Multiple(t.maxSupply, t.decimals) && Multiple(t.limitPerMint, t.decimals) && Multiple(t.remaining, t.decimals)
  }

  predicate BalanceInUnits(b: Balance, decimals: Decimals) {
    Multiple(b.overall, decimals) && Multiple(b.available, decimals)
  }

  predicate RowInUnits(tickers: map<string, Ticker>, r: Row<BalanceRec>) {
    r.value.tick in tickers && BalanceInUnits(r.value.balance, tickers[r.value.tick].decimals)
  }

  function AmountsIn(e: Event): seq<nat> {
    if e.DeployInscribe? then [e.maxSupply, e.limitPerMint] else [e.amount]
  }

  predicate EventInUnits(tickers: map<string, Ticker>, e: Event) {
    e.tick in tickers && forall x :: x in AmountsIn(e) ==> Multiple(x, tickers[e.tick].decimals)
  }

  predicate RowsInUnits(tickers: map<string, Ticker>, rows: seq<Row<BalanceRec>>) {
    forall r :: r in rows ==> RowInUnits(tickers, r)
  }

  predicate EventsInUnits(tickers: map<string, Ticker>, events: seq<Row<EventRec>>) {
    forall r :: r in events ==> EventInUnits(tickers, r.value.event)
  }

  predicate InUnits(t: Tables) {
    && (forall k :: k in t.tickers ==> TickerInUnits(t.tickers[k]))
    && RowsInUnits(t.tickers, t.balances) && EventsInUnits(t.tickers, t.events)
  }

  lemma BalanceOfInUnits(tickers: map<string, Ticker>, rows: seq<Row<BalanceRec>>, pk: string, tick: string)
    requires RowsInUnits(tickers, rows) && tick in tickers
    ensures BalanceInUnits(BalanceOf(rows, pk, tick), tickers[tick].decimals)
  {
    ZeroIsMultiple(tickers[tick].decimals);
    var row := Newest(rows, pk, tick);
    if row.Some? {
      assert RowInUnits(tickers, row.value);
    }
  }

  lemma AdjustedInUnits(tickers: map<string, Ticker>, b: Balance, pk: string, wallet: Option<string>, tick: string,
                        overallBy: int, availableBy: int, height: int)
    requires tick in tickers && BalanceInUnits(b, tickers[tick].decimals)
    requires Multiple(overallBy, tickers[tick].decimals) && Multiple(availableBy, tickers[tick].decimals)
    ensures RowInUnits(tickers, AdjustedRow(b, pk, wallet, tick, overallBy, availableBy, height))
  {
    ShiftedMultiple(b.overall, overallBy, tickers[tick].decimals);
    ShiftedMultiple(b.available, availableBy, tickers[tick].decimals);
  }

  // ---------- one step ----------

  /** What a decided step brings: amounts come from texts, or from what is left of the supply. */
  predicate StepInUnits(t: Tables, s: Step) {
    if s.Deploy? then s.tick !in t.tickers && Multiple(s.maxSupply, s.decimals) && Multiple(s.limitPerMint, s.decimals)
    else s.tick in t.tickers && Multiple(s.amount, t.tickers[s.tick].decimals)
  }

  lemma ReadInUnits(text: string, decimals: Decimals)
    requires ReadAmount(text, decimals).Some?
    ensures Multiple(ReadAmount(text, decimals).value, decimals)
  {
    ExtendReads(text, decimals);
    ScaledIsMultiple(text, decimals);
  }

  lemma DeployInUnits(env: Env, t: Tables, height: int, tr: Transfer, tick: string)
    ensures var d := DecideDeploy(env, t, height, tr, tick); d.Commit? ==> StepInUnits(t, d.step)
  {
    var d := DecideDeploy(env, t, height, tr, tick);
    if d.Commit? {
      ReadInUnits(env.content(tr.inscriptionId)["max"], d.step.decimals);
      if "lim" in env.content(tr.inscriptionId) {
        ReadInUnits(env.content(tr.inscriptionId)["lim"], d.step.decimals);
      }
    }
  }

  lemma AmountInUnits(env: Env, t: Tables, height: int, tr: Transfer, tick: string)
    requires forall k :: k in t.tickers ==> TickerInUnits(t.tickers[k])
    ensures var d := DecideMint(env, t, height, tr, tick); d.Commit? ==> StepInUnits(t, d.step)
    ensures var d := DecideTransfer(env, t, tr, tick); d.Commit? ==> StepInUnits(t, d.step)
  {
    var js := env.content(tr.inscriptionId);
    if tick in t.tickers && "amt" in js && ReadAmount(js["amt"], t.tickers[tick].decimals).Some? {
      ReadInUnits(js["amt"], t.tickers[tick].decimals);
      assert TickerInUnits(t.tickers[tick]);
    }
  }

  lemma DecidedInUnits(env: Env, t: Tables, height: int, tr: Transfer)
    requires InUnits(t)
    ensures var d := Decide(env, t, height, tr); d.Commit? ==> CanApply(t, d.step) && StepInUnits(t, d.step)
  {
    DecideIsApplicable(env, t, height, tr);
    if "tick" in env.content(tr.inscriptionId) {
      DeployInUnits(env, t, height, tr, env.lower(env.content(tr.inscriptionId)["tick"]));
      AmountInUnits(env, t, height, tr, env.lower(env.content(tr.inscriptionId)["tick"]));
    }
  }

  /** The decimals of a ticker never change. */
  predicate SameDecimals(tickers: map<string, Ticker>, later: map<string, Ticker>) {
    forall k :: k in tickers ==> k in later && later[k].decimals == tickers[k].decimals
  }

  lemma TickersStayInUnits(t: Tables, height: int, s: Step)
    requires InUnits(t) && CanApply(t, s) && StepInUnits(t, s)
    ensures var later := TickersAfter(t, height, s);
            SameDecimals(t.tickers, later) && forall k :: k in later ==> TickerInUnits(later[k])
  {
    if s.Mint? {
      assert TickerInUnits(t.tickers[s.tick]);
      ShiftedMultiple(t.tickers[s.tick].remaining, s.amount, t.tickers[s.tick].decimals);
    }
  }

  /** Adjusting an account's balance by whole units. */
  lemma AccountInUnits(tickers: map<string, Ticker>, rows: seq<Row<BalanceRec>>, pk: string, wallet: Option<string>,
                       tick: string,
                       overallBy: int, availableBy: int, height: int)
    requires RowsInUnits(tickers, rows) && tick in tickers
    requires Multiple(overallBy, tickers[tick].decimals) && Multiple(availableBy, tickers[tick].decimals)
    ensures RowInUnits(tickers, AdjustedRow(BalanceOf(rows, pk, tick), pk, wallet, tick, overallBy, availableBy,
                                            height))
  {
    BalanceOfInUnits(tickers, rows, pk, tick);
    AdjustedInUnits(tickers, BalanceOf(rows, pk, tick), pk, wallet, tick, overallBy, availableBy, height);
  }

  lemma OneRowInUnits(tickers: map<string, Ticker>, rows: seq<Row<BalanceRec>>, pk: string, wallet: Option<string>,
                      tick: string,
                      overallBy: int, availableBy: int, height: int)
    requires RowsInUnits(tickers, rows) && tick in tickers
    requires Multiple(overallBy, tickers[tick].decimals) && Multiple(availableBy, tickers[tick].decimals)
    ensures RowsInUnits(tickers, [AdjustedRow(BalanceOf(rows, pk, tick), pk, wallet, tick, overallBy, availableBy,
                                              height)])
  {
    AccountInUnits(tickers, rows, pk, wallet, tick, overallBy, availableBy, height);
  }

  /** Zero, and the negative of whole units. */
  lemma NegativeInUnits(amount: nat, decimals: Decimals)
    requires Multiple(amount, decimals)
    ensures Multiple(0, decimals) && Multiple(0 - amount, decimals)
  {
    ZeroIsMultiple(decimals);
    ShiftedMultiple(0, amount, decimals);
  }

  lemma TwoRowsInUnits(tickers: map<string, Ticker>, a: Row<BalanceRec>, b: Row<BalanceRec>)
    requires RowInUnits(tickers, a) && RowInUnits(tickers, b)
    ensures RowsInUnits(tickers, [a, b])
  {
  }

  lemma MovedInUnits(tickers: map<string, Ticker>, rows: seq<Row<BalanceRec>>, source: string,
                     sourceWallet: Option<string>,
                     spent: string, spentWallet: Option<string>, tick: string, amount: nat, height: int)
    requires RowsInUnits(tickers, rows) && tick in tickers && Multiple(amount, tickers[tick].decimals)
    ensures RowsInUnits(tickers, MovedRows(rows, source, sourceWallet, spent, spentWallet, tick, amount, height))
  {
    var debit := AdjustedRow(BalanceOf(rows, source, tick), source, sourceWallet, tick, 0 - amount, 0, height);
    NegativeInUnits(amount, tickers[tick].decimals);
    AccountInUnits(tickers, rows, source, sourceWallet, tick, 0 - amount, 0, height);
    BalanceOfInUnits(tickers, rows, spent, tick);
    var b := if spent == source then debit.value.balance else BalanceOf(rows, spent, tick);
    AdjustedInUnits(tickers, b, spent, spentWallet, tick, amount, amount, height);
    TwoRowsInUnits(tickers, debit, AdjustedRow(b, spent, spentWallet, tick, amount, amount, height));
  }

  lemma NewRowsInUnits(t: Tables, height: int, s: Step)
    requires InUnits(t) && CanApply(t, s) && StepInUnits(t, s)
    ensures RowsInUnits(t.tickers, BalanceRowsOf(t, height, s))
  {
    if !s.Deploy? {
      NegativeInUnits(s.amount, t.tickers[s.tick].decimals);
    }
    match s
    case Deploy(_, _, _, _, _, _, _, _, _) =>
    case Mint(_, pk, wallet, tick, amount, _) =>
      OneRowInUnits(t.tickers, t.balances, pk, wallet, tick, amount, amount, height);
    case Inscribe(_, pk, wallet, tick, amount) =>
      OneRowInUnits(t.tickers, t.balances, pk, wallet, tick, 0, 0 - amount, height);
    case Move(id, pk, wallet, tick, amount, _) =>
      var e := FindEvent(t.events, InscribeKind, id).value;
      MovedInUnits(t.tickers, t.balances, e.sourcePkscript, e.sourceWallet, pk, wallet, tick, amount, height);
    case SpendToFee(id, tick, amount, _) =>
      var e := FindEvent(t.events, InscribeKind, id).value;
      OneRowInUnits(t.tickers, t.balances, e.sourcePkscript, e.sourceWallet, tick, 0, amount, height);
  }

  lemma RowsLater(tickers: map<string, Ticker>, later: map<string, Ticker>, rows: seq<Row<BalanceRec>>,
                  more: seq<Row<BalanceRec>>)
    requires RowsInUnits(tickers, rows) && RowsInUnits(tickers, more) && SameDecimals(tickers, later)
    ensures RowsInUnits(later, rows + more)
  {
    forall r | r in rows + more ensures RowInUnits(later, r) {
      assert RowInUnits(tickers, r);
    }
  }

  lemma EventsLater(tickers: map<string, Ticker>, later: map<string, Ticker>, events: seq<Row<EventRec>>,
                    r: Row<EventRec>)
    requires EventsInUnits(tickers, events) && EventInUnits(later, r.value.event) && SameDecimals(tickers, later)
    ensures EventsInUnits(later, events + [r])
  {
    forall x | x in events ensures EventInUnits(later, x.value.event) {
      assert EventInUnits(tickers, x.value.event);
    }
  }

  lemma NewEventInUnits(t: Tables, height: int, s: Step)
    requires CanApply(t, s) && StepInUnits(t, s)
    ensures EventInUnits(TickersAfter(t, height, s), EventOf(t, s))
  {
  }

  lemma StepKeepsUnits(t: Tables, height: int, s: Step)
    requires InUnits(t) && CanApply(t, s) && StepInUnits(t, s)
    ensures InUnits(Apply(t, height, s))
  {
    var later := TickersAfter(t, height, s);
    TickersStayInUnits(t, height, s);
    NewRowsInUnits(t, height, s);
    RowsLater(t.tickers, later, t.balances, BalanceRowsOf(t, height, s));
    NewEventInUnits(t, height, s);
    EventsLater(t.tickers, later, t.events, Row(height, EventRec(s.inscriptionId, EventOf(t, s))));
  }

  // ---------- whole replays ----------

  lemma AdvanceKeepsUnits(env: Env, c: Cursor, height: int, tr: Transfer)
    requires InUnits(c.tables)
    ensures InUnits(Pow20Rules(env).advance(c, height, tr).cursor.tables)
  {
    DecidedInUnits(env, c.tables, height, tr);
    var d := Decide(env, c.tables, height, tr);
    if d.Commit? {
      StepKeepsUnits(c.tables, height, d.step);
    }
  }

  /** In every replay, and so whenever a block starts to be indexed, all supplies, balances and event amounts of a
      ticker are whole numbers of its units. */
  lemma ReplayIsInUnits(env: Env, first: int, chain: seq<Block>, t: Tables)
    requires F.Replay(Pow20Machine(env, first), chain) == Some(t)
    ensures InUnits(t)
  {
    forall c: Cursor, height, tr ensures KeptAt(env, InUnits, c, height, tr) {
      if InUnits(c.tables) {
        AdvanceKeepsUnits(env, c, height, tr);
      }
    }
    HoldsOfReplays(env, first, InUnits, chain, t);
  }

  /** The text of every event states its amounts exactly: printed with the ticker's decimals and read back, an amount
      is itself. */
  lemma EventAmountsReadBack(env: Env, first: int, chain: seq<Block>, t: Tables, i: nat, x: nat)
    requires F.Replay(Pow20Machine(env, first), chain) == Some(t)
    requires i < |t.events| && x in AmountsIn(t.events[i].value.event)
    ensures var e := t.events[i].value.event;
            && e.tick in t.tickers
            && var decimals := t.tickers[e.tick].decimals;
               var text := FixNumstrDecimals(ShowNat(x), decimals);
               IsDecimal(text) && ExtendTo18(text, decimals) == Some(x)
  {
    ReplayIsInUnits(env, first, chain, t);
    var e := t.events[i].value.event;
    assert EventInUnits(t.tickers, e);
    FixThenExtend(x, t.tickers[e.tick].decimals);
  }

}
