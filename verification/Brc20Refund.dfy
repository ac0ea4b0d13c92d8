/** The swap refund: at one height, whatever the swap module holds is sent to a refund address, ticker by
    ticker, as a pair of made-up transfer events under made-up inscription ids. */
module Brc20Refund {
  import opened Wrappers
  import opened Numerals
  import opened Bytes
  import opened Brc20Ledger
  import opened Brc20Sums
  import opened Brc20Invariants
  import opened Brc20Run
  import opened Brc20Database
  import opened Brc20Store
  import opened Brc20Indexer
  import opened Brc20FullNode

  // ---------- the ids ----------

  /** The prefix is the text BRC20SWAPREFUND. */
  function PaddedHex(prefix: seq<Byte>, ticker: seq<Byte>): string {
    var text := Hex(prefix) + Hex(ticker);
    if |text| < 64 then text + Zeros(64 - |text|) else text
  }

  function RefundId(prefix: seq<Byte>, ticker: seq<Byte>): string {
    PaddedHex(prefix, ticker) + "i0"
  }

  method GetInscriptionIdForTickerRefundHex(prefix: seq<Byte>, ticker: seq<Byte>) returns (id: string)
    ensures id == RefundId(prefix, ticker)
  {
    ghost var text := Hex(prefix) + Hex(ticker);
    id := Hex(prefix) + Hex(ticker);
    assert text + Zeros(0) == text;
    while |id| < 64
      invariant |id| == |text| || |text| <= |id| <= 64
      invariant id == text + Zeros(|id| - |text|)
    {
      assert Zeros(|id| - |text|) + "0" == Zeros(|id| - |text| + 1);
      id := id + "0";
    }
    id := id + "i0";
  }

  /** Deployed tickers are short, so the id has the form of an inscription id. */
  lemma RefundIdForm(prefix: seq<Byte>, ticker: seq<Byte>)
    requires |prefix| + |ticker| <= 32
    ensures IsInscriptionId(RefundId(prefix, ticker))
  {
    HexHasNoLetterI(prefix);
    HexHasNoLetterI(ticker);
    assert RefundId(prefix, ticker)[..64] == PaddedHex(prefix, ticker);
  }

  lemma PaddedHexAt(prefix: seq<Byte>, ticker: seq<Byte>, k: nat)
    requires 2 * (|prefix| + k) + 1 < |PaddedHex(prefix, ticker)|
    ensures var b := if k < |ticker| then ticker[k] else 0;
            var text := PaddedHex(prefix, ticker);
            text[2 * (|prefix| + k)] == HexDigit(b / 16) && text[2 * (|prefix| + k) + 1] == HexDigit(b % 16)
  {
    if k < |ticker| {
      HexAt(ticker, k);
    }
  }

  /** Padding with zero digits is padding with NUL bytes, so tickers without NUL get different ids. */
  lemma RefundIdsDiffer(prefix: seq<Byte>, a: seq<Byte>, b: seq<Byte>)
    requires 0 !in a && 0 !in b && |a| <= |b|
    requires RefundId(prefix, a) == RefundId(prefix, b)
    ensures a == b
  {
    var text := PaddedHex(prefix, b);
    assert PaddedHex(prefix, a) == RefundId(prefix, a)[..|RefundId(prefix, a)| - 2] == text;
    if |a| < |b| {
      SameByte(prefix, a, b, |a|);
    } else {
      forall k | 0 <= k < |b| ensures a[k] == b[k] {
        SameByte(prefix, a, b, k);
      }
    }
  }

  lemma SameByte(prefix: seq<Byte>, a: seq<Byte>, b: seq<Byte>, k: nat)
    requires k < |b| && PaddedHex(prefix, a) == PaddedHex(prefix, b)
    ensures b[k] == if k < |a| then a[k] else 0
  {
    PaddedHexAt(prefix, a, k);
    PaddedHexAt(prefix, b, k);
    var x := if k < |a| then a[k] else 0;
    HexDigitInjective(x / 16, b[k] / 16);
    HexDigitInjective(x % 16, b[k] % 16);
  }

  // ---------- one ticker ----------

  datatype Refund = Refund(ticker: string, id: InscriptionId, source: Pkscript, target: Pkscript)

  function InscribeRec(r: Refund, amount: nat): Rec {
    Rec(r.id, TransferInscribe(r.source, r.ticker, amount))
  }

  function TransferRec(r: Refund, original: string, amount: nat): Rec {
    Rec(r.id, TransferTransfer(r.source, Some(r.target), r.ticker, original, amount))
  }

  /** The target is an ordinary script, different from the swap module. */
  predicate Ordinary(r: Refund) {
    r.source != r.target && r.target != "" && r.target != MODULE_PKSCRIPT && r.target != OP_RETURN
  }

  function Refunded(balances: map<Account, Balance>, r: Refund): map<Account, Balance> {
    var held := BalanceOf(balances, r.ticker, r.source);
    var locked := balances[(r.ticker, r.source) := Balance(held.overall, 0)];
    var taken := locked[(r.ticker, r.source) := Balance(0, 0)];
    AddTo(taken, r.ticker, r.target, held.overall, held.overall)
  }

  lemma RefundLocks(cfg: Config, height: int, l: Ledger, r: Refund)
    requires Sound(l) && r.ticker in l.tickers
    requires !Recorded(l.log, InscribeKind, r.id) && !Recorded(l.log, TransferKind, r.id)
    requires var b := BalanceOf(l.balances, r.ticker, r.source); b.available == b.overall
    ensures var b := BalanceOf(l.balances, r.ticker, r.source);
            && Fits(l, InscribeRec(r, b.overall))
            && Process(cfg, height, l, InscribeRec(r, b.overall), false)
                 == Ok(Ledger(l.tickers, l.balances[(r.ticker, r.source) := Balance(b.overall, 0)],
                              l.log + [InscribeRec(r, b.overall)]))
            && Sound(Process(cfg, height, l, InscribeRec(r, b.overall), false).value)
  {
    var b := BalanceOf(l.balances, r.ticker, r.source);
    InscribeKeeps(cfg, height, l, InscribeRec(r, b.overall));
  }

  /** What the settlement of the transfer does to the locked holding. */
  lemma HeldMoves(cfg: Config, height: int, l: Ledger, l1: Ledger, r: Refund, original: string, amount: nat)
    requires Ordinary(r) && BalanceOf(l.balances, r.ticker, r.source) == Balance(amount, amount)
    requires l1.balances == l.balances[(r.ticker, r.source) := Balance(amount, 0)]
    ensures ProcessTransfer(cfg, height, l1, TransferRec(r, original, amount).event)
              == Ok(l1.(balances := Refunded(l.balances, r)))
  {
    assert DestinationOf(cfg, height, TransferRec(r, original, amount).event) == ToPkscript(r.target);
  }

  /** Inscribing and transferring all of it moves exactly it. */
  lemma RefundMoves(cfg: Config, height: int, l: Ledger, r: Refund, original: string, amount: nat, l1: Ledger)
    requires Ordinary(r) && r.ticker in l.tickers && Sound(l1)
    requires !Recorded(l.log, InscribeKind, r.id) && !Recorded(l.log, TransferKind, r.id)
    requires BalanceOf(l.balances, r.ticker, r.source) == Balance(amount, amount)
    requires l1 == Ledger(l.tickers, l.balances[(r.ticker, r.source) := Balance(amount, 0)],
                          l.log + [InscribeRec(r, amount)])
    ensures Fits(l1, TransferRec(r, original, amount))
    ensures Process(cfg, height, l1, TransferRec(r, original, amount), false)
              == Ok(Ledger(l.tickers, Refunded(l.balances, r), l1.log + [TransferRec(r, original, amount)]))
    ensures Sound(Process(cfg, height, l1, TransferRec(r, original, amount), false).value)
  {
    var transfer := TransferRec(r, original, amount);
    FindPush(l.log, InscribeRec(r, amount), InscribeKind, r.id);
    FindPush(l.log, InscribeRec(r, amount), TransferKind, r.id);
    HeldMoves(cfg, height, l, l1, r, original, amount);
    TransferSound(cfg, height, l1, transfer);
  }

  /** The made-up inscription is spent at once, so re-reading its content never matters. */
  lemma RefundRereads(cfg: Config, tickers: map<string, Ticker>, log: seq<Rec>, r: Refund, original: string,
                      amount: nat)
    requires AllReread(cfg, tickers, log)
    ensures AllReread(cfg, tickers, log + [InscribeRec(r, amount)] + [TransferRec(r, original, amount)])
  {
    var inscribe, transfer := InscribeRec(r, amount), TransferRec(r, original, amount);
    var log' := log + [inscribe] + [transfer];
    forall rec | rec in log' ensures Rereads(cfg, tickers, log', rec) {
      FindPush(log, inscribe, TransferKind, rec.id);
      FindPush(log + [inscribe], transfer, TransferKind, rec.id);
      if rec in log {
        assert Rereads(cfg, tickers, log, rec);
      }
    }
  }

  /** Who holds what afterwards. */
  lemma RefundedBalances(balances: map<Account, Balance>, r: Refund, t: string, pk: Pkscript)
    requires r.source != r.target
    ensures var before, after := BalanceOf(balances, t, pk), BalanceOf(Refunded(balances, r), t, pk);
            var held := BalanceOf(balances, r.ticker, r.source).overall;
            if t != r.ticker || (pk != r.source && pk != r.target) then after == before
            else if pk == r.source then after == ZERO
            else after == Balance(before.overall + held, before.available + held)
  {
  }

  /** Everything the swap module holds of a ticker is locked in a made-up transfer; refused exactly when part of it is
      locked already. */
  method RefundInscribe(db: Store, cfg: Config, height: int, r: Refund, amount: nat, ghost l: Ledger,
                        ghost first: Result<Ledger>)
    returns (ok: bool)
    requires db.Valid(cfg) && db.RowsUpTo(height) && db.View() == l && Sound(l)
    requires InscribeKindOf(cfg, r.id) == InscribeKind && forall kind :: !Recorded(l.log, kind, r.id)
    requires BalanceOf(l.balances, r.ticker, r.source).available <= amount
    requires first == Process(cfg, height, l, InscribeRec(r, amount), false)
    requires BalanceOf(l.balances, r.ticker, r.source).available == amount ==>
               Fits(l, InscribeRec(r, amount)) && first.Ok?
    modifies db`cachedEvents, db`eventInserts, db`transferValidity, db`balanceCache, db`balanceUpdates,
             db`tickers, db`newTickers, db`tickerUpdates
    ensures ok <==> BalanceOf(l.balances, r.ticker, r.source).available == amount
    ensures ok ==> db.Valid(cfg) && db.RowsUpTo(height) && first == Ok(db.View())
  {
    var inscribe := GenerateTransferInscribe(db, cfg, Tx(r.id, None, r.source, false, None), r.ticker, amount, l);
    if !inscribe.Emit? {
      return false;
    }
    assert inscribe.rec == InscribeRec(r, amount);
    ok := ProcessRecorded(db, cfg, height, l, InscribeRec(r, amount), false);
  }

  /** The made-up transfer is spent to the refund address. */
  method RefundTransfer(db: Store, cfg: Config, height: int, r: Refund, original: string, amount: nat, ghost l: Ledger,
                        ghost second: Result<Ledger>)
    returns (ok: bool)
    requires db.Valid(cfg) && db.RowsUpTo(height) && db.View() == l && Sound(l)
    requires InscribeKindOf(cfg, r.id) == InscribeKind && TransferKindOf(cfg, r.id) == TransferKind
    requires Fits(l, TransferRec(r, original, amount))
    requires second == Process(cfg, height, l, TransferRec(r, original, amount), false) && second.Ok?
    modifies db`cachedEvents, db`eventInserts, db`transferValidity, db`balanceCache, db`balanceUpdates,
             db`tickers, db`newTickers, db`tickerUpdates
    ensures ok && db.Valid(cfg) && db.RowsUpTo(height) && second == Ok(db.View())
  {
    var transfer := GenerateTransferTransfer(db, cfg, Tx(r.id, None, r.target, false, None), r.ticker, original, amount,
                                             l);
    if !transfer.Emit? {
      return false;
    }
    ok := ProcessRecorded(db, cfg, height, l, transfer.rec, false);
  }

  /** The pair of events of one ticker, unless part of the holding is locked. */
  method RefundTicker(db: Store, cfg: Config, height: int, r: Refund, original: string, held: Balance, ghost l: Ledger)
    returns (ok: bool)
    requires db.Valid(cfg) && db.RowsUpTo(height) && db.View() == l && Inv(cfg, l)
    requires Ordinary(r) && r.ticker in l.tickers && !Has(cfg.content(r.id), "p", "brc20-module")
    requires forall kind :: !Recorded(l.log, kind, r.id)
    requires BalanceOf(l.balances, r.ticker, r.source) == held
    modifies db`cachedEvents, db`eventInserts, db`transferValidity, db`balanceCache, db`balanceUpdates,
             db`tickers, db`newTickers, db`tickerUpdates
    ensures ok <==> held.available == held.overall
    ensures ok ==> db.Valid(cfg) && db.RowsUpTo(height) && Inv(cfg, db.View())
    ensures ok ==> db.View() == Ledger(l.tickers, Refunded(l.balances, r),
                                       l.log + [InscribeRec(r, held.overall)]
                                       + [TransferRec(r, original, held.overall)])
  {
    var amount := held.overall;
    ghost var first := Process(cfg, height, l, InscribeRec(r, amount), false);
    Bounds(l, r.ticker, r.source);
    if held.available == held.overall {
      RefundLocks(cfg, height, l, r);
    }
    ok := RefundInscribe(db, cfg, height, r, amount, l, first);
    if !ok {
      return;
    }
    RefundMoves(cfg, height, l, r, original, amount, first.value);
    RefundRereads(cfg, l.tickers, l.log, r, original, amount);
    ghost var second := Process(cfg, height, first.value, TransferRec(r, original, amount), false);
    ok := RefundTransfer(db, cfg, height, r, original, amount, first.value, second);
  }

  // ---------- all tickers ----------

  /** `encode` gives the bytes of a ticker; distinct tickers have distinct bytes and none is NUL. */
  datatype Plan = Plan(prefix: seq<Byte>, encode: string -> seq<Byte>, source: Pkscript, target: Pkscript)

  ghost predicate Encodes(plan: Plan, tickers: map<string, Ticker>) {
    && (forall t :: t in tickers ==> |plan.prefix| + |plan.encode(t)| <= 32 && 0 !in plan.encode(t))
    && (forall t, u :: t in tickers && u in tickers && plan.encode(t) == plan.encode(u) ==> t == u)
  }

  function IdOf(plan: Plan, ticker: string): string {
    RefundId(plan.prefix, plan.encode(ticker))
  }

  /** The made-up ids have not been used, and no inscription of that id withdraws. */
  ghost predicate Unused(cfg: Config, plan: Plan, log: seq<Rec>, ticker: string) {
    IsInscriptionId(IdOf(plan, ticker)) ==>
      && !Has(cfg.content(IdOf(plan, ticker)), "p", "brc20-module")
      && forall kind :: !Recorded(log, kind, IdOf(plan, ticker))
  }

  ghost predicate AllFree(plan: Plan, balances: map<Account, Balance>) {
    forall t :: BalanceOf(balances, t, plan.source).available == BalanceOf(balances, t, plan.source).overall
  }

  /** Tickers in `done` have been refunded, the others not yet. */
  predicate RefundedSoFar(plan: Plan, before: map<Account, Balance>, now: map<Account, Balance>, done: set<string>,
                          t: string, pk: Pkscript) {
    var b, held := BalanceOf(before, t, pk), BalanceOf(before, t, plan.source).overall;
    BalanceOf(now, t, pk) ==
      if t !in done || (pk != plan.source && pk != plan.target) then b
      else if pk == plan.source then ZERO
      else Balance(b.overall + held, b.available + held)
  }

  ghost predicate AllRefunded(plan: Plan, before: map<Account, Balance>, now: map<Account, Balance>,
                              done: set<string>) {
    forall t, pk :: RefundedSoFar(plan, before, now, done, t, pk)
  }

  lemma RefundedNext(plan: Plan, before: map<Account, Balance>, now: map<Account, Balance>, done: set<string>,
                     r: Refund)
    requires AllRefunded(plan, before, now, done) && r.ticker !in done
    requires r.source == plan.source != plan.target == r.target
    ensures AllRefunded(plan, before, Refunded(now, r), done + {r.ticker})
  {
    forall t, pk ensures RefundedSoFar(plan, before, Refunded(now, r), done + {r.ticker}, t, pk) {
      RefundedBalances(now, r, t, pk);
      assert RefundedSoFar(plan, before, now, done, t, pk);
      assert RefundedSoFar(plan, before, now, done, r.ticker, r.source);
    }
  }

  lemma NothingHeld(plan: Plan, before: map<Account, Balance>, now: map<Account, Balance>, done: set<string>,
                    ticker: string)
    requires AllRefunded(plan, before, now, done) && ticker !in done
    requires BalanceOf(before, ticker, plan.source) == ZERO && plan.source != plan.target
    ensures AllRefunded(plan, before, now, done + {ticker})
  {
    forall t, pk ensures RefundedSoFar(plan, before, now, done + {ticker}, t, pk) {
      assert RefundedSoFar(plan, before, now, done, t, pk);
    }
  }

  /** One ticker's events use only its own id. */
  lemma StillUnused(cfg: Config, plan: Plan, tickers: map<string, Ticker>, log: seq<Rec>, r: Refund, original: string,
                    amount: nat, t: string)
    requires Encodes(plan, tickers) && t in tickers && r.ticker in tickers && t != r.ticker
    requires r.id == IdOf(plan, r.ticker)
    requires Unused(cfg, plan, log, t)
    ensures Unused(cfg, plan, log + [InscribeRec(r, amount)] + [TransferRec(r, original, amount)], t)
  {
    if IdOf(plan, t) == r.id {
      if |plan.encode(t)| <= |plan.encode(r.ticker)| {
        RefundIdsDiffer(plan.prefix, plan.encode(t), plan.encode(r.ticker));
      } else {
        RefundIdsDiffer(plan.prefix, plan.encode(r.ticker), plan.encode(t));
      }
    } else if IsInscriptionId(IdOf(plan, t)) {
      var log1 := log + [InscribeRec(r, amount)];
      forall kind ensures !Recorded(log1 + [TransferRec(r, original, amount)], kind, IdOf(plan, t)) {
        assert !Recorded(log, kind, IdOf(plan, t));
        FindPush(log, InscribeRec(r, amount), kind, IdOf(plan, t));
        FindPush(log1, TransferRec(r, original, amount), kind, IdOf(plan, t));
      }
    }
  }

  /** The refund of one ticker, inside the loop. */
  method RefundName(db: Store, cfg: Config, height: int, plan: Plan, name: string, held: Balance, ghost l: Ledger,
                    ghost before: map<Account, Balance>, ghost done: set<string>) returns (ok: bool)
    requires db.Valid(cfg) && db.RowsUpTo(height) && db.View() == l && Inv(cfg, l)
    requires Encodes(plan, l.tickers) && Unused(cfg, plan, l.log, name) && name in l.tickers && name !in done
    requires Targets(plan)
    requires AllRefunded(plan, before, l.balances, done) && BalanceOf(before, name, plan.source) == held
    modifies db`cachedEvents, db`eventInserts, db`transferValidity, db`balanceCache, db`balanceUpdates,
             db`tickers, db`newTickers, db`tickerUpdates
    ensures ok <==> held.available == held.overall
    ensures ok ==> db.Valid(cfg) && db.RowsUpTo(height) && Inv(cfg, db.View()) && db.View().tickers == l.tickers
    ensures ok ==> AllRefunded(plan, before, db.View().balances, done + {name})
    ensures ok ==> forall t :: t in l.tickers && t != name && Unused(cfg, plan, l.log, t) ==>
                     Unused(cfg, plan, db.View().log, t)
  {
    var ticker := db.GetTicker(name);
    if ticker.None? {
      return false;
    }
    RefundIdForm(plan.prefix, plan.encode(name));
    var id := GetInscriptionIdForTickerRefundHex(plan.prefix, plan.encode(name));
    ok := true;
    assert RefundedSoFar(plan, before, l.balances, done, name, plan.source);
    Bounds(l, name, plan.source);
    if held.overall > 0 {
      var r := Refund(name, id, plan.source, plan.target);
      ok := RefundTicker(db, cfg, height, r, ticker.value.originalTicker, held, l);
      if !ok {
        return;
      }
      RefundedNext(plan, before, l.balances, done, r);
      forall t | t in l.tickers && t != name && Unused(cfg, plan, l.log, t)
        ensures Unused(cfg, plan, db.View().log, t) {
        StillUnused(cfg, plan, l.tickers, l.log, r, ticker.value.originalTicker, held.overall, t);
      }
    } else {
      NothingHeld(plan, before, l.balances, done, name);
    }
  }

  /** What the query found: everything the module holds, of deployed tickers. */
  ghost predicate Holdings(plan: Plan, l: Ledger, held: map<string, Balance>) {
    && (forall t :: t in held ==> t in l.tickers && BalanceOf(l.balances, t, plan.source) == held[t])
    && (forall t :: t in held <==> (t, plan.source) in l.balances)
  }

  /** The state between two tickers. */
  ghost predicate Underway(db: Store, cfg: Config, height: int, plan: Plan, before: Ledger, held: map<string, Balance>,
                           names: set<string>)
    reads db
  {
    && names <= held.Keys && db.Valid(cfg) && db.RowsUpTo(height) && Inv(cfg, db.View())
    && db.View().tickers == before.tickers
    && AllRefunded(plan, before.balances, db.View().balances, held.Keys - names)
    && forall t :: t in names ==> Unused(cfg, plan, db.View().log, t)
  }

  predicate Targets(plan: Plan) {
    plan.source != plan.target && plan.target != "" && plan.target != MODULE_PKSCRIPT && plan.target != OP_RETURN
  }

  method RefundNext(db: Store, cfg: Config, height: int, plan: Plan, ghost before: Ledger, held: map<string, Balance>,
                    names: set<string>, name: string) returns (ok: bool)
    requires Underway(db, cfg, height, plan, before, held, names) && name in names
    requires Encodes(plan, before.tickers) && Holdings(plan, before, held) && Targets(plan)
    modifies db`cachedEvents, db`eventInserts, db`transferValidity, db`balanceCache, db`balanceUpdates,
             db`tickers, db`newTickers, db`tickerUpdates
    ensures ok <==> held[name].available == held[name].overall
    ensures ok ==> Underway(db, cfg, height, plan, before, held, names - {name})
  {
    ghost var done := held.Keys - names;
    ok := RefundName(db, cfg, height, plan, name, held[name], db.View(), before.balances, done);
    assert held.Keys - (names - {name}) == done + {name};
  }

  /** No part of a holding is locked. */
  predicate Free(held: map<string, Balance>, names: set<string>) {
    forall t :: t in held && t in names ==> held[t].available == held[t].overall
  }

  /** The tickers in any order, up to the first of which a part is locked. */
  method RefundAll(db: Store, cfg: Config, height: int, plan: Plan, ghost before: Ledger, held: map<string, Balance>)
    returns (ok: bool)
    requires Underway(db, cfg, height, plan, before, held, held.Keys)
    requires Encodes(plan, before.tickers) && Holdings(plan, before, held) && Targets(plan)
    modifies db`cachedEvents, db`eventInserts, db`transferValidity, db`balanceCache, db`balanceUpdates,
             db`tickers, db`newTickers, db`tickerUpdates
    ensures ok <==> Free(held, held.Keys)
    ensures ok ==> Underway(db, cfg, height, plan, before, held, {})
  {
    var names := held.Keys;
    while names != {}
      invariant Underway(db, cfg, height, plan, before, held, names) && Free(held, held.Keys - names)
    {
      var name :| name in names;
      ok := RefundNext(db, cfg, height, plan, before, held, names, name);
      if !ok {
        return;
      }
      names := names - {name};
    }
    return true;
  }

  /** Refunded: the swap module is empty in every ticker, the target has exactly what the module held, and no other
      balance changed. */
  ghost predicate AfterRefund(cfg: Config, plan: Plan, before: Ledger, l: Ledger) {
    && Inv(cfg, l) && l.tickers == before.tickers
    && forall t, pk :: RefundedSoFar(plan, before.balances, l.balances, {t}, t, pk)
  }

  /** The refund goes through if and only if no part of what the swap module holds is locked, whatever the order of the
      tickers; otherwise it ends with an error, and so does every further attempt at the block. */
  method GenerateAndProcessRefunds(db: Store, cfg: Config, height: int, plan: Plan) returns (ok: bool)
    requires db.Valid(cfg) && db.RowsUpTo(height) && db.balanceUpdates == [] && Inv(cfg, db.View())
    requires Encodes(plan, db.View().tickers) && Targets(plan)
    requires forall t :: t in db.View().tickers ==> Unused(cfg, plan, db.View().log, t)
    modifies db`cachedEvents, db`eventInserts, db`transferValidity, db`balanceCache, db`balanceUpdates,
             db`tickers, db`newTickers, db`tickerUpdates
    ensures ok <==> AllFree(plan, old(db.View().balances))
    ensures ok ==> db.Valid(cfg) && db.RowsUpTo(height) && AfterRefund(cfg, plan, old(db.View()), db.View())
  {
    ghost var before := db.View();
    var held := db.GetBalanceAllTickers(plan.source);
    HeldIsDeployed(plan, before, held);
    ok := RefundAll(db, cfg, height, plan, before, held);
    if ok {
      AllDone(plan, before, db.View().balances, held);
    }
  }

  lemma HeldIsDeployed(plan: Plan, l: Ledger, held: map<string, Balance>)
    requires OnlyDeployed(l.tickers, l.balances)
    requires forall t :: t in held <==> (t, plan.source) in l.balances
    requires forall t :: t in held ==> held[t] == BalanceOf(l.balances, t, plan.source)
    ensures Holdings(plan, l, held)
    ensures AllRefunded(plan, l.balances, l.balances, held.Keys - held.Keys)
    ensures Free(held, held.Keys) <==> AllFree(plan, l.balances)
  {
    forall t | t in held ensures t in l.tickers && BalanceOf(l.balances, t, plan.source) == held[t] {
      assert (t, plan.source) in l.balances;
    }
    if Free(held, held.Keys) {
      forall t
        ensures BalanceOf(l.balances, t, plan.source).available == BalanceOf(l.balances, t, plan.source).overall {
        assert t in held <==> (t, plan.source) in l.balances;
      }
    }
  }

  lemma AllDone(plan: Plan, before: Ledger, now: map<Account, Balance>, held: map<string, Balance>)
    requires AllRefunded(plan, before.balances, now, held.Keys - {}) && Holdings(plan, before, held)
    requires plan.source != plan.target
    ensures forall t, pk :: RefundedSoFar(plan, before.balances, now, {t}, t, pk)
  {
    forall t, pk ensures RefundedSoFar(plan, before.balances, now, {t}, t, pk) {
      assert RefundedSoFar(plan, before.balances, now, held.Keys - {}, t, pk);
    }
  }

}
