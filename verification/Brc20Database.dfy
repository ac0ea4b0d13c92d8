/** The BRC-20 database: tables, and in front of them caches and pending rows. Every query is answered as
    if the pending rows were in the tables already. */
module Brc20Database {
  import opened Wrappers
  import opened Numerals
  import opened Rows
  import opened Brc20Ledger
  import opened Brc20Sums

  datatype Validity = Valid | Used | Invalid

  datatype BalanceUpdate = BalanceUpdate(ticker: string, pkscript: Pkscript, balance: Balance)

  datatype TickerUpdate = TickerUpdate(remaining: nat, burned: nat)

  // ---------- keys ----------

  function EventType(kind: Kind): nat {
    match kind
    case DeployKind => 0
    case MintKind => 1
    case InscribeKind => 2
    case TransferKind => 3
    case WithdrawInscribeKind => 8
    case WithdrawTransferKind => 9
  }

  function EventKey(eventType: nat, id: InscriptionId): string {
    ShowNat(eventType) + id
  }

  function BalanceKey(ticker: string, pk: Pkscript): string {
    ticker + ":" + pk
  }

  /** Type numbers of any length run into the id without a separator, and yet keys never collide: the
      first letter i is at position 64 of the id. */
  lemma EventKeyInjective(a: nat, x: InscriptionId, b: nat, y: InscriptionId)
    requires EventKey(a, x) == EventKey(b, y)
    ensures a == b && x == y
  {
    var m, n, key := |ShowNat(a)|, |ShowNat(b)|, EventKey(a, x);
    assert key[m + 64] == x[64] == 'i' && key[n + 64] == y[64] == 'i';
    assert forall i :: 0 <= i < 64 ==> x[i] == x[..64][i] && y[i] == y[..64][i];
    assert key[..m] == ShowNat(a) && key[..n] == ShowNat(b) && key[m..] == x && key[n..] == y;
    ParseShow(a);
    ParseShow(b);
  }

  lemma BalanceKeyInjective(s: string, a: Pkscript, t: string, b: Pkscript)
    requires BalanceKey(s, a) == BalanceKey(t, b)
    ensures s == t && a == b
  {
    var key := BalanceKey(s, a);
    assert key[|s|] == ':' && key[|t|] == ':';
    assert key[..|s|] == s && key[..|t|] == t && key[|s| + 1..] == a && key[|t| + 1..] == b;
  }

  // ---------- balances ----------

  /** The balances a table of updates stands for: the last update of an account. */
  function BalanceMap(rows: seq<Row<BalanceUpdate>>): map<Account, Balance> {
    if rows == [] then map[]
    else
      var u := rows[|rows| - 1].value;
      BalanceMap(rows[..|rows| - 1])[(u.ticker, u.pkscript) := u.balance]
  }

  /** `where pkscript and tick order by block_height desc, id desc limit 1`. */
  function SelectBalance(rows: seq<Row<BalanceUpdate>>, ticker: string, pk: Pkscript): (r: Option<Row<BalanceUpdate>>)
    ensures r.Some? ==> r.value in rows
  {
    if rows == [] then None
    else
      var last, best := rows[|rows| - 1], SelectBalance(rows[..|rows| - 1], ticker, pk);
      if last.value.ticker == ticker && last.value.pkscript == pk && (best.None? || best.value.height <= last.height)
      then Some(last) else best
  }

  /** Rows are written in height order, so the query finds the last update. */
  lemma {:induction false} SelectIsLast(rows: seq<Row<BalanceUpdate>>, ticker: string, pk: Pkscript)
    requires Ascending(rows)
    ensures SelectBalance(rows, ticker, pk).Some? <==> (ticker, pk) in BalanceMap(rows)
    ensures (ticker, pk) in BalanceMap(rows) ==>
              SelectBalance(rows, ticker, pk).value.value.balance == BalanceMap(rows)[(ticker, pk)]
  {
    if rows != [] {
      SelectIsLast(rows[..|rows| - 1], ticker, pk);
    }
  }

  predicate HasRow(rows: seq<Row<BalanceUpdate>>, ticker: string, pk: Pkscript) {
    SelectBalance(rows, ticker, pk).Some?
  }

  function TickersOf(rows: seq<Row<BalanceUpdate>>): set<string> {
    set r | r in rows :: r.value.ticker
  }

  /** `distinct on (tick) .. where pkscript order by tick, block_height desc, id desc`. */
  function SelectAllTickers(rows: seq<Row<BalanceUpdate>>, pk: Pkscript): map<string, Balance> {
    map ticker | ticker in TickersOf(rows) && HasRow(rows, ticker, pk) ::
      SelectBalance(rows, ticker, pk).value.value.balance
  }

  lemma {:induction false} RowHasTicker(rows: seq<Row<BalanceUpdate>>, ticker: string, pk: Pkscript)
    requires HasRow(rows, ticker, pk)
    ensures ticker in TickersOf(rows)
  {
    var r := SelectBalance(rows, ticker, pk).value;
    SelectedFits(rows, ticker, pk);
    assert r in rows;
  }

  lemma {:induction false} SelectedFits(rows: seq<Row<BalanceUpdate>>, ticker: string, pk: Pkscript)
    requires HasRow(rows, ticker, pk)
    ensures SelectBalance(rows, ticker, pk).value.value.ticker == ticker
  {
    var last, front := rows[|rows| - 1], rows[..|rows| - 1];
    if SelectBalance(front, ticker, pk).Some? {
      SelectedFits(front, ticker, pk);
    }
  }

  /** The query finds every ticker the script has a balance of. */
  lemma AllTickersAgree(rows: seq<Row<BalanceUpdate>>, pk: Pkscript, ticker: string)
    requires Ascending(rows)
    ensures ticker in SelectAllTickers(rows, pk) <==> (ticker, pk) in BalanceMap(rows)
    ensures ticker in SelectAllTickers(rows, pk) ==>
              SelectAllTickers(rows, pk)[ticker] == BalanceMap(rows)[(ticker, pk)]
  {
    SelectIsLast(rows, ticker, pk);
    if HasRow(rows, ticker, pk) {
      RowHasTicker(rows, ticker, pk);
    }
  }

  ghost predicate CacheAgrees(cache: map<string, Balance>, balances: map<Account, Balance>) {
    forall ticker, pk :: BalanceKey(ticker, pk) in cache ==>
      cache[BalanceKey(ticker, pk)] == BalanceOf(balances, ticker, pk)
  }

  predicate UpdatesCached(updates: seq<Row<BalanceUpdate>>, cache: map<string, Balance>) {
    forall i :: 0 <= i < |updates| ==> BalanceKey(updates[i].value.ticker, updates[i].value.pkscript) in cache
  }

  /** An account that is not cached has no pending update, so the table knows it. */
  lemma {:induction false} UncachedIsStored(table: seq<Row<BalanceUpdate>>, updates: seq<Row<BalanceUpdate>>,
                                             cache: map<string, Balance>, ticker: string, pk: Pkscript)
    requires UpdatesCached(updates, cache) && BalanceKey(ticker, pk) !in cache
    ensures BalanceOf(BalanceMap(table + updates), ticker, pk) == BalanceOf(BalanceMap(table), ticker, pk)
  {
    if updates == [] {
      assert table + updates == table;
    } else {
      var front := updates[..|updates| - 1];
      UncachedIsStored(table, front, cache, ticker, pk);
      assert (table + updates)[..|table + updates| - 1] == table + front;
    }
  }

  lemma CacheUpdate(cache: map<string, Balance>, balances: map<Account, Balance>, ticker: string, pk: Pkscript,
                    b: Balance)
    requires CacheAgrees(cache, balances)
    ensures CacheAgrees(cache[BalanceKey(ticker, pk) := b], balances[(ticker, pk) := b])
  {
    forall t, p | BalanceKey(t, p) in cache[BalanceKey(ticker, pk) := b]
      ensures cache[BalanceKey(ticker, pk) := b][BalanceKey(t, p)] == BalanceOf(balances[(ticker, pk) := b], t, p) {
      if BalanceKey(t, p) == BalanceKey(ticker, pk) {
        BalanceKeyInjective(t, p, ticker, pk);
      }
    }
  }

  lemma CacheFill(cache: map<string, Balance>, balances: map<Account, Balance>, ticker: string, pk: Pkscript)
    requires CacheAgrees(cache, balances)
    ensures CacheAgrees(cache[BalanceKey(ticker, pk) := BalanceOf(balances, ticker, pk)], balances)
  {
    var b := BalanceOf(balances, ticker, pk);
    forall t, p | BalanceKey(t, p) in cache[BalanceKey(ticker, pk) := b]
      ensures cache[BalanceKey(ticker, pk) := b][BalanceKey(t, p)] == BalanceOf(balances, t, p) {
      if BalanceKey(t, p) == BalanceKey(ticker, pk) {
        BalanceKeyInjective(t, p, ticker, pk);
      }
    }
  }

  lemma UpdatesPush(table: seq<Row<BalanceUpdate>>, updates: seq<Row<BalanceUpdate>>, cache: map<string, Balance>,
                    ticker: string, pk: Pkscript, b: Balance, height: int)
    requires Ascending(table + updates) && AllUpTo(table + updates, height) && UpdatesCached(updates, cache)
    ensures var updates' := updates + [Row(height, BalanceUpdate(ticker, pk, b))];
            && Ascending(table + updates') && AllUpTo(table + updates', height)
            && UpdatesCached(updates', cache[BalanceKey(ticker, pk) := b])
            && BalanceMap(table + updates') == BalanceMap(table + updates)[(ticker, pk) := b]
  {
    var rows, row := table + updates, Row(height, BalanceUpdate(ticker, pk, b));
    assert table + (updates + [row]) == rows + [row];
    assert (rows + [row])[..|rows|] == rows;
  }

  // ---------- tickers ----------

  /** Inserting new tickers; the maximum supply column is written from the remaining supply. */
  function Inserted(table: map<string, Ticker>, news: seq<(string, Ticker)>): map<string, Ticker> {
    if news == [] then table
    else
      var (name, t) := news[|news| - 1];
      Inserted(table, news[..|news| - 1])[name := t.(maxSupply := t.remaining)]
  }

  function Applied(t: Ticker, u: TickerUpdate): Ticker {
    t.(remaining := u.remaining, burned := u.burned)
  }

  /** Updating the rows of the named tickers. */
  function Updated(table: map<string, Ticker>, updates: map<string, TickerUpdate>): map<string, Ticker> {
    map name | name in table :: if name in updates then Applied(table[name], updates[name]) else table[name]
  }

  function AfterFlush(table: map<string, Ticker>, news: seq<(string, Ticker)>,
                      updates: map<string, TickerUpdate>): map<string, Ticker> {
    Updated(Inserted(table, news), updates)
  }

  lemma FlushAdded(table: map<string, Ticker>, news: seq<(string, Ticker)>, updates: map<string, TickerUpdate>,
                   name: string, t: Ticker)
    requires name !in updates && t.remaining == t.maxSupply
    ensures AfterFlush(table, news + [(name, t)], updates) == AfterFlush(table, news, updates)[name := t]
  {
    assert (news + [(name, t)])[..|news|] == news;
    assert t.(maxSupply := t.remaining) == t;
  }

  lemma FlushUpdated(table: map<string, Ticker>, news: seq<(string, Ticker)>, updates: map<string, TickerUpdate>,
                     name: string, u: TickerUpdate)
    requires name in AfterFlush(table, news, updates)
    ensures AfterFlush(table, news, updates[name := u])
              == AfterFlush(table, news, updates)[name := Applied(AfterFlush(table, news, updates)[name], u)]
  {
  }

  // ---------- events ----------

  ghost predicate EventsAgree(cached: map<string, Event>, log: seq<Rec>) {
    forall kind, id :: EventKey(EventType(kind), id) in cached ==>
      Find(log, kind, id) == Some(cached[EventKey(EventType(kind), id)])
  }

  function KeyOf(rec: Rec): string {
    EventKey(EventType(KindOf(rec.event)), rec.id)
  }

  predicate InsertsCached(inserts: seq<Rec>, cached: map<string, Event>) {
    forall i :: 0 <= i < |inserts| ==> KeyOf(inserts[i]) in cached
  }

  lemma EventsPush(cached: map<string, Event>, log: seq<Rec>, rec: Rec)
    requires EventsAgree(cached, log)
    ensures EventsAgree(cached[KeyOf(rec) := rec.event], log + [rec])
  {
    forall kind, id | EventKey(EventType(kind), id) in cached[KeyOf(rec) := rec.event]
      ensures Find(log + [rec], kind, id) == Some(cached[KeyOf(rec) := rec.event][EventKey(EventType(kind), id)]) {
      FindPush(log, rec, kind, id);
      if EventKey(EventType(kind), id) == KeyOf(rec) {
        EventKeyInjective(EventType(kind), id, EventType(KindOf(rec.event)), rec.id);
      }
    }
  }

  /** An event that is not cached is not pending, so the table knows it. */
  lemma {:induction false} UncachedEvent(table: seq<Rec>, inserts: seq<Rec>, cached: map<string, Event>, kind: Kind,
                                         id: InscriptionId)
    requires InsertsCached(inserts, cached) && EventKey(EventType(kind), id) !in cached
    ensures Find(table + inserts, kind, id) == Find(table, kind, id)
  {
    if inserts == [] {
      assert table + inserts == table;
    } else {
      var front, last := inserts[..|inserts| - 1], inserts[|inserts| - 1];
      UncachedEvent(table, front, cached, kind, id);
      assert table + inserts == table + front + [last];
      FindPush(table + front, last, kind, id);
    }
  }

  // ---------- validity of transfers ----------

  function Count(table: seq<Rec>, kind: Kind, id: InscriptionId): nat {
    if table == [] then 0
    else
      var last := table[|table| - 1];
      Count(table[..|table| - 1], kind, id) + if KindOf(last.event) == kind && last.id == id then 1 else 0
  }

  /** Counting inscribe and transfer events of an inscription in the table. */
  function TableValidity(table: seq<Rec>, inscribeKind: Kind, transferKind: Kind, id: InscriptionId): Validity {
    if Count(table, inscribeKind, id) != 1 then Invalid
    else if Count(table, transferKind, id) != 0 then Used
    else Valid
  }

  lemma {:induction false} CountIsRecorded(table: seq<Rec>, kind: Kind, id: InscriptionId)
    requires SpentOnce(table)
    ensures Count(table, kind, id) == if Recorded(table, kind, id) then 1 else 0
  {
    if table != [] {
      CountIsRecorded(table[..|table| - 1], kind, id);
    }
  }

  lemma TableValidityMeans(table: seq<Rec>, inscribeKind: Kind, transferKind: Kind, id: InscriptionId)
    requires SpentOnce(table)
    ensures TableValidity(table, inscribeKind, transferKind, id) == Valid <==>
              CanSpend(table, inscribeKind, transferKind, id)
  {
    CountIsRecorded(table, inscribeKind, id);
    CountIsRecorded(table, transferKind, id);
  }

  /** The content of an inscription says whether it transfers or withdraws, hence which kinds of event it
      can have; the validity cache, keyed by id alone, relies on that. */
  function InscribeKindOf(cfg: Config, id: InscriptionId): Kind {
    if Has(cfg.content(id), "p", "brc20-module") then WithdrawInscribeKind else InscribeKind
  }

  function TransferKindOf(cfg: Config, id: InscriptionId): Kind {
    if Has(cfg.content(id), "p", "brc20-module") then WithdrawTransferKind else TransferKind
  }

  predicate Spendable(cfg: Config, log: seq<Rec>, id: InscriptionId) {
    CanSpend(log, InscribeKindOf(cfg, id), TransferKindOf(cfg, id), id)
  }

  /** What a cached validity is worth. `Valid` may be stale, but only while the transfer event is still in
      the event cache, which refuses a second one. */
  ghost predicate Truthful(cfg: Config, v: Validity, log: seq<Rec>, cached: map<string, Event>, id: InscriptionId) {
    if v == Valid then
      && Recorded(log, InscribeKindOf(cfg, id), id)
      && (Recorded(log, TransferKindOf(cfg, id), id) ==> EventKey(EventType(TransferKindOf(cfg, id)), id) in cached)
    else !Spendable(cfg, log, id)
  }

  ghost predicate ValidityAgrees(cfg: Config, validity: map<InscriptionId, Validity>, log: seq<Rec>,
                                 cached: map<string, Event>) {
    forall id :: id in validity ==> Truthful(cfg, validity[id], log, cached, id)
  }

  predicate OwnKind(cfg: Config, rec: Rec) {
    KindOf(rec.event) == InscribeKindOf(cfg, rec.id) || KindOf(rec.event) == TransferKindOf(cfg, rec.id)
  }

  predicate InsertsJudged(cfg: Config, inserts: seq<Rec>, validity: map<InscriptionId, Validity>) {
    forall i :: 0 <= i < |inserts| && OwnKind(cfg, inserts[i]) ==> inserts[i].id in validity
  }

  /** An inscription without a cached validity has no pending event of its own kinds. */
  lemma {:induction false} UnjudgedIsStored(cfg: Config, table: seq<Rec>, inserts: seq<Rec>,
                                             validity: map<InscriptionId, Validity>, id: InscriptionId, kind: Kind)
    requires InsertsJudged(cfg, inserts, validity) && id !in validity
    requires kind == InscribeKindOf(cfg, id) || kind == TransferKindOf(cfg, id)
    ensures Find(table + inserts, kind, id) == Find(table, kind, id)
  {
    if inserts == [] {
      assert table + inserts == table;
    } else {
      var front, last := inserts[..|inserts| - 1], inserts[|inserts| - 1];
      UnjudgedIsStored(cfg, table, front, validity, id, kind);
      assert table + inserts == table + front + [last];
      FindPush(table + front, last, kind, id);
    }
  }

  /** The answer of the cache, else of the table, is truthful; in particular it is `Valid` when the
      inscription can be spent. */
  lemma EffectiveIsTruthful(cfg: Config, table: seq<Rec>, inserts: seq<Rec>, cached: map<string, Event>,
                            validity: map<InscriptionId, Validity>, id: InscriptionId)
    requires SpentOnce(table + inserts)
    requires ValidityAgrees(cfg, validity, table + inserts, cached) && InsertsJudged(cfg, inserts, validity)
    ensures var v := if id in validity then validity[id]
                     else TableValidity(table, InscribeKindOf(cfg, id), TransferKindOf(cfg, id), id);
            Truthful(cfg, v, table + inserts, cached, id) && (Spendable(cfg, table + inserts, id) ==> v == Valid)
  {
    if id !in validity {
      SpentOncePrefix(table + inserts, |table|);
      assert (table + inserts)[..|table|] == table;
      TableValidityMeans(table, InscribeKindOf(cfg, id), TransferKindOf(cfg, id), id);
      UnjudgedIsStored(cfg, table, inserts, validity, id, InscribeKindOf(cfg, id));
      UnjudgedIsStored(cfg, table, inserts, validity, id, TransferKindOf(cfg, id));
    }
  }

  /** Recording an event and judging its inscription afterwards. */
  lemma ValidityPush(cfg: Config, validity: map<InscriptionId, Validity>, log: seq<Rec>, cached: map<string, Event>,
                     inserts: seq<Rec>, rec: Rec, v: Validity)
    requires ValidityAgrees(cfg, validity, log, cached) && InsertsJudged(cfg, inserts, validity)
    requires Truthful(cfg, v, log + [rec], cached[KeyOf(rec) := rec.event], rec.id)
    ensures ValidityAgrees(cfg, validity[rec.id := v], log + [rec], cached[KeyOf(rec) := rec.event])
    ensures InsertsJudged(cfg, inserts + [rec], validity[rec.id := v])
  {
    var validity' := validity[rec.id := v];
    forall id | id in validity' ensures Truthful(cfg, validity'[id], log + [rec], cached[KeyOf(rec) := rec.event], id) {
      FindPush(log, rec, InscribeKindOf(cfg, id), id);
      FindPush(log, rec, TransferKindOf(cfg, id), id);
    }
  }

  /** Deploys and mints judge nothing. */
  lemma ValidityPushOther(cfg: Config, validity: map<InscriptionId, Validity>, log: seq<Rec>,
                          cached: map<string, Event>, inserts: seq<Rec>, rec: Rec)
    requires ValidityAgrees(cfg, validity, log, cached) && InsertsJudged(cfg, inserts, validity) && !OwnKind(cfg, rec)
    ensures ValidityAgrees(cfg, validity, log + [rec], cached[KeyOf(rec) := rec.event])
    ensures InsertsJudged(cfg, inserts + [rec], validity)
  {
    forall id | id in validity ensures Truthful(cfg, validity[id], log + [rec], cached[KeyOf(rec) := rec.event], id) {
      FindPush(log, rec, InscribeKindOf(cfg, id), id);
      FindPush(log, rec, TransferKindOf(cfg, id), id);
    }
  }

  /** An event just recorded can be of the kinds its inscription's content says. */
  predicate KindFits(cfg: Config, rec: Rec) {
    OwnKind(cfg, rec) || rec.event.DeployInscribe? || rec.event.MintInscribe?
  }

  /** Inscribing makes the judgement `Valid` truthful; once spent, any judgement is. */
  lemma JudgementTruthful(cfg: Config, v: Validity, log: seq<Rec>, cached: map<string, Event>, rec: Rec)
    requires OwnKind(cfg, rec) && FitsAfter(log, rec)
    requires KindOf(rec.event) == InscribeKindOf(cfg, rec.id) ==> v == Valid
    ensures Truthful(cfg, v, log + [rec], cached[KeyOf(rec) := rec.event], rec.id)
  {
    FindPush(log, rec, InscribeKindOf(cfg, rec.id), rec.id);
    FindPush(log, rec, TransferKindOf(cfg, rec.id), rec.id);
  }

  /** Judging the inscription of the event just recorded completes the step. */
  lemma Judged(cfg: Config, validity: map<InscriptionId, Validity>, log: seq<Rec>, cached: map<string, Event>,
               inserts: seq<Rec>, rec: Rec, v: Validity)
    requires inserts != [] && inserts[|inserts| - 1] == rec && KeyOf(rec) in cached && cached[KeyOf(rec)] == rec.event
    requires ValidityAgrees(cfg, validity, log, cached - {KeyOf(rec)})
    requires InsertsJudged(cfg, inserts[..|inserts| - 1], validity)
    requires KindFits(cfg, rec) && FitsAfter(log, rec)
    requires KindOf(rec.event) == InscribeKindOf(cfg, rec.id) ==> v == Valid
    ensures var validity' := if OwnKind(cfg, rec) then validity[rec.id := v] else validity;
            ValidityAgrees(cfg, validity', log + [rec], cached) && InsertsJudged(cfg, inserts, validity')
  {
    var before, front := cached - {KeyOf(rec)}, inserts[..|inserts| - 1];
    assert before[KeyOf(rec) := rec.event] == cached && front + [rec] == inserts;
    if OwnKind(cfg, rec) {
      JudgementTruthful(cfg, v, log, before, rec);
      ValidityPush(cfg, validity, log, before, front, rec, v);
    } else {
      ValidityPushOther(cfg, validity, log, before, front, rec);
    }
  }

  /** What recording a spending asks: the inscription was judged valid, and the cache does not hold its event. */
  predicate MayRecord(v: Validity, cached: map<string, Event>, rec: Rec) {
    v == Valid && KeyOf(rec) !in cached
  }

  /** Clearing the event cache alone would let an inscription be spent twice: where burning a deposit left a stale
      `Valid` behind, a second spending would be recorded. Clearing both caches, it is refused. */
  lemma ClearedTogether(cfg: Config, validity: map<InscriptionId, Validity>, log: seq<Rec>, cached: map<string, Event>,
                        rec: Rec)
    requires ValidityAgrees(cfg, validity, log, cached) && SpentOnce(log)
    requires KindOf(rec.event) == TransferKindOf(cfg, rec.id) && Recorded(log, KindOf(rec.event), rec.id)
    requires rec.id in validity && validity[rec.id] == Valid
    ensures !MayRecord(validity[rec.id], cached, rec)
    ensures MayRecord(validity[rec.id], map[], rec) && !SpentOnce(log + [rec])
    ensures !MayRecord(TableValidity(log, InscribeKindOf(cfg, rec.id), TransferKindOf(cfg, rec.id), rec.id), map[], rec)
  {
    assert Truthful(cfg, validity[rec.id], log, cached, rec.id);
    assert (log + [rec])[..|log|] == log;
    TableValidityMeans(log, InscribeKindOf(cfg, rec.id), TransferKindOf(cfg, rec.id), rec.id);
  }

}
