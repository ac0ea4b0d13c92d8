/** The database object: methods that answer from caches first and collect writes until the next flush. */
module Brc20Store {
  import opened Wrappers
  import opened Rows
  import opened Brc20Ledger
  import opened Brc20Sums
  import opened Brc20Database

  class Store {
    // tables
    var tickerTable: map<string, Ticker>
    var eventTable: seq<Rec>
    var balanceTable: seq<Row<BalanceUpdate>>

    // caches
    var tickers: map<string, Ticker>
    var cachedEvents: map<string, Event>
    var transferValidity: map<InscriptionId, Validity>
    var balanceCache: map<string, Balance>

    // pending rows
    var newTickers: seq<(string, Ticker)>
    var tickerUpdates: map<string, TickerUpdate>
    var eventInserts: seq<Rec>
    var balanceUpdates: seq<Row<BalanceUpdate>>

    // the height from which on balance rows are pending
    ghost var pendingSince: int

    /** The plain ledger all this stands for. */
    ghost function View(): Ledger
      reads this`tickers, this`balanceTable, this`balanceUpdates, this`eventTable, this`eventInserts
    {
      Ledger(tickers, BalanceMap(balanceTable + balanceUpdates), eventTable + eventInserts)
    }

    ghost predicate TickersOk()
      reads this`tickers, this`tickerTable, this`newTickers, this`tickerUpdates
    {
      && tickers == AfterFlush(tickerTable, newTickers, tickerUpdates)
      && (forall name :: name in tickerUpdates ==> name in tickers)
    }

    ghost predicate BalancesOk()
      reads this`balanceTable, this`balanceUpdates, this`balanceCache
    {
      && Ascending(balanceTable + balanceUpdates)
      && CacheAgrees(balanceCache, BalanceMap(balanceTable + balanceUpdates))
      && UpdatesCached(balanceUpdates, balanceCache)
    }

    ghost predicate EventsOk()
      reads this`eventTable, this`eventInserts, this`cachedEvents
    {
      EventsAgree(cachedEvents, eventTable + eventInserts) && InsertsCached(eventInserts, cachedEvents)
    }

    ghost predicate ValidityOk(cfg: Config)
      reads this`eventTable, this`eventInserts, this`cachedEvents, this`transferValidity
    {
      && ValidityAgrees(cfg, transferValidity, eventTable + eventInserts, cachedEvents)
      && InsertsJudged(cfg, eventInserts, transferValidity)
    }

    ghost predicate Core()
      reads this
    {
      TickersOk() && BalancesOk() && EventsOk()
    }

    ghost predicate Valid(cfg: Config)
      reads this
    {
      Core() && ValidityOk(cfg)
    }

    /** The last event was just recorded on top of ledger `l`; its processing is outstanding. */
    ghost predicate JustRecorded(cfg: Config, l: Ledger, rec: Rec)
      reads this
    {
      && Core() && View() == l.(log := l.log + [rec])
      && Outstanding(l, rec) && JudgedBefore(cfg, l, rec, transferValidity)
    }

    /** The judgement outstanding after recording `rec`, once made, makes the state valid again. */
    ghost predicate Outstanding(l: Ledger, rec: Rec)
      reads this`eventTable, this`eventInserts, this`cachedEvents
    {
      && eventInserts != [] && eventInserts[|eventInserts| - 1] == rec && eventTable + eventInserts == l.log + [rec]
      && KeyOf(rec) in cachedEvents && cachedEvents[KeyOf(rec)] == rec.event
    }

    ghost predicate JudgedBefore(cfg: Config, l: Ledger, rec: Rec, validity: map<InscriptionId, Validity>)
      reads this`eventInserts, this`cachedEvents
    {
      && ValidityAgrees(cfg, validity, l.log, cachedEvents - {KeyOf(rec)})
      && eventInserts != [] && InsertsJudged(cfg, eventInserts[..|eventInserts| - 1], validity)
    }

    lemma JudgedNow(cfg: Config, l: Ledger, rec: Rec, before: map<InscriptionId, Validity>, v: Validity)
      requires Outstanding(l, rec) && JudgedBefore(cfg, l, rec, before) && KindFits(cfg, rec) && FitsAfter(l.log, rec)
      requires KindOf(rec.event) == InscribeKindOf(cfg, rec.id) ==> v == Validity.Valid
      requires transferValidity == if OwnKind(cfg, rec) then before[rec.id := v] else before
      ensures ValidityOk(cfg)
    {
      Judged(cfg, before, l.log, cachedEvents, eventInserts, rec, v);
    }

    /** A spendable inscription is still judged valid after its spending was recorded. */
    lemma JudgedValid(cfg: Config, l: Ledger, rec: Rec)
      requires Outstanding(l, rec) && JudgedBefore(cfg, l, rec, transferValidity)
      requires SpentOnce(l.log) && Spendable(cfg, l.log, rec.id)
      ensures EffectiveValidity(InscribeKindOf(cfg, rec.id), TransferKindOf(cfg, rec.id), rec.id) == Validity.Valid
    {
      var front := eventInserts[..|eventInserts| - 1];
      assert eventTable + eventInserts == eventTable + front + [rec];
      assert eventTable + front == (eventTable + eventInserts)[..|l.log|] == l.log;
      EffectiveIsTruthful(cfg, eventTable, front, cachedEvents - {KeyOf(rec)}, transferValidity, rec.id);
    }

    /** No row is newer than the height, and no pending row older than `pendingSince`. */
    ghost predicate RowsUpTo(height: int)
      reads this`balanceTable, this`balanceUpdates, this`pendingSince
    {
      && AllUpTo(balanceTable + balanceUpdates, height)
      && pendingSince <= height && AllSince(balanceUpdates, pendingSince)
    }

    predicate NothingPending()
      reads this`newTickers, this`tickerUpdates, this`eventInserts, this`balanceUpdates
    {
      newTickers == [] && tickerUpdates == map[] && eventInserts == [] && balanceUpdates == []
    }

    constructor (ghost since: int)
      ensures forall cfg :: Valid(cfg)
      ensures NothingPending() && View() == EMPTY_LEDGER && balanceTable == []
      ensures forall height :: since <= height ==> RowsUpTo(height)
    {
      pendingSince := since;
      tickerTable, eventTable, balanceTable := map[], [], [];
      tickers, cachedEvents, transferValidity, balanceCache := map[], map[], map[], map[];
      newTickers, tickerUpdates, eventInserts, balanceUpdates := [], map[], [], [];
    }

    method GetTicker(name: string) returns (t: Option<Ticker>)
      ensures t == if name in View().tickers then Some(View().tickers[name]) else None
    {
      if name in tickers {
        return Some(tickers[name]);
      }
      return None;
    }

    /** Refuses a ticker that exists. */
    method AddTicker(name: string, t: Ticker) returns (ok: bool)
      requires TickersOk() && t.remaining == t.maxSupply
      modifies this`tickers, this`newTickers
      ensures TickersOk()
      ensures ok <==> name !in old(View().tickers)
      ensures View() == old(View()).(tickers := if ok then old(View().tickers)[name := t] else old(View().tickers))
      ensures newTickers == if ok then old(newTickers) + [(name, t)] else old(newTickers)
    {
      if name in tickers {
        return false;
      }
      FlushAdded(tickerTable, newTickers, tickerUpdates, name, t);
      tickers := tickers[name := t];
      newTickers := newTickers + [(name, t)];
      return true;
    }

    /** Only the supplies of a ticker change. */
    method UpdateTicker(name: string, t: Ticker) returns (ok: bool)
      requires TickersOk()
      requires name in tickers ==> t == Applied(tickers[name], TickerUpdate(t.remaining, t.burned))
      modifies this`tickers, this`tickerUpdates
      ensures TickersOk()
      ensures ok <==> name in old(View().tickers)
      ensures View() == old(View()).(tickers := if ok then old(View().tickers)[name := t] else old(View().tickers))
    {
      if name !in tickers {
        return false;
      }
      FlushUpdated(tickerTable, newTickers, tickerUpdates, name, TickerUpdate(t.remaining, t.burned));
      tickers := tickers[name := t];
      tickerUpdates := tickerUpdates[name := TickerUpdate(t.remaining, t.burned)];
      return true;
    }

    /** Refuses an event that is in the cache. */
    method AddEvent(rec: Rec) returns (ok: bool)
      requires EventsOk()
      modifies this`cachedEvents, this`eventInserts
      ensures EventsOk()
      ensures ok <==> KeyOf(rec) !in old(cachedEvents)
      ensures View() == old(View()).(log := if ok then old(View().log) + [rec] else old(View().log))
      ensures eventInserts == if ok then old(eventInserts) + [rec] else old(eventInserts)
      ensures cachedEvents == if ok then old(cachedEvents)[KeyOf(rec) := rec.event] else old(cachedEvents)
    {
      if KeyOf(rec) in cachedEvents {
        return false;
      }
      EventsPush(cachedEvents, eventTable + eventInserts, rec);
      assert eventTable + (eventInserts + [rec]) == eventTable + eventInserts + [rec];
      cachedEvents := cachedEvents[KeyOf(rec) := rec.event];
      eventInserts := eventInserts + [rec];
      return true;
    }

    /** The cache, else the table, together answer for the whole log. */
    method GetEventWithType(kind: Kind, id: InscriptionId) returns (e: Option<Event>)
      requires EventsOk()
      ensures e == Find(View().log, kind, id)
    {
      var key := EventKey(EventType(kind), id);
      if key in cachedEvents {
        return Some(cachedEvents[key]);
      }
      UncachedEvent(eventTable, eventInserts, cachedEvents, kind, id);
      return Find(eventTable, kind, id);
    }

    ghost function EffectiveValidity(inscribeKind: Kind, transferKind: Kind, id: InscriptionId): Validity
      reads this`eventTable, this`transferValidity
    {
      if id in transferValidity then transferValidity[id] else TableValidity(eventTable, inscribeKind, transferKind, id)
    }

    method GetTransferValidity(id: InscriptionId, inscribeKind: Kind, transferKind: Kind) returns (v: Validity)
      modifies this`transferValidity
      ensures v == old(EffectiveValidity(inscribeKind, transferKind, id))
      ensures transferValidity == old(transferValidity)[id := v]
    {
      if id in transferValidity {
        assert transferValidity == transferValidity[id := transferValidity[id]];
        return transferValidity[id];
      }
      v := TableValidity(eventTable, inscribeKind, transferKind, id);
      transferValidity := transferValidity[id := v];
    }

    method SetTransferValidity(id: InscriptionId, v: Validity)
      modifies this`transferValidity
      ensures transferValidity == old(transferValidity)[id := v]
    {
      transferValidity := transferValidity[id := v];
    }

    /** The cache, else the table, together answer like a plain map; a missing account is not cached. */
    method GetBalance(ticker: string, pk: Pkscript) returns (b: Balance)
      requires BalancesOk()
      modifies this`balanceCache
      ensures BalancesOk()
      ensures b == BalanceOf(View().balances, ticker, pk)
    {
      var key := BalanceKey(ticker, pk);
      if key in balanceCache {
        return balanceCache[key];
      }
      UncachedIsStored(balanceTable, balanceUpdates, balanceCache, ticker, pk);
      assert balanceTable == (balanceTable + balanceUpdates)[..|balanceTable|];
      SelectIsLast(balanceTable, ticker, pk);
      var row := SelectBalance(balanceTable, ticker, pk);
      if row.None? {
        return ZERO;
      }
      b := row.value.value.balance;
      CacheFill(balanceCache, View().balances, ticker, pk);
      balanceCache := balanceCache[key := b];
    }

    /** Asks the table alone, so it must be called with no balance pending. */
    method GetBalanceAllTickers(pk: Pkscript) returns (held: map<string, Balance>)
      requires BalancesOk() && balanceUpdates == []
      modifies this`balanceCache
      ensures BalancesOk()
      ensures forall t :: t in held <==> (t, pk) in View().balances
      ensures forall t :: t in held ==> held[t] == BalanceOf(View().balances, t, pk)
    {
      assert balanceTable + balanceUpdates == balanceTable;
      held := SelectAllTickers(balanceTable, pk);
      forall t ensures t in held <==> (t, pk) in View().balances {
        AllTickersAgree(balanceTable, pk, t);
      }
      forall t | t in held ensures held[t] == BalanceOf(View().balances, t, pk) {
        AllTickersAgree(balanceTable, pk, t);
      }
      var names := held.Keys;
      while names != {}
        invariant names <= held.Keys && BalancesOk()
      {
        var t :| t in names;
        CacheFill(balanceCache, View().balances, t, pk);
        balanceCache := balanceCache[BalanceKey(t, pk) := held[t]];
        names := names - {t};
      }
    }

    method UpdateBalance(ticker: string, pk: Pkscript, b: Balance, height: int)
      requires BalancesOk() && RowsUpTo(height)
      modifies this`balanceCache, this`balanceUpdates
      ensures BalancesOk() && RowsUpTo(height)
      ensures View() == old(View()).(balances := old(View().balances)[(ticker, pk) := b])
    {
      UpdatesPush(balanceTable, balanceUpdates, balanceCache, ticker, pk, b, height);
      CacheUpdate(balanceCache, BalanceMap(balanceTable + balanceUpdates), ticker, pk, b);
      balanceCache := balanceCache[BalanceKey(ticker, pk) := b];
      balanceUpdates := balanceUpdates + [Row(height, BalanceUpdate(ticker, pk, b))];
    }

    /** Writing everything pending changes no answer, and the ticker table then holds the tickers in memory. */
    method FlushQueriesToDb(ghost cfg: Config, ghost height: int)
      requires Valid(cfg) && RowsUpTo(height)
      modifies this`tickerTable, this`eventTable, this`balanceTable,
               this`newTickers, this`tickerUpdates, this`eventInserts, this`balanceUpdates
      ensures Valid(cfg) && NothingPending() && View() == old(View())
      ensures tickerTable == tickers
      ensures eventTable == View().log && balanceTable == old(balanceTable + balanceUpdates)
      ensures RowsUpTo(height) && ExtendedSince(old(balanceTable), balanceTable, pendingSince)
    {
      RowsWritten(balanceTable, balanceUpdates, height, pendingSince);
      WriteQueries(cfg);
    }

    method WriteQueries(ghost cfg: Config)
      requires Valid(cfg)
      modifies this`tickerTable, this`eventTable, this`balanceTable,
               this`newTickers, this`tickerUpdates, this`eventInserts, this`balanceUpdates
      ensures Valid(cfg) && NothingPending() && View() == old(View())
      ensures tickerTable == tickers
      ensures eventTable == View().log && balanceTable == old(balanceTable + balanceUpdates)
    {
      FlushTickers();
      FlushEvents(cfg);
      FlushBalances();
    }

    method FlushTickers()
      requires TickersOk()
      modifies this`tickerTable, this`newTickers, this`tickerUpdates
      ensures TickersOk() && tickerTable == tickers && newTickers == [] && tickerUpdates == map[]
    {
      InsertTickerRows();
      newTickers := [];
      UpdateTickerRows();
      tickerUpdates := map[];
      SettledIsFlushed();
    }

    method FlushEvents(ghost cfg: Config)
      requires EventsOk() && ValidityOk(cfg)
      modifies this`eventTable, this`eventInserts
      ensures EventsOk() && ValidityOk(cfg) && eventInserts == []
      ensures eventTable == old(eventTable + eventInserts) == eventTable + eventInserts
    {
      eventTable := eventTable + eventInserts;
      eventInserts := [];
      SettledIsFlushed();
    }

    method FlushBalances()
      requires BalancesOk()
      modifies this`balanceTable, this`balanceUpdates
      ensures BalancesOk() && balanceUpdates == []
      ensures balanceTable == old(balanceTable + balanceUpdates) == balanceTable + balanceUpdates
    {
      balanceTable := balanceTable + balanceUpdates;
      balanceUpdates := [];
      SettledIsFlushed();
    }

    lemma SettledIsFlushed()
      ensures AfterFlush(tickerTable, [], map[]) == tickerTable
      ensures eventTable + [] == eventTable && balanceTable + [] == balanceTable
    {
    }

    method InsertTickerRows()
      modifies this`tickerTable
      ensures tickerTable == Inserted(old(tickerTable), newTickers)
    {
      for i := 0 to |newTickers|
        invariant tickerTable == Inserted(old(tickerTable), newTickers[..i])
      {
        var (name, t) := newTickers[i];
        assert newTickers[..i + 1][..i] == newTickers[..i];
        tickerTable := tickerTable[name := t.(maxSupply := t.remaining)];
      }
      assert newTickers[..|newTickers|] == newTickers;
    }

    /** One update statement per name, in whatever order the hash map yields them. */
    method UpdateTickerRows()
      modifies this`tickerTable
      ensures tickerTable == Updated(old(tickerTable), tickerUpdates)
    {
      ghost var before := tickerTable;
      var names := tickerUpdates.Keys;
      while names != {}
        invariant names <= tickerUpdates.Keys
        invariant tickerTable.Keys == before.Keys
        invariant forall name :: name in before ==>
                    tickerTable[name] == if name in tickerUpdates && name !in names
                                         then Applied(before[name], tickerUpdates[name]) else before[name]
      {
        var name :| name in names;
        if name in tickerTable {
          tickerTable := tickerTable[name := Applied(tickerTable[name], tickerUpdates[name])];
        }
        names := names - {name};
      }
    }

    /** Clearing with writes pending panics; with none, no answer changes. */
    method ClearCaches(ghost cfg: Config)
      requires Valid(cfg) && NothingPending()
      modifies this`cachedEvents, this`transferValidity, this`balanceCache
      ensures Valid(cfg) && View() == old(View())
    {
      transferValidity := map[];
      cachedEvents := map[];
      balanceCache := map[];
    }

    /** Starting up: only the tickers are loaded. */
    method Init(ghost cfg: Config)
      modifies this`cachedEvents, this`transferValidity, this`balanceCache, this`tickers,
               this`newTickers, this`tickerUpdates, this`eventInserts, this`balanceUpdates
      ensures NothingPending() && tickers == tickerTable
      ensures View() == Ledger(tickerTable, BalanceMap(balanceTable), eventTable)
      ensures Ascending(balanceTable) ==> Valid(cfg)
    {
      transferValidity, cachedEvents, balanceCache := map[], map[], map[];
      newTickers, tickerUpdates, eventInserts, balanceUpdates := [], map[], [], [];
      tickers := tickerTable;
      SettledIsFlushed();
    }

    /** A crash after a flush loses nothing: a restarted node stands for the same ledger. */
    method Restart(ghost cfg: Config)
      requires Valid(cfg) && NothingPending()
      modifies this
      ensures Valid(cfg) && NothingPending() && View() == old(View()) && balanceTable == old(balanceTable)
    {
      SettledIsFlushed();
      Init(cfg);
    }

  }

}
