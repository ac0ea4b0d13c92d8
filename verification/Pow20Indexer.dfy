/** The POW-20 indexer as it runs: tables updated by committed transactions, and in memory a map of
    tickers, a cache handing out references to mutable balance objects, a single-use cache of
    transfer-inscribe events and the event text of the block in progress. Every method is proved
    against the table functions of Pow20Ledger, Pow20Rollback and Pow20Blocks. */
module Pow20Indexer {
  import opened Wrappers
  import opened Numerals
  import opened Amounts
  import opened Text
  import opened Rows
  import opened Sequences
  import opened Balances
  import opened Pow20Ledger
  import opened Pow20Rollback
  import opened Pow20Blocks
  import F = ChainFollower
  import opened Pow20Run

  class BalanceObj {
    var overall: int
    var available: int

    constructor (overall: int, available: int)
      ensures Value() == Balance(overall, available)
    {
      this.overall := overall;
      this.available := available;
    }

    function Value(): Balance
      reads this
    {
      Balance(overall, available)
    }
  }

  /** A ticker in memory. A ticker deployed in the current block has no starting data yet. */
  datatype TickInfo = TickInfo(remaining: int, limitPerMint: nat, decimals: Decimals, start: Option<StartInfo>)

  datatype StartInfo = StartInfo(difficulty: nat, startingHeight: nat, startingHash: Option<string>)

  function CacheKey(pkscript: string, tick: string): string {
    pkscript + tick
  }

  /** Keys run script and ticker together with no separator, and yet never collide: a ticker is
      four bytes of UTF-8, however many characters that is. */
  lemma CacheKeyInjective(a: string, s: string, b: string, t: string)
    requires CacheKey(a, s) == CacheKey(b, t)
    requires Utf8Length(s) == Utf8Length(t)
    ensures a == b && s == t
  {
    var key := a + s;
    assert key[|a|..] == s && key[|b|..] == t && key[..|a|] == a && key[..|b|] == b;
    if |s| < |t| {
      LongerSuffix(t, s, |t| - |s|);
    } else if |t| < |s| {
      LongerSuffix(s, t, |s| - |t|);
    }
  }

  lemma {:induction false} FindEventPush(rows: seq<Row<EventRec>>, r: Row<EventRec>, kind: Kind, id: string)
    ensures FindEvent(rows + [r], kind, id)
              == if KindOf(r.value.event) == kind && r.value.inscriptionId == id then Some(r.value.event)
                 else FindEvent(rows, kind, id)
  {
    assert (rows + [r])[..|rows|] == rows;
  }

  class Indexer {
    const env: Env
    const first: int

    // tables
    var events: seq<Row<EventRec>>
    var tickers: map<string, Ticker>
    var balances: seq<Row<BalanceRec>>
    var hashes: seq<Row<HashRec>>
    var blocks: seq<Row<string>>

    // memory
    var ticks: map<string, TickInfo>
    var balanceCache: map<string, BalanceObj>
    var inscribeCache: map<string, Event>
    var blockEventsStr: string

    function Db(): Tables
      reads this`events, this`tickers, this`balances, this`hashes, this`blocks
    {
      Tables(events, tickers, balances, hashes, blocks)
    }

    /** Every cached object holds its account's balance, except possibly those under one key. */
    ghost predicate CachedExcept(key: Option<string>)
      reads this`balances, this`balanceCache, balanceCache.Values
    {
      forall pk, tick ::
        Utf8Length(tick) == 4 && CacheKey(pk, tick) in balanceCache && Some(CacheKey(pk, tick)) != key ==>
          balanceCache[CacheKey(pk, tick)].Value() == BalanceOf(balances, pk, tick)
    }

    /** Different keys never share an object. */
    ghost predicate Unshared()
      reads this`balanceCache
    {
      forall k, l :: k in balanceCache && l in balanceCache && k != l ==> balanceCache[k] != balanceCache[l]
    }

    ghost predicate EventsCached()
      reads this`events, this`inscribeCache
    {
      forall id :: id in inscribeCache ==> FindEvent(events, InscribeKind, id) == Some(inscribeCache[id])
    }

    ghost predicate Valid()
      reads this, balanceCache.Values
    {
      CachedExcept(None) && Unshared() && EventsCached()
    }

    /** The tickers in memory are the ticker rows; those of this block lack starting data. */
    ghost predicate TicksAgree(height: int)
      reads this`ticks, this`tickers, this`blocks
    {
      && ticks.Keys == tickers.Keys
      && forall k :: k in ticks ==> TickAgrees(ticks[k], tickers[k], blocks, height)
    }

    /** A new process on existing tables: memory is empty. */
    constructor (env: Env, first: int, t: Tables)
      ensures Valid() && Db() == t && this.env == env && this.first == first && balanceCache == map[]
    {
      this.env, this.first := env, first;
      events, tickers, balances, hashes, blocks := t.events, t.tickers, t.balances, t.hashes, t.blocks;
      ticks, balanceCache, inscribeCache, blockEventsStr := map[], map[], map[], "";
    }

    method ResetCaches()
      modifies this`balanceCache, this`inscribeCache
      ensures Valid() && balanceCache == map[]
    {
      balanceCache := map[];
      inscribeCache := map[];
    }

    /** Returns the cached object for the account, reading the newest row on a miss. The caller may
        mutate the object: it is the one later callers get. */
    method GetLastBalance(pkscript: string, tick: string) returns (b: BalanceObj)
      requires Valid() && Utf8Length(tick) == 4
      modifies this`balanceCache
      ensures Valid() && fresh(balanceCache.Values - old(balanceCache.Values))
      ensures CacheKey(pkscript, tick) in balanceCache && balanceCache[CacheKey(pkscript, tick)] == b
      ensures b.Value() == BalanceOf(balances, pkscript, tick)
    {
      var key := CacheKey(pkscript, tick);
      if key in balanceCache {
        return balanceCache[key];
      }
      var row := Newest(balances, pkscript, tick);
      match row {
        case None => b := new BalanceObj(0, 0);
        case Some(r) => b := new BalanceObj(r.value.balance.overall, r.value.balance.available);
      }
      balanceCache := balanceCache[key := b];
      assert balanceCache.Values <= old(balanceCache.Values) + {b};
      forall pk, t | Utf8Length(t) == 4 && CacheKey(pk, t) in balanceCache
        ensures balanceCache[CacheKey(pk, t)].Value() == BalanceOf(balances, pk, t) {
        if CacheKey(pk, t) == key {
          CacheKeyInjective(pk, t, pkscript, tick);
        }
      }
    }

    /** `insert into pow20_historic_balances`: writes the account's object down as its newest row. */
    method SaveBalance(b: BalanceObj, pkscript: string, wallet: Option<string>, tick: string, height: int)
      requires Utf8Length(tick) == 4 && AllUpTo(balances, height)
      requires CacheKey(pkscript, tick) in balanceCache && balanceCache[CacheKey(pkscript, tick)] == b
      requires CachedExcept(Some(CacheKey(pkscript, tick)))
      modifies this`balances
      ensures CachedExcept(None) && AllUpTo(balances, height)
      ensures balances == old(balances) + [Row(height, BalanceRec(pkscript, wallet, tick, b.Value()))]
      ensures BalanceOf(balances, pkscript, tick) == b.Value()
    {
      ghost var before := balances;
      var row := Row(height, BalanceRec(pkscript, wallet, tick, Balance(b.overall, b.available)));
      balances := balances + [row];
      forall pk, t | Utf8Length(t) == 4 && CacheKey(pk, t) in balanceCache
        ensures balanceCache[CacheKey(pk, t)].Value() == BalanceOf(balances, pk, t) {
        NewestPush(before, row, pk, t);
        if CacheKey(pk, t) == CacheKey(pkscript, tick) {
          CacheKeyInjective(pk, t, pkscript, tick);
        }
      }
      NewestPush(before, row, pkscript, tick);
    }

    function Here(): Cursor
      reads this`events, this`tickers, this`balances, this`hashes, this`blocks, this`blockEventsStr
    {
      Cursor(Db(), blockEventsStr)
    }

    /** Between the transfers of a block. */
    ghost predicate Ready(height: int)
      reads this, balanceCache.Values
    {
      Valid() && TicksAgree(height) && AllUpTo(balances, height)
    }

    /** Adds the event's text to the block's and inserts its row; the unique index on type and
        inscription must allow it. */
    method AddEvent(height: int, inscriptionId: string, event: Event, decimals: Decimals)
      requires EventsCached() && CountEvents(events, KindOf(event), inscriptionId) == 0
      modifies this`events, this`blockEventsStr
      ensures EventsCached()
      ensures events == old(events) + [Row(height, EventRec(inscriptionId, event))]
      ensures blockEventsStr
                == old(blockEventsStr) + (env.eventStr(EventRec(inscriptionId, event), decimals) + EVENT_SEPARATOR)
    {
      blockEventsStr := blockEventsStr + (env.eventStr(EventRec(inscriptionId, event), decimals) + EVENT_SEPARATOR);
      ghost var before := events;
      var row := Row(height, EventRec(inscriptionId, event));
      events := events + [row];
      forall id | id in inscribeCache
        ensures FindEvent(events, InscribeKind, id) == Some(inscribeCache[id]) {
        FindEventPush(before, row, InscribeKind, id);
      }
    }

    /** Takes the event out of the single-use cache, or reads it from the table. */
    method GetTransferInscribeEvent(inscriptionId: string) returns (e: Event)
      requires EventsCached() && FindEvent(events, InscribeKind, inscriptionId).Some?
      modifies this`inscribeCache
      ensures EventsCached() && Some(e) == FindEvent(events, InscribeKind, inscriptionId)
    {
      if inscriptionId in inscribeCache {
        e := inscribeCache[inscriptionId];
        inscribeCache := map id | id in inscribeCache && id != inscriptionId :: inscribeCache[id];
        return;
      }
      e := FindEvent(events, InscribeKind, inscriptionId).value;
    }

    method DeployInscribe(height: int, id: string, pkscript: string, wallet: Option<string>, tick: string,
                          maxSupply: nat, decimals: Decimals, limitPerMint: nat, difficulty: nat, startingHeight: nat)
      requires Ready(height) && tick !in tickers && CountEvents(events, DeployKind, id) == 0
      modifies this
      ensures Ready(height) && balanceCache == old(balanceCache)
      ensures var s := Deploy(id, pkscript, wallet, tick, maxSupply, decimals, limitPerMint, difficulty,
                              startingHeight);
              Progress(Here(), false) == Carry(env, old(Here()), height, Commit(s))
    {
      var event := Event.DeployInscribe(pkscript, wallet, tick, maxSupply, decimals, limitPerMint, difficulty,
                                        startingHeight);
      AddEvent(height, id, event, decimals);
      tickers := tickers[tick := Ticker(maxSupply, decimals, limitPerMint, maxSupply, height, startingHeight,
                                        difficulty)];
      ticks := ticks[tick := TickInfo(maxSupply, limitPerMint, decimals, None)];
      assert balances == old(balances) + [];
    }

    /** `last_balance[...] += ...` on the cached object, then its new row. */
    method Adjust(b: BalanceObj, pkscript: string, wallet: Option<string>, tick: string, overallBy: int,
                  availableBy: int, height: int)
      requires Valid() && Utf8Length(tick) == 4 && AllUpTo(balances, height)
      requires CacheKey(pkscript, tick) in balanceCache && balanceCache[CacheKey(pkscript, tick)] == b
      modifies b, this`balances
      ensures Valid() && AllUpTo(balances, height)
      ensures var was := BalanceOf(old(balances), pkscript, tick);
              balances == old(balances) + [AdjustedRow(was, pkscript, wallet, tick, overallBy, availableBy, height)]
      ensures BalanceOf(balances, pkscript, tick)
                == AdjustedRow(BalanceOf(old(balances), pkscript, tick), pkscript, wallet, tick, overallBy, availableBy,
                               height).value.balance
    {
      b.overall := b.overall + overallBy;
      b.available := b.available + availableBy;
      SaveBalance(b, pkscript, wallet, tick, height);
    }

    method AdjustAccount(pkscript: string, wallet: Option<string>, tick: string, overallBy: int,
                         availableBy: int, height: int)
      requires Valid() && Utf8Length(tick) == 4 && AllUpTo(balances, height)
      modifies this`balances, this`balanceCache, balanceCache.Values
      ensures Valid() && AllUpTo(balances, height) && fresh(balanceCache.Values - old(balanceCache.Values))
      ensures balances == old(balances)
                + [AdjustedRow(BalanceOf(old(balances), pkscript, tick), pkscript, wallet, tick, overallBy, availableBy,
                               height)]
    {
      var lastBalance := GetLastBalance(pkscript, tick);
      Adjust(lastBalance, pkscript, wallet, tick, overallBy, availableBy, height);
    }

    /** An event, and the row of the one account it adjusts. */
    method RecordAdjusting(height: int, id: string, event: Event, decimals: Decimals, pkscript: string,
                           wallet: Option<string>,
                           tick: string, overallBy: int, availableBy: int)
      requires Valid() && Utf8Length(tick) == 4 && AllUpTo(balances, height)
      requires CountEvents(events, KindOf(event), id) == 0
      modifies this`events, this`blockEventsStr, this`balances, this`balanceCache, balanceCache.Values
      ensures Valid() && AllUpTo(balances, height) && fresh(balanceCache.Values - old(balanceCache.Values))
      ensures events == old(events) + [Row(height, EventRec(id, event))]
      ensures blockEventsStr == old(blockEventsStr) + (env.eventStr(EventRec(id, event), decimals) + EVENT_SEPARATOR)
      ensures balances == old(balances)
                + [AdjustedRow(BalanceOf(old(balances), pkscript, tick), pkscript, wallet, tick, overallBy, availableBy,
                               height)]
    {
      AddEvent(height, id, event, decimals);
      AdjustAccount(pkscript, wallet, tick, overallBy, availableBy, height);
    }

    method MintInscribe(height: int, id: string, pkscript: string, wallet: Option<string>, tick: string,
                        amount: nat, solution: string)
      requires Ready(height) && tick in tickers && Utf8Length(tick) == 4
      requires CountEvents(events, MintKind, id) == 0
      modifies this`events, this`blockEventsStr, this`balances, this`balanceCache, this`tickers, this`ticks,
               balanceCache.Values
      ensures Ready(height) && fresh(balanceCache.Values - old(balanceCache.Values))
      ensures var s := Mint(id, pkscript, wallet, tick, amount, solution);
              Progress(Here(), false) == Carry(env, old(Here()), height, Commit(s))
    {
      ghost var c, row := Here(), AdjustedRow(BalanceOf(balances, pkscript, tick), pkscript, wallet, tick, amount,
                                              amount, height);
      var event, decimals := Event.MintInscribe(pkscript, wallet, tick, amount, solution), ticks[tick].decimals;
      RecordAdjusting(height, id, event, decimals, pkscript, wallet, tick, amount, amount);
      TakeSupply(height, tick, amount);
      ghost var s := Mint(id, pkscript, wallet, tick, amount, solution);
      assert tickers == TickersAfter(c.tables, height, s);
      Carried(env, c, height, s, event, decimals, [row], Here());
    }

    /** `remaining_supply - amount` in the table and in memory. */
    method TakeSupply(height: int, tick: string, amount: nat)
      requires TicksAgree(height) && tick in tickers
      modifies this`tickers, this`ticks
      ensures TicksAgree(height)
      ensures tickers == old(tickers)[tick := old(tickers)[tick].(remaining := old(tickers)[tick].remaining - amount)]
    {
      tickers := tickers[tick := tickers[tick].(remaining := tickers[tick].remaining - amount)];
      ticks := ticks[tick := ticks[tick].(remaining := ticks[tick].remaining - amount)];
    }

    method TransferInscribe(height: int, id: string, pkscript: string, wallet: Option<string>, tick: string,
                            amount: nat)
      requires Ready(height) && tick in tickers && Utf8Length(tick) == 4
      requires CountEvents(events, InscribeKind, id) == 0
      modifies this, balanceCache.Values
      ensures Ready(height) && fresh(balanceCache.Values - old(balanceCache.Values))
      ensures var s := Inscribe(id, pkscript, wallet, tick, amount);
              Progress(Here(), false) == Carry(env, old(Here()), height, Commit(s))
    {
      ghost var c, row := Here(), AdjustedRow(BalanceOf(balances, pkscript, tick), pkscript, wallet, tick, 0,
                                              0 - amount, height);
      var event, decimals := Event.TransferInscribe(pkscript, wallet, tick, amount), ticks[tick].decimals;
      RecordAdjusting(height, id, event, decimals, pkscript, wallet, tick, 0, 0 - amount);
      SaveTransferInscribeEvent(id, event);
      Carried(env, c, height, Inscribe(id, pkscript, wallet, tick, amount), event, decimals, [row], Here());
    }

    method SaveTransferInscribeEvent(id: string, event: Event)
      requires EventsCached() && events != []
      requires var last := events[|events| - 1].value;
               last.inscriptionId == id && last.event == event && KindOf(event) == InscribeKind
      modifies this`inscribeCache
      ensures EventsCached()
    {
      inscribeCache := inscribeCache[id := event];
    }

    /** A transfer to oneself debits and credits one and the same cached object. */
    method TransferTransferNormal(height: int, id: string, spentPkscript: string, spentWallet: Option<string>,
                                  tick: string, amount: nat, usingTxId: int)
      requires Ready(height) && tick in tickers && Utf8Length(tick) == 4
      requires FindEvent(events, InscribeKind, id).Some? && CountEvents(events, TransferKind, id) == 0
      modifies this, balanceCache.Values
      ensures Ready(height) && fresh(balanceCache.Values - old(balanceCache.Values))
      ensures var s := Move(id, spentPkscript, spentWallet, tick, amount, usingTxId);
              Progress(Here(), false) == Carry(env, old(Here()), height, Commit(s))
    {
      var inscribeEvent := GetTransferInscribeEvent(id);
      CommitMove(height, id, inscribeEvent, spentPkscript, spentWallet, tick, amount, usingTxId);
    }

    method CommitMove(height: int, id: string, inscribeEvent: Event, spentPkscript: string, spentWallet: Option<string>,
                      tick: string, amount: nat, usingTxId: int)
      requires Ready(height) && tick in tickers && Utf8Length(tick) == 4
      requires FindEvent(events, InscribeKind, id) == Some(inscribeEvent) && CountEvents(events, TransferKind, id) == 0
      modifies this`events, this`blockEventsStr, this`balances, this`balanceCache, balanceCache.Values
      ensures Ready(height) && fresh(balanceCache.Values - old(balanceCache.Values))
      ensures var s := Move(id, spentPkscript, spentWallet, tick, amount, usingTxId);
              Progress(Here(), false) == Carry(env, old(Here()), height, Commit(s))
    {
      var sourcePkscript, sourceWallet := inscribeEvent.sourcePkscript, inscribeEvent.sourceWallet;
      ghost var c, s := Here(), Move(id, spentPkscript, spentWallet, tick, amount, usingTxId);
      ghost var rows := MovedRows(balances, sourcePkscript, sourceWallet, spentPkscript, spentWallet, tick, amount,
                                  height);
      var event := Event.TransferTransfer(sourcePkscript, sourceWallet, Some(spentPkscript), spentWallet, tick, amount,
                                          usingTxId);
      var decimals := ticks[tick].decimals;
      RecordMoving(height, id, event, decimals);
      Carried(env, c, height, s, event, decimals, rows, Here());
    }

    /** A transfer event, and the rows of its source and its receiver. */
    method RecordMoving(height: int, id: string, e: Event, decimals: Decimals)
      requires Valid() && e.TransferTransfer? && e.spentPkscript.Some? && Utf8Length(e.tick) == 4
      requires AllUpTo(balances, height)
      requires CountEvents(events, TransferKind, id) == 0
      modifies this`events, this`blockEventsStr, this`balances, this`balanceCache, balanceCache.Values
      ensures Valid() && AllUpTo(balances, height) && fresh(balanceCache.Values - old(balanceCache.Values))
      ensures events == old(events) + [Row(height, EventRec(id, e))]
      ensures blockEventsStr == old(blockEventsStr) + (env.eventStr(EventRec(id, e), decimals) + EVENT_SEPARATOR)
      ensures balances == old(balances)
                + MovedRows(old(balances), e.sourcePkscript, e.sourceWallet, e.spentPkscript.value, e.spentWallet,
                            e.tick, e.amount, height)
    {
      AddEvent(height, id, e, decimals);
      MoveBalance(e.sourcePkscript, e.sourceWallet, e.spentPkscript.value, e.spentWallet, e.tick, e.amount, height);
    }

    /** The source's cached object loses the amount, and stays at hand. */
    method DebitSource(pkscript: string, wallet: Option<string>, tick: string, amount: nat, height: int)
      returns (lastBalance: BalanceObj)
      requires Valid() && Utf8Length(tick) == 4 && AllUpTo(balances, height)
      modifies this`balances, this`balanceCache, balanceCache.Values
      ensures Valid() && AllUpTo(balances, height) && fresh(balanceCache.Values - old(balanceCache.Values))
      ensures CacheKey(pkscript, tick) in balanceCache && balanceCache[CacheKey(pkscript, tick)] == lastBalance
      ensures balances == old(balances)
                + [AdjustedRow(BalanceOf(old(balances), pkscript, tick), pkscript, wallet, tick, 0 - amount, 0, height)]
    {
      lastBalance := GetLastBalance(pkscript, tick);
      Adjust(lastBalance, pkscript, wallet, tick, 0 - amount, 0, height);
    }

    /** The receiver gains the amount; a source that sends to itself goes on with the object at hand. */
    method CreditReceiver(atHand: BalanceObj, sourcePkscript: string, pkscript: string, wallet: Option<string>,
                          tick: string,
                          amount: nat, height: int)
      requires Valid() && Utf8Length(tick) == 4 && AllUpTo(balances, height)
      requires CacheKey(sourcePkscript, tick) in balanceCache && balanceCache[CacheKey(sourcePkscript, tick)] == atHand
      modifies this`balances, this`balanceCache, balanceCache.Values
      ensures Valid() && AllUpTo(balances, height) && fresh(balanceCache.Values - old(balanceCache.Values))
      ensures balances == old(balances)
                + [AdjustedRow(BalanceOf(old(balances), pkscript, tick), pkscript, wallet, tick, amount, amount,
                               height)]
    {
      var lastBalance := atHand;
      if pkscript != sourcePkscript {
        lastBalance := GetLastBalance(pkscript, tick);
      }
      Adjust(lastBalance, pkscript, wallet, tick, amount, amount, height);
    }

    method MoveBalance(sourcePkscript: string, sourceWallet: Option<string>, spentPkscript: string,
                       spentWallet: Option<string>, tick: string, amount: nat, height: int)
      requires Valid() && Utf8Length(tick) == 4 && AllUpTo(balances, height)
      modifies this`balances, this`balanceCache, balanceCache.Values
      ensures Valid() && AllUpTo(balances, height) && fresh(balanceCache.Values - old(balanceCache.Values))
      ensures balances == old(balances)
                + MovedRows(old(balances), sourcePkscript, sourceWallet, spentPkscript, spentWallet, tick, amount,
                            height)
    {
      ghost var before := balances;
      ghost var debit := AdjustedRow(BalanceOf(before, sourcePkscript, tick), sourcePkscript, sourceWallet, tick,
                                     0 - amount, 0, height);
      ghost var credit := AdjustedRow(BalanceOf(before + [debit], spentPkscript, tick), spentPkscript, spentWallet,
                                      tick, amount, amount, height);
      MovedOneByOne(before, sourcePkscript, sourceWallet, spentPkscript, spentWallet, tick, amount, height);
      Associates(before, [debit], [credit]);
      var lastBalance := DebitSource(sourcePkscript, sourceWallet, tick, amount, height);
      CreditReceiver(lastBalance, sourcePkscript, spentPkscript, spentWallet, tick, amount, height);
    }

    method TransferTransferSpendToFee(height: int, id: string, tick: string, amount: nat, usingTxId: int)
      requires Ready(height) && tick in tickers && Utf8Length(tick) == 4
      requires FindEvent(events, InscribeKind, id).Some? && CountEvents(events, TransferKind, id) == 0
      modifies this, balanceCache.Values
      ensures Ready(height) && fresh(balanceCache.Values - old(balanceCache.Values))
      ensures Progress(Here(), false)
                == Carry(env, old(Here()), height, Commit(SpendToFee(id, tick, amount, usingTxId)))
    {
      var inscribeEvent := GetTransferInscribeEvent(id);
      CommitSpendToFee(height, id, inscribeEvent, tick, amount, usingTxId);
    }

    method CommitSpendToFee(height: int, id: string, inscribeEvent: Event, tick: string, amount: nat, usingTxId: int)
      requires Ready(height) && tick in tickers && Utf8Length(tick) == 4
      requires FindEvent(events, InscribeKind, id) == Some(inscribeEvent) && CountEvents(events, TransferKind, id) == 0
      modifies this`events, this`blockEventsStr, this`balances, this`balanceCache, balanceCache.Values
      ensures Ready(height) && fresh(balanceCache.Values - old(balanceCache.Values))
      ensures Progress(Here(), false)
                == Carry(env, old(Here()), height, Commit(SpendToFee(id, tick, amount, usingTxId)))
    {
      var sourcePkscript, sourceWallet := inscribeEvent.sourcePkscript, inscribeEvent.sourceWallet;
      ghost var c, s := Here(), SpendToFee(id, tick, amount, usingTxId);
      ghost var row := AdjustedRow(BalanceOf(balances, sourcePkscript, tick), sourcePkscript, sourceWallet, tick, 0,
                                   amount, height);
      var event := Event.TransferTransfer(sourcePkscript, sourceWallet, None, None, tick, amount, usingTxId);
      var decimals := ticks[tick].decimals;
      RecordAdjusting(height, id, event, decimals, sourcePkscript, sourceWallet, tick, 0, amount);
      Carried(env, c, height, s, event, decimals, [row], Here());
    }

    /** get_number_extended_to_18_decimals behind its format check and bounds. */
    method ParseAmount(text: string, decimals: Decimals) returns (r: Option<nat>)
      ensures r == ReadAmount(text, decimals)
    {
      var wellFormed := IsPositiveNumberWithDot(text);
      if !wellFormed {
        return None;
      }
      var amount := ExtendTo18(text, decimals);
      if amount.None? || amount.value > MAX_AMOUNT || amount.value <= 0 {
        return None;
      }
      return amount;
    }

    /** The checks of a deploy, against the tickers in memory. */
    method CheckDeploy(height: int, tr: Transfer, tick: string) returns (d: Decision)
      requires ticks.Keys == tickers.Keys
      ensures d == DecideDeploy(env, Db(), height, tr, tick)
    {
      var js := env.content(tr.inscriptionId);
      if "max" !in js || "difficulty" !in js || "startBlock" !in js { return Skip; }
      if !IsPositiveNumber(js["startBlock"]) { return Skip; }
      var startingHeight := ParseNat(js["startBlock"]);
      if startingHeight < height { return Skip; }
      if !IsPositiveNumber(js["difficulty"]) { return Skip; }
      var difficulty := ParseNat(js["difficulty"]);
      if difficulty > 64 { return Skip; }
      if tick in ticks { return Skip; }
      var decimals := 18;
      if "dec" in js {
        if !IsPositiveNumber(js["dec"]) { return Skip; }
        decimals := ParseNat(js["dec"]);
      }
      if decimals > 18 { return Skip; }
      var maxSupply := ParseAmount(js["max"], decimals);
      if maxSupply.None? { return Skip; }
      var limitPerMint := maxSupply;
      if "lim" in js {
        limitPerMint := ParseAmount(js["lim"], decimals);
        if limitPerMint.None? { return Skip; }
      }
      if CountEvents(events, DeployKind, tr.inscriptionId) > 0 || startingHeight > INT4_MAX {
        return Abort; // the insert raises and the transaction is rolled back
      }
      return Commit(Deploy(tr.inscriptionId, tr.newPkscript, env.wallet(tr.newPkscript), tick, maxSupply.value,
                           decimals,
                           limitPerMint.value, difficulty, startingHeight));
    }

    method HandleDeploy(height: int, tr: Transfer, tick: string) returns (aborted: bool)
      requires Ready(height)
      modifies this
      ensures Ready(height) && balanceCache == old(balanceCache)
      ensures DeployDecided(env, old(Db()), height, tr, tick)
      ensures Progress(Here(), aborted)
                == Carry(env, old(Here()), height, DecideDeploy(env, old(Db()), height, tr, tick))
    {
      var decision := CheckDeploy(height, tr, tick);
      match decision {
        case Skip => return false;
        case Abort => return true;
        case Commit(s) =>
          DeployInscribe(height, s.inscriptionId, s.pkscript, s.wallet, s.tick, s.maxSupply, s.decimals, s.limitPerMint,
                         s.difficulty, s.startingHeight);
          return false;
      }
    }

    method HandleMint(height: int, tr: Transfer, tick: string) returns (aborted: bool)
      requires Ready(height) && Utf8Length(tick) == 4
      modifies this, balanceCache.Values
      ensures Ready(height) && fresh(balanceCache.Values - old(balanceCache.Values))
      ensures MintDecided(env, old(Db()), height, tr, tick)
      ensures Progress(Here(), aborted) == Carry(env, old(Here()), height, DecideMint(env, old(Db()), height, tr, tick))
    {
      var d := CheckMint(height, tr, tick);
      match d {
        case Skip => return false;
        case Abort => return true;
        case Commit(s) =>
          MintInscribe(height, s.inscriptionId, s.pkscript, s.wallet, s.tick, s.amount, s.solution);
          return false;
      }
    }

    /** What is checked of a mint, against the ticker in memory. */
    method CheckMint(height: int, tr: Transfer, tick: string) returns (d: Decision)
      requires TicksAgree(height)
      ensures d == DecideMint(env, Db(), height, tr, tick)
      ensures d.Commit? ==> d.step.Mint? && d.step.tick == tick && tick in tickers
                            && CountEvents(events, MintKind, d.step.inscriptionId) == 0
    {
      var js := env.content(tr.inscriptionId);
      if "amt" !in js { return Skip; }
      if tick !in ticks { return Skip; }
      var info := ticks[tick];
      if info.start.None? {
        return Abort; // the list in memory has three entries, so reading the fifth raises
      }
      if height < info.start.value.startingHeight { return Skip; }
      var requested := ParseAmount(js["amt"], info.decimals);
      if requested.None? { return Skip; }
      var amount := requested.value;
      if info.remaining <= 0 { return Skip; }
      if amount > info.limitPerMint { return Skip; }
      if amount > info.remaining {
        amount := info.remaining;
      }
      if "solution" !in js { return Skip; }
      var solution := js["solution"];
      var fits := CheckSolution(height, tr, tick, solution);
      if !fits { return Skip; }
      if CountEvents(events, MintKind, tr.inscriptionId) > 0 { return Abort; }
      return Commit(Mint(tr.inscriptionId, tr.newPkscript, env.wallet(tr.newPkscript), tick, amount, solution));
    }

    method CheckSolution(height: int, tr: Transfer, tick: string, solution: string) returns (ok: bool)
      requires TicksAgree(height) && tick in tickers && ticks[tick].start.Some?
      ensures ok == SolutionFits(env, Db(), tr, tick, solution)
    {
      var start := ticks[tick].start.value;
      var solutionComponents := SplitOn(solution, ':');
      if |solutionComponents| != 4 { return false; }
      if solutionComponents[0] != env.upper(tick) { return false; }
      if Some(solutionComponents[1]) != env.wallet(tr.newPkscript) { return false; }
      if Some(solutionComponents[2]) != start.startingHash { return false; }
      if !MeetsDifficulty(env, solution, start.difficulty) { return false; }
      if HasSolutionBeenUsed(events, solution) { return false; }
      return true;
    }

    method HandleTransfer(height: int, tr: Transfer, tick: string) returns (aborted: bool)
      requires Ready(height) && Utf8Length(tick) == 4
      modifies this, balanceCache.Values
      ensures Ready(height) && fresh(balanceCache.Values - old(balanceCache.Values))
      ensures TransferDecided(env, old(Db()), tr, tick)
      ensures Progress(Here(), aborted) == Carry(env, old(Here()), height, DecideTransfer(env, old(Db()), tr, tick))
    {
      var js := env.content(tr.inscriptionId);
      if "amt" !in js { return false; }
      if tick !in ticks { return false; }
      var amount := ParseAmount(js["amt"], ticks[tick].decimals);
      if amount.None? { return false; }
      if tr.oldSatpoint == "" {
        aborted := HandleInscribe(height, tr, tick, amount.value);
      } else {
        aborted := HandleSpend(height, tr, tick, amount.value);
      }
    }

    method HandleSpend(height: int, tr: Transfer, tick: string, amount: nat) returns (aborted: bool)
      requires Ready(height) && Utf8Length(tick) == 4 && tick in tickers
      modifies this, balanceCache.Values
      ensures Ready(height) && fresh(balanceCache.Values - old(balanceCache.Values))
      ensures SpendDecided(env, old(Db()), tr, tick, amount)
      ensures Progress(Here(), aborted)
                == Carry(env, old(Here()), height, DecideSpend(env, old(Db()), tr, tick, amount))
    {
      if IsUsedOrInvalid(events, tr.inscriptionId) { return false; }
      if tr.sentAsFee {
        TransferTransferSpendToFee(height, tr.inscriptionId, tick, amount, tr.txId);
      } else {
        TransferTransferNormal(height, tr.inscriptionId, tr.newPkscript, env.wallet(tr.newPkscript), tick, amount,
                               tr.txId);
      }
      return false;
    }

    method HandleInscribe(height: int, tr: Transfer, tick: string, amount: nat) returns (aborted: bool)
      requires Ready(height) && Utf8Length(tick) == 4 && tick in tickers
      modifies this, balanceCache.Values
      ensures Ready(height) && fresh(balanceCache.Values - old(balanceCache.Values))
      ensures InscribeDecided(env, old(Db()), tr, tick, amount)
      ensures Progress(Here(), aborted)
                == Carry(env, old(Here()), height, DecideInscribe(env, old(Db()), tr, tick, amount))
    {
      var balance := GetLastBalance(tr.newPkscript, tick);
      if balance.available < amount { return false; }
      if CountEvents(events, InscribeKind, tr.inscriptionId) > 0 { return true; }
      TransferInscribe(height, tr.inscriptionId, tr.newPkscript, env.wallet(tr.newPkscript), tick, amount);
      return false;
    }

    /** The ticker and the operation of a transfer, if it is one to look at. */
    method ReadTransfer(tr: Transfer) returns (found: Option<(string, string)>)
      ensures found.Some? <==> IsRelevant(env, tr)
      ensures found.Some? ==>
                found.value == (env.lower(env.content(tr.inscriptionId)["tick"]), env.content(tr.inscriptionId)["op"])
    {
      if tr.sentAsFee && tr.oldSatpoint == "" { return None; }
      if tr.contentType.None? { return None; }
      var contentType := SplitOn(tr.contentType.value, ';')[0];
      if contentType != "application/json" && contentType != "text/plain" { return None; }
      var js := env.content(tr.inscriptionId);
      if "tick" !in js { return None; }
      if "op" !in js { return None; }
      var tick := env.lower(js["tick"]);
      if Utf8Length(tick) != 4 { return None; }
      return Some((tick, js["op"]));
    }

    method HandleOp(height: int, tr: Transfer, tick: string, op: string) returns (aborted: bool)
      requires Ready(height) && Utf8Length(tick) == 4
      modifies this, balanceCache.Values
      ensures Ready(height) && fresh(balanceCache.Values - old(balanceCache.Values))
      ensures OpDecided(env, old(Db()), height, tr, tick, op)
      ensures Progress(Here(), aborted)
                == Carry(env, old(Here()), height, DecideOp(env, old(Db()), height, tr, tick, op))
    {
      aborted := false;
      if op == "deploy" && tr.oldSatpoint == "" {
        aborted := HandleDeploy(height, tr, tick);
      } else if op == "mint" && tr.oldSatpoint == "" {
        aborted := HandleMint(height, tr, tick);
      } else if op == "transfer" {
        aborted := HandleTransfer(height, tr, tick);
      }
    }

    /** One turn of the loop over a block's transfers. */
    method ProcessTransfer(height: int, tr: Transfer) returns (aborted: bool)
      requires Ready(height)
      modifies this, balanceCache.Values
      ensures Ready(height) && fresh(balanceCache.Values - old(balanceCache.Values))
      ensures Progress(Here(), aborted) == Pow20Rules(env).advance(old(Here()), height, tr)
    {
      AdvanceIs(env, Here(), height, tr);
      var found := ReadTransfer(tr);
      if found.None? {
        return false;
      }
      aborted := HandleOp(height, tr, found.value.0, found.value.1);
    }

    method UpdateEventHashes(height: int)
      modifies this`hashes, this`blockEventsStr
      ensures Db() == WithHashes(Pow20Rules(env), old(Here()), height)
    {
      if |blockEventsStr| > 0 && blockEventsStr[|blockEventsStr| - 1..] == EVENT_SEPARATOR {
        blockEventsStr := blockEventsStr[..|blockEventsStr| - 1];
      }
      var blockEventHash := env.sha(blockEventsStr);
      var previous := HashAt(hashes, height - 1);
      var cumulative := if previous.None? then blockEventHash
                        else env.sha(previous.value.cumulativeEventHash + blockEventHash);
      hashes := hashes + [Row(height, HashRec(blockEventHash, cumulative))];
    }

    method RefreshTicks(height: int)
      requires forall k :: k in tickers ==> tickers[k].height < height
      modifies this`ticks
      ensures TicksAgree(height)
    {
      ticks := map k | k in tickers ::
        TickInfo(tickers[k].remaining, tickers[k].limitPerMint, tickers[k].decimals,
                 Some(StartInfo(tickers[k].difficulty, tickers[k].startingHeight,
                                BlockHashAt(blocks, tickers[k].startingHeight))));
    }

    /** Indexes a block and stops after `stop` units of work, as a process that dies there would;
        a stop beyond the last unit means the block is indexed without interruption. */
    method IndexBlock(height: int, block: Block, stop: nat) returns (finished: bool)
      requires Valid() && Bounded(Db(), height - 1)
      modifies this, balanceCache.Values
      ensures Valid() && fresh(balanceCache.Values - old(balanceCache.Values))
      ensures Db() == StateAt(Pow20Rules(env), old(Db()), height, block, stop)
      ensures finished <==> Completes(Pow20Rules(env), old(Db()), height, block, stop)
    {
      blockEventsStr := "";
      RefreshTicks(height);
      var n := if stop < |block.transfers| then stop else |block.transfers|;
      var aborted := IndexTransfers(height, block.transfers[..n]);
      if stop <= |block.transfers| || aborted {
        assert stop > |block.transfers| ==> block.transfers[..|block.transfers|] == block.transfers;
        return false;
      }
      assert block.transfers[..|block.transfers|] == block.transfers;
      UpdateEventHashes(height);
      if stop == |block.transfers| + 1 {
        return false;
      }
      blocks := blocks + [Row(height, block.hash)];
      return true;
    }

    method IndexTransfers(height: int, transfers: seq<Transfer>) returns (aborted: bool)
      requires Ready(height) && blockEventsStr == ""
      modifies this, balanceCache.Values
      ensures Valid() && fresh(balanceCache.Values - old(balanceCache.Values))
      ensures Progress(Here(), aborted) == RunTransfers(Pow20Rules(env), old(Db()), height, transfers)
    {
      aborted := false;
      var i := 0;
      while i < |transfers| && !aborted
        invariant 0 <= i <= |transfers|
        invariant Ready(height) && fresh(balanceCache.Values - old(balanceCache.Values))
        invariant Progress(Here(), aborted) == RunTransfers(Pow20Rules(env), old(Db()), height, transfers[..i])
      {
        assert transfers[..i + 1][..i] == transfers[..i];
        aborted := ProcessTransfer(height, transfers[i]);
        i := i + 1;
      }
      assert transfers[..|transfers|] == transfers;
      if aborted {
        AbortSticks(Pow20Rules(env), old(Db()), height, transfers, i);
      }
    }

    /** Deletes the rows above h and gives the amounts minted above h back to their tickers. */
    method ReorgFix(reorgHeight: int)
      modifies this
      ensures Valid() && balanceCache == map[]
      ensures Db() == Rollback(old(Db()), reorgHeight)
    {
      tickers := map k | k in tickers && tickers[k].height <= reorgHeight :: tickers[k];
      var tickChanges := SumMinted(reorgHeight);
      GiveBack(tickChanges);
      assert tickers == TickersBack(old(Db()), reorgHeight);
      balances := UpTo(balances, reorgHeight);
      events := UpTo(events, reorgHeight);
      hashes := UpTo(hashes, reorgHeight);
      blocks := UpTo(blocks, reorgHeight);
      ResetCaches();
    }

    method SumMinted(reorgHeight: int) returns (tickChanges: map<string, nat>)
      ensures forall k :: MintedAbove(events, reorgHeight, k) == if k in tickChanges then tickChanges[k] else 0
    {
      tickChanges := map[];
      for i := 0 to |events|
        invariant forall k :: MintedAbove(events[..i], reorgHeight, k) == if k in tickChanges then tickChanges[k] else 0
      {
        assert events[..i + 1] == events[..i] + [events[i]];
        forall k ensures MintedAbove(events[..i + 1], reorgHeight, k)
                         == MintedAbove(events[..i], reorgHeight, k) + MintIn(events[i], reorgHeight, k) {
          MintedAbovePush(events[..i], events[i], reorgHeight, k);
        }
        if events[i].value.event.MintInscribe? && events[i].height > reorgHeight {
          var tick, amount := events[i].value.event.tick, events[i].value.event.amount;
          if tick !in tickChanges {
            tickChanges := tickChanges[tick := 0];
          }
          tickChanges := tickChanges[tick := tickChanges[tick] + amount];
        }
      }
      assert events[..|events|] == events;
    }

    method GiveBack(tickChanges: map<string, nat>)
      modifies this`tickers
      ensures tickers.Keys == old(tickers).Keys
      ensures forall k :: k in tickers ==>
        tickers[k] == old(tickers)[k].(remaining := old(tickers)[k].remaining
                                                    + if k in tickChanges then tickChanges[k] else 0)
    {
      var todo := tickChanges.Keys;
      while todo != {}
        invariant todo <= tickChanges.Keys && tickers.Keys == old(tickers).Keys
        invariant forall k :: k in tickers ==>
          tickers[k] == old(tickers)[k].(remaining := old(tickers)[k].remaining
                                         + if k in tickChanges && k !in todo then tickChanges[k] else 0)
        decreases |todo|
      {
        var tick :| tick in todo;
        if tick in tickers {
          tickers := tickers[tick := tickers[tick].(remaining := tickers[tick].remaining + tickChanges[tick])];
        }
        todo := todo - {tick};
      }
    }

    method CheckIfThereIsResidueFromLastRun()
      requires Valid()
      modifies this
      ensures Valid() && fresh(balanceCache.Values - old(balanceCache.Values))
      ensures Db() == ResidueCheck(old(Db()), first)
    {
      if HasResidue(Db(), first) {
        ReorgFix(CurrentBlock(Db(), first) - 1);
      }
    }

    /** Compares stored hashes with the chain's, newest first, ten at most. */
    method CheckForReorg(chain: seq<Block>) returns (r: F.ReorgCheck)
      ensures r == F.CheckForReorg(blocks, chain, first)
    {
      if blocks == [] {
        return F.NoReorg;
      }
      var lastBlock := blocks[|blocks| - 1];
      var lastBlockOrd := F.ChainHash(chain, first, lastBlock.height);
      if lastBlockOrd.None? {
        return F.Critical;
      }
      if lastBlockOrd.value == lastBlock.value {
        return F.NoReorg;
      }
      assert blocks[..|blocks|] == blocks;
      var i := 0;
      while i < |blocks| && i < 10
        invariant 0 <= i <= |blocks| && i <= 10
        invariant F.CheckForReorg(blocks, chain, first) == F.FindMatch(blocks[..|blocks| - i], chain, first, 10 - i)
      {
        var rest := blocks[..|blocks| - i];
        var h := rest[|rest| - 1];
        var block := F.ChainHash(chain, first, h.height);
        if block.None? {
          return F.Critical;
        }
        if block.value == h.value {
          return F.ReorgTo(h.height);
        }
        assert rest[..|rest| - 1] == blocks[..|blocks| - (i + 1)];
        i := i + 1;
      }
      return F.Critical;
    }

    /** What is left of a pass after the residue check: wait, stop, roll back, or index one block. */
    method PassOn(it: F.Iteration, ghost t: Tables, ghost check: F.ReorgCheck, ghost after: Tables, ghost done: bool)
      returns (finished: bool)
      requires Valid() && Db() == t && check == F.CheckForReorg(t.blocks, it.chain, first)
      requires Bounded(t, CurrentBlock(t, first) - 1) && PassEnds(t, it, check, after)
      requires done == PassFinishes(t, it, check)
      modifies this, balanceCache.Values
      ensures Valid() && fresh(balanceCache.Values - old(balanceCache.Values))
      ensures Db() == after && finished == done
    {
      finished := false;
      var current := CurrentBlock(Db(), first);
      if !(0 <= current - first < |it.chain|) {
        return;
      }
      var reorg := CheckForReorg(it.chain);
      match reorg {
        case Critical =>
        case ReorgTo(h) => RollsBack(h, t, after);
        case NoReorg =>
          IndexesSo(t, it, after);
          finished := IndexesNext(current, it.chain[current - first], it.stop, t, after, done);
      }
    }

    /** The two ways a pass changes the tables. */
    method RollsBack(h: int, ghost t: Tables, ghost after: Tables)
      requires Db() == t && after == Rollback(t, h)
      modifies this
      ensures Valid() && balanceCache == map[] && Db() == after
    {
      ReorgFix(h);
    }

    method IndexesNext(current: int, block: Block, stop: nat, ghost t: Tables, ghost after: Tables, ghost done: bool)
      returns (finished: bool)
      requires Valid() && Db() == t && Bounded(t, current - 1)
      requires after == StateAt(Pow20Rules(env), t, current, block, stop)
      requires done == Completes(Pow20Rules(env), t, current, block, stop)
      modifies this, balanceCache.Values
      ensures Valid() && fresh(balanceCache.Values - old(balanceCache.Values))
      ensures Db() == after && finished == done
    {
      finished := IndexBlock(current, block, stop);
    }

    /** How a pass ends, by what the reorganization check says. */
    ghost predicate PassEnds(t: Tables, it: F.Iteration, check: F.ReorgCheck, after: Tables) {
      var current := CurrentBlock(t, first);
      if !(0 <= current - first < |it.chain|) then after == t
      else
        match check
        case Critical => after == t
        case ReorgTo(h) => after == Rollback(t, h)
        case NoReorg => after == StateAt(Pow20Rules(env), t, current, it.chain[current - first], it.stop)
    }

    /** Whether a pass indexes a whole block. */
    ghost predicate PassFinishes(t: Tables, it: F.Iteration, check: F.ReorgCheck) {
      var current := CurrentBlock(t, first);
      && 0 <= current - first < |it.chain| && check == F.NoReorg
      && Completes(Pow20Rules(env), t, current, it.chain[current - first], it.stop)
    }

    lemma IndexesSo(t: Tables, it: F.Iteration, after: Tables)
      requires PassEnds(t, it, F.NoReorg, after) && 0 <= CurrentBlock(t, first) - first < |it.chain|
      ensures var current := CurrentBlock(t, first);
              var block := it.chain[current - first];
              && after == StateAt(Pow20Rules(env), t, current, block, it.stop)
              && (PassFinishes(t, it, F.NoReorg) <==> Completes(Pow20Rules(env), t, current, block, it.stop))
    {
    }

    lemma PassEndsSo(t: Tables, it: F.Iteration)
      ensures PassEnds(t, it, F.CheckForReorg(t.blocks, it.chain, first), F.Pass(Pow20Machine(env, first), t, it))
    {
      var m := Pow20Machine(env, first);
      PassByCheck(m, t, it, F.CheckForReorg(t.blocks, it.chain, first));
    }

    lemma PassFinishesSo(t: Tables, it: F.Iteration)
      ensures PassFinishes(t, it, F.CheckForReorg(t.blocks, it.chain, first)) <==>
                && F.Indexes(t, first, it.chain)
                && F.Finishes(Pow20Machine(env, first), t, CurrentBlock(t, first),
                              it.chain[CurrentBlock(t, first) - first], it.stop)
    {
    }

    /** One pass of the main loop. */
    method Iterate(it: F.Iteration)
      requires Valid()
      modifies this, balanceCache.Values
      ensures Valid() && fresh(balanceCache.Values - old(balanceCache.Values))
      ensures Db() == F.Iterate(Pow20Machine(env, first), old(Db()), it)
    {
      RepairedIsBounded(Db(), first);
      CheckIfThereIsResidueFromLastRun();
      ghost var t := Db();
      PassEndsSo(t, it);
      ghost var check := F.CheckForReorg(t.blocks, it.chain, first);
      var _ := PassOn(it, t, check, F.Pass(Pow20Machine(env, first), t, it), PassFinishes(t, it, check));
    }

    /** The main loop over any number of passes, by any number of processes one after another. */
    method MainLoop(its: seq<F.Iteration>)
      requires Valid() && Db() == EMPTY_TABLES
      modifies this, balanceCache.Values
      ensures Db() == F.RunLoop(Pow20Machine(env, first), its)
    {
      for i := 0 to |its|
        invariant Valid() && fresh(balanceCache.Values - old(balanceCache.Values))
        invariant Db() == F.RunLoop(Pow20Machine(env, first), its[..i])
      {
        Iterate(its[i]);
        assert its[..i + 1][..i] == its[..i];
        if * {
          ResetCaches(); // the process died and another one took over
        }
      }
      assert its[..|its|] == its;
    }
  }

  function MintIn(r: Row<EventRec>, h: int, tick: string): nat {
    if r.height > h && r.value.event.MintInscribe? && r.value.event.tick == tick then r.value.event.amount else 0
  }

  /** After a residue check nothing stands at or above the next height. */
  lemma RepairedIsBounded(t: Tables, first: int)
    ensures var u := ResidueCheck(t, first); Bounded(u, CurrentBlock(u, first) - 1)
  {
    ResidueCheckIsRollback(t, first);
    RollbackIsBounded(t, CurrentBlock(t, first) - 1);
    MaxHeightBounds(t.blocks, CurrentBlock(t, first) - 1);
    UpToAll(t.blocks, CurrentBlock(t, first) - 1);
  }

  /** What an event and its balance rows make of the tables and the text is what the step commits. */
  lemma Carried(env: Env, c: Cursor, height: int, s: Step, e: Event, decimals: Decimals, rows: seq<Row<BalanceRec>>,
                after: Cursor)
    requires CanApply(c.tables, s) && !s.Deploy? && decimals == c.tables.tickers[s.tick].decimals
    requires e == EventOf(c.tables, s) && rows == BalanceRowsOf(c.tables, height, s)
    requires var t := c.tables;
             after == Cursor(Tables(t.events + [Row(height, EventRec(s.inscriptionId, e))], TickersAfter(t, height, s),
                                    t.balances + rows, t.hashes, t.blocks),
                             c.text + (env.eventStr(EventRec(s.inscriptionId, e), decimals) + EVENT_SEPARATOR))
    ensures Progress(after, false) == Carry(env, c, height, Commit(s))
  {
  }

  lemma {:induction false} AbortSticks(rules: Rules, t: Tables, height: int, transfers: seq<Transfer>, i: nat)
    requires i <= |transfers| && RunTransfers(rules, t, height, transfers[..i]).aborted
    ensures RunTransfers(rules, t, height, transfers) == RunTransfers(rules, t, height, transfers[..i])
    decreases |transfers|
  {
    if i < |transfers| {
      var front := transfers[..|transfers| - 1];
      assert front[..i] == transfers[..i];
      AbortSticks(rules, t, height, front, i);
    } else {
      assert transfers[..i] == transfers;
    }
  }

  predicate DeployDecided(env: Env, t: Tables, height: int, tr: Transfer, tick: string) {
    var d := DecideDeploy(env, t, height, tr, tick); d.Commit? ==> CanApply(t, d.step)
  }

  predicate MintDecided(env: Env, t: Tables, height: int, tr: Transfer, tick: string) {
    var d := DecideMint(env, t, height, tr, tick); d.Commit? ==> CanApply(t, d.step)
  }

  predicate TransferDecided(env: Env, t: Tables, tr: Transfer, tick: string) {
    var d := DecideTransfer(env, t, tr, tick); d.Commit? ==> CanApply(t, d.step)
  }

  predicate OpDecided(env: Env, t: Tables, height: int, tr: Transfer, tick: string, op: string) {
    var d := DecideOp(env, t, height, tr, tick, op); d.Commit? ==> CanApply(t, d.step)
  }

  /** A pass, by the verdict of the reorg check. */
  lemma PassByCheck(m: F.Machine, t: Tables, it: F.Iteration, check: F.ReorgCheck)
    requires check == F.CheckForReorg(t.blocks, it.chain, m.first)
    ensures var current := CurrentBlock(t, m.first);
            F.Pass(m, t, it) ==
              if !(0 <= current - m.first < |it.chain|) then t
              else match check
                   case Critical => t
                   case ReorgTo(h) => m.rollback(t, h)
                   case NoReorg => m.stateAt(t, current, it.chain[current - m.first], it.stop)
  {
  }

  lemma AdvanceIs(env: Env, c: Cursor, height: int, tr: Transfer)
    ensures !IsRelevant(env, tr) ==> Pow20Rules(env).advance(c, height, tr) == Progress(c, false)
    ensures IsRelevant(env, tr) ==>
              var tick, op := env.lower(env.content(tr.inscriptionId)["tick"]), env.content(tr.inscriptionId)["op"];
              && OpDecided(env, c.tables, height, tr, tick, op)
              && Pow20Rules(env).advance(c, height, tr)
                 == Carry(env, c, height, DecideOp(env, c.tables, height, tr, tick, op))
  {
    DecideIsApplicable(env, c.tables, height, tr);
  }

  predicate InscribeDecided(env: Env, t: Tables, tr: Transfer, tick: string, amount: nat) {
    var d := DecideInscribe(env, t, tr, tick, amount); d.Commit? ==> CanApply(t, d.step)
  }

  predicate SpendDecided(env: Env, t: Tables, tr: Transfer, tick: string, amount: nat) {
    var d := DecideSpend(env, t, tr, tick, amount); d.Commit? ==> CanApply(t, d.step)
  }

  ghost predicate TickAgrees(info: TickInfo, ticker: Ticker, blocks: seq<Row<string>>, height: int) {
    && info.remaining == ticker.remaining && info.limitPerMint == ticker.limitPerMint
    && info.decimals == ticker.decimals
    && info.start == if ticker.height == height then None
                     else Some(StartInfo(ticker.difficulty, ticker.startingHeight,
                                         BlockHashAt(blocks, ticker.startingHeight)))
  }

}
