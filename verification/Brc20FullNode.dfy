/** The full node: validating each inscription transfer against the database, recording an event for it and
    processing it, transfer by transfer, then flushing. */
module Brc20FullNode {
  import opened Wrappers
  import opened Amounts
  import opened Text
  import opened Rows
  import opened Brc20Ledger
  import opened Brc20Sums
  import opened Brc20Invariants
  import opened Brc20Run
  import opened Brc20Database
  import opened Brc20Store
  import opened Brc20Indexer

  /** After generating: either nothing happened, or the event is recorded and awaits processing. */
  ghost predicate After(db: Store, cfg: Config, l: Ledger, g: Generated)
    reads db
  {
    if g.Emit? then db.JustRecorded(cfg, l, g.rec) else db.Valid(cfg) && db.View() == l
  }

  lemma AddedThenRemoved(m: map<string, Event>, k: string, e: Event)
    requires k !in m
    ensures m[k := e] - {k} == m
  {
  }

  lemma RecordedLast(db: Store, cfg: Config, l: Ledger, rec: Rec, cached: map<string, Event>, inserts: seq<Rec>)
    requires db.cachedEvents == cached[KeyOf(rec) := rec.event] && KeyOf(rec) !in cached
    requires db.eventInserts == inserts + [rec] && db.View().log == l.log + [rec]
    requires ValidityAgrees(cfg, db.transferValidity, l.log, cached) && InsertsJudged(cfg, inserts, db.transferValidity)
    ensures db.Outstanding(l, rec) && db.JudgedBefore(cfg, l, rec, db.transferValidity)
  {
    AddedThenRemoved(cached, KeyOf(rec), rec.event);
    assert db.eventInserts[..|db.eventInserts| - 1] == inserts;
  }

  lemma NothingRecorded(db: Store, cfg: Config, l: Ledger, cached: map<string, Event>, inserts: seq<Rec>)
    requires db.cachedEvents == cached && db.eventInserts == inserts && db.View().log == l.log
    requires ValidityAgrees(cfg, db.transferValidity, l.log, cached) && InsertsJudged(cfg, inserts, db.transferValidity)
    ensures db.ValidityOk(cfg)
  {
  }

  /** The two ways recording can end, told by what became of the cache and the pending events. */
  lemma RecordingEnds(db: Store, cfg: Config, l: Ledger, rec: Rec, ok: bool, cached: map<string, Event>,
                      inserts: seq<Rec>)
    requires db.Core() && db.View() == (if ok then l.(log := l.log + [rec]) else l) && (ok ==> KeyOf(rec) !in cached)
    requires db.cachedEvents == if ok then cached[KeyOf(rec) := rec.event] else cached
    requires db.eventInserts == if ok then inserts + [rec] else inserts
    requires ValidityAgrees(cfg, db.transferValidity, l.log, cached) && InsertsJudged(cfg, inserts, db.transferValidity)
    ensures After(db, cfg, l, if ok then Emit(rec) else Skip)
  {
    if ok {
      RecordedLast(db, cfg, l, rec, cached, inserts);
    } else {
      NothingRecorded(db, cfg, l, cached, inserts);
    }
  }

  lemma JudgedSoFar(db: Store, cfg: Config, l: Ledger)
    requires db.Valid(cfg) && db.View() == l
    ensures ValidityAgrees(cfg, db.transferValidity, l.log, db.cachedEvents)
    ensures InsertsJudged(cfg, db.eventInserts, db.transferValidity)
  {
  }

  /** Refused when the same event of the same inscription is in the cache. */
  method RecordEvent(db: Store, ghost cfg: Config, ghost l: Ledger, rec: Rec) returns (ok: bool)
    requires db.Valid(cfg) && db.View() == l
    modifies db`cachedEvents, db`eventInserts
    ensures ok <==> KeyOf(rec) !in old(db.cachedEvents)
    ensures After(db, cfg, l, if ok then Emit(rec) else Skip)
  {
    ghost var cached, inserts := db.cachedEvents, db.eventInserts;
    JudgedSoFar(db, cfg, l);
    ok := db.AddEvent(rec);
    RecordingEnds(db, cfg, l, rec, ok, cached, inserts);
  }

  /** A first event of its kind is not in the cache. */
  lemma NewIsUncached(db: Store, cfg: Config, rec: Rec)
    requires db.Valid(cfg) && !Recorded(db.View().log, KindOf(rec.event), rec.id)
    ensures KeyOf(rec) !in db.cachedEvents
  {
  }

  /** Asking for the validity keeps the state valid; the answer `Valid` may only be stale while the transfer
      event is in the cache. */
  method CheckValidity(db: Store, ghost cfg: Config, id: InscriptionId, inscribeKind: Kind, transferKind: Kind)
    returns (v: Validity)
    requires db.Valid(cfg) && SpentOnce(db.View().log)
    requires inscribeKind == InscribeKindOf(cfg, id) && transferKind == TransferKindOf(cfg, id)
    modifies db`transferValidity
    ensures db.Valid(cfg)
    ensures v == Validity.Valid ==> Recorded(db.View().log, inscribeKind, id)
    ensures v == Validity.Valid && EventKey(EventType(transferKind), id) !in db.cachedEvents ==>
              CanSpend(db.View().log, inscribeKind, transferKind, id)
    ensures v != Validity.Valid ==> !CanSpend(db.View().log, inscribeKind, transferKind, id)
  {
    EffectiveIsTruthful(cfg, db.eventTable, db.eventInserts, db.cachedEvents, db.transferValidity, id);
    v := db.GetTransferValidity(id, inscribeKind, transferKind);
  }

  /** A first event is recorded for certain. */
  method RecordNew(db: Store, ghost cfg: Config, ghost l: Ledger, rec: Rec)
    requires db.Valid(cfg) && db.View() == l && !Recorded(l.log, KindOf(rec.event), rec.id)
    modifies db`cachedEvents, db`eventInserts
    ensures After(db, cfg, l, Emit(rec))
  {
    NewIsUncached(db, cfg, rec);
    var ok := RecordEvent(db, cfg, l, rec);
  }

  method CheckCommitment(cfg: Config, height: int, tx: Tx, js: map<string, string>, original: string) returns (ok: bool)
    ensures ok <==> Committed(cfg, height, tx, js, original)
  {
    if "salt" !in js || tx.parentId.None? {
      return false;
    }
    var predeploy := cfg.predeploys(tx.parentId.value);
    if predeploy.None? || predeploy.value.height > height - PREDEPLOY_BLOCK_HEIGHT_DELAY {
      return false;
    }
    var salt := cfg.unhex(js["salt"]);
    if salt.None? {
      return false;
    }
    var pkscript := cfg.unhex(predeploy.value.pkscript);
    if pkscript.None? {
      return false;
    }
    return predeploy.value.hash == cfg.digest(cfg.utf8(original) + salt.value + pkscript.value);
  }

  /** None when the deploy is skipped, else whether minting is reserved to the deployer. */
  method ReadSelfMint(cfg: Config, height: int, tx: Tx, js: map<string, string>, original: string)
    returns (rule: Option<bool>)
    ensures rule == SelfMintRule(cfg, height, tx, js, original)
  {
    var length := Utf8Length(original);
    if length == 5 {
      if height < cfg.selfMintHeight || "self_mint" !in js || js["self_mint"] != "true" {
        return None;
      }
      return Some(true);
    } else if length == 6 {
      if height < cfg.phaseOneHeight {
        return None;
      }
      var committed := CheckCommitment(cfg, height, tx, js, original);
      if !committed {
        return None;
      }
      return Some("self_mint" in js && js["self_mint"] == "true");
    }
    return Some(false);
  }

  /** Reading and checking the fields of a deploy. */
  method ReadDeploy(cfg: Config, height: int, tx: Tx, js: map<string, string>, original: string, deployed: bool,
                    ghost l: Ledger)
    returns (g: Generated)
    requires deployed == (cfg.lower(original) in l.tickers)
    ensures g == GenerateDeploy(cfg, l, height, tx, js, original)
  {
    if deployed {
      return Skip;
    }
    var decimals := ReadDecimals(Get(js, "dec"));
    if decimals.None? {
      return Skip;
    }
    var max := GetAmountValue(Get(js, "max"), decimals.value, None, true);
    if max.Err? {
      return Skip;
    }
    var maxSupply := max.value;
    var limit := GetAmountValue(Get(js, "lim"), decimals.value, None, false);
    if limit.Err? {
      if "lim" in js {
        return Skip;
      }
      limit := Ok(maxSupply);
    }
    var limitPerMint := limit.value;
    var rule := ReadSelfMint(cfg, height, tx, js, original);
    if rule.None? {
      return Skip;
    }
    if rule.value && maxSupply == 0 {
      maxSupply := MAX_AMOUNT;
      if limitPerMint == 0 {
        limitPerMint := MAX_AMOUNT;
      }
    }
    if maxSupply == 0 {
      return Skip;
    }
    return Emit(Rec(tx.id, DeployInscribe(cfg.lower(original), original, maxSupply, limitPerMint, decimals.value,
                                          rule.value)));
  }

  method GenerateDeployInscribe(db: Store, cfg: Config, height: int, tx: Tx, js: map<string, string>, original: string,
                                ghost l: Ledger)
    returns (g: Generated)
    requires db.Valid(cfg) && db.View() == l && Fresh(l.log, tx) && tx.oldSatpoint.None?
    modifies db`cachedEvents, db`eventInserts
    ensures g == GenerateDeploy(cfg, l, height, tx, js, original) && After(db, cfg, l, g)
  {
    var found := db.GetTicker(cfg.lower(original));
    g := ReadDeploy(cfg, height, tx, js, original, found.Some?, l);
    if g.Emit? {
      FirstOfItsId(l, tx, g.rec);
      RecordNew(db, cfg, l, g.rec);
    }
  }

  lemma FirstOfItsId(l: Ledger, tx: Tx, rec: Rec)
    requires Fresh(l.log, tx) && tx.oldSatpoint.None? && rec.id == tx.id
    ensures !Recorded(l.log, KindOf(rec.event), rec.id)
  {
  }

  method GenerateMintInscribe(db: Store, cfg: Config, tx: Tx, js: map<string, string>, ticker: string, ghost l: Ledger)
    returns (g: Generated)
    requires db.Valid(cfg) && db.View() == l && Fresh(l.log, tx) && tx.oldSatpoint.None?
    modifies db`cachedEvents, db`eventInserts
    ensures g == GenerateMint(cfg, l, tx, js, ticker) && After(db, cfg, l, g)
  {
    var found := db.GetTicker(ticker);
    if found.None? {
      return Skip;
    }
    var t := found.value;
    var read := GetAmountValue(Get(js, "amt"), t.decimals, None, false);
    if read.Err? {
      return Skip;
    }
    var amount := read.value;
    if t.isSelfMint && (tx.parentId.None? || t.deployId != tx.parentId.value) {
      return Skip;
    }
    if t.remaining == 0 || amount > t.limitPerMint {
      return Skip;
    }
    if amount > t.remaining {
      amount := t.remaining;
    }
    var rec := Rec(tx.id, MintInscribe(tx.newPkscript, ticker, amount));
    FirstOfItsId(l, tx, rec);
    RecordNew(db, cfg, l, rec);
    return Emit(rec);
  }

  /** Inscribing a transfer locks part of the available balance. */
  method GenerateTransferInscribe(db: Store, cfg: Config, tx: Tx, ticker: string, amount: nat, ghost l: Ledger)
    returns (g: Generated)
    requires db.Valid(cfg) && db.View() == l && Fresh(l.log, tx) && tx.oldSatpoint.None?
    modifies db`cachedEvents, db`eventInserts, db`balanceCache
    ensures g == if BalanceOf(l.balances, ticker, tx.newPkscript).available < amount then Skip
                 else Emit(Rec(tx.id, TransferInscribe(tx.newPkscript, ticker, amount)))
    ensures After(db, cfg, l, g)
  {
    var b := db.GetBalance(ticker, tx.newPkscript);
    if b.available < amount {
      return Skip;
    }
    var rec := Rec(tx.id, TransferInscribe(tx.newPkscript, ticker, amount));
    FirstOfItsId(l, tx, rec);
    RecordNew(db, cfg, l, rec);
    return Emit(rec);
  }

  /** Recording a spending succeeds exactly when the inscription was inscribed and not spent, even if its
      cached validity is stale: then the event cache refuses the second event. */
  method RecordSpending(db: Store, ghost cfg: Config, ghost l: Ledger, rec: Rec, v: Validity) returns (ok: bool)
    requires db.Valid(cfg) && db.View() == l && KindOf(rec.event) == TransferKindOf(cfg, rec.id)
    requires v == Validity.Valid && EventKey(EventType(TransferKindOf(cfg, rec.id)), rec.id) !in db.cachedEvents ==>
               Spendable(cfg, l.log, rec.id)
    requires v != Validity.Valid ==> !Spendable(cfg, l.log, rec.id)
    modifies db`cachedEvents, db`eventInserts
    ensures ok <==> Spendable(cfg, l.log, rec.id)
    ensures ok <==> MayRecord(v, old(db.cachedEvents), rec)
    ensures After(db, cfg, l, if ok then Emit(rec) else Skip)
  {
    if v != Validity.Valid {
      return false;
    }
    if !Recorded(l.log, TransferKindOf(cfg, rec.id), rec.id) {
      NewIsUncached(db, cfg, rec);
    }
    ok := RecordEvent(db, cfg, l, rec);
  }

  method GenerateTransferTransfer(db: Store, cfg: Config, tx: Tx, ticker: string, original: string, amount: nat,
                                  ghost l: Ledger)
    returns (g: Generated)
    requires db.Valid(cfg) && db.View() == l && SpentOnce(l.log)
    requires InscribeKindOf(cfg, tx.id) == InscribeKind && TransferKindOf(cfg, tx.id) == TransferKind
    modifies db`cachedEvents, db`eventInserts, db`transferValidity
    ensures g == if !CanSpend(l.log, InscribeKind, TransferKind, tx.id) then Skip
                 else
                   var source := Find(l.log, InscribeKind, tx.id).value.sourcePkscript;
                   Emit(Rec(tx.id, TransferTransfer(source, SpentTo(tx), ticker, original, amount)))
    ensures After(db, cfg, l, g)
  {
    var e := db.GetEventWithType(InscribeKind, tx.id);
    if e.None? {
      return Skip;
    }
    var v := CheckValidity(db, cfg, tx.id, InscribeKind, TransferKind);
    var rec := Rec(tx.id, TransferTransfer(e.value.sourcePkscript, SpentTo(tx), ticker, original, amount));
    var ok := RecordSpending(db, cfg, l, rec, v);
    return if ok then Emit(rec) else Skip;
  }

  method GenerateTransferEvent(db: Store, cfg: Config, tx: Tx, js: map<string, string>, original: string,
                               ghost l: Ledger) returns (g: Generated)
    requires db.Valid(cfg) && db.View() == l && Fresh(l.log, tx) && SpentOnce(l.log)
    requires InscribeKindOf(cfg, tx.id) == InscribeKind && TransferKindOf(cfg, tx.id) == TransferKind
    modifies db`cachedEvents, db`eventInserts, db`transferValidity, db`balanceCache
    ensures g == GenerateTransfer(cfg, l, tx, js, original) && After(db, cfg, l, g)
  {
    var ticker := cfg.lower(original);
    var found := db.GetTicker(ticker);
    if found.None? {
      return Skip;
    }
    var read := GetAmountValue(Get(js, "amt"), found.value.decimals, None, false);
    if read.Err? {
      return Skip;
    }
    if tx.oldSatpoint.Some? {
      g := GenerateTransferTransfer(db, cfg, tx, ticker, original, read.value, l);
    } else {
      g := GenerateTransferInscribe(db, cfg, tx, ticker, read.value, l);
    }
  }

  /** A withdrawal that cannot be recorded as spent ends the block. */
  method SpendOrAbort(db: Store, ghost cfg: Config, ghost l: Ledger, rec: Rec, v: Validity) returns (g: Generated)
    requires db.Valid(cfg) && db.View() == l && KindOf(rec.event) == TransferKindOf(cfg, rec.id)
    requires v == Validity.Valid && EventKey(EventType(TransferKindOf(cfg, rec.id)), rec.id) !in db.cachedEvents ==>
               Spendable(cfg, l.log, rec.id)
    requires v != Validity.Valid ==> !Spendable(cfg, l.log, rec.id)
    modifies db`cachedEvents, db`eventInserts
    ensures g == if Spendable(cfg, l.log, rec.id) then Emit(rec) else Abort
    ensures After(db, cfg, l, g)
  {
    var ok := RecordSpending(db, cfg, l, rec, v);
    return if ok then Emit(rec) else Abort;
  }

  method GenerateWithdrawTransfer(db: Store, cfg: Config, tx: Tx, ticker: string, amount: nat, ghost l: Ledger)
    returns (g: Generated)
    requires db.Valid(cfg) && db.View() == l && SpentOnce(l.log)
    requires InscribeKindOf(cfg, tx.id) == WithdrawInscribeKind && TransferKindOf(cfg, tx.id) == WithdrawTransferKind
    modifies db`cachedEvents, db`eventInserts, db`transferValidity
    ensures g == if !CanSpend(l.log, WithdrawInscribeKind, WithdrawTransferKind, tx.id) then Abort
                 else
                   var source := Find(l.log, WithdrawInscribeKind, tx.id).value.sourcePkscript;
                   Emit(Rec(tx.id, WithdrawTransfer(source, SpentTo(tx), ticker, amount)))
    ensures After(db, cfg, l, g)
  {
    var v := CheckValidity(db, cfg, tx.id, WithdrawInscribeKind, WithdrawTransferKind);
    assert db.View() == l;
    var e := db.GetEventWithType(WithdrawInscribeKind, tx.id);
    if e.None? {
      return Abort;
    }
    g := SpendOrAbort(db, cfg, l, Rec(tx.id, WithdrawTransfer(e.value.sourcePkscript, SpentTo(tx), ticker, amount)), v);
  }

  method GenerateWithdrawOf(db: Store, cfg: Config, tx: Tx, ticker: string, amount: nat, ghost l: Ledger)
    returns (g: Generated)
    requires db.Valid(cfg) && db.View() == l && Fresh(l.log, tx) && SpentOnce(l.log)
    requires InscribeKindOf(cfg, tx.id) == WithdrawInscribeKind && TransferKindOf(cfg, tx.id) == WithdrawTransferKind
    modifies db`cachedEvents, db`eventInserts, db`transferValidity
    ensures g == WithdrawOf(l, tx, ticker, amount) && After(db, cfg, l, g)
  {
    if tx.oldSatpoint.Some? {
      g := GenerateWithdrawTransfer(db, cfg, tx, ticker, amount, l);
      return g;
    }
    var rec := Rec(tx.id, WithdrawInscribe(tx.newPkscript, ticker, amount));
    FirstOfItsId(l, tx, rec);
    RecordNew(db, cfg, l, rec);
    return Emit(rec);
  }

  method GenerateWithdrawEvent(db: Store, cfg: Config, tx: Tx, js: map<string, string>, original: string,
                               ghost l: Ledger) returns (g: Generated)
    requires db.Valid(cfg) && db.View() == l && Fresh(l.log, tx) && SpentOnce(l.log)
    requires InscribeKindOf(cfg, tx.id) == WithdrawInscribeKind && TransferKindOf(cfg, tx.id) == WithdrawTransferKind
    modifies db`cachedEvents, db`eventInserts, db`transferValidity
    ensures g == GenerateWithdraw(cfg, l, tx, js, original) && After(db, cfg, l, g)
  {
    var ticker := cfg.lower(original);
    var found := db.GetTicker(ticker);
    if found.None? {
      return Skip;
    }
    if !Has(js, "module", "BRC20PROG") || !cfg.progEnabled || !Has(js, "op", "withdraw") {
      return Skip;
    }
    var read := GetAmountValue(Get(js, "amt"), found.value.decimals, None, false);
    if read.Err? {
      return Skip;
    }
    g := GenerateWithdrawOf(db, cfg, tx, ticker, read.value, l);
  }

  /** The checks every transfer goes through. */
  method GenerateEvent(db: Store, cfg: Config, height: int, tx: Tx, ghost l: Ledger) returns (g: Generated)
    requires db.Valid(cfg) && db.View() == l && Fresh(l.log, tx) && SpentOnce(l.log)
    modifies db`cachedEvents, db`eventInserts, db`transferValidity, db`balanceCache
    ensures g == Generate(cfg, l, height, tx) && After(db, cfg, l, g)
  {
    var js := cfg.content(tx.id);
    if tx.sentAsFee && (tx.oldSatpoint.None? || tx.oldSatpoint.value == "") {
      return Skip;
    }
    if !(Has(js, "p", "brc-20") || Has(js, "p", "brc20-module")) || "op" !in js {
      return Skip;
    }
    var op := js["op"];
    if op == "predeploy" && tx.oldSatpoint.None? {
      return Skip;
    }
    if "tick" !in js {
      return Skip;
    }
    var original := js["tick"];
    if '\0' in original || '\0' in cfg.lower(original) || !TickerLengthFits(cfg, height, original) {
      return Skip;
    }
    if Has(js, "p", "brc20-module") {
      g := GenerateWithdrawEvent(db, cfg, tx, js, original, l);
    } else if op == "deploy" && tx.oldSatpoint.None? {
      g := GenerateDeployInscribe(db, cfg, height, tx, js, original, l);
    } else if op == "mint" && tx.oldSatpoint.None? {
      g := GenerateMintInscribe(db, cfg, tx, js, cfg.lower(original), l);
    } else if op == "transfer" {
      g := GenerateTransferEvent(db, cfg, tx, js, original, l);
    } else {
      return Skip;
    }
  }

  /** What is generated is of the kinds the content allows. */
  lemma GeneratedKindFits(cfg: Config, l: Ledger, height: int, tx: Tx)
    requires Generate(cfg, l, height, tx).Emit?
    ensures KindFits(cfg, Generate(cfg, l, height, tx).rec) && Generate(cfg, l, height, tx).rec.id == tx.id
  {
  }

  /** One transfer: generating and processing interleaved. */
  method IndexTransfer(db: Store, cfg: Config, step: Step, ghost l: Ledger) returns (ok: bool)
    requires db.Valid(cfg) && db.RowsUpTo(step.height) && db.View() == l && Inv(cfg, l) && StepOk(cfg, l, step)
    modifies db`cachedEvents, db`eventInserts, db`transferValidity, db`balanceCache, db`balanceUpdates,
             db`tickers, db`newTickers, db`tickerUpdates
    ensures Exec(cfg, step.height, l, step.tx, step.granted) == if ok then Ok(db.View()) else Err
    ensures ok ==> db.Valid(cfg) && db.RowsUpTo(step.height)
  {
    var g := GenerateEvent(db, cfg, step.height, step.tx, l);
    match g {
      case Skip => return true;
      case Abort => return false;
      case Emit(rec) =>
        GenerateGenerates(cfg, l, step.height, step.tx);
        GeneratedKindFits(cfg, l, step.height, step.tx);
        ok := ProcessRecorded(db, cfg, step.height, l, rec, step.granted);
    }
  }

  lemma {:induction false} FailedRun(cfg: Config, start: Ledger, steps: seq<Step>, n: nat)
    requires n <= |steps| && Run(cfg, start, steps[..n]).Err?
    ensures Run(cfg, start, steps).Err?
  {
    if n < |steps| {
      assert steps[..|steps| - 1][..n] == steps[..n];
      FailedRun(cfg, start, steps[..|steps| - 1], n);
    } else {
      assert steps[..n] == steps;
    }
  }

  lemma PrefixRun(cfg: Config, start: Ledger, steps: seq<Step>, n: nat)
    requires ValidRun(cfg, start, steps) && n <= |steps|
    ensures ValidRun(cfg, start, steps[..n])
  {
    var front := steps[..n];
    forall i | 0 <= i < |front| && Run(cfg, start, front[..i]).Ok?
      ensures StepOk(cfg, Run(cfg, start, front[..i]).value, front[i]) {
      assert front[..i] == steps[..i];
    }
  }

  lemma RunPush(cfg: Config, start: Ledger, steps: seq<Step>, i: nat)
    requires i < |steps| && Run(cfg, start, steps[..i]).Ok?
    ensures Run(cfg, start, steps[..i + 1])
              == Exec(cfg, steps[i].height, Run(cfg, start, steps[..i]).value, steps[i].tx, steps[i].granted)
  {
    assert steps[..i + 1][..i] == steps[..i];
  }

  /** One turn of the loop over transfers. */
  method IndexNext(db: Store, cfg: Config, height: int, steps: seq<Step>, i: nat, ghost start: Ledger)
    returns (ok: bool)
    requires db.Valid(cfg) && db.RowsUpTo(height) && Inv(cfg, start) && ValidRun(cfg, start, steps)
    requires i < |steps| && steps[i].height == height && Run(cfg, start, steps[..i]) == Ok(db.View())
    requires Inv(cfg, db.View())
    modifies db`cachedEvents, db`eventInserts, db`transferValidity, db`balanceCache, db`balanceUpdates,
             db`tickers, db`newTickers, db`tickerUpdates
    ensures Run(cfg, start, steps[..i + 1]) == if ok then Ok(db.View()) else Err
    ensures ok ==> db.Valid(cfg) && db.RowsUpTo(height) && Inv(cfg, db.View())
  {
    assert StepOk(cfg, db.View(), steps[i]);
    RunPush(cfg, start, steps, i);
    ok := IndexTransfer(db, cfg, steps[i], db.View());
    if ok {
      PrefixRun(cfg, start, steps, i + 1);
      RunsKeep(cfg, start, steps[..i + 1]);
    }
  }

  /** A block's transfers in order. */
  method IndexAll(db: Store, cfg: Config, height: int, steps: seq<Step>) returns (ok: bool)
    requires db.Valid(cfg) && db.RowsUpTo(height) && Inv(cfg, db.View())
    requires ValidRun(cfg, db.View(), steps) && forall i :: 0 <= i < |steps| ==> steps[i].height == height
    modifies db`cachedEvents, db`eventInserts, db`transferValidity, db`balanceCache, db`balanceUpdates,
             db`tickers, db`newTickers, db`tickerUpdates
    ensures Run(cfg, old(db.View()), steps) == if ok then Ok(db.View()) else Err
    ensures ok ==> db.Valid(cfg) && db.RowsUpTo(height) && Inv(cfg, db.View())
  {
    ghost var start := db.View();
    for i := 0 to |steps|
      invariant db.Valid(cfg) && db.RowsUpTo(height) && Inv(cfg, db.View())
      invariant Run(cfg, start, steps[..i]) == Ok(db.View())
    {
      var done := IndexNext(db, cfg, height, steps, i, start);
      if !done {
        FailedRun(cfg, start, steps, i + 1);
        return false;
      }
    }
    assert steps[..|steps|] == steps;
    return true;
  }

  /** The flush at the end of a block. */
  method FlushBlock(db: Store, ghost cfg: Config, ghost height: int, ghost l: Ledger)
    requires db.Valid(cfg) && db.RowsUpTo(height) && db.View() == l
    modifies db`tickerTable, db`eventTable, db`balanceTable,
             db`newTickers, db`tickerUpdates, db`eventInserts, db`balanceUpdates
    ensures db.Valid(cfg) && db.RowsUpTo(height) && db.View() == l
    ensures db.NothingPending() && db.tickerTable == l.tickers
    ensures ExtendedSince(old(db.balanceTable), db.balanceTable, db.pendingSince)
  {
    db.FlushQueriesToDb(cfg, height);
  }

  /** A block's transfers in order, then one flush. */
  method IndexAndFlush(db: Store, cfg: Config, height: int, steps: seq<Step>) returns (ok: bool)
    requires db.Valid(cfg) && db.RowsUpTo(height) && Inv(cfg, db.View())
    requires ValidRun(cfg, db.View(), steps) && forall i :: 0 <= i < |steps| ==> steps[i].height == height
    modifies db
    ensures Run(cfg, old(db.View()), steps) == if ok then Ok(db.View()) else Err
    ensures ok ==> db.Valid(cfg) && db.RowsUpTo(height) && Inv(cfg, db.View())
    ensures ok ==> db.NothingPending() && db.tickerTable == db.View().tickers
    ensures ok ==> ExtendedSince(old(db.balanceTable), db.balanceTable, old(db.pendingSince))
  {
    ok := IndexAll(db, cfg, height, steps);
    if ok {
      FlushBlock(db, cfg, height, db.View());
    }
  }

  /** A block's transfers in order, then one flush; a block without transfers writes nothing. */
  method IndexBlock(db: Store, cfg: Config, height: int, steps: seq<Step>) returns (ok: bool)
    requires db.Valid(cfg) && db.RowsUpTo(height) && Inv(cfg, db.View())
    requires ValidRun(cfg, db.View(), steps) && forall i :: 0 <= i < |steps| ==> steps[i].height == height
    modifies db
    ensures Run(cfg, old(db.View()), steps) == if ok then Ok(db.View()) else Err
    ensures ok ==> db.Valid(cfg) && db.RowsUpTo(height) && Inv(cfg, db.View())
    ensures ok && steps != [] ==> db.NothingPending() && db.tickerTable == db.View().tickers
    ensures ok && old(db.NothingPending()) ==> db.NothingPending()
    ensures ok && old(db.balanceUpdates) == [] ==> ExtendedSince(old(db.balanceTable), db.balanceTable, height)
  {
    if |steps| == 0 {
      return true;
    }
    if db.balanceUpdates == [] {
      db.pendingSince := height;
    }
    ok := IndexAndFlush(db, cfg, height, steps);
  }

}
