/** The light node: recording and processing the events a full node published. */
module Brc20LightNode {
  import opened Wrappers
  import opened Rows
  import opened Brc20Ledger
  import opened Brc20Invariants
  import opened Brc20Run
  import opened Brc20Database
  import opened Brc20Store
  import opened Brc20Indexer
  import opened Brc20FullNode

  const NOTHING_CACHED: nat -> nat := n => 0

  /** A record as a full node publishes it on top of ledger `l`. */
  ghost predicate Publishable(cfg: Config, l: Ledger, r: Published) {
    && WellGenerated(cfg, l, r.rec) && KindFits(cfg, r.rec) && OracleSound(l, r.rec.event, r.granted)
    && !Recorded(l.log, KindOf(r.rec.event), r.rec.id)
  }

  ghost predicate ValidReplay(cfg: Config, start: Ledger, records: seq<Published>) {
    forall i :: 0 <= i < |records| && Replay(cfg, NOTHING_CACHED, start, records[..i]).Ok? ==>
      Publishable(cfg, Replay(cfg, NOTHING_CACHED, start, records[..i]).value, records[i])
  }

  lemma PublishablePush(cfg: Config, start: Ledger, records: seq<Published>, r: Published)
    requires ValidReplay(cfg, start, records)
    requires Replay(cfg, NOTHING_CACHED, start, records).Ok? ==>
               Publishable(cfg, Replay(cfg, NOTHING_CACHED, start, records).value, r)
    ensures ValidReplay(cfg, start, records + [r])
  {
    var all := records + [r];
    forall i | 0 <= i < |all| && Replay(cfg, NOTHING_CACHED, start, all[..i]).Ok?
      ensures Publishable(cfg, Replay(cfg, NOTHING_CACHED, start, all[..i]).value, all[i]) {
      assert all[..i] == if i == |records| then records else records[..i];
    }
  }

  /** What a full node publishes over a valid run, light nodes can replay. */
  lemma {:induction false} PublishedReplays(cfg: Config, start: Ledger, steps: seq<Step>)
    requires Inv(cfg, start) && ValidRun(cfg, start, steps) && Run(cfg, start, steps).Ok?
    ensures ValidReplay(cfg, start, Publications(cfg, start, steps))
  {
    if steps != [] {
      var front, last := steps[..|steps| - 1], steps[|steps| - 1];
      ShorterRun(cfg, start, steps);
      PublishedReplays(cfg, start, front);
      RunsKeep(cfg, start, front);
      ReplayAgrees(cfg, NOTHING_CACHED, start, front);
      var l := Run(cfg, start, front).value;
      assert StepOk(cfg, l, last);
      if Generate(cfg, l, last.height, last.tx).Emit? {
        GenerateGenerates(cfg, l, last.height, last.tx);
        GeneratedIsNew(cfg, l, last.height, last.tx);
        GeneratedKindFits(cfg, l, last.height, last.tx);
        PublishablePush(cfg, start, Publications(cfg, start, front),
                        Published(last.height, Generate(cfg, l, last.height, last.tx).rec, last.granted));
      }
    }
  }

  lemma PublishableKeeps(cfg: Config, l: Ledger, r: Published)
    requires Inv(cfg, l) && Publishable(cfg, l, r)
    ensures LightStep(cfg, l, 0, r) == Process(cfg, r.height, l, r.rec, r.granted)
    ensures LightStep(cfg, l, 0, r).Ok? ==> Inv(cfg, LightStep(cfg, l, 0, r).value)
  {
    LightStepAgrees(cfg, l, 0, r);
    ProcessKeeps(cfg, r.height, l, r.rec, r.granted);
  }

  /** A transfer into the module, which the module of the light node may refuse. */
  predicate IsDeposit(cfg: Config, r: Published) {
    r.rec.event.TransferTransfer? && DestinationOf(cfg, r.height, r.rec.event) == ToModule
  }

  /** An unknown ticker or a repeated event ends the block, and so does a refused deposit; else the event is recorded
      and processed. */
  method ProcessEvent(db: Store, cfg: Config, r: Published, accepted: bool, ghost l: Ledger) returns (ok: bool)
    requires db.Valid(cfg) && db.RowsUpTo(r.height) && db.View() == l && Inv(cfg, l) && Publishable(cfg, l, r)
    modifies db`cachedEvents, db`eventInserts, db`transferValidity, db`balanceCache, db`balanceUpdates,
             db`tickers, db`newTickers, db`tickerUpdates
    ensures ok <==> LightStep(cfg, l, 0, r).Ok? && (IsDeposit(cfg, r) ==> accepted)
    ensures ok ==> LightStep(cfg, l, 0, r) == Ok(db.View()) && db.Valid(cfg) && db.RowsUpTo(r.height)
  {
    PublishableKeeps(cfg, l, r);
    if !r.rec.event.DeployInscribe? {
      var ticker := db.GetTicker(r.rec.event.ticker);
      if ticker.None? {
        return false;
      }
    }
    NewIsUncached(db, cfg, r.rec);
    ok := RecordEvent(db, cfg, l, r.rec);
    if !ok {
      return false;
    }
    if r.rec.event.TransferTransfer? {
      GrantMatters(cfg, r.height, l, r.rec, r.granted);
      GrantMatters(cfg, r.height, l, r.rec, accepted);
    }
    ok := ProcessRecorded(db, cfg, r.height, l, r.rec, if r.rec.event.TransferTransfer? then accepted else r.granted);
    if IsDeposit(cfg, r) && !accepted {
      return false;
    }
  }

  /** The module takes all deposits among the first n events. */
  predicate TakenUpTo(cfg: Config, records: seq<Published>, answers: nat -> bool, n: nat)
    requires n <= |records|
  {
    forall i :: 0 <= i < n && IsDeposit(cfg, records[i]) ==> answers(i)
  }

  predicate AllTaken(cfg: Config, records: seq<Published>, answers: nat -> bool) {
    TakenUpTo(cfg, records, answers, |records|)
  }

  lemma TakenNext(cfg: Config, records: seq<Published>, answers: nat -> bool, n: nat)
    requires n < |records|
    ensures TakenUpTo(cfg, records, answers, n + 1) <==>
              TakenUpTo(cfg, records, answers, n) && (IsDeposit(cfg, records[n]) ==> answers(n))
    ensures !TakenUpTo(cfg, records, answers, n + 1) ==> !AllTaken(cfg, records, answers)
  {
  }

  /** An attempt at a block in which the module takes every deposit. */
  const ALL_TAKEN: nat -> bool := n => true

  lemma ReplayNext(cfg: Config, start: Ledger, records: seq<Published>, i: nat)
    requires i < |records| && Replay(cfg, NOTHING_CACHED, start, records[..i]).Ok?
    ensures Replay(cfg, NOTHING_CACHED, start, records[..i + 1])
              == LightStep(cfg, Replay(cfg, NOTHING_CACHED, start, records[..i]).value, 0, records[i])
  {
    assert records[..i + 1][..i] == records[..i];
  }

  lemma {:induction false} FailedReplay(cfg: Config, start: Ledger, records: seq<Published>, n: nat)
    requires n <= |records| && Replay(cfg, NOTHING_CACHED, start, records[..n]).Err?
    ensures Replay(cfg, NOTHING_CACHED, start, records).Err?
  {
    if n < |records| {
      assert records[..|records| - 1][..n] == records[..n];
      FailedReplay(cfg, start, records[..|records| - 1], n);
    } else {
      assert records[..n] == records;
    }
  }

  /** One turn of the loop over events. */
  method ProcessNext(db: Store, cfg: Config, height: int, records: seq<Published>, answers: nat -> bool, i: nat,
                     ghost start: Ledger)
    returns (ok: bool)
    requires db.Valid(cfg) && db.RowsUpTo(height) && Inv(cfg, db.View()) && ValidReplay(cfg, start, records)
    requires i < |records| && records[i].height == height
    requires Replay(cfg, NOTHING_CACHED, start, records[..i]) == Ok(db.View())
    modifies db`cachedEvents, db`eventInserts, db`transferValidity, db`balanceCache, db`balanceUpdates,
             db`tickers, db`newTickers, db`tickerUpdates
    ensures ok <==> Replay(cfg, NOTHING_CACHED, start, records[..i + 1]).Ok? && (IsDeposit(cfg, records[i]) ==> answers(i))
    ensures ok ==> Replay(cfg, NOTHING_CACHED, start, records[..i + 1]) == Ok(db.View())
    ensures ok ==> db.Valid(cfg) && db.RowsUpTo(height) && Inv(cfg, db.View())
  {
    assert Publishable(cfg, db.View(), records[i]);
    ReplayNext(cfg, start, records, i);
    PublishableKeeps(cfg, db.View(), records[i]);
    ok := ProcessEvent(db, cfg, records[i], answers(i), db.View());
  }

  /** The events of a block in order. */
  method ProcessAll(db: Store, cfg: Config, height: int, records: seq<Published>, answers: nat -> bool)
    returns (ok: bool)
    requires db.Valid(cfg) && db.RowsUpTo(height) && Inv(cfg, db.View())
    requires ValidReplay(cfg, db.View(), records) && forall i :: 0 <= i < |records| ==> records[i].height == height
    modifies db`cachedEvents, db`eventInserts, db`transferValidity, db`balanceCache, db`balanceUpdates,
             db`tickers, db`newTickers, db`tickerUpdates
    ensures ok <==> Replay(cfg, NOTHING_CACHED, old(db.View()), records).Ok? && AllTaken(cfg, records, answers)
    ensures ok ==> Replay(cfg, NOTHING_CACHED, old(db.View()), records) == Ok(db.View())
    ensures ok ==> db.Valid(cfg) && db.RowsUpTo(height) && Inv(cfg, db.View())
  {
    ghost var start := db.View();
    for i := 0 to |records|
      invariant db.Valid(cfg) && db.RowsUpTo(height) && Inv(cfg, db.View())
      invariant Replay(cfg, NOTHING_CACHED, start, records[..i]) == Ok(db.View())
      invariant TakenUpTo(cfg, records, answers, i)
    {
      TakenNext(cfg, records, answers, i);
      var done := ProcessNext(db, cfg, height, records, answers, i, start);
      if !done {
        if Replay(cfg, NOTHING_CACHED, start, records[..i + 1]).Err? {
          FailedReplay(cfg, start, records, i + 1);
        }
        return false;
      }
    }
    assert records[..|records|] == records;
    return true;
  }

  /** The events of a block in order, then one flush. */
  method ProcessAndFlush(db: Store, cfg: Config, height: int, records: seq<Published>, answers: nat -> bool)
    returns (ok: bool)
    requires db.Valid(cfg) && db.RowsUpTo(height) && Inv(cfg, db.View())
    requires ValidReplay(cfg, db.View(), records) && forall i :: 0 <= i < |records| ==> records[i].height == height
    modifies db
    ensures ok <==> Replay(cfg, NOTHING_CACHED, old(db.View()), records).Ok? && AllTaken(cfg, records, answers)
    ensures ok ==> Replay(cfg, NOTHING_CACHED, old(db.View()), records) == Ok(db.View())
    ensures ok ==> db.Valid(cfg) && db.RowsUpTo(height) && Inv(cfg, db.View())
    ensures ok ==> db.NothingPending() && db.tickerTable == db.View().tickers
    ensures ok ==> ExtendedSince(old(db.balanceTable), db.balanceTable, old(db.pendingSince))
  {
    ok := ProcessAll(db, cfg, height, records, answers);
    if ok {
      FlushBlock(db, cfg, height, db.View());
    }
  }

  /** The same, but a block without events writes nothing. */
  method ProcessEvents(db: Store, cfg: Config, height: int, records: seq<Published>, answers: nat -> bool)
    returns (ok: bool)
    requires db.Valid(cfg) && db.RowsUpTo(height) && Inv(cfg, db.View())
    requires ValidReplay(cfg, db.View(), records) && forall i :: 0 <= i < |records| ==> records[i].height == height
    modifies db
    ensures ok <==> Replay(cfg, NOTHING_CACHED, old(db.View()), records).Ok? && AllTaken(cfg, records, answers)
    ensures ok ==> Replay(cfg, NOTHING_CACHED, old(db.View()), records) == Ok(db.View())
    ensures ok ==> db.Valid(cfg) && db.RowsUpTo(height) && Inv(cfg, db.View())
    ensures ok && records != [] ==> db.NothingPending() && db.tickerTable == db.View().tickers
    ensures ok && old(db.NothingPending()) ==> db.NothingPending()
    ensures ok && old(db.balanceUpdates) == [] ==> ExtendedSince(old(db.balanceTable), db.balanceTable, height)
  {
    if |records| == 0 {
      return true;
    }
    if db.balanceUpdates == [] {
      db.pendingSince := height;
    }
    ok := ProcessAndFlush(db, cfg, height, records, answers);
  }

  /** A light node that starts where the full node started and is given what it published ends a block with
      the full node's tickers, balances and events, exactly if its module takes all deposits. */
  method FollowFullNode(full: Store, light: Store, cfg: Config, height: int, steps: seq<Step>, answers: nat -> bool)
    returns (ok: bool, followed: bool)
    requires full != light && full.Valid(cfg) && light.Valid(cfg) && full.RowsUpTo(height) && light.RowsUpTo(height)
    requires full.View() == light.View() && Inv(cfg, full.View())
    requires ValidRun(cfg, full.View(), steps) && forall i :: 0 <= i < |steps| ==> steps[i].height == height
    modifies full, light
    ensures Run(cfg, old(full.View()), steps) == if ok then Ok(full.View()) else Err
    ensures ok ==> full.Valid(cfg) && full.RowsUpTo(height) && Inv(cfg, full.View())
    ensures followed <==> ok && AllTaken(cfg, Publications(cfg, old(full.View()), steps), answers)
    ensures followed ==> full.View() == light.View() && light.Valid(cfg) && light.RowsUpTo(height)
    ensures ok && old(full.NothingPending()) ==> full.NothingPending()
    ensures followed && old(light.NothingPending()) ==> light.NothingPending()
  {
    ghost var start := full.View();
    followed := false;
    var records := Publications(cfg, Ledger(full.tickers, BalanceMap(full.balanceTable + full.balanceUpdates),
                                            full.eventTable + full.eventInserts), steps);
    ok := IndexBlock(full, cfg, height, steps);
    if ok {
      PublishedReplays(cfg, start, steps);
      ReplayAgrees(cfg, NOTHING_CACHED, start, steps);
      PublishedHeights(cfg, start, steps, height);
      followed := ProcessEvents(light, cfg, height, records, answers);
    }
  }

  lemma {:induction false} PublishedHeights(cfg: Config, start: Ledger, steps: seq<Step>, height: int)
    requires forall i :: 0 <= i < |steps| ==> steps[i].height == height
    ensures forall i ::
              0 <= i < |Publications(cfg, start, steps)| ==> Publications(cfg, start, steps)[i].height == height
  {
    if steps != [] {
      PublishedHeights(cfg, start, steps[..|steps| - 1], height);
    }
  }

}
