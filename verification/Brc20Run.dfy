/** Runs of the BRC-20 indexer: whatever inscriptions arrive, the ledger's invariant holds, the only errors are
    refused withdrawals, and a light node that replays the recorded events reaches the same ledger. */
module Brc20Run {
  import opened Wrappers
  import opened Amounts
  import opened Brc20Ledger
  import opened Brc20Sums
  import opened Brc20Invariants

  /** An inscription is created once: a transfer without an old satpoint is the first of its id. */
  ghost predicate Fresh(log: seq<Rec>, tx: Tx) {
    tx.oldSatpoint.None? ==> forall kind :: !Recorded(log, kind, tx.id)
  }

  /** What processing needs of an event. */
  predicate Fits(l: Ledger, rec: Rec) {
    var e := rec.event;
    && FitsAfter(l.log, rec)
    && (e.DeployInscribe? <==> e.ticker !in l.tickers)
    && match KindOf(e)
       case DeployKind => 0 < e.maxSupply <= MAX_AMOUNT
       case MintKind => e.amount <= l.tickers[e.ticker].remaining
       case InscribeKind => CanTake(l.balances, e.ticker, e.sourcePkscript, 0, e.amount)
       case TransferKind => Spends(l.log, rec)
       case _ => e.amount <= MAX_AMOUNT
  }

  /** What a generated event meets. */
  predicate WellGenerated(cfg: Config, l: Ledger, rec: Rec) {
    Fits(l, rec) && Rereads(cfg, l.tickers, l.log, rec)
  }

  lemma DeployGenerated(cfg: Config, l: Ledger, height: int, tx: Tx, js: map<string, string>, original: string)
    requires Fresh(l.log, tx) && tx.oldSatpoint.None? && GenerateDeploy(cfg, l, height, tx, js, original).Emit?
    ensures WellGenerated(cfg, l, GenerateDeploy(cfg, l, height, tx, js, original).rec)
  {
  }

  lemma MintGenerated(cfg: Config, l: Ledger, tx: Tx, js: map<string, string>, ticker: string)
    requires Fresh(l.log, tx) && tx.oldSatpoint.None? && GenerateMint(cfg, l, tx, js, ticker).Emit?
    ensures WellGenerated(cfg, l, GenerateMint(cfg, l, tx, js, ticker).rec)
  {
  }

  /** The amount re-read when an inscription is spent is the amount that was locked. */
  lemma TransferGenerated(cfg: Config, l: Ledger, tx: Tx)
    requires Inv(cfg, l) && Fresh(l.log, tx) && "tick" in cfg.content(tx.id)
    requires GenerateTransfer(cfg, l, tx, cfg.content(tx.id), cfg.content(tx.id)["tick"]).Emit?
    ensures WellGenerated(cfg, l, GenerateTransfer(cfg, l, tx, cfg.content(tx.id), cfg.content(tx.id)["tick"]).rec)
  {
    if tx.oldSatpoint.Some? {
      FindIsThere(l.log, InscribeKind, tx.id);
      assert Rereads(cfg, l.tickers, l.log, Rec(tx.id, Find(l.log, InscribeKind, tx.id).value));
    } else {
      assert !Recorded(l.log, InscribeKind, tx.id) && !Recorded(l.log, TransferKind, tx.id);
    }
  }

  lemma WithdrawGenerated(cfg: Config, l: Ledger, tx: Tx, js: map<string, string>, original: string)
    requires Fresh(l.log, tx) && GenerateWithdraw(cfg, l, tx, js, original).Emit?
    ensures WellGenerated(cfg, l, GenerateWithdraw(cfg, l, tx, js, original).rec)
  {
    if tx.oldSatpoint.None? {
      assert !Recorded(l.log, WithdrawInscribeKind, tx.id) && !Recorded(l.log, WithdrawTransferKind, tx.id);
    }
  }

  lemma GenerateGenerates(cfg: Config, l: Ledger, height: int, tx: Tx)
    requires Inv(cfg, l) && Fresh(l.log, tx) && Generate(cfg, l, height, tx).Emit?
    ensures WellGenerated(cfg, l, Generate(cfg, l, height, tx).rec)
  {
    var js := cfg.content(tx.id);
    var original := js["tick"];
    if Has(js, "p", "brc20-module") {
      WithdrawGenerated(cfg, l, tx, js, original);
    } else if js["op"] == "deploy" && tx.oldSatpoint.None? {
      DeployGenerated(cfg, l, height, tx, js, original);
    } else if js["op"] == "mint" && tx.oldSatpoint.None? {
      MintGenerated(cfg, l, tx, js, cfg.lower(original));
    } else {
      TransferGenerated(cfg, l, tx);
    }
  }

  /** Processing a generated event never underflows and never misses a ticker. */
  lemma ProcessKeeps(cfg: Config, height: int, l: Ledger, rec: Rec, granted: bool)
    requires Inv(cfg, l) && WellGenerated(cfg, l, rec) && OracleSound(l, rec.event, granted)
    ensures Process(cfg, height, l, rec, granted).Err? <==> NoTarget(rec.event, granted)
    ensures Process(cfg, height, l, rec, granted).Ok? ==> Inv(cfg, Process(cfg, height, l, rec, granted).value)
  {
    match KindOf(rec.event)
    case DeployKind => DeployKeeps(cfg, height, l, rec);
    case MintKind => MintKeeps(cfg, height, l, rec);
    case InscribeKind =>
      InscribeKeeps(cfg, height, l, rec);
      InscribeRereads(cfg, l.tickers, l.log, rec);
    case TransferKind => TransferKeeps(cfg, height, l, rec);
    case WithdrawInscribeKind => WithdrawInscribeKeeps(cfg, height, l, rec);
    case WithdrawTransferKind => WithdrawKeeps(cfg, height, l, rec, granted);
  }

  // ---------- whole runs ----------

  datatype Step = Step(height: int, tx: Tx, granted: bool)

  ghost predicate StepOk(cfg: Config, l: Ledger, step: Step) {
    && Fresh(l.log, step.tx)
    && (Generate(cfg, l, step.height, step.tx).Emit? ==>
          OracleSound(l, Generate(cfg, l, step.height, step.tx).rec.event, step.granted))
  }

  /** The ledger after a run of transfers; an error ends the run. */
  function Run(cfg: Config, start: Ledger, steps: seq<Step>): Result<Ledger> {
    if steps == [] then Ok(start)
    else
      var last := steps[|steps| - 1];
      match Run(cfg, start, steps[..|steps| - 1])
      case Err => Err
      case Ok(l) => Exec(cfg, last.height, l, last.tx, last.granted)
  }

  ghost predicate ValidRun(cfg: Config, start: Ledger, steps: seq<Step>) {
    forall i :: 0 <= i < |steps| && Run(cfg, start, steps[..i]).Ok? ==>
      StepOk(cfg, Run(cfg, start, steps[..i]).value, steps[i])
  }

  /** The run is stopped only by a withdrawal that cannot be spent or has no target. */
  predicate Aborts(cfg: Config, l: Ledger, step: Step) {
    var g := Generate(cfg, l, step.height, step.tx);
    g.Abort? || (g.Emit? && NoTarget(g.rec.event, step.granted))
  }

  lemma ExecKeeps(cfg: Config, l: Ledger, step: Step)
    requires Inv(cfg, l) && StepOk(cfg, l, step)
    ensures Exec(cfg, step.height, l, step.tx, step.granted).Err? <==> Aborts(cfg, l, step)
    ensures Exec(cfg, step.height, l, step.tx, step.granted).Ok? ==>
              Inv(cfg, Exec(cfg, step.height, l, step.tx, step.granted).value)
  {
    var g := Generate(cfg, l, step.height, step.tx);
    if g.Emit? {
      GenerateGenerates(cfg, l, step.height, step.tx);
      ProcessKeeps(cfg, step.height, l, g.rec, step.granted);
    }
  }

  lemma ShorterRun(cfg: Config, start: Ledger, steps: seq<Step>)
    requires ValidRun(cfg, start, steps) && steps != []
    ensures ValidRun(cfg, start, steps[..|steps| - 1])
  {
    var front := steps[..|steps| - 1];
    forall i | 0 <= i < |front| && Run(cfg, start, front[..i]).Ok?
      ensures StepOk(cfg, Run(cfg, start, front[..i]).value, front[i]) {
      assert front[..i] == steps[..i];
    }
  }

  /** In every ledger reachable from a sound one, such as the empty ledger, supply is conserved, every lock is backed
      and nothing was spent twice. */
  lemma {:induction false} RunsKeep(cfg: Config, start: Ledger, steps: seq<Step>)
    requires Inv(cfg, start) && ValidRun(cfg, start, steps) && Run(cfg, start, steps).Ok?
    ensures Inv(cfg, Run(cfg, start, steps).value)
  {
    if steps != [] {
      ShorterRun(cfg, start, steps);
      RunsKeep(cfg, start, steps[..|steps| - 1]);
      ExecKeeps(cfg, Run(cfg, start, steps[..|steps| - 1]).value, steps[|steps| - 1]);
    }
  }

  /** No run records two events of one kind for an inscription; in particular none is transferred twice. */
  lemma SpentAtMostOnce(cfg: Config, start: Ledger, steps: seq<Step>, i: nat, j: nat)
    requires Inv(cfg, start) && ValidRun(cfg, start, steps) && Run(cfg, start, steps).Ok?
    requires i < j < |Run(cfg, start, steps).value.log|
    ensures var log := Run(cfg, start, steps).value.log;
            KindOf(log[i].event) == KindOf(log[j].event) ==> log[i].id != log[j].id
  {
    RunsKeep(cfg, start, steps);
    EventsAreUnique(Run(cfg, start, steps).value.log, i, j);
  }

  // ---------- a run in parts ----------

  lemma {:induction false} RunInParts(cfg: Config, start: Ledger, a: seq<Step>, b: seq<Step>)
    requires Run(cfg, start, a).Ok?
    ensures Run(cfg, start, a + b) == Run(cfg, Run(cfg, start, a).value, b)
  {
    if b == [] {
      assert a + b == a;
    } else {
      assert (a + b)[..|a + b| - 1] == a + b[..|b| - 1];
      RunInParts(cfg, start, a, b[..|b| - 1]);
    }
  }

  /** The first part of a valid run is valid, and so is the rest from where it ends. */
  lemma ValidInParts(cfg: Config, start: Ledger, a: seq<Step>, b: seq<Step>)
    requires ValidRun(cfg, start, a + b)
    ensures ValidRun(cfg, start, a)
    ensures Run(cfg, start, a).Ok? ==> ValidRun(cfg, Run(cfg, start, a).value, b)
  {
    forall i | 0 <= i < |a| && Run(cfg, start, a[..i]).Ok? ensures StepOk(cfg, Run(cfg, start, a[..i]).value, a[i]) {
      assert (a + b)[..i] == a[..i];
    }
    if Run(cfg, start, a).Ok? {
      var middle := Run(cfg, start, a).value;
      forall i | 0 <= i < |b| && Run(cfg, middle, b[..i]).Ok?
        ensures StepOk(cfg, Run(cfg, middle, b[..i]).value, b[i]) {
        RunInParts(cfg, start, a, b[..i]);
        assert (a + b)[..|a| + i] == a + b[..i] && (a + b)[|a| + i] == b[i];
      }
    }
  }

  lemma {:induction false} ErrorsStay(cfg: Config, start: Ledger, a: seq<Step>, b: seq<Step>)
    requires Run(cfg, start, a).Err?
    ensures Run(cfg, start, a + b).Err?
  {
    if b == [] {
      assert a + b == a;
    } else {
      assert (a + b)[..|a + b| - 1] == a + b[..|b| - 1];
      ErrorsStay(cfg, start, a, b[..|b| - 1]);
    }
  }

  // ---------- the light node ----------

  /** A recorded event with what was known when it was processed. */
  datatype Published = Published(height: int, rec: Rec, granted: bool)

  /** The events a node still has in its cache: those recorded since the cache was last cleared. */
  function Cached(log: seq<Rec>, kept: nat): seq<Rec> {
    if kept <= |log| then log[|log| - kept..] else log
  }

  /** A light node refuses an event it has in its cache and an event of an unknown ticker, then processes it. */
  function LightStep(cfg: Config, l: Ledger, kept: nat, r: Published): Result<Ledger> {
    if Recorded(Cached(l.log, kept), KindOf(r.rec.event), r.rec.id) then Err
    else if !r.rec.event.DeployInscribe? && r.rec.event.ticker !in l.tickers then Err
    else Process(cfg, r.height, l, r.rec, r.granted)
  }

  /** `kept(n)` is how many events are cached when the event after the first `n` arrives. */
  function Replay(cfg: Config, kept: nat -> nat, start: Ledger, records: seq<Published>): Result<Ledger> {
    if records == [] then Ok(start)
    else
      match Replay(cfg, kept, start, records[..|records| - 1])
      case Err => Err
      case Ok(l) => LightStep(cfg, l, kept(|records| - 1), records[|records| - 1])
  }

  /** What a full node's run hands to light nodes: one record for every event it generated. */
  function Publications(cfg: Config, start: Ledger, steps: seq<Step>): seq<Published> {
    if steps == [] then []
    else
      var last := steps[|steps| - 1];
      var before := Publications(cfg, start, steps[..|steps| - 1]);
      match Run(cfg, start, steps[..|steps| - 1])
      case Err => before
      case Ok(l) =>
        match Generate(cfg, l, last.height, last.tx)
        case Emit(rec) => before + [Published(last.height, rec, last.granted)]
        case _ => before
  }

  /** A generated event has not been recorded before, given that an inscription is created once. */
  lemma GeneratedIsNew(cfg: Config, l: Ledger, height: int, tx: Tx)
    requires Fresh(l.log, tx) && Generate(cfg, l, height, tx).Emit?
    ensures var rec := Generate(cfg, l, height, tx).rec;
            !Recorded(l.log, KindOf(rec.event), rec.id)
  {
  }

  lemma {:induction false} FoundInSuffix(log: seq<Rec>, n: nat, kind: Kind, id: InscriptionId)
    requires n <= |log| && Recorded(log[n..], kind, id)
    ensures Recorded(log, kind, id)
  {
    assert log[n..][..|log| - n - 1] == log[..|log| - 1][n..];
    if !(KindOf(log[|log| - 1].event) == kind && log[|log| - 1].id == id) {
      FoundInSuffix(log[..|log| - 1], n, kind, id);
    }
  }

  /** The light node does to a generated event what the full node does. */
  lemma LightStepAgrees(cfg: Config, l: Ledger, kept: nat, r: Published)
    requires WellGenerated(cfg, l, r.rec) && !Recorded(l.log, KindOf(r.rec.event), r.rec.id)
    ensures LightStep(cfg, l, kept, r) == Process(cfg, r.height, l, r.rec, r.granted)
  {
    if kept <= |l.log| && Recorded(Cached(l.log, kept), KindOf(r.rec.event), r.rec.id) {
      FoundInSuffix(l.log, |l.log| - kept, KindOf(r.rec.event), r.rec.id);
    }
  }

  lemma ExecAgrees(cfg: Config, l: Ledger, kept: nat, step: Step)
    requires Inv(cfg, l) && StepOk(cfg, l, step) && Generate(cfg, l, step.height, step.tx).Emit?
    ensures LightStep(cfg, l, kept, Published(step.height, Generate(cfg, l, step.height, step.tx).rec, step.granted))
              == Exec(cfg, step.height, l, step.tx, step.granted)
  {
    var rec := Generate(cfg, l, step.height, step.tx).rec;
    GenerateGenerates(cfg, l, step.height, step.tx);
    GeneratedIsNew(cfg, l, step.height, step.tx);
    LightStepAgrees(cfg, l, kept, Published(step.height, rec, step.granted));
  }

  lemma ReplayPush(cfg: Config, kept: nat -> nat, start: Ledger, records: seq<Published>, r: Published)
    requires Replay(cfg, kept, start, records).Ok?
    ensures Replay(cfg, kept, start, records + [r])
              == LightStep(cfg, Replay(cfg, kept, start, records).value, kept(|records|), r)
  {
    assert (records + [r])[..|records|] == records;
  }

  /** Replaying what a full node published reaches the full node's ledger, whenever caches are cleared. */
  lemma {:induction false} ReplayAgrees(cfg: Config, kept: nat -> nat, start: Ledger, steps: seq<Step>)
    requires Inv(cfg, start) && ValidRun(cfg, start, steps) && Run(cfg, start, steps).Ok?
    ensures Replay(cfg, kept, start, Publications(cfg, start, steps)) == Run(cfg, start, steps)
  {
    if steps != [] {
      var front, last := steps[..|steps| - 1], steps[|steps| - 1];
      ShorterRun(cfg, start, steps);
      ReplayAgrees(cfg, kept, start, front);
      RunsKeep(cfg, start, front);
      var l, before := Run(cfg, start, front).value, Publications(cfg, start, front);
      assert StepOk(cfg, l, last);
      if Generate(cfg, l, last.height, last.tx).Emit? {
        var rec := Generate(cfg, l, last.height, last.tx).rec;
        ReplayPush(cfg, kept, start, before, Published(last.height, rec, last.granted));
        ExecAgrees(cfg, l, kept(|before|), last);
      }
    }
  }

}
