/** A run that a rollback does not undo: a ticker is deployed, minted, inscribed for a transfer, and in the next block
    the transfer is sent to an OP_RETURN. */
module Brc20BurnRun {
  import opened Wrappers
  import opened Numerals
  import opened Amounts
  import opened Text
  import opened Rows
  import opened Brc20Ledger
  import opened Brc20Invariants
  import opened Brc20Sums
  import opened Brc20Run
  import opened Brc20Database
  import opened Brc20Rollback

  /** The ids of three inscriptions: of the deploy, the mint and the transfer. */
  datatype Ids = Ids(deploy: InscriptionId, mint: InscriptionId, transfer: InscriptionId)

  predicate Distinct(ids: Ids) {
    ids.deploy != ids.mint && ids.mint != ids.transfer && ids.deploy != ids.transfer
  }

  function IdEnding(c: char): InscriptionId {
    seq(64, _ => '0') + ['i', c]
  }

  lemma SuchIds()
    ensures Distinct(Ids(IdEnding('0'), IdEnding('1'), IdEnding('2')))
  {
    assert IdEnding('0')[65] == '0' && IdEnding('1')[65] == '1' && IdEnding('2')[65] == '2';
  }

  const DEPLOY := map["p" := "brc-20", "op" := "deploy", "tick" := "ordi", "max" := "5"]
  const MINT := map["p" := "brc-20", "op" := "mint", "tick" := "ordi", "amt" := "5"]
  const TRANSFER := map["p" := "brc-20", "op" := "transfer", "tick" := "ordi", "amt" := "5"]

  /** Five whole tokens, in units of 10^-18. */
  const FIVE: nat := 5_000_000_000_000_000_000

  function Content(ids: Ids, id: InscriptionId): map<string, string> {
    if id == ids.deploy then DEPLOY else if id == ids.mint then MINT else TRANSFER
  }

  function Settings(ids: Ids): Config {
    Config((id: InscriptionId) => Content(ids, id), id => None, s => s, s => [], s => None, s => "", 0, 0, 0, true)
  }

  function Create(id: InscriptionId): Step {
    Step(1, Tx(id, None, "a", false, None), false)
  }

  function Burn(id: InscriptionId): Step {
    Step(2, Tx(id, Some("s"), OP_RETURN, false, None), false)
  }

  function Steps(ids: Ids): seq<Step> {
    [Create(ids.deploy), Create(ids.mint), Create(ids.transfer), Burn(ids.transfer)]
  }

  function Deployed(ids: Ids): Rec {
    Rec(ids.deploy, DeployInscribe("ordi", "ordi", FIVE, FIVE, 18, false))
  }

  function Minted(ids: Ids): Rec {
    Rec(ids.mint, MintInscribe("a", "ordi", FIVE))
  }

  function Inscribed(ids: Ids): Rec {
    Rec(ids.transfer, TransferInscribe("a", "ordi", FIVE))
  }

  function Spent(ids: Ids): Rec {
    Rec(ids.transfer, TransferTransfer("a", Some(OP_RETURN), "ordi", "ordi", FIVE))
  }

  function Ordi(ids: Ids, remaining: nat, burned: nat): map<string, Ticker> {
    map["ordi" := Ticker("ordi", FIVE, remaining, burned, FIVE, 18, false, 1, ids.deploy)]
  }

  function Held(height: int, overall: nat, available: nat): Row<BalanceUpdate> {
    Row(height, BalanceUpdate("ordi", "a", Balance(overall, available)))
  }

  function BeforeAll(): Tables {
    Tables(map[], [], [])
  }

  function AfterDeploy(ids: Ids): Tables {
    Tables(Ordi(ids, FIVE, 0), [], [Row(1, Deployed(ids))])
  }

  function AfterMint(ids: Ids): Tables {
    Tables(Ordi(ids, 0, 0), [Held(1, FIVE, FIVE)], [Row(1, Deployed(ids)), Row(1, Minted(ids))])
  }

  function AfterInscribe(ids: Ids): Tables {
    Tables(Ordi(ids, 0, 0), [Held(1, FIVE, FIVE), Held(1, FIVE, 0)],
           [Row(1, Deployed(ids)), Row(1, Minted(ids)), Row(1, Inscribed(ids))])
  }

  function AfterBurn(ids: Ids): Tables {
    Tables(Ordi(ids, 0, FIVE), [Held(1, FIVE, FIVE), Held(1, FIVE, 0), Held(2, 0, 0)],
           [Row(1, Deployed(ids)), Row(1, Minted(ids)), Row(1, Inscribed(ids)), Row(2, Spent(ids))])
  }

  // ---------- texts ----------

  lemma FiveIsRead(allowZero: bool)
    ensures ReadAmount(Some("5"), 18, allowZero) == Ok(FIVE)
  {
    assert FindDot("5") == 1 && Whole("5") == "5" && Frac("5") == "";
    assert "5"[..0] == "" && ParseNat("5") == 5;
    PowerEighteen();
  }

  lemma OrdiIsFour()
    ensures Utf8Length("ordi") == 4 && '\0' !in "ordi"
  {
    assert "ordi"[..3] == "ord" && "ord"[..2] == "or" && "or"[..1] == "o" && "o"[..0] == "";
    assert Utf8Length("o") == 1 && Utf8Length("or") == 2 && Utf8Length("ord") == 3;
  }

  lemma OpReturnBurns(ids: Ids)
    ensures DestinationOf(Settings(ids), 2, Spent(ids).event) == Destination.Burned
  {
    assert |OP_RETURN| == 2 && |MODULE_PKSCRIPT| > 2;
  }

  // ---------- what the four steps generate ----------

  lemma GeneratesDeploy(ids: Ids, l: Ledger)
    requires Distinct(ids)
    requires "ordi" !in l.tickers
    ensures Generate(Settings(ids), l, 1, Create(ids.deploy).tx) == Emit(Deployed(ids))
  {
    OrdiIsFour();
    DeployReads(ids, l);
    assert Generate(Settings(ids), l, 1, Create(ids.deploy).tx)
        == GenerateDeploy(Settings(ids), l, 1, Create(ids.deploy).tx, DEPLOY, "ordi");
  }

  lemma DeployReads(ids: Ids, l: Ledger)
    requires "ordi" !in l.tickers
    ensures GenerateDeploy(Settings(ids), l, 1, Create(ids.deploy).tx, DEPLOY, "ordi") == Emit(Deployed(ids))
  {
    FiveIsRead(true);
    OrdiIsFour();
    assert Get(DEPLOY, "dec") == None && Get(DEPLOY, "lim") == None && Get(DEPLOY, "max") == Some("5");
    assert ReadDecimals(Get(DEPLOY, "dec")) == Some(18) && ReadAmount(Get(DEPLOY, "lim"), 18, false) == Err;
    assert SelfMintRule(Settings(ids), 1, Create(ids.deploy).tx, DEPLOY, "ordi") == Some(false);
  }

  lemma GeneratesMint(ids: Ids, l: Ledger)
    requires Distinct(ids)
    requires l.tickers == Ordi(ids, FIVE, 0)
    ensures Generate(Settings(ids), l, 1, Create(ids.mint).tx) == Emit(Minted(ids))
  {
    FiveIsRead(false);
    OrdiIsFour();
  }

  lemma GeneratesInscribe(ids: Ids, l: Ledger)
    requires Distinct(ids)
    requires l.tickers == Ordi(ids, 0, 0) && BalanceOf(l.balances, "ordi", "a").available == FIVE
    ensures Generate(Settings(ids), l, 1, Create(ids.transfer).tx) == Emit(Inscribed(ids))
  {
    FiveIsRead(false);
    OrdiIsFour();
  }

  lemma GeneratesSpend(ids: Ids, l: Ledger)
    requires Distinct(ids)
    requires l.tickers == Ordi(ids, 0, 0) && CanSpend(l.log, InscribeKind, TransferKind, ids.transfer)
    requires Find(l.log, InscribeKind, ids.transfer) == Some(Inscribed(ids).event)
    ensures Generate(Settings(ids), l, 2, Burn(ids.transfer).tx) == Emit(Spent(ids))
  {
    FiveIsRead(false);
    OrdiIsFour();
  }

  // ---------- the log ----------

  lemma Logs(ids: Ids)
    ensures Stands(BeforeAll()).log == [] && Stands(AfterDeploy(ids)).log == [] + [Deployed(ids)]
    ensures Stands(AfterMint(ids)).log == Stands(AfterDeploy(ids)).log + [Minted(ids)]
    ensures Stands(AfterInscribe(ids)).log == Stands(AfterMint(ids)).log + [Inscribed(ids)]
    ensures Stands(AfterBurn(ids)).log == Stands(AfterInscribe(ids)).log + [Spent(ids)]
  {
  }

  lemma MaySpend(ids: Ids)
    requires Distinct(ids)
    ensures CanSpend(Stands(AfterInscribe(ids)).log, InscribeKind, TransferKind, ids.transfer)
    ensures Find(Stands(AfterInscribe(ids)).log, InscribeKind, ids.transfer) == Some(Inscribed(ids).event)
    ensures forall kind :: !Recorded(Stands(AfterMint(ids)).log, kind, ids.transfer)
    ensures forall kind :: !Recorded(Stands(AfterDeploy(ids)).log, kind, ids.mint)
  {
    Logs(ids);
    forall kind
      ensures !Recorded(Stands(AfterMint(ids)).log, kind, ids.transfer)
      ensures !Recorded(Stands(AfterDeploy(ids)).log, kind, ids.mint) {
      FindPush([], Deployed(ids), kind, ids.transfer);
      FindPush([], Deployed(ids), kind, ids.mint);
      FindPush(Stands(AfterDeploy(ids)).log, Minted(ids), kind, ids.transfer);
    }
    assert !Recorded(Stands(AfterMint(ids)).log, TransferKind, ids.transfer);
    FindPush(Stands(AfterMint(ids)).log, Inscribed(ids), InscribeKind, ids.transfer);
    FindPush(Stands(AfterMint(ids)).log, Inscribed(ids), TransferKind, ids.transfer);
  }

  // ---------- balances ----------

  lemma BalancesAre(ids: Ids)
    ensures BalanceMap(AfterDeploy(ids).balances) == map[]
    ensures BalanceMap(AfterMint(ids).balances) == map[("ordi", "a") := Balance(FIVE, FIVE)]
    ensures BalanceMap(AfterInscribe(ids).balances) == map[("ordi", "a") := Balance(FIVE, 0)]
    ensures BalanceMap(AfterBurn(ids).balances) == map[("ordi", "a") := Balance(0, 0)]
  {
    assert AfterMint(ids).balances[..0] == [] && AfterInscribe(ids).balances[..1] == AfterMint(ids).balances;
    assert AfterBurn(ids).balances[..2] == AfterInscribe(ids).balances;
  }

  // ---------- the steps ----------

  lemma DeployProcesses(ids: Ids)
    ensures Process(Settings(ids), 1, Stands(BeforeAll()), Deployed(ids), false) == Ok(Stands(AfterDeploy(ids)))
  {
    Logs(ids);
    BalancesAre(ids);
  }

  lemma Deploys(ids: Ids)
    requires Distinct(ids)
    ensures Commits(Settings(ids), Create(ids.deploy), BeforeAll(), AfterDeploy(ids))
  {
    GeneratesDeploy(ids, Stands(BeforeAll()));
    DeployProcesses(ids);
    AllAppend(ids);
    Committed(ids, Create(ids.deploy), BeforeAll(), AfterDeploy(ids), Deployed(ids));
  }

  lemma MintedTickers(ids: Ids)
    ensures var before := AfterDeploy(ids).tickers;
            && "ordi" in before && before["ordi"].remaining == FIVE
            && AfterMint(ids).tickers == before["ordi" := before["ordi"].(remaining := 0)]
  {
  }

  lemma MintedBalances(ids: Ids)
    ensures BalanceMap(AfterMint(ids).balances) == AddTo(BalanceMap(AfterDeploy(ids).balances), "ordi", "a", FIVE, FIVE)
  {
    BalancesAre(ids);
  }

  lemma MintProcesses(ids: Ids)
    ensures Process(Settings(ids), 1, Stands(AfterDeploy(ids)), Minted(ids), false) == Ok(Stands(AfterMint(ids)))
  {
    Logs(ids);
    MintedTickers(ids);
    MintedBalances(ids);
    MintShape(Settings(ids), 1, Stands(AfterDeploy(ids)), Minted(ids));
  }

  /** What a transaction appends. */
  predicate Appends(t: Tables, t': Tables, height: int, rec: Rec) {
    && t.balances <= t'.balances && t'.events == t.events + [Row(height, rec)]
    && forall i :: |t.balances| <= i < |t'.balances| ==> t'.balances[i].height == height
  }

  lemma AllAppend(ids: Ids)
    ensures Appends(BeforeAll(), AfterDeploy(ids), 1, Deployed(ids))
    ensures Appends(AfterDeploy(ids), AfterMint(ids), 1, Minted(ids))
    ensures Appends(AfterMint(ids), AfterInscribe(ids), 1, Inscribed(ids))
    ensures Appends(AfterInscribe(ids), AfterBurn(ids), 2, Spent(ids))
  {
  }

  lemma Committed(ids: Ids, step: Step, t: Tables, t': Tables, rec: Rec)
    requires Generate(Settings(ids), Stands(t), step.height, step.tx) == Emit(rec) && Appends(t, t', step.height, rec)
    requires Process(Settings(ids), step.height, Stands(t), rec, step.granted) == Ok(Stands(t'))
    ensures Commits(Settings(ids), step, t, t')
  {
    CommitsSo(Settings(ids), step, t, t', rec);
  }

  lemma MintGenerates(ids: Ids)
    requires Distinct(ids)
    ensures Generate(Settings(ids), Stands(AfterDeploy(ids)), 1, Create(ids.mint).tx) == Emit(Minted(ids))
  {
    GeneratesMint(ids, Stands(AfterDeploy(ids)));
  }

  lemma Mints(ids: Ids)
    requires Distinct(ids)
    ensures Commits(Settings(ids), Create(ids.mint), AfterDeploy(ids), AfterMint(ids))
  {
    MintGenerates(ids);
    MintProcesses(ids);
    AllAppend(ids);
    Committed(ids, Create(ids.mint), AfterDeploy(ids), AfterMint(ids), Minted(ids));
  }

  lemma InscribeProcesses(ids: Ids)
    ensures Process(Settings(ids), 1, Stands(AfterMint(ids)), Inscribed(ids), false) == Ok(Stands(AfterInscribe(ids)))
  {
    Logs(ids);
    BalancesAre(ids);
    assert BalanceMap(AfterInscribe(ids).balances)
        == TakeFrom(BalanceMap(AfterMint(ids).balances), "ordi", "a", 0, FIVE);
  }

  lemma Inscribes(ids: Ids)
    requires Distinct(ids)
    ensures Commits(Settings(ids), Create(ids.transfer), AfterMint(ids), AfterInscribe(ids))
  {
    BalancesAre(ids);
    GeneratesInscribe(ids, Stands(AfterMint(ids)));
    InscribeProcesses(ids);
    AllAppend(ids);
    Committed(ids, Create(ids.transfer), AfterMint(ids), AfterInscribe(ids), Inscribed(ids));
  }

  lemma SpendProcesses(ids: Ids)
    requires CanSpend(Stands(AfterInscribe(ids)).log, InscribeKind, TransferKind, ids.transfer)
    ensures Process(Settings(ids), 2, Stands(AfterInscribe(ids)), Spent(ids), false) == Ok(Stands(AfterBurn(ids)))
  {
    var before, after := AfterInscribe(ids), AfterBurn(ids);
    var ticker := before.tickers["ordi"];
    OpReturnBurns(ids);
    Logs(ids);
    BalancesAre(ids);
    assert after.tickers == before.tickers["ordi" := ticker.(burned := ticker.burned + FIVE)];
    assert BalanceMap(after.balances) == TakeFrom(BalanceMap(before.balances), "ordi", "a", FIVE, 0);
  }

  lemma Spends(ids: Ids)
    requires Distinct(ids)
    ensures Commits(Settings(ids), Burn(ids.transfer), AfterInscribe(ids), AfterBurn(ids))
  {
    MaySpend(ids);
    GeneratesSpend(ids, Stands(AfterInscribe(ids)));
    SpendProcesses(ids);
    AllAppend(ids);
    Committed(ids, Burn(ids.transfer), AfterInscribe(ids), AfterBurn(ids), Spent(ids));
  }

  /** The tables after each of the four transfers. */
  function Run4(ids: Ids): seq<Tables> {
    [BeforeAll(), AfterDeploy(ids), AfterMint(ids), AfterInscribe(ids), AfterBurn(ids)]
  }

  lemma RunIs(ids: Ids)
    ensures Steps(ids)[0] == Create(ids.deploy) && Steps(ids)[1] == Create(ids.mint)
    ensures Steps(ids)[2] == Create(ids.transfer) && Steps(ids)[3] == Burn(ids.transfer)
    ensures Run4(ids)[0] == BeforeAll() && Run4(ids)[1] == AfterDeploy(ids) && Run4(ids)[2] == AfterMint(ids)
    ensures Run4(ids)[3] == AfterInscribe(ids) && Run4(ids)[4] == AfterBurn(ids)
  {
  }

  lemma CommitsAt(ids: Ids, i: nat, step: Step, t: Tables, t': Tables)
    requires Distinct(ids) && i < 4 && step == Steps(ids)[i] && t == Run4(ids)[i] && t' == Run4(ids)[i + 1]
    ensures Commits(Settings(ids), step, t, t')
  {
    RunIs(ids);
    if i == 0 {
      Deploys(ids);
    } else if i == 1 {
      Mints(ids);
    } else if i == 2 {
      Inscribes(ids);
    } else {
      Spends(ids);
    }
  }

  lemma RunsFromNothing(ids: Ids)
    requires Distinct(ids)
    ensures Trace(Settings(ids), Steps(ids), Run4(ids)) && Stands(Run4(ids)[0]) == EMPTY_LEDGER
  {
    var steps, ts := Steps(ids), Run4(ids);
    forall i | 0 <= i < |steps| ensures Commits(Settings(ids), steps[i], ts[i], ts[i + 1]) {
      CommitsAt(ids, i, steps[i], ts[i], ts[i + 1]);
    }
  }

  /** No inscription is created twice in it. */
  lemma AllFresh(ids: Ids)
    requires Distinct(ids)
    ensures forall i :: 0 <= i < 4 ==> Fresh(Stands(Run4(ids)[i]).log, Steps(ids)[i].tx)
  {
    MaySpend(ids);
  }

  lemma BurnsFive(ids: Ids)
    ensures !NothingBurned(Settings(ids), AfterInscribe(ids).tickers, AfterBurn(ids).events, 1)
  {
    OpReturnBurns(ids);
    assert AfterBurn(ids).events == AfterInscribe(ids).events + [Row(2, Spent(ids))];
    AbovePush(Settings(ids), AfterInscribe(ids).events, Row(2, Spent(ids)), 1, "ordi");
    assert "ordi" in AfterInscribe(ids).tickers;
  }

  lemma SettledAtOne(ids: Ids)
    ensures Settled(AfterInscribe(ids), 1)
  {
  }

  lemma NotUndone(ids: Ids, step: Step, t: Tables, t': Tables)
    requires Commits(Settings(ids), step, t, t') && Settled(t, 1) && step.height == 2
    requires !NothingBurned(Settings(ids), t.tickers, t'.events, 1)
    ensures Reorged(t', 1) != t
  {
    StepIsInverse(Settings(ids), 1, step, t, t');
  }

  lemma LastIsNotUndone(ids: Ids)
    requires Distinct(ids)
    ensures Settled(AfterInscribe(ids), 1) && Reorged(AfterBurn(ids), 1) != AfterInscribe(ids)
  {
    Spends(ids);
    BurnsFive(ids);
    SettledAtOne(ids);
    NotUndone(ids, Burn(ids.transfer), AfterInscribe(ids), AfterBurn(ids));
  }

  /** A run from empty tables, burning at height 2, after which a rollback to height 1 does not give back the tables
      that were there when block 1 was done. */
  lemma BurnIsNotUndone() returns (ids: Ids)
    ensures Trace(Settings(ids), Steps(ids), Run4(ids)) && Stands(Run4(ids)[0]) == EMPTY_LEDGER
    ensures forall i :: 0 <= i < 4 ==> Fresh(Stands(Run4(ids)[i]).log, Steps(ids)[i].tx)
    ensures Settled(Run4(ids)[3], 1) && Reorged(Run4(ids)[4], 1) != Run4(ids)[3]
  {
    ids := Ids(IdEnding('0'), IdEnding('1'), IdEnding('2'));
    SuchIds();
    RunsFromNothing(ids);
    AllFresh(ids);
    LastIsNotUndone(ids);
  }

}
