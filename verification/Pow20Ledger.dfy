/** The POW-20 ledger: its tables, the decision taken for each inscription transfer, and the one
    database transaction each accepted transfer commits. */
module Pow20Ledger {
  import opened Wrappers
  import opened Numerals
  import opened Amounts
  import opened Text
  import opened Rows
  import opened Balances

  datatype Event =
    | DeployInscribe(deployerPkscript: string, deployerWallet: Option<string>, tick: string,
                     maxSupply: nat, decimals: Decimals, limitPerMint: nat, difficulty: nat, startingHeight: nat)
    | MintInscribe(mintedPkscript: string, mintedWallet: Option<string>, tick: string, amount: nat,
                   solution: string)
    | TransferInscribe(sourcePkscript: string, sourceWallet: Option<string>, tick: string, amount: nat)
    | TransferTransfer(sourcePkscript: string, sourceWallet: Option<string>, spentPkscript: Option<string>,
                       spentWallet: Option<string>, tick: string, amount: nat, usingTxId: int)

  datatype Kind = DeployKind | MintKind | InscribeKind | TransferKind

  datatype EventRec = EventRec(inscriptionId: string, event: Event)

  datatype Ticker = Ticker(maxSupply: nat, decimals: Decimals, limitPerMint: nat, remaining: int, height: int,
                           startingHeight: nat, difficulty: nat)

  datatype HashRec = HashRec(blockEventHash: string, cumulativeEventHash: string)

  /** pow20_events, pow20_tickers (unique on tick), pow20_historic_balances,
      pow20_cumulative_event_hashes and pow20_block_hashes. */
  datatype Tables = Tables(events: seq<Row<EventRec>>, tickers: map<string, Ticker>,
                           balances: seq<Row<BalanceRec>>, hashes: seq<Row<HashRec>>, blocks: seq<Row<string>>)

  const EMPTY_TABLES := Tables([], map[], [], [], [])

  /** What the ledger calls without looking inside: SHA-256 in hexadecimal, Unicode case mapping, the text
      of an event, which depends on the recorded event and the ticker's decimals, the JSON content of an
      inscription, and the wallet address of a script. */
  datatype Env = Env(sha: string -> string, lower: string -> string, upper: string -> string,
                     eventStr: (EventRec, Decimals) -> string, content: string -> map<string, string>,
                     wallet: string -> Option<string>)

  /** One row of the metaprotocol database's transfers; contentType is already decoded from hexadecimal. */
  datatype Transfer = Transfer(txId: int, inscriptionId: string, oldSatpoint: string, newPkscript: string,
                               sentAsFee: bool, contentType: Option<string>)

  datatype Block = Block(hash: string, transfers: seq<Transfer>)

  function KindOf(e: Event): Kind {
    match e
    case DeployInscribe(_, _, _, _, _, _, _, _) => DeployKind
    case MintInscribe(_, _, _, _, _) => MintKind
    case TransferInscribe(_, _, _, _) => InscribeKind
    case TransferTransfer(_, _, _, _, _, _, _) => TransferKind
  }

  // ---------- queries ----------

  function CountEvents(rows: seq<Row<EventRec>>, kind: Kind, inscriptionId: string): nat {
    if rows == [] then 0
    else
      var last := rows[|rows| - 1].value;
      CountEvents(rows[..|rows| - 1], kind, inscriptionId)
      + if KindOf(last.event) == kind && last.inscriptionId == inscriptionId then 1 else 0
  }

  function FindEvent(rows: seq<Row<EventRec>>, kind: Kind, inscriptionId: string): (e: Option<Event>)
    ensures e.Some? ==> KindOf(e.value) == kind
    ensures e.Some? <==> CountEvents(rows, kind, inscriptionId) > 0
  {
    if rows == [] then None
    else
      var last := rows[|rows| - 1].value;
      if KindOf(last.event) == kind && last.inscriptionId == inscriptionId then Some(last.event)
      else FindEvent(rows[..|rows| - 1], kind, inscriptionId)
  }

  /** An inscription can be spent exactly when it was inscribed once and never transferred. */
  predicate IsUsedOrInvalid(rows: seq<Row<EventRec>>, inscriptionId: string) {
    || CountEvents(rows, InscribeKind, inscriptionId) != 1
    || CountEvents(rows, TransferKind, inscriptionId) != 0
  }

  predicate HasSolutionBeenUsed(rows: seq<Row<EventRec>>, solution: string) {
    exists i :: 0 <= i < |rows| && rows[i].value.event.MintInscribe? && rows[i].value.event.solution == solution
  }

  function BlockHashAt(blocks: seq<Row<string>>, height: int): Option<string> {
    if blocks == [] then None
    else if blocks[|blocks| - 1].height == height then Some(blocks[|blocks| - 1].value)
    else BlockHashAt(blocks[..|blocks| - 1], height)
  }

  // ---------- decisions ----------

  predicate MeetsDifficulty(env: Env, solution: string, difficulty: nat) {
    Zeros(difficulty) <= env.sha(env.sha(solution))
  }

  datatype Step =
    | Deploy(inscriptionId: string, pkscript: string, wallet: Option<string>, tick: string, maxSupply: nat,
             decimals: Decimals, limitPerMint: nat, difficulty: nat, startingHeight: nat)
    | Mint(inscriptionId: string, pkscript: string, wallet: Option<string>, tick: string, amount: nat,
           solution: string)
    | Inscribe(inscriptionId: string, pkscript: string, wallet: Option<string>, tick: string, amount: nat)
    | Move(inscriptionId: string, pkscript: string, wallet: Option<string>, tick: string, amount: nat, txId: int)
    | SpendToFee(inscriptionId: string, tick: string, amount: nat, txId: int)

  /** Skip: the transfer is not a valid operation. Abort: an exception ends the block and the process. */
  datatype Decision = Skip | Abort | Commit(step: Step)

  const INT4_MAX: nat := 2147483647

  /** A positive amount within bounds, or None when the text is not one. */
  function ReadAmount(text: string, decimals: Decimals): Option<nat> {
    if !IsDecimal(text) then None
    else
      match ExtendTo18(text, decimals)
      case None => None
      case Some(v) => if v > MAX_AMOUNT || v <= 0 then None else Some(v)
  }

  predicate IsPositiveNumber(s: string) {
    s != "" && AllDigits(s)
  }

  function DecideDeploy(env: Env, t: Tables, height: int, tr: Transfer, tick: string): Decision {
    var js := env.content(tr.inscriptionId);
    if !({"max", "difficulty", "startBlock"} <= js.Keys) then Skip
    else if !IsPositiveNumber(js["startBlock"]) then Skip
    else if ParseNat(js["startBlock"]) < height then Skip
    else if !IsPositiveNumber(js["difficulty"]) then Skip
    else if ParseNat(js["difficulty"]) > 64 then Skip
    else if tick in t.tickers then Skip
    else if "dec" in js && !IsPositiveNumber(js["dec"]) then Skip
    else
      var decimals := if "dec" in js then ParseNat(js["dec"]) else 18;
      if decimals > 18 then Skip
      else
        match ReadAmount(js["max"], decimals)
        case None => Skip
        case Some(maxSupply) =>
          var limit := if "lim" in js then ReadAmount(js["lim"], decimals) else Some(maxSupply);
          if limit.None? then Skip
          // the row would break the unique index on events, or its height would not fit its column
          else if CountEvents(t.events, DeployKind, tr.inscriptionId) > 0 then Abort
          else if ParseNat(js["startBlock"]) > INT4_MAX then Abort
          else Commit(Deploy(tr.inscriptionId, tr.newPkscript, env.wallet(tr.newPkscript), tick, maxSupply, decimals,
                             limit.value, ParseNat(js["difficulty"]), ParseNat(js["startBlock"])))
  }

  /** The solution must name the ticker, the minter's wallet and the starting block's hash. */
  predicate SolutionFits(env: Env, t: Tables, tr: Transfer, tick: string, solution: string)
    requires tick in t.tickers
  {
    var parts := SplitOn(solution, ':');
    && |parts| == 4
    && parts[0] == env.upper(tick)
    && Some(parts[1]) == env.wallet(tr.newPkscript)
    && Some(parts[2]) == BlockHashAt(t.blocks, t.tickers[tick].startingHeight)
    && MeetsDifficulty(env, solution, t.tickers[tick].difficulty)
    && !HasSolutionBeenUsed(t.events, solution)
  }

  function DecideMint(env: Env, t: Tables, height: int, tr: Transfer, tick: string): Decision
  {
    var js := env.content(tr.inscriptionId);
    if "amt" !in js || tick !in t.tickers then Skip
    else
      var ticker := t.tickers[tick];
      // a ticker deployed earlier in this block has no starting height in memory
      if ticker.height == height then Abort
      else if height < ticker.startingHeight then Skip
      else
        match ReadAmount(js["amt"], ticker.decimals)
        case None => Skip
        case Some(requested) =>
          if ticker.remaining <= 0 || requested > ticker.limitPerMint then Skip
          else
            var amount := if requested > ticker.remaining then ticker.remaining else requested;
            if "solution" !in js || !SolutionFits(env, t, tr, tick, js["solution"]) then Skip
            else if CountEvents(t.events, MintKind, tr.inscriptionId) > 0 then Abort
            else
              Commit(Mint(tr.inscriptionId, tr.newPkscript, env.wallet(tr.newPkscript), tick, amount, js["solution"]))
  }

  function DecideInscribe(env: Env, t: Tables, tr: Transfer, tick: string, amount: nat): Decision {
    if BalanceOf(t.balances, tr.newPkscript, tick).available < amount then Skip
    else if CountEvents(t.events, InscribeKind, tr.inscriptionId) > 0 then Abort
    else Commit(Inscribe(tr.inscriptionId, tr.newPkscript, env.wallet(tr.newPkscript), tick, amount))
  }

  function DecideSpend(env: Env, t: Tables, tr: Transfer, tick: string, amount: nat): Decision {
    if IsUsedOrInvalid(t.events, tr.inscriptionId) then Skip
    else if tr.sentAsFee then Commit(SpendToFee(tr.inscriptionId, tick, amount, tr.txId))
    else Commit(Move(tr.inscriptionId, tr.newPkscript, env.wallet(tr.newPkscript), tick, amount, tr.txId))
  }

  function DecideTransfer(env: Env, t: Tables, tr: Transfer, tick: string): Decision
  {
    var js := env.content(tr.inscriptionId);
    if "amt" !in js || tick !in t.tickers then Skip
    else
      match ReadAmount(js["amt"], t.tickers[tick].decimals)
      case None => Skip
      case Some(amount) =>
        if tr.oldSatpoint == "" then DecideInscribe(env, t, tr, tick, amount) else DecideSpend(env, t, tr, tick, amount)
  }

  predicate IsRelevant(env: Env, tr: Transfer) {
    && !(tr.sentAsFee && tr.oldSatpoint == "")
    && tr.contentType.Some?
    && SplitOn(tr.contentType.value, ';')[0] in ["application/json", "text/plain"]
    && {"tick", "op"} <= env.content(tr.inscriptionId).Keys
    && Utf8Length(env.lower(env.content(tr.inscriptionId)["tick"])) == 4
  }

  function DecideOp(env: Env, t: Tables, height: int, tr: Transfer, tick: string, op: string): Decision {
    if op == "deploy" && tr.oldSatpoint == "" then DecideDeploy(env, t, height, tr, tick)
    else if op == "mint" && tr.oldSatpoint == "" then DecideMint(env, t, height, tr, tick)
    else if op == "transfer" then DecideTransfer(env, t, tr, tick)
    else Skip
  }

  function Decide(env: Env, t: Tables, height: int, tr: Transfer): Decision {
    if !IsRelevant(env, tr) then Skip
    else
      var js := env.content(tr.inscriptionId);
      DecideOp(env, t, height, tr, env.lower(js["tick"]), js["op"])
  }

  // ---------- committed steps ----------

  predicate CanApply(t: Tables, s: Step) {
    match s
    case Deploy(_, _, _, tick, _, _, _, _, _) => tick !in t.tickers
    case Mint(_, _, _, tick, _, _) => tick in t.tickers
    case Inscribe(_, _, _, tick, _) => tick in t.tickers
    case Move(id, _, _, tick, _, _) => tick in t.tickers && FindEvent(t.events, InscribeKind, id).Some?
    case SpendToFee(id, tick, _, _) => tick in t.tickers && FindEvent(t.events, InscribeKind, id).Some?
  }

  /** The event a step records. */
  function EventOf(t: Tables, s: Step): Event
    requires CanApply(t, s)
  {
    match s
    case Deploy(_, pk, wallet, tick, maxSupply, decimals, limit, difficulty, start) =>
      DeployInscribe(pk, wallet, tick, maxSupply, decimals, limit, difficulty, start)
    case Mint(_, pk, wallet, tick, amount, solution) => MintInscribe(pk, wallet, tick, amount, solution)
    case Inscribe(_, pk, wallet, tick, amount) => TransferInscribe(pk, wallet, tick, amount)
    case Move(id, pk, wallet, tick, amount, txId) =>
      var source := FindEvent(t.events, InscribeKind, id).value;
      TransferTransfer(source.sourcePkscript, source.sourceWallet, Some(pk), wallet, tick, amount, txId)
    case SpendToFee(id, tick, amount, txId) =>
      var source := FindEvent(t.events, InscribeKind, id).value;
      TransferTransfer(source.sourcePkscript, source.sourceWallet, None, None, tick, amount, txId)
  }

  function TickersAfter(t: Tables, height: int, s: Step): map<string, Ticker>
    requires CanApply(t, s)
  {
    match s
    case Deploy(_, _, _, tick, maxSupply, decimals, limit, difficulty, start) =>
      t.tickers[tick := Ticker(maxSupply, decimals, limit, maxSupply, height, start, difficulty)]
    case Mint(_, _, _, tick, amount, _) =>
      t.tickers[tick := t.tickers[tick].(remaining := t.tickers[tick].remaining - amount)]
    case _ => t.tickers
  }

  function AdjustedRow(b: Balance, pk: string, wallet: Option<string>, tick: string, overallBy: int,
                       availableBy: int, height: int): Row<BalanceRec> {
    Row(height, BalanceRec(pk, wallet, tick, Balance(b.overall + overallBy, b.available + availableBy)))
  }

  /** The source loses the amount it had locked; then the receiver, who may be the source, gains it. */
  function MovedRows(rows: seq<Row<BalanceRec>>, source: string, sourceWallet: Option<string>, spent: string,
                     spentWallet: Option<string>, tick: string, amount: nat, height: int): seq<Row<BalanceRec>> {
    var debit := AdjustedRow(BalanceOf(rows, source, tick), source, sourceWallet, tick, 0 - amount, 0, height);
    var b := if spent == source then debit.value.balance else BalanceOf(rows, spent, tick);
    [debit, AdjustedRow(b, spent, spentWallet, tick, amount, amount, height)]
  }

  /** The receiver's balance may be read after the source's row was written. */
  lemma MovedOneByOne(rows: seq<Row<BalanceRec>>, source: string, sourceWallet: Option<string>, spent: string,
                      spentWallet: Option<string>, tick: string, amount: nat, height: int)
    requires AllUpTo(rows, height)
    ensures var debit := AdjustedRow(BalanceOf(rows, source, tick), source, sourceWallet, tick, 0 - amount, 0, height);
            MovedRows(rows, source, sourceWallet, spent, spentWallet, tick, amount, height)
              == [debit]
                 + [AdjustedRow(BalanceOf(rows + [debit], spent, tick), spent, spentWallet, tick, amount, amount,
                                height)]
  {
    var debit := AdjustedRow(BalanceOf(rows, source, tick), source, sourceWallet, tick, 0 - amount, 0, height);
    NewestPush(rows, debit, spent, tick);
  }

  /** The balance rows a step appends, in order. */
  function BalanceRowsOf(t: Tables, height: int, s: Step): seq<Row<BalanceRec>>
    requires CanApply(t, s)
  {
    match s
    case Deploy(_, _, _, _, _, _, _, _, _) => []
    case Mint(_, pk, wallet, tick, amount, _) =>
      [AdjustedRow(BalanceOf(t.balances, pk, tick), pk, wallet, tick, amount, amount, height)]
    case Inscribe(_, pk, wallet, tick, amount) =>
      [AdjustedRow(BalanceOf(t.balances, pk, tick), pk, wallet, tick, 0, 0 - amount, height)]
    case Move(id, pk, wallet, tick, amount, _) =>
      var e := FindEvent(t.events, InscribeKind, id).value;
      MovedRows(t.balances, e.sourcePkscript, e.sourceWallet, pk, wallet, tick, amount, height)
    case SpendToFee(id, tick, amount, _) =>
      var e := FindEvent(t.events, InscribeKind, id).value;
      [AdjustedRow(BalanceOf(t.balances, e.sourcePkscript, tick), e.sourcePkscript, e.sourceWallet, tick, 0, amount,
                   height)]
  }

  /** One committed database transaction. */
  function Apply(t: Tables, height: int, s: Step): Tables
    requires CanApply(t, s)
  {
    t.(events := t.events + [Row(height, EventRec(s.inscriptionId, EventOf(t, s)))],
       tickers := TickersAfter(t, height, s),
       balances := t.balances + BalanceRowsOf(t, height, s))
  }

  /** Every accepted transfer can be applied: the source event exists, the ticker is or is not there. */
  lemma DecideIsApplicable(env: Env, t: Tables, height: int, tr: Transfer)
    ensures var d := Decide(env, t, height, tr); d.Commit? ==> CanApply(t, d.step)
  {
  }

  // ---------- event strings ----------

  const EVENT_SEPARATOR: string := "|"

  function StepText(env: Env, t: Tables, s: Step): string
    requires CanApply(t, s)
  {
    var decimals := if s.Deploy? then s.decimals else t.tickers[s.tick].decimals;
    env.eventStr(EventRec(s.inscriptionId, EventOf(t, s)), decimals) + EVENT_SEPARATOR
  }

}
