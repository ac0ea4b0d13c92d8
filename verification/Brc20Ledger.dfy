/** The BRC-20 ledger on values: which event an inscription transfer generates, and what processing an
    event does to tickers and balances. The full node generates and processes; the light node processes
    recorded events. */
module Brc20Ledger {
  import opened Wrappers
  import opened Numerals
  import opened Amounts
  import opened Text
  import opened Bytes

  /** Scripts are hexadecimal texts: no colon in them. */
  type Pkscript = s: string | ':' !in s

  /** A transaction id of 64 hexadecimal digits, the letter i, and an index. */
  type InscriptionId = s: string | IsInscriptionId(s)
    witness seq(64, _ => '0') + "i0"

  predicate IsInscriptionId(s: string) {
    |s| > 64 && s[64] == 'i' && 'i' !in s[..64]
  }

  /** Balances are held per ticker and script. */
  type Account = (string, Pkscript)

  datatype Balance = Balance(overall: nat, available: nat)

  const ZERO := Balance(0, 0)

  datatype Ticker = Ticker(originalTicker: string, maxSupply: nat, remaining: nat, burned: nat, limitPerMint: nat,
                           decimals: Decimals, isSelfMint: bool, deployHeight: int, deployId: string)

  datatype Event =
    | DeployInscribe(ticker: string, originalTicker: string, maxSupply: nat, limitPerMint: nat,
                     decimals: Decimals, isSelfMint: bool)
    | MintInscribe(mintedPkscript: Pkscript, ticker: string, amount: nat)
    | TransferInscribe(sourcePkscript: Pkscript, ticker: string, amount: nat)
    | TransferTransfer(sourcePkscript: Pkscript, spentPkscript: Option<Pkscript>, ticker: string,
                       originalTicker: string, amount: nat)
    | WithdrawInscribe(sourcePkscript: Pkscript, ticker: string, amount: nat)
    | WithdrawTransfer(sourcePkscript: Pkscript, spentPkscript: Option<Pkscript>, ticker: string, amount: nat)

  datatype Kind = DeployKind | MintKind | InscribeKind | TransferKind | WithdrawInscribeKind | WithdrawTransferKind

  datatype Rec = Rec(id: InscriptionId, event: Event)

  /** Tickers, balances and every event recorded so far. */
  datatype Ledger = Ledger(tickers: map<string, Ticker>, balances: map<Account, Balance>, log: seq<Rec>)

  const EMPTY_LEDGER := Ledger(map[], map[], [])

  /** One transfer of an inscription; its content is looked up by inscription id. */
  datatype Tx = Tx(id: InscriptionId, oldSatpoint: Option<string>, newPkscript: Pkscript, sentAsFee: bool,
                   parentId: Option<string>)

  /** A commitment to a six-byte ticker, by the script that owns it. */
  datatype Predeploy = Predeploy(pkscript: Pkscript, hash: string, height: int)

  /** Settings, and what the indexer calls without looking inside: the JSON content of an inscription, the
      predeploy event recorded for it, lower-casing, UTF-8, hexadecimal decoding and the double digest. */
  datatype Config = Config(content: InscriptionId -> map<string, string>, predeploys: string -> Option<Predeploy>,
                           lower: string -> string, utf8: string -> seq<Byte>, unhex: string -> Option<seq<Byte>>,
                           digest: seq<Byte> -> string, selfMintHeight: int, phaseOneHeight: int,
                           allTickersHeight: int, progEnabled: bool)

  const PREDEPLOY_BLOCK_HEIGHT_DELAY := 3

  const MODULE_PKSCRIPT: Pkscript := "6a09425243323050524f47"
  const OP_RETURN: Pkscript := "6a"

  function KindOf(e: Event): Kind {
    match e
    case DeployInscribe(_, _, _, _, _, _) => DeployKind
    case MintInscribe(_, _, _) => MintKind
    case TransferInscribe(_, _, _) => InscribeKind
    case TransferTransfer(_, _, _, _, _) => TransferKind
    case WithdrawInscribe(_, _, _) => WithdrawInscribeKind
    case WithdrawTransfer(_, _, _, _) => WithdrawTransferKind
  }

  function Find(log: seq<Rec>, kind: Kind, id: InscriptionId): (e: Option<Event>)
    ensures e.Some? ==> KindOf(e.value) == kind
  {
    if log == [] then None
    else
      var last := log[|log| - 1];
      if KindOf(last.event) == kind && last.id == id then Some(last.event)
      else Find(log[..|log| - 1], kind, id)
  }

  predicate Recorded(log: seq<Rec>, kind: Kind, id: InscriptionId) {
    Find(log, kind, id).Some?
  }

  /** Inscribed and not transferred yet. */
  predicate CanSpend(log: seq<Rec>, inscribeKind: Kind, transferKind: Kind, id: InscriptionId) {
    Recorded(log, inscribeKind, id) && !Recorded(log, transferKind, id)
  }

  function BalanceOf(balances: map<Account, Balance>, ticker: string, pkscript: Pkscript): Balance {
    if (ticker, pkscript) in balances then balances[(ticker, pkscript)] else ZERO
  }

  // ---------- processing an event ----------

  function AddTo(balances: map<Account, Balance>, ticker: string, pkscript: Pkscript, overall: nat,
                 available: nat): map<Account, Balance> {
    var b := BalanceOf(balances, ticker, pkscript);
    balances[(ticker, pkscript) := Balance(b.overall + overall, b.available + available)]
  }

  predicate CanTake(balances: map<Account, Balance>, ticker: string, pkscript: Pkscript, overall: nat, available: nat) {
    var b := BalanceOf(balances, ticker, pkscript);
    overall <= b.overall && available <= b.available
  }

  function TakeFrom(balances: map<Account, Balance>, ticker: string, pkscript: Pkscript, overall: nat,
                    available: nat): map<Account, Balance>
    requires CanTake(balances, ticker, pkscript, overall, available)
  {
    var b := BalanceOf(balances, ticker, pkscript);
    balances[(ticker, pkscript) := Balance(b.overall - overall, b.available - available)]
  }

  /** The module does not take deposits of this ticker at this height: they are burned. */
  predicate BurnsDeposits(cfg: Config, height: int, originalTicker: string) {
    || (height < cfg.allTickersHeight && Utf8Length(originalTicker) < 6)
    || height < cfg.phaseOneHeight
    || !cfg.progEnabled
  }

  datatype Destination = ToSource | ToModule | Burned | ToPkscript(pkscript: Pkscript)

  /** Where a spent transfer goes. */
  function DestinationOf(cfg: Config, height: int, e: Event): Destination
    requires e.TransferTransfer?
  {
    var spent: Pkscript := if e.spentPkscript.Some? then e.spentPkscript.value else "";
    if spent == "" then ToSource
    else if spent == MODULE_PKSCRIPT then
      if BurnsDeposits(cfg, height, e.originalTicker) then Burned else ToModule
    else if spent == OP_RETURN then Burned
    else ToPkscript(spent)
  }

  function ProcessTransfer(cfg: Config, height: int, l: Ledger, e: Event): Result<Ledger>
    requires e.TransferTransfer?
  {
    match DestinationOf(cfg, height, e)
    case ToSource => Ok(l.(balances := AddTo(l.balances, e.ticker, e.sourcePkscript, 0, e.amount)))
    case ToModule =>
      if !CanTake(l.balances, e.ticker, e.sourcePkscript, e.amount, 0) then Err
      else
        var debited := TakeFrom(l.balances, e.ticker, e.sourcePkscript, e.amount, 0);
        Ok(l.(balances := AddTo(debited, e.ticker, MODULE_PKSCRIPT, e.amount, e.amount)))
    case Burned =>
      if !CanTake(l.balances, e.ticker, e.sourcePkscript, e.amount, 0) || e.ticker !in l.tickers then Err
      else
        var ticker := l.tickers[e.ticker];
        Ok(l.(balances := TakeFrom(l.balances, e.ticker, e.sourcePkscript, e.amount, 0),
              tickers := l.tickers[e.ticker := ticker.(burned := ticker.burned + e.amount)]))
    case ToPkscript(pk) =>
      if !CanTake(l.balances, e.ticker, e.sourcePkscript, e.amount, 0) then Err
      else
        var debited := TakeFrom(l.balances, e.ticker, e.sourcePkscript, e.amount, 0);
        Ok(l.(balances := AddTo(debited, e.ticker, pk, e.amount, e.amount)))
  }

  /** Withdrawing from the module; `granted` is the module's answer. */
  function ProcessWithdraw(l: Ledger, e: Event, granted: bool): Result<Ledger>
    requires e.WithdrawTransfer?
  {
    if e.spentPkscript.Some? && OP_RETURN <= e.spentPkscript.value then Ok(l)
    else if !granted then Ok(l)
    else if e.spentPkscript.None? then Err
    else if !CanTake(l.balances, e.ticker, MODULE_PKSCRIPT, e.amount, e.amount) then Err
    else
      var debited := TakeFrom(l.balances, e.ticker, MODULE_PKSCRIPT, e.amount, e.amount);
      Ok(l.(balances := AddTo(debited, e.ticker, e.spentPkscript.value, e.amount, e.amount)))
  }

  function Effect(cfg: Config, height: int, l: Ledger, rec: Rec, granted: bool): Result<Ledger> {
    var e := rec.event;
    match KindOf(e)
    case DeployKind =>
      if e.ticker in l.tickers then Err
      else Ok(l.(tickers := l.tickers[e.ticker := Ticker(e.originalTicker, e.maxSupply, e.maxSupply, 0, e.limitPerMint,
                                                         e.decimals, e.isSelfMint, height, rec.id)]))
    case MintKind =>
      if e.ticker !in l.tickers || l.tickers[e.ticker].remaining < e.amount then Err
      else
        var ticker := l.tickers[e.ticker];
        Ok(l.(tickers := l.tickers[e.ticker := ticker.(remaining := ticker.remaining - e.amount)],
              balances := AddTo(l.balances, e.ticker, e.mintedPkscript, e.amount, e.amount)))
    case InscribeKind =>
      if !CanTake(l.balances, e.ticker, e.sourcePkscript, 0, e.amount) then Err
      else Ok(l.(balances := TakeFrom(l.balances, e.ticker, e.sourcePkscript, 0, e.amount)))
    case TransferKind =>
      // an inscription that cannot be spent any more moves nothing
      if !CanSpend(l.log, InscribeKind, TransferKind, rec.id) then Ok(l) else ProcessTransfer(cfg, height, l, e)
    case WithdrawInscribeKind => Ok(l)
    case WithdrawTransferKind => ProcessWithdraw(l, e, granted)
  }

  /** Recording an event and processing it. */
  function Process(cfg: Config, height: int, l: Ledger, rec: Rec, granted: bool): Result<Ledger> {
    match Effect(cfg, height, l, rec, granted)
    case Err => Err
    case Ok(u) => Ok(u.(log := l.log + [rec]))
  }

  // ---------- generating an event ----------

  /** Skip: not a valid operation. Abort: an error that ends the block. */
  datatype Generated = Skip | Abort | Emit(rec: Rec)

  function Get(js: map<string, string>, key: string): Option<string> {
    if key in js then Some(js[key]) else None
  }

  predicate Has(js: map<string, string>, key: string, value: string) {
    Get(js, key) == Some(value)
  }

  predicate IsAlphanumericalOrDash(s: string) {
    forall i :: 0 <= i < |s| ==> IsDigit(s[i]) || 'a' <= s[i] <= 'z' || 'A' <= s[i] <= 'Z' || s[i] == '-'
  }

  predicate TickerLengthFits(cfg: Config, height: int, original: string) {
    var n := Utf8Length(original);
    n == 4 || n == 5 || (n == 6 && IsAlphanumericalOrDash(cfg.lower(original)) && height >= cfg.phaseOneHeight)
  }

  /** `dec`: absent means 18; else digits denoting at most 18. */
  function ReadDecimals(text: Option<string>): Option<Decimals> {
    match text
    case None => Some(18)
    case Some(s) => if s == "" || !AllDigits(s) || ParseNat(s) > 18 then None else Some(ParseNat(s))
  }

  function ReadAmount(text: Option<string>, decimals: Decimals, allowZero: bool): Result<nat> {
    match text
    case None => Err
    case Some(s) => AmountOf(s, decimals, allowZero)
  }

  /** What a predeploy commits to: the ticker, a salt and the script of the predeployer. */
  function SaltedTicker(cfg: Config, original: string, salt: string, pkscript: Pkscript): Option<seq<Byte>> {
    if cfg.unhex(salt).None? || cfg.unhex(pkscript).None? then None
    else Some(cfg.utf8(original) + cfg.unhex(salt).value + cfg.unhex(pkscript).value)
  }

  /** Does the parent inscription commit to the ticker, since at least three blocks? */
  predicate Committed(cfg: Config, height: int, tx: Tx, js: map<string, string>, original: string) {
    && "salt" in js && tx.parentId.Some? && cfg.predeploys(tx.parentId.value).Some?
    && var p := cfg.predeploys(tx.parentId.value).value;
    && p.height <= height - PREDEPLOY_BLOCK_HEIGHT_DELAY
    && SaltedTicker(cfg, original, js["salt"], p.pkscript).Some?
    && p.hash == cfg.digest(SaltedTicker(cfg, original, js["salt"], p.pkscript).value)
  }

  /** Whether the deploy may proceed, and whether minting is reserved to the deployer. */
  function SelfMintRule(cfg: Config, height: int, tx: Tx, js: map<string, string>, original: string): Option<bool> {
    var n := Utf8Length(original);
    if n == 5 then
      if height < cfg.selfMintHeight || !Has(js, "self_mint", "true") then None else Some(true)
    else if n == 6 then
      if height < cfg.phaseOneHeight || !Committed(cfg, height, tx, js, original) then None
      else Some(Has(js, "self_mint", "true"))
    else Some(false)
  }

  function GenerateDeploy(cfg: Config, l: Ledger, height: int, tx: Tx, js: map<string, string>,
                          original: string): Generated {
    var ticker := cfg.lower(original);
    var decimals := ReadDecimals(Get(js, "dec"));
    if ticker in l.tickers || decimals.None? then Skip
    else
      var maxSupply := ReadAmount(Get(js, "max"), decimals.value, true);
      var limit := ReadAmount(Get(js, "lim"), decimals.value, false);
      if maxSupply.Err? || (limit.Err? && "lim" in js) then Skip
      else
        match SelfMintRule(cfg, height, tx, js, original)
        case None => Skip
        case Some(isSelfMint) =>
          var limitPerMint := if limit.Ok? then limit.value else maxSupply.value;
          var unlimited := isSelfMint && maxSupply.value == 0;
          var supply := if unlimited then MAX_AMOUNT else maxSupply.value;
          if supply == 0 then Skip
          else Emit(Rec(tx.id, DeployInscribe(ticker, original, supply,
                                              if unlimited && limitPerMint == 0 then MAX_AMOUNT else limitPerMint,
                                              decimals.value, isSelfMint)))
  }

  function GenerateMint(cfg: Config, l: Ledger, tx: Tx, js: map<string, string>, ticker: string): Generated {
    if ticker !in l.tickers then Skip
    else
      var t := l.tickers[ticker];
      match ReadAmount(Get(js, "amt"), t.decimals, false)
      case Err => Skip
      case Ok(requested) =>
        if t.isSelfMint && tx.parentId != Some(t.deployId) then Skip
        else if t.remaining == 0 || requested > t.limitPerMint then Skip
        else
          var amount := if requested > t.remaining then t.remaining else requested;
          Emit(Rec(tx.id, MintInscribe(tx.newPkscript, ticker, amount)))
  }

  function SpentTo(tx: Tx): Option<Pkscript> {
    if tx.sentAsFee then None else Some(tx.newPkscript)
  }

  function GenerateTransfer(cfg: Config, l: Ledger, tx: Tx, js: map<string, string>, original: string): Generated {
    var ticker := cfg.lower(original);
    if ticker !in l.tickers then Skip
    else
      match ReadAmount(Get(js, "amt"), l.tickers[ticker].decimals, false)
      case Err => Skip
      case Ok(amount) =>
        if tx.oldSatpoint.None? then
          if BalanceOf(l.balances, ticker, tx.newPkscript).available < amount then Skip
          else Emit(Rec(tx.id, TransferInscribe(tx.newPkscript, ticker, amount)))
        else if !CanSpend(l.log, InscribeKind, TransferKind, tx.id) then Skip
        else
          var source := Find(l.log, InscribeKind, tx.id).value.sourcePkscript;
          Emit(Rec(tx.id, TransferTransfer(source, SpentTo(tx), ticker, original, amount)))
  }

  /** A withdrawal is inscribed, or spent once it was inscribed. */
  function WithdrawOf(l: Ledger, tx: Tx, ticker: string, amount: nat): Generated {
    if tx.oldSatpoint.None? then Emit(Rec(tx.id, WithdrawInscribe(tx.newPkscript, ticker, amount)))
    else if !CanSpend(l.log, WithdrawInscribeKind, WithdrawTransferKind, tx.id) then Abort
    else
      var source := Find(l.log, WithdrawInscribeKind, tx.id).value.sourcePkscript;
      Emit(Rec(tx.id, WithdrawTransfer(source, SpentTo(tx), ticker, amount)))
  }

  function GenerateWithdraw(cfg: Config, l: Ledger, tx: Tx, js: map<string, string>, original: string): Generated {
    var ticker := cfg.lower(original);
    if ticker !in l.tickers || !Has(js, "module", "BRC20PROG") || !cfg.progEnabled || !Has(js, "op", "withdraw") then
      Skip
    else
      match ReadAmount(Get(js, "amt"), l.tickers[ticker].decimals, false)
      case Err => Skip
      case Ok(amount) => WithdrawOf(l, tx, ticker, amount)
  }

  function Generate(cfg: Config, l: Ledger, height: int, tx: Tx): Generated {
    var js := cfg.content(tx.id);
    if tx.sentAsFee && (tx.oldSatpoint.None? || tx.oldSatpoint.value == "") then Skip
    else if !(Has(js, "p", "brc-20") || Has(js, "p", "brc20-module")) || "op" !in js then Skip
    // a predeploy records a commitment and touches no balance
    else if js["op"] == "predeploy" && tx.oldSatpoint.None? then Skip
    else if "tick" !in js then Skip
    else
      var original := js["tick"];
      if '\0' in original || '\0' in cfg.lower(original) || !TickerLengthFits(cfg, height, original) then Skip
      else if Has(js, "p", "brc20-module") then GenerateWithdraw(cfg, l, tx, js, original)
      else if js["op"] == "deploy" && tx.oldSatpoint.None? then GenerateDeploy(cfg, l, height, tx, js, original)
      else if js["op"] == "mint" && tx.oldSatpoint.None? then GenerateMint(cfg, l, tx, js, cfg.lower(original))
      else if js["op"] == "transfer" then GenerateTransfer(cfg, l, tx, js, original)
      else Skip
  }

  /** One transfer on a full node. */
  function Exec(cfg: Config, height: int, l: Ledger, tx: Tx, granted: bool): Result<Ledger> {
    match Generate(cfg, l, height, tx)
    case Skip => Ok(l)
    case Abort => Err
    case Emit(rec) => Process(cfg, height, l, rec, granted)
  }

}
