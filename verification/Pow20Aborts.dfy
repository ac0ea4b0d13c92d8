/** When a POW-20 block ends with an exception: exactly which transfers raise one, and what that means for a block. */
module Pow20Aborts {
  import opened Wrappers
  import opened Numerals
  import opened Amounts
  import opened Text
  import opened Balances
  import opened Pow20Ledger
  import opened Pow20Blocks

  /** A transfer that is looked at, with this operation. */
  predicate Requests(env: Env, tr: Transfer, op: string) {
    IsRelevant(env, tr) && env.content(tr.inscriptionId)["op"] == op
  }

  function TickOf(env: Env, tr: Transfer): string
    requires IsRelevant(env, tr)
  {
    env.lower(env.content(tr.inscriptionId)["tick"])
  }

  predicate ReadsAmount(js: map<string, string>, key: string, decimals: Decimals) {
    key in js && ReadAmount(js[key], decimals).Some?
  }

  predicate ReadsNumber(js: map<string, string>, key: string, low: int, high: int) {
    key in js && IsPositiveNumber(js[key]) && low <= ParseNat(js[key]) <= high
  }

  /** The fields a deploy must have. */
  predicate DescribesTicker(js: map<string, string>, height: int) {
    && ReadsNumber(js, "difficulty", 0, 64)
    && "startBlock" in js && IsPositiveNumber(js["startBlock"]) && ParseNat(js["startBlock"]) >= height
    && ("dec" in js ==> ReadsNumber(js, "dec", 0, 18))
    && var decimals := if "dec" in js then ParseNat(js["dec"]) else 18;
       ReadsAmount(js, "max", decimals) && ("lim" in js ==> ReadsAmount(js, "lim", decimals))
  }

  /** A deploy that passes every check: what is left is its insert. */
  predicate Deployable(env: Env, t: Tables, height: int, tr: Transfer) {
    && Requests(env, tr, "deploy") && tr.oldSatpoint == "" && TickOf(env, tr) !in t.tickers
    && DescribesTicker(env.content(tr.inscriptionId), height)
  }

  /** A mint request that reaches the ticker in memory. */
  predicate ReachesTicker(env: Env, t: Tables, tr: Transfer) {
    && Requests(env, tr, "mint") && tr.oldSatpoint == "" && "amt" in env.content(tr.inscriptionId)
    && TickOf(env, tr) in t.tickers
  }

  /** A mint of a ticker deployed in an earlier block that passes every check. */
  predicate Mintable(env: Env, t: Tables, height: int, tr: Transfer) {
    && ReachesTicker(env, t, tr)
    && var js, ticker := env.content(tr.inscriptionId), t.tickers[TickOf(env, tr)];
       && ticker.height != height && ticker.startingHeight <= height && ticker.remaining > 0
       && ReadsAmount(js, "amt", ticker.decimals) && ReadAmount(js["amt"], ticker.decimals).value <= ticker.limitPerMint
       && "solution" in js && SolutionFits(env, t, tr, TickOf(env, tr), js["solution"])
  }

  /** The inscribing of a transfer that passes every check. */
  predicate Inscribable(env: Env, t: Tables, tr: Transfer) {
    && Requests(env, tr, "transfer") && tr.oldSatpoint == "" && TickOf(env, tr) in t.tickers
    && var js, decimals := env.content(tr.inscriptionId), t.tickers[TickOf(env, tr)].decimals;
       && ReadsAmount(js, "amt", decimals)
       && ReadAmount(js["amt"], decimals).value <= BalanceOf(t.balances, tr.newPkscript, TickOf(env, tr)).available
  }

  /** The mint of a ticker that was deployed in the same block. */
  predicate MintsInSameBlock(env: Env, t: Tables, height: int, tr: Transfer) {
    ReachesTicker(env, t, tr) && t.tickers[TickOf(env, tr)].height == height
  }

  /** A deploy whose starting block does not fit the column. */
  predicate StartsTooLate(env: Env, t: Tables, height: int, tr: Transfer) {
    Deployable(env, t, height, tr) && ParseNat(env.content(tr.inscriptionId)["startBlock"]) > INT4_MAX
  }

  /** An accepted operation whose event would be the inscription's second of its kind. */
  predicate Repeats(env: Env, t: Tables, height: int, tr: Transfer) {
    || (Deployable(env, t, height, tr) && CountEvents(t.events, DeployKind, tr.inscriptionId) > 0)
    || (Mintable(env, t, height, tr) && CountEvents(t.events, MintKind, tr.inscriptionId) > 0)
    || (Inscribable(env, t, tr) && CountEvents(t.events, InscribeKind, tr.inscriptionId) > 0)
  }

  lemma DeployAborts(env: Env, t: Tables, height: int, tr: Transfer)
    requires Requests(env, tr, "deploy") && tr.oldSatpoint == ""
    ensures DecideDeploy(env, t, height, tr, TickOf(env, tr)).Abort? <==>
              || StartsTooLate(env, t, height, tr)
              || (Deployable(env, t, height, tr) && CountEvents(t.events, DeployKind, tr.inscriptionId) > 0)
  {
  }

  lemma MintAborts(env: Env, t: Tables, height: int, tr: Transfer)
    requires Requests(env, tr, "mint") && tr.oldSatpoint == ""
    ensures DecideMint(env, t, height, tr, TickOf(env, tr)).Abort? <==>
              || MintsInSameBlock(env, t, height, tr)
              || (Mintable(env, t, height, tr) && CountEvents(t.events, MintKind, tr.inscriptionId) > 0)
  {
  }

  lemma InscribeAborts(env: Env, t: Tables, tr: Transfer)
    requires Requests(env, tr, "transfer")
    ensures DecideTransfer(env, t, tr, TickOf(env, tr)).Abort? <==>
              Inscribable(env, t, tr) && CountEvents(t.events, InscribeKind, tr.inscriptionId) > 0
  {
  }

  /** A transfer raises an exception if and only if it mints a ticker deployed in the same block, deploys with a
      starting block beyond the column, or repeats an operation of its inscription. */
  lemma AbortsExactly(env: Env, c: Cursor, height: int, tr: Transfer)
    ensures Pow20Rules(env).advance(c, height, tr).aborted <==>
              || MintsInSameBlock(env, c.tables, height, tr)
              || StartsTooLate(env, c.tables, height, tr)
              || Repeats(env, c.tables, height, tr)
  {
    DecideIsApplicable(env, c.tables, height, tr);
    if Requests(env, tr, "deploy") && tr.oldSatpoint == "" {
      DeployAborts(env, c.tables, height, tr);
    } else if Requests(env, tr, "mint") && tr.oldSatpoint == "" {
      MintAborts(env, c.tables, height, tr);
    } else if Requests(env, tr, "transfer") {
      InscribeAborts(env, c.tables, tr);
    }
  }

  /** An inscription is created once: what inscribes has no events yet. */
  predicate FirstOfItsId(t: Tables, tr: Transfer) {
    tr.oldSatpoint == "" ==>
      && CountEvents(t.events, DeployKind, tr.inscriptionId) == 0
      && CountEvents(t.events, MintKind, tr.inscriptionId) == 0
      && CountEvents(t.events, InscribeKind, tr.inscriptionId) == 0
  }

  /** Then only the first two reasons remain. */
  lemma FirstNeverRepeats(env: Env, c: Cursor, height: int, tr: Transfer)
    requires FirstOfItsId(c.tables, tr)
    ensures Pow20Rules(env).advance(c, height, tr).aborted <==>
              MintsInSameBlock(env, c.tables, height, tr) || StartsTooLate(env, c.tables, height, tr)
  {
    AbortsExactly(env, c, height, tr);
  }

  /** The transfer that ends a block, given the state it meets. */
  ghost predicate EndsBlock(rules: Rules, t: Tables, height: int, transfers: seq<Transfer>, i: int) {
    && 0 <= i < |transfers|
    && var p := RunTransfers(rules, t, height, transfers[..i]);
       !p.aborted && rules.advance(p.cursor, height, transfers[i]).aborted
  }

  /** A block is not indexed if and only if one of its transfers raises an exception where the others have led. */
  lemma {:induction false} BlockAborts(rules: Rules, t: Tables, height: int, block: Block)
    ensures IndexBlock(rules, t, height, block).None? <==> exists i :: EndsBlock(rules, t, height, block.transfers, i)
  {
    TransfersAbort(rules, t, height, block.transfers);
  }

  lemma {:induction false} TransfersAbort(rules: Rules, t: Tables, height: int, transfers: seq<Transfer>)
    ensures RunTransfers(rules, t, height, transfers).aborted <==> exists i :: EndsBlock(rules, t, height, transfers, i)
  {
    if transfers != [] {
      var front, n := transfers[..|transfers| - 1], |transfers| - 1;
      TransfersAbort(rules, t, height, front);
      forall i | 0 <= i < n
        ensures EndsBlock(rules, t, height, front, i) <==> EndsBlock(rules, t, height, transfers, i) {
        assert front[..i] == transfers[..i];
      }
      if RunTransfers(rules, t, height, front).aborted {
        var i :| EndsBlock(rules, t, height, front, i);
        assert EndsBlock(rules, t, height, transfers, i);
      } else {
        assert EndsBlock(rules, t, height, transfers, n) <==> RunTransfers(rules, t, height, transfers).aborted;
      }
    }
  }

  /** Whatever the tables: a block that deploys a ticker and then asks to mint it is not indexed, and no pass gets
      beyond it. */
  lemma DeployThenMint(env: Env, t: Tables, height: int, hash: string, deploy: Transfer, mint: Transfer)
    requires Deployable(env, t, height, deploy) && FirstOfItsId(t, deploy) && !StartsTooLate(env, t, height, deploy)
    requires Requests(env, mint, "mint") && mint.oldSatpoint == "" && "amt" in env.content(mint.inscriptionId)
    requires TickOf(env, mint) == TickOf(env, deploy)
    ensures IndexBlock(Pow20Rules(env), t, height, Block(hash, [deploy, mint])) == None
  {
    DeployGoesThrough(env, t, height, deploy);
    var c := Advance(env, Cursor(t, ""), height, deploy).cursor;
    AbortsExactly(env, c, height, mint);
    TwoTransfers(Pow20Rules(env), t, height, deploy, mint);
  }

  lemma DeployGoesThrough(env: Env, t: Tables, height: int, deploy: Transfer)
    requires Deployable(env, t, height, deploy) && FirstOfItsId(t, deploy) && !StartsTooLate(env, t, height, deploy)
    ensures var p, tick := Advance(env, Cursor(t, ""), height, deploy), TickOf(env, deploy);
            !p.aborted && tick in p.cursor.tables.tickers && p.cursor.tables.tickers[tick].height == height
  {
    DecideIsApplicable(env, t, height, deploy);
  }

  lemma TwoTransfers(rules: Rules, t: Tables, height: int, a: Transfer, b: Transfer)
    ensures var p := rules.advance(Cursor(t, ""), height, a);
            RunTransfers(rules, t, height, [a, b]) == if p.aborted then p else rules.advance(p.cursor, height, b)
  {
    assert [a, b][..1] == [a] && [a][..0] == [];
    assert RunTransfers(rules, t, height, []) == Progress(Cursor(t, ""), false);
    assert RunTransfers(rules, t, height, [a]) == rules.advance(Cursor(t, ""), height, a);
  }

  // ---------- such a block ----------

  const DEPLOY_CONTENT: map<string, string>
    := map["op" := "deploy", "tick" := "abcd", "max" := "9", "difficulty" := "1", "startBlock" := "7"]
  const MINT_CONTENT: map<string, string> := map["op" := "mint", "tick" := "abcd", "amt" := "1"]

  const DEPLOY := Transfer(1, "d", "", "51", false, Some("text/plain"))
  const MINT := Transfer(2, "m", "", "51", false, Some("text/plain"))

  /** Only the contents matter, and that lower-casing leaves the ticker. */
  predicate Names(env: Env) {
    env.content("d") == DEPLOY_CONTENT && env.content("m") == MINT_CONTENT && env.lower("abcd") == "abcd"
  }

  lemma FourLetters()
    ensures Utf8Length("abcd") == 4
  {
    assert "abcd"[..3] == "abc" && "abc"[..2] == "ab" && "ab"[..1] == "a" && "a"[..0] == "";
    assert Utf8Length("a") == 1;
    assert Utf8Length("ab") == 2;
    assert Utf8Length("abc") == 3;
  }

  lemma PlainText()
    ensures SplitOn("text/plain", ';')[0] == "text/plain"
  {
    NoSeparator("text/plain", ';');
  }

  lemma {:induction false} NoSeparator(s: string, c: char)
    requires c !in s
    ensures SplitOn(s, c) == [s]
  {
    if s != "" {
      NoSeparator(s[1..], c);
      assert [s[0]] + s[1..] == s;
    }
  }

  lemma OneDigit(c: char)
    requires IsDigit(c)
    ensures IsPositiveNumber([c]) && ParseNat([c]) == DigitValue(c)
    ensures DigitValue(c) > 0 ==> ReadAmount([c], 18) == Some(DigitValue(c) * 1000000000000000000)
  {
    assert [c][..0] == "";
    assert FindDot([c][1..]) == 0;
    assert FindDot([c]) == 1;
    assert Whole([c]) == [c];
  }

  lemma DeployIsRelevant(env: Env)
    requires Names(env)
    ensures IsRelevant(env, DEPLOY) && TickOf(env, DEPLOY) == "abcd"
  {
    FourLetters();
    PlainText();
  }

  lemma MintIsRelevant(env: Env)
    requires Names(env)
    ensures IsRelevant(env, MINT) && TickOf(env, MINT) == "abcd"
  {
    FourLetters();
    PlainText();
  }

  lemma NamesAreRelevant(env: Env)
    requires Names(env)
    ensures IsRelevant(env, DEPLOY) && IsRelevant(env, MINT) && TickOf(env, DEPLOY) == TickOf(env, MINT) == "abcd"
  {
    DeployIsRelevant(env);
    MintIsRelevant(env);
  }

  lemma ContentReads()
    ensures DescribesTicker(DEPLOY_CONTENT, 7) && ParseNat(DEPLOY_CONTENT["startBlock"]) == 7
  {
    OneDigit('1');
    OneDigit('7');
    OneDigit('9');
    assert DEPLOY_CONTENT["difficulty"] == ['1'] && DEPLOY_CONTENT["startBlock"] == ['7'];
    assert DEPLOY_CONTENT["max"] == ['9'];
    assert "dec" !in DEPLOY_CONTENT && "lim" !in DEPLOY_CONTENT;
  }

  lemma NamesDeploy(env: Env)
    requires Names(env)
    ensures Deployable(env, EMPTY_TABLES, 7, DEPLOY) && !StartsTooLate(env, EMPTY_TABLES, 7, DEPLOY)
  {
    NamesAreRelevant(env);
    ContentReads();
  }

  /** A block that no POW-20 indexer gets beyond: it deploys a ticker and mints it. */
  lemma SuchABlock(env: Env, hash: string)
    requires Names(env)
    ensures IndexBlock(Pow20Rules(env), EMPTY_TABLES, 7, Block(hash, [DEPLOY, MINT])) == None
  {
    NamesAreRelevant(env);
    NamesDeploy(env);
    DeployThenMint(env, EMPTY_TABLES, 7, hash, DEPLOY, MINT);
  }

}
