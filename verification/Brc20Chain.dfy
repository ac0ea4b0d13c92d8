/** Two nodes over a chain of blocks: a full node that generates events and a light node that is given them, with
    caches cleared before every thousandth block, and either process dying in any block, as often as it likes, before or
    behind the flush of the block, and starting again. */
module Brc20Chain {
  import opened Wrappers
  import opened Sequences
  import opened Rows
  import opened Brc20Ledger
  import opened Brc20Invariants
  import opened Brc20Run
  import opened Brc20Database
  import opened Brc20Store
  import opened Brc20LightNode
  import opened Brc20Deaths
  import opened Brc20Restart

  /** After how many transfers or events of a block a process dies, or behind its flush. A deposit refused by the light
      node's module ends its process too. */
  datatype Death = InBlock(after: nat) | BehindFlush

  /** The deaths of both nodes before they get the block done. */
  datatype Block = Block(height: int, steps: seq<Step>, fullDeaths: seq<Death>, lightDeaths: seq<Death>)

  /** Failed: the full node ended a block with an error. Astray: a process died behind a flush and started again with
      another ledger. */
  datatype Outcome = Done | Failed | FullAstray | LightAstray

  function StepsOf(b: Block): seq<Step> {
    b.steps
  }

  function AllSteps(blocks: seq<Block>): seq<Step> {
    Flat(blocks, StepsOf)
  }

  predicate InOrder(blocks: seq<Block>) {
    && (forall i :: 0 <= i < |blocks| ==> blocks[i].height >= 0)
    && (forall i, j :: 0 <= i < j < |blocks| ==> blocks[i].height < blocks[j].height)
    && forall i, k :: 0 <= i < |blocks| && 0 <= k < |blocks[i].steps| ==> blocks[i].steps[k].height == blocks[i].height
  }

  lemma WaitingLater(db: Store, cfg: Config, rows: seq<Row<Rec>>, height: int, later: int)
    requires Waiting(db, cfg, rows, height) && height <= later
    ensures Waiting(db, cfg, rows, later)
  {
  }

  /** One of the deaths leads a node that has ledger `l` astray: behind a flush, when the block burns something of an
      older ticker, or is the block at height 0, whose residue is not found. */
  predicate Strays(cfg: Config, l: Ledger, height: int, steps: seq<Step>, deaths: seq<Death>) {
    BehindFlush in deaths && (height == 0 || !BurnsNothing(cfg, l, height, steps))
  }

  lemma StillOnWay(cfg: Config, l: Ledger, height: int, steps: seq<Step>, deaths: seq<Death>, i: nat)
    requires i < |deaths| && !Strays(cfg, l, height, steps, deaths[..i])
    requires deaths[i] == BehindFlush ==> height != 0 && BurnsNothing(cfg, l, height, steps)
    ensures !Strays(cfg, l, height, steps, deaths[..i + 1])
  {
    assert deaths[..i + 1] == deaths[..i] + [deaths[i]];
  }

  /** The full node's attempts at a block. */
  method Attempts(db: Store, cfg: Config, height: int, steps: seq<Step>, deaths: seq<Death>, rows: seq<Row<Rec>>)
    returns (outcome: Outcome, left: seq<Row<Rec>>)
    requires height >= 0 && Waiting(db, cfg, rows, height) && Indexable(cfg, db.View(), height, steps)
    modifies db
    ensures outcome != LightAstray && (outcome.Failed? ==> Run(cfg, old(db.View()), steps).Err?)
    ensures outcome.Done? ==> Waiting(db, cfg, left, height) && db.View() == old(db.View())
    ensures outcome.Done? ==> !Strays(cfg, old(db.View()), height, steps, deaths)
    ensures outcome.FullAstray? ==>
              Run(cfg, old(db.View()), steps).Ok? && Strays(cfg, old(db.View()), height, steps, deaths)
    ensures outcome.FullAstray? ==> WentAstray(db, cfg, old(db.View()), height, steps)
  {
    ghost var l := db.View();
    left := rows;
    for i := 0 to |deaths|
      invariant Waiting(db, cfg, left, height) && db.View() == l && !Strays(cfg, l, height, steps, deaths[..i])
    {
      match deaths[i] {
        case InBlock(after) =>
          DieInBlock(db, cfg, height, steps, after);
        case BehindFlush =>
          var tickers := db.tickers;
          var ok;
          ok, left := DieAfterFlush(db, cfg, height, steps, left);
          if !ok {
            return Failed, left;
          }
          if height == 0 || db.tickers != tickers {
            return FullAstray, left;
          }
      }
      StillOnWay(cfg, l, height, steps, deaths, i);
    }
    assert deaths[..|deaths|] == deaths;
    return Done, left;
  }

  /** The light node's attempts at the events of a block. */
  method LightAttempts(db: Store, cfg: Config, height: int, ghost steps: seq<Step>, records: seq<Published>,
                       deaths: seq<Death>, rows: seq<Row<Rec>>)
    returns (outcome: Outcome, left: seq<Row<Rec>>)
    requires height >= 0 && Waiting(db, cfg, rows, height) && Indexable(cfg, db.View(), height, steps)
    requires Run(cfg, db.View(), steps).Ok? && records == Publications(cfg, db.View(), steps)
    modifies db
    ensures outcome.Done? || outcome.LightAstray?
    ensures outcome.Done? ==> Waiting(db, cfg, left, height) && db.View() == old(db.View())
    ensures outcome.LightAstray? <==> Strays(cfg, old(db.View()), height, steps, deaths)
    ensures outcome.LightAstray? ==> WentAstray(db, cfg, old(db.View()), height, steps)
  {
    ghost var l := db.View();
    left := rows;
    PublishedReplays(cfg, l, steps);
    PublishedHeights(cfg, l, steps, height);
    for i := 0 to |deaths|
      invariant Waiting(db, cfg, left, height) && db.View() == l && !Strays(cfg, l, height, steps, deaths[..i])
    {
      match deaths[i] {
        case InBlock(after) =>
          DieInEvents(db, cfg, height, records, after);
        case BehindFlush =>
          var tickers := db.tickers;
          left := DieAfterEvents(db, cfg, height, steps, records, left);
          if height == 0 || db.tickers != tickers {
            return LightAstray, left;
          }
      }
      StillOnWay(cfg, l, height, steps, deaths, i);
    }
    assert deaths[..|deaths|] == deaths;
    return Done, left;
  }

  /** What a node that went astray has: the ledger from before the block but for what the block burns, which is burned
      already; at height 0 the ledger from after the block, which it is going to index again. */
  ghost predicate WentAstray(db: Store, cfg: Config, l: Ledger, height: int, steps: seq<Step>)
    reads db
  {
    if height == 0 then Run(cfg, l, steps) == Ok(db.View())
    else db.View() == BurnedAhead(cfg, l, height, steps) && db.View() != l
  }

  /** A block at which one of the nodes goes astray. */
  predicate LeadsAstray(cfg: Config, l: Ledger, b: Block) {
    && Run(cfg, l, b.steps).Ok?
    && (Strays(cfg, l, b.height, b.steps, b.fullDeaths) || Strays(cfg, l, b.height, b.steps, b.lightDeaths))
  }

  /** What both nodes have after a block that started with ledger `l`. */
  ghost predicate Followed(full: Store, light: Store, cfg: Config, l: Ledger, b: Block, outcome: Outcome)
    reads full, light
  {
    match outcome
    case Done => Run(cfg, l, b.steps) == Ok(full.View()) && full.View() == light.View() && Inv(cfg, full.View())
    case Failed => Run(cfg, l, b.steps).Err?
    case FullAstray => WentAstray(full, cfg, l, b.height, b.steps) && light.View() == l
    case LightAstray => WentAstray(light, cfg, l, b.height, b.steps) && Run(cfg, l, b.steps) == Ok(full.View())
  }

  /** The attempt of the full node that does not fail. */
  method FinishBlock(db: Store, cfg: Config, height: int, steps: seq<Step>, rows: seq<Row<Rec>>)
    returns (ok: bool, written: seq<Row<Rec>>)
    requires Waiting(db, cfg, rows, height) && Indexable(cfg, db.View(), height, steps)
    modifies db
    ensures Run(cfg, old(db.View()), steps) == if ok then Ok(db.View()) else Err
    ensures ok ==> Waiting(db, cfg, written, height + 1) && Inv(cfg, db.View())
  {
    ghost var before := OnDisk(db, rows);
    ok, written := IndexFlushed(db, cfg, height, steps, rows);
    if ok {
      BlockSettles(cfg, before, OnDisk(db, written), height, steps);
    }
  }

  /** And of the light node. */
  method FinishEvents(db: Store, cfg: Config, height: int, ghost steps: seq<Step>, records: seq<Published>,
                      rows: seq<Row<Rec>>)
    returns (written: seq<Row<Rec>>)
    requires Waiting(db, cfg, rows, height) && Indexable(cfg, db.View(), height, steps)
    requires Run(cfg, db.View(), steps).Ok? && records == Publications(cfg, db.View(), steps)
    modifies db
    ensures Run(cfg, old(db.View()), steps) == Ok(db.View()) && Waiting(db, cfg, written, height + 1)
  {
    ghost var before := OnDisk(db, rows);
    written := ProcessFlushed(db, cfg, height, steps, records, rows);
    BlockSettles(cfg, before, OnDisk(db, written), height, steps);
  }

  /** The block on the full node: attempts that fail, then one that does not. */
  method FullBlock(db: Store, cfg: Config, b: Block, rows: seq<Row<Rec>>)
    returns (outcome: Outcome, records: seq<Published>, left: seq<Row<Rec>>)
    requires b.height >= 0 && Indexable(cfg, db.View(), b.height, b.steps) && Waiting(db, cfg, rows, b.height)
    modifies db
    ensures outcome != LightAstray && (outcome.Failed? <==> Run(cfg, old(db.View()), b.steps).Err?)
    ensures outcome.FullAstray? ==> Strays(cfg, old(db.View()), b.height, b.steps, b.fullDeaths)
    ensures outcome.FullAstray? ==> WentAstray(db, cfg, old(db.View()), b.height, b.steps)
    ensures outcome.Done? ==> !Strays(cfg, old(db.View()), b.height, b.steps, b.fullDeaths)
    ensures outcome.Done? ==> Run(cfg, old(db.View()), b.steps) == Ok(db.View()) && Inv(cfg, db.View())
    ensures outcome.Done? ==>
              Waiting(db, cfg, left, b.height + 1) && records == Publications(cfg, old(db.View()), b.steps)
  {
    outcome, left := Attempts(db, cfg, b.height, b.steps, b.fullDeaths, rows);
    records := [];
    if outcome.Done? {
      Prepare(db, cfg, b.height);
      records := Publications(cfg, Ledger(db.tickers, BalanceMap(db.balanceTable + db.balanceUpdates),
                                          db.eventTable + db.eventInserts), b.steps);
      var ok;
      ok, left := FinishBlock(db, cfg, b.height, b.steps, left);
      if !ok {
        outcome := Failed;
      }
    }
  }

  /** The block on the light node, given the events of the full node. */
  method LightBlock(db: Store, cfg: Config, b: Block, records: seq<Published>, rows: seq<Row<Rec>>)
    returns (outcome: Outcome, left: seq<Row<Rec>>)
    requires b.height >= 0 && Indexable(cfg, db.View(), b.height, b.steps) && Waiting(db, cfg, rows, b.height)
    requires Run(cfg, db.View(), b.steps).Ok? && records == Publications(cfg, db.View(), b.steps)
    modifies db
    ensures outcome.Done? || outcome.LightAstray?
    ensures outcome.LightAstray? <==> Strays(cfg, old(db.View()), b.height, b.steps, b.lightDeaths)
    ensures outcome.LightAstray? ==> WentAstray(db, cfg, old(db.View()), b.height, b.steps)
    ensures outcome.Done? ==> Run(cfg, old(db.View()), b.steps) == Ok(db.View()) && Waiting(db, cfg, left, b.height + 1)
  {
    outcome, left := LightAttempts(db, cfg, b.height, b.steps, records, b.lightDeaths, rows);
    if outcome.Done? {
      Prepare(db, cfg, b.height);
      left := FinishEvents(db, cfg, b.height, b.steps, records, left);
    }
  }

  /** One block on both nodes. */
  method FollowBlock(full: Store, light: Store, cfg: Config, b: Block, rows: seq<Row<Rec>>, lightRows: seq<Row<Rec>>)
    returns (outcome: Outcome, left: seq<Row<Rec>>, lightLeft: seq<Row<Rec>>)
    requires full != light && b.height >= 0 && full.View() == light.View()
    requires Indexable(cfg, full.View(), b.height, b.steps)
    requires Waiting(full, cfg, rows, b.height) && Waiting(light, cfg, lightRows, b.height)
    modifies full, light
    ensures Followed(full, light, cfg, old(full.View()), b, outcome)
    ensures outcome.FullAstray? || outcome.LightAstray? <==> LeadsAstray(cfg, old(full.View()), b)
    ensures outcome.Done? ==> Waiting(full, cfg, left, b.height + 1) && Waiting(light, cfg, lightLeft, b.height + 1)
  {
    var records;
    lightLeft := lightRows;
    outcome, records, left := FullBlock(full, cfg, b, rows);
    if outcome.Done? {
      outcome, lightLeft := LightBlock(light, cfg, b, records, lightRows);
    }
  }

  /** What is left of a valid run after the first i blocks. */
  lemma BlocksLeft(cfg: Config, start: Ledger, blocks: seq<Block>, i: nat)
    requires i < |blocks| && ValidRun(cfg, start, AllSteps(blocks)) && Run(cfg, start, AllSteps(blocks[..i])).Ok?
    ensures var l := Run(cfg, start, AllSteps(blocks[..i])).value;
            && ValidRun(cfg, l, blocks[i].steps)
            && Run(cfg, start, AllSteps(blocks[..i + 1])) == Run(cfg, l, blocks[i].steps)
  {
    var before, here := AllSteps(blocks[..i]), blocks[i].steps;
    var later := StepsBefore(blocks, i + 1);
    FlatPush(blocks, i, StepsOf);
    ValidInParts(cfg, start, before + here, later);
    ValidInParts(cfg, start, before, here);
    RunInParts(cfg, start, before, here);
  }

  lemma {:induction false} StepsBefore(blocks: seq<Block>, i: nat) returns (later: seq<Step>)
    requires i <= |blocks|
    ensures AllSteps(blocks) == AllSteps(blocks[..i]) + later
    decreases |blocks| - i
  {
    if i == |blocks| {
      assert blocks[..i] == blocks;
      later := [];
    } else {
      var rest := StepsBefore(blocks, i + 1);
      FlatPush(blocks, i, StepsOf);
      Associates(AllSteps(blocks[..i]), blocks[i].steps, rest);
      later := blocks[i].steps + rest;
    }
  }

  /** Block i is one at which a node goes astray. */
  predicate AstrayAt(cfg: Config, start: Ledger, blocks: seq<Block>, i: nat)
    requires i < |blocks|
  {
    var before := Run(cfg, start, AllSteps(blocks[..i]));
    before.Ok? && LeadsAstray(cfg, before.value, blocks[i])
  }

  lemma AstrayNowhereElse(cfg: Config, start: Ledger, blocks: seq<Block>, i: nat)
    requires i < |blocks| && Run(cfg, start, AllSteps(blocks[..i + 1])).Err?
    ensures Run(cfg, start, AllSteps(blocks)).Err?
    ensures forall j :: i < j < |blocks| ==> !AstrayAt(cfg, start, blocks, j)
  {
    forall j | i < j <= |blocks| ensures Run(cfg, start, AllSteps(blocks[..j])).Err? {
      var later := StepsBefore(blocks[..j], i + 1);
      assert blocks[..j][..i + 1] == blocks[..i + 1];
      ErrorsStay(cfg, start, AllSteps(blocks[..i + 1]), later);
    }
    assert blocks[..|blocks|] == blocks;
  }

  ghost predicate Astray(cfg: Config, start: Ledger, blocks: seq<Block>, n: nat)
    requires n <= |blocks|
  {
    exists i :: 0 <= i < n && AstrayAt(cfg, start, blocks, i)
  }

  lemma AstrayBefore(cfg: Config, start: Ledger, blocks: seq<Block>, n: nat)
    requires n < |blocks|
    ensures Astray(cfg, start, blocks, n + 1) <==> Astray(cfg, start, blocks, n) || AstrayAt(cfg, start, blocks, n)
  {
  }

  /** The outcome of a chain that both nodes followed up to block `at`. */
  ghost predicate ChainFollowed(full: Store, light: Store, cfg: Config, start: Ledger, blocks: seq<Block>,
                                outcome: Outcome, at: nat)
    reads full, light
  {
    match outcome
    case Done =>
      && !Astray(cfg, start, blocks, |blocks|)
      && Run(cfg, start, AllSteps(blocks)) == Ok(full.View()) && full.View() == light.View() && Inv(cfg, full.View())
    case Failed => !Astray(cfg, start, blocks, |blocks|) && Run(cfg, start, AllSteps(blocks)).Err?
    case _ =>
      && at < |blocks| && !Astray(cfg, start, blocks, at) && AstrayAt(cfg, start, blocks, at)
      && Followed(full, light, cfg, Run(cfg, start, AllSteps(blocks[..at])).value, blocks[at], outcome)
  }

  /** Between two blocks of the chain. */
  ghost predicate OnTheWay(full: Store, light: Store, cfg: Config, start: Ledger, blocks: seq<Block>, at: nat,
                           rows: seq<Row<Rec>>, lightRows: seq<Row<Rec>>)
    requires at <= |blocks|
    reads full, light
  {
    && full.View() == light.View() && Inv(cfg, full.View()) && !Astray(cfg, start, blocks, at)
    && Run(cfg, start, AllSteps(blocks[..at])) == Ok(full.View())
    && (at < |blocks| ==> Waiting(full, cfg, rows, blocks[at].height))
    && (at < |blocks| ==> Waiting(light, cfg, lightRows, blocks[at].height))
  }

  lemma AtStart(full: Store, light: Store, cfg: Config, blocks: seq<Block>, rows: seq<Row<Rec>>,
                lightRows: seq<Row<Rec>>)
    requires full.View() == light.View() && Inv(cfg, full.View())
    requires blocks != [] ==>
               Waiting(full, cfg, rows, blocks[0].height) && Waiting(light, cfg, lightRows, blocks[0].height)
    ensures OnTheWay(full, light, cfg, full.View(), blocks, 0, rows, lightRows)
  {
  }

  lemma AtEnd(full: Store, light: Store, cfg: Config, start: Ledger, blocks: seq<Block>, rows: seq<Row<Rec>>,
              lightRows: seq<Row<Rec>>)
    requires OnTheWay(full, light, cfg, start, blocks, |blocks|, rows, lightRows)
    ensures ChainFollowed(full, light, cfg, start, blocks, Done, |blocks|)
  {
    assert blocks[..|blocks|] == blocks;
  }

  lemma AstrayOutcome(full: Store, light: Store, cfg: Config, start: Ledger, blocks: seq<Block>, outcome: Outcome,
                      at: nat)
    requires ChainFollowed(full, light, cfg, start, blocks, outcome, at)
    ensures outcome.FullAstray? || outcome.LightAstray? <==> Astray(cfg, start, blocks, |blocks|)
  {
  }

  /** The next block of the chain on both nodes. */
  method FollowNext(full: Store, light: Store, cfg: Config, ghost start: Ledger, blocks: seq<Block>, at: nat,
                    rows: seq<Row<Rec>>, lightRows: seq<Row<Rec>>)
    returns (outcome: Outcome, left: seq<Row<Rec>>, lightLeft: seq<Row<Rec>>)
    requires full != light && InOrder(blocks) && ValidRun(cfg, start, AllSteps(blocks)) && at < |blocks|
    requires OnTheWay(full, light, cfg, start, blocks, at, rows, lightRows)
    modifies full, light
    ensures if outcome.Done? then OnTheWay(full, light, cfg, start, blocks, at + 1, left, lightLeft)
            else ChainFollowed(full, light, cfg, start, blocks, outcome, at)
  {
    BlocksLeft(cfg, start, blocks, at);
    AstrayBefore(cfg, start, blocks, at);
    outcome, left, lightLeft := FollowBlock(full, light, cfg, blocks[at], rows, lightRows);
    if outcome.Failed? {
      AstrayNowhereElse(cfg, start, blocks, at);
    } else if outcome.Done? && at + 1 < |blocks| {
      WaitingLater(full, cfg, left, blocks[at].height + 1, blocks[at + 1].height);
      WaitingLater(light, cfg, lightLeft, blocks[at].height + 1, blocks[at + 1].height);
    }
  }

  /** Over any chain of blocks, wherever processes die and whenever caches are cleared: unless one of them dies behind
      the flush of a block that burns something of an older ticker, both nodes stand for the ledger of one uninterrupted
      run; and that ledger is sound, so supply is conserved and nothing is spent twice. Otherwise the node is astray by
      exactly what that block burns. `at` is the last block they got to. */
  method FollowChain(full: Store, light: Store, cfg: Config, blocks: seq<Block>, rows: seq<Row<Rec>>,
                     lightRows: seq<Row<Rec>>)
    returns (outcome: Outcome, at: nat)
    requires full != light && full.View() == light.View() && Inv(cfg, full.View()) && InOrder(blocks)
    requires blocks != [] ==>
               Waiting(full, cfg, rows, blocks[0].height) && Waiting(light, cfg, lightRows, blocks[0].height)
    requires ValidRun(cfg, full.View(), AllSteps(blocks))
    modifies full, light
    ensures ChainFollowed(full, light, cfg, old(full.View()), blocks, outcome, at)
    ensures outcome.FullAstray? || outcome.LightAstray? <==> Astray(cfg, old(full.View()), blocks, |blocks|)
  {
    ghost var start := full.View();
    var left, lightLeft := rows, lightRows;
    at, outcome := 0, Done;
    AtStart(full, light, cfg, blocks, rows, lightRows);
    while at < |blocks| && outcome.Done?
      invariant 0 <= at <= |blocks|
      invariant if outcome.Done? then OnTheWay(full, light, cfg, start, blocks, at, left, lightLeft)
                else ChainFollowed(full, light, cfg, start, blocks, outcome, at)
      decreases |blocks| - at, if outcome.Done? then 1 else 0
    {
      outcome, left, lightLeft := FollowNext(full, light, cfg, start, blocks, at, left, lightLeft);
      if outcome.Done? {
        at := at + 1;
      }
    }
    if outcome.Done? {
      AtEnd(full, light, cfg, start, blocks, left, lightLeft);
    }
    AstrayOutcome(full, light, cfg, start, blocks, outcome, at);
  }

  /** A node with empty tables. */
  method NewNode(ghost cfg: Config, ghost height: int) returns (db: Store)
    ensures fresh(db) && db.View() == EMPTY_LEDGER && Waiting(db, cfg, [], height)
  {
    db := new Store(height);
    RestingIsStored(db, cfg, height);
  }

  /** Two nodes that start with empty tables. */
  method FollowFromStart(cfg: Config, blocks: seq<Block>) returns (full: Store, light: Store, outcome: Outcome, at: nat)
    requires InOrder(blocks) && ValidRun(cfg, EMPTY_LEDGER, AllSteps(blocks))
    ensures ChainFollowed(full, light, cfg, EMPTY_LEDGER, blocks, outcome, at)
    ensures outcome.FullAstray? || outcome.LightAstray? <==> Astray(cfg, EMPTY_LEDGER, blocks, |blocks|)
  {
    ghost var since := if blocks == [] then 0 else blocks[0].height;
    full := NewNode(cfg, since);
    light := NewNode(cfg, since);
    outcome, at := FollowChain(full, light, cfg, blocks, [], []);
  }

}
