/** Induction over POW-20 replays: what every transfer keeps holds of every replay. */
module Pow20Induction {
  import opened Wrappers
  import opened Pow20Ledger
  import opened Pow20Rollback
  import opened Pow20Blocks
  import opened Pow20Regular
  import F = ChainFollower
  import opened Pow20Run

  /** The property holds of empty tables, is kept by every transfer, and does not look at hashes and block rows. */
  ghost predicate Inductive(env: Env, P: Tables -> bool) {
    && P(EMPTY_TABLES)
    && (forall c: Cursor, height, tr :: KeptAt(env, P, c, height, tr))
    && (forall t, hashes, blocks :: P(t) ==> P(t.(hashes := hashes, blocks := blocks)))
  }

  ghost predicate KeptAt(env: Env, P: Tables -> bool, c: Cursor, height: int, tr: Transfer) {
    Regular(c.tables) && Bounded(c.tables, height) && P(c.tables) ==>
      P(Pow20Rules(env).advance(c, height, tr).cursor.tables)
  }

  lemma {:induction false} TransfersKeep(env: Env, P: Tables -> bool, t: Tables, height: int, transfers: seq<Transfer>)
    requires Inductive(env, P) && P(t) && Regular(t) && Bounded(t, height)
    ensures P(RunTransfers(Pow20Rules(env), t, height, transfers).cursor.tables)
  {
    if transfers != [] {
      var front, tr := transfers[..|transfers| - 1], transfers[|transfers| - 1];
      TransfersKeep(env, P, t, height, front);
      TransfersKeepRegular(env, t, height, front);
      assert KeptAt(env, P, RunTransfers(Pow20Rules(env), t, height, front).cursor, height, tr);
    }
  }

  lemma BlockKeeps(env: Env, P: Tables -> bool, t: Tables, height: int, block: Block)
    requires Inductive(env, P) && P(t) && Regular(t) && Bounded(t, height - 1)
    requires IndexBlock(Pow20Rules(env), t, height, block).Some?
    ensures P(IndexBlock(Pow20Rules(env), t, height, block).value)
  {
    TransfersKeep(env, P, t, height, block.transfers);
    var c, u := RunTransfers(Pow20Rules(env), t, height, block.transfers).cursor, IndexBlock(Pow20Rules(env), t, height,
                                                                                             block).value;
    assert u == c.tables.(hashes := u.hashes, blocks := u.blocks);
  }

  /** Indexing a block keeps the property on settled, regular tables. */
  ghost predicate BlocksKeep(m: F.Machine, P: Tables -> bool) {
    forall t, height, block :: m.settled(t, height) && Regular(t) && P(t) && m.index(t, height, block).Some? ==>
      P(m.index(t, height, block).value)
  }

  lemma {:induction false} ReplayKeeps(m: F.Machine, P: Tables -> bool, chain: seq<Block>, t: Tables)
    requires F.Lawful(m) && KeepsRegular(m) && BlocksKeep(m, P) && P(EMPTY_TABLES) && F.Replay(m, chain) == Some(t)
    ensures P(t)
  {
    if chain != [] {
      var front := chain[..|chain| - 1];
      var before := F.Replay(m, front).value;
      ReplayKeeps(m, P, front, before);
      RegularReplay(m, front, before);
      F.ReplayIsSettled(m, front, before);
    }
  }

  /** The induction principle. */
  lemma HoldsOfReplays(env: Env, first: int, P: Tables -> bool, chain: seq<Block>, t: Tables)
    requires Inductive(env, P) && F.Replay(Pow20Machine(env, first), chain) == Some(t)
    ensures P(t)
  {
    var m := Pow20Machine(env, first);
    Pow20MachineIsLawful(env, first);
    Pow20KeepsRegular(env, first);
    forall t, height, block | m.settled(t, height) && Regular(t) && P(t) && m.index(t, height, block).Some?
      ensures P(m.index(t, height, block).value) {
      BlockKeeps(env, P, t, height, block);
    }
    ReplayKeeps(m, P, chain, t);
  }

}
