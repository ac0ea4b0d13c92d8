/** How the derived tables come to be ahead of the main tables: a chain is left for another one, the main tables are
    rolled back by two blocks or more, and the first chain comes back. */
module Pow20Ahead {
  import opened Wrappers
  import opened Pow20Ledger
  import opened Pow20ExtraTables
  import opened Pow20ExtrasRun
  import F = ChainFollower
  import opened Pow20Run

  // ---------- the family ----------

  /** A pass that sees another chain, and one that sees the first chain again: the main tables have one block more than
      the fork, and so fewer blocks than before. */
  lemma LeftBehind(m: F.Machine, t: Tables, had: seq<Block>, away: F.Iteration, back: F.Iteration, fork: nat)
    requires F.Lawful(m) && F.Follows(m, t, had) && F.Linked(had, away.chain) && F.ForkAt(had, away.chain, fork)
    requires |had| < |away.chain| && 1 <= fork && fork + 1 < |had| <= fork + 9
    requires F.Unhindered(m, back) && had <= back.chain
    ensures var u := F.Iterate(m, F.Iterate(m, t, away), back);
            F.Replay(m, had[..fork + 1]) == Some(u) && u.blocks < m.repair(t).blocks
  {
    F.PassRollsBack(m, t, had, away, fork);
    assert away.chain[..fork] == had[..fork] == back.chain[..fork];
    F.PassIndexesNext(m, F.Iterate(m, t, away), back, fork);
    assert back.chain[..fork + 1] == had[..fork + 1];
    F.ReplayIsSettled(m, had, m.repair(t));
    F.ReplayIsSettled(m, had[..fork + 1], F.Iterate(m, F.Iterate(m, t, away), back));
  }

  /** Derived tables that were those of the first chain are then left alone, and are not those computed from scratch. */
  lemma StillAhead(x: ExtraTables, m: F.Machine, had: seq<Block>, chain: seq<Block>, u: Tables)
    requires KeepsTables(m) && m.first >= 0 && Tracks(x, m, had) && F.Replay(m, chain) == Some(u)
    requires chain < had && chain != [] && F.Linked(had, chain)
    ensures StartHeight(x.blocks, u.blocks, m.first) > LastHeight(u.blocks, m.first)
    ensures !FromScratch(x, u)
  {
    ReplayRows(m, chain, u);
    StartIsRight(x.blocks, u.blocks, m.first, had, chain);
    CheckedIsScratch(x, m, had, chain, u);
  }

  // ---------- an instance ----------

  function Plain(hash: string): Block {
    Block(hash, [])
  }

  const CHAIN := [Plain("a"), Plain("b"), Plain("c")]
  const OTHER := [Plain("a"), Plain("x"), Plain("y"), Plain("z")]

  /** Three passes index the chain, the fourth sees the other one, the fifth the first again. */
  const PASSES := [F.Iteration(CHAIN, 2), F.Iteration(CHAIN, 2), F.Iteration(CHAIN, 2), F.Iteration(OTHER, 2),
                   F.Iteration(CHAIN, 2)]

  lemma {:induction false} PlainReplays(env: Env, first: int, chain: seq<Block>)
    requires forall b :: b in chain ==> b.transfers == []
    ensures F.Replay(Pow20Machine(env, first), chain).Some?
  {
    if chain != [] {
      PlainReplays(env, first, chain[..|chain| - 1]);
    }
  }

  lemma PassesLinked()
    ensures F.AllLinked(PASSES) && F.ForkAt(CHAIN, OTHER, 1)
  {
    assert CHAIN[..1] == [Plain("a")] == OTHER[..1];
    assert F.Linked(CHAIN, OTHER) && F.Linked(OTHER, CHAIN);
  }

  lemma NextPass(m: F.Machine, k: nat)
    requires k < |PASSES|
    ensures F.RunLoop(m, PASSES[..k + 1]) == F.Iterate(m, F.RunLoop(m, PASSES[..k]), PASSES[k])
  {
    assert PASSES[..k + 1][..k] == PASSES[..k];
  }

  /** After k of the first three passes, k blocks of the chain are indexed. */
  lemma {:induction false} ChainIndexed(env: Env, first: int, k: nat)
    requires k <= 3
    ensures F.Replay(Pow20Machine(env, first), CHAIN[..k]) == Some(F.RunLoop(Pow20Machine(env, first), PASSES[..k]))
  {
    if k > 0 {
      var m := Pow20Machine(env, first);
      Pow20MachineIsLawful(env, first);
      PlainReplays(env, first, CHAIN);
      ChainIndexed(env, first, k - 1);
      F.ReplayFollows(m, CHAIN[..k - 1], F.RunLoop(m, PASSES[..k - 1]));
      F.PassIndexesNext(m, F.RunLoop(m, PASSES[..k - 1]), PASSES[k - 1], k - 1);
      NextPass(m, k - 1);
    }
  }

  /** A run of five passes that leaves the main tables with fewer blocks than they had after three. */
  lemma SuchARun(env: Env, first: int)
    ensures F.AllLinked(PASSES)
    ensures var m := Pow20Machine(env, first);
            && F.Replay(m, CHAIN) == Some(F.RunLoop(m, PASSES[..3]))
            && F.Replay(m, CHAIN[..2]) == Some(F.RunLoop(m, PASSES))
            && F.RunLoop(m, PASSES).blocks < F.RunLoop(m, PASSES[..3]).blocks
  {
    var m := Pow20Machine(env, first);
    var t := F.RunLoop(m, PASSES[..3]);
    Pow20MachineIsLawful(env, first);
    PassesLinked();
    PlainReplays(env, first, CHAIN);
    ChainIndexed(env, first, 3);
    assert CHAIN[..3] == CHAIN && PASSES[..5] == PASSES;
    F.ReplayFollows(m, CHAIN, t);
    assert m.repair(t) == t;
    LeftBehind(m, t, CHAIN, PASSES[3], PASSES[4], 1);
    NextPass(m, 3);
    NextPass(m, 4);
  }

  /** Derived tables that were checked after the third pass are ahead after the fifth. */
  lemma SuchTables(x: ExtraTables, env: Env, first: int)
    requires first >= 0 && FromScratch(x, F.RunLoop(Pow20Machine(env, first), PASSES[..3]))
    ensures !FromScratch(x, F.RunLoop(Pow20Machine(env, first), PASSES))
    ensures var t := F.RunLoop(Pow20Machine(env, first), PASSES);
            StartHeight(x.blocks, t.blocks, first) > LastHeight(t.blocks, first)
  {
    var m := Pow20Machine(env, first);
    Pow20KeepsTables(env, first);
    SuchARun(env, first);
    TrackedIsScratch(x, m, CHAIN, F.RunLoop(m, PASSES[..3]));
    assert F.Linked(CHAIN, CHAIN[..2]);
    StillAhead(x, m, CHAIN, CHAIN[..2], F.RunLoop(m, PASSES));
  }

}
