/** The POW-20 indexer follows a chain safely. */
module Pow20Run {
  import opened Pow20Ledger
  import opened Pow20Rollback
  import opened Pow20Blocks
  import F = ChainFollower

  function Pow20Machine(env: Env, first: int): F.Machine {
    F.Machine(first,
              (t, height, block) => IndexBlock(Pow20Rules(env), t, height, block),
              (t, height, block, stop: nat) => StateAt(Pow20Rules(env), t, height, block, stop),
              t => ResidueCheck(t, first), Rollback, (t, next) => Settled(t, first, next))
  }

  lemma Pow20RepairsCrashes(env: Env, first: int)
    ensures F.RepairsCrashes(Pow20Machine(env, first))
  {
    var m := Pow20Machine(env, first);
    Pow20IsLawful(env);
    forall t, height, block, stop | m.settled(t, height) && !F.Finishes(m, t, height, block, stop)
      ensures m.repair(m.stateAt(t, height, block, stop)) == t {
      CrashIsRepaired(Pow20Rules(env), t, first, height, block, stop);
    }
  }

  lemma Pow20IndexingSettles(env: Env, first: int)
    ensures F.IndexingSettles(Pow20Machine(env, first))
  {
    var m := Pow20Machine(env, first);
    Pow20IsLawful(env);
    forall t, height, block: Block ensures F.SettlesAt(m, t, height, block) {
      if m.settled(t, height) && m.index(t, height, block).Some? {
        IndexedIsSettled(Pow20Rules(env), t, first, height, block);
      }
    }
  }

  lemma Pow20RollbackUndoes(env: Env, first: int)
    ensures F.RollbackUndoes(Pow20Machine(env, first))
  {
    var m := Pow20Machine(env, first);
    Pow20IsLawful(env);
    forall t, height, block, h | h < height && m.index(t, height, block).Some?
      ensures m.rollback(m.index(t, height, block).value, h) == m.rollback(t, h) {
      IndexBlockAbsorbed(Pow20Rules(env), t, height, block, h);
    }
  }

  lemma Pow20SettledRests(env: Env, first: int)
    ensures F.SettledRests(Pow20Machine(env, first))
  {
    var m := Pow20Machine(env, first);
    forall t, next | m.settled(t, next)
      ensures m.repair(t) == t && m.rollback(t, next - 1) == t && CurrentBlock(t, first) == next {
      SettledHasNoResidue(t, first, next);
      RollbackOfBounded(t, next - 1);
    }
  }

  lemma Pow20FinishedIsIndexed(env: Env, first: int)
    ensures F.FinishedIsIndexed(Pow20Machine(env, first))
  {
  }

  lemma Pow20MachineIsLawful(env: Env, first: int)
    ensures F.Lawful(Pow20Machine(env, first))
  {
    Pow20FinishedIsIndexed(env, first);
    Pow20RepairsCrashes(env, first);
    Pow20IndexingSettles(env, first);
    Pow20RollbackUndoes(env, first);
    Pow20SettledRests(env, first);
  }

  /** Whole-run safety of the POW-20 indexer, crashes and reorgs included. */
  lemma Pow20RunsAreSafe(env: Env, first: int)
    ensures F.SafeRuns(Pow20Machine(env, first))
  {
    Pow20MachineIsLawful(env, first);
    F.LawfulMachinesAreSafe(Pow20Machine(env, first));
  }

  /** Progress of the POW-20 indexer: uninterrupted passes over a chain bring the tables to a replay of it exactly
      when at most nine indexed blocks left it, the first not among them, and the chain is the longer one. */
  lemma Pow20PassesReach(env: Env, first: int, t: Tables, indexed: seq<Block>, it: F.Iteration, fork: nat, k: nat)
    requires var m := Pow20Machine(env, first); F.Unhindered(m, it) && F.Follows(m, t, indexed)
    requires F.Linked(indexed, it.chain) && F.ForkAt(indexed, it.chain, fork) && k > |it.chain|
    ensures var m := Pow20Machine(env, first);
            F.Follows(m, F.Passes(m, t, it, k), it.chain) <==> F.CanReach(indexed, it.chain, fork)
  {
    Pow20MachineIsLawful(env, first);
    F.PassesReach(Pow20Machine(env, first), t, indexed, it, fork, k);
  }

}
