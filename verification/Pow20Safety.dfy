/** What the POW-20 ledger keeps over whole runs. */
module Pow20Safety {
  import opened Wrappers
  import opened Balances
  import opened Pow20Ledger
  import opened Pow20Blocks
  import opened Pow20Regular
  import opened Pow20Locked
  import opened Pow20Supply
  import opened Pow20Units
  import F = ChainFollower
  import opened Pow20Run

  /** Supply is conserved, every quantity is in units, no inscription was transferred twice or without being inscribed,
      and the locked part of every balance is what was inscribed and not yet sent. */
  ghost predicate Sound(t: Tables) {
    && InUnits(t)
    && (forall tick :: tick in t.tickers ==> Accounted(t.tickers[tick], Held(t.balances, tick)))
    && (forall id :: CountEvents(t.events, TransferKind, id) <= CountEvents(t.events, InscribeKind, id) <= 1)
    && (forall pk, tick :: LocksAt(t, pk, tick))
  }

  predicate LocksAt(t: Tables, pk: string, tick: string) {
    var b := BalanceOf(t.balances, pk, tick);
    0 <= b.available <= b.overall && b.overall - b.available == Locked(t.events, pk, tick)
  }

  lemma ReplayIsSound(env: Env, first: int, chain: seq<Block>, t: Tables)
    requires F.Replay(Pow20Machine(env, first), chain) == Some(t)
    ensures Sound(t)
  {
    ReplayIsRegular(env, first, chain, t);
    ReplayIsInUnits(env, first, chain, t);
    forall tick | tick in t.tickers ensures Accounted(t.tickers[tick], Held(t.balances, tick)) {
      SupplyIsConserved(env, first, chain, t, tick);
    }
    forall id ensures CountEvents(t.events, TransferKind, id) <= CountEvents(t.events, InscribeKind, id) <= 1 {
      AtMostOnce(t.events, id);
    }
    forall pk, tick ensures LocksAt(t, pk, tick) {
      LocksAreBacked(env, first, chain, t, pk, tick);
    }
  }

  /** Over every run of the main loop, with crashes and reorganizations, the tables are sound whenever a block starts
      to be indexed. */
  lemma RunsKeepTheLedger(env: Env, first: int, its: seq<F.Iteration>, chain: seq<Block>)
    requires F.RunReaches(Pow20Machine(env, first), its, chain)
    ensures Sound(Pow20Machine(env, first).repair(F.RunLoop(Pow20Machine(env, first), its)))
  {
    var m := Pow20Machine(env, first);
    var t := m.repair(F.RunLoop(m, its));
    Pow20MachineIsLawful(env, first);
    F.RunIsSafe(m, its, chain);
    ReplayIsSound(env, first, chain[..CurrentBlock(t, first) - first], t);
  }

}
