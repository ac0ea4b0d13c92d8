/** The block at whose height the swap module is refunded: the refunds, then the block's transfers, then one flush; but
    a block without transfers returns before the flush, and a process that dies then loses the refunds for good, because
    the block's row is written all the same. */
module Brc20RefundBlock {
  import opened Wrappers
  import opened Brc20Ledger
  import opened Brc20Invariants
  import opened Brc20Run
  import opened Brc20Store
  import opened Brc20FullNode
  import opened Brc20Refund
  import opened Brc20Deaths

  /** What the refund needs of the ledger. */
  ghost predicate Refundable(cfg: Config, plan: Plan, l: Ledger) {
    Encodes(plan, l.tickers) && Targets(plan) && forall t :: t in l.tickers ==> Unused(cfg, plan, l.log, t)
  }

  /** The transfers are valid whatever the order in which the tickers were refunded. */
  ghost predicate ValidAfterRefund(cfg: Config, plan: Plan, before: Ledger, steps: seq<Step>) {
    forall l :: AfterRefund(cfg, plan, before, l) ==> ValidRun(cfg, l, steps)
  }

  /** What the block makes of the ledger: the refund, then the run of its transfers. */
  ghost predicate RefundedRun(cfg: Config, plan: Plan, before: Ledger, steps: seq<Step>, after: Ledger) {
    exists l :: AfterRefund(cfg, plan, before, l) && Run(cfg, l, steps) == Ok(after)
  }

  method IndexRefundBlock(db: Store, cfg: Config, height: int, plan: Plan, steps: seq<Step>) returns (ok: bool)
    requires Resting(db, cfg, height) && Inv(cfg, db.View()) && Refundable(cfg, plan, db.View())
    requires ValidAfterRefund(cfg, plan, db.View(), steps) && forall i :: 0 <= i < |steps| ==> steps[i].height == height
    modifies db
    ensures ok ==> AllFree(plan, old(db.View().balances))
    ensures ok ==> db.Valid(cfg) && RefundedRun(cfg, plan, old(db.View()), steps, db.View())
    ensures ok && steps != [] ==> db.NothingPending()
    ensures steps == [] ==> (ok <==> AllFree(plan, old(db.View().balances))) && Stored(db) == old(db.View())
    ensures steps == [] ==> db.balanceTable == old(db.balanceTable)
  {
    ghost var before := db.View();
    RestingIsStored(db, cfg, height);
    ok := GenerateAndProcessRefunds(db, cfg, height, plan);
    if !ok {
      return;
    }
    ghost var l := db.View();
    if |steps| == 0 {
      assert Run(cfg, l, steps) == Ok(db.View());
      return;
    }
    ok := IndexTransfersOf(db, cfg, height, plan, steps, before, l);
  }

  /** The transfers of the block, on the refunded ledger. */
  method IndexTransfersOf(db: Store, cfg: Config, height: int, ghost plan: Plan, steps: seq<Step>, ghost before: Ledger,
                          ghost l: Ledger)
    returns (ok: bool)
    requires db.Valid(cfg) && db.RowsUpTo(height) && db.View() == l && AfterRefund(cfg, plan, before, l)
    requires ValidAfterRefund(cfg, plan, before, steps) && forall i :: 0 <= i < |steps| ==> steps[i].height == height
    modifies db
    ensures ok ==> db.Valid(cfg) && RefundedRun(cfg, plan, before, steps, db.View())
    ensures ok && steps != [] ==> db.NothingPending()
  {
    ok := IndexBlock(db, cfg, height, steps);
  }

  /** A refund block without transfers, and a process that dies before the next flush: nothing of the refund is left. */
  method DieAfterRefund(db: Store, cfg: Config, height: int, plan: Plan)
    requires Resting(db, cfg, height) && Inv(cfg, db.View()) && Refundable(cfg, plan, db.View())
    modifies db
    ensures Resting(db, cfg, height) && db.View() == old(db.View())
  {
    RestingIsStored(db, cfg, height);
    var _ := IndexRefundBlock(db, cfg, height, plan, []);
    Reborn(db, cfg, height);
  }

  ghost predicate SameBalances(a: map<Account, Balance>, b: map<Account, Balance>) {
    forall t, pk :: BalanceOf(a, t, pk) == BalanceOf(b, t, pk)
  }

  ghost predicate HoldsNothing(balances: map<Account, Balance>, pk: Pkscript) {
    forall t :: BalanceOf(balances, t, pk) == ZERO
  }

  /** The ledger that was lost differs from the one that is left if and only if the swap module held something. */
  lemma RefundIsLost(cfg: Config, plan: Plan, before: Ledger, l: Ledger)
    requires AfterRefund(cfg, plan, before, l) && Targets(plan)
    ensures SameBalances(l.balances, before.balances) <==> HoldsNothing(before.balances, plan.source)
  {
    if SameBalances(l.balances, before.balances) {
      forall t ensures BalanceOf(before.balances, t, plan.source) == ZERO {
        assert RefundedSoFar(plan, before.balances, l.balances, {t}, t, plan.source);
      }
    }
    if HoldsNothing(before.balances, plan.source) {
      forall t, pk ensures BalanceOf(l.balances, t, pk) == BalanceOf(before.balances, t, pk) {
        assert RefundedSoFar(plan, before.balances, l.balances, {t}, t, pk);
        assert BalanceOf(before.balances, t, plan.source) == ZERO;
      }
    }
  }

}
