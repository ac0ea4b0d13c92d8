/** The wallet written beside a script is always the script's own address, so an account keeps one wallet. */
module Pow20Wallets {
  import opened Wrappers
  import opened Rows
  import opened Balances
  import opened Pow20Ledger
  import opened Pow20Blocks
  import opened Pow20Extras
  import F = ChainFollower
  import opened Pow20Run
  import opened Pow20Induction

  type Addresses = string -> Option<string>

  predicate RowAddressed(w: Addresses, r: Row<BalanceRec>) {
    r.value.wallet == w(r.value.pkscript)
  }

  /** Only inscribe events hand their source's wallet on. */
  predicate EventAddressed(w: Addresses, e: Event) {
    e.TransferInscribe? ==> e.sourceWallet == w(e.sourcePkscript)
  }

  predicate Addressed(w: Addresses, t: Tables) {
    && (forall r :: r in t.balances ==> RowAddressed(w, r))
    && (forall r :: r in t.events ==> EventAddressed(w, r.value.event))
  }

  /** What a decided step brings. */
  predicate StepAddressed(w: Addresses, s: Step) {
    !s.SpendToFee? ==> s.wallet == w(s.pkscript)
  }

  lemma DecidedAddressed(env: Env, t: Tables, height: int, tr: Transfer)
    ensures var d := Decide(env, t, height, tr); d.Commit? ==> CanApply(t, d.step) && StepAddressed(env.wallet, d.step)
  {
    DecideIsApplicable(env, t, height, tr);
  }

  lemma {:induction false} FoundAddressed(w: Addresses, rows: seq<Row<EventRec>>, id: string)
    requires forall r :: r in rows ==> EventAddressed(w, r.value.event)
    ensures var e := FindEvent(rows, InscribeKind, id); e.Some? ==> e.value.sourceWallet == w(e.value.sourcePkscript)
  {
    if rows != [] {
      assert rows[|rows| - 1] in rows;
      FoundAddressed(w, rows[..|rows| - 1], id);
    }
  }

  lemma NewRowsAddressed(w: Addresses, t: Tables, height: int, s: Step)
    requires Addressed(w, t) && CanApply(t, s) && StepAddressed(w, s)
    ensures forall r :: r in BalanceRowsOf(t, height, s) ==> RowAddressed(w, r)
  {
    FoundAddressed(w, t.events, s.inscriptionId);
  }

  lemma StepKeepsAddresses(w: Addresses, t: Tables, height: int, s: Step)
    requires Addressed(w, t) && CanApply(t, s) && StepAddressed(w, s)
    ensures Addressed(w, Apply(t, height, s))
  {
    NewRowsAddressed(w, t, height, s);
  }

  lemma AdvanceKeepsAddresses(env: Env, c: Cursor, height: int, tr: Transfer)
    requires Addressed(env.wallet, c.tables)
    ensures Addressed(env.wallet, Pow20Rules(env).advance(c, height, tr).cursor.tables)
  {
    DecidedAddressed(env, c.tables, height, tr);
    var d := Decide(env, c.tables, height, tr);
    if d.Commit? {
      StepKeepsAddresses(env.wallet, c.tables, height, d.step);
    }
  }

  /** In every replay each row carries its script's address, so accounts keep their wallets. */
  lemma ReplayWalletsFixed(env: Env, first: int, chain: seq<Block>, t: Tables)
    requires F.Replay(Pow20Machine(env, first), chain) == Some(t)
    ensures Addressed(env.wallet, t) && WalletsFixed(t.balances)
  {
    var P: Tables -> bool := t => Addressed(env.wallet, t);
    forall c: Cursor, height, tr ensures KeptAt(env, P, c, height, tr) {
      if P(c.tables) {
        AdvanceKeepsAddresses(env, c, height, tr);
      }
    }
    HoldsOfReplays(env, first, P, chain, t);
    forall i, j | 0 <= i < |t.balances| && 0 <= j < |t.balances| && AccountOf(t.balances[i]) == AccountOf(t.balances[j])
      ensures t.balances[i].value.wallet == t.balances[j].value.wallet {
      assert RowAddressed(env.wallet, t.balances[i]) && RowAddressed(env.wallet, t.balances[j]);
    }
  }

}
