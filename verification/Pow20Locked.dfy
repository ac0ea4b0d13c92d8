/** The locked part of every POW-20 balance: overall less available is exactly what the account has inscribed for
    transfer and not yet sent, and what is available is never negative. */
module Pow20Locked {
  import opened Wrappers
  import opened Rows
  import opened Balances
  import opened Pow20Ledger
  import opened Pow20Rollback
  import opened Pow20Blocks
  import opened Pow20Regular
  import F = ChainFollower
  import opened Pow20Run
  import opened Pow20Induction

  // ---------- the amount locked in unspent transfers ----------

  predicate InscribedBy(e: Event, pk: string, tick: string) {
    e.TransferInscribe? && e.sourcePkscript == pk && e.tick == tick
  }

  function Weight(r: EventRec, all: seq<Row<EventRec>>, pk: string, tick: string): nat {
    if InscribedBy(r.event, pk, tick) && CountEvents(all, TransferKind, r.inscriptionId) == 0 then r.event.amount else 0
  }

  /** The amounts of the inscribe events in `rows` that have no transfer event in `all`. */
  function LockedIn(rows: seq<Row<EventRec>>, all: seq<Row<EventRec>>, pk: string, tick: string): nat {
    if rows == [] then 0
    else LockedIn(rows[..|rows| - 1], all, pk, tick) + Weight(rows[|rows| - 1].value, all, pk, tick)
  }

  function Locked(events: seq<Row<EventRec>>, pk: string, tick: string): nat {
    LockedIn(events, events, pk, tick)
  }

  /** Recording anything but a transfer leaves old weights alone. */
  lemma {:induction false} LockedUnspent(rows: seq<Row<EventRec>>, all: seq<Row<EventRec>>, r: Row<EventRec>,
                                         pk: string, tick: string)
    requires KindOf(r.value.event) != TransferKind
    ensures LockedIn(rows, all + [r], pk, tick) == LockedIn(rows, all, pk, tick)
  {
    if rows != [] {
      LockedUnspent(rows[..|rows| - 1], all, r, pk, tick);
      CountPush(all, r, TransferKind, rows[|rows| - 1].value.inscriptionId);
    }
  }

  function WeightOf(e: Option<Event>, pk: string, tick: string): nat {
    if e.Some? && InscribedBy(e.value, pk, tick) then e.value.amount else 0
  }

  /** Spending an inscription releases exactly its own amount. */
  lemma {:induction false} LockedSpent(rows: seq<Row<EventRec>>, all: seq<Row<EventRec>>, r: Row<EventRec>, pk: string,
                                       tick: string)
    requires KindOf(r.value.event) == TransferKind && SpentOnce(rows)
    requires CountEvents(all, TransferKind, r.value.inscriptionId) == 0
    ensures LockedIn(rows, all + [r], pk, tick) + WeightOf(FindEvent(rows, InscribeKind, r.value.inscriptionId), pk,
                                                           tick)
              == LockedIn(rows, all, pk, tick)
  {
    if rows != [] {
      LockedSpent(rows[..|rows| - 1], all, r, pk, tick);
      CountPush(all, r, TransferKind, rows[|rows| - 1].value.inscriptionId);
    }
  }

  // ---------- balances ----------

  predicate BackedAt(t: Tables, pk: string, tick: string) {
    var b := BalanceOf(t.balances, pk, tick);
    b.available >= 0 && b.overall - b.available == Locked(t.events, pk, tick)
  }

  ghost predicate Backed(t: Tables) {
    forall pk, tick :: BackedAt(t, pk, tick)
  }

  /** Reading an unspent inscription again gives the event that was recorded for it. */
  predicate Rereads(env: Env, t: Tables, r: EventRec) {
    r.event.TransferInscribe? && CountEvents(t.events, TransferKind, r.inscriptionId) == 0 ==>
      var js, e := env.content(r.inscriptionId), r.event;
      && "tick" in js && "amt" in js && e.tick == env.lower(js["tick"]) && e.tick in t.tickers
      && ReadAmount(js["amt"], t.tickers[e.tick].decimals) == Some(e.amount)
  }

  predicate AllReread(env: Env, t: Tables) {
    forall r :: r in t.events ==> Rereads(env, t, r.value)
  }

  ghost predicate Inv(env: Env, t: Tables) {
    Backed(t) && AllReread(env, t)
  }

  /** A row appended for an account adjusts its balance, and no other's. */
  lemma AppendAdjusts(rows: seq<Row<BalanceRec>>, pk: string, wallet: Option<string>, tick: string, overallBy: int,
                      availableBy: int, height: int, p: string, k: string)
    requires AllUpTo(rows, height)
    ensures var row := AdjustedRow(BalanceOf(rows, pk, tick), pk, wallet, tick, overallBy, availableBy, height);
            var b := BalanceOf(rows, p, k);
            && BalanceOf(rows + [row], p, k)
               == (if p == pk && k == tick then Balance(b.overall + overallBy, b.available + availableBy) else b)
            && AllUpTo(rows + [row], height)
  {
    NewestPush(rows, AdjustedRow(BalanceOf(rows, pk, tick), pk, wallet, tick, overallBy, availableBy, height), p, k);
  }

  lemma MoveAdjusts(rows: seq<Row<BalanceRec>>, source: string, sourceWallet: Option<string>, spent: string,
                    spentWallet: Option<string>, tick: string, amount: nat, height: int, p: string, k: string)
    requires AllUpTo(rows, height)
    ensures var b := BalanceOf(rows, p, k);
            var after := BalanceOf(rows + MovedRows(rows, source, sourceWallet, spent, spentWallet, tick, amount,
                                                    height), p, k);
            && after.available == b.available + (if p == spent && k == tick then amount else 0)
            && after.overall - after.available
               == b.overall - b.available - (if p == source && k == tick then amount else 0)
  {
    var debit := AdjustedRow(BalanceOf(rows, source, tick), source, sourceWallet, tick, 0 - amount, 0, height);
    var mid := rows + [debit];
    var credit := AdjustedRow(BalanceOf(mid, spent, tick), spent, spentWallet, tick, amount, amount, height);
    var moved := MovedRows(rows, source, sourceWallet, spent, spentWallet, tick, amount, height);
    MovedOneByOne(rows, source, sourceWallet, spent, spentWallet, tick, amount, height);
    assert rows + moved == mid + [credit];
    Debited(rows, mid, debit, sourceWallet, amount, p, k);
    Credited(mid, rows + moved, credit, spentWallet, amount, p, k);
  }

  /** A debit takes the amount from what is locked. */
  lemma Debited(rows: seq<Row<BalanceRec>>, after: seq<Row<BalanceRec>>, row: Row<BalanceRec>, wallet: Option<string>,
                amount: nat,
                p: string, k: string)
    requires AllUpTo(rows, row.height) && after == rows + [row]
    requires var (pk, tick) := (row.value.pkscript, row.value.tick);
             row == AdjustedRow(BalanceOf(rows, pk, tick), pk, wallet, tick, 0 - amount, 0, row.height)
    ensures var b, b' := BalanceOf(rows, p, k), BalanceOf(after, p, k);
            && AllUpTo(after, row.height) && b'.available == b.available
            && b'.overall == b.overall - if p == row.value.pkscript && k == row.value.tick then amount else 0
  {
    AppendAdjusts(rows, row.value.pkscript, wallet, row.value.tick, 0 - amount, 0, row.height, p, k);
  }

  /** A credit adds the amount to what is free. */
  lemma Credited(rows: seq<Row<BalanceRec>>, after: seq<Row<BalanceRec>>, row: Row<BalanceRec>, wallet: Option<string>,
                 amount: nat,
                 p: string, k: string)
    requires AllUpTo(rows, row.height) && after == rows + [row]
    requires var (pk, tick) := (row.value.pkscript, row.value.tick);
             row == AdjustedRow(BalanceOf(rows, pk, tick), pk, wallet, tick, amount, amount, row.height)
    ensures var b, b' := BalanceOf(rows, p, k), BalanceOf(after, p, k);
            var gain := if p == row.value.pkscript && k == row.value.tick then amount else 0;
            b' == Balance(b.overall + gain, b.available + gain)
  {
    AppendAdjusts(rows, row.value.pkscript, wallet, row.value.tick, amount, amount, row.height, p, k);
  }

  /** What a step unlocks: the amount of the transfer it spends, at its source. */
  function UnlockedBy(t: Tables, s: Step, p: string, k: string): nat
    requires CanApply(t, s)
  {
    match s
    case Move(id, _, _, tick, amount, _) =>
      if FindEvent(t.events, InscribeKind, id).value.sourcePkscript == p && tick == k then amount else 0
    case SpendToFee(id, tick, amount, _) =>
      if FindEvent(t.events, InscribeKind, id).value.sourcePkscript == p && tick == k then amount else 0
    case _ => 0
  }

  function LockedBy(s: Step, p: string, k: string): nat {
    if s.Inscribe? && s.pkscript == p && s.tick == k then s.amount else 0
  }

  /** How a step changes the difference of overall and available. */
  lemma StepAdjusts(t: Tables, height: int, s: Step, p: string, k: string)
    requires CanApply(t, s) && AllUpTo(t.balances, height)
    ensures var b, after := BalanceOf(t.balances, p, k), BalanceOf(t.balances + BalanceRowsOf(t, height, s), p, k);
            && after.overall - after.available == b.overall - b.available + LockedBy(s, p, k) - UnlockedBy(t, s, p, k)
            && after.available >= b.available - LockedBy(s, p, k)
  {
    match s
    case Deploy(_, _, _, _, _, _, _, _, _) => assert t.balances + [] == t.balances;
    case Mint(_, pk, wallet, tick, amount, _) => AppendAdjusts(t.balances, pk, wallet, tick, amount, amount, height, p,
                                                               k);
    case Inscribe(_, pk, wallet, tick, amount) => AppendAdjusts(t.balances, pk, wallet, tick, 0, 0 - amount, height, p,
                                                                k);
    case Move(id, pk, wallet, tick, amount, _) =>
      var e := FindEvent(t.events, InscribeKind, id).value;
      MoveAdjusts(t.balances, e.sourcePkscript, e.sourceWallet, pk, wallet, tick, amount, height, p, k);
    case SpendToFee(id, tick, amount, _) =>
      var e := FindEvent(t.events, InscribeKind, id).value;
      AppendAdjusts(t.balances, e.sourcePkscript, e.sourceWallet, tick, 0, amount, height, p, k);
  }

  // ---------- steps ----------

  /** A step that spends names the ticker and the amount that were inscribed. */
  predicate Spends(t: Tables, s: Step) {
    s.Move? || s.SpendToFee? ==>
      && CountEvents(t.events, TransferKind, s.inscriptionId) == 0
      && var e := FindEvent(t.events, InscribeKind, s.inscriptionId);
         e.Some? && e.value.tick == s.tick && e.value.amount == s.amount
  }

  /** A step that inscribes locks no more than is available, and is the first of its inscription. */
  predicate Affords(t: Tables, s: Step) {
    s.Inscribe? ==>
      && s.amount <= BalanceOf(t.balances, s.pkscript, s.tick).available
      && CountEvents(t.events, TransferKind, s.inscriptionId) == 0
  }

  lemma StepLocks(t: Tables, height: int, s: Step, p: string, k: string)
    requires CanApply(t, s) && SpentOnce(t.events) && Spends(t, s) && Affords(t, s)
    ensures Locked(Apply(t, height, s).events, p, k)
              == Locked(t.events, p, k) + LockedBy(s, p, k) - UnlockedBy(t, s, p, k)
  {
    var r := Row(height, EventRec(s.inscriptionId, EventOf(t, s)));
    assert (t.events + [r])[..|t.events|] == t.events;
    CountPush(t.events, r, TransferKind, s.inscriptionId);
    if KindOf(r.value.event) == TransferKind {
      LockedSpent(t.events, t.events, r, p, k);
    } else {
      LockedUnspent(t.events, t.events, r, p, k);
    }
  }

  lemma StepBacks(t: Tables, height: int, s: Step)
    requires Backed(t) && CanApply(t, s) && SpentOnce(t.events) && AllUpTo(t.balances, height) && Spends(t, s)
    requires Affords(t, s)
    ensures Backed(Apply(t, height, s))
  {
    forall p, k ensures BackedAt(Apply(t, height, s), p, k) {
      assert BackedAt(t, p, k);
      StepAdjusts(t, height, s, p, k);
      StepLocks(t, height, s, p, k);
    }
  }

  /** A new inscribe event reads back as it was read. */
  predicate NewRereads(env: Env, t: Tables, s: Step) {
    s.Inscribe? ==>
      var js := env.content(s.inscriptionId);
      && "tick" in js && "amt" in js && s.tick == env.lower(js["tick"]) && s.tick in t.tickers
      && ReadAmount(js["amt"], t.tickers[s.tick].decimals) == Some(s.amount)
  }

  lemma StepRereads(env: Env, t: Tables, height: int, s: Step)
    requires AllReread(env, t) && CanApply(t, s) && NewRereads(env, t, s)
    ensures AllReread(env, Apply(t, height, s))
  {
    var after := Apply(t, height, s);
    var row := Row(height, EventRec(s.inscriptionId, EventOf(t, s)));
    forall r | r in after.events ensures Rereads(env, after, r.value) {
      CountPush(t.events, row, TransferKind, r.value.inscriptionId);
      if r in t.events {
        assert Rereads(env, t, r.value);
      }
    }
  }

  lemma {:induction false} FoundIsThere(rows: seq<Row<EventRec>>, kind: Kind, id: string) returns (r: Row<EventRec>)
    requires FindEvent(rows, kind, id).Some?
    ensures r in rows && r.value == EventRec(id, FindEvent(rows, kind, id).value)
  {
    r := rows[|rows| - 1];
    if !(KindOf(r.value.event) == kind && r.value.inscriptionId == id) {
      r := FoundIsThere(rows[..|rows| - 1], kind, id);
    }
  }

  /** Re-reading the inscription when it is spent gives what was locked, because its content has not changed. */
  lemma DecidedSpends(env: Env, t: Tables, height: int, tr: Transfer)
    requires AllReread(env, t)
    ensures var d := Decide(env, t, height, tr); d.Commit? ==> Spends(t, d.step)
  {
    var d := Decide(env, t, height, tr);
    if d.Commit? && (d.step.Move? || d.step.SpendToFee?) {
      DecidedStep(env, t, height, tr);
      var r := FoundIsThere(t.events, InscribeKind, tr.inscriptionId);
      assert Rereads(env, t, r.value);
    }
  }

  lemma DecidedAffords(env: Env, t: Tables, height: int, tr: Transfer)
    requires SpentOnce(t.events)
    ensures var d := Decide(env, t, height, tr); d.Commit? ==> Affords(t, d.step) && NewRereads(env, t, d.step)
  {
    AtMostOnce(t.events, tr.inscriptionId);
  }

  lemma AdvanceKeepsLocks(env: Env, c: Cursor, height: int, tr: Transfer)
    requires Inv(env, c.tables) && Regular(c.tables) && Bounded(c.tables, height)
    ensures Inv(env, Pow20Rules(env).advance(c, height, tr).cursor.tables)
  {
    DecideIsApplicable(env, c.tables, height, tr);
    DecidedSpends(env, c.tables, height, tr);
    DecidedAffords(env, c.tables, height, tr);
    var d := Decide(env, c.tables, height, tr);
    if d.Commit? {
      StepBacks(c.tables, height, d.step);
      StepRereads(env, c.tables, height, d.step);
    }
  }

  /** In every replay: available is never negative nor more than overall, and the difference is what the account has
      inscribed for transfer and not yet sent. */
  lemma LocksAreBacked(env: Env, first: int, chain: seq<Block>, t: Tables, pk: string, tick: string)
    requires F.Replay(Pow20Machine(env, first), chain) == Some(t)
    ensures var b := BalanceOf(t.balances, pk, tick);
            0 <= b.available <= b.overall && b.overall - b.available == Locked(t.events, pk, tick)
  {
    var P: Tables -> bool := t => Inv(env, t);
    forall c: Cursor, height, tr ensures KeptAt(env, P, c, height, tr) {
      if Inv(env, c.tables) && Regular(c.tables) && Bounded(c.tables, height) {
        AdvanceKeepsLocks(env, c, height, tr);
      }
    }
    LaterTables(env);
    HoldsOfReplays(env, first, P, chain, t);
    assert BackedAt(t, pk, tick);
  }

  /** Hashes and block rows do not matter. */
  lemma LaterTables(env: Env)
    ensures forall t, hashes, blocks :: Inv(env, t) ==> Inv(env, t.(hashes := hashes, blocks := blocks))
  {
    forall t, hashes, blocks | Inv(env, t) ensures Inv(env, t.(hashes := hashes, blocks := blocks)) {
      var u := t.(hashes := hashes, blocks := blocks);
      forall p, k ensures BackedAt(u, p, k) {
        assert BackedAt(t, p, k);
      }
      forall r | r in u.events ensures Rereads(env, u, r.value) {
        assert Rereads(env, t, r.value);
      }
    }
  }

}
