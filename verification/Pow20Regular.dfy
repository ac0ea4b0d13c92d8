/** What every replayed POW-20 table set looks like: heights ascend, an inscription is inscribed once
    and transferred at most once and only afterwards, and no ledger event comes without a balance row. */
module Pow20Regular {
  import opened Wrappers
  import opened Text
  import opened Rows
  import opened Balances
  import opened Pow20Ledger
  import opened Pow20Rollback
  import opened Pow20Blocks
  import F = ChainFollower
  import opened Pow20Run

  /** Each inscription has at most one transfer-inscribe event, and at most one transfer-transfer event
      which comes later. */
  predicate SpentOnce(events: seq<Row<EventRec>>) {
    events == [] ||
    (var front, last := events[..|events| - 1], events[|events| - 1].value;
     && SpentOnce(front)
     && (KindOf(last.event) == InscribeKind ==>
           CountEvents(front, InscribeKind, last.inscriptionId) == 0)
     && (KindOf(last.event) == TransferKind ==>
           && CountEvents(front, InscribeKind, last.inscriptionId) == 1
           && CountEvents(front, TransferKind, last.inscriptionId) == 0))
  }

  predicate IsMovement(e: Event) {
    KindOf(e) == InscribeKind || KindOf(e) == TransferKind
  }

  predicate HasRowAt(rows: seq<Row<BalanceRec>>, height: int) {
    exists j :: 0 <= j < |rows| && rows[j].height == height
  }

  /** Every transfer-inscribe or transfer-transfer event left a balance row in its own block. */
  predicate MovementsHaveRows(t: Tables) {
    forall i :: 0 <= i < |t.events| && IsMovement(t.events[i].value.event) ==>
      HasRowAt(t.balances, t.events[i].height)
  }

  predicate FourByteTicks(rows: seq<Row<BalanceRec>>) {
    forall i :: 0 <= i < |rows| ==> Utf8Length(rows[i].value.tick) == 4
  }

  predicate Regular(t: Tables) {
    && Ascending(t.events) && Ascending(t.balances)
    && SpentOnce(t.events) && MovementsHaveRows(t) && FourByteTicks(t.balances)
  }

  lemma {:induction false} CountPush(rows: seq<Row<EventRec>>, r: Row<EventRec>, kind: Kind, id: string)
    ensures CountEvents(rows + [r], kind, id)
              == CountEvents(rows, kind, id)
                 + if KindOf(r.value.event) == kind && r.value.inscriptionId == id then 1 else 0
  {
    assert (rows + [r])[..|rows|] == rows;
  }

  /** At-most-once spending: over tables with this shape no inscription is transferred twice, and a
      transferred inscription was inscribed. */
  lemma {:induction false} AtMostOnce(events: seq<Row<EventRec>>, id: string)
    requires SpentOnce(events)
    ensures CountEvents(events, InscribeKind, id) <= 1
    ensures CountEvents(events, TransferKind, id) <= CountEvents(events, InscribeKind, id)
  {
    if events != [] {
      AtMostOnce(events[..|events| - 1], id);
    }
  }

  lemma {:induction false} SpentOncePrefix(events: seq<Row<EventRec>>, n: nat)
    requires n <= |events| && SpentOnce(events)
    ensures SpentOnce(events[..n])
    decreases |events|
  {
    if n < |events| {
      var front := events[..|events| - 1];
      assert front[..n] == events[..n];
      SpentOncePrefix(front, n);
    } else {
      assert events[..n] == events;
    }
  }

  lemma DecidedStep(env: Env, t: Tables, height: int, tr: Transfer)
    ensures var d := Decide(env, t, height, tr);
            d.Commit? ==>
              && CanApply(t, d.step)
              && Utf8Length(d.step.tick) == 4
              && (d.step.Inscribe? ==> CountEvents(t.events, InscribeKind, d.step.inscriptionId) == 0)
              && (d.step.Move? || d.step.SpendToFee? ==>
                    && CountEvents(t.events, InscribeKind, d.step.inscriptionId) == 1
                    && CountEvents(t.events, TransferKind, d.step.inscriptionId) == 0)
  {
  }

  /** The balance rows of a step: some for every step but a deploy, all at its height and ticker. */
  lemma RowsOfStep(t: Tables, height: int, s: Step)
    requires CanApply(t, s)
    ensures var rows := BalanceRowsOf(t, height, s);
            && (!s.Deploy? ==> rows != [])
            && forall i :: 0 <= i < |rows| ==> rows[i].height == height && rows[i].value.tick == s.tick
  {
  }

  lemma EventsStayRegular(events: seq<Row<EventRec>>, r: Row<EventRec>)
    requires Ascending(events) && AllUpTo(events, r.height) && SpentOnce(events)
    requires KindOf(r.value.event) == InscribeKind ==> CountEvents(events, InscribeKind, r.value.inscriptionId) == 0
    requires KindOf(r.value.event) == TransferKind ==>
               && CountEvents(events, InscribeKind, r.value.inscriptionId) == 1
               && CountEvents(events, TransferKind, r.value.inscriptionId) == 0
    ensures Ascending(events + [r]) && SpentOnce(events + [r])
  {
    assert (events + [r])[..|events|] == events;
  }

  lemma RowsStayRegular(rows: seq<Row<BalanceRec>>, more: seq<Row<BalanceRec>>, height: int)
    requires Ascending(rows) && AllUpTo(rows, height) && FourByteTicks(rows)
    requires forall i :: 0 <= i < |more| ==> more[i].height == height && Utf8Length(more[i].value.tick) == 4
    ensures Ascending(rows + more) && FourByteTicks(rows + more)
  {
  }

  lemma MovementsStayRegular(t: Tables, r: Row<EventRec>, more: seq<Row<BalanceRec>>)
    requires MovementsHaveRows(t)
    requires IsMovement(r.value.event) ==> more != [] && more[0].height == r.height
    ensures MovementsHaveRows(t.(events := t.events + [r], balances := t.balances + more))
  {
    var events, rows := t.events + [r], t.balances + more;
    forall i | 0 <= i < |events| && IsMovement(events[i].value.event) ensures HasRowAt(rows, events[i].height) {
      if i < |t.events| {
        var j :| 0 <= j < |t.balances| && t.balances[j].height == t.events[i].height;
        assert rows[j] == t.balances[j];
      } else {
        assert rows[|t.balances|] == more[0];
      }
    }
  }

  lemma StepKeepsRegular(t: Tables, height: int, s: Step)
    requires Regular(t) && Bounded(t, height) && CanApply(t, s) && Utf8Length(s.tick) == 4
    requires s.Inscribe? ==> CountEvents(t.events, InscribeKind, s.inscriptionId) == 0
    requires s.Move? || s.SpendToFee? ==>
               && CountEvents(t.events, InscribeKind, s.inscriptionId) == 1
               && CountEvents(t.events, TransferKind, s.inscriptionId) == 0
    ensures Regular(Apply(t, height, s))
  {
    var row, rows := Row(height, EventRec(s.inscriptionId, EventOf(t, s))), BalanceRowsOf(t, height, s);
    RowsOfStep(t, height, s);
    EventsStayRegular(t.events, row);
    RowsStayRegular(t.balances, rows, height);
    MovementsStayRegular(t, row, rows);
  }

  lemma {:induction false} TransfersKeepRegular(env: Env, t: Tables, height: int, transfers: seq<Transfer>)
    requires Regular(t) && Bounded(t, height)
    ensures var u := RunTransfers(Pow20Rules(env), t, height, transfers).cursor.tables;
            Regular(u) && Bounded(u, height)
  {
    if transfers != [] {
      var front, tr := transfers[..|transfers| - 1], transfers[|transfers| - 1];
      TransfersKeepRegular(env, t, height, front);
      var c := RunTransfers(Pow20Rules(env), t, height, front).cursor;
      AdvanceKeepsRegular(env, c, height, tr);
    }
  }

  lemma AdvanceKeepsRegular(env: Env, c: Cursor, height: int, tr: Transfer)
    requires Regular(c.tables) && Bounded(c.tables, height)
    ensures var u := Pow20Rules(env).advance(c, height, tr).cursor.tables;
            Regular(u) && Bounded(u, height)
  {
    DecidedStep(env, c.tables, height, tr);
    var d := Decide(env, c.tables, height, tr);
    if d.Commit? {
      StepKeepsRegular(c.tables, height, d.step);
      StepLawful(c.tables, height, d.step);
    }
  }

  lemma BlockKeepsRegular(env: Env, t: Tables, height: int, block: Block)
    requires Regular(t) && Bounded(t, height - 1) && IndexBlock(Pow20Rules(env), t, height, block).Some?
    ensures Regular(IndexBlock(Pow20Rules(env), t, height, block).value)
  {
    TransfersKeepRegular(env, t, height, block.transfers);
  }

  /** Indexing a block keeps settled tables regular. */
  ghost predicate KeepsRegular(m: F.Machine) {
    && Regular(EMPTY_TABLES)
    && forall t, height, block :: m.settled(t, height) && Regular(t) && m.index(t, height, block).Some? ==>
         Regular(m.index(t, height, block).value)
  }

  lemma {:induction false} RegularReplay(m: F.Machine, chain: seq<Block>, t: Tables)
    requires F.Lawful(m) && KeepsRegular(m) && F.Replay(m, chain) == Some(t)
    ensures Regular(t)
  {
    if chain != [] {
      var front := chain[..|chain| - 1];
      var before := F.Replay(m, front).value;
      RegularReplay(m, front, before);
      F.ReplayIsSettled(m, front, before);
    }
  }

  lemma Pow20KeepsRegular(env: Env, first: int)
    ensures KeepsRegular(Pow20Machine(env, first))
  {
    var m := Pow20Machine(env, first);
    forall t, height, block | m.settled(t, height) && Regular(t) && m.index(t, height, block).Some?
      ensures Regular(m.index(t, height, block).value) {
      BlockKeepsRegular(env, t, height, block);
    }
  }

  /** Every replay of a chain is regular; by the whole-run theorem so are the tables between blocks. */
  lemma ReplayIsRegular(env: Env, first: int, chain: seq<Block>, t: Tables)
    requires F.Replay(Pow20Machine(env, first), chain) == Some(t)
    ensures Regular(t)
  {
    Pow20MachineIsLawful(env, first);
    Pow20KeepsRegular(env, first);
    RegularReplay(Pow20Machine(env, first), chain, t);
  }

}
