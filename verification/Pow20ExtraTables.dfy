/** The derived tables as the indexer updates them: one statement at a time, with no transaction around
    a block, so that a process may stop between any two statements. */
module Pow20ExtraTables {
  import opened Wrappers
  import opened Text
  import opened Rows
  import opened Balances
  import opened Pow20Ledger
  import opened Pow20Regular
  import opened Pow20Extras
  import I = Pow20Indexer

  function ChangeKey(k: Account): string {
    k.0 + "_" + k.1
  }

  lemma ChangeKeyInjective(k: Account, l: Account)
    requires ChangeKey(k) == ChangeKey(l) && Utf8Length(k.1) == Utf8Length(l.1)
    ensures k == l
  {
    I.CacheKeyInjective(k.0 + "_", k.1, l.0 + "_", l.1);
    assert (k.0 + "_")[..|k.0|] == k.0 && (l.0 + "_")[..|l.0|] == l.0;
  }

  /** The map built from a block's rows: under each account's key its last row. */
  ghost predicate ChangesMap(m: map<string, Row<BalanceRec>>, rows: seq<Row<BalanceRec>>) {
    && (forall k :: k in CurrentFrom(rows) ==> ChangeKey(k) in m)
    && forall key :: key in m ==>
         var k := AccountOf(m[key]);
         && key == ChangeKey(k) && k in CurrentFrom(rows) && CurrentOf(m[key]) == CurrentFrom(rows)[k]
  }

  ghost function AccountsOf(m: map<string, Row<BalanceRec>>, keys: set<string>): set<Account>
    requires keys <= m.Keys
  {
    set key | key in keys :: AccountOf(m[key])
  }

  lemma AccountsOfRest(m: map<string, Row<BalanceRec>>, todo: set<string>, key: string)
    requires todo <= m.Keys && key in todo
    ensures AccountsOf(m, m.Keys - (todo - {key})) == AccountsOf(m, m.Keys - todo) + {AccountOf(m[key])}
  {
    assert m.Keys - (todo - {key}) == (m.Keys - todo) + {key};
  }

  /** The map holds the last row of every account of the block, and nothing else. */
  ghost predicate Covers(m: map<string, Row<BalanceRec>>, last: map<Account, CurrentRow>) {
    && AccountsOf(m, m.Keys) == last.Keys
    && forall key :: key in m ==> AccountOf(m[key]) in last && CurrentOf(m[key]) == last[AccountOf(m[key])]
  }

  lemma ChangesCover(m: map<string, Row<BalanceRec>>, rows: seq<Row<BalanceRec>>)
    requires ChangesMap(m, rows) && FourByteTicks(rows)
    ensures Covers(m, CurrentFrom(rows))
  {
    forall k | k in CurrentFrom(rows) ensures k in AccountsOf(m, m.Keys) {
      var l := AccountOf(m[ChangeKey(k)]);
      TickOfAccount(rows, k);
      TickOfAccount(rows, l);
      ChangeKeyInjective(k, l);
    }
  }

  lemma OneMore(was: map<Account, CurrentRow>, now: map<Account, CurrentRow>, changes: map<Account, CurrentRow>,
                done: set<Account>, k: Account)
    requires PartlyUpserted(was, now, changes, done) && k in changes
    ensures PartlyUpserted(was, Upserted(now, k, changes[k]), changes, done + {k})
  {
  }

  /** Between two upserts: the accounts of the keys not left to do are done. */
  ghost predicate Upserting(changes: map<string, Row<BalanceRec>>, last: map<Account, CurrentRow>,
                            was: map<Account, CurrentRow>,
                            now: map<Account, CurrentRow>, todo: set<string>, done: set<Account>) {
    && todo <= changes.Keys && done == AccountsOf(changes, changes.Keys - todo)
    && PartlyUpserted(was, now, last, done)
  }

  lemma NoneUpserted(changes: map<string, Row<BalanceRec>>, last: map<Account, CurrentRow>,
                     was: map<Account, CurrentRow>)
    ensures Upserting(changes, last, was, was, changes.Keys, {})
  {
    assert changes.Keys - changes.Keys == {};
  }

  lemma AllUpserted(changes: map<string, Row<BalanceRec>>, last: map<Account, CurrentRow>,
                    was: map<Account, CurrentRow>,
                    now: map<Account, CurrentRow>, done: set<Account>)
    requires Covers(changes, last) && Upserting(changes, last, was, now, {}, done)
    ensures done == last.Keys
  {
    assert changes.Keys - {} == changes.Keys;
  }

  lemma {:induction false} MovementLeavesChange(t: Tables, height: int, i: nat)
    requires MovementsHaveRows(t)
    requires i < |RowsAt(t.events, height)| && IsMovement(RowsAt(t.events, height)[i].value.event)
    ensures CurrentFrom(RowsAt(t.balances, height)) != map[]
  {
    RowsAtAreRows(t.events, height, i);
    RowAtIsFound(t.balances, height);
    RowIsCurrent(RowsAt(t.balances, height), 0);
  }

  lemma {:induction false} RowsAtAreRows<T>(rows: seq<Row<T>>, h: int, i: nat)
    requires i < |RowsAt(rows, h)|
    ensures exists j :: 0 <= j < |rows| && rows[j] == RowsAt(rows, h)[i] && rows[j].height == h
  {
    var front, last := rows[..|rows| - 1], rows[|rows| - 1];
    if last.height == h && i == |RowsAt(front, h)| {
      assert rows[|rows| - 1] == RowsAt(rows, h)[i];
    } else {
      RowsAtAreRows(front, h, i);
      var j :| 0 <= j < |front| && front[j] == RowsAt(front, h)[i] && front[j].height == h;
      assert rows[j] == RowsAt(rows, h)[i];
    }
  }

  lemma {:induction false} RowAtIsFound(rows: seq<Row<BalanceRec>>, h: int)
    ensures HasRowAt(rows, h) ==> RowsAt(rows, h) != []
  {
    if HasRowAt(rows, h) && rows[|rows| - 1].height != h {
      var front := rows[..|rows| - 1];
      var j :| 0 <= j < |rows| && rows[j].height == h;
      assert front[j].height == h;
      RowAtIsFound(front, h);
    }
  }

  predicate HasMovement(events: seq<Row<EventRec>>) {
    exists i :: 0 <= i < |events| && IsMovement(events[i].value.event)
  }

  /** The notes after some of a block's events; they changed only if one of the events is a movement. */
  predicate NotesUpTo(before: seq<Row<EventRec>>, events: seq<Row<EventRec>>, i: nat, notes: map<string, Note>)
    requires i <= |events|
  {
    notes == UnusedFrom(before + events[..i]) && (notes != UnusedFrom(before) ==> HasMovement(events))
  }

  lemma NextNote(before: seq<Row<EventRec>>, events: seq<Row<EventRec>>, i: nat, notes: map<string, Note>)
    requires SpentOnce(before + events) && i < |events| && NotesUpTo(before, events, i, notes)
    ensures NotesUpTo(before, events, i + 1, NoteStep(notes, events[i]))
  {
    assert before + events[..i + 1] == (before + events[..i]) + [events[i]];
    assert before + events[..i + 1] == (before + events)[..|before| + i + 1];
    SpentOncePrefix(before + events, |before| + i + 1);
    NoteStepAgrees(before + events[..i], events[i]);
    if NoteStep(notes, events[i]) != notes {
      assert IsMovement(events[i].value.event);
    }
  }

  class ExtraTables {
    var current: map<Account, CurrentRow>
    var unused: map<string, Note>
    var blocks: seq<Row<string>>

    /** The tables as they are created. */
    constructor ()
      ensures current == map[] && unused == map[] && blocks == []
    {
      current, unused, blocks := map[], map[], [];
    }

    /** The height the next block row would have. */
    function Next(first: int): int
      reads this`blocks
    {
      match MaxHeight(blocks)
      case None => first
      case Some(m) => m + 1
    }

    /** Both tables are what a computation from scratch over the rows up to h would give. */
    ghost predicate Agrees(t: Tables, h: int)
      reads this`current, this`unused
    {
      current == CurrentFrom(UpTo(t.balances, h)) && unused == UnusedFrom(UpTo(t.events, h))
    }

    /** No entry of either table stands above h. */
    predicate Quiet(h: int)
      reads this`current, this`unused
    {
      && (forall k :: k in current ==> current[k].height <= h)
      && forall id :: id in unused ==> unused[id].height <= h
    }

    ghost predicate HasTrace(h: int)
      reads this`current
    {
      exists k :: k in current && current[k].height > h
    }

    /** What a process that stopped inside block h + 1 may leave: notes are damaged only after some
        balance above h was written. */
    ghost predicate Interrupted(t: Tables, h: int)
      reads this`current, this`unused
    {
      && AgreesBelow(current, UpTo(t.balances, h), h)
      && (unused == UnusedFrom(UpTo(t.events, h)) || HasTrace(h))
    }

    /** `inscribe events left join transfer events ... where transfer is null`, inserted row by row. */
    method ResetUnused(events: seq<Row<EventRec>>)
      modifies this`unused
      ensures unused == UnusedFrom(events)
    {
      unused := map[];
      for i := 0 to |events|
        invariant unused == map id | id in InscribedNotes(events[..i]) && CountEvents(events, TransferKind, id) == 0 ::
                              InscribedNotes(events[..i])[id]
      {
        assert events[..i + 1][..i] == events[..i];
        var id := events[i].value.inscriptionId;
        if events[i].value.event.TransferInscribe? && CountEvents(events, TransferKind, id) == 0 {
          unused := unused[id := NoteOf(events[i])];
        }
      }
      assert events[..|events|] == events;
    }

    /** Deletes the balances above the height and refills them from the history. */
    method RefillBalances(rows: seq<Row<BalanceRec>>, h: int)
      modifies this`current
      ensures current == Refilled(old(current), rows, h)
    {
      ghost var was := current;
      var todo := set k | k in current && current[k].height > h;
      current := map k | k in current && current[k].height <= h :: current[k];
      while todo != {}
        invariant forall k :: k in todo ==> k in was && was[k].height > h
        invariant forall k :: k in current <==> k in Refilled(was, rows, h) && k !in todo
        invariant forall k :: k in current ==> current[k] == Refilled(was, rows, h)[k]
        decreases |todo|
      {
        var k :| k in todo;
        var balance := LastInserted(rows, k.0, k.1);
        if balance.Some? {
          current := current[k := CurrentOf(balance.value)];
        }
        todo := todo - {k};
      }
    }

    /** reorg_on_extra_tables: roll the balances back, rebuild the notes, drop the newer block rows. */
    method ReorgOnExtraTables(t: Tables, reorgHeight: int)
      requires AgreesBelow(current, UpTo(t.balances, reorgHeight), reorgHeight)
      modifies this
      ensures Agrees(t, reorgHeight) && blocks == UpTo(old(blocks), reorgHeight)
    {
      RefillRestores(current, UpTo(t.balances, reorgHeight), reorgHeight);
      RefillBalances(UpTo(t.balances, reorgHeight), reorgHeight);
      ResetUnused(UpTo(t.events, reorgHeight));
      blocks := UpTo(blocks, reorgHeight);
    }

    /** initial_index_of_extra_tables. */
    method InitialIndexOfExtraTables(t: Tables)
      modifies this
      ensures current == CurrentFrom(t.balances) && unused == UnusedFrom(t.events) && blocks == t.blocks
    {
      ResetUnused(t.events);
      current := CurrentFrom(t.balances);
      blocks := t.blocks;
    }

    method BuildChanges(rows: seq<Row<BalanceRec>>) returns (changes: map<string, Row<BalanceRec>>)
      requires FourByteTicks(rows)
      ensures Covers(changes, CurrentFrom(rows))
    {
      changes := map[];
      for i := 0 to |rows|
        invariant ChangesMap(changes, rows[..i])
      {
        assert rows[..i + 1][..i] == rows[..i];
        var key := ChangeKey(AccountOf(rows[i]));
        ghost var was := changes;
        changes := changes[key := rows[i]];
        forall other | other in changes
          ensures var k := AccountOf(changes[other]);
                  && other == ChangeKey(k) && k in CurrentFrom(rows[..i + 1])
                  && CurrentOf(changes[other]) == CurrentFrom(rows[..i + 1])[k] {
          if other != key {
            assert other in was;
          }
        }
      }
      assert rows[..|rows|] == rows;
      ChangesCover(changes, rows);
    }

    /** Upserts one account's change. */
    method Upsert(k: Account, c: CurrentRow)
      modifies this`current
      ensures current == Upserted(old(current), k, c)
    {
      if k in current {
        current := current[k := CurrentRow(current[k].wallet, c.balance, c.height)];
      } else {
        current := current[k := c];
      }
    }

    /** One more account is done. */
    method UpsertNext(changes: map<string, Row<BalanceRec>>, ghost last: map<Account, CurrentRow>,
                      ghost was: map<Account, CurrentRow>,
                      ghost todo: set<string>, ghost done: set<Account>, key: string) returns (ghost more: set<Account>)
      requires Covers(changes, last) && Upserting(changes, last, was, current, todo, done) && key in todo
      modifies this`current
      ensures Upserting(changes, last, was, current, todo - {key}, more)
    {
      more := done + {AccountOf(changes[key])};
      OneMore(was, current, last, done, AccountOf(changes[key]));
      AccountsOfRest(changes, todo, key);
      Upsert(AccountOf(changes[key]), CurrentOf(changes[key]));
    }

    /** Upserts the block's changes until none is left or the process stops; returns what is left of
        the budget, or None when it stopped. */
    method UpsertChanges(changes: map<string, Row<BalanceRec>>, ghost last: map<Account, CurrentRow>, budget: nat)
      returns (left: Option<nat>, ghost done: set<Account>)
      requires Covers(changes, last)
      modifies this`current
      ensures PartlyUpserted(old(current), current, last, done)
      ensures left.Some? ==> done == last.Keys
    {
      var todo := changes.Keys;
      var remaining := budget;
      done := {};
      ghost var was := current;
      NoneUpserted(changes, last, was);
      while todo != {} && remaining > 0
        invariant Upserting(changes, last, was, current, todo, done)
        decreases |todo|
      {
        var key :| key in todo;
        done := UpsertNext(changes, last, was, todo, done, key);
        todo := todo - {key};
        remaining := remaining - 1;
      }
      if todo == {} {
        AllUpserted(changes, last, was, current, done);
        left := Some(remaining);
      } else {
        left := None;
      }
    }

    /** Applies one note. */
    method UpdateNote(r: Row<EventRec>)
      modifies this`unused
      ensures unused == NoteStep(old(unused), r)
    {
      if KindOf(r.value.event) == InscribeKind {
        if r.value.inscriptionId !in unused {
          unused := unused[r.value.inscriptionId := NoteOf(r)];
        }
      } else if IsMovement(r.value.event) {
        unused := unused - {r.value.inscriptionId};
      }
    }

    /** Applies the block's notes until none is left or the process stops. */
    method UpdateNotes(ghost before: seq<Row<EventRec>>, events: seq<Row<EventRec>>, budget: nat)
      returns (left: Option<nat>)
      requires SpentOnce(before + events) && unused == UnusedFrom(before)
      modifies this`unused
      ensures left.Some? ==> unused == UnusedFrom(before + events)
      ensures unused != UnusedFrom(before) ==> HasMovement(events)
    {
      assert before + [] == before;
      var i, remaining := 0, budget;
      while i < |events|
        invariant 0 <= i <= |events|
        invariant NotesUpTo(before, events, i, unused)
      {
        NextNote(before, events, i, unused);
        if IsMovement(events[i].value.event) {
          if remaining == 0 {
            return None;
          }
          remaining := remaining - 1;
          UpdateNote(events[i]);
        }
        i := i + 1;
      }
      assert events[..i] == events;
      return Some(remaining);
    }

    /** Brings both tables from the block below to this one, unless the process stops on the way. Wherever it
        is, also at the end, the residue check could bring them back. */
    method BringForward(t: Tables, height: int, budget: nat) returns (left: Option<nat>)
      requires Regular(t) && WalletsFixed(t.balances) && Agrees(t, height - 1)
      modifies this`current, this`unused
      ensures left.Some? ==> Agrees(t, height)
      ensures Interrupted(t, height - 1)
    {
      ghost var was := current;
      RowsAtFourByte(t.balances, height);
      var changes := BuildChanges(RowsAt(t.balances, height));
      ghost var done;
      left, done := UpsertChanges(changes, CurrentFrom(RowsAt(t.balances, height)), budget);
      AfterUpserts(t, height, was, current, done);
      if left.None? {
        return None;
      }
      EventsOfBlock(t, height);
      ghost var notes := unused;
      left := UpdateNotes(UpTo(t.events, height - 1), RowsAt(t.events, height), left.value);
      if unused != notes {
        ghost var i :| 0 <= i < |RowsAt(t.events, height)| && IsMovement(RowsAt(t.events, height)[i].value.event);
        MovementLeavesTrace(t, height, i, was, current);
      }
    }

    /** The tables can take the block at a height: when ahead they agree below it, so that a rollback suffices;
        otherwise they agree up to it. */
    ghost predicate FitFor(t: Tables, height: int)
      reads this
    {
      if Ahead(blocks, height) then AgreesBelow(current, UpTo(t.balances, height - 1), height - 1)
      else Agrees(t, height - 1)
    }

    /** index_extra_tables: roll back first if the tables are ahead, then bring them to this block and write its
        row. A process that stops after any statement leaves tables the residue check can repair. */
    method IndexExtraTables(t: Tables, height: int, blockHash: string, budget: nat) returns (left: Option<nat>)
      requires Regular(t) && WalletsFixed(t.balances) && FitFor(t, height)
      modifies this
      ensures if left.Some? then Agrees(t, height) else Interrupted(t, height - 1)
      ensures var kept := if Ahead(old(blocks), height) then UpTo(old(blocks), height - 1) else old(blocks);
              blocks == if left.Some? then kept + [Row(height, blockHash)] else kept
    {
      var ebhCurrentHeight := 0;
      if MaxHeight(blocks).Some? {
        ebhCurrentHeight := MaxHeight(blocks).value;
      }
      if ebhCurrentHeight >= height {
        ReorgOnExtraTables(t, height - 1);
      }
      left := BringForward(t, height, budget);
      if left.None? || left.value == 0 {
        return None;
      }
      blocks := blocks + [Row(height, blockHash)];
      return Some(left.value - 1);
    }

    /** check_if_there_is_residue_on_extra_tables_from_last_run: repairs whatever an interrupted block left, because
        notes are never damaged without a trace in the balances; and touches nothing when nothing stands above the
        block rows, whatever has become of the main tables meanwhile. */
    method CheckResidueOnExtraTables(t: Tables, first: int)
      requires Interrupted(t, Next(first) - 1) || Quiet(Next(first) - 1)
      modifies this
      ensures old(Interrupted(t, Next(first) - 1)) ==> Agrees(t, Next(first) - 1)
      ensures old(Quiet(Next(first) - 1)) ==> current == old(current) && unused == old(unused)
      ensures blocks == old(blocks)
    {
      var currentBlock := Next(first);
      var residueFound := false;
      if exists id :: id in unused && unused[id].height >= currentBlock {
        residueFound := true;
      }
      if exists k :: k in current && current[k].height >= currentBlock {
        residueFound := true;
      }
      if residueFound {
        MaxHeightBounds(blocks, currentBlock - 1);
        UpToAll(blocks, currentBlock - 1);
        ReorgOnExtraTables(t, currentBlock - 1);
      } else if Interrupted(t, currentBlock - 1) {
        NoResidueAgrees(t, currentBlock - 1);
      }
    }

    lemma NoResidueAgrees(t: Tables, h: int)
      requires Interrupted(t, h) && Quiet(h)
      ensures Agrees(t, h)
    {
    }

    /** Tables that agree with rows up to h have nothing above h. */
    lemma AgreesIsQuiet(t: Tables, h: int)
      requires Agrees(t, h)
      ensures Quiet(h)
    {
      UpToBounded(t.balances, h);
      UpToBounded(t.events, h);
      forall k | k in current ensures current[k].height <= h {
        var i := CurrentComesFromARow(UpTo(t.balances, h), k);
      }
      forall id | id in unused ensures unused[id].height <= h {
        NoteHeight(UpTo(t.events, h), id, h);
      }
    }
  }

  /** index_extra_tables takes the height of the last block row, or 0, and asks whether it reaches the new one. */
  predicate Ahead(blocks: seq<Row<string>>, height: int) {
    (match MaxHeight(blocks)
     case None => 0
     case Some(m) => m) >= height
  }

  lemma {:induction false} NoteHeight(events: seq<Row<EventRec>>, id: string, h: int)
    requires AllUpTo(events, h) && id in InscribedNotes(events)
    ensures InscribedNotes(events)[id].height <= h
  {
    var last := events[|events| - 1];
    if !(last.value.event.TransferInscribe? && last.value.inscriptionId == id) {
      NoteHeight(events[..|events| - 1], id, h);
    }
  }

  /** What the upserts of a block leave, finished or not. */
  lemma AfterUpserts(t: Tables, height: int, was: map<Account, CurrentRow>, now: map<Account, CurrentRow>,
                     done: set<Account>)
    requires Ascending(t.balances) && WalletsFixed(t.balances) && was == CurrentFrom(UpTo(t.balances, height - 1))
    requires PartlyUpserted(was, now, CurrentFrom(RowsAt(t.balances, height)), done)
    ensures AgreesBelow(now, UpTo(t.balances, height - 1), height - 1)
    ensures done == CurrentFrom(RowsAt(t.balances, height)).Keys ==> now == CurrentFrom(UpTo(t.balances, height))
  {
    var rows, block := UpTo(t.balances, height - 1), RowsAt(t.balances, height);
    RowsAtCurrent(t.balances, height);
    PartialAgreesBelow(was, now, CurrentFrom(block), done, rows, height - 1);
    if done == CurrentFrom(block).Keys {
      UpToNext(t.balances, height);
      WalletsFixedUpTo(t.balances, height);
      UpsertsAgree(was, now, rows, block);
    }
  }

  lemma WalletsFixedUpTo(rows: seq<Row<BalanceRec>>, h: int)
    requires Ascending(rows) && WalletsFixed(rows)
    ensures WalletsFixed(UpTo(rows, h))
  {
    UpToIsPrefix(rows, h);
    assert forall i :: 0 <= i < |UpTo(rows, h)| ==> UpTo(rows, h)[i] == rows[i];
  }

  lemma EventsOfBlock(t: Tables, height: int)
    requires Ascending(t.events) && SpentOnce(t.events)
    ensures UpTo(t.events, height) == UpTo(t.events, height - 1) + RowsAt(t.events, height)
    ensures SpentOnce(UpTo(t.events, height))
  {
    UpToNext(t.events, height);
    UpToIsPrefix(t.events, height);
    var n := |UpTo(t.events, height)|;
    assert UpTo(t.events, height) == t.events[..n];
    SpentOncePrefix(t.events, n);
  }

  lemma MovementLeavesTrace(t: Tables, height: int, i: nat, was: map<Account, CurrentRow>,
                            now: map<Account, CurrentRow>)
    requires MovementsHaveRows(t)
    requires i < |RowsAt(t.events, height)| && IsMovement(RowsAt(t.events, height)[i].value.event)
    requires var changes := CurrentFrom(RowsAt(t.balances, height));
             PartlyUpserted(was, now, changes, changes.Keys)
    ensures exists k :: k in now && now[k].height > height - 1
  {
    MovementLeavesChange(t, height, i);
    RowsAtCurrent(t.balances, height);
    var k :| k in CurrentFrom(RowsAt(t.balances, height));
    assert k in now && now[k].height == height;
  }

  lemma TickOfAccount(rows: seq<Row<BalanceRec>>, k: Account)
    requires FourByteTicks(rows) && k in CurrentFrom(rows)
    ensures Utf8Length(k.1) == 4
  {
    var i := CurrentComesFromARow(rows, k);
  }

  lemma {:induction false} RowsAtFourByte(rows: seq<Row<BalanceRec>>, h: int)
    requires FourByteTicks(rows)
    ensures FourByteTicks(RowsAt(rows, h))
  {
    if rows != [] {
      RowsAtFourByte(rows[..|rows| - 1], h);
    }
  }

  lemma RowsAtCurrent(rows: seq<Row<BalanceRec>>, h: int)
    ensures forall k :: k in CurrentFrom(RowsAt(rows, h)) ==> CurrentFrom(RowsAt(rows, h))[k].height == h
  {
    forall k | k in CurrentFrom(RowsAt(rows, h)) ensures CurrentFrom(RowsAt(rows, h))[k].height == h {
      RowsAtHeight(rows, h);
      var i := CurrentComesFromARow(RowsAt(rows, h), k);
    }
  }

}
