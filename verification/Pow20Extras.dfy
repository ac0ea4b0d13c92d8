/** The derived tables: the current balance of every account and the transfer notes not yet used.
    They are kept up to date block by block and repaired on a reorg or a crash; in every case they
    equal what a computation from scratch would give. */
module Pow20Extras {
  import opened Wrappers
  import opened Rows
  import opened Balances
  import opened Pow20Ledger
  import opened Pow20Regular

  /** An account: a script and a ticker. */
  type Account = (string, string)

  datatype CurrentRow = CurrentRow(wallet: Option<string>, balance: Balance, height: int)

  datatype Note = Note(tick: string, amount: nat, holder: string, holderWallet: Option<string>, height: int)

  function AccountOf(r: Row<BalanceRec>): Account {
    (r.value.pkscript, r.value.tick)
  }

  function CurrentOf(r: Row<BalanceRec>): CurrentRow {
    CurrentRow(r.value.wallet, r.value.balance, r.height)
  }

  // ---------- from scratch ----------

  /** The last history row of every account. */
  function CurrentFrom(rows: seq<Row<BalanceRec>>): map<Account, CurrentRow> {
    if rows == [] then map[]
    else
      var last := rows[|rows| - 1];
      CurrentFrom(rows[..|rows| - 1])[AccountOf(last) := CurrentOf(last)]
  }

  function NoteOf(r: Row<EventRec>): Note
    requires r.value.event.TransferInscribe?
  {
    var e := r.value.event;
    Note(e.tick, e.amount, e.sourcePkscript, e.sourceWallet, r.height)
  }

  function InscribedNotes(events: seq<Row<EventRec>>): map<string, Note> {
    if events == [] then map[]
    else
      var last := events[|events| - 1];
      var notes := InscribedNotes(events[..|events| - 1]);
      if last.value.event.TransferInscribe? then notes[last.value.inscriptionId := NoteOf(last)] else notes
  }

  /** The inscribe events that have no transfer event. */
  function UnusedFrom(events: seq<Row<EventRec>>): map<string, Note> {
    map id | id in InscribedNotes(events) && CountEvents(events, TransferKind, id) == 0 :: InscribedNotes(events)[id]
  }

  lemma {:induction false} CurrentIsLastInserted(rows: seq<Row<BalanceRec>>, k: Account)
    ensures var last := LastInserted(rows, k.0, k.1);
            && (k in CurrentFrom(rows) <==> last.Some?)
            && (last.Some? ==> CurrentFrom(rows)[k] == CurrentOf(last.value))
  {
    if rows != [] {
      CurrentIsLastInserted(rows[..|rows| - 1], k);
    }
  }

  lemma {:induction false} CurrentConcat(a: seq<Row<BalanceRec>>, b: seq<Row<BalanceRec>>)
    ensures CurrentFrom(a + b) == CurrentFrom(a) + CurrentFrom(b)
  {
    if b == [] {
      assert a + b == a;
    } else {
      var front, last := b[..|b| - 1], b[|b| - 1];
      CurrentConcat(a, front);
      assert (a + b)[..|a + b| - 1] == a + front;
    }
  }

  // ---------- agreement ----------

  /** An account keeps one wallet. */
  predicate WalletsFixed(rows: seq<Row<BalanceRec>>) {
    forall i, j :: 0 <= i < |rows| && 0 <= j < |rows| && AccountOf(rows[i]) == AccountOf(rows[j]) ==>
      rows[i].value.wallet == rows[j].value.wallet
  }

  lemma {:induction false} CurrentComesFromARow(rows: seq<Row<BalanceRec>>, k: Account) returns (i: nat)
    requires k in CurrentFrom(rows)
    ensures i < |rows| && AccountOf(rows[i]) == k && CurrentOf(rows[i]) == CurrentFrom(rows)[k]
  {
    if AccountOf(rows[|rows| - 1]) == k {
      i := |rows| - 1;
    } else {
      i := CurrentComesFromARow(rows[..|rows| - 1], k);
    }
  }

  /** The entries at heights up to h are those of the from-scratch table, whatever the entries above h are:
      what a crash inside the next block can leave. */
  predicate AgreesBelow(current: map<Account, CurrentRow>, rows: seq<Row<BalanceRec>>, h: int) {
    && CurrentFrom(rows).Keys <= current.Keys
    && forall k :: k in current && current[k].height <= h ==>
         k in CurrentFrom(rows) && current[k] == CurrentFrom(rows)[k]
  }

  /** Deleting the entries above h and refilling them from the history. */
  function Refilled(current: map<Account, CurrentRow>, rows: seq<Row<BalanceRec>>, h: int): map<Account, CurrentRow> {
    map k | k in current && (current[k].height <= h || LastInserted(rows, k.0, k.1).Some?) ::
      if current[k].height <= h then current[k] else CurrentOf(LastInserted(rows, k.0, k.1).value)
  }

  lemma RefillRestores(current: map<Account, CurrentRow>, rows: seq<Row<BalanceRec>>, h: int)
    requires AgreesBelow(current, rows, h)
    ensures Refilled(current, rows, h) == CurrentFrom(rows)
  {
    var r := Refilled(current, rows, h);
    forall k ensures k in CurrentFrom(rows) <==> LastInserted(rows, k.0, k.1).Some? {
      CurrentIsLastInserted(rows, k);
    }
    assert r.Keys == CurrentFrom(rows).Keys;
    forall k | k in r ensures r[k] == CurrentFrom(rows)[k] {
      CurrentIsLastInserted(rows, k);
    }
  }

  /** The from-scratch table of a history agrees with that of its rows up to any height. */
  lemma AgreesAtLower(rows: seq<Row<BalanceRec>>, g: int)
    requires Ascending(rows)
    ensures AgreesBelow(CurrentFrom(rows), UpTo(rows, g), g)
  {
    var low := UpTo(rows, g);
    UpToIsPrefix(rows, g);
    var high := rows[|low|..];
    assert rows == low + high;
    CurrentConcat(low, high);
    forall k | k in CurrentFrom(high) ensures CurrentFrom(high)[k].height > g {
      HighRowsAreHigh(high, k, g);
    }
  }

  lemma HighRowsAreHigh(high: seq<Row<BalanceRec>>, k: Account, g: int)
    requires forall i :: 0 <= i < |high| ==> high[i].height > g
    requires k in CurrentFrom(high)
    ensures CurrentFrom(high)[k].height > g
  {
    var i := CurrentComesFromARow(high, k);
  }

  /** Tables that were brought up to an old history agree below g with a new one that shares the rows
      up to g. */
  lemma AgreesBelowShared(before: seq<Row<BalanceRec>>, after: seq<Row<BalanceRec>>, h: int, g: int)
    requires Ascending(before) && g <= h && UpTo(before, g) == UpTo(after, g)
    ensures AgreesBelow(CurrentFrom(UpTo(before, h)), UpTo(after, g), g)
  {
    UpToIsPrefix(before, h);
    AgreesAtLower(UpTo(before, h), g);
    UpToTwice(before, h, g);
  }

  lemma {:induction false} RowIsCurrent(rows: seq<Row<BalanceRec>>, i: nat)
    requires i < |rows|
    ensures AccountOf(rows[i]) in CurrentFrom(rows)
  {
    if i < |rows| - 1 {
      RowIsCurrent(rows[..|rows| - 1], i);
    }
  }

  // ---------- one block of balance changes ----------

  function Upserted(was: map<Account, CurrentRow>, k: Account, c: CurrentRow): map<Account, CurrentRow> {
    // on conflict the wallet column is left alone
    was[k := if k in was then c.(wallet := was[k].wallet) else c]
  }

  /** The accounts of `done` have been upserted from `changes`. */
  predicate PartlyUpserted(was: map<Account, CurrentRow>, now: map<Account, CurrentRow>,
                           changes: map<Account, CurrentRow>, done: set<Account>) {
    && done <= changes.Keys
    && now.Keys == was.Keys + done
    && (forall k :: k in done ==> now[k] == Upserted(was, k, changes[k])[k])
    && forall k :: k in was && k !in done ==> now[k] == was[k]
  }

  /** However far the upserts of the next block got, the entries at or below h still agree. */
  lemma PartialAgreesBelow(was: map<Account, CurrentRow>, now: map<Account, CurrentRow>,
                           changes: map<Account, CurrentRow>, done: set<Account>, rows: seq<Row<BalanceRec>>, h: int)
    requires was == CurrentFrom(rows) && PartlyUpserted(was, now, changes, done)
    requires forall k :: k in changes ==> changes[k].height > h
    ensures AgreesBelow(now, rows, h)
  {
  }

  /** Although an upsert leaves the wallet column alone, upserting every change of a block gives the from-scratch
      table, because the wallet is a function of the script. */
  lemma UpsertsAgree(was: map<Account, CurrentRow>, now: map<Account, CurrentRow>,
                     rows: seq<Row<BalanceRec>>, block: seq<Row<BalanceRec>>)
    requires was == CurrentFrom(rows) && WalletsFixed(rows + block)
    requires PartlyUpserted(was, now, CurrentFrom(block), CurrentFrom(block).Keys)
    ensures now == CurrentFrom(rows + block)
  {
    CurrentConcat(rows, block);
    forall k | k in was && k in CurrentFrom(block) ensures was[k].wallet == CurrentFrom(block)[k].wallet {
      SameWallet(rows, block, k);
    }
  }

  lemma SameWallet(rows: seq<Row<BalanceRec>>, block: seq<Row<BalanceRec>>, k: Account)
    requires WalletsFixed(rows + block) && k in CurrentFrom(rows) && k in CurrentFrom(block)
    ensures CurrentFrom(rows)[k].wallet == CurrentFrom(block)[k].wallet
  {
    var i := CurrentComesFromARow(rows, k);
    var j := CurrentComesFromARow(block, k);
    assert (rows + block)[i] == rows[i] && (rows + block)[|rows| + j] == block[j];
  }

  // ---------- one block of notes ----------

  /** One event: insert on conflict do nothing, or delete. */
  function NoteStep(unused: map<string, Note>, r: Row<EventRec>): map<string, Note> {
    var id := r.value.inscriptionId;
    match KindOf(r.value.event)
    case InscribeKind => if id in unused then unused else unused[id := NoteOf(r)]
    case TransferKind => unused - {id}
    case _ => unused
  }

  /** On events that spend at most once, the incremental step keeps the from-scratch answer. */
  lemma NoteStepAgrees(events: seq<Row<EventRec>>, r: Row<EventRec>)
    requires SpentOnce(events + [r])
    ensures NoteStep(UnusedFrom(events), r) == UnusedFrom(events + [r])
  {
    var all := events + [r];
    assert all[..|events|] == events;
    var id := r.value.inscriptionId;
    AtMostOnce(events, id);
    InscribedIsCounted(events, id);
    forall k ensures CountEvents(all, TransferKind, k)
                     == CountEvents(events, TransferKind, k)
                        + if KindOf(r.value.event) == TransferKind && id == k then 1 else 0 {
      CountPush(events, r, TransferKind, k);
    }
    assert InscribedNotes(all) == if r.value.event.TransferInscribe? then InscribedNotes(events)[id := NoteOf(r)]
                                  else InscribedNotes(events);
  }

  lemma {:induction false} InscribedIsCounted(events: seq<Row<EventRec>>, id: string)
    ensures id in InscribedNotes(events) <==> CountEvents(events, InscribeKind, id) > 0
  {
    if events != [] {
      InscribedIsCounted(events[..|events| - 1], id);
    }
  }

}
