/** The history of balances: the newest row of an account is its balance. */
module Balances {
  import opened Wrappers
  import opened Rows

  datatype Balance = Balance(overall: int, available: int)

  datatype BalanceRec = BalanceRec(pkscript: string, wallet: Option<string>, tick: string, balance: Balance)

  const EMPTY_BALANCE := Balance(0, 0)

  predicate OfAccount(r: Row<BalanceRec>, pkscript: string, tick: string) {
    r.value.pkscript == pkscript && r.value.tick == tick
  }

  /** `where pkscript and tick order by block_height desc, id desc limit 1`. */
  function Newest(rows: seq<Row<BalanceRec>>, pkscript: string, tick: string): (r: Option<Row<BalanceRec>>)
    ensures r.Some? ==> r.value in rows && OfAccount(r.value, pkscript, tick)
  {
    if rows == [] then None
    else
      var last := rows[|rows| - 1];
      var best := Newest(rows[..|rows| - 1], pkscript, tick);
      if OfAccount(last, pkscript, tick) && (best.None? || best.value.height <= last.height)
      then Some(last) else best
  }

  /** `where pkscript and tick order by id desc limit 1`. */
  function LastInserted(rows: seq<Row<BalanceRec>>, pkscript: string, tick: string): (r: Option<Row<BalanceRec>>)
    ensures r.Some? ==> r.value in rows && OfAccount(r.value, pkscript, tick)
  {
    if rows == [] then None
    else
      var last := rows[|rows| - 1];
      if OfAccount(last, pkscript, tick) then Some(last)
      else LastInserted(rows[..|rows| - 1], pkscript, tick)
  }

  function BalanceOf(rows: seq<Row<BalanceRec>>, pkscript: string, tick: string): Balance {
    match Newest(rows, pkscript, tick)
    case None => EMPTY_BALANCE
    case Some(r) => r.value.balance
  }

  /** Rows are written in height order, so both queries answer the same row. */
  lemma {:induction false} NewestIsLastInserted(rows: seq<Row<BalanceRec>>, pkscript: string, tick: string)
    requires Ascending(rows)
    ensures Newest(rows, pkscript, tick) == LastInserted(rows, pkscript, tick)
  {
    if rows != [] {
      NewestIsLastInserted(rows[..|rows| - 1], pkscript, tick);
    }
  }

  /** A new row becomes its account's balance and leaves every other account alone. */
  lemma NewestPush(rows: seq<Row<BalanceRec>>, r: Row<BalanceRec>, pkscript: string, tick: string)
    requires AllUpTo(rows, r.height)
    ensures Newest(rows + [r], pkscript, tick)
              == if OfAccount(r, pkscript, tick) then Some(r) else Newest(rows, pkscript, tick)
  {
    assert (rows + [r])[..|rows|] == rows;
  }

}
