/** Database tables as sequences of rows in insertion order (that is, in row-id order), each row
    tagged with the block height it was written at. */
module Rows {
  import opened Wrappers

  datatype Row<+T> = Row(height: int, value: T)

  /** `delete from table where block_height > h`: what remains. */
  function UpTo<T>(rows: seq<Row<T>>, h: int): seq<Row<T>> {
    if rows == [] then []
    else
      var front, last := rows[..|rows| - 1], rows[|rows| - 1];
      if last.height <= h then UpTo(front, h) + [last] else UpTo(front, h)
  }

  predicate AllUpTo<T>(rows: seq<Row<T>>, h: int) {
    forall i :: 0 <= i < |rows| ==> rows[i].height <= h
  }

  predicate AllSince<T>(rows: seq<Row<T>>, h: int) {
    forall i :: 0 <= i < |rows| ==> rows[i].height >= h
  }

  /** The table with more rows behind it, none of them older than the height. */
  predicate ExtendedSince<T(==)>(before: seq<Row<T>>, after: seq<Row<T>>, h: int) {
    before <= after && AllSince(after[|before|..], h)
  }

  lemma RowsWritten<T>(before: seq<Row<T>>, pending: seq<Row<T>>, height: int, since: int)
    requires AllUpTo(before + pending, height) && AllSince(pending, since)
    ensures ExtendedSince(before, before + pending, since) && AllUpTo((before + pending) + [], height)
  {
    assert (before + pending)[|before|..] == pending;
    assert (before + pending) + [] == before + pending;
  }

  predicate Ascending<T>(rows: seq<Row<T>>) {
    forall i, j :: 0 <= i <= j < |rows| ==> rows[i].height <= rows[j].height
  }

  /** `select max(block_height) from table`. */
  function MaxHeight<T>(rows: seq<Row<T>>): Option<int> {
    if rows == [] then None
    else
      var last := rows[|rows| - 1].height;
      match MaxHeight(rows[..|rows| - 1])
      case None => Some(last)
      case Some(m) => Some(if m > last then m else last)
  }

  lemma {:induction false} MaxHeightBounds<T>(rows: seq<Row<T>>, h: int)
    ensures MaxHeight(rows).None? <==> rows == []
    ensures rows != [] ==> (MaxHeight(rows).value <= h <==> AllUpTo(rows, h))
  {
    if rows != [] {
      MaxHeightBounds(rows[..|rows| - 1], h);
    }
  }

  lemma UpToPush<T>(rows: seq<Row<T>>, r: Row<T>, h: int)
    ensures UpTo(rows + [r], h) == if r.height <= h then UpTo(rows, h) + [r] else UpTo(rows, h)
  {
    assert (rows + [r])[..|rows|] == rows;
  }

  lemma {:induction false} UpToAll<T>(rows: seq<Row<T>>, h: int)
    requires AllUpTo(rows, h)
    ensures UpTo(rows, h) == rows
  {
    if rows != [] {
      UpToAll(rows[..|rows| - 1], h);
    }
  }

  lemma {:induction false} UpToBounded<T>(rows: seq<Row<T>>, h: int)
    ensures AllUpTo(UpTo(rows, h), h)
  {
    if rows != [] {
      UpToBounded(rows[..|rows| - 1], h);
    }
  }

  lemma {:induction false} UpToTwice<T>(rows: seq<Row<T>>, h: int, g: int)
    requires g <= h
    ensures UpTo(UpTo(rows, h), g) == UpTo(rows, g)
  {
    if rows != [] {
      var front, last := rows[..|rows| - 1], rows[|rows| - 1];
      UpToTwice(front, h, g);
      if last.height <= h {
        UpToPush(UpTo(front, h), last, g);
      }
    }
  }

  /** In an ascending table, the kept rows are a prefix. */
  lemma {:induction false} UpToIsPrefix<T>(rows: seq<Row<T>>, h: int)
    requires Ascending(rows)
    ensures UpTo(rows, h) <= rows
    ensures forall i :: |UpTo(rows, h)| <= i < |rows| ==> rows[i].height > h
  {
    if rows != [] {
      var front, last := rows[..|rows| - 1], rows[|rows| - 1];
      UpToIsPrefix(front, h);
      if last.height <= h {
        UpToAll(front, h);
      }
    }
  }

  /** `where block_height = h order by id asc`. */
  function RowsAt<T>(rows: seq<Row<T>>, h: int): seq<Row<T>> {
    if rows == [] then []
    else
      var front, last := rows[..|rows| - 1], rows[|rows| - 1];
      if last.height == h then RowsAt(front, h) + [last] else RowsAt(front, h)
  }

  lemma {:induction false} NoRowsAt<T>(rows: seq<Row<T>>, h: int, g: int)
    requires AllUpTo(rows, g) && g < h
    ensures RowsAt(rows, h) == []
  {
    if rows != [] {
      NoRowsAt(rows[..|rows| - 1], h, g);
    }
  }

  lemma {:induction false} RowsAtHeight<T>(rows: seq<Row<T>>, h: int)
    ensures forall i :: 0 <= i < |RowsAt(rows, h)| ==> RowsAt(rows, h)[i].height == h
  {
    if rows != [] {
      RowsAtHeight(rows[..|rows| - 1], h);
    }
  }

  /** Reading a table block by block reads it in order. */
  lemma {:induction false} UpToNext<T>(rows: seq<Row<T>>, h: int)
    requires Ascending(rows)
    ensures UpTo(rows, h) == UpTo(rows, h - 1) + RowsAt(rows, h)
  {
    if rows != [] {
      var front, last := rows[..|rows| - 1], rows[|rows| - 1];
      UpToNext(front, h);
      if last.height == h {
        assert UpTo(front, h) + [last] == UpTo(front, h - 1) + (RowsAt(front, h) + [last]);
      } else if last.height < h {
        NoRowsAt(front, h, last.height);
        UpToAll(front, h);
        UpToAll(front, h - 1);
      }
    }
  }

}
