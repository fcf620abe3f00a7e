/** Tables as sequences of rows in the order of their serial ids, each row carrying the
    review it belongs to; and the queries and statements the store issues on them. */
module Rows {
  import opened Wrappers
  import opened Types
  import opened Dedupe

  datatype Row<T> = Row(review: string, data: T)

  /** SELECT ... WHERE review_id = id, in serial order. */
  function Of<T>(table: seq<Row<T>>, id: string): seq<T> {
    if table == [] then []
    else
      var r := Of(table[..|table| - 1], id);
      var row := table[|table| - 1];
      if row.review == id then r + [row.data] else r
  }

  /** DELETE ... WHERE review_id = id. */
  function Without<T>(table: seq<Row<T>>, id: string): seq<Row<T>> {
    if table == [] then []
    else
      var r := Without(table[..|table| - 1], id);
      var row := table[|table| - 1];
      if row.review == id then r else r + [row]
  }

  /** The rows an INSERT loop adds. */
  function RowsFor<T>(id: string, data: seq<T>): (r: seq<Row<T>>)
    ensures |r| == |data|
    ensures forall i :: 0 <= i < |data| ==> r[i] == Row(id, data[i])
  {
    seq(|data|, i requires 0 <= i < |data| => Row(id, data[i]))
  }

  lemma OfAppend<T>(table: seq<Row<T>>, row: Row<T>, id: string)
    ensures Of(table + [row], id) == if row.review == id then Of(table, id) + [row.data] else Of(table, id)
  {
    assert (table + [row])[..|table|] == table;
  }

  lemma RowsForAppend<T>(table: seq<Row<T>>, owner: string, data: seq<T>, x: T)
    ensures table + RowsFor(owner, data + [x]) == table + RowsFor(owner, data) + [Row(owner, x)]
  {
  }

  lemma {:induction false} OfInserted<T>(table: seq<Row<T>>, owner: string, data: seq<T>, id: string)
    ensures Of(table + RowsFor(owner, data), id) == if id == owner then Of(table, id) + data else Of(table, id)
  {
    hide RowsFor, Of;
    if data == [] {
      assert table + RowsFor(owner, data) == table;
      assert Of(table, id) + data == Of(table, id);
    } else {
      var init, x := data[..|data| - 1], data[|data| - 1];
      OfInserted(table, owner, init, id);
      assert init + [x] == data;
      RowsForAppend(table, owner, init, x);
      OfAppend(table + RowsFor(owner, init), Row(owner, x), id);
      assert Of(table, id) + init + [x] == Of(table, id) + (init + [x]);
    }
  }

  lemma {:induction false} OfWithout<T>(table: seq<Row<T>>, gone: string, id: string)
    ensures Of(Without(table, gone), id) == if id == gone then [] else Of(table, id)
  {
    if table == [] {
    } else {
      var init, row := table[..|table| - 1], table[|table| - 1];
      OfWithout(init, gone, id);
      OfAppend(Without(init, gone), row, id);
    }
  }

  /** Delete and insert again: the owner's rows are the new data, all others are untouched. */
  lemma ReplacedRows<T>(table: seq<Row<T>>, owner: string, data: seq<T>, id: string)
    ensures Of(Without(table, owner) + RowsFor(owner, data), id) == if id == owner then data else Of(table, id)
  {
    OfInserted(Without(table, owner), owner, data, id);
    OfWithout(table, owner, id);
  }

  lemma {:induction false} InOf<T>(table: seq<Row<T>>, id: string, x: T)
    ensures x in Of(table, id) <==> Row(id, x) in table
  {
    if table == [] {
    } else {
      var init := table[..|table| - 1];
      InOf(init, id, x);
      assert table == init + [table[|table| - 1]];
    }
  }

  lemma {:induction false} InWithout<T>(table: seq<Row<T>>, gone: string, row: Row<T>)
    ensures row in Without(table, gone) <==> row in table && row.review != gone
  {
    if table == [] {
    } else {
      var init := table[..|table| - 1];
      InWithout(init, gone, row);
      assert table == init + [table[|table| - 1]];
    }
  }

  function Mapped<T, U>(rows: seq<T>, f: T -> U): (r: seq<U>)
    ensures |r| == |rows| && forall i :: 0 <= i < |rows| ==> r[i] == f(rows[i])
  {
    seq(|rows|, i requires 0 <= i < |rows| => f(rows[i]))
  }

  /** Scanning a result set row by row. */
  method ScanRows<T, U>(rows: seq<T>, f: T -> U) returns (out: seq<U>)
    ensures out == Mapped(rows, f)
  {
    out := [];
    for i := 0 to |rows|
      invariant |out| == i && forall j :: 0 <= j < i ==> out[j] == f(rows[j])
    {
      out := out + [f(rows[i])];
    }
  }

  // ---------- UPDATE ----------

  /** UPDATE ... WHERE review_id = id. */
  function UpdateRows<T>(table: seq<Row<T>>, id: string, cols: T, refresh: (T, T) -> T): (r: seq<Row<T>>)
    ensures |r| == |table|
    ensures forall i :: 0 <= i < |table| ==>
              r[i] == if table[i].review == id then Row(id, refresh(table[i].data, cols)) else table[i]
  {
    seq(|table|, i requires 0 <= i < |table| =>
          if table[i].review == id then Row(id, refresh(table[i].data, cols)) else table[i])
  }

  lemma {:induction false} OfUpdateRows<T>(table: seq<Row<T>>, id: string, cols: T, refresh: (T, T) -> T, x: string)
    ensures x != id ==> Of(UpdateRows(table, id, cols, refresh), x) == Of(table, x)
    ensures |Of(UpdateRows(table, id, cols, refresh), id)| == |Of(table, id)|
    ensures forall i :: 0 <= i < |Of(table, id)| ==>
              Of(UpdateRows(table, id, cols, refresh), id)[i] == refresh(Of(table, id)[i], cols)
  {
    if table == [] {
    } else {
      var init := table[..|table| - 1];
      OfUpdateRows(init, id, cols, refresh, x);
      var u := UpdateRows(table, id, cols, refresh);
      assert u[..|u| - 1] == UpdateRows(init, id, cols, refresh);
    }
  }

  function ReviewsIn<T>(table: seq<Row<T>>): set<string> {
    set i | 0 <= i < |table| :: table[i].review
  }

  lemma {:induction false} ListedIffRows<T>(table: seq<Row<T>>, id: string)
    ensures id in ReviewsIn(table) <==> Of(table, id) != []
  {
    if table == [] {
    } else {
      var init, row := table[..|table| - 1], table[|table| - 1];
      ListedIffRows(init, id);
      assert forall i :: 0 <= i < |init| ==> init[i] == table[i];
      if id in ReviewsIn(init) {
        var i :| 0 <= i < |init| && init[i].review == id;
        assert table[i].review == id;
      }
      if id in ReviewsIn(table) && row.review != id {
        var i :| 0 <= i < |table| && table[i].review == id;
        assert init[i].review == id;
      }
    }
  }

  // ---------- INSERT ----------

  /** Some row already has the value in a UNIQUE column. */
  predicate Used<T>(table: seq<Row<T>>, column: T -> string, x: string) {
    exists i :: 0 <= i < |table| && column(table[i].data) == x
  }

  /** New values that a UNIQUE column can take. */
  ghost predicate Fits<T>(table: seq<Row<T>>, column: T -> string, xs: seq<string>) {
    Distinct(xs) && forall x :: x in xs ==> !Used(table, column, x)
  }

  /** The next insert fails exactly when its value breaks uniqueness. */
  lemma NextFits<T>(base: seq<Row<T>>, owner: string, data: seq<T>, column: T -> string, i: nat)
    requires i < |data| && Fits(base, column, Keys(data[..i], column))
    ensures var table, x := base + RowsFor(owner, data[..i]), column(data[i]);
            && (Used(table, column, x) ==> !Fits(base, column, Keys(data, column)))
            && (!Used(table, column, x) ==> Fits(base, column, Keys(data[..i + 1], column)))
  {
    var table := base + RowsFor(owner, data[..i]);
    var xs, x := Keys(data, column), column(data[i]);
    assert xs[i] == x && x in xs;
    if Used(table, column, x) {
      var k :| 0 <= k < |table| && column(table[k].data) == x;
      if k < |base| {
        assert column(base[k].data) == x;
      } else {
        assert xs[k - |base|] == xs[i];
      }
    } else {
      forall k | 0 <= k < |base| ensures column(base[k].data) != x {
        assert table[k] == base[k];
      }
      forall k | 0 <= k < i ensures xs[k] != x {
        assert table[|base| + k].data == data[k];
      }
      assert Keys(data[..i + 1], column) == Keys(data[..i], column) + [x];
    }
  }

  /** One INSERT per row; the first repeated value aborts. */
  method InsertUnique<T>(base: seq<Row<T>>, owner: string, data: seq<T>, column: T -> string)
    returns (table: Option<seq<Row<T>>>)
    ensures table == if Fits(base, column, Keys(data, column)) then Some(base + RowsFor(owner, data)) else None
  {
    var t := base;
    assert Keys(data[..0], column) == [];
    assert base + RowsFor(owner, data[..0]) == base;
    for i := 0 to |data|
      invariant t == base + RowsFor(owner, data[..i])
      invariant Fits(base, column, Keys(data[..i], column))
    {
      NextFits(base, owner, data, column, i);
      if Used(t, column, column(data[i])) {
        return None;
      }
      RowsForAppend(base, owner, data[..i], data[i]);
      assert data[..i + 1] == data[..i] + [data[i]];
      t := t + [Row(owner, data[i])];
    }
    assert data[..|data|] == data;
    return Some(t);
  }

  method InsertAll<T>(base: seq<Row<T>>, owner: string, data: seq<T>) returns (table: seq<Row<T>>)
    ensures table == base + RowsFor(owner, data)
  {
    table := base;
    for i := 0 to |data|
      invariant table == base + RowsFor(owner, data[..i])
    {
      RowsForAppend(base, owner, data[..i], data[i]);
      assert data[..i + 1] == data[..i] + [data[i]];
      table := table + [Row(owner, data[i])];
    }
    assert data[..|data|] == data;
  }

  // ---------- ORDER BY time, id ----------

  function Insert<T>(sorted: seq<T>, x: T, time: T -> Time): seq<T> {
    if sorted == [] || time(sorted[|sorted| - 1]) <= time(x) then sorted + [x]
    else Insert(sorted[..|sorted| - 1], x, time) + [sorted[|sorted| - 1]]
  }

  /** Sorting by time; rows of equal time keep their serial order. */
  function OrderBy<T>(rows: seq<T>, time: T -> Time): seq<T> {
    if rows == [] then [] else Insert(OrderBy(rows[..|rows| - 1], time), rows[|rows| - 1], time)
  }

  ghost predicate Ordered<T>(rows: seq<T>, time: T -> Time) {
    forall i, j :: 0 <= i < j < |rows| ==> time(rows[i]) <= time(rows[j])
  }

  lemma {:induction false} InsertKeepsRows<T>(sorted: seq<T>, x: T, time: T -> Time)
    ensures multiset(Insert(sorted, x, time)) == multiset(sorted) + multiset{x}
  {
    if sorted == [] || time(sorted[|sorted| - 1]) <= time(x) {
    } else {
      var init := sorted[..|sorted| - 1];
      assert sorted == init + [sorted[|sorted| - 1]];
      InsertKeepsRows(init, x, time);
    }
  }

  lemma {:induction false} InsertOrdered<T>(sorted: seq<T>, x: T, time: T -> Time)
    requires Ordered(sorted, time)
    ensures Ordered(Insert(sorted, x, time), time)
  {
    if sorted == [] || time(sorted[|sorted| - 1]) <= time(x) {
    } else {
      var init, last := sorted[..|sorted| - 1], sorted[|sorted| - 1];
      InsertOrdered(init, x, time);
      InsertKeepsRows(init, x, time);
      var r := Insert(init, x, time);
      forall i | 0 <= i < |r| ensures time(r[i]) <= time(last) {
        assert r[i] in multiset(r);
        assert r[i] == x || r[i] in multiset(init);
      }
    }
  }

  /** The sort yields the same rows, in time order. */
  lemma {:induction false} OrderBySorts<T>(rows: seq<T>, time: T -> Time)
    ensures Ordered(OrderBy(rows, time), time)
    ensures multiset(OrderBy(rows, time)) == multiset(rows)
  {
    if rows == [] {
    } else {
      var init, x := rows[..|rows| - 1], rows[|rows| - 1];
      assert rows == init + [x];
      OrderBySorts(init, time);
      InsertKeepsRows(OrderBy(init, time), x, time);
      InsertOrdered(OrderBy(init, time), x, time);
    }
  }

  /** Rows inserted in time order come back in the order they were inserted. */
  lemma {:induction false} OrderedComesBack<T>(rows: seq<T>, time: T -> Time)
    requires Ordered(rows, time)
    ensures OrderBy(rows, time) == rows
  {
    if rows == [] {
    } else {
      var init := rows[..|rows| - 1];
      OrderedComesBack(init, time);
      assert rows == init + [rows[|rows| - 1]];
    }
  }

  /** ... and only then: a reader sees the inserted order exactly when it was time order. */
  lemma ComesBackIffOrdered<T>(rows: seq<T>, time: T -> Time)
    ensures OrderBy(rows, time) == rows <==> Ordered(rows, time)
  {
    OrderBySorts(rows, time);
    if Ordered(rows, time) {
      OrderedComesBack(rows, time);
    }
  }
}
