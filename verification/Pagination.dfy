// Keyset pages over a table that may change between any two fetches.
module Pagination {
  import opened Options
  import opened Base64
  import opened Cursors

  // ------------------------------------------------------------ the order of rows

  // Lexicographic order of ids.
  predicate IdBelow(a: seq<Byte>, b: seq<Byte>) {
    if b == [] then false
    else if a == [] then true
    else if a[0] == b[0] then IdBelow(a[1..], b[1..])
    else a[0] < b[0]
  }

  // Is row a further down than row b? Newest first, ids break ties.
  predicate Below(a: Cursor, b: Cursor) {
    a.createdAt < b.createdAt || (a.createdAt == b.createdAt && IdBelow(a.id, b.id))
  }

  lemma {:induction false} IdsAreOrdered(a: seq<Byte>, b: seq<Byte>)
    ensures !(IdBelow(a, b) && IdBelow(b, a)) && !IdBelow(a, a)
    ensures IdBelow(a, b) || a == b || IdBelow(b, a)
  {
    if a != [] {
      IdsAreOrdered(a[1..], if b == [] then [] else b[1..]);
      if b != [] && a[0] == b[0] {
        assert a[1..] == b[1..] ==> [a[0]] + a[1..] == [b[0]] + b[1..];
        assert a == [a[0]] + a[1..] && b == [b[0]] + b[1..];
      }
    }
  }

  lemma {:induction false} IdBelowTransitive(a: seq<Byte>, b: seq<Byte>, c: seq<Byte>)
    requires IdBelow(a, b) && IdBelow(b, c)
    ensures IdBelow(a, c)
  {
    if a != [] && a[0] == b[0] == c[0] {
      IdBelowTransitive(a[1..], b[1..], c[1..]);
    }
  }

  lemma RowsAreOrdered(a: Cursor, b: Cursor)
    ensures !(Below(a, b) && Below(b, a)) && !Below(a, a)
    ensures Below(a, b) || a == b || Below(b, a)
  {
    IdsAreOrdered(a.id, b.id);
    IdsAreOrdered(a.id, a.id);
  }

  lemma BelowTransitive(a: Cursor, b: Cursor, c: Cursor)
    requires Below(a, b) && Below(b, c)
    ensures Below(a, c)
  {
    if a.createdAt == b.createdAt == c.createdAt {
      IdBelowTransitive(a.id, b.id, c.id);
    }
  }

  predicate Descending(rows: seq<Cursor>) {
    forall i, j :: 0 <= i < j < |rows| ==> Below(rows[j], rows[i])
  }

  // The first place where two ids differ decides their order; a mere beginning comes first.
  lemma {:induction false} IdOrder(a: seq<Byte>, b: seq<Byte>)
    ensures IdBelow(a, b) <==>
              exists k :: 0 <= k <= |a| && k < |b| && a[..k] == b[..k] && (k == |a| || a[k] < b[k])
  {
    if a != [] && b != [] && a[0] == b[0] {
      IdOrder(a[1..], b[1..]);
      if IdBelow(a, b) {
        var k :| 0 <= k <= |a[1..]| && k < |b[1..]| && a[1..][..k] == b[1..][..k]
                 && (k == |a[1..]| || a[1..][k] < b[1..][k]);
        assert a[..k + 1] == [a[0]] + a[1..][..k] && b[..k + 1] == [b[0]] + b[1..][..k];
      }
      if k :| 0 <= k <= |a| && k < |b| && a[..k] == b[..k] && (k == |a| || a[k] < b[k]) {
        assert k > 0 && a[1..][..k - 1] == a[..k][1..] && b[1..][..k - 1] == b[..k][1..];
      }
    } else if b != [] {
      assert a[..0] == b[..0];
      assert forall k :: 0 < k <= |a| && k < |b| ==> a[..k][0] == a[0] && b[..k][0] == b[0];
    }
  }

  // Rows that descend are in the order of their creation, newest first; those created together are in that of their
  // ids, the greatest first.
  lemma NewestFirst(rows: seq<Cursor>, i: nat, j: nat)
    requires i < j < |rows|
    ensures Descending(rows) ==>
              && rows[j].createdAt <= rows[i].createdAt
              && (rows[j].createdAt == rows[i].createdAt ==>
                    var a, b := rows[j].id, rows[i].id;
                    exists k :: 0 <= k <= |a| && k < |b| && a[..k] == b[..k] && (k == |a| || a[k] < b[k]))
  {
    IdOrder(rows[j].id, rows[i].id);
  }

  // ------------------------------------------------------------ one fetch

  predicate After(row: Cursor, anchor: Option<Cursor>) { anchor.Some? ==> Below(row, anchor.value) }

  // Where a page token puts the fetch: at the top, or after a row. None is a malformed token.
  function Seek(p: Platform, token: string): Option<Option<Cursor>> {
    if token == "" then Some(None)
    else
      var c := DecodeCursor(p, token);
      if c.None? then None else Some(c)
  }

  // The rows that a fetch returns: newest first, past the anchor, one more than the limit at most, and none
  // left out that comes before one of them.
  ghost predicate Fetched(table: set<Cursor>, anchor: Option<Cursor>, limit: nat, rows: seq<Cursor>) {
    && Descending(rows) && |rows| <= limit + 1
    && (forall row :: row in rows ==> row in table && After(row, anchor))
    && (forall row :: row in table && After(row, anchor) && row !in rows ==>
          |rows| == limit + 1 && forall r :: r in rows ==> Below(row, r))
  }

  datatype Page = Page(items: seq<Cursor>, next: Option<string>)

  // The page of some fetched rows: the row over the limit only tells that there is more.
  function BuildPage(p: Platform, rows: seq<Cursor>, limit: nat): Page {
    var items := if |rows| > limit then rows[..limit] else rows;
    Page(items, if |rows| > limit && items != [] then Some(EncodeCursor(p, items[|items| - 1])) else None)
  }

  // The page size for a request; None is refused.
  function ResolvePageSize(requested: Option<int>, standard: int, maximum: int): (size: Option<int>)
    ensures size.None? <==> requested.Some? && requested.value < 1
    ensures 1 <= standard && 1 <= maximum && size.Some? ==> size.value >= 1
    ensures requested.None? ==> size == Some(standard)
    ensures size.Some? && requested.Some? ==> size.value <= maximum && size.value <= requested.value
    ensures size.Some? && requested.Some? ==> size.value == maximum || size.value == requested.value
  {
    if requested.None? then Some(standard)
    else if requested.value < 1 then None
    else Some(if requested.value < maximum then requested.value else maximum)
  }

  // ------------------------------------------------------------ following the cursors

  // A client that follows the cursors from `token` on: each fetch sees the table as it is then.
  ghost predicate IsWalk(p: Platform, tables: seq<set<Cursor>>, token: string, limit: nat, fetches: seq<seq<Cursor>>)
    decreases |fetches|
  {
    && |fetches| == |tables| && fetches != []
    && Seek(p, token).Some? && Fetched(tables[0], Seek(p, token).value, limit, fetches[0])
    && var next := BuildPage(p, fetches[0], limit).next;
       |fetches| > 1 ==> next.Some? && IsWalk(p, tables[1..], next.value, limit, fetches[1..])
  }

  // The walk came to its end.
  predicate Finished(fetches: seq<seq<Cursor>>, limit: nat) {
    fetches != [] && |fetches[|fetches| - 1]| <= limit
  }

  function Items(rows: seq<Cursor>, limit: nat): seq<Cursor> {
    if |rows| > limit then rows[..limit] else rows
  }

  // All the rows that the client was given, page by page.
  function Returned(fetches: seq<seq<Cursor>>, limit: nat): seq<Cursor> {
    if fetches == [] then [] else Items(fetches[0], limit) + Returned(fetches[1..], limit)
  }

  // What every walk needs: faithful cursors, rows with ids, and a page size of at least one.
  ghost predicate Sound(p: Platform, tables: seq<set<Cursor>>, limit: nat) {
    p.Faithful() && limit >= 1
    && forall i, row :: 0 <= i < |tables| && row in tables[i] ==> row.id != []
  }

  // The next fetch starts after the last row of the page.
  lemma NextSeeks(p: Platform, table: set<Cursor>, anchor: Option<Cursor>, limit: nat, rows: seq<Cursor>)
    requires p.Faithful() && limit >= 1 && Fetched(table, anchor, limit, rows) && |rows| > limit
    requires forall row :: row in table ==> row.id != []
    ensures BuildPage(p, rows, limit).next.Some?
    ensures Seek(p, BuildPage(p, rows, limit).next.value) == Some(Some(rows[limit - 1]))
    ensures After(rows[limit - 1], anchor)
  {
    assert rows[limit - 1] in rows;
    TokenOfLast(p, rows, limit);
    TokenSeeks(p, rows[limit - 1]);
  }

  lemma TokenOfLast(p: Platform, rows: seq<Cursor>, limit: nat)
    requires 1 <= limit < |rows|
    ensures BuildPage(p, rows, limit).next == Some(EncodeCursor(p, rows[limit - 1]))
  {
  }

  lemma TokenSeeks(p: Platform, row: Cursor)
    requires p.Faithful() && row.id != []
    ensures Seek(p, EncodeCursor(p, row)) == Some(Some(row))
  {
    CursorsNameTheirRow(p, row);
  }

  lemma WalkGoesOn(p: Platform, tables: seq<set<Cursor>>, token: string, limit: nat, fetches: seq<seq<Cursor>>)
    requires Sound(p, tables, limit) && IsWalk(p, tables, token, limit, fetches) && |fetches| > 1
    ensures |fetches[0]| == limit + 1
    ensures
      var next := BuildPage(p, fetches[0], limit).next;
      && next.Some? && Seek(p, next.value) == Some(Some(fetches[0][limit - 1]))
      && IsWalk(p, tables[1..], next.value, limit, fetches[1..])
      && Sound(p, tables[1..], limit)
  {
    NextSeeks(p, tables[0], Seek(p, token).value, limit, fetches[0]);
  }

  // Every row that is returned comes after the anchor.
  lemma {:induction false} ReturnedAfter(p: Platform, tables: seq<set<Cursor>>, token: string, limit: nat,
                                         fetches: seq<seq<Cursor>>)
    requires Sound(p, tables, limit) && IsWalk(p, tables, token, limit, fetches)
    ensures forall row :: row in Returned(fetches, limit) ==> After(row, Seek(p, token).value)
    decreases |fetches|
  {
    if |fetches| > 1 {
      WalkGoesOn(p, tables, token, limit, fetches);
      var next := BuildPage(p, fetches[0], limit).next.value;
      ReturnedAfter(p, tables[1..], next, limit, fetches[1..]);
      var last := fetches[0][limit - 1];
      assert last in fetches[0];
      forall row | row in Returned(fetches[1..], limit) && Seek(p, token).value.Some?
        ensures Below(row, Seek(p, token).value.value)
      {
        BelowTransitive(row, last, Seek(p, token).value.value);
      }
    } else {
      assert Returned(fetches[1..], limit) == [];
    }
  }

  lemma DescendingAppend(first: seq<Cursor>, second: seq<Cursor>)
    requires Descending(first) && Descending(second)
    requires first != [] && forall row :: row in second ==> Below(row, first[|first| - 1])
    ensures Descending(first + second)
  {
    var n := |first|;
    forall i, j | 0 <= i < n <= j < n + |second|
      ensures Below((first + second)[j], (first + second)[i])
    {
      assert second[j - n] in second;
      if i < n - 1 { BelowTransitive(second[j - n], first[n - 1], first[i]); }
    }
  }

  // Whatever is inserted or deleted meanwhile, rows come strictly newest first, so none comes twice.
  lemma {:induction false} WalksDescend(p: Platform, tables: seq<set<Cursor>>, token: string, limit: nat,
                                        fetches: seq<seq<Cursor>>)
    requires Sound(p, tables, limit) && IsWalk(p, tables, token, limit, fetches)
    ensures Descending(Returned(fetches, limit))
    decreases |fetches|
  {
    var items := Items(fetches[0], limit);
    if |fetches| > 1 {
      WalkGoesOn(p, tables, token, limit, fetches);
      var next := BuildPage(p, fetches[0], limit).next.value;
      WalksDescend(p, tables[1..], next, limit, fetches[1..]);
      ReturnedAfter(p, tables[1..], next, limit, fetches[1..]);
      hide IsWalk, Below;
      DescendingAppend(items, Returned(fetches[1..], limit));
    } else {
      assert Returned(fetches[1..], limit) == [] && items + [] == items;
    }
  }

  lemma {:induction false} DescendingOnce(rows: seq<Cursor>, row: Cursor)
    requires Descending(rows) && row in rows
    ensures multiset(rows)[row] == 1
    decreases |rows|
  {
    var n := |rows| - 1;
    assert rows == rows[..n] + [rows[n]];
    if row in rows[..n] {
      DescendingOnce(rows[..n], row);
      var i :| 0 <= i < n && rows[i] == row;
      RowsAreOrdered(rows[n], row);
    }
  }

  // Every row that was there at each fetch, after the anchor, is returned.
  lemma {:induction false} LastingRowsReturned(p: Platform, tables: seq<set<Cursor>>, token: string, limit: nat,
                                               fetches: seq<seq<Cursor>>, row: Cursor)
    requires Sound(p, tables, limit) && IsWalk(p, tables, token, limit, fetches) && Finished(fetches, limit)
    requires After(row, Seek(p, token).value) && forall table :: table in tables ==> row in table
    ensures row in Returned(fetches, limit)
    decreases |fetches|
  {
    if |fetches| > 1 {
      WalkGoesOn(p, tables, token, limit, fetches);
      var rows := fetches[0];
      if row !in rows[..limit] {
        assert Below(row, rows[limit - 1]) by {
          assert rows[limit - 1] in rows;
          if row in rows { assert row == rows[limit]; }
        }
        LastingRowsReturned(p, tables[1..], BuildPage(p, rows, limit).next.value, limit, fetches[1..], row);
      }
    }
  }

  // Following the cursors to the end while rows come and go returns every row that was there throughout,
  // exactly once.
  lemma LastingRowsReturnedOnce(p: Platform, tables: seq<set<Cursor>>, limit: nat, fetches: seq<seq<Cursor>>,
                                row: Cursor)
    requires Sound(p, tables, limit) && IsWalk(p, tables, "", limit, fetches) && Finished(fetches, limit)
    requires forall table :: table in tables ==> row in table
    ensures multiset(Returned(fetches, limit))[row] == 1
  {
    LastingRowsReturned(p, tables, "", limit, fetches, row);
    WalksDescend(p, tables, "", limit, fetches);
    DescendingOnce(Returned(fetches, limit), row);
  }

  // And no row that was in none of the tables.
  lemma {:induction false} ReturnedWereThere(p: Platform, tables: seq<set<Cursor>>, token: string, limit: nat,
                                             fetches: seq<seq<Cursor>>, row: Cursor)
    requires IsWalk(p, tables, token, limit, fetches) && row in Returned(fetches, limit)
    ensures exists i :: 0 <= i < |tables| && row in tables[i]
    decreases |fetches|
  {
    if |fetches| == 1 {
      assert Returned(fetches[1..], limit) == [] && row in fetches[0];
    } else if row !in Items(fetches[0], limit) {
      ReturnedWereThere(p, tables[1..], BuildPage(p, fetches[0], limit).next.value, limit, fetches[1..], row);
      var i :| 0 <= i < |tables[1..]| && row in tables[1..][i];
      assert row in tables[i + 1];
    } else {
      assert row in fetches[0];
    }
  }

  // ------------------------------------------------------------ a table that does not change

  ghost predicate IsSorted(rows: seq<Cursor>, table: set<Cursor>) {
    Descending(rows) && forall row :: row in rows <==> row in table
  }

  lemma {:induction false} SortedSize(rows: seq<Cursor>, table: set<Cursor>)
    requires IsSorted(rows, table)
    ensures |rows| == |table|
    decreases |rows|
  {
    if rows == [] {
      assert table == {};
    } else {
      var n := |rows| - 1;
      var last := rows[n];
      forall row | row in rows[..n]
        ensures row != last
      {
        var i :| 0 <= i < n && rows[i] == row;
        RowsAreOrdered(last, row);
      }
      assert rows == rows[..n] + [last];
      SortedSize(rows[..n], table - {last});
    }
  }

  // All pages but the last are full.
  lemma {:induction false} ReturnedCount(p: Platform, tables: seq<set<Cursor>>, token: string, limit: nat,
                                         fetches: seq<seq<Cursor>>)
    requires Sound(p, tables, limit) && IsWalk(p, tables, token, limit, fetches) && Finished(fetches, limit)
    ensures |Returned(fetches, limit)| == (|fetches| - 1) * limit + |fetches[|fetches| - 1]|
    decreases |fetches|
  {
    if |fetches| > 1 {
      WalkGoesOn(p, tables, token, limit, fetches);
      ReturnedCount(p, tables[1..], BuildPage(p, fetches[0], limit).next.value, limit, fetches[1..]);
      assert (|fetches| - 1) * limit == limit + (|fetches| - 2) * limit;
    } else {
      assert Returned(fetches[1..], limit) == [];
    }
  }

  lemma {:induction false} LastPageIsNotEmpty(p: Platform, table: set<Cursor>, tables: seq<set<Cursor>>, token: string,
                                              limit: nat, fetches: seq<seq<Cursor>>)
    requires Sound(p, tables, limit) && IsWalk(p, tables, token, limit, fetches) && |fetches| > 1
    requires forall i :: 0 <= i < |tables| ==> tables[i] == table
    ensures fetches[|fetches| - 1] != []
    decreases |fetches|
  {
    WalkGoesOn(p, tables, token, limit, fetches);
    if |fetches| > 2 {
      LastPageIsNotEmpty(p, table, tables[1..], BuildPage(p, fetches[0], limit).next.value, limit, fetches[1..]);
    } else {
      var rows := fetches[0];
      assert rows[limit] in rows && Below(rows[limit], rows[limit - 1]);
      assert tables[1] == table;
    }
  }

  lemma FixedTableIsSorted(p: Platform, table: set<Cursor>, tables: seq<set<Cursor>>, limit: nat,
                           fetches: seq<seq<Cursor>>)
    requires Sound(p, tables, limit) && IsWalk(p, tables, "", limit, fetches) && Finished(fetches, limit)
    requires forall i :: 0 <= i < |tables| ==> tables[i] == table
    ensures IsSorted(Returned(fetches, limit), table)
  {
    WalksDescend(p, tables, "", limit, fetches);
    forall row | row in table
      ensures row in Returned(fetches, limit)
    {
      LastingRowsReturned(p, tables, "", limit, fetches, row);
    }
    forall row | row in Returned(fetches, limit)
      ensures row in table
    {
      ReturnedWereThere(p, tables, "", limit, fetches, row);
    }
  }

  // A walk over a table that stays as it is, once it has ended: the pages put together are the table, newest
  // first, and there are as many pages as it takes, one even for an empty table.
  lemma EndedWalkListsTheTable(p: Platform, table: set<Cursor>, tables: seq<set<Cursor>>, limit: nat,
                               fetches: seq<seq<Cursor>>)
    requires Sound(p, tables, limit) && IsWalk(p, tables, "", limit, fetches) && Finished(fetches, limit)
    requires forall i :: 0 <= i < |tables| ==> tables[i] == table
    ensures IsSorted(Returned(fetches, limit), table)
    ensures |table| <= |fetches| * limit && (|fetches| == 1 || (|fetches| - 1) * limit < |table|)
  {
    FixedTableIsSorted(p, table, tables, limit, fetches);
    SortedSize(Returned(fetches, limit), table);
    ReturnedCount(p, tables, "", limit, fetches);
    if |fetches| > 1 {
      LastPageIsNotEmpty(p, table, tables, "", limit, fetches);
    }
    FullPagesAndTheLast(|fetches|, limit, |fetches[|fetches| - 1]|, |table|);
  }

  lemma FullPagesAndTheLast(pages: nat, limit: nat, last: nat, total: nat)
    requires pages >= 1 && last <= limit && total == (pages - 1) * limit + last
    ensures total <= pages * limit && (last > 0 ==> (pages - 1) * limit < total)
  {
    assert pages * limit == (pages - 1) * limit + limit;
  }
}
