// Walks over pages exist, go on, and over a table that does not change they end: every table answers every fetch,
// in one way only.
module PageWalks {
  import opened Options
  import opened Cursors
  import opened Pagination
  import opened Sizes

  // ------------------------------------------------------------ every fetch has one answer

  function Rest(table: set<Cursor>, anchor: Option<Cursor>): set<Cursor> {
    set row | row in table && After(row, anchor)
  }

  lemma {:induction false} TopRow(table: set<Cursor>) returns (top: Cursor)
    requires table != {}
    ensures top in table && forall row :: row in table && row != top ==> Below(row, top)
    decreases |table|
  {
    top :| top in table;
    if table != {top} {
      var other := TopRow(table - {top});
      RowsAreOrdered(top, other);
      if Below(top, other) {
        top := other;
      } else {
        forall row | row in table && row != top && row != other
          ensures Below(row, top)
        {
          assert row in table - {top};
          BelowTransitive(row, other, top);
        }
      }
    }
  }

  lemma {:induction false} Sorted(table: set<Cursor>) returns (rows: seq<Cursor>)
    ensures IsSorted(rows, table)
    decreases |table|
  {
    if table == {} {
      rows := [];
    } else {
      var top := TopRow(table);
      var rest := Sorted(table - {top});
      rows := [top] + rest;
      forall i, j | 0 <= i < j < |rows|
        ensures Below(rows[j], rows[i])
      {
        assert rows[j] == rest[j - 1] && rest[j - 1] in rest;
      }
    }
  }

  lemma SortedStartIsFetched(table: set<Cursor>, anchor: Option<Cursor>, limit: nat, all: seq<Cursor>)
    requires IsSorted(all, Rest(table, anchor))
    ensures Fetched(table, anchor, limit, all[..Min(limit + 1, |all|)])
  {
    var n := Min(limit + 1, |all|);
    var rows := all[..n];
    forall row | row in rows
      ensures row in table && After(row, anchor)
    {
      assert row in all && row in Rest(table, anchor);
    }
    forall j | 0 <= j < n
      ensures all[j] in rows
    {
      assert rows[j] == all[j];
    }
    forall row | row in table && After(row, anchor) && row !in rows
      ensures |rows| == limit + 1 && forall r :: r in rows ==> Below(row, r)
    {
      assert row in all;
      var j :| 0 <= j < |all| && all[j] == row;
      assert n <= j;
    }
  }

  lemma NotAbove(rows: seq<Cursor>, k: nat)
    requires Descending(rows) && k < |rows|
    ensures forall m :: 0 <= m < k ==> rows[m] != rows[k]
  {
    RowsAreOrdered(rows[k], rows[k]);
  }

  // Where the rows fetched begin as the sorted ones do, the next ones are the same: neither is below the other.
  lemma NextIsSame(table: set<Cursor>, anchor: Option<Cursor>, limit: nat, rows: seq<Cursor>, all: seq<Cursor>, k: nat)
    requires Fetched(table, anchor, limit, rows) && IsSorted(all, Rest(table, anchor))
    requires k < |rows| && k < |all| && rows[..k] == all[..k]
    ensures rows[k] == all[k]
  {
    var a, b := rows[k], all[k];
    forall m | 0 <= m < k
      ensures all[m] != a && rows[m] != b
    {
      assert rows[m] == rows[..k][m] == all[..k][m] == all[m];
      NotAbove(rows, k);
      NotAbove(all, k);
    }
    assert a == b || Below(a, b) by {
      assert a in rows && a in Rest(table, anchor);
      var j :| 0 <= j < |all| && all[j] == a;
    }
    assert a == b || Below(b, a) by {
      assert a in rows && b in all && b in Rest(table, anchor);
    }
    RowsAreOrdered(a, b);
  }

  lemma {:induction false} FetchedAreSorted(table: set<Cursor>, anchor: Option<Cursor>, limit: nat, rows: seq<Cursor>,
                                            all: seq<Cursor>, k: nat)
    requires Fetched(table, anchor, limit, rows) && IsSorted(all, Rest(table, anchor))
    requires k <= |rows| && k <= |all|
    ensures rows[..k] == all[..k]
  {
    if k > 0 {
      FetchedAreSorted(table, anchor, limit, rows, all, k - 1);
      NextIsSame(table, anchor, limit, rows, all, k - 1);
      assert rows[..k] == rows[..k - 1] + [rows[k - 1]] && all[..k] == all[..k - 1] + [all[k - 1]];
    }
  }

  lemma FetchedIsSortedStart(table: set<Cursor>, anchor: Option<Cursor>, limit: nat, rows: seq<Cursor>,
                             all: seq<Cursor>)
    requires Fetched(table, anchor, limit, rows) && IsSorted(all, Rest(table, anchor))
    ensures rows == all[..Min(limit + 1, |all|)]
  {
    var n := Min(|rows|, |all|);
    FetchedAreSorted(table, anchor, limit, rows, all, n);
    if n < |all| {
      NotAbove(all, n);
      forall m | 0 <= m < n
        ensures rows[m] != all[n]
      {
        assert rows[m] == rows[..n][m] == all[..n][m] == all[m];
      }
      assert all[n] in all && all[n] in Rest(table, anchor) && all[n] !in rows;
    } else {
      SortedSize(all, Rest(table, anchor));
      var given := set row | row in rows;
      assert IsSorted(rows, given);
      SortedSize(rows, given);
      forall row | row in given
        ensures row in Rest(table, anchor)
      {
        assert row in rows;
      }
      SubsetSize(given, Rest(table, anchor));
    }
  }

  // Every table answers every fetch, and in one way only.
  lemma OneAnswer(table: set<Cursor>, anchor: Option<Cursor>, limit: nat) returns (rows: seq<Cursor>)
    ensures Fetched(table, anchor, limit, rows)
    ensures forall other :: Fetched(table, anchor, limit, other) ==> other == rows
  {
    var all := Sorted(Rest(table, anchor));
    rows := all[..Min(limit + 1, |all|)];
    SortedStartIsFetched(table, anchor, limit, all);
    forall other | Fetched(table, anchor, limit, other)
      ensures other == rows
    {
      FetchedIsSortedStart(table, anchor, limit, other, all);
    }
  }

  // ------------------------------------------------------------ walks go on

  lemma {:induction false} WalkMore(p: Platform, tables: seq<set<Cursor>>, token: string, limit: nat,
                                    fetches: seq<seq<Cursor>>, table: set<Cursor>, rows: seq<Cursor>)
    requires Sound(p, tables, limit) && IsWalk(p, tables, token, limit, fetches) && !Finished(fetches, limit)
    requires
      var last := fetches[|fetches| - 1];
      Fetched(table, Some(last[limit - 1]), limit, rows)
    ensures IsWalk(p, tables + [table], token, limit, fetches + [rows])
    decreases |fetches|
  {
    NextSeeks(p, tables[0], Seek(p, token).value, limit, fetches[0]);
    var next := BuildPage(p, fetches[0], limit).next.value;
    assert (fetches + [rows])[0] == fetches[0] && (tables + [table])[0] == tables[0];
    assert (fetches + [rows])[1..] == fetches[1..] + [rows] && (tables + [table])[1..] == tables[1..] + [table];
    if |fetches| > 1 {
      WalkMore(p, tables[1..], next, limit, fetches[1..], table, rows);
    } else {
      assert fetches[1..] == [] && tables[1..] == [];
      assert [rows][1..] == [];
      assert IsWalk(p, [table], next, limit, [rows]);
    }
  }

  // A walk that has not ended goes on with one more page, whatever the table is by then.
  lemma WalksGoOn(p: Platform, tables: seq<set<Cursor>>, token: string, limit: nat, fetches: seq<seq<Cursor>>,
                  table: set<Cursor>)
    requires Sound(p, tables, limit) && IsWalk(p, tables, token, limit, fetches) && !Finished(fetches, limit)
    ensures exists rows :: IsWalk(p, tables + [table], token, limit, fetches + [rows])
  {
    var last := fetches[|fetches| - 1];
    var rows := OneAnswer(table, Some(last[limit - 1]), limit);
    WalkMore(p, tables, token, limit, fetches, table, rows);
  }

  // ------------------------------------------------------------ a table that does not change

  ghost predicate IsWalkOver(p: Platform, table: set<Cursor>, token: string, limit: nat, fetches: seq<seq<Cursor>>) {
    IsWalk(p, seq(|fetches|, _ => table), token, limit, fetches)
  }

  // A page takes its rows away from those that are left.
  lemma PageTakesRows(table: set<Cursor>, anchor: Option<Cursor>, limit: nat, rows: seq<Cursor>)
    requires 1 <= limit < |rows| && Fetched(table, anchor, limit, rows)
    ensures |Rest(table, anchor)| >= limit + |Rest(table, Some(rows[limit - 1]))|
    ensures |Rest(table, Some(rows[limit - 1]))| > 0
  {
    var last := rows[limit - 1];
    var items := rows[..limit];
    var given := set row | row in items;
    var rest := Rest(table, Some(last));
    assert IsSorted(items, given);
    SortedSize(items, given);
    assert rows[limit] in rows && Below(rows[limit], last) && rows[limit] in rest;
    forall i | 0 <= i < limit
      ensures !Below(items[i], last)
    {
      RowsAreOrdered(items[i], last);
    }
    forall row | row in rest
      ensures row !in given && row in Rest(table, anchor)
    {
      assert last in rows;
      if anchor.Some? {
        BelowTransitive(row, last, anchor.value);
      }
    }
    forall row | row in given
      ensures row in Rest(table, anchor)
    {
      assert row in rows;
    }
    SubsetSize(given + rest, Rest(table, anchor));
    assert given !! rest;
  }

  lemma WalkOverGoesOn(p: Platform, table: set<Cursor>, token: string, limit: nat, fetches: seq<seq<Cursor>>)
    requires Sound(p, [table], limit) && IsWalkOver(p, table, token, limit, fetches) && |fetches| > 1
    ensures Seek(p, token).Some? && Fetched(table, Seek(p, token).value, limit, fetches[0]) && |fetches[0]| == limit + 1
    ensures
      var next := BuildPage(p, fetches[0], limit).next;
      && next.Some? && Seek(p, next.value) == Some(Some(fetches[0][limit - 1]))
      && IsWalkOver(p, table, next.value, limit, fetches[1..])
  {
    var tables := seq(|fetches|, _ => table);
    assert Sound(p, tables, limit) by { assert table == [table][0]; }
    WalkGoesOn(p, tables, token, limit, fetches);
    assert tables[1..] == seq(|fetches| - 1, _ => table);
  }

  // How many rows full pages hold.
  function Full(pages: nat, limit: nat): nat { pages * limit }

  lemma FullMore(pages: nat, limit: nat)
    ensures Full(pages + 1, limit) == Full(pages, limit) + limit
  {
  }

  lemma {:induction false} OpenWalkLeavesRows(p: Platform, table: set<Cursor>, token: string, limit: nat,
                                              fetches: seq<seq<Cursor>>)
    requires Sound(p, [table], limit) && IsWalkOver(p, table, token, limit, fetches) && !Finished(fetches, limit)
    ensures Seek(p, token).Some? && Full(|fetches|, limit) < |Rest(table, Seek(p, token).value)|
    decreases |fetches|
  {
    if |fetches| == 1 {
      PageTakesRows(table, Seek(p, token).value, limit, fetches[0]);
    } else {
      hide IsWalk, Fetched, Seek, BuildPage, Full, IsWalkOver;
      WalkOverGoesOn(p, table, token, limit, fetches);
      OpenWalkLeavesRows(p, table, BuildPage(p, fetches[0], limit).next.value, limit, fetches[1..]);
      PageTakesRows(table, Seek(p, token).value, limit, fetches[0]);
      FullMore(|fetches| - 1, limit);
    }
  }

  // As long as a walk over a fixed table has not ended, it has not seen all its rows.
  lemma OpenWalksAreShort(p: Platform, table: set<Cursor>, limit: nat, fetches: seq<seq<Cursor>>)
    requires Sound(p, [table], limit) && IsWalkOver(p, table, "", limit, fetches) && !Finished(fetches, limit)
    ensures Full(|fetches|, limit) < |table|
  {
    OpenWalkLeavesRows(p, table, "", limit, fetches);
    SubsetSize(Rest(table, None), table);
  }

  // Whoever follows the cursors over a fixed table gets the pages of the walk that ends, in that order.
  lemma {:induction false} WalksAgree(p: Platform, table: set<Cursor>, token: string, limit: nat,
                                      ended: seq<seq<Cursor>>, fetches: seq<seq<Cursor>>)
    requires Sound(p, [table], limit)
    requires IsWalkOver(p, table, token, limit, ended) && Finished(ended, limit)
    requires IsWalkOver(p, table, token, limit, fetches)
    ensures fetches <= ended
    decreases |fetches|
  {
    var rows := OneAnswer(table, Seek(p, token).value, limit);
    assert fetches[0] == rows == ended[0];
    if |fetches| > 1 {
      hide IsWalk, Fetched, Seek, BuildPage;
      WalkOverGoesOn(p, table, token, limit, fetches);
      WalkOverGoesOn(p, table, token, limit, ended);
      WalksAgree(p, table, BuildPage(p, rows, limit).next.value, limit, ended[1..], fetches[1..]);
      assert fetches == [rows] + fetches[1..] && ended == [rows] + ended[1..];
    }
  }

  lemma NextPage(p: Platform, table: set<Cursor>, limit: nat, fetches: seq<seq<Cursor>>) returns (rows: seq<Cursor>)
    requires Sound(p, [table], limit) && IsWalkOver(p, table, "", limit, fetches) && !Finished(fetches, limit)
    ensures IsWalkOver(p, table, "", limit, fetches + [rows])
  {
    var tables := seq(|fetches|, _ => table);
    assert Sound(p, tables, limit) by { assert table == [table][0]; }
    WalksGoOn(p, tables, "", limit, fetches, table);
    rows :| IsWalk(p, tables + [table], "", limit, fetches + [rows]);
    assert tables + [table] == seq(|fetches| + 1, _ => table);
  }

  lemma EndedWalk(p: Platform, table: set<Cursor>, limit: nat) returns (fetches: seq<seq<Cursor>>)
    requires Sound(p, [table], limit)
    ensures IsWalkOver(p, table, "", limit, fetches) && Finished(fetches, limit)
  {
    var rows := OneAnswer(table, None, limit);
    fetches := [rows];
    assert IsWalkOver(p, table, "", limit, fetches);
    hide IsWalkOver, Full, Fetched;
    while !Finished(fetches, limit)
      invariant IsWalkOver(p, table, "", limit, fetches)
      decreases |table| - Full(|fetches|, limit)
    {
      OpenWalksAreShort(p, table, limit, fetches);
      FullMore(|fetches|, limit);
      rows := NextPage(p, table, limit, fetches);
      fetches := fetches + [rows];
    }
  }

  // On a table that stays as it is, following the cursors comes to an end, always with the same pages. Put together
  // they are the table, newest first, and there are as many as it takes: one even for an empty table.
  lemma FixedTableIsListed(p: Platform, table: set<Cursor>, limit: nat) returns (fetches: seq<seq<Cursor>>)
    requires Sound(p, [table], limit)
    ensures IsWalkOver(p, table, "", limit, fetches) && Finished(fetches, limit)
    ensures forall other :: IsWalkOver(p, table, "", limit, other) ==> other <= fetches
    ensures IsSorted(Returned(fetches, limit), table)
    ensures |table| <= |fetches| * limit && (|fetches| == 1 || (|fetches| - 1) * limit < |table|)
  {
    fetches := EndedWalk(p, table, limit);
    forall other | IsWalkOver(p, table, "", limit, other)
      ensures other <= fetches
    {
      WalksAgree(p, table, "", limit, fetches, other);
    }
    var tables := seq(|fetches|, _ => table);
    assert Sound(p, tables, limit) by { assert table == [table][0]; }
    EndedWalkListsTheTable(p, table, tables, limit, fetches);
  }
}
