/** Loading the recent history: the newest rows of the inbox and of the outbox, merged. */
module History {
  import opened Common

  /** A stored message; a row whose ciphertext does not verify is not `readable`. */
  datatype Row = Row(timestamp: int, outgoing: bool, body: Bytes, readable: bool)

  predicate NewestFirst(rows: seq<Row>) {
    forall i, j | 0 <= i < j < |rows| :: rows[i].timestamp >= rows[j].timestamp
  }

  function Readable(rows: seq<Row>): (r: seq<Row>)
    ensures forall x :: x in r <==> x in rows && x.readable
  {
    if rows == [] then []
    else
      assert rows == rows[..|rows| - 1] + [rows[|rows| - 1]];
      Readable(rows[..|rows| - 1]) + if rows[|rows| - 1].readable then [rows[|rows| - 1]] else []
  }

  /** Every readable row is kept as often as it is there. */
  lemma {:induction false} ReadableCounts(rows: seq<Row>, x: Row)
    ensures multiset(Readable(rows))[x] == if x.readable then multiset(rows)[x] else 0
  {
    if rows != [] {
      var n := |rows| - 1;
      ReadableCounts(rows[..n], x);
      assert rows == rows[..n] + [rows[n]];
    }
  }

  function Min(a: nat, b: nat): nat {
    if a < b then a else b
  }

  /** The rows a query with this limit returns, from a table in the order of the query. */
  function Window(table: seq<Row>, limit: nat): seq<Row> {
    table[..Min(limit, |table|)]
  }

  /** `r` is newest first, made of rows of `all`, as many as the limit lets through, and omits no newer row. */
  ghost predicate TopK(all: multiset<Row>, limit: nat, r: seq<Row>) {
    && NewestFirst(r)
    && multiset(r) <= all
    && |r| == Min(limit, |all|)
    && forall x, y | x in r && y in all - multiset(r) :: x.timestamp >= y.timestamp
  }

  /** No row of `a` is older than one of `b`. */
  predicate AllNewer(a: seq<Row>, b: seq<Row>) {
    forall i, j | 0 <= i < |a| && 0 <= j < |b| :: a[i].timestamp >= b[j].timestamp
  }

  lemma SplitNewest(rows: seq<Row>, n: nat)
    requires NewestFirst(rows) && n <= |rows|
    ensures NewestFirst(rows[..n]) && NewestFirst(rows[n..]) && AllNewer(rows[..n], rows[n..])
    ensures multiset(rows) == multiset(rows[..n]) + multiset(rows[n..])
  {
    assert rows == rows[..n] + rows[n..];
    var b := rows[n..];
    forall i, j | 0 <= i < j < |b|
      ensures b[i].timestamp >= b[j].timestamp
    {
      assert b[i] == rows[n + i] && b[j] == rows[n + j];
    }
    forall i, j | 0 <= i < n && 0 <= j < |b|
      ensures rows[i].timestamp >= b[j].timestamp
    {
      assert b[j] == rows[n + j];
    }
  }

  lemma JoinNewest(a: seq<Row>, b: seq<Row>)
    requires NewestFirst(a) && NewestFirst(b) && AllNewer(a, b)
    ensures NewestFirst(a + b)
  {
    var r := a + b;
    forall i, j | 0 <= i < j < |r|
      ensures r[i].timestamp >= r[j].timestamp
    {
      if i < |a| <= j {
        assert a[i].timestamp >= b[j - |a|].timestamp;
      } else if |a| <= i {
        assert b[i - |a|].timestamp >= b[j - |a|].timestamp;
      }
    }
  }

  // ----- The operation -----------------------------------------------------

  method ReadWindow(table: seq<Row>, limit: nat) returns (rows: seq<Row>)
    ensures rows == Readable(Window(table, limit))
  {
    rows := [];
    var n := Min(limit, |table|);
    for i := 0 to n
      invariant rows == Readable(table[..i])
    {
      assert table[..i + 1][..i] == table[..i];
      if table[i].readable { rows := rows + [table[i]]; }
    }
  }

  /** Where a row goes in a list that is newest first. */
  method InsertRow(rows: seq<Row>, row: Row) returns (r: seq<Row>)
    requires NewestFirst(rows)
    ensures NewestFirst(r) && multiset(r) == multiset(rows) + multiset{row}
  {
    var i := 0;
    while i < |rows| && rows[i].timestamp >= row.timestamp
      invariant 0 <= i <= |rows|
      invariant forall k | 0 <= k < i :: rows[k].timestamp >= row.timestamp
    {
      i := i + 1;
    }
    InsertKeepsOrder(rows, i, row);
    r := rows[..i] + ([row] + rows[i..]);
  }

  lemma InsertKeepsOrder(rows: seq<Row>, i: nat, row: Row)
    requires NewestFirst(rows) && i <= |rows|
    requires AllNewer(rows[..i], [row]) && (i < |rows| ==> rows[i].timestamp < row.timestamp)
    ensures var r := rows[..i] + ([row] + rows[i..]);
            NewestFirst(r) && multiset(r) == multiset(rows) + multiset{row}
  {
    hide NewestFirst;
    var a, b := rows[..i], rows[i..];
    SplitNewest(rows, i);
    assert i < |rows| ==> b[0] == rows[i];
    NewestOf(row, b);
    forall k, j | 0 <= k < |a| && 0 <= j < |b| + 1
      ensures a[k].timestamp >= ([row] + b)[j].timestamp
    {
      if j == 0 {
        assert a[k].timestamp >= [row][0].timestamp;
      } else {
        assert ([row] + b)[j] == b[j - 1];
      }
    }
    JoinNewest(a, [row] + b);
  }

  lemma NewestOf(row: Row, b: seq<Row>)
    requires NewestFirst(b) && (b != [] ==> row.timestamp >= b[0].timestamp)
    ensures NewestFirst([row] + b)
  {
    forall j | 0 <= j < |b|
      ensures row.timestamp >= b[j].timestamp
    {
      assert b[0].timestamp >= b[j].timestamp;
    }
    JoinNewest([row], b);
  }

  method SortNewestFirst(rows: seq<Row>) returns (r: seq<Row>)
    ensures NewestFirst(r) && multiset(r) == multiset(rows)
  {
    r := [];
    for i := 0 to |rows|
      invariant NewestFirst(r) && multiset(r) == multiset(rows[..i])
    {
      r := InsertRow(r, rows[i]);
      assert rows[..i + 1] == rows[..i] + [rows[i]];
    }
    assert rows[..|rows|] == rows;
  }

  /** The newest of what the two windows let through. */
  method LoadRecentHistory(inbox: seq<Row>, outbox: seq<Row>, limit: nat) returns (r: seq<Row>)
    ensures TopK(multiset(Through(inbox, outbox, limit)), limit, r)
  {
    var received := ReadWindow(inbox, limit);
    var sent := ReadWindow(outbox, limit);
    var all := received + sent;
    var sorted := SortNewestFirst(all);
    assert |sorted| == |multiset(sorted)|;
    r := if |sorted| > limit then sorted[..limit] else sorted;
    TruncationIsTopK(sorted, limit);
  }

  function Through(inbox: seq<Row>, outbox: seq<Row>, limit: nat): seq<Row> {
    Readable(Window(inbox, limit)) + Readable(Window(outbox, limit))
  }

  /** All that could be shown. */
  function Whole(inbox: seq<Row>, outbox: seq<Row>): seq<Row> {
    Readable(inbox) + Readable(outbox)
  }

  lemma TruncationIsTopK(sorted: seq<Row>, limit: nat)
    requires NewestFirst(sorted)
    ensures TopK(multiset(sorted), limit, if |sorted| > limit then sorted[..limit] else sorted)
  {
    assert |multiset(sorted)| == |sorted|;
    if |sorted| > limit {
      SplitNewest(sorted, limit);
      hide NewestFirst;
      var r, rest := sorted[..limit], sorted[limit..];
      assert multiset(sorted) - multiset(r) == multiset(rest);
      forall x: Row, y: Row | x in r && y in multiset(rest)
        ensures x.timestamp >= y.timestamp
      {
        assert y in rest;
      }
    }
  }

  // ----- Against the whole history -----------------------------------------

  /** At least `limit` of the rows are as new as `c`. */
  ghost predicate Covered(rows: multiset<Row>, limit: nat, c: Row) {
    exists w: multiset<Row> :: w <= rows && |w| == limit && forall x | x in w :: x.timestamp >= c.timestamp
  }

  lemma SmallerMultiset(a: multiset<Row>, b: multiset<Row>)
    requires a <= b
    ensures |b| == |a| + |b - a|
  {
    assert a + (b - a) == b;
  }

  /**
   The newest of some rows are the newest of more rows exactly when enough of the former are as new
   as each of the rest.
   */
  lemma TopKOfMoreIff(some: multiset<Row>, all: multiset<Row>, limit: nat, r: seq<Row>)
    requires some <= all && TopK(some, limit, r)
    ensures TopK(all, limit, r) <==> forall c | c in all - some :: Covered(some, limit, c)
  {
    SmallerMultiset(some, all);
    if TopK(all, limit, r) {
      forall c | c in all - some
        ensures Covered(some, limit, c)
      {
        assert c in all - multiset(r);
        assert |multiset(r)| == |r| == limit;
      }
    } else if forall c | c in all - some :: Covered(some, limit, c) {
      CoveredIsTopK(some, all, limit, r);
      assert false;
    }
  }

  lemma CoveredIsTopK(some: multiset<Row>, all: multiset<Row>, limit: nat, r: seq<Row>)
    requires some <= all && TopK(some, limit, r) && forall c | c in all - some :: Covered(some, limit, c)
    ensures TopK(all, limit, r)
  {
    SmallerMultiset(some, all);
    if |all - some| != 0 {
      var c :| c in all - some;
      var w: multiset<Row> :| w <= some && |w| == limit && forall x | x in w :: x.timestamp >= c.timestamp;
      SmallerMultiset(w, some);
    }
    forall x, y | x in r && y in all - multiset(r)
      ensures x.timestamp >= y.timestamp
    {
      if y !in some - multiset(r) {
        assert y in all - some;
        CoveredByTop(some, limit, r, x, y);
      }
    }
  }

  /** When `limit` rows are as new as `y`, so are all of the newest `limit`. */
  lemma CoveredByTop(some: multiset<Row>, limit: nat, r: seq<Row>, x: Row, y: Row)
    requires TopK(some, limit, r) && x in r && Covered(some, limit, y)
    ensures x.timestamp >= y.timestamp
  {
    var w: multiset<Row> :| w <= some && |w| == limit && forall z | z in w :: z.timestamp >= y.timestamp;
    var others := multiset(r) - multiset{x};
    SmallerMultiset(multiset{x}, multiset(r));
    assert |others| < limit;
    if x.timestamp < y.timestamp {
      forall z | z in w
        ensures w[z] <= others[z]
      {
        assert z !in some - multiset(r);
      }
      SmallerMultiset(w, others);
      assert false;
    }
  }

  // ----- What the windows leave out ----------------------------------------

  lemma {:induction false} ReadableConcat(a: seq<Row>, b: seq<Row>)
    ensures Readable(a + b) == Readable(a) + Readable(b)
    decreases |b|
  {
    if b == [] {
      assert a + b == a && Readable(a) + [] == Readable(a);
    } else {
      assert (a + b)[..|a + b| - 1] == a + b[..|b| - 1];
      ReadableConcat(a, b[..|b| - 1]);
    }
  }

  lemma {:induction false} ReadableAll(rows: seq<Row>)
    requires forall x | x in rows :: x.readable
    ensures Readable(rows) == rows
  {
    if rows != [] {
      var n := |rows| - 1;
      assert rows == rows[..n] + [rows[n]] && rows[n] in rows;
      ReadableAll(rows[..n]);
    }
  }

  /** The rows beyond the limit. */
  function Beyond(table: seq<Row>, limit: nat): seq<Row> {
    table[Min(limit, |table|)..]
  }

  lemma Split(inbox: seq<Row>, outbox: seq<Row>, limit: nat)
    ensures var through, whole := multiset(Through(inbox, outbox, limit)), multiset(Whole(inbox, outbox));
            && through <= whole
            && whole - through == multiset(Readable(Beyond(inbox, limit))) + multiset(Readable(Beyond(outbox, limit)))
  {
    assert inbox == Window(inbox, limit) + Beyond(inbox, limit);
    assert outbox == Window(outbox, limit) + Beyond(outbox, limit);
    ReadableConcat(Window(inbox, limit), Beyond(inbox, limit));
    ReadableConcat(Window(outbox, limit), Beyond(outbox, limit));
  }

  /**
   The result is the newest `limit` of the whole readable history exactly when, for every
   readable row beyond a window, the windows hold `limit` readable rows as new as it.
   */
  lemma NewestOfAllIff(inbox: seq<Row>, outbox: seq<Row>, limit: nat, r: seq<Row>)
    requires TopK(multiset(Through(inbox, outbox, limit)), limit, r)
    ensures TopK(multiset(Whole(inbox, outbox)), limit, r) <==>
            forall c | c in Readable(Beyond(inbox, limit)) || c in Readable(Beyond(outbox, limit)) ::
              Covered(multiset(Through(inbox, outbox, limit)), limit, c)
  {
    hide TopK, Covered, Readable, Through, Whole, Beyond;
    var through, whole := multiset(Through(inbox, outbox, limit)), multiset(Whole(inbox, outbox));
    Split(inbox, outbox, limit);
    TopKOfMoreIff(through, whole, limit, r);
    assert forall c :: c in whole - through <==>
      c in Readable(Beyond(inbox, limit)) || c in Readable(Beyond(outbox, limit));
  }

  /** A full window of readable rows covers everything beyond it. */
  lemma FullWindowCovers(table: seq<Row>, limit: nat, rows: multiset<Row>, c: Row)
    requires NewestFirst(table) && (forall x | x in Window(table, limit) :: x.readable)
    requires multiset(Readable(Window(table, limit))) <= rows && c in Readable(Beyond(table, limit))
    ensures Covered(rows, limit, c)
  {
    hide NewestFirst, Readable;
    var window, n := Window(table, limit), Min(limit, |table|);
    ReadableAll(window);
    SplitNewest(table, n);
    assert c in table[n..];
    assert |multiset(window)| == |window| == limit;
    forall x: Row | x in multiset(window)
      ensures x.timestamp >= c.timestamp
    {
      assert x in window;
    }
  }

  /** Without unreadable rows in the windows, no omitted row is newer than a returned one. */
  lemma ReadableWindowsSuffice(inbox: seq<Row>, outbox: seq<Row>, limit: nat, r: seq<Row>)
    requires NewestFirst(inbox) && NewestFirst(outbox)
    requires forall x | x in Window(inbox, limit) || x in Window(outbox, limit) :: x.readable
    requires TopK(multiset(Through(inbox, outbox, limit)), limit, r)
    ensures TopK(multiset(Whole(inbox, outbox)), limit, r)
  {
    hide TopK, Covered, Readable;
    var through := multiset(Through(inbox, outbox, limit));
    forall c | c in Readable(Beyond(inbox, limit)) || c in Readable(Beyond(outbox, limit))
      ensures Covered(through, limit, c)
    {
      if c in Readable(Beyond(inbox, limit)) {
        FullWindowCovers(inbox, limit, through, c);
      } else {
        FullWindowCovers(outbox, limit, through, c);
      }
    }
    NewestOfAllIff(inbox, outbox, limit, r);
  }

  /**
   An unreadable row in the window hides an older readable one: nothing is returned although there
   is history to show.
   */
  lemma UnreadableHidesReadable()
    ensures var bad, good := Row(2, false, [], false), Row(1, false, [], true);
            && TopK(multiset(Through([bad, good], [], 1)), 1, [])
            && !TopK(multiset(Whole([bad, good], [])), 1, [])
  {
    var bad, good := Row(2, false, [], false), Row(1, false, [], true);
    assert Window([bad, good], 1) == [bad] && Readable([]) == [];
    assert Readable([bad]) == [] && Readable([bad, good]) == [good] by {
      assert [bad, good][..1] == [bad] && [bad][..0] == [];
    }
    assert Through([bad, good], [], 1) == [] && Whole([bad, good], []) == [good];
  }
}
