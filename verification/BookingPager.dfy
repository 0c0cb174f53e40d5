/**
 The keyset pager over bookings: fetches of 100 rows, at most about 1000 rows scanned
 per page, at most `limit` readable rows returned, and a cursor on the last row scanned.
 */
module BookingPager {
  import opened Prelude

  datatype Key = Key(startsAt: int, id: nat)
  datatype Row = Row(key: Key, lead: nat)
  datatype Page = Page(items: seq<Row>, hasMore: bool, next: Option<Key>)
  datatype Refusal = Invalid

  predicate Before(a: Key, b: Key) {
    a.startsAt < b.startsAt || (a.startsAt == b.startsAt && a.id < b.id)
  }

  /** Keys are ordered by their start and then by their identifier: no two different ones are unordered. */
  lemma KeysAreOrdered(a: Key, b: Key)
    ensures a.startsAt < b.startsAt ==> Before(a, b) && !Before(b, a)
    ensures a.startsAt == b.startsAt ==> (Before(a, b) <==> a.id < b.id)
    ensures Before(a, b) || Before(b, a) || a == b
  {
  }

  predicate After(k: Key, seek: Option<Key>) {
    seek.None? || Before(seek.value, k)
  }

  /** The table in query order; appointment ids are unique. */
  predicate InOrder(rows: seq<Row>) {
    forall i, j :: 0 <= i < j < |rows| ==> Before(rows[i].key, rows[j].key)
  }

  /** The rows of the audience behind the cursor, in order: what an unbounded query returns. */
  function Rest(table: seq<Row>, audience: set<nat>, seek: Option<Key>): (r: seq<Row>)
  {
    if table == [] then []
    else
      var tail := Rest(table[1..], audience, seek);
      if table[0].key.id in audience && After(table[0].key, seek) then [table[0]] + tail else tail
  }

  /** The rows whose final permission check passes. */
  function Readable(rows: seq<Row>, readable: set<nat>): (r: seq<Row>)
    ensures |r| <= |rows|
  {
    if rows == [] then []
    else
      var front := Readable(rows[..|rows| - 1], readable);
      if rows[|rows| - 1].key.id in readable then front + [rows[|rows| - 1]] else front
  }

  lemma {:induction false} RestElements(table: seq<Row>, audience: set<nat>, seek: Option<Key>)
    ensures forall x :: x in Rest(table, audience, seek) ==> x in table && x.key.id in audience && After(x.key, seek)
  {
    if table != [] {
      RestElements(table[1..], audience, seek);
    }
  }

  lemma {:induction false} EverythingIsBehind(table: seq<Row>, audience: set<nat>, seek: Option<Key>,
                                              seek': Option<Key>)
    requires forall x :: x in table ==> After(x.key, seek) && After(x.key, seek')
    ensures Rest(table, audience, seek) == Rest(table, audience, seek')
  {
    if table != [] {
      EverythingIsBehind(table[1..], audience, seek, seek');
    }
  }

  /** Moving the cursor to the p-th remaining row drops exactly the first p rows. */
  lemma {:induction false} CursorAdvances(table: seq<Row>, audience: set<nat>, seek: Option<Key>, p: nat)
    requires InOrder(table) && 0 < p <= |Rest(table, audience, seek)|
    ensures Rest(table, audience, Some(Rest(table, audience, seek)[p - 1].key)) == Rest(table, audience, seek)[p..]
  {
    var head, rest := table[0], Rest(table, audience, seek);
    var tail := Rest(table[1..], audience, seek);
    var k := rest[p - 1].key;
    RestElements(table, audience, seek);
    RestElements(table[1..], audience, seek);
    assert rest[p - 1] in rest;
    assert forall x :: x in table[1..] ==> Before(head.key, x.key);
    if head.key.id in audience && After(head.key, seek) {
      assert rest == [head] + tail && rest[p..] == tail[p - 1..];
      if p == 1 {
        EverythingIsBehind(table[1..], audience, seek, Some(k));
      } else {
        assert rest[p - 1] == tail[p - 2] && tail[p - 2] in tail;
        CursorAdvances(table[1..], audience, seek, p - 1);
      }
    } else {
      CursorAdvances(table[1..], audience, seek, p);
    }
  }

  lemma {:induction false} RestIsInOrder(table: seq<Row>, audience: set<nat>, seek: Option<Key>)
    requires InOrder(table)
    ensures InOrder(Rest(table, audience, seek))
  {
    if table != [] {
      RestIsInOrder(table[1..], audience, seek);
      RestElements(table[1..], audience, seek);
      assert forall x :: x in table[1..] ==> Before(table[0].key, x.key);
      var tail := Rest(table[1..], audience, seek);
      assert forall i :: 0 <= i < |tail| ==> tail[i] in tail;
    }
  }

  function Take(rows: seq<Row>, n: nat): seq<Row> {
    if |rows| <= n then rows else rows[..n]
  }

  /** `n` rows behind the cursor are accounted for by the page. */
  ghost predicate Covers(page: Page, rest: seq<Row>, readable: set<nat>, n: nat) {
    && n <= |rest| && page.items == Readable(rest[..n], readable)
    && (page.hasMore ==> n > 0 && page.next == Some(rest[n - 1].key))
    && (!page.hasMore ==> n == |rest| && page.next == None)
  }

  /** One fetched batch: rows are scanned until the page is full or the batch is used up. */
  method Scan(rows: seq<Row>, readable: set<nat>, limit: int, found: seq<Row>) returns (items: seq<Row>, index: nat)
    requires |found| < limit
    ensures index <= |rows| && items == found + Readable(rows[..index], readable) && |items| <= limit
    ensures index < |rows| ==> |items| == limit
    ensures rows != [] ==> index > 0
  {
    items, index := found, 0;
    while index < |rows| && |items| < limit
      invariant index <= |rows| && items == found + Readable(rows[..index], readable) && |items| <= limit
      invariant index == 0 ==> items == found
    {
      assert rows[..index + 1][..index] == rows[..index];
      if rows[index].key.id in readable {
        items := items + [rows[index]];
      }
      index := index + 1;
    }
  }

  /** The cursor stands behind the first `n` of the `rest`, all of which are accounted for. */
  ghost predicate Scanned(rest: seq<Row>, readable: set<nat>, cursor: Option<Key>, n: nat, seek: Option<Key>,
                          items: seq<Row>) {
    && n <= |rest| && items == Readable(rest[..n], readable)
    && seek == (if n == 0 then cursor else Some(rest[n - 1].key))
  }

  /** What an unbounded query behind the cursor would return. */
  lemma NextFetch(table: seq<Row>, audience: set<nat>, readable: set<nat>, cursor: Option<Key>, n: nat,
                  seek: Option<Key>, items: seq<Row>)
    requires InOrder(table) && Scanned(Rest(table, audience, cursor), readable, cursor, n, seek, items)
    ensures Rest(table, audience, seek) == Rest(table, audience, cursor)[n..]
  {
    if n != 0 {
      CursorAdvances(table, audience, cursor, n);
    }
  }

  lemma RowsScanned(rest: seq<Row>, readable: set<nat>, cursor: Option<Key>, n: nat, seek: Option<Key>, items: seq<Row>,
                    index: nat)
    requires Scanned(rest, readable, cursor, n, seek, items) && 0 < index <= |rest| - n
    ensures Scanned(rest, readable, cursor, n + index, Some(rest[n..][index - 1].key), items
                    + Readable(rest[n..][..index], readable))
  {
    ReadableConcat(rest[..n], rest[n..][..index], readable);
    assert rest[..n] + rest[n..][..index] == rest[..n + index];
  }

  method Bookings(table: seq<Row>, audience: set<nat>, readable: set<nat>, cursor: Option<Key>, limit: int)
    returns (r: Result<Page, Refusal>, ghost n: nat)
    requires InOrder(table)
    ensures r.Refused? <==> limit < 1 || limit > 100
    ensures r.Ok? ==> |r.value.items| <= limit && Covers(r.value, Rest(table, audience, cursor), readable, n)
    ensures r.Ok? && r.value.hasMore ==> |r.value.items| == limit || n >= 1000
  {
    n := 0;
    if limit < 1 || limit > 100 {
      return Refused(Invalid), 0;
    }
    ghost var rest := Rest(table, audience, cursor);
    var items: seq<Row>, seek, hasMore, scanned, stop := [], cursor, false, 0, false;
    while !stop && scanned < 1000 && |items| < limit
      invariant Scanned(rest, readable, cursor, n, seek, items) && |items| <= limit
      invariant scanned == n
      invariant hasMore ==> n > 0
      invariant !hasMore ==> n == (if stop then |rest| else 0)
      invariant stop ==> !hasMore
      decreases !stop, 1000 - scanned
    {
      NextFetch(table, audience, readable, cursor, n, seek, items);
      var rows := Take(Rest(table, audience, seek), 100);
      if rows == [] {
        hasMore, stop := false, true;
      } else {
        var index;
        ghost var before := items;
        items, index := Scan(rows, readable, limit, items);
        assert rows[..index] == rest[n..][..index];
        RowsScanned(rest, readable, cursor, n, seek, before, index);
        scanned, seek, n := scanned + index, Some(rows[index - 1].key), n + index;
        hasMore := |rows| == 100 || index < |rows|;
        stop := !hasMore;
      }
    }
    r := Ok(Page(items, hasMore, if hasMore then seek else None));
  }

  /** A client that follows nextCursor until it stops receives every readable row exactly once, in order. */
  method FollowCursors(table: seq<Row>, audience: set<nat>, readable: set<nat>, limit: int) returns (all: seq<Row>)
    requires InOrder(table) && 1 <= limit <= 100
    ensures all == Readable(Rest(table, audience, None), readable)
  {
    ghost var p: nat, rest := 0, Rest(table, audience, None);
    var cursor: Option<Key>, more := None, true;
    all := [];
    while more
      invariant if more then Scanned(rest, readable, None, p, cursor, all) else all == Readable(rest, readable)
      decreases more, |rest| - p
    {
      ghost var n;
      var r;
      NextFetch(table, audience, readable, None, p, cursor, all);
      r, n := Bookings(table, audience, readable, cursor, limit);
      PageAppended(rest, readable, p, cursor, all, r.value, n);
      p := p + n;
      all, cursor, more := all + r.value.items, r.value.next, r.value.hasMore;
    }
  }

  lemma PageAppended(rest: seq<Row>, readable: set<nat>, p: nat, cursor: Option<Key>, all: seq<Row>, page: Page, n: nat)
    requires Scanned(rest, readable, None, p, cursor, all) && Covers(page, rest[p..], readable, n)
    ensures page.hasMore ==> n > 0 && Scanned(rest, readable, None, p + n, page.next, all + page.items)
    ensures !page.hasMore ==> all + page.items == Readable(rest, readable)
  {
    ReadableConcat(rest[..p], rest[p..][..n], readable);
    assert rest[..p] + rest[p..][..n] == rest[..p + n];
    assert n == |rest[p..]| ==> rest[..p + n] == rest;
  }

  lemma {:induction false} ReadableConcat(a: seq<Row>, b: seq<Row>, readable: set<nat>)
    ensures Readable(a + b, readable) == Readable(a, readable) + Readable(b, readable)
  {
    if b == [] {
      assert a + b == a;
    } else {
      var n := |b| - 1;
      ReadableConcat(a, b[..n], readable);
      assert (a + b)[..|a + b| - 1] == a + b[..n];
    }
  }

  /** The collected rows are the table filtered once: audience and permission, in table order. */
  lemma CollectedIsTheFilteredTable(table: seq<Row>, audience: set<nat>, readable: set<nat>, x: Row)
    requires InOrder(table)
    ensures
      var all := Readable(Rest(table, audience, None), readable);
      && InOrder(all)
      && (x in all <==> x in table && x.key.id in audience && x.key.id in readable)
  {
    RestIsInOrder(table, audience, None);
    RestMembers(table, audience, x);
    ReadableMembers(Rest(table, audience, None), readable, x);
  }

  lemma {:induction false} RestMembers(table: seq<Row>, audience: set<nat>, x: Row)
    ensures x in Rest(table, audience, None) <==> x in table && x.key.id in audience
  {
    if table != [] {
      RestMembers(table[1..], audience, x);
    }
  }

  lemma {:induction false} ReadableMembers(rows: seq<Row>, readable: set<nat>, x: Row)
    requires InOrder(rows)
    ensures x in Readable(rows, readable) <==> x in rows && x.key.id in readable
    ensures InOrder(Readable(rows, readable))
  {
    if rows != [] {
      ReadableMembers(rows[..|rows| - 1], readable, x);
      ReadableStaysInOrder(rows, readable);
    }
  }

  lemma {:induction false} ReadableAreRows(rows: seq<Row>, readable: set<nat>)
    ensures forall y :: y in Readable(rows, readable) ==> y in rows
  {
    if rows != [] {
      ReadableAreRows(rows[..|rows| - 1], readable);
    }
  }

  lemma ReadableStaysInOrder(rows: seq<Row>, readable: set<nat>)
    requires rows != [] && InOrder(rows) && InOrder(Readable(rows[..|rows| - 1], readable))
    ensures InOrder(Readable(rows, readable))
  {
    var n := |rows| - 1;
    var front := Readable(rows[..n], readable);
    ReadableAreRows(rows[..n], readable);
    forall i | 0 <= i < |front| ensures Before(front[i].key, rows[n].key) {
      assert front[i] in front && front[i] in rows[..n];
    }
  }
}
