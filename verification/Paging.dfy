/** Keyset paging as every listing does it: ask for one row more than the page holds, and point the
    cursor at the last row shown (internal/messages/service.go, internal/search/service.go,
    internal/users/admin.go). */
module Paging {
  import opened Basics
  import opened Keyset

  datatype Page = Page(items: seq<Key>, next: Option<Key>)

  // `keys` are the rows the filter lets through, by the time the listing orders on.
  method List(o: Order, keys: set<Key>, cursor: Option<Key>, limit: nat) returns (page: Page)
    requires limit >= 1
    ensures page == PageOf(o, keys, cursor, limit)
  {
    var rows := Scan(o, Beyond(o, keys, cursor), limit + 1);
    ScanPrefix(o, Beyond(o, keys, cursor), limit);
    var next: Option<Key> := None;
    if |rows| > limit {
      next := Some(rows[limit - 1]);
      rows := rows[..limit];
    }
    page := Page(rows, next);
  }

  // The first rows behind the cursor, and a cursor to the last of them exactly when more remain.
  function PageOf(o: Order, keys: set<Key>, cursor: Option<Key>, limit: nat): Page
    requires limit >= 1
  {
    var rest := Beyond(o, keys, cursor);
    var items := Scan(o, rest, limit);
    Page(items, if |rest| > limit && items != [] then Some(items[|items| - 1]) else None)
  }

  lemma {:induction false} ScanPrefix(o: Order, keys: set<Key>, n: nat)
    ensures |keys| > n ==> |Scan(o, keys, n + 1)| > n && Scan(o, keys, n + 1)[..n] == Scan(o, keys, n)
    ensures |keys| <= n ==> Scan(o, keys, n + 1) == Scan(o, keys, n) && |Scan(o, keys, n + 1)| <= n
  {
    if keys != {} && n > 0 { ScanPrefix(o, keys - {Least(o, keys)}, n - 1); }
  }

  lemma {:induction false} ScanEnough(o: Order, keys: set<Key>, n: nat)
    requires |keys| <= n
    ensures Scan(o, keys, n) == All(o, keys)
  {
    if keys != {} {
      var k := Least(o, keys);
      ScanEnough(o, keys - {k}, n - 1);
      ScanEnough(o, keys - {k}, |keys| - 1);
    }
  }

  // Turning the pages until no cursor comes back.
  function ReadAll(o: Order, keys: set<Key>, cursor: Option<Key>, limit: nat): seq<Key>
    requires limit >= 1
    decreases |Beyond(o, keys, cursor)|
  {
    var page := PageOf(o, keys, cursor, limit);
    if page.next.None? then page.items else
      PageAdvances(o, keys, cursor, limit);
      page.items + ReadAll(o, keys, page.next, limit)
  }

  // One page leaves exactly the rows behind it.
  lemma {:induction false} ScanSplit(o: Order, keys: set<Key>, n: nat)
    requires 0 < n < |keys|
    ensures var items := Scan(o, keys, n);
            && |items| == n && items[n - 1] in keys
            && var rest := Beyond(o, keys, Some(items[n - 1]));
               |rest| == |keys| - n && All(o, keys) == items + All(o, rest)
  {
    var k := Least(o, keys);
    var tail := keys - {k};
    if n > 1 {
      ScanSplit(o, tail, n - 1);
      var last := Scan(o, tail, n - 1)[n - 2];
      BeyondTail(o, keys, last);
      assert Scan(o, keys, n) == [k] + Scan(o, tail, n - 1);
      assert All(o, keys) == [k] + All(o, tail);
    } else {
      assert tail == Beyond(o, keys, Some(k)) && Scan(o, tail, 0) == [];
    }
  }

  lemma BeyondTail(o: Order, keys: set<Key>, last: Key)
    requires keys != {} && last in keys && last != Least(o, keys)
    ensures Beyond(o, keys - {Least(o, keys)}, Some(last)) == Beyond(o, keys, Some(last))
  {}

  lemma PageAdvances(o: Order, keys: set<Key>, cursor: Option<Key>, limit: nat)
    requires limit >= 1 && |Beyond(o, keys, cursor)| > limit
    ensures var page := PageOf(o, keys, cursor, limit);
            && page.next.Some? && |Beyond(o, keys, page.next)| == |Beyond(o, keys, cursor)| - limit
            && All(o, Beyond(o, keys, cursor)) == page.items + All(o, Beyond(o, keys, page.next))
  {
    var rest := Beyond(o, keys, cursor);
    ScanSplit(o, rest, limit);
    var last := Scan(o, rest, limit)[limit - 1];
    assert Beyond(o, rest, Some(last)) == Beyond(o, keys, Some(last));
  }

  /** Following the cursors from the first page ends, and the pages together are the whole list in order, each row once. */
  lemma {:induction false} PagesAreTheList(o: Order, keys: set<Key>, cursor: Option<Key>, limit: nat)
    requires limit >= 1
    ensures ReadAll(o, keys, cursor, limit) == All(o, Beyond(o, keys, cursor))
    decreases |Beyond(o, keys, cursor)|
  {
    var rest := Beyond(o, keys, cursor);
    if |rest| > limit {
      PageAdvances(o, keys, cursor, limit);
      PagesAreTheList(o, keys, PageOf(o, keys, cursor, limit).next, limit);
    } else {
      ScanEnough(o, rest, limit);
    }
  }

  lemma FirstPageReadsEverything(o: Order, keys: set<Key>, limit: nat)
    requires limit >= 1
    ensures var read := ReadAll(o, keys, None, limit); Sorted(o, read) && |read| == |keys| && forall k :: k in read <==> k in keys
  {
    PagesAreTheList(o, keys, None, limit);
    assert Beyond(o, keys, None) == keys;
    AllMeaning(o, keys);
  }
}
