/** Keyset scans: rows identified by (time, id), read in that order from behind a cursor. */
module Keyset {
  import opened Basics

  type Key = (int, nat)
  datatype Order = Asc | Desc

  // x comes before y: the SQL row comparison (t, id) < (t', id'), or > in a descending list.
  predicate Less(o: Order, x: Key, y: Key) {
    if o.Asc? then x.0 < y.0 || (x.0 == y.0 && x.1 < y.1) else y.0 < x.0 || (y.0 == x.0 && y.1 < x.1)
  }

  lemma {:induction false} LeastExists(o: Order, keys: set<Key>)
    requires keys != {}
    ensures exists k :: k in keys && forall j | j in keys :: j == k || Less(o, k, j)
  {
    var k :| k in keys;
    if keys != {k} {
      LeastExists(o, keys - {k});
      var rest :| rest in keys - {k} && forall j | j in keys - {k} :: j == rest || Less(o, rest, j);
      var least := if Less(o, rest, k) then rest else k;
      forall j | j in keys ensures j == least || Less(o, least, j) {
        assert j == k || j in keys - {k};
      }
    }
  }

  function Least(o: Order, keys: set<Key>): (k: Key)
    requires keys != {}
    ensures k in keys && forall j | j in keys :: j == k || Less(o, k, j)
  {
    LeastExists(o, keys);
    var k :| k in keys && forall j | j in keys :: j == k || Less(o, k, j);
    k
  }

  function Beyond(o: Order, keys: set<Key>, cursor: Option<Key>): set<Key> {
    set k | k in keys && (cursor.Some? ==> Less(o, cursor.value, k))
  }

  // ORDER BY time, id LIMIT n
  function Scan(o: Order, keys: set<Key>, n: nat): (page: seq<Key>)
    ensures (page == [] <==> n == 0 || keys == {}) && |page| <= n
  {
    if n == 0 || keys == {} then [] else var k := Least(o, keys); [k] + Scan(o, keys - {k}, n - 1)
  }

  ghost predicate Sorted(o: Order, keys: seq<Key>) { forall i, j | 0 <= i < j < |keys| :: Less(o, keys[i], keys[j]) }

  lemma LeastNext(o: Order, all: set<Key>, cursor: Option<Key>, n: nat)
    requires n > 0 && Beyond(o, all, cursor) != {}
    ensures var k := Least(o, Beyond(o, all, cursor));
            && Scan(o, Beyond(o, all, cursor), n) == [k] + Scan(o, Beyond(o, all, Some(k)), n - 1)
            && |Beyond(o, all, Some(k))| == |Beyond(o, all, cursor)| - 1
            && (forall j | j in Beyond(o, all, cursor) :: j == k || j in Beyond(o, all, Some(k)))
            && Beyond(o, all, Some(k)) <= Beyond(o, all, cursor)
  {
    var k := Least(o, Beyond(o, all, cursor));
    assert Beyond(o, all, cursor) - {k} == Beyond(o, all, Some(k));
  }

  // A scan is sorted, has the length asked for if there are so many rows, and takes the first rows.
  lemma {:induction false} ScanMeaning(o: Order, keys: set<Key>, n: nat)
    ensures var page := Scan(o, keys, n);
            && Sorted(o, page) && |page| == (if n < |keys| then n else |keys|)
            && (forall k | k in page :: k in keys) && (forall k, j | k in page && j in keys && j !in page :: Less(o, k, j))
  {
    if n > 0 && keys != {} {
      var k := Least(o, keys);
      ScanMeaning(o, keys - {k}, n - 1);
      var page := Scan(o, keys, n); var rest := Scan(o, keys - {k}, n - 1);
      assert page == [k] + rest;
      forall i | 0 < i < |page| ensures Less(o, k, page[i]) { assert page[i] == rest[i - 1] && rest[i - 1] in rest; }
    }
  }

  // The whole list, sorted.
  function All(o: Order, keys: set<Key>): (r: seq<Key>) { Scan(o, keys, |keys|) }

  lemma AllMeaning(o: Order, keys: set<Key>)
    ensures Sorted(o, All(o, keys)) && |All(o, keys)| == |keys| && forall k :: k in All(o, keys) <==> k in keys
  {
    ScanMeaning(o, keys, |keys|);
    var all := All(o, keys);
    SortedSize(o, all);
    SubsetSize((set k | k in all), keys);
  }

  lemma {:induction false} SortedSize(o: Order, keys: seq<Key>)
    requires Sorted(o, keys)
    ensures |set k | k in keys| == |keys|
  {
    if keys != [] {
      var rest := keys[..|keys| - 1];
      var last := keys[|keys| - 1];
      SortedSize(o, rest);
      assert keys == rest + [last];
      assert (set k | k in keys) == (set k | k in rest) + {last};
      forall i | 0 <= i < |rest| ensures rest[i] != last { assert Less(o, keys[i], last); }
    }
  }
}
