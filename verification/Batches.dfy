/** WITH due AS (SELECT id ... ORDER BY time, id LIMIT n): the oldest rows first, a batch at a time. */
module Batches {
  import opened Basics
  import opened Keyset

  // `times` are the due rows.
  function Keys(times: map<nat, int>): set<Key> { set id | id in times :: (times[id], id) }

  function Batch(times: map<nat, int>, n: nat): set<nat> {
    var page := Scan(Asc, Keys(times), n);
    set k | k in page :: k.1
  }

  function Min(a: int, b: int): int { if a < b then a else b }

  lemma {:induction false} KeysSize(times: map<nat, int>)
    ensures |Keys(times)| == |times|
  {
    if id :| id in times {
      var rest := times - {id};
      assert rest.Keys == times.Keys - {id};
      KeysSize(rest);
      assert Keys(times) == Keys(rest) + {(times[id], id)};
    }
  }

  lemma {:induction false} IdsSize(page: seq<Key>)
    requires forall i, j | 0 <= i < j < |page| :: page[i].1 != page[j].1
    ensures |set k | k in page :: k.1| == |page|
  {
    if page != [] {
      var rest := page[..|page| - 1]; var last := page[|page| - 1];
      IdsSize(rest);
      assert page == rest + [last];
      assert (set k | k in page :: k.1) == (set k | k in rest :: k.1) + {last.1};
    }
  }

  /** A batch takes as many due rows as there are, up to n, and none of them is later than one left behind. */
  lemma BatchMeaning(times: map<nat, int>, n: nat)
    ensures Batch(times, n) <= times.Keys && |Batch(times, n)| == Min(n, |times|)
    ensures forall i, j | i in Batch(times, n) && j in times && j !in Batch(times, n) :: times[i] <= times[j]
  {
    var page := Scan(Asc, Keys(times), n);
    ScanMeaning(Asc, Keys(times), n);
    KeysSize(times);
    forall i, j | 0 <= i < j < |page| ensures page[i].1 != page[j].1 {
      assert page[i] in Keys(times) && page[j] in Keys(times) && Less(Asc, page[i], page[j]);
    }
    IdsSize(page);
    forall i, j | i in Batch(times, n) && j in times && j !in Batch(times, n) ensures times[i] <= times[j] {
      assert (times[i], i) in page && (times[j], j) !in page && (times[j], j) in Keys(times);
    }
  }
}
