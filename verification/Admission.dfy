/** Admission arithmetic of uploads in 64-bit integers: internal/uploads/service.go, Create, and the quota
    test of internal/uploads/finalize.go, reservePending. An operation that overflowed would not verify. */
module Admission {
  newtype Int64 = x: int | -0x8000_0000_0000_0000 <= x < 0x8000_0000_0000_0000

  const MaxInt64: Int64 := 0x7fff_ffff_ffff_ffff

  datatype Verdict = Admitted | FileTooLarge | StagingFull | StagingUnavailable

  // The least k with k >= total * percent / 100.
  ghost predicate IsCeiling(k: int, total: int, percent: int) { 100 * (k - 1) < total * percent <= 100 * k }

  /** The minimum that must stay free is the exact ceiling of total * percent / 100, although that product need not fit. */
  method MinimumFree(total: Int64, percent: Int64) returns (k: Int64)
    requires total > 0 && 0 <= percent <= 100
    ensures 0 <= k <= total && IsCeiling(k as int, total as int, percent as int)
  {
    var q, r := total / 100, total % 100;
    SplitProduct(q as int, r as int, percent as int);
    k := q * percent + (r * percent + 99) / 100;
  }

  lemma SplitProduct(q: int, r: int, p: int)
    requires 0 <= q && 0 <= r < 100 && 0 <= p <= 100
    ensures 0 <= q * p <= 100 * q && 0 <= r * p <= 100 * r
    ensures var c := (r * p + 99) / 100; 0 <= c <= r && IsCeiling(q * p + c, 100 * q + r, p)
  {
    Times(q, p);
    Times(r, p);
    var c := (r * p + 99) / 100;
    assert (100 * q + r) * p == 100 * (q * p) + r * p;
  }

  lemma Times(a: int, p: int)
    requires 0 <= a && 0 <= p <= 100
    ensures 0 <= a * p <= 100 * a
  {
    assert 100 * a - a * p == a * (100 - p);
  }

  // The conditions in plain integers.
  ghost predicate Fits(size: int, active: int, maxStaging: int, available: int, remaining: int, minFree: int, floor: int) {
    && active + size <= maxStaging && size + remaining <= MaxInt64 as int
    && available - remaining - size >= minFree && available - remaining - size >= 0 && available - remaining - size >= floor
  }

  /** An upload is admitted exactly when its size fits the file limit, the staging budget, and the free space that must
      remain; no intermediate result overflows. */
  method Admit(size: Int64, maxFile: Int64, active: Int64, maxStaging: Int64, probed: bool, available: Int64, total: Int64,
               remaining: Int64, minFree: Int64, percent: Int64) returns (v: Verdict, ghost floor: int)
    requires size >= 0 && active >= 0 && remaining >= 0 && 0 <= percent <= 100
    ensures v == FileTooLarge <==> size > maxFile
    ensures total > 0 ==> IsCeiling(floor, total as int, percent as int)
    ensures v == Admitted <==>
              size <= maxFile && probed && available >= 0 && total > 0
              && Fits(size as int, active as int, maxStaging as int, available as int, remaining as int, minFree as int, floor)
    ensures v == StagingUnavailable <==>
              size <= maxFile && active as int + size as int <= maxStaging as int && !(probed && available >= 0 && total > 0)
  {
    floor := 0;
    if total > 0 { var k := MinimumFree(total, percent); floor := k as int; }
    if size > maxFile { return FileTooLarge, floor; }
    if size > maxStaging || active > maxStaging - size { return StagingFull, floor; }
    if !probed || available < 0 || total <= 0 { return StagingUnavailable, floor; }
    var pressure := remaining;
    if pressure > MaxInt64 - size { return StagingFull, floor; }
    var projected := available - pressure - size;
    var minimumPercentBytes := MinimumFree(total, percent);
    CeilingUnique(minimumPercentBytes as int, floor, total as int, percent as int);
    if projected < minFree || projected < 0 || projected < minimumPercentBytes { return StagingFull, floor; }
    v := Admitted;
  }

  lemma CeilingUnique(j: int, k: int, total: int, percent: int)
    requires IsCeiling(j, total, percent) && IsCeiling(k, total, percent)
    ensures j == k
  {}

  /** The quota test accepts exactly the sizes that leave the total within the quota, without adding up. */
  method WithinQuota(size: Int64, used: Int64, max: Int64) returns (ok: bool)
    requires size >= 0 && used >= 0
    ensures ok <==> used as int + size as int <= max as int
  {
    ok := !(size > max || used > max - size);
  }
}
