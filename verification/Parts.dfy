/** How an upload of `size` bytes is cut into parts of `chunk` bytes, on the server
    (internal/uploads/model.go) and in the browser (web/src/features/uploads/manager.ts). */
module Parts {
  import opened Basics

  function PartCount(size: nat, chunk: nat): (n: nat)
    requires chunk > 0
    ensures n == 0 <==> size == 0
    ensures forall i: nat :: i < n <==> i * chunk < size
  {
    var n := if size == 0 then 0 else (size + chunk - 1) / chunk;
    PartCountBounds(size, chunk);
    n
  }

  // -1 marks a part number outside the upload.
  function PartSize(size: nat, chunk: nat, part: int): (length: int)
    requires chunk > 0
    ensures 0 <= part < PartCount(size, chunk) ==> 0 < length <= chunk && part * chunk + length <= size
    ensures !(0 <= part < PartCount(size, chunk)) ==> length == -1
  {
    if part < 0 || part >= PartCount(size, chunk) then -1
    else if part == PartCount(size, chunk) - 1 then
      LastPart(size, chunk);
      size - part * chunk
    else
      assert (part + 1) * chunk < size;
      chunk
  }

  datatype PartRange = PartRange(start: nat, end: nat, length: nat)

  // The browser's slice of the file for one part.
  function ClientRange(part: nat, chunk: nat, size: nat): PartRange {
    var start := part * chunk;
    var end := if start + chunk < size then start + chunk else size;
    PartRange(start, end, if end - start < 0 then 0 else end - start)
  }

  lemma PartCountBounds(size: nat, chunk: nat)
    requires chunk > 0
    ensures var n := if size == 0 then 0 else (size + chunk - 1) / chunk;
            (n == 0 <==> size == 0) && forall i: nat :: i < n <==> i * chunk < size
  {
    if size > 0 {
      var n := (size + chunk - 1) / chunk;
      var r := (size + chunk - 1) % chunk;
      assert size + chunk - 1 == n * chunk + r;
      forall i: nat ensures i < n <==> i * chunk < size {
        if i < n { MulMono(i + 1, n, chunk); } else { MulMono(n, i, chunk); }
      }
    }
  }

  lemma MulMono(a: nat, b: nat, c: nat)
    requires a <= b
    ensures a * c <= b * c
    ensures (a + 1) * c == a * c + c
  {}

  lemma LastPart(size: nat, chunk: nat)
    requires chunk > 0 && size > 0
    ensures var n := PartCount(size, chunk); (n - 1) * chunk < size <= (n - 1) * chunk + chunk
  {
    var n := PartCount(size, chunk);
    assert !(n * chunk < size);
    MulMono(n - 1, n, chunk);
  }

  /** The parts tile the file: every byte offset lies in exactly one part, and the browser
      sends for each part number exactly the range the server accepts for it. */
  lemma PartsTileTheFile(size: nat, chunk: nat, offset: nat)
    requires chunk > 0 && offset < size
    ensures forall k: nat ::
              (k < PartCount(size, chunk) && k * chunk <= offset < k * chunk + PartSize(size, chunk, k))
              <==> k == offset / chunk
  {
    var q := offset / chunk;
    assert offset == q * chunk + offset % chunk;
    var n := PartCount(size, chunk);
    assert q < n;
    LastPart(size, chunk);
    forall k: nat ensures k < n && k * chunk <= offset < k * chunk + PartSize(size, chunk, k) <==> k == q {
      if k < q { MulMono(k, q, chunk); MulMono(k + 1, q, chunk); }
      if k > q { MulMono(q, k, chunk); MulMono(q + 1, k, chunk); }
    }
  }

  lemma ClientAgreesWithServer(part: nat, chunk: nat, size: nat)
    requires chunk > 0
    ensures var r := ClientRange(part, chunk, size);
            if part < PartCount(size, chunk)
            then r.start == part * chunk && r.length == PartSize(size, chunk, part) && r.end == r.start + r.length
                 && (r.end == size <==> part == PartCount(size, chunk) - 1)
            else r.length == 0
  {
    if size > 0 { LastPart(size, chunk); }
    if part < PartCount(size, chunk) {
      MulMono(part, PartCount(size, chunk) - 1, chunk);
      MulMono(part + 1, PartCount(size, chunk), chunk);
      if part < PartCount(size, chunk) - 1 {
        assert (part + 1) * chunk < size;
      }
    } else {
      assert part * chunk >= size;
    }
  }

  // Regions of different parts do not overlap.
  lemma PartsDisjoint(size: nat, chunk: nat, j: nat, k: nat)
    requires chunk > 0 && j < k < PartCount(size, chunk)
    ensures j * chunk + PartSize(size, chunk, j) <= k * chunk
  {
    MulMono(j + 1, k, chunk);
    MulMono(j, k, chunk);
  }

  // `data` is what the file holds at `offset`.
  ghost predicate Holds(bytes: Bytes, offset: nat, data: Bytes) {
    && offset + |data| <= |bytes|
    && forall i | 0 <= i < |data| :: bytes[offset + i] == data[i]
  }

  function Overwrite<T>(bytes: seq<T>, offset: nat, data: seq<T>): (r: seq<T>)
    requires offset + |data| <= |bytes|
    ensures |r| == |bytes|
    ensures forall i | 0 <= i < |data| :: r[offset + i] == data[i]
    ensures forall i | 0 <= i < |r| && !(offset <= i < offset + |data|) :: r[i] == bytes[i]
  {
    bytes[..offset] + data + bytes[offset + |data|..]
  }

  // The first `n` part bodies of upload `u`, in order.
  function Joined(written: map<(nat, nat), Bytes>, u: nat, n: nat): Bytes {
    if n == 0 then [] else Joined(written, u, n - 1) + (if (u, n - 1) in written then written[(u, n - 1)] else [])
  }

  // Where the first `n` parts end.
  function PartEnd(size: nat, chunk: nat, n: nat): nat {
    if n * chunk < size then n * chunk else size
  }

  lemma PartEndStep(size: nat, chunk: nat, k: nat)
    requires chunk > 0 && k < PartCount(size, chunk)
    ensures PartEnd(size, chunk, k) == k * chunk
    ensures PartEnd(size, chunk, k + 1) == k * chunk + PartSize(size, chunk, k)
  {
    LastPart(size, chunk);
    MulMono(k, k + 1, chunk);
  }

  lemma JoinStep(bytes: Bytes, offset: nat, body: Bytes)
    requires Holds(bytes, offset, body)
    ensures bytes[..offset] + body == bytes[..offset + |body|]
  {}

  /** A file whose every part region holds that part's body is the in-order concatenation of the bodies. */
  lemma {:induction false} RegionsJoin(bytes: Bytes, written: map<(nat, nat), Bytes>, u: nat, chunk: nat, n: nat)
    requires chunk > 0 && n <= PartCount(|bytes|, chunk)
    requires forall k: nat | k < n :: (u, k) in written && |written[(u, k)]| == PartSize(|bytes|, chunk, k)
                                      && Holds(bytes, k * chunk, written[(u, k)])
    ensures Joined(written, u, n) == bytes[..PartEnd(|bytes|, chunk, n)]
  {
    if n == 0 {
    } else {
      RegionsJoin(bytes, written, u, chunk, n - 1);
      PartEndStep(|bytes|, chunk, n - 1);
      JoinStep(bytes, (n - 1) * chunk, written[(u, n - 1)]);
    }
  }

  lemma AllRegionsJoin(bytes: Bytes, written: map<(nat, nat), Bytes>, u: nat, chunk: nat)
    requires chunk > 0
    requires forall k: nat | k < PartCount(|bytes|, chunk) ::
               (u, k) in written && |written[(u, k)]| == PartSize(|bytes|, chunk, k) && Holds(bytes, k * chunk, written[(u, k)])
    ensures Joined(written, u, PartCount(|bytes|, chunk)) == bytes
  {
    RegionsJoin(bytes, written, u, chunk, PartCount(|bytes|, chunk));
    assert !(PartCount(|bytes|, chunk) * chunk < |bytes|);
    assert bytes[..|bytes|] == bytes;
  }
}
