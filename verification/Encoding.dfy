/** The canonical request encodings behind idempotency keys: internal/messages/idempotency.go. */
module Encoding {
  import opened Basics

  type Uuid = b: Bytes | |b| == 16 witness seq(16, _ => 0)

  const MAXLEN := 0x8000_0000_0000_0000   // a Go length is an int64

  function Pow256(k: nat): nat { if k == 0 then 1 else 256 * Pow256(k - 1) }

  // n as k bytes, big end first; what does not fit is cut off.
  function BigEndian(n: nat, k: nat): (r: Bytes)
    ensures |r| == k
  {
    if k == 0 then [] else BigEndian(n / 256, k - 1) + [(n % 256) as Octet]
  }

  lemma {:induction false} BigEndianInjective(n: nat, m: nat, k: nat)
    requires n < Pow256(k) && m < Pow256(k) && BigEndian(n, k) == BigEndian(m, k)
    ensures n == m
  {
    if k > 0 {
      var a := BigEndian(n / 256, k - 1); var b := BigEndian(m / 256, k - 1);
      assert BigEndian(n, k)[k - 1] == BigEndian(m, k)[k - 1];
      assert BigEndian(n, k)[..k - 1] == a && BigEndian(m, k)[..k - 1] == b;
      BigEndianInjective(n / 256, m / 256, k - 1);
    }
  }

  lemma LengthsFit(n: nat)
    requires n < MAXLEN
    ensures n < Pow256(8)
  {
    assert Pow256(8) == 0x1_0000_0000_0000_0000;
  }

  lemma Assoc(a: Bytes, c: Bytes, d: Bytes)
    ensures a + c + d == a + (c + d)
  {}

  lemma HeadTail(e: Octet, p: Bytes, f: Octet, q: Bytes)
    requires [e] + p == [f] + q
    ensures e == f && p == q
  {
    assert ([e] + p)[0] == e && ([f] + q)[0] == f && ([e] + p)[1..] == p && ([f] + q)[1..] == q;
  }

  // ---- The encodings -----------------------------------------------------------------------------

  function Framed(value: Bytes): Bytes { BigEndian(|value|, 8) + value }

  function Bool(value: bool): Bytes { [if value then 1 else 0] }

  function Maybe(value: Option<Bytes>): Bytes { if value.Some? then Bool(true) + Framed(value.value) else Bool(false) }

  function Each(ids: seq<Uuid>): Bytes { if ids == [] then [] else Each(ids[..|ids| - 1]) + Framed(ids[|ids| - 1]) }

  datatype Create = Create(title: Option<Bytes>, body: Bytes, format: Bytes, lifecycle: Bytes, sensitive: bool, tags: seq<Uuid>, uploads: seq<Uuid>)
  datatype Direct = Direct(recipient: Uuid, title: Option<Bytes>, body: Bytes, format: Bytes, sensitive: bool, uploads: seq<Uuid>)
  datatype Forward = Forward(source: Uuid, version: nat, recipient: Uuid)

  predicate Short(value: Bytes) { |value| < MAXLEN }

  predicate ShortCreate(c: Create) { (c.title.Some? ==> Short(c.title.value)) && Short(c.body) && Short(c.format) && Short(c.lifecycle) }

  predicate ShortDirect(c: Direct) { (c.title.Some? ==> Short(c.title.value)) && Short(c.body) && Short(c.format) }

  function Text(title: Option<Bytes>, body: Bytes, format: Bytes): Bytes { Maybe(title) + (Framed(body) + Framed(format)) }

  function EncodeCreate(c: Create): Bytes {
    Text(c.title, c.body, c.format) + (Framed(c.lifecycle) + (Bool(c.sensitive) + Each(Sort(c.tags) + c.uploads)))
  }

  function EncodeDirect(c: Direct): Bytes {
    Framed(c.recipient) + (Text(c.title, c.body, c.format) + (Bool(c.sensitive) + Each(c.uploads)))
  }

  function EncodeForward(c: Forward): Bytes { Framed(c.source) + (Framed(BigEndian(c.version, 8)) + Framed(c.recipient)) }

  // ---- Building them -----------------------------------------------------------------------------

  class CanonicalHash {
    var b: Bytes

    constructor ()
      ensures b == []
    { b := []; }

    method Bytes(value: Bytes)
      requires Short(value)
      modifies this
      ensures b == old(b) + Framed(value)
    {
      b := b + BigEndian(|value|, 8);
      b := b + value;
    }

    method Boolean(value: bool)
      modifies this
      ensures b == old(b) + Bool(value)
    {
      if value { b := b + [1]; } else { b := b + [0]; }
    }

    method OptionalString(value: Option<Bytes>)
      requires value.Some? ==> Short(value.value)
      modifies this
      ensures b == old(b) + Maybe(value)
    {
      Boolean(value.Some?);
      if value.Some? { Bytes(value.value); }
    }

    method Uuids(ids: seq<Uuid>)
      modifies this
      ensures b == old(b) + Each(ids)
    {
      for i := 0 to |ids|
        invariant b == old(b) + Each(ids[..i])
      {
        assert ids[..i + 1][..i] == ids[..i];
        Assoc(old(b), Each(ids[..i]), Framed(ids[i]));
        Bytes(ids[i]);
      }
      assert ids[..|ids|] == ids;
    }
  }

  method HashCreate(c: Create, sha: Bytes -> Bytes) returns (sum: Bytes)
    requires ShortCreate(c)
    ensures sum == sha(EncodeCreate(c))
  {
    var h := new CanonicalHash();
    h.OptionalString(c.title);
    h.Bytes(c.body);
    h.Bytes(c.format);
    h.Bytes(c.lifecycle);
    h.Boolean(c.sensitive);
    var ids := Sort(c.tags);
    h.Uuids(ids);
    h.Uuids(c.uploads);
    EachAppend(ids, c.uploads);
    AssocCreate(Maybe(c.title), Framed(c.body), Framed(c.format), Framed(c.lifecycle), Bool(c.sensitive), Each(ids), Each(c.uploads));
    sum := sha(h.b);
  }

  method HashDirect(c: Direct, sha: Bytes -> Bytes) returns (sum: Bytes)
    requires ShortDirect(c)
    ensures sum == sha(EncodeDirect(c))
  {
    var h := new CanonicalHash();
    h.Bytes(c.recipient);
    h.OptionalString(c.title);
    h.Bytes(c.body);
    h.Bytes(c.format);
    h.Boolean(c.sensitive);
    h.Uuids(c.uploads);
    AssocDirect(Framed(c.recipient), Maybe(c.title), Framed(c.body), Framed(c.format), Bool(c.sensitive), Each(c.uploads));
    sum := sha(h.b);
  }

  method HashForward(c: Forward, sha: Bytes -> Bytes) returns (sum: Bytes)
    ensures sum == sha(EncodeForward(c))
  {
    var h := new CanonicalHash();
    h.Bytes(c.source);
    h.Bytes(BigEndian(c.version, 8));
    h.Bytes(c.recipient);
    assert [] + Framed(c.source) == Framed(c.source);
    Assoc(Framed(c.source), Framed(BigEndian(c.version, 8)), Framed(c.recipient));
    sum := sha(h.b);
  }

  lemma AssocDirect(r: Bytes, t: Bytes, b: Bytes, f: Bytes, x: Bytes, u: Bytes)
    ensures [] + r + t + b + f + x + u == r + ((t + (b + f)) + (x + u))
  {
    Assoc(r, t, b);
    Assoc(r, t + b, f);
    Assoc(t, b, f);
    Assoc(r + (t + (b + f)), x, u);
    Assoc(r, t + (b + f), x + u);
  }

  lemma AssocCreate(t: Bytes, b: Bytes, f: Bytes, l: Bytes, x: Bytes, i: Bytes, u: Bytes)
    ensures [] + t + b + f + l + x + i + u == (t + (b + f)) + (l + (x + (i + u)))
  {
    AssocDirect(t, b, f, l, x, i);
    Assoc(t, b, f);
    Assoc(t + b + f + l, x, i);
    Assoc(t + b + f + l, x + i, u);
    Assoc(x, i, u);
    Assoc(t + b + f, l, x + (i + u));
  }

  lemma {:induction false} EachAppend(a: seq<Uuid>, c: seq<Uuid>)
    ensures Each(a + c) == Each(a) + Each(c)
  {
    if c == [] {
      assert a + c == a;
    } else {
      EachAppend(a, c[..|c| - 1]);
      var both := a + c;
      assert both[..|both| - 1] == a + c[..|c| - 1] && both[|both| - 1] == c[|c| - 1];
      Assoc(Each(a), Each(c[..|c| - 1]), Framed(c[|c| - 1]));
    }
  }

  // ---- Reading them back -------------------------------------------------------------------------

  // Nothing that follows a framed value can be mistaken for a part of it.
  lemma FramedPrefix(a: Bytes, x: Bytes, c: Bytes, y: Bytes)
    requires Short(a) && Short(c) && Framed(a) + x == Framed(c) + y
    ensures a == c && x == y
  {
    assert (Framed(a) + x)[..8] == BigEndian(|a|, 8) && (Framed(c) + y)[..8] == BigEndian(|c|, 8);
    LengthsFit(|a|);
    LengthsFit(|c|);
    BigEndianInjective(|a|, |c|, 8);
    assert (Framed(a) + x)[8..8 + |a|] == a && (Framed(c) + y)[8..8 + |c|] == c;
    assert (Framed(a) + x)[8 + |a|..] == x && (Framed(c) + y)[8 + |c|..] == y;
  }

  lemma MaybePrefix(a: Option<Bytes>, x: Bytes, c: Option<Bytes>, y: Bytes)
    requires (a.Some? ==> Short(a.value)) && (c.Some? ==> Short(c.value)) && Maybe(a) + x == Maybe(c) + y
    ensures a == c && x == y
  {
    MaybeSplit(a, x);
    MaybeSplit(c, y);
    HeadTail(if a.Some? then 1 else 0, if a.Some? then Framed(a.value) + x else x, if c.Some? then 1 else 0, if c.Some? then Framed(c.value) + y else y);
    if a.Some? { FramedPrefix(a.value, x, c.value, y); }
  }

  lemma MaybeSplit(a: Option<Bytes>, x: Bytes)
    ensures Maybe(a) + x == if a.Some? then [1] + (Framed(a.value) + x) else [0] + x
  {
    if a.Some? { Assoc([1], Framed(a.value), x); }
  }

  lemma TextSplit(t: Bytes, b: Bytes, f: Bytes, x: Bytes)
    ensures t + (b + f) + x == t + (b + (f + x))
  {
    Assoc(t, b + f, x);
    Assoc(b, f, x);
  }

  lemma TextPrefix(t: Option<Bytes>, body: Bytes, format: Bytes, x: Bytes, t': Option<Bytes>, body': Bytes, format': Bytes, y: Bytes)
    requires (t.Some? ==> Short(t.value)) && (t'.Some? ==> Short(t'.value)) && Short(body) && Short(body') && Short(format) && Short(format')
    requires Text(t, body, format) + x == Text(t', body', format') + y
    ensures t == t' && body == body' && format == format' && x == y
  {
    TextSplit(Maybe(t), Framed(body), Framed(format), x);
    TextSplit(Maybe(t'), Framed(body'), Framed(format'), y);
    MaybePrefix(t, Framed(body) + (Framed(format) + x), t', Framed(body') + (Framed(format') + y));
    FramedPrefix(body, Framed(format) + x, body', Framed(format') + y);
    FramedPrefix(format, x, format', y);
  }

  lemma {:induction false} EachLength(a: seq<Uuid>)
    ensures |Each(a)| == 24 * |a|
  {
    if a != [] { EachLength(a[..|a| - 1]); }
  }

  lemma {:induction false} EachInjective(a: seq<Uuid>, c: seq<Uuid>)
    requires Each(a) == Each(c)
    ensures a == c
  {
    EachLength(a);
    EachLength(c);
    if a != [] {
      var n := |a| - 1;
      EachLength(a[..n]);
      EachLength(c[..n]);
      assert Each(a)[..24 * n] == Each(a[..n]) && Each(c)[..24 * n] == Each(c[..n]);
      assert Each(a)[24 * n..] == Framed(a[n]) && Each(c)[24 * n..] == Framed(c[n]);
      EachInjective(a[..n], c[..n]);
      assert Framed(a[n])[8..] == a[n] && Framed(c[n])[8..] == c[n];
      assert a == a[..n] + [a[n]] && c == c[..n] + [c[n]];
    }
  }

  lemma TailInjective(s: bool, a: seq<Uuid>, s': bool, c: seq<Uuid>)
    requires Bool(s) + Each(a) == Bool(s') + Each(c)
    ensures s == s' && a == c
  {
    assert (Bool(s) + Each(a))[0] == (Bool(s') + Each(c))[0];
    assert (Bool(s) + Each(a))[1..] == Each(a) && (Bool(s') + Each(c))[1..] == Each(c);
    EachInjective(a, c);
  }

  /** Two direct sends have the same encoding only if they are the same request. */
  lemma DirectInjective(c: Direct, d: Direct)
    requires ShortDirect(c) && ShortDirect(d) && EncodeDirect(c) == EncodeDirect(d)
    ensures c == d
  {
    var x := Bool(c.sensitive) + Each(c.uploads); var y := Bool(d.sensitive) + Each(d.uploads);
    FramedPrefix(c.recipient, Text(c.title, c.body, c.format) + x, d.recipient, Text(d.title, d.body, d.format) + y);
    TextPrefix(c.title, c.body, c.format, x, d.title, d.body, d.format, y);
    TailInjective(c.sensitive, c.uploads, d.sensitive, d.uploads);
  }

  lemma ForwardInjective(c: Forward, d: Forward)
    requires c.version < MAXLEN && d.version < MAXLEN && EncodeForward(c) == EncodeForward(d)
    ensures c == d
  {
    FramedPrefix(c.source, Framed(BigEndian(c.version, 8)) + Framed(c.recipient), d.source, Framed(BigEndian(d.version, 8)) + Framed(d.recipient));
    FramedPrefix(BigEndian(c.version, 8), Framed(c.recipient), BigEndian(d.version, 8), Framed(d.recipient));
    LengthsFit(c.version);
    LengthsFit(d.version);
    BigEndianInjective(c.version, d.version, 8);
    assert Framed(c.recipient) + [] == Framed(c.recipient) && Framed(d.recipient) + [] == Framed(d.recipient);
    FramedPrefix(c.recipient, [], d.recipient, []);
  }

  predicate SameScalars(c: Create, d: Create) {
    c.title == d.title && c.body == d.body && c.format == d.format && c.lifecycle == d.lifecycle && c.sensitive == d.sensitive
  }

  /** Two creations have the same encoding exactly when their scalar fields agree and their sorted tags followed by
      their uploads form the same list. */
  lemma CreateEncodingExact(c: Create, d: Create)
    requires ShortCreate(c) && ShortCreate(d)
    ensures EncodeCreate(c) == EncodeCreate(d) <==> SameScalars(c, d) && Sort(c.tags) + c.uploads == Sort(d.tags) + d.uploads
  {
    if EncodeCreate(c) == EncodeCreate(d) {
      var x := Bool(c.sensitive) + Each(Sort(c.tags) + c.uploads); var y := Bool(d.sensitive) + Each(Sort(d.tags) + d.uploads);
      TextPrefix(c.title, c.body, c.format, Framed(c.lifecycle) + x, d.title, d.body, d.format, Framed(d.lifecycle) + y);
      FramedPrefix(c.lifecycle, x, d.lifecycle, y);
      TailInjective(c.sensitive, Sort(c.tags) + c.uploads, d.sensitive, Sort(d.tags) + d.uploads);
    }
  }

  /** The order of the tags does not matter. */
  lemma TagOrderIgnored(c: Create, tags: seq<Uuid>)
    requires multiset(tags) == multiset(c.tags)
    ensures EncodeCreate(c.(tags := tags)) == EncodeCreate(c)
  {
    SortedUnique(Sort(tags), Sort(c.tags));
  }

  /** No count separates tags from uploads, so a tag can pass for an upload. */
  lemma TagCanPassForUpload(c: Create, id: Uuid)
    ensures var d := c.(tags := [id], uploads := []); var e := c.(tags := [], uploads := [id]);
            d != e && EncodeCreate(d) == EncodeCreate(e)
  {
    assert Sort([id]) == [id];
    assert Sort([id]) + [] == Sort([]) + [id];
  }

  /** Requests that name the same number of tags are told apart completely, up to the order of the tags. */
  lemma CreateInjectiveWithEqualCounts(c: Create, d: Create)
    requires ShortCreate(c) && ShortCreate(d) && |c.tags| == |d.tags|
    ensures EncodeCreate(c) == EncodeCreate(d) <==> SameScalars(c, d) && multiset(c.tags) == multiset(d.tags) && c.uploads == d.uploads
  {
    CreateEncodingExact(c, d);
    SameLength(c.tags, Sort(c.tags));
    SameLength(d.tags, Sort(d.tags));
    var a := Sort(c.tags) + c.uploads; var e := Sort(d.tags) + d.uploads;
    if a == e {
      assert a[..|c.tags|] == Sort(c.tags) && e[..|d.tags|] == Sort(d.tags);
      assert a[|c.tags|..] == c.uploads && e[|d.tags|..] == d.uploads;
    }
    if multiset(c.tags) == multiset(d.tags) { SortedUnique(Sort(c.tags), Sort(d.tags)); }
  }

  lemma SameLength(a: seq<Uuid>, c: seq<Uuid>)
    requires multiset(a) == multiset(c)
    ensures |a| == |c|
  {
    assert |multiset(a)| == |multiset(c)|;
  }

  // ---- Sorting by text -----------------------------------------------------------------------------

  // Order of the hexadecimal texts, which is the order of the bytes.
  predicate Leq(a: Bytes, c: Bytes)
    requires |a| == |c|
  { a == [] || a[0] < c[0] || (a[0] == c[0] && Leq(a[1..], c[1..])) }

  lemma {:induction false} LeqOrder(a: Bytes, c: Bytes, d: Bytes)
    requires |a| == |c| == |d|
    ensures Leq(a, c) || Leq(c, a)
    ensures Leq(a, c) && Leq(c, a) ==> a == c
    ensures Leq(a, c) && Leq(c, d) ==> Leq(a, d)
  {
    if a != [] {
      LeqOrder(a[1..], c[1..], d[1..]);
      assert a == [a[0]] + a[1..] && c == [c[0]] + c[1..];
    }
  }

  ghost predicate IsSorted(s: seq<Uuid>) { forall i, j | 0 <= i < j < |s| :: Leq(s[i], s[j]) }

  function Sort(s: seq<Uuid>): (r: seq<Uuid>)
    ensures IsSorted(r) && multiset(r) == multiset(s)
  {
    if s == [] then [] else
      assert s == s[..|s| - 1] + [s[|s| - 1]];
      Insert(Sort(s[..|s| - 1]), s[|s| - 1])
  }

  function Insert(s: seq<Uuid>, x: Uuid): (r: seq<Uuid>)
    requires IsSorted(s)
    ensures IsSorted(r) && multiset(r) == multiset(s + [x])
  {
    if s == [] || Leq(s[|s| - 1], x) then
      AppendSorted(s, x);
      s + [x]
    else
      var rest := s[..|s| - 1]; var last := s[|s| - 1];
      assert s == rest + [last];
      LeqOrder(x, last, x);
      InsertLast(rest, x, last, Insert(rest, x));
      Insert(rest, x) + [last]
  }

  lemma AppendSorted(s: seq<Uuid>, x: Uuid)
    requires IsSorted(s) && (s != [] ==> Leq(s[|s| - 1], x))
    ensures IsSorted(s + [x])
  {
    forall i | 0 <= i < |s| ensures Leq(s[i], x) {
      LeqOrder(s[i], s[|s| - 1], x);
    }
  }

  lemma InsertLast(rest: seq<Uuid>, x: Uuid, last: Uuid, r: seq<Uuid>)
    requires IsSorted(rest + [last]) && Leq(x, last) && IsSorted(r) && multiset(r) == multiset(rest + [x])
    ensures IsSorted(r + [last])
  {
    forall i | 0 <= i < |r| ensures Leq(r[i], last) {
      assert r[i] in multiset(rest + [x]);
      if r[i] != x {
        var j :| 0 <= j < |rest| && rest[j] == r[i];
        assert (rest + [last])[j] == r[i] && (rest + [last])[|rest|] == last;
      }
    }
    if r != [] { AppendSorted(r, last); }
  }

  // A multiset has one sorted arrangement.
  lemma {:induction false} SortedUnique(a: seq<Uuid>, c: seq<Uuid>)
    requires IsSorted(a) && IsSorted(c) && multiset(a) == multiset(c)
    ensures a == c
  {
    SameLength(a, c);
    if a != [] {
      var n := |a| - 1;
      LastIsLargest(a, c);
      LastIsLargest(c, a);
      LeqOrder(a[n], c[n], a[n]);
      ButLast(a);
      ButLast(c);
      SortedUnique(a[..n], c[..n]);
    }
  }

  lemma ButLast(a: seq<Uuid>)
    requires a != []
    ensures a == a[..|a| - 1] + [a[|a| - 1]] && multiset(a[..|a| - 1]) == multiset(a) - multiset{a[|a| - 1]}
    ensures IsSorted(a) ==> IsSorted(a[..|a| - 1])
  {
    assert a == a[..|a| - 1] + [a[|a| - 1]];
  }

  lemma LastIsLargest(a: seq<Uuid>, c: seq<Uuid>)
    requires IsSorted(a) && multiset(a) == multiset(c) && c != [] && a != []
    ensures Leq(c[|c| - 1], a[|a| - 1])
  {
    assert c[|c| - 1] in multiset(a);
    var i :| 0 <= i < |a| && a[i] == c[|c| - 1];
    LeqOrder(a[i], a[i], a[i]);
  }
}
