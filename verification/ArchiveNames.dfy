/** Entry names of a ZIP download: internal/files/zip.go, archiveName. */
module ArchiveNames {
  import opened Basics
  import opened Like
  import Tokens

  const MaxNameBytes := 180

  // unicode.IsControl, and the characters no common file system accepts.
  predicate Unsafe(c: char) {
    var n := c as int;
    n < 0x20 || 0x7F <= n < 0xA0 || c in {'<', '>', ':', '"', '/', '\\', '|', '?', '*'}
  }

  predicate Safe(s: string) { forall i | 0 <= i < |s| :: !Unsafe(s[i]) }

  function Slashes(s: string): string { seq(|s|, i requires 0 <= i < |s| => if s[i] == '\\' then '/' else s[i]) }

  // path.Base
  function Base(s: string): string {
    if s == "" then "."
    else if s[|s| - 1] == '/' then (if |s| == 1 then "/" else Base(s[..|s| - 1]))
    else LastElement(s)
  }

  function LastElement(s: string): string {
    if s == "" || s[|s| - 1] == '/' then "" else LastElement(s[..|s| - 1]) + [s[|s| - 1]]
  }

  function Masked(s: string): (r: string)
    ensures Safe(r)
  { seq(|s|, i requires 0 <= i < |s| => if Unsafe(s[i]) then '_' else s[i]) }

  function Cut(s: string): (r: string)
    ensures r <= s && Tokens.Bytes(r) <= 180 && (r != s ==> Tokens.Bytes(s[..|r| + 1]) > 180)
    decreases |s|
  {
    if Tokens.Bytes(s) > MaxNameBytes then
      var shorter := s[..|s| - 1];
      var r := Cut(shorter);
      assert if r == shorter then s[..|r| + 1] == s else s[..|r| + 1] == shorter[..|r| + 1];
      r
    else s
  }

  predicate Padding(c: char) { c == ' ' || c == '.' }

  // strings.Trim(name, " .")
  function Trimmed(s: string): (r: string)
    ensures r == "" || (!Padding(r[0]) && !Padding(r[|r| - 1]))
    ensures Safe(s) ==> Safe(r)
  {
    if s != "" && Padding(s[0]) then Trimmed(s[1..])
    else if s != "" && Padding(s[|s| - 1]) then Trimmed(s[..|s| - 1])
    else s
  }

  // path.Ext: from the last dot on, or nothing.
  function Ext(s: string): (e: string)
    ensures |e| <= |s| && forall i | 0 <= i < |e| :: e[i] == s[|s| - |e| + i]
    ensures e == "" ==> forall i | 0 <= i < |s| :: s[i] != '.'
    ensures e != "" ==> e[0] == '.'
  {
    if s == "" then ""
    else if s[|s| - 1] == '.' then s[|s| - 1..]
    else var e := Ext(s[..|s| - 1]); if e == "" then "" else e + [s[|s| - 1]]
  }

  // Nothing, or one dot in front and no other.
  predicate IsExt(e: string) { e == "" || (e[0] == '.' && forall i | 0 < i < |e| :: e[i] != '.') }

  lemma {:induction false} ExtMeaning(s: string)
    ensures IsExt(Ext(s))
  {
    if s != "" && s[|s| - 1] != '.' { ExtMeaning(s[..|s| - 1]); }
  }

  function Stem(s: string): string { s[..|s| - |Ext(s)|] }

  // Up to the first dot.
  function FirstPart(s: string): (r: string)
    ensures r <= s && (forall i | 0 <= i < |r| :: r[i] != '.') && (|r| < |s| ==> s[|r|] == '.')
  { if s == "" || s[0] == '.' then "" else [s[0]] + FirstPart(s[1..]) }

  // The names Windows reserves, once the extension is gone and letters are upper case.
  predicate Device(upper: string) {
    || upper in {"CON", "PRN", "AUX", "NUL"}
    || (|upper| == 4 && upper[..3] in {"COM", "LPT"} && upper[3] in "123456789\U{00b9}\U{00b2}\U{00b3}")
  }

  lemma DeviceMeaning(s: string)
    ensures Device(s) <==>
              || s == "CON" || s == "PRN" || s == "AUX" || s == "NUL"
              || (|s| == 4 && (s[..3] == "COM" || s[..3] == "LPT") && ('1' <= s[3] <= '9' || s[3] in {'\U{00b9}', '\U{00b2}', '\U{00b3}'}))
  {
    assert forall c: char :: c in "123456789\U{00b9}\U{00b2}\U{00b3}" <==> '1' <= c <= '9' || c in {'\U{00b9}', '\U{00b2}', '\U{00b3}'};
  }

  predicate Reserved(upper: char -> char, name: string) { Device(Fold(upper, FirstPart(name))) }

  function Digits(n: nat): string { if n < 10 then ['0' + n as char] else Digits(n / 10) + ['0' + (n % 10) as char] }

  function Suffixed(stem: string, n: nat, ext: string): string { stem + " (" + Digits(n) + ")" + ext }

  // Lower-casing leaves digits, blanks and parentheses alone.
  ghost predicate Lowers(lower: char -> char) { forall c | '0' <= c <= '9' || c in {' ', '(', ')'} :: lower(c) == c }

  // ---- Suffixes are all different --------------------------------------------------------------------

  lemma {:induction false} DigitsInjective(n: nat, m: nat)
    requires Digits(n) == Digits(m)
    ensures n == m
  {
    DigitsLength(n);
    DigitsLength(m);
    var a, b := Digits(n), Digits(m);
    assert a[|a| - 1] == '0' + (n % 10) as char && b[|b| - 1] == '0' + (m % 10) as char;
    if n >= 10 {
      assert m >= 10;
      assert a[..|a| - 1] == Digits(n / 10) && b[..|b| - 1] == Digits(m / 10);
      DigitsInjective(n / 10, m / 10);
    }
  }

  lemma {:induction false} DigitsLength(n: nat)
    ensures |Digits(n)| >= 1 && (|Digits(n)| == 1 <==> n < 10)
    ensures forall i | 0 <= i < |Digits(n)| :: '0' <= Digits(n)[i] <= '9'
  {
    if n >= 10 { DigitsLength(n / 10); }
  }

  lemma FoldAppend(f: char -> char, a: string, b: string)
    ensures Fold(f, a + b) == Fold(f, a) + Fold(f, b)
  {}

  lemma SuffixedInjective(lower: char -> char, stem: string, ext: string, n: nat, m: nat)
    requires Lowers(lower) && Fold(lower, Suffixed(stem, n, ext)) == Fold(lower, Suffixed(stem, m, ext))
    ensures n == m
  {
    FoldSuffixed(lower, stem, n, ext);
    FoldSuffixed(lower, stem, m, ext);
    var a := Fold(lower, stem) + " ("; var z := ")" + Fold(lower, ext);
    Middle(a, Digits(n), Digits(m), z);
    DigitsInjective(n, m);
  }

  lemma FoldSuffixed(lower: char -> char, stem: string, n: nat, ext: string)
    requires Lowers(lower)
    ensures Fold(lower, Suffixed(stem, n, ext)) == Fold(lower, stem) + " (" + Digits(n) + (")" + Fold(lower, ext))
  {
    DigitsLength(n);
    FoldAppend(lower, stem + " (" + Digits(n) + ")", ext);
    FoldAppend(lower, stem + " (" + Digits(n), ")");
    FoldAppend(lower, stem + " (", Digits(n));
    FoldAppend(lower, stem, " (");
    assert Fold(lower, Digits(n)) == Digits(n) && Fold(lower, " (") == " (" && Fold(lower, ")") == ")";
    var front := Fold(lower, stem) + " (" + Digits(n);
    assert front + ")" + Fold(lower, ext) == front + (")" + Fold(lower, ext));
  }

  lemma Middle(a: string, x: string, y: string, z: string)
    requires a + x + z == a + y + z
    ensures x == y
  {
    assert |x| == |y|;
    assert (a + x + z)[|a|..|a| + |x|] == x && (a + y + z)[|a|..|a| + |y|] == y;
  }

  // ---- The plain name --------------------------------------------------------------------------------

  function PlainName(raw: string): (name: string)
    ensures Safe(name) && name != "" && !Padding(name[0])
  {
    var name := Trimmed(Cut(Masked(Base(Slashes(raw)))));
    if name == "" then "attachment" else name
  }

  // A name that needs no cleaning: no separators or unsafe characters, at most 180 bytes, no blank or dot at either end.
  predicate Proper(name: string) {
    && name != "" && Safe(name) && Tokens.Bytes(name) <= 180 && !Padding(name[0]) && !Padding(name[|name| - 1])
  }

  predicate Separator(c: char) { c == '/' || c == '\\' }

  /** A proper name stays what it is, and any directory in front of it is dropped, as are separators behind it. */
  lemma PlainNameKeeps(dir: string, name: string, tail: string)
    requires Proper(name) && (dir == "" || dir[|dir| - 1] == '/' || dir[|dir| - 1] == '\\')
    requires forall i | 0 <= i < |tail| :: tail[i] == '/' || tail[i] == '\\'
    ensures PlainName(dir + name + tail) == name
  {
    BaseIs(dir, name);
    TailDropped(dir + name, tail);
    MaskedIs(name);
  }

  lemma BaseIs(dir: string, name: string)
    requires Proper(name) && (dir == "" || Separator(dir[|dir| - 1]))
    ensures Base(Slashes(dir + name)) == name
  {
    var raw := Slashes(dir + name); var d := Slashes(dir);
    NoSeparators(name);
    assert Slashes(name) == name;
    assert raw == d + Slashes(name);
    LastElementIs(d, name);
    assert raw[|raw| - 1] == name[|name| - 1];
  }

  lemma {:induction false} TailDropped(s: string, tail: string)
    requires s != "" && !Separator(s[|s| - 1]) && forall i | 0 <= i < |tail| :: Separator(tail[i])
    ensures Base(Slashes(s + tail)) == Base(Slashes(s))
  {
    if tail == "" {
      assert s + tail == s;
    } else {
      var n := |tail| - 1;
      TailDropped(s, tail[..n]);
      var raw := Slashes(s + tail);
      assert raw[..|raw| - 1] == Slashes(s + tail[..n]);
    }
  }

  // What was cut off at either end is blanks and dots.
  lemma {:induction false} TrimmedMeaning(s: string) returns (from: nat, to: nat)
    ensures from <= to <= |s| && Trimmed(s) == s[from..to]
    ensures forall k | 0 <= k < from || to <= k < |s| :: s[k] == ' ' || s[k] == '.'
  {
    if s != "" && Padding(s[0]) {
      var tail := s[1..];
      var i, j := TrimmedMeaning(tail);
      from, to := i + 1, j + 1;
      assert s[from..to] == tail[i..j];
      forall k | 1 <= k < |s| ensures s[k] == tail[k - 1] {}
    } else if s != "" && Padding(s[|s| - 1]) {
      var head := s[..|s| - 1];
      from, to := TrimmedMeaning(head);
      assert s[from..to] == head[from..to];
      forall k | 0 <= k < |head| ensures s[k] == head[k] {}
    } else {
      from, to := 0, |s|;
      assert s[0..|s|] == s;
    }
  }

  lemma UnsafeMeaning(c: char)
    ensures Unsafe(c) <==> c < '\U{0020}' || '\U{007F}' <= c <= '\U{009F}' || c in "<>:\"/\\|?*"
  {}

  lemma NoSeparators(name: string)
    requires Safe(name)
    ensures forall i | 0 <= i < |name| :: !Separator(name[i])
  {
    forall i | 0 <= i < |name| ensures !Separator(name[i]) { assert !Unsafe(name[i]); }
  }

  lemma MaskedIs(name: string)
    requires Safe(name)
    ensures Masked(name) == name
  {}

  lemma {:induction false} LastElementIs(dir: string, name: string)
    requires (forall i | 0 <= i < |name| :: name[i] != '/') && (dir == "" || dir[|dir| - 1] == '/')
    ensures LastElement(dir + name) == name
  {
    if name == "" {
      assert dir + name == dir;
    } else {
      var n := |name| - 1;
      LastElementIs(dir, name[..n]);
      assert (dir + name)[..|dir + name| - 1] == dir + name[..n];
      assert name == name[..n] + [name[n]];
    }
  }

  function CleanName(upper: char -> char, raw: string): string {
    if Reserved(upper, PlainName(raw)) then "_" + PlainName(raw) else PlainName(raw)
  }

  // What follows an underscore is never reserved.
  lemma UnderscoreIsFine(upper: char -> char, name: string)
    requires upper('_') == '_'
    ensures !Reserved(upper, "_" + name)
  {
    assert FirstPart("_" + name)[0] == '_';
    assert Fold(upper, FirstPart("_" + name))[0] == '_';
    assert forall s | s in {"CON", "PRN", "AUX", "NUL", "COM", "LPT"} :: s[0] != '_';
    var r := Fold(upper, FirstPart("_" + name));
    assert |r| == 4 ==> r[..3][0] == '_';
  }

  lemma {:induction false} FirstPartAppend(a: string, b: string)
    ensures FirstPart(a + b) == if |FirstPart(a)| < |a| then FirstPart(a) else a + FirstPart(b)
  {
    if a == "" {
      assert a + b == b;
    } else if a[0] != '.' {
      FirstPartAppend(a[1..], b);
      assert (a + b)[1..] == a[1..] + b;
      assert a == [a[0]] + a[1..];
    }
  }

  lemma Assoc(a: string, b: string, c: string)
    ensures a + b + c == a + (b + c)
  {}

  lemma SafeAppend(a: string, b: string)
    ensures Safe(a + b) <==> Safe(a) && Safe(b)
  {
    forall i | 0 <= i < |a| ensures (a + b)[i] == a[i] {}
    forall i | 0 <= i < |b| ensures (a + b)[|a| + i] == b[i] {}
  }

  lemma SuffixedIsSafe(stem: string, n: nat, ext: string)
    requires Safe(stem + ext)
    ensures Safe(Suffixed(stem, n, ext))
  {
    DigitsLength(n);
    SafeAppend(stem, ext);
    SafeAppend(stem, " (");
    SafeAppend(stem + " (", Digits(n));
    SafeAppend(stem + " (" + Digits(n), ")");
    SafeAppend(stem + " (" + Digits(n) + ")", ext);
  }

  // A numbered name is reserved only if the name it stands for is.
  lemma SuffixedIsFine(upper: char -> char, stem: string, ext: string, n: nat)
    requires stem != "" && !Reserved(upper, stem + ext)
    ensures !Reserved(upper, Suffixed(stem, n, ext))
  {
    var middle := " (" + Digits(n) + ")";
    var tail := middle + ext;
    assert Suffixed(stem, n, ext) == stem + tail;
    FirstPartAppend(stem, ext);
    FirstPartAppend(stem, tail);
    if |FirstPart(stem)| == |stem| {
      DigitsLength(n);
      NoDots(middle);
      FirstPartAppend(middle, ext);
    }
  }

  lemma {:induction false} NoDots(s: string)
    requires forall i | 0 <= i < |s| :: s[i] != '.'
    ensures FirstPart(s) == s
  {
    if s != "" { NoDots(s[1..]); }
  }

  lemma Rejoin(s: string, k: nat)
    requires k <= |s|
    ensures s[..k] + s[k..] == s
  {}

  lemma StemAndExt(name: string)
    requires name != "" && !Padding(name[0])
    ensures name == Stem(name) + Ext(name) && Stem(name) != "" && (Ext(name) == "" || Ext(name)[0] == '.')
  {
    var e := Ext(name);
    assert e != "" ==> name[|name| - |e|] == '.';
    assert e == name[|name| - |e|..];
    Rejoin(name, |name| - |e|);
  }

  // ---- Naming ----------------------------------------------------------------------------------------

  // The keys of the suffixed names tried so far.
  function Tried(lower: char -> char, stem: string, ext: string, n: nat): set<string> {
    if n <= 2 then {} else Tried(lower, stem, ext, n - 1) + {Fold(lower, Suffixed(stem, n - 1, ext))}
  }

  lemma {:induction false} TriedAll(lower: char -> char, stem: string, ext: string, n: nat)
    requires Lowers(lower)
    ensures |Tried(lower, stem, ext, n)| == if n <= 2 then 0 else n - 2
    ensures forall k | k >= n :: Fold(lower, Suffixed(stem, k, ext)) !in Tried(lower, stem, ext, n)
  {
    if n > 2 {
      TriedAll(lower, stem, ext, n - 1);
      forall k | k >= n ensures Fold(lower, Suffixed(stem, k, ext)) != Fold(lower, Suffixed(stem, n - 1, ext)) {
        if Fold(lower, Suffixed(stem, k, ext)) == Fold(lower, Suffixed(stem, n - 1, ext)) {
          SuffixedInjective(lower, stem, ext, k, n - 1);
        }
      }
    }
  }

  // The entry is the name with the least number, from 2 on, that gives an unused one, in front of its extension.
  ghost predicate FirstFree(lower: char -> char, name: string, entry: string, used: set<string>) {
    exists stem: string, ext: string, n: nat ::
      && name == stem + ext && n >= 2 && entry == Suffixed(stem, n, ext)
      && IsExt(ext) && forall k: nat | 2 <= k < n :: Fold(lower, Suffixed(stem, k, ext)) in used
  }

  lemma FirstFreeIs(lower: char -> char, stem: string, ext: string, n: nat, used: set<string>)
    requires n >= 2 && IsExt(ext) && Tried(lower, stem, ext, n) <= used
    ensures FirstFree(lower, stem + ext, Suffixed(stem, n, ext), used)
  {
    TriedBefore(lower, stem, ext, n);
  }

  lemma {:induction false} TriedBefore(lower: char -> char, stem: string, ext: string, n: nat)
    ensures forall k: nat | 2 <= k < n :: Fold(lower, Suffixed(stem, k, ext)) in Tried(lower, stem, ext, n)
  {
    if n > 2 { TriedBefore(lower, stem, ext, n - 1); }
  }

  predicate Fine(upper: char -> char, entry: string) { entry != "" && Safe(entry) && !Reserved(upper, entry) }

  lemma CleanIsFine(upper: char -> char, raw: string)
    requires upper('_') == '_'
    ensures Fine(upper, CleanName(upper, raw))
  {
    if Reserved(upper, PlainName(raw)) {
      UnderscoreIsFine(upper, PlainName(raw));
      SafeAppend("_", PlainName(raw));
    }
  }

  // The entries differ, case aside, and are all used.
  ghost predicate Different(lower: char -> char, entries: seq<string>, used: set<string>) {
    && (forall i | 0 <= i < |entries| :: Fold(lower, entries[i]) in used)
    && (forall i, j | 0 <= i < j < |entries| :: Fold(lower, entries[i]) != Fold(lower, entries[j]))
  }

  predicate AllFine(upper: char -> char, entries: seq<string>) { forall i | 0 <= i < |entries| :: Fine(upper, entries[i]) }

  lemma OneMore(lower: char -> char, upper: char -> char, entries: seq<string>, entry: string, used: set<string>)
    requires Different(lower, entries, used) && AllFine(upper, entries) && Fold(lower, entry) !in used && Fine(upper, entry)
    ensures Different(lower, entries + [entry], used + {Fold(lower, entry)}) && AllFine(upper, entries + [entry])
  {}

  // Everything before the search for a free name.
  method Plain(raw: string, upper: char -> char) returns (name: string, stem: string, ext: string)
    requires upper('_') == '_'
    ensures name == CleanName(upper, raw) == stem + ext && stem != "" && Fine(upper, name)
    ensures IsExt(ext)
  {
    name := Base(Slashes(raw));
    name := Masked(name);
    name := Cut(name);
    name := Trimmed(name);
    if name == "" { name := "attachment"; }
    stem, ext := Stem(name), Ext(name);
    StemAndExt(name);
    ExtMeaning(name);
    CleanIsFine(upper, raw);
    assert name == PlainName(raw);
    if Device(Fold(upper, FirstPart(name))) {
      Assoc("_", stem, ext);
      name := "_" + name;
      stem := "_" + stem;
    }
  }

  class Archive {
    var used: set<string>
    const lower: char -> char
    const upper: char -> char

    constructor (lower: char -> char, upper: char -> char)
      ensures used == {} && this.lower == lower && this.upper == upper
    { this.lower, this.upper := lower, upper; used := {}; }

    /** Terminates for every set of used names, and yields a safe, non-reserved name no entry has yet, case aside;
        the plain name itself whenever that one is still free. */
    method ArchiveName(raw: string) returns (entry: string)
      requires Lowers(lower) && upper('_') == '_'
      modifies this
      ensures Fold(lower, entry) !in old(used) && used == old(used) + {Fold(lower, entry)}
      ensures Fine(upper, entry)
      ensures Fold(lower, CleanName(upper, raw)) !in old(used) ==> entry == CleanName(upper, raw)
      ensures entry != CleanName(upper, raw) ==> FirstFree(lower, CleanName(upper, raw), entry, old(used))
    {
      var name, stem, ext := Plain(raw, upper);
      var candidate := name;
      var n := 2;
      while Fold(lower, candidate) in used
        invariant used == old(used) && (n > 2 ==> Fold(lower, name) in used)
        invariant n >= 2 && candidate == if n == 2 then name else Suffixed(stem, n - 1, ext)
        invariant Tried(lower, stem, ext, n - 1) <= used
        decreases |used| + 3 - n
      {
        if n > 2 { assert Tried(lower, stem, ext, n) == Tried(lower, stem, ext, n - 1) + {Fold(lower, candidate)}; }
        TriedAll(lower, stem, ext, n);
        SubsetSize(Tried(lower, stem, ext, n), used);
        candidate := Suffixed(stem, n, ext);
        n := n + 1;
      }
      if n > 2 {
        SuffixedIsSafe(stem, n - 1, ext);
        SuffixedIsFine(upper, stem, ext, n - 1);
        FirstFreeIs(lower, stem, ext, n - 1, used);
      }
      used := used + {Fold(lower, candidate)};
      return candidate;
    }

    /** Naming any list of files yields names that differ pairwise, case aside. */
    method NameAll(names: seq<string>) returns (entries: seq<string>)
      requires Lowers(lower) && upper('_') == '_' && used == {}
      modifies this
      ensures |entries| == |names| && Different(lower, entries, used) && AllFine(upper, entries)
    {
      entries := [];
      for k := 0 to |names|
        invariant |entries| == k && Different(lower, entries, used) && AllFine(upper, entries)
      {
        ghost var before := used;
        var entry := ArchiveName(names[k]);
        OneMore(lower, upper, entries, entry, before);
        entries := entries + [entry];
      }
    }
  }
}
