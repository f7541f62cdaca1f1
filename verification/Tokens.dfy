/** Search tokens: internal/search/query.go. Characters are code points; invalid UTF-8 is not represented. */
module Tokens {
  import opened Like

  datatype Error = QueryTooLong | QueryTooShort | TooManyTokens | Invalid
  datatype Result = Ok(tokens: seq<string>) | Err(error: Error)

  const MaxQueryBytes := 1024
  const MaxTokens := 16
  const MaxTokenRunes := 128
  const MinTokenRunes := 2

  // unicode.IsSpace
  predicate Space(c: char) {
    var n := c as int;
    9 <= n <= 13 || n == 0x20 || n == 0x85 || n == 0xA0 || n == 0x1680 || 0x2000 <= n <= 0x200A || n in {0x2028, 0x2029, 0x202F, 0x205F, 0x3000}
  }

  function Utf8Length(c: char): nat {
    var n := c as int;
    if n < 0x80 then 1 else if n < 0x800 then 2 else if n < 0x1_0000 then 3 else 4
  }

  function Bytes(s: string): nat { if s == "" then 0 else Bytes(s[..|s| - 1]) + Utf8Length(s[|s| - 1]) }

  function TotalBytes(fields: seq<string>): nat {
    if fields == [] then 0 else TotalBytes(fields[..|fields| - 1]) + Bytes(fields[|fields| - 1])
  }

  // strings.TrimSpace
  function Trim(s: string): string {
    if s != "" && Space(s[0]) then Trim(s[1..])
    else if s != "" && Space(s[|s| - 1]) then Trim(s[..|s| - 1])
    else s
  }

  // The white space of Unicode, character by character.
  lemma SpaceMeaning(c: char)
    ensures Space(c) <==>
              || c in " \t\n\r\U{000B}\U{000C}\U{0085}\U{00A0}\U{1680}\U{2028}\U{2029}\U{202F}\U{205F}\U{3000}"
              || '\U{2000}' <= c <= '\U{200A}'
  {}

  // The table of section 3 of RFC 3629.
  lemma Utf8Meaning(c: char)
    ensures c <= '\U{007F}' ==> Bytes([c]) == 1
    ensures '\U{0080}' <= c <= '\U{07FF}' ==> Bytes([c]) == 2
    ensures '\U{0800}' <= c <= '\U{FFFF}' ==> Bytes([c]) == 3
    ensures '\U{10000}' <= c ==> Bytes([c]) == 4
  {
    assert [c][..0] == "" && Bytes("") == 0;
  }

  lemma {:induction false} BytesAppend(a: string, b: string)
    ensures Bytes("") == 0 && Bytes(a + b) == Bytes(a) + Bytes(b)
  {
    if b == "" {
      assert a + b == a;
    } else {
      BytesAppend(a, b[..|b| - 1]);
      assert (a + b)[..|a + b| - 1] == a + b[..|b| - 1];
    }
  }

  // Trimming cuts off the white space at both ends, and nothing else.
  lemma {:induction false} TrimMeaning(s: string) returns (from: nat, to: nat)
    ensures from <= to <= |s| && Trim(s) == s[from..to]
    ensures forall k | 0 <= k < from || to <= k < |s| :: Space(s[k])
    ensures Trim(s) != "" ==> !Space(Trim(s)[0]) && !Space(Trim(s)[|Trim(s)| - 1])
  {
    if s != "" && Space(s[0]) {
      var tail := s[1..];
      var i, j := TrimMeaning(tail);
      from, to := i + 1, j + 1;
      assert s[from..to] == tail[i..j];
      forall k | 1 <= k < |s| ensures s[k] == tail[k - 1] {}
    } else if s != "" && Space(s[|s| - 1]) {
      var head := s[..|s| - 1];
      from, to := TrimMeaning(head);
      assert s[from..to] == head[from..to];
      forall k | 0 <= k < |head| ensures s[k] == head[k] {}
    } else {
      from, to := 0, |s|;
      assert s[0..|s|] == s;
    }
  }

  // strings.Fields: the maximal runs of characters that are not white space. `open` is the unfinished run.
  function Fields(s: string, open: string): seq<string> {
    var done := if open == "" then [] else [open];
    if s == "" then done
    else if Space(s[0]) then done + Fields(s[1..], "")
    else Fields(s[1..], open + [s[0]])
  }

  ghost predicate SingleWord(s: string) { s != "" && forall i | 0 <= i < |s| :: !Space(s[i]) }

  lemma {:induction false} FieldsOfWord(s: string, open: string)
    ensures (open + s != "" && (forall i | 0 <= i < |s| :: !Space(s[i]))) ==> Fields(s, open) == [open + s]
    ensures !(forall i | 0 <= i < |s| :: !Space(s[i])) ==> Fields(s, open) != [open + s]
  {
    if s == "" {
      assert open + s == open;
    } else if Space(s[0]) {
      FieldsShorter(s[1..], "");
      if open == "" {
        assert Fields(s, open) == Fields(s[1..], "") && open + s in [open + s];
      } else {
        assert Fields(s, open)[0] == open;
      }
    } else {
      assert (forall i | 0 <= i < |s| :: !Space(s[i])) <==> (forall i | 0 <= i < |s[1..]| :: !Space(s[1..][i])) by {
        forall i | 1 <= i < |s| ensures s[i] == s[1..][i - 1] {}
      }
      FieldsOfWord(s[1..], open + [s[0]]);
      assert open + [s[0]] + s[1..] == open + s;
    }
  }

  // Every field is at most as long as what it was cut from.
  lemma {:induction false} FieldsShorter(s: string, open: string)
    ensures forall f | f in Fields(s, open) :: |f| <= |open| + |s|
  {
    if s != "" {
      if Space(s[0]) { FieldsShorter(s[1..], ""); } else { FieldsShorter(s[1..], open + [s[0]]); }
    }
  }

  // What is wrong with one field.
  datatype Verdict = Fine | Bad(error: Error)

  function Check(field: string): Verdict {
    if Fields(field, "") != [field] then Bad(Invalid)
    else if |field| < MinTokenRunes then Bad(QueryTooShort)
    else if |field| > MaxTokenRunes then Bad(QueryTooLong)
    else Fine
  }

  lemma CheckMeaning(field: string)
    ensures Check(field).Fine? <==> SingleWord(field) && 2 <= |field| <= 128
    ensures Check(field) == Bad(Invalid) <==> !SingleWord(field)
    ensures Check(field) == Bad(QueryTooLong) <==> SingleWord(field) && |field| > 128
  {
    FieldsOfWord(field, "");
    assert "" + field == field;
  }

  // The first occurrence of each token, case aside.
  function Deduped(fold: char -> char, fields: seq<string>): seq<string> {
    if fields == [] then [] else
      var rest := fields[..|fields| - 1]; var last := fields[|fields| - 1];
      Deduped(fold, rest) + if Fold(fold, last) in Keys(fold, rest) then [] else [last]
  }

  function Keys(fold: char -> char, fields: seq<string>): set<string> { set f | f in fields :: Fold(fold, f) }

  ghost predicate Distinct(fold: char -> char, tokens: seq<string>) {
    forall i, j | 0 <= i < j < |tokens| :: Fold(fold, tokens[i]) != Fold(fold, tokens[j])
  }

  predicate TooManyBytes(fields: seq<string>) { TotalBytes(fields) + (if |fields| > 1 then |fields| - 1 else 0) > MaxQueryBytes }

  ghost predicate AllFine(fields: seq<string>) { forall i | 0 <= i < |fields| :: Check(fields[i]).Fine? }

  // Every field is fine, and so is their number and total length.
  ghost predicate Acceptable(fields: seq<string>) {
    |fields| <= MaxTokens && AllFine(fields) && !TooManyBytes(fields)
  }

  /** A list is acceptable if it has at most 16 fields, each a word of 2 to 128 characters, and 1024 bytes in all, a blank
      between each two counted in. */
  lemma AcceptableMeaning(fields: seq<string>)
    ensures Acceptable(fields) <==>
              && |fields| <= 16 && (forall i | 0 <= i < |fields| :: SingleWord(fields[i]) && 2 <= |fields[i]| <= 128)
              && Bytes(Line(fields)) <= 1024
  {
    forall i | 0 <= i < |fields| ensures Check(fields[i]).Fine? <==> SingleWord(fields[i]) && 2 <= |fields[i]| <= 128 { CheckMeaning(fields[i]); }
    LineBytes(fields);
  }

  // The fields with a blank between each two.
  function Line(fields: seq<string>): string {
    if fields == [] then "" else if |fields| == 1 then fields[0] else Line(fields[..|fields| - 1]) + " " + fields[|fields| - 1]
  }

  lemma {:induction false} LineBytes(fields: seq<string>)
    ensures Bytes(Line(fields)) == TotalBytes(fields) + if fields == [] then 0 else |fields| - 1
  {
    if |fields| == 1 {
      assert fields[..0] == [];
    } else if |fields| > 1 {
      var head, last := fields[..|fields| - 1], fields[|fields| - 1];
      LineBytes(head);
      Utf8Meaning(' ');
      BytesAppend(Line(head), " ");
      BytesAppend(Line(head) + " ", last);
    }
  }

  /** Accepts exactly the acceptable lists and reports the first fault of the others. */
  method NormalizeTokens(fold: char -> char, fields: seq<string>) returns (r: Result)
    ensures r.Ok? <==> Acceptable(fields)
    ensures r.Ok? ==> r.tokens == Deduped(fold, fields)
    ensures |fields| > 16 ==> r == Err(TooManyTokens)
    ensures r.Err? && |fields| <= MaxTokens ==>
              || (exists k :: 0 <= k < |fields| && Check(fields[k]) == Bad(r.error) && AllFine(fields[..k]))
              || (AllFine(fields) && r.error == QueryTooLong)
  {
    if |fields| > MaxTokens { return Err(TooManyTokens); }
    var result: seq<string> := [];
    var seen: set<string> := {};
    var totalBytes := 0;
    for i := 0 to |fields|
      invariant result == Deduped(fold, fields[..i]) && seen == Keys(fold, fields[..i])
      invariant totalBytes == TotalBytes(fields[..i])
      invariant AllFine(fields[..i])
    {
      var field := fields[i];
      assert fields[..i + 1][..i] == fields[..i];
      totalBytes := totalBytes + Bytes(field);
      var parts := Fields(field, "");
      if |parts| != 1 || parts[0] != field { return Err(Invalid); }
      assert parts == [field];
      if |field| < MinTokenRunes { return Err(QueryTooShort); }
      if |field| > MaxTokenRunes { return Err(QueryTooLong); }
      assert fields[..i + 1] == fields[..i] + [field];
      KeysSnoc(fold, fields[..i], field);
      var key := Fold(fold, field);
      if key in seen { continue; }
      seen := seen + {key};
      result := result + [field];
    }
    assert fields[..|fields|] == fields;
    if totalBytes + (if |fields| > 1 then |fields| - 1 else 0) > MaxQueryBytes { return Err(QueryTooLong); }
    return Ok(result);
  }

  // Deduplication keeps every key once, in tokens taken from the input.
  lemma {:induction false} DedupedKeys(fold: char -> char, fields: seq<string>)
    ensures Distinct(fold, Deduped(fold, fields)) && Keys(fold, Deduped(fold, fields)) == Keys(fold, fields)
  {
    if fields != [] {
      var rest := fields[..|fields| - 1]; var last := fields[|fields| - 1];
      var kept := Deduped(fold, rest);
      DedupedKeys(fold, rest);
      KeysSnoc(fold, rest, last);
      assert fields == rest + [last];
      if Fold(fold, last) !in Keys(fold, rest) {
        KeysSnoc(fold, kept, last);
        forall i | 0 <= i < |kept| ensures Fold(fold, kept[i]) != Fold(fold, last) { assert Fold(fold, kept[i]) in Keys(fold, kept); }
      }
    }
  }

  lemma KeysSnoc(fold: char -> char, tokens: seq<string>, last: string)
    ensures Keys(fold, tokens + [last]) == Keys(fold, tokens) + {Fold(fold, last)}
  {
    forall f | f in tokens + [last] ensures Fold(fold, f) in Keys(fold, tokens) + {Fold(fold, last)} {}
    forall f | f in tokens ensures Fold(fold, f) in Keys(fold, tokens + [last]) { assert f in tokens + [last]; }
    assert last in tokens + [last];
  }

  lemma {:induction false} DedupedShrinks(fold: char -> char, fields: seq<string>)
    ensures (forall f | f in Deduped(fold, fields) :: f in fields)
    ensures |Deduped(fold, fields)| <= |fields| && TotalBytes(Deduped(fold, fields)) <= TotalBytes(fields)
  {
    if fields != [] {
      var rest := fields[..|fields| - 1]; var last := fields[|fields| - 1];
      var kept := Deduped(fold, rest);
      DedupedShrinks(fold, rest);
      assert fields == rest + [last] && kept + [] == kept;
      assert (kept + [last])[..|kept|] == kept;
    }
  }

  lemma {:induction false} DistinctStays(fold: char -> char, tokens: seq<string>)
    requires Distinct(fold, tokens)
    ensures Deduped(fold, tokens) == tokens
  {
    if tokens != [] {
      var rest := tokens[..|tokens| - 1];
      DistinctStays(fold, rest);
      assert tokens == rest + [tokens[|tokens| - 1]];
    }
  }

  /** Normalizing is idempotent: an accepted result is accepted again, unchanged. */
  lemma NormalizeIsIdempotent(fold: char -> char, fields: seq<string>)
    requires Acceptable(fields)
    ensures Acceptable(Deduped(fold, fields)) && Deduped(fold, Deduped(fold, fields)) == Deduped(fold, fields)
  {
    DedupedKeys(fold, fields);
    DedupedShrinks(fold, fields);
    var kept := Deduped(fold, fields);
    forall i | 0 <= i < |kept| ensures Check(kept[i]).Fine? { assert kept[i] in fields; }
    DistinctStays(fold, Deduped(fold, fields));
  }
}
