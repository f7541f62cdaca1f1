/** SQL LIKE with escape character \, and the patterns of internal/search/query.go. */
module Like {
  predicate Special(c: char) { c == '\\' || c == '%' || c == '_' }

  // s LIKE p ESCAPE '\'
  predicate Like(p: string, s: string)
    decreases |p|
  {
    if p == "" then s == ""
    else if p[0] == '%' then exists i :: 0 <= i <= |s| && Like(p[1..], s[i..])
    else if p[0] == '_' then s != "" && Like(p[1..], s[1..])
    else if p[0] == '\\' then |p| >= 2 && s != "" && s[0] == p[1] && Like(p[2..], s[1..])
    else s != "" && s[0] == p[0] && Like(p[1..], s[1..])
  }

  function Fold(fold: char -> char, s: string): (r: string)
    ensures |r| == |s| && forall i | 0 <= i < |s| :: r[i] == fold(s[i])
  { seq(|s|, i requires 0 <= i < |s| => fold(s[i])) }

  // s ILIKE p ESCAPE '\', for a per-character case folding.
  predicate ILike(fold: char -> char, p: string, s: string) { Like(Fold(fold, p), Fold(fold, s)) }

  predicate Contains(s: string, t: string) { exists i :: 0 <= i <= |s| && t <= s[i..] }

  // Case folding maps no other character to one of \ % _ and leaves those alone.
  ghost predicate Folds(fold: char -> char) { forall c :: if Special(c) then fold(c) == c else !Special(fold(c)) }

  function Escaped(t: string): string {
    if t == "" then "" else (if Special(t[0]) then ['\\', t[0]] else [t[0]]) + Escaped(t[1..])
  }

  function Pattern(t: string): string { "%" + Escaped(t) + "%" }

  lemma {:induction false} EscapedSnoc(t: string, c: char)
    ensures Escaped(t + [c]) == Escaped(t) + if Special(c) then ['\\', c] else [c]
  {
    if t == "" {
      assert Escaped([c]) == (if Special(c) then ['\\', c] else [c]) + Escaped("");
    } else {
      EscapedSnoc(t[1..], c);
      assert (t + [c])[1..] == t[1..] + [c];
    }
  }

  method LikePattern(token: string) returns (r: string)
    ensures r == Pattern(token)
  {
    r := "%";
    for i := 0 to |token|
      invariant r == "%" + Escaped(token[..i])
    {
      EscapedSnoc(token[..i], token[i]);
      assert token[..i + 1] == token[..i] + [token[i]];
      if token[i] == '\\' || token[i] == '%' || token[i] == '_' { r := r + ['\\']; }
      r := r + [token[i]];
    }
    assert token[..|token|] == token;
    r := r + "%";
  }

  lemma DropHead(head: string, middle: string, rest: string)
    ensures (head + middle + rest)[|head|..] == middle + rest
    ensures forall i | 0 <= i < |head| :: (head + middle + rest)[i] == head[i]
  {}

  // An escaped token matches itself and nothing else.
  lemma {:induction false} EscapedIsLiteral(t: string, rest: string, s: string)
    ensures Like(Escaped(t) + rest, s) <==> t <= s && Like(rest, s[|t|..])
  {
    if t == "" {
      assert Escaped(t) + rest == rest;
      assert s[0..] == s;
    } else {
      var p := Escaped(t) + rest;
      var head := if Special(t[0]) then ['\\', t[0]] else [t[0]];
      assert Escaped(t) == head + Escaped(t[1..]);
      DropHead(head, Escaped(t[1..]), rest);
      assert p[|head|..] == Escaped(t[1..]) + rest;
      if s != "" {
        EscapedIsLiteral(t[1..], rest, s[1..]);
        if |t| <= |s| { assert s[1..][|t| - 1..] == s[|t|..]; }
        assert t <= s <==> t[0] == s[0] && t[1..] <= s[1..];
      }
    }
  }

  /** The pattern of a token, whatever it contains, matches exactly the strings that contain the token. */
  lemma PatternMeansContains(t: string, s: string)
    ensures Like(Pattern(t), s) <==> Contains(s, t)
  {
    assert Pattern(t)[1..] == Escaped(t) + "%";
    forall i | 0 <= i <= |s| ensures Like(Escaped(t) + "%", s[i..]) <==> t <= s[i..] {
      EscapedIsLiteral(t, "%", s[i..]);
      if t <= s[i..] { AnyTail(s[i..][|t|..]); }
    }
  }

  lemma AnyTail(s: string)
    ensures Like("%", s)
  {
    assert Like("%"[1..], s[|s|..]);
  }

  lemma {:induction false} FoldEscaped(fold: char -> char, t: string)
    requires Folds(fold)
    ensures Fold(fold, Escaped(t)) == Escaped(Fold(fold, t))
  {
    if t != "" {
      FoldEscaped(fold, t[1..]);
      assert Fold(fold, t)[1..] == Fold(fold, t[1..]);
      var head := if Special(t[0]) then ['\\', t[0]] else [t[0]];
      assert Fold(fold, head) == if Special(t[0]) then ['\\', t[0]] else [fold(t[0])];
      assert Fold(fold, Escaped(t)) == Fold(fold, head) + Fold(fold, Escaped(t[1..]));
    }
  }

  /** The same with case folded on both sides. */
  lemma PatternMeansContainsFolded(fold: char -> char, t: string, s: string)
    requires Folds(fold)
    ensures ILike(fold, Pattern(t), s) <==> Contains(Fold(fold, s), Fold(fold, t))
  {
    FoldEscaped(fold, t);
    assert Special('%');
    assert Fold(fold, Pattern(t)) == Pattern(Fold(fold, t));
    PatternMeansContains(Fold(fold, t), Fold(fold, s));
  }
}
