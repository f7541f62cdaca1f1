/** The search statement (internal/search/repository.go, buildQuery) and what it selects. The statement
    looks the longest token up through a UNION over four text columns and checks the other tokens row by
    row; its meaning is the plain conjunction over all tokens and filters. */
module SearchQuery {
  import opened Basics
  import opened Like
  import Tokens

  type Id = nat

  datatype Message = Message(
    owner: Id, title: Option<string>, body: Option<string>, markdown: bool, detectedType: Option<string>,
    language: Option<string>, sensitive: bool, permanent: bool, favorite: bool, expires: Option<int>, trashed: bool, created: int)
  datatype Attachment = Attachment(message: Id, filename: string)
  datatype Tag = Tag(user: Id, name: string)
  datatype Db = Db(messages: map<Id, Message>, attachments: map<Id, Attachment>, tags: map<Id, Tag>, tagged: set<(Id, Id)>)

  datatype Query = Query(
    tokens: seq<string>, lifecycle: Option<bool>, favorite: Option<bool>, tagIds: seq<Id>, detectedType: Option<string>,
    after: Option<int>, before: Option<int>, cursor: Option<(int, Id)>, limit: int)

  // Case folding, and the recognizer of a body that is one fenced code block.
  datatype Text = Text(fold: char -> char, fenced: string -> bool)

  // ---- What a query asks for ---------------------------------------------------------------------

  predicate Visible(m: Message, owner: Id, now: int) {
    m.owner == owner && !m.trashed && (m.permanent || (m.expires.Some? && m.expires.value > now))
  }

  function Own<T>(x: Option<T>): set<T> { if x.Some? then {x.value} else {} }

  // Every text of the message that search looks at.
  function Searchable(db: Db, owner: Id, id: Id): set<string>
    requires id in db.messages
  {
    var m := db.messages[id];
    Own(m.title) + (if m.sensitive then {} else Own(m.body))
    + (set a | a in db.attachments && db.attachments[a].message == id :: db.attachments[a].filename)
    + (set r | r in db.tagged && r.0 == id && r.1 in db.tags && db.tags[r.1].user == owner :: db.tags[r.1].name)
  }

  predicate Occurs(x: Text, db: Db, owner: Id, id: Id, token: string)
    requires id in db.messages
  { exists text :: text in Searchable(db, owner, id) && Contains(Fold(x.fold, text), Fold(x.fold, token)) }

  // A code message: one fenced block in a visible Markdown body, or a detected type or language otherwise.
  predicate IsCode(x: Text, m: Message) {
    if m.markdown then !m.sensitive && m.body.Some? && x.fenced(m.body.value)
    else (m.detectedType.Some? && Fold(x.fold, m.detectedType.value) == "code") || (m.language.Some? && m.language.value != "")
  }

  predicate KindOk(x: Text, m: Message, kind: string) {
    if kind == "code" then IsCode(x, m)
    else if kind == "markdown" then m.markdown && !IsCode(x, m)
    else if kind == "text" then !m.markdown && !IsCode(x, m)
    else m.detectedType.Some? && Fold(x.fold, m.detectedType.value) == kind
  }

  predicate HasTags(db: Db, owner: Id, id: Id, tagIds: seq<Id>) {
    forall t | t in tagIds :: (id, t) in db.tagged && t in db.tags && db.tags[t].user == owner
  }

  predicate KeyBefore(m: Message, id: Id, cursor: (int, Id)) { m.created < cursor.0 || (m.created == cursor.0 && id < cursor.1) }

  predicate FlagsOk(q: Query, m: Message) {
    (q.lifecycle.Some? ==> m.permanent == q.lifecycle.value) && (q.favorite.Some? ==> m.favorite == q.favorite.value)
  }

  predicate TimesOk(q: Query, m: Message, id: Id) {
    && (q.after.Some? ==> m.created >= q.after.value) && (q.before.Some? ==> m.created < q.before.value)
    && (q.cursor.Some? ==> KeyBefore(m, id, q.cursor.value))
  }

  predicate TypeOk(x: Text, q: Query, m: Message) { q.detectedType.Some? ==> KindOk(x, m, Fold(x.fold, q.detectedType.value)) }

  // The simple conjunction.
  predicate Wanted(x: Text, db: Db, q: Query, owner: Id, now: int, id: Id) {
    && id in db.messages && Visible(db.messages[id], owner, now)
    && (forall t | t in q.tokens :: Occurs(x, db, owner, id, t))
    && FlagsOk(q, db.messages[id]) && HasTags(db, owner, id, q.tagIds) && TypeOk(x, q, db.messages[id]) && TimesOk(q, db.messages[id], id)
  }

  // ---- The statement -----------------------------------------------------------------------------

  datatype Arg = Ident(id: Id) | Moment(at: int) | Chars(text: string) | Flag(value: bool) | Ids(ids: seq<Id>) | Words | Count(n: int) | NoArg

  // One AND-ed condition; `p` and `q` are placeholder numbers, $1 being the first.
  datatype Clause =
    | InTextMatches(p: nat) | AnyField(p: nat) | LifecycleIs(p: nat) | FavoriteIs(p: nat) | AllTags(p: nat)
    | CodeIs(p: nat) | FormatNotCode(markdown: bool, p: nat) | TypeIs(p: nat)
    | CreatedFrom(p: nat) | CreatedUntil(p: nat) | Before(p: nat, q: nat)

  function Get(args: seq<Arg>, p: nat): Arg { if 0 < p <= |args| then args[p - 1] else NoArg }

  // WHERE owner_id = $1 AND trashed_at IS NULL AND (lifecycle = 'PERMANENT' OR expires_at > $2)
  predicate Base(m: Message, args: seq<Arg>) {
    Get(args, 1) == Ident(m.owner) && !m.trashed
    && (m.permanent || (m.expires.Some? && Get(args, 2).Moment? && m.expires.value > Get(args, 2).at))
  }

  predicate Matches(x: Text, args: seq<Arg>, p: nat, text: string) { Get(args, p).Chars? && ILike(x.fold, Get(args, p).text, text) }

  predicate MatchesOpt(x: Text, args: seq<Arg>, p: nat, text: Option<string>) { text.Some? && Matches(x, args, p, text.value) }

  predicate OwnTag(db: Db, args: seq<Arg>, tag: Id) { tag in db.tags && Get(args, 1) == Ident(db.tags[tag].user) }

  // The four SELECTs of the WITH clause.
  function TextMatches(x: Text, db: Db, args: seq<Arg>, p: nat): set<Id> {
    (set id | id in db.messages && Base(db.messages[id], args) && MatchesOpt(x, args, p, db.messages[id].title))
    + (set id | id in db.messages && Base(db.messages[id], args) && !db.messages[id].sensitive && MatchesOpt(x, args, p, db.messages[id].body))
    + (set a | a in db.attachments && db.attachments[a].message in db.messages && Base(db.messages[db.attachments[a].message], args)
               && Matches(x, args, p, db.attachments[a].filename) :: db.attachments[a].message)
    + (set r | r in db.tagged && OwnTag(db, args, r.1) && r.0 in db.messages && Base(db.messages[r.0], args)
               && Matches(x, args, p, db.tags[r.1].name) :: r.0)
  }

  // CASE WHEN body_format = 'MARKDOWN' THEN sensitive = false AND ... ELSE lower(detected_type) = 'code' OR detected_language <> '' END
  predicate CodeCondition(x: Text, m: Message) {
    if !m.markdown then
      (m.language.Some? && m.language.value != "") || (m.detectedType.Some? && Fold(x.fold, m.detectedType.value) == "code")
    else if m.sensitive || m.body.None? then false
    else x.fenced(m.body.value)
  }

  predicate Eval(x: Text, db: Db, args: seq<Arg>, id: Id, clause: Clause)
    requires id in db.messages
  {
    var m := db.messages[id];
    match clause
    case InTextMatches(p) => id in TextMatches(x, db, args, p)
    case AnyField(p) =>
      || MatchesOpt(x, args, p, m.title)
      || (!m.sensitive && MatchesOpt(x, args, p, m.body))
      || (exists a :: a in db.attachments && db.attachments[a].message == id && Matches(x, args, p, db.attachments[a].filename))
      || (exists r :: r in db.tagged && r.0 == id && OwnTag(db, args, r.1) && Matches(x, args, p, db.tags[r.1].name))
    case LifecycleIs(p) => Get(args, p) == Flag(m.permanent)
    case FavoriteIs(p) => Get(args, p) == Flag(m.favorite)
    case AllTags(p) => Get(args, p).Ids? && !(exists t :: t in Get(args, p).ids && !(exists r :: r in db.tagged && r.0 == id && r.1 == t && OwnTag(db, args, t)))
    case CodeIs(p) => Get(args, p).Words? && CodeCondition(x, m)
    case FormatNotCode(markdown, p) => m.markdown == markdown && Get(args, p).Words? && !CodeCondition(x, m)
    case TypeIs(p) => m.detectedType.Some? && Get(args, p) == Chars(Fold(x.fold, m.detectedType.value))
    case CreatedFrom(p) => Get(args, p).Moment? && m.created >= Get(args, p).at
    case CreatedUntil(p) => Get(args, p).Moment? && m.created < Get(args, p).at
    case Before(p, q) =>   // (created_at, id) < ($p, $q)
      Get(args, p).Moment? && Get(args, q).Ident? && m.created <= Get(args, p).at && (m.created == Get(args, p).at ==> id < Get(args, q).id)
  }

  predicate Selected(x: Text, db: Db, where: seq<Clause>, args: seq<Arg>, id: Id) {
    id in db.messages && Base(db.messages[id], args) && forall i | 0 <= i < |where| :: Eval(x, db, args, id, where[i])
  }

  // Every placeholder of the statement has its argument.
  predicate Closed(where: seq<Clause>, n: nat) {
    forall i | 0 <= i < |where| :: 0 < where[i].p <= n && (where[i].Before? ==> 0 < where[i].q <= n)
  }

  // ORDER BY rune count DESC, stable.
  function Longest(tokens: seq<string>): (r: seq<string>)
    ensures multiset(r) == multiset(tokens)
  {
    if tokens == [] then [] else
      assert tokens == tokens[..|tokens| - 1] + [tokens[|tokens| - 1]];
      Placed(Longest(tokens[..|tokens| - 1]), tokens[|tokens| - 1])
  }

  predicate LongestFirst(tokens: seq<string>) { forall i, j | 0 <= i < j < |tokens| :: |tokens[i]| >= |tokens[j]| }

  function Placed(sorted: seq<string>, token: string): (r: seq<string>)
    ensures multiset(r) == multiset(sorted + [token])
  {
    if sorted == [] || |sorted[|sorted| - 1]| >= |token| then sorted + [token]
    else
      assert sorted == sorted[..|sorted| - 1] + [sorted[|sorted| - 1]];
      Placed(sorted[..|sorted| - 1], token) + [sorted[|sorted| - 1]]
  }

  lemma PlacedMembers(sorted: seq<string>, token: string)
    ensures forall t | t in Placed(sorted, token) :: t in sorted || t == token
  {
    forall t | t in Placed(sorted, token) ensures t in sorted || t == token {
      assert t in multiset(Placed(sorted, token));
      assert t in multiset(sorted + [token]);
    }
  }

  lemma {:induction false} PlacedLongestFirst(sorted: seq<string>, token: string)
    requires LongestFirst(sorted)
    ensures LongestFirst(Placed(sorted, token))
  {
    if sorted != [] && |sorted[|sorted| - 1]| < |token| {
      var head, last := sorted[..|sorted| - 1], sorted[|sorted| - 1];
      PlacedLongestFirst(head, token);
      PlacedMembers(head, token);
      forall t | t in head ensures |t| >= |last| {
        var j :| 0 <= j < |head| && head[j] == t;
        assert sorted[j] == t;
      }
      LongestAppend(Placed(head, token), last);
    } else {
      LongestAppend(sorted, token);
    }
  }

  lemma LongestAppend(tokens: seq<string>, last: string)
    requires LongestFirst(tokens) && (tokens == [] || |tokens[|tokens| - 1]| >= |last| || forall t | t in tokens :: |t| >= |last|)
    ensures LongestFirst(tokens + [last])
  {
    forall i | 0 <= i < |tokens| ensures |tokens[i]| >= |last| {
      assert i < |tokens| - 1 ==> |tokens[i]| >= |tokens[|tokens| - 1]|;
      assert tokens[i] in tokens;
    }
  }

  // The token looked up is one of the longest.
  lemma {:induction false} LongestSorted(tokens: seq<string>)
    ensures LongestFirst(Longest(tokens))
  {
    if tokens != [] {
      LongestSorted(tokens[..|tokens| - 1]);
      PlacedLongestFirst(Longest(tokens[..|tokens| - 1]), tokens[|tokens| - 1]);
    }
  }

  // ---- Building it -------------------------------------------------------------------------------

  lemma EvalStable(x: Text, db: Db, args: seq<Arg>, extra: seq<Arg>, id: Id, clause: Clause)
    requires id in db.messages && Closed([clause], |args|) && |args| >= 2
    ensures Eval(x, db, args + extra, id, clause) == Eval(x, db, args, id, clause)
  {
    assert [clause][0] == clause;
    forall p | 0 < p <= |args| ensures Get(args + extra, p) == Get(args, p) {}
    if clause.InTextMatches? {
      assert TextMatches(x, db, args + extra, clause.p) == TextMatches(x, db, args, clause.p);
    }
  }

  // Further arguments change nothing.
  lemma MoreArgs(x: Text, where: seq<Clause>, args: seq<Arg>, extra: seq<Arg>)
    requires |args| >= 2 && Closed(where, |args|)
    ensures forall db, id :: Selected(x, db, where, args + extra, id) <==> Selected(x, db, where, args, id)
  {
    forall db: Db, id | id in db.messages ensures Selected(x, db, where, args + extra, id) <==> Selected(x, db, where, args, id) {
      forall i | 0 <= i < |where| ensures Eval(x, db, args + extra, id, where[i]) == Eval(x, db, args, id, where[i]) {
        assert [where[i]][0] == where[i];
        EvalStable(x, db, args, extra, id, where[i]);
      }
    }
  }

  // Appending one condition with its arguments adds exactly that condition.
  lemma Extend(x: Text, where: seq<Clause>, args: seq<Arg>, clause: Clause, extra: seq<Arg>)
    requires |args| >= 2 && Closed(where, |args|) && 0 < clause.p <= |args| + |extra| && (clause.Before? ==> 0 < clause.q <= |args| + |extra|)
    ensures Closed(where + [clause], |args| + |extra|)
    ensures forall db, id :: Selected(x, db, where + [clause], args + extra, id)
                             <==> Selected(x, db, where, args, id) && Eval(x, db, args + extra, id, clause)
  {
    MoreArgs(x, where, args, extra);
    var longer := where + [clause];
    forall db: Db, id | id in db.messages
      ensures Selected(x, db, longer, args + extra, id) <==> Selected(x, db, where, args + extra, id) && Eval(x, db, args + extra, id, clause)
    {
      assert longer[|where|] == clause;
      forall i | 0 <= i < |where| ensures longer[i] == where[i] {}
    }
  }

  // A pattern checked row by row, and the same pattern looked up, mean that the token occurs.
  lemma TokenClauses(x: Text, db: Db, args: seq<Arg>, p: nat, owner: Id, now: int, token: string, id: Id)
    requires Folds(x.fold) && Get(args, 1) == Ident(owner) && Get(args, 2) == Moment(now) && Get(args, p) == Chars(Pattern(token))
    requires id in db.messages && Base(db.messages[id], args)
    ensures Eval(x, db, args, id, AnyField(p)) <==> Occurs(x, db, owner, id, token)
    ensures Eval(x, db, args, id, InTextMatches(p)) <==> Occurs(x, db, owner, id, token)
  {
    forall text: string ensures Matches(x, args, p, text) <==> Contains(Fold(x.fold, text), Fold(x.fold, token)) {
      PatternMeansContainsFolded(x.fold, token, text);
    }
    AnyFieldOccurs(x, db, args, p, owner, token, id);
    LookupIsAnyField(x, db, args, p, id);
  }

  lemma AnyFieldOccurs(x: Text, db: Db, args: seq<Arg>, p: nat, owner: Id, token: string, id: Id)
    requires Get(args, 1) == Ident(owner) && id in db.messages
    requires forall text: string :: Matches(x, args, p, text) <==> Contains(Fold(x.fold, text), Fold(x.fold, token))
    ensures Eval(x, db, args, id, AnyField(p)) <==> Occurs(x, db, owner, id, token)
  {
    var texts := Searchable(db, owner, id);
    var m := db.messages[id];
    forall text | text in texts && Matches(x, args, p, text) ensures Eval(x, db, args, id, AnyField(p)) {}
    if Eval(x, db, args, id, AnyField(p)) {
      if MatchesOpt(x, args, p, m.title) { assert m.title.value in texts; }
      else if !m.sensitive && MatchesOpt(x, args, p, m.body) { assert m.body.value in texts; }
      else if a :| a in db.attachments && db.attachments[a].message == id && Matches(x, args, p, db.attachments[a].filename) {
        assert db.attachments[a].filename in texts;
      } else {
        var r :| r in db.tagged && r.0 == id && OwnTag(db, args, r.1) && Matches(x, args, p, db.tags[r.1].name);
        assert db.tags[r.1].name in texts;
      }
    }
  }

  lemma LookupIsAnyField(x: Text, db: Db, args: seq<Arg>, p: nat, id: Id)
    requires id in db.messages && Base(db.messages[id], args)
    ensures Eval(x, db, args, id, InTextMatches(p)) <==> Eval(x, db, args, id, AnyField(p))
  {}

  // The part of the conjunction that concerns the tokens.
  predicate TokensWanted(x: Text, db: Db, owner: Id, now: int, id: Id, tokens: seq<string>) {
    id in db.messages && Visible(db.messages[id], owner, now) && forall t | t in tokens :: Occurs(x, db, owner, id, t)
  }

  // The statement so far selects what `tokens` ask for.
  ghost predicate MeansTokens(x: Text, owner: Id, now: int, tokens: seq<string>, where: seq<Clause>, args: seq<Arg>) {
    && |args| >= 2 && args[0] == Ident(owner) && args[1] == Moment(now) && Closed(where, |args|)
    && forall db: Db, id :: Selected(x, db, where, args, id) <==> TokensWanted(x, db, owner, now, id, tokens)
  }

  lemma TokenEval(x: Text, owner: Id, now: int, args: seq<Arg>, token: string, clause: Clause)
    requires Folds(x.fold) && |args| >= 3 && args[0] == Ident(owner) && args[1] == Moment(now) && args[|args| - 1] == Chars(Pattern(token))
    requires clause == AnyField(|args|) || clause == InTextMatches(|args|)
    ensures forall db: Db, id | id in db.messages && Visible(db.messages[id], owner, now) ::
              Eval(x, db, args, id, clause) <==> Occurs(x, db, owner, id, token)
  {
    forall db: Db, id | id in db.messages && Visible(db.messages[id], owner, now)
      ensures Eval(x, db, args, id, clause) <==> Occurs(x, db, owner, id, token)
    {
      TokenClauses(x, db, args, |args|, owner, now, token, id);
    }
  }

  lemma OneMoreToken(x: Text, owner: Id, now: int, tokens: seq<string>, token: string, where: seq<Clause>, args: seq<Arg>, clause: Clause)
    requires Folds(x.fold) && MeansTokens(x, owner, now, tokens, where, args)
    requires clause == AnyField(|args| + 1) || clause == InTextMatches(|args| + 1)
    ensures MeansTokens(x, owner, now, tokens + [token], where + [clause], args + [Chars(Pattern(token))])
  {
    Extend(x, where, args, clause, [Chars(Pattern(token))]);
    TokenEval(x, owner, now, args + [Chars(Pattern(token))], token, clause);
    assert forall t :: t in tokens + [token] <==> t in tokens || t == token;
  }

  method BuildTokens(owner: Id, tokens: seq<string>, now: int, x: Text) returns (where: seq<Clause>, args: seq<Arg>)
    requires Folds(x.fold)
    ensures MeansTokens(x, owner, now, tokens, where, args)
  {
    args := [Ident(owner), Moment(now)];
    where := [];
    var sorted := Longest(tokens);
    assert forall db: Db, id :: Selected(x, db, where, args, id) <==> TokensWanted(x, db, owner, now, id, []);
    for i := 0 to |sorted|
      invariant MeansTokens(x, owner, now, sorted[..i], where, args)
    {
      var pattern := LikePattern(sorted[i]);
      var clause := if i == 0 then InTextMatches(|args| + 1) else AnyField(|args| + 1);
      OneMoreToken(x, owner, now, sorted[..i], sorted[i], where, args, clause);
      assert sorted[..i + 1] == sorted[..i] + [sorted[i]];
      args := args + [Chars(pattern)];
      where := where + [clause];
    }
    SameTokens(x, owner, now, tokens, sorted, where, args);
  }

  // Neither order nor repetition of the tokens matters.
  lemma SameTokens(x: Text, owner: Id, now: int, tokens: seq<string>, sorted: seq<string>, where: seq<Clause>, args: seq<Arg>)
    requires multiset(tokens) == multiset(sorted) && MeansTokens(x, owner, now, sorted[..|sorted|], where, args)
    ensures MeansTokens(x, owner, now, tokens, where, args)
  {
    assert forall t :: t in tokens <==> t in multiset(tokens);
    assert forall t :: t in sorted[..|sorted|] <==> t in multiset(sorted);
    forall db: Db, id ensures TokensWanted(x, db, owner, now, id, tokens) <==> TokensWanted(x, db, owner, now, id, sorted[..|sorted|]) {}
  }

  // ---- The filters -------------------------------------------------------------------------------

  datatype Filter = OfLifecycle | OfFavorite | OfTags | OfType | FromTime | UntilTime | AfterCursor

  predicate Passes(x: Text, db: Db, q: Query, owner: Id, id: Id, f: Filter)
    requires id in db.messages
  {
    var m := db.messages[id];
    match f
    case OfLifecycle => q.lifecycle.Some? ==> m.permanent == q.lifecycle.value
    case OfFavorite => q.favorite.Some? ==> m.favorite == q.favorite.value
    case OfTags => HasTags(db, owner, id, q.tagIds)
    case OfType => TypeOk(x, q, m)
    case FromTime => q.after.Some? ==> m.created >= q.after.value
    case UntilTime => q.before.Some? ==> m.created < q.before.value
    case AfterCursor => q.cursor.Some? ==> KeyBefore(m, id, q.cursor.value)
  }

  // From statement (w0, a0) to (w1, a1), exactly filter f was added.
  ghost predicate Narrowed(x: Text, q: Query, owner: Id, w0: seq<Clause>, a0: seq<Arg>, w1: seq<Clause>, a1: seq<Arg>, f: Filter) {
    forall db: Db, id :: Selected(x, db, w1, a1, id) <==> Selected(x, db, w0, a0, id) && Passes(x, db, q, owner, id, f)
  }

  predicate Sound(owner: Id, where: seq<Clause>, args: seq<Arg>) { |args| >= 2 && args[0] == Ident(owner) && Closed(where, |args|) }

  lemma Narrow(x: Text, q: Query, owner: Id, where: seq<Clause>, args: seq<Arg>, clause: Clause, extra: seq<Arg>, f: Filter)
    requires Sound(owner, where, args) && 0 < clause.p <= |args| + |extra| && (clause.Before? ==> 0 < clause.q <= |args| + |extra|)
    requires forall db: Db, id | id in db.messages :: Eval(x, db, args + extra, id, clause) <==> Passes(x, db, q, owner, id, f)
    ensures Sound(owner, where + [clause], args + extra) && Narrowed(x, q, owner, where, args, where + [clause], args + extra, f)
  {
    Extend(x, where, args, clause, extra);
  }

  method AddFlags(owner: Id, q: Query, where: seq<Clause>, args: seq<Arg>, x: Text) returns (w: seq<Clause>, a: seq<Arg>)
    requires Sound(owner, where, args)
    ensures Sound(owner, w, a)
    ensures forall db: Db, id :: Selected(x, db, w, a, id) <==>
              Selected(x, db, where, args, id) && Passes(x, db, q, owner, id, OfLifecycle) && Passes(x, db, q, owner, id, OfFavorite)
  {
    w, a := where, args;
    if q.lifecycle.Some? {
      Narrow(x, q, owner, w, a, LifecycleIs(|a| + 1), [Flag(q.lifecycle.value)], OfLifecycle);
      w, a := w + [LifecycleIs(|a| + 1)], a + [Flag(q.lifecycle.value)];
    }
    assert Narrowed(x, q, owner, where, args, w, a, OfLifecycle);
    if q.favorite.Some? {
      Narrow(x, q, owner, w, a, FavoriteIs(|a| + 1), [Flag(q.favorite.value)], OfFavorite);
      w, a := w + [FavoriteIs(|a| + 1)], a + [Flag(q.favorite.value)];
    }
  }

  lemma TagsClause(x: Text, db: Db, q: Query, owner: Id, args: seq<Arg>, id: Id)
    requires |args| >= 2 && args[0] == Ident(owner) && id in db.messages
    ensures Eval(x, db, args + [Ids(q.tagIds)], id, AllTags(|args| + 1)) <==> Passes(x, db, q, owner, id, OfTags)
  {
    var a := args + [Ids(q.tagIds)];
    assert Get(a, |args| + 1) == Ids(q.tagIds) && Get(a, 1) == Ident(owner);
    forall t | t in q.tagIds
      ensures (exists r :: r in db.tagged && r.0 == id && r.1 == t && OwnTag(db, a, t))
         <==> ((id, t) in db.tagged && t in db.tags && db.tags[t].user == owner)
    {
      if (id, t) in db.tagged && OwnTag(db, a, t) { assert (id, t).0 == id && (id, t).1 == t; }
    }
  }

  method AddTagsAndType(owner: Id, q: Query, where: seq<Clause>, args: seq<Arg>, x: Text) returns (w: seq<Clause>, a: seq<Arg>)
    requires Sound(owner, where, args)
    ensures Sound(owner, w, a)
    ensures forall db: Db, id :: Selected(x, db, w, a, id) <==>
              Selected(x, db, where, args, id) && Passes(x, db, q, owner, id, OfTags) && Passes(x, db, q, owner, id, OfType)
  {
    w, a := where, args;
    if |q.tagIds| > 0 {
      forall db: Db, id | id in db.messages
        ensures Eval(x, db, a + [Ids(q.tagIds)], id, AllTags(|a| + 1)) <==> Passes(x, db, q, owner, id, OfTags)
      {
        TagsClause(x, db, q, owner, a, id);
      }
      Narrow(x, q, owner, w, a, AllTags(|a| + 1), [Ids(q.tagIds)], OfTags);
      w, a := w + [AllTags(|a| + 1)], a + [Ids(q.tagIds)];
    }
    assert Narrowed(x, q, owner, where, args, w, a, OfTags);
    if q.detectedType.Some? {
      var kind := Fold(x.fold, q.detectedType.value);
      var p := |a| + 1;
      var clause := if kind == "code" then CodeIs(p) else if kind == "markdown" || kind == "text" then FormatNotCode(kind == "markdown", p) else TypeIs(p);
      var arg := if kind in {"code", "markdown", "text"} then Words else Chars(kind);
      Narrow(x, q, owner, w, a, clause, [arg], OfType);
      w, a := w + [clause], a + [arg];
    }
  }

  method AddTimes(owner: Id, q: Query, where: seq<Clause>, args: seq<Arg>, x: Text) returns (w: seq<Clause>, a: seq<Arg>)
    requires Sound(owner, where, args)
    ensures Sound(owner, w, a)
    ensures forall db: Db, id :: Selected(x, db, w, a, id) <==>
              Selected(x, db, where, args, id) && Passes(x, db, q, owner, id, FromTime) && Passes(x, db, q, owner, id, UntilTime)
              && Passes(x, db, q, owner, id, AfterCursor)
  {
    w, a := where, args;
    if q.after.Some? {
      Narrow(x, q, owner, w, a, CreatedFrom(|a| + 1), [Moment(q.after.value)], FromTime);
      w, a := w + [CreatedFrom(|a| + 1)], a + [Moment(q.after.value)];
    }
    assert Narrowed(x, q, owner, where, args, w, a, FromTime);
    ghost var w1, a1 := w, a;
    if q.before.Some? {
      Narrow(x, q, owner, w, a, CreatedUntil(|a| + 1), [Moment(q.before.value)], UntilTime);
      w, a := w + [CreatedUntil(|a| + 1)], a + [Moment(q.before.value)];
    }
    assert Narrowed(x, q, owner, w1, a1, w, a, UntilTime);
    if q.cursor.Some? {
      var extra := [Moment(q.cursor.value.0), Ident(q.cursor.value.1)];
      Narrow(x, q, owner, w, a, Before(|a| + 1, |a| + 2), extra, AfterCursor);
      w, a := w + [Before(|a| + 1, |a| + 2)], a + extra;
    }
  }

  // Nothing is asked for but the visible messages.
  predicate Unfiltered(q: Query) {
    q.tokens == [] && q.tagIds == [] && q.lifecycle.None? && q.favorite.None? && q.detectedType.None? && q.after.None? && q.before.None?
  }

  // The token occurs in the title, the readable body, the name of an attachment or the name of a tag of the owner's.
  predicate InSomeField(x: Text, db: Db, owner: Id, id: Id, t: string)
    requires id in db.messages
  {
    var m := db.messages[id];
    || (m.title.Some? && Contains(Fold(x.fold, m.title.value), Fold(x.fold, t)))
    || (!m.sensitive && m.body.Some? && Contains(Fold(x.fold, m.body.value), Fold(x.fold, t)))
    || (exists a :: a in db.attachments && db.attachments[a].message == id && Contains(Fold(x.fold, db.attachments[a].filename), Fold(x.fold, t)))
    || (exists g :: g in db.tags && db.tags[g].user == owner && (id, g) in db.tagged && Contains(Fold(x.fold, db.tags[g].name), Fold(x.fold, t)))
  }

  /** The simple conjunction, spelled out. */
  lemma WantedPlainly(x: Text, db: Db, q: Query, owner: Id, now: int, id: Id)
    requires id in db.messages
    ensures var m := db.messages[id];
            Wanted(x, db, q, owner, now, id) <==>
              && m.owner == owner && !m.trashed && (m.permanent || (m.expires.Some? && m.expires.value > now))
              && (forall t | t in q.tokens :: InSomeField(x, db, owner, id, t))
              && (q.lifecycle == Some(true) ==> m.permanent) && (q.lifecycle == Some(false) ==> !m.permanent)
              && (q.favorite == Some(true) ==> m.favorite) && (q.favorite == Some(false) ==> !m.favorite)
              && (forall g | g in q.tagIds :: (id, g) in db.tagged && g in db.tags && db.tags[g].user == owner)
              && (q.after.Some? ==> q.after.value <= m.created) && (q.before.Some? ==> m.created < q.before.value)
              && (q.cursor.Some? ==> m.created < q.cursor.value.0 || (m.created == q.cursor.value.0 && id < q.cursor.value.1))
              && (q.detectedType.Some? ==>
                    var kind := Fold(x.fold, q.detectedType.value);
                    var code := if m.markdown then !m.sensitive && m.body.Some? && x.fenced(m.body.value)
                                else (m.detectedType.Some? && Fold(x.fold, m.detectedType.value) == "code") || (m.language.Some? && m.language.value != "");
                    match kind
                    case "code" => code
                    case "markdown" => m.markdown && !code
                    case "text" => !m.markdown && !code
                    case _ => m.detectedType.Some? && Fold(x.fold, m.detectedType.value) == kind)
  {
    forall t | t in q.tokens ensures Occurs(x, db, owner, id, t) <==> InSomeField(x, db, owner, id, t) { OccursMeaning(x, db, owner, id, t); }
  }

  lemma OccursMeaning(x: Text, db: Db, owner: Id, id: Id, t: string)
    requires id in db.messages
    ensures Occurs(x, db, owner, id, t) <==> InSomeField(x, db, owner, id, t)
  {}

  /** The statement selects exactly the messages of the simple conjunction, whatever the tables hold; in particular never
      somebody else's, a trashed or an expired one. */
  method BuildQuery(owner: Id, q: Query, now: int, x: Text) returns (where: seq<Clause>, limit: nat, args: seq<Arg>)
    requires Folds(x.fold)
    ensures forall db: Db, id :: Selected(x, db, where, args, id) <==> Wanted(x, db, q, owner, now, id)
    ensures forall db: Db, id | Selected(x, db, where, args, id) ::
              var m := db.messages[id]; m.owner == owner && !m.trashed && (m.permanent || (m.expires.Some? && m.expires.value > now))
    ensures Unfiltered(q) && q.cursor.None? ==> forall db: Db, id | id in db.messages ::
              var m := db.messages[id];
              Selected(x, db, where, args, id) <==> m.owner == owner && !m.trashed && (m.permanent || (m.expires.Some? && m.expires.value > now))
    ensures Get(args, limit) == Count(q.limit + 1)
  {
    where, args := BuildTokens(owner, q.tokens, now, x);
    where, args := AddFlags(owner, q, where, args, x);
    where, args := AddTagsAndType(owner, q, where, args, x);
    where, args := AddTimes(owner, q, where, args, x);
    MoreArgs(x, where, args, [Count(q.limit + 1)]);
    args := args + [Count(q.limit + 1)];
    limit := |args|;
  }
}
