/** One search request from end to end: internal/search/service.go over the statement of SearchQuery. */
module SearchService {
  import opened Basics
  import opened Like
  import opened Keyset
  import opened Paging
  import opened SearchQuery
  import Tokens

  datatype Error = Validation | BadTokens(error: Tokens.Error)
  datatype Result = Ok(page: Page) | Err(error: Error)

  const NIL: Id := 0
  const DefaultLimit := 30
  const MaxLimit := 100
  const MaxTypeBytes := 64

  function Trimmed(q: Query): Query {
    if q.detectedType.Some? then q.(detectedType := Some(Tokens.Trim(q.detectedType.value))) else q
  }

  function LimitOf(q: Query): int { if q.limit == 0 then 30 else q.limit }

  ghost predicate Valid(q: Query, owner: Id) {
    && owner != 0 && 0 <= q.limit <= 100 && Tokens.Acceptable(q.tokens) && 0 !in q.tagIds
    && (q.detectedType.Some? ==> Tokens.Trim(q.detectedType.value) != "" && Tokens.Bytes(Tokens.Trim(q.detectedType.value)) <= 64)
    && (q.after.Some? && q.before.Some? ==> q.after.value < q.before.value)
  }

  // The rows the request asks for, wherever the page starts.
  function Hits(x: Text, db: Db, q: Query, owner: Id, now: int): set<Key> {
    set id | id in db.messages && Wanted(x, db, q.(cursor := None), owner, now, id) :: (db.messages[id].created, id)
  }

  function SelectedKeys(x: Text, db: Db, where: seq<Clause>, args: seq<Arg>): set<Key> {
    set id | id in db.messages && Selected(x, db, where, args, id) :: (db.messages[id].created, id)
  }

  // The database's answer: ORDER BY created_at DESC, id DESC LIMIT $limit.
  function Answer(x: Text, db: Db, where: seq<Clause>, limit: nat, args: seq<Arg>): seq<Key>
    requires Get(args, limit).Count? && Get(args, limit).n >= 0
  { Scan(Desc, SelectedKeys(x, db, where, args), Get(args, limit).n) }

  method UniqueTags(tagIds: seq<Id>) returns (ok: bool, unique: seq<Id>)
    ensures ok <==> NIL !in tagIds
    ensures ok ==> (forall t :: t in unique <==> t in tagIds) && forall i, j | 0 <= i < j < |unique| :: unique[i] != unique[j]
  {
    unique := [];
    var seen: set<Id> := {};
    for i := 0 to |tagIds|
      invariant NIL !in tagIds[..i]
      invariant (forall t :: t in unique <==> t in tagIds[..i]) && (forall t :: t in seen <==> t in unique)
      invariant forall i, j | 0 <= i < j < |unique| :: unique[i] != unique[j]
    {
      assert tagIds[..i + 1] == tagIds[..i] + [tagIds[i]];
      if tagIds[i] == NIL { return false, []; }
      if tagIds[i] !in seen {
        seen := seen + {tagIds[i]};
        unique := unique + [tagIds[i]];
      }
    }
    assert tagIds[..|tagIds|] == tagIds;
    ok := true;
  }

  /** A valid request gets exactly the page, behind its cursor, of the messages that its trimmed but otherwise
      unnormalized query wants; an invalid one gets an error. */
  method Search(x: Text, db: Db, owner: Id, q: Query, now: int) returns (r: Result)
    requires Folds(x.fold) && forall c :: x.fold(x.fold(c)) == x.fold(c)
    ensures r.Ok? <==> Valid(q, owner)
    ensures r.Err? && owner != 0 && 0 <= q.limit <= 100 && !Tokens.Acceptable(q.tokens) ==> r.error.BadTokens?
    ensures r.Err? && (owner == 0 || !(0 <= q.limit <= 100) || Tokens.Acceptable(q.tokens)) ==> r.error == Validation
    ensures r.Ok? ==> r.page == PageOf(Desc, Hits(x, db, Trimmed(q), owner, now), q.cursor, LimitOf(q))
    ensures r.Ok? ==> forall k | k in r.page.items ::
              && k.1 in db.messages && var m := db.messages[k.1];
              && k.0 == m.created && m.owner == owner && !m.trashed && (m.permanent || (m.expires.Some? && m.expires.value > now))
    ensures r.Ok? && Unfiltered(q) ==> r.page == PageOf(Desc, AllVisible(db, owner, now), q.cursor, LimitOf(q))
  {
    if owner == NIL { return Err(Validation); }
    var query := q.(limit := if q.limit == 0 then DefaultLimit else q.limit);
    if query.limit < 1 || query.limit > MaxLimit { return Err(Validation); }
    var tokens := Tokens.NormalizeTokens(x.fold, q.tokens);
    if tokens.Err? { return Err(BadTokens(tokens.error)); }
    query := query.(tokens := tokens.tokens);
    if query.detectedType.Some? {
      var value := Tokens.Trim(query.detectedType.value);
      if value == "" || Tokens.Bytes(value) > MaxTypeBytes { return Err(Validation); }
      query := query.(detectedType := Some(Fold(x.fold, value)));
    }
    if query.after.Some? && query.before.Some? && query.after.value >= query.before.value { return Err(Validation); }
    var ok, unique := UniqueTags(q.tagIds);
    if !ok { return Err(Validation); }
    query := query.(tagIds := unique);

    var page := FetchPage(x, db, owner, q, query, now);
    HitsAreVisible(x, db, q, owner, now, LimitOf(q));
    r := Ok(page);
  }

  // Everything the owner can see.
  function AllVisible(db: Db, owner: Id, now: int): set<Key> {
    set id | id in db.messages && db.messages[id].owner == owner && !db.messages[id].trashed
             && (db.messages[id].permanent || (db.messages[id].expires.Some? && db.messages[id].expires.value > now)) :: (db.messages[id].created, id)
  }

  lemma HitsAreVisible(x: Text, db: Db, q: Query, owner: Id, now: int, limit: nat)
    requires limit >= 1
    ensures Hits(x, db, Trimmed(q), owner, now) <= AllVisible(db, owner, now)
    ensures Unfiltered(q) ==> Hits(x, db, Trimmed(q), owner, now) == AllVisible(db, owner, now)
    ensures forall k | k in PageOf(Desc, Hits(x, db, Trimmed(q), owner, now), q.cursor, limit).items :: k in AllVisible(db, owner, now)
  {
    forall id | id in db.messages
      ensures Wanted(x, db, Trimmed(q).(cursor := None), owner, now, id) ==> (db.messages[id].created, id) in AllVisible(db, owner, now)
      ensures Unfiltered(q) && (db.messages[id].created, id) in AllVisible(db, owner, now) ==> Wanted(x, db, Trimmed(q).(cursor := None), owner, now, id)
    {
      WantedPlainly(x, db, Trimmed(q).(cursor := None), owner, now, id);
    }
    ScanMeaning(Desc, Beyond(Desc, Hits(x, db, Trimmed(q), owner, now), q.cursor), limit);
  }

  // The normalized query, built, run and cut to a page.
  method FetchPage(x: Text, db: Db, owner: Id, ghost q: Query, query: Query, now: int) returns (page: Page)
    requires Folds(x.fold) && (forall c :: x.fold(x.fold(c)) == x.fold(c)) && Normalizes(x, q, query) && query.limit >= 1
    ensures page == PageOf(Desc, Hits(x, db, Trimmed(q), owner, now), q.cursor, query.limit)
  {
    var where, limit, args := BuildQuery(owner, query, now, x);
    var rows := Answer(x, db, where, limit, args);
    SelectedAreHits(x, db, q, query, owner, now, where, args);
    ScanPrefix(Desc, Beyond(Desc, Hits(x, db, Trimmed(q), owner, now), q.cursor), query.limit);
    var next: Option<Key> := None;
    if |rows| > query.limit {
      next := Some(rows[query.limit - 1]);
      rows := rows[..query.limit];
    }
    page := Page(rows, next);
  }

  // `query` is `q` after normalization.
  ghost predicate Normalizes(x: Text, q: Query, query: Query) {
    && query.tokens == Tokens.Deduped(x.fold, q.tokens) && (forall t :: t in query.tagIds <==> t in q.tagIds)
    && query.detectedType == (if q.detectedType.Some? then Some(Fold(x.fold, Tokens.Trim(q.detectedType.value))) else None)
    && query.(tokens := q.tokens, tagIds := q.tagIds, detectedType := q.detectedType, limit := q.limit) == q
  }

  /** Normalization keeps the meaning: dropping repeated tokens (case aside) and tags selects the same messages. */
  lemma NormalizedMeansSame(x: Text, db: Db, q: Query, query: Query, owner: Id, now: int, id: Id)
    requires (forall c :: x.fold(x.fold(c)) == x.fold(c)) && Normalizes(x, q, query)
    ensures Wanted(x, db, query, owner, now, id) <==> Wanted(x, db, Trimmed(q), owner, now, id)
  {
    Tokens.DedupedKeys(x.fold, q.tokens);
    if q.detectedType.Some? {
      var value := Tokens.Trim(q.detectedType.value);
      assert Fold(x.fold, Fold(x.fold, value)) == Fold(x.fold, value);
    }
    if id in db.messages {
      if forall t | t in query.tokens :: Occurs(x, db, owner, id, t) { SameKeysSameHits(x, db, owner, id, query.tokens, q.tokens); }
      if forall t | t in q.tokens :: Occurs(x, db, owner, id, t) { SameKeysSameHits(x, db, owner, id, q.tokens, query.tokens); }
    }
  }

  lemma SameKeysSameHits(x: Text, db: Db, owner: Id, id: Id, a: seq<string>, b: seq<string>)
    requires id in db.messages && Tokens.Keys(x.fold, b) <= Tokens.Keys(x.fold, a) && forall t | t in a :: Occurs(x, db, owner, id, t)
    ensures forall t | t in b :: Occurs(x, db, owner, id, t)
  {
    forall t | t in b ensures Occurs(x, db, owner, id, t) {
      assert Fold(x.fold, t) in Tokens.Keys(x.fold, b);
      var u :| u in a && Fold(x.fold, u) == Fold(x.fold, t);
    }
  }

  lemma SelectedAreHits(x: Text, db: Db, q: Query, query: Query, owner: Id, now: int, where: seq<Clause>, args: seq<Arg>)
    requires (forall c :: x.fold(x.fold(c)) == x.fold(c)) && Normalizes(x, q, query)
    requires forall id :: Selected(x, db, where, args, id) <==> Wanted(x, db, query, owner, now, id)
    ensures SelectedKeys(x, db, where, args) == Beyond(Desc, Hits(x, db, Trimmed(q), owner, now), q.cursor)
  {
    forall id ensures Wanted(x, db, query, owner, now, id) <==> Wanted(x, db, Trimmed(q), owner, now, id) {
      NormalizedMeansSame(x, db, q, query, owner, now, id);
    }
    forall id | id in db.messages
      ensures Wanted(x, db, Trimmed(q), owner, now, id)
         <==> Wanted(x, db, Trimmed(q).(cursor := None), owner, now, id)
              && (q.cursor.Some? ==> Less(Desc, q.cursor.value, (db.messages[id].created, id)))
    {}
  }
}
