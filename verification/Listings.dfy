/** The paged listings of messages (internal/messages/service.go, List) and of users (internal/users/admin.go, List). */
module Listings {
  import opened Basics
  import opened Keyset
  import opened Paging
  import M = Messages

  datatype Filter = Filter(lifecycle: Option<bool>, favorite: Option<bool>, tags: seq<nat>, cursor: Option<Key>, limit: int)

  datatype Result = Ok(page: Page) | Invalid

  const DefaultLimit := 30
  const MaxLimit := 100

  predicate Active(m: M.Message, owner: nat, f: Filter, now: int) {
    && m.owner == owner && m.trashed.None? && (m.permanent || (m.expires.Some? && m.expires.value > now))
    && (f.lifecycle.Some? ==> m.permanent == f.lifecycle.value) && (f.favorite.Some? ==> m.favorite == f.favorite.value)
    && (forall t | t in f.tags :: t in m.tags)
  }

  // The rows of the listing, by creation time, or by trash time in the trash.
  function Rows(messages: map<nat, M.Message>, owner: nat, f: Filter, trash: bool, now: int): set<Key> {
    if trash then set id | id in messages && messages[id].owner == owner && messages[id].trashed.Some? :: (messages[id].trashed.value, id)
    else set id | id in messages && Active(messages[id], owner, f, now) :: (messages[id].created, id)
  }

  method ListMessages(messages: map<nat, M.Message>, owner: nat, f: Filter, trash: bool, now: int) returns (r: Result)
    ensures r.Ok? <==> 0 <= f.limit <= 100
    ensures r.Ok? ==> r.page == PageOf(Desc, Rows(messages, owner, f, trash, now), f.cursor, if f.limit == 0 then 30 else f.limit)
  {
    var limit := if f.limit == 0 then DefaultLimit else f.limit;
    if limit < 1 || limit > MaxLimit { return Invalid; }
    var keys := Rows(messages, owner, f, trash, now);
    ScanMeaning(Desc, Beyond(Desc, keys, f.cursor), limit + 1);
    ScanPrefix(Desc, Beyond(Desc, keys, f.cursor), limit);
    var rows := Scan(Desc, Beyond(Desc, keys, f.cursor), limit + 1);
    var next: Option<Key> := None;
    if |rows| > limit {
      assert rows[limit - 1] in rows && rows[limit - 1] in keys;
      var marker := messages[rows[limit - 1].1];
      var at := marker.created;
      if trash && marker.trashed.Some? { at := marker.trashed.value; }
      next := Some((at, rows[limit - 1].1));
      rows := rows[..limit];
    }
    r := Ok(Page(rows, next));
  }

  /** Turning the pages of a listing shows every message of the filter exactly once, newest first, for every limit. */
  lemma ListShowsEachOnce(messages: map<nat, M.Message>, owner: nat, f: Filter, trash: bool, now: int, limit: nat, id: nat)
    requires limit >= 1
    ensures var read := ReadAll(Desc, Rows(messages, owner, f, trash, now), None, limit);
            && (forall i, j | 0 <= i < j < |read| :: Less(Desc, read[i], read[j]) && read[i].1 != read[j].1)
            && ((exists k :: k in read && k.1 == id) <==>
                 && id in messages && var m := messages[id];
                 && m.owner == owner
                 && if trash then m.trashed.Some?
                    else m.trashed.None? && (m.permanent || (m.expires.Some? && now < m.expires.value))
                         && (f.lifecycle == Some(true) ==> m.permanent) && (f.lifecycle == Some(false) ==> !m.permanent)
                         && (f.favorite == Some(true) ==> m.favorite) && (f.favorite == Some(false) ==> !m.favorite)
                         && forall t | t in f.tags :: t in m.tags)
            && forall k | k in read && k.1 in messages :: if trash then messages[k.1].trashed == Some(k.0) else messages[k.1].created == k.0
  {
    var keys := Rows(messages, owner, f, trash, now);
    var read := ReadAll(Desc, keys, None, limit);
    FirstPageReadsEverything(Desc, keys, limit);
    forall i, j | 0 <= i < j < |read| ensures Less(Desc, read[i], read[j]) && read[i].1 != read[j].1 {
      assert read[i] in keys && read[j] in keys;
    }
    if id in messages {
      var k := (if trash then (if messages[id].trashed.Some? then messages[id].trashed.value else 0) else messages[id].created, id);
      assert k in keys <==> if trash then messages[id].owner == owner && messages[id].trashed.Some? else Active(messages[id], owner, f, now);
    }
  }

  // users: id -> creation time
  function Users(users: map<nat, int>): set<Key> { set id | id in users :: (users[id], id) }

  method ListUsers(users: map<nat, int>, cursor: Option<Key>, limit: int) returns (r: Result)
    ensures r.Ok? <==> 0 <= limit <= 100
    ensures r.Ok? ==> r.page == PageOf(Asc, Users(users), cursor, if limit == 0 then 30 else limit)
  {
    var n := if limit == 0 then DefaultLimit else limit;
    if n < 1 || n > MaxLimit { return Invalid; }
    var page := List(Asc, Users(users), cursor, n);
    r := Ok(page);
  }

  lemma UsersShownOnce(users: map<nat, int>, limit: nat, id: nat)
    requires limit >= 1
    ensures var read := ReadAll(Asc, Users(users), None, limit);
            && |read| == |Users(users)| && ((exists k :: k in read && k.1 == id) <==> id in users)
            && (forall k | k in read :: k.1 in users && users[k.1] == k.0)
            && forall i, j | 0 <= i < j < |read| :: read[i].0 < read[j].0 || (read[i].0 == read[j].0 && read[i].1 < read[j].1)
  {
    FirstPageReadsEverything(Asc, Users(users), limit);
    var read := ReadAll(Asc, Users(users), None, limit);
    forall i, j | 0 <= i < j < |read| ensures Less(Asc, read[i], read[j]) {}
    if id in users { assert (users[id], id) in Users(users); }
  }
}
