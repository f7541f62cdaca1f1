/** The reconciliation pass over file_objects (internal/files/service.go, Reconcile and the methods it
    calls): a cursor loop that pages through the PENDING and DELETING rows in (created_at, id) order,
    settles each one, and then removes commit temps nobody owns. The pass is taken alone here; how its
    single steps interleave with uploads is the subject of Pipeline. */
module Reconcile {
  import opened Basics
  import opened Parts
  import opened Pipeline
  import opened Keyset

  datatype Row = Row(sha: nat, size: nat, status: ObjectStatus, created: int, readyAt: int)

  // Everything that belongs to one identifier.
  datatype Slot = Slot(row: Option<Row>, final: Option<Bytes>, temp: bool)

  datatype Shelf = Shelf(rows: map<Id, Row>, finals: map<Id, Bytes>, temps: set<Id>) {
    function At(id: Id): Slot {
      Slot(if id in rows then Some(rows[id]) else None, if id in finals then Some(finals[id]) else None, id in temps)
    }
    function Open(): set<Key> { set id | id in rows && Unsettled(rows[id]) :: (rows[id].created, id) }
  }

  predicate Unsettled(row: Row) { row.status.Pending? || row.status.Deleting? }

  // Which operations work, and which rows an attachment refers to, while the pass runs.
  datatype Conditions = Conditions(
    hash: Bytes -> nat, referenced: set<Id>, badKey: set<Id>, statFails: set<Id>, readFails: set<Id>,
    eraseFails: set<Id>, tempStays: set<Id>, dbFails: set<Id>, listFails: bool, scanFails: nat -> bool)

  // ---- What settling one row does ----------------------------------------------------------------

  function Settle(c: Conditions, now: int, id: Id, x: Slot): (Slot, bool)
    requires x.row.Some?
  {
    if id in c.badKey then (x, false)
    else if x.row.value.status.Pending? then
      if id in c.statFails then (x, false)
      else if x.final.None? then
        var y := x.(temp := x.temp && id in c.tempStays);
        if id in c.dbFails then (y, false) else (if id in c.referenced then y else y.(row := None), true)
      else if |x.final.value| != x.row.value.size || id in c.readFails || c.hash(x.final.value) != x.row.value.sha || id in c.dbFails then (x, false)
      else (x.(row := Some(x.row.value.(status := Ready, readyAt := now))), true)
    else if id in c.eraseFails then (x, false)
    else if id in c.dbFails || id in c.referenced then (x.(final := None), false)
    else (x.(final := None, row := None), true)
  }

  /** Settling publishes only what it verified, removes a row only while nothing refers to it, and erases a final
      object only of a DELETING row. */
  lemma SettleIsSafe(c: Conditions, now: int, id: Id, x: Slot)
    requires x.row.Some?
    ensures var (y, ok) := Settle(c, now, id, x); var row := x.row.value;
            && (y.row.Some? && y.row.value.status.Ready? && !row.status.Ready? ==>
                  row.status.Pending? && y.final.Some? && |y.final.value| == row.size && c.hash(y.final.value) == row.sha)
            && (y.row.None? ==> id !in c.referenced && y.final.None?)
            && (row.status.Pending? ==> y.final == x.final)
            && (ok && id !in c.referenced ==> y.row.None? || y.row.value.status.Ready?)
            && (y.row.Some? ==> y.row.value == row.(status := y.row.value.status, readyAt := y.row.value.readyAt))
            && (y.row.Some? && y.row.value != row ==> row.status.Pending? && y.row.value.status.Ready? && y.row.value.readyAt == now)
            && (y.temp != x.temp ==> row.status.Pending? && x.final.None? && !y.temp)
  {}

  // ---- The pass ----------------------------------------------------------------------------------

  predicate Visited(visited: seq<Key>, id: Id) { exists i :: 0 <= i < |visited| && visited[i].1 == id }

  // `visited` are the rows the pass looked at; each got exactly its own settlement, nothing else moved.
  ghost predicate Passed(c: Conditions, now: int, before: Shelf, after: Shelf, visited: seq<Key>) {
    && Sorted(Asc, visited) && (forall k | k in visited :: k in before.Open())
    && forall id :: after.At(id) == if Visited(visited, id) && id in before.rows then Settle(c, now, id, before.At(id)).0 else before.At(id)
  }

  // The visited rows that were settled without error.
  function Settled(c: Conditions, now: int, before: Shelf, visited: seq<Key>): nat {
    if visited == [] then 0 else
      var id := visited[|visited| - 1].1;
      Settled(c, now, before, visited[..|visited| - 1])
      + if id in before.rows && Settle(c, now, id, before.At(id)).1 then 1 else 0
  }

  // Commit temps that survive the cleanup: owned by a PENDING row, or beyond reach.
  function TempsLeft(c: Conditions, shelf: Shelf): set<Id> {
    set id | id in shelf.temps
          && (c.listFails || id in c.dbFails || id in c.tempStays || (id in shelf.rows && shelf.rows[id].status.Pending?))
  }

  predicate TempFails(c: Conditions, shelf: Shelf, id: Id) {
    id in c.dbFails || (id in c.tempStays && !(id in shelf.rows && shelf.rows[id].status.Pending?))
  }

  // The cleanup reports an error.
  predicate CleanupFails(c: Conditions, shelf: Shelf) { c.listFails || exists id :: id in shelf.temps && TempFails(c, shelf, id) }

  // Of two rows with one id, there is one.
  lemma KeyOfId(shelf: Shelf, j: Key, k: Key)
    requires j in shelf.Open() && k in shelf.Open() && j.1 == k.1
    ensures j == k
  {}

  lemma NotYet(c: Conditions, now: int, before: Shelf, after: Shelf, visited: seq<Key>, k: Key)
    requires Passed(c, now, before, after, visited) && k in before.Open() && k !in visited
    ensures !Visited(visited, k.1) && after.At(k.1) == before.At(k.1)
  {
    if Visited(visited, k.1) {
      var i :| 0 <= i < |visited| && visited[i].1 == k.1;
      assert visited[i] in visited;
      KeyOfId(before, visited[i], k);
    }
  }

  lemma VisitMore(visited: seq<Key>, k: Key, id: Id)
    ensures Visited(visited + [k], id) <==> Visited(visited, id) || id == k.1
  {
    var more := visited + [k];
    if Visited(visited, id) { var i :| 0 <= i < |visited| && visited[i].1 == id; assert more[i].1 == id; }
    assert more[|visited|] == k;
  }

  // Settling one more row extends the pass.
  lemma PassMore(c: Conditions, now: int, before: Shelf, mid: Shelf, after: Shelf, visited: seq<Key>, k: Key)
    requires Passed(c, now, before, mid, visited) && k in before.Open() && (forall v | v in visited :: Less(Asc, v, k))
    requires Settles(c, now, mid, after, k.1)
    ensures Passed(c, now, before, after, visited + [k])
    ensures Settled(c, now, before, visited + [k])
         == Settled(c, now, before, visited) + if Settle(c, now, k.1, mid.At(k.1)).1 then 1 else 0
  {
    NotYet(c, now, before, mid, visited, k);
    forall id ensures Visited(visited + [k], id) <==> Visited(visited, id) || id == k.1 { VisitMore(visited, k, id); }
    assert (visited + [k])[..|visited|] == visited;
  }

  // What the next scan can find is exactly what was there beyond the cursor when the pass began.
  lemma RestUntouched(c: Conditions, now: int, before: Shelf, after: Shelf, visited: seq<Key>, cursor: Option<Key>)
    requires Passed(c, now, before, after, visited)
    requires cursor.None? ==> visited == []
    requires cursor.Some? ==> visited != [] && visited[|visited| - 1] == cursor.value
    ensures Beyond(Asc, after.Open(), cursor) == Beyond(Asc, before.Open(), cursor)
    ensures RowsAsBefore(before, after.rows, cursor)
  {
    forall k | k in Beyond(Asc, before.Open(), cursor) ensures k in after.Open() && after.rows[k.1] == before.rows[k.1] { NotYet(c, now, before, after, visited, k); }
    forall k | k in Beyond(Asc, after.Open(), cursor) ensures k in before.Open() {
      assert after.At(k.1).row == Some(after.rows[k.1]);
      if Visited(visited, k.1) {
        var i :| 0 <= i < |visited| && visited[i].1 == k.1;
        assert visited[i] in before.Open();
        SettleIsSafe(c, now, k.1, before.At(k.1));
        assert k == visited[i];
      } else {
        assert before.At(k.1).row == Some(after.rows[k.1]);
      }
    }
  }

  ghost predicate RowsAsBefore(before: Shelf, rows: map<Id, Row>, cursor: Option<Key>) {
    forall k | k in Beyond(Asc, before.Open(), cursor) :: k.1 in rows && rows[k.1] == before.rows[k.1]
  }

  // objects[i..] is what is still to be visited of a page of n rows.
  ghost predicate PageRest(objects: seq<Key>, i: nat, rest: set<Key>, n: nat) {
    i <= |objects| <= n && objects[i..] == Scan(Asc, rest, n - i)
  }

  lemma PageNext(objects: seq<Key>, i: nat, all: set<Key>, cursor: Option<Key>, n: nat)
    requires i < |objects| && PageRest(objects, i, Beyond(Asc, all, cursor), n)
    ensures Beyond(Asc, all, cursor) != {} && objects[i] == Least(Asc, Beyond(Asc, all, cursor))
    ensures PageRest(objects, i + 1, Beyond(Asc, all, Some(objects[i])), n)
    ensures Beyond(Asc, all, Some(objects[i])) < Beyond(Asc, all, cursor)
    ensures |Beyond(Asc, all, Some(objects[i]))| == |Beyond(Asc, all, cursor)| - 1
  {
    LeastNext(Asc, all, cursor, n - i);
    assert objects[i..][0] == objects[i] && objects[i..][1..] == objects[i + 1..];
  }

  // The pass so far: exactly the rows up to the cursor are visited and settled.
  ghost predicate Progress(c: Conditions, now: int, before: Shelf, after: Shelf, visited: seq<Key>, cursor: Option<Key>) {
    ProgressFacts(c, now, before, after, visited, cursor) <==> true   // one fact for the loop to carry
  }

  ghost predicate ProgressFacts(c: Conditions, now: int, before: Shelf, after: Shelf, visited: seq<Key>, cursor: Option<Key>) {
    && Passed(c, now, before, after, visited)
    && (cursor.None? ==> visited == []) && (cursor.Some? ==> visited != [] && visited[|visited| - 1] == cursor.value)
    && (forall k | k in before.Open() :: k in visited || k in Beyond(Asc, before.Open(), cursor))
  }

  // One turn of the loop on the least row beyond the cursor.
  lemma Turn(c: Conditions, now: int, before: Shelf, mid: Shelf, visited: seq<Key>, cursor: Option<Key>, n: nat)
    requires Progress(c, now, before, mid, visited, cursor) && n > 0 && Beyond(Asc, before.Open(), cursor) != {}
    ensures var k := Least(Asc, Beyond(Asc, before.Open(), cursor));
            && k.1 in mid.rows && k.1 in before.rows && mid.rows[k.1] == before.rows[k.1] && Unsettled(mid.rows[k.1])
            && forall after: Shelf | Settles(c, now, mid, after, k.1) ::
                 Progress(c, now, before, after, visited + [k], Some(k))
                 && Settled(c, now, before, visited + [k])
                    == Settled(c, now, before, visited) + if Settle(c, now, k.1, mid.At(k.1)).1 then 1 else 0
  {
    var all := before.Open();
    LeastNext(Asc, all, cursor, n);
    var k := Least(Asc, Beyond(Asc, all, cursor));
    TurnFacts(c, now, before, mid, visited, cursor, k);
    forall after: Shelf | Settles(c, now, mid, after, k.1)
      ensures Progress(c, now, before, after, visited + [k], Some(k))
      ensures Settled(c, now, before, visited + [k])
           == Settled(c, now, before, visited) + if Settle(c, now, k.1, mid.At(k.1)).1 then 1 else 0
    {
      PassMore(c, now, before, mid, after, visited, k);
    }
  }

  lemma TurnFacts(c: Conditions, now: int, before: Shelf, mid: Shelf, visited: seq<Key>, cursor: Option<Key>, k: Key)
    requires ProgressFacts(c, now, before, mid, visited, cursor) && k in Beyond(Asc, before.Open(), cursor)
    ensures forall v | v in visited :: Less(Asc, v, k)
    ensures k in before.Open() && k.1 in mid.rows && k.1 in before.rows && mid.rows[k.1] == before.rows[k.1] && Unsettled(mid.rows[k.1])
  {
    forall i, j | 0 <= i < j < |visited| ensures Less(Asc, visited[i], visited[j]) {}
    forall v | v in visited ensures Less(Asc, v, k) {}
    NotYet(c, now, before, mid, visited, k);
    assert mid.At(k.1).row == Some(before.rows[k.1]);
  }

  // The state after settling row `id`, and nothing else.
  ghost predicate Settles(c: Conditions, now: int, mid: Shelf, after: Shelf, id: Id) {
    id in mid.rows && forall x :: after.At(x) == if x == id then Settle(c, now, id, mid.At(id)).0 else mid.At(x)
  }

  class Service {
    var rows: map<Id, Row>
    var finals: map<Id, Bytes>
    var temps: set<Id>
    const c: Conditions

    constructor (c: Conditions, shelf: Shelf)
      ensures this.c == c && View() == shelf
    {
      this.c := c;
      rows, finals, temps := shelf.rows, shelf.finals, shelf.temps;
    }

    function View(): Shelf
      reads this
    { Shelf(rows, finals, temps) }

    method ReconcilePending(id: Id, row: Row, now: int) returns (ok: bool)
      requires id in rows && rows[id] == row && row.status.Pending?
      modifies this
      ensures Settles(c, now, old(View()), View(), id)
      ensures ok == Settle(c, now, id, old(View().At(id))).1
    {
      if id in c.badKey || id in c.statFails { return false; }
      if id !in finals {
        if id !in c.tempStays { temps := temps - {id}; }
        if id in c.dbFails { return false; }
        if id !in c.referenced { rows := rows - {id}; }
        return true;
      }
      if |finals[id]| != row.size || id in c.readFails { return false; }
      if c.hash(finals[id]) != row.sha || id in c.dbFails { return false; }
      rows := rows[id := row.(status := Ready, readyAt := now)];
      return true;
    }

    method DeleteObject(id: Id, row: Row, ghost now: int) returns (ok: bool)
      requires id in rows && rows[id] == row && row.status.Deleting?
      modifies this
      ensures Settles(c, now, old(View()), View(), id)
      ensures ok == Settle(c, now, id, old(View().At(id))).1
    {
      if id in c.badKey || id in c.eraseFails { return false; }
      finals := finals - {id};
      if id in c.dbFails || id in c.referenced { return false; }
      rows := rows - {id};
      return true;
    }

    method CleanupTemps() returns (ok: bool)
      modifies this`temps
      ensures temps == TempsLeft(c, old(View()))
      ensures ok <==> !CleanupFails(c, old(View()))
    {
      if c.listFails { return false; }
      ok := true;
      var listing := temps;
      while listing != {}
        invariant listing <= old(temps)
        invariant temps == set id | id in old(temps) && (id in listing || id in TempsLeft(c, old(View())))
        invariant ok <==> forall id | id in old(temps) && id !in listing :: !TempFails(c, old(View()), id)
        decreases |listing|
      {
        var id :| id in listing;
        listing := listing - {id};
        if id in c.dbFails { ok := false; continue; }
        if id in rows && rows[id].status.Pending? { continue; }
        if id in c.tempStays { ok := false; continue; }
        temps := temps - {id};
      }
    }

    // One turn of the loop.
    method Visit(k: Key, row: Row, now: int, ghost before: Shelf, ghost visited: seq<Key>, ghost cursor: Option<Key>) returns (ok: bool)
      requires Progress(c, now, before, View(), visited, cursor)
      requires Beyond(Asc, before.Open(), cursor) != {} && k == Least(Asc, Beyond(Asc, before.Open(), cursor))
      requires k.1 in before.rows && row == before.rows[k.1]
      modifies this
      ensures Progress(c, now, before, View(), visited + [k], Some(k))
      ensures Settled(c, now, before, visited + [k]) == Settled(c, now, before, visited) + if ok then 1 else 0
    {
      Turn(c, now, before, View(), visited, cursor, 1);
      if row.status.Pending? {
        ok := ReconcilePending(k.1, row, now);
      } else {
        ok := DeleteObject(k.1, row, now);
      }
    }

    // One scanned page, until the batch is used up.
    method SettlePage(objects: seq<Key>, batch: int, settled: nat, now: int, ghost before: Shelf, ghost past: seq<Key>, start: Option<Key>)
      returns (cursor: Option<Key>, processed: nat, errors: nat, ghost visited: seq<Key>)
      requires settled == Settled(c, now, before, past) < batch && Progress(c, now, before, View(), past, start)
      requires objects == Scan(Asc, Beyond(Asc, before.Open(), start), batch - settled) && objects != []
      requires RowsAsBefore(before, rows, start)
      modifies this
      ensures Progress(c, now, before, View(), visited, cursor)
      ensures processed == Settled(c, now, before, visited) <= batch
      ensures errors + (processed - settled) == |visited| - |past|
      ensures |Beyond(Asc, before.Open(), cursor)| < |Beyond(Asc, before.Open(), start)|
    {
      var snapshot := rows;
      cursor, processed, errors, visited := start, settled, 0, past;
      ghost var all := before.Open();
      var n := batch - settled;
      var i := 0;
      while i < |objects| && processed < batch
        invariant 0 <= i <= |objects| <= n && (i == 0 ==> processed < batch)
        invariant Progress(c, now, before, View(), visited, cursor) && processed == Settled(c, now, before, visited) <= batch
        invariant errors + (processed - settled) == |visited| - |past|
        invariant PageRest(objects, i, Beyond(Asc, all, cursor), n)
        invariant RowsAsBefore(before, snapshot, cursor)
        invariant |Beyond(Asc, all, cursor)| == |Beyond(Asc, all, start)| - i
      {
        PageNext(objects, i, all, cursor, n);
        var ok := Visit(objects[i], snapshot[objects[i].1], now, before, visited, cursor);
        cursor := Some(objects[i]);
        visited := visited + [objects[i]];
        if ok { processed := processed + 1; } else { errors := errors + 1; }
        i := i + 1;
      }
    }

    /** Terminates whatever fails; no row is visited twice; at most `batch` rows are settled; unless a scan failed, a pass that
        settles fewer has visited every PENDING and DELETING row; and there is one error for every row visited and not
        settled, for a failing scan and for a failing cleanup. */
    method Reconcile(batch: int, now: int) returns (processed: nat, errors: nat, ghost visited: seq<Key>, ghost swept: Shelf)
      modifies this
      ensures batch <= 0 ==> visited == [] && View() == old(View()) && swept == View()
      ensures Passed(c, now, old(View()), swept, visited)
      ensures batch > 0 ==> View() == swept.(temps := TempsLeft(c, swept))
      ensures processed == Settled(c, now, old(View()), visited) && (batch > 0 ==> processed <= batch)
      ensures visited != [] ==> forall k | k in old(View()).Open() :: k in visited || Less(Asc, visited[|visited| - 1], k)
      ensures errors - Errors(c, visited, processed, swept, batch) in {0, 1}
      ensures (forall n :: !c.scanFails(n)) ==> errors == Errors(c, visited, processed, swept, batch)
      ensures processed < batch && (forall n :: !c.scanFails(n)) ==> forall k | k in old(View()).Open() :: k in visited
    {
      processed, errors, visited := 0, 0, [];
      ghost var before := View();
      swept := before;
      if batch <= 0 { return; }
      var cursor: Option<Key> := None;
      var scans := 0;
      while processed < batch
        invariant Progress(c, now, before, View(), visited, cursor) && processed == Settled(c, now, before, visited) <= batch
        invariant errors + processed == |visited|
        decreases |Beyond(Asc, before.Open(), cursor)|
      {
        if c.scanFails(scans) { errors := errors + 1; break; }
        scans := scans + 1;
        RestUntouched(c, now, before, View(), visited, cursor);
        var objects := Scan(Asc, Beyond(Asc, View().Open(), cursor), batch - processed);
        if objects == [] { break; }
        var failed;
        cursor, processed, failed, visited := SettlePage(objects, batch, processed, now, before, visited, cursor);
        errors := errors + failed;
      }
      swept := View();
      var ok := CleanupTemps();
      if !ok { errors := errors + 1; }
    }
  }

  // Rows visited and not settled, and a failing cleanup.
  function Errors(c: Conditions, visited: seq<Key>, processed: nat, swept: Shelf, batch: int): int {
    |visited| - processed + if batch > 0 && CleanupFails(c, swept) then 1 else 0
  }

  lemma {:induction false} SettledBound(c: Conditions, now: int, before: Shelf, visited: seq<Key>)
    ensures Settled(c, now, before, visited) <= |visited|
  {
    if visited != [] { SettledBound(c, now, before, visited[..|visited| - 1]); }
  }

  lemma AllVisited(c: Conditions, now: int, before: Shelf, swept: Shelf, visited: seq<Key>, batch: int, processed: nat)
    requires Passed(c, now, before, swept, visited) && processed == Settled(c, now, before, visited)
    requires processed < batch ==> forall k | k in before.Open() :: k in visited
    requires |before.Open()| <= batch
    ensures forall k | k in before.Open() :: k in visited
  {
    SettledBound(c, now, before, visited);
    SortedSize(Asc, visited);
    if processed >= batch { SubsetSize((set k | k in visited), before.Open()); }
  }

  /** With healthy storage and a large enough batch, the pass leaves no PENDING or DELETING row and no commit temp. */
  lemma HealthyPass(c: Conditions, now: int, before: Shelf, swept: Shelf, visited: seq<Key>, batch: int, processed: nat)
    requires Passed(c, now, before, swept, visited) && processed == Settled(c, now, before, visited)
    requires processed < batch ==> forall k | k in before.Open() :: k in visited
    requires |before.Open()| <= batch && Healthy(c, before)
    ensures swept.Open() == {} && TempsLeft(c, swept) == {} && forall id | id in swept.rows :: swept.rows[id].status.Ready?
  {
    AllVisited(c, now, before, swept, visited, batch, processed);
    forall id | id in swept.rows ensures !Unsettled(swept.rows[id]) {
      assert swept.At(id).row == Some(swept.rows[id]);
      if id in before.rows && Unsettled(before.rows[id]) {
        var k := (before.rows[id].created, id);
        assert k in before.Open();
        var i :| 0 <= i < |visited| && visited[i] == k;
        HealthySettles(c, now, before, id);
      } else if Visited(visited, id) {
        var i :| 0 <= i < |visited| && visited[i].1 == id;
        assert visited[i] in visited;
      }
    }
  }

  // Nothing fails, nothing refers to an unsettled row, and every final object of a PENDING row is the row's content.
  ghost predicate Healthy(c: Conditions, shelf: Shelf) {
    && c.badKey == {} && c.statFails == {} && c.readFails == {} && c.eraseFails == {} && c.tempStays == {} && c.dbFails == {} && !c.listFails
    && forall k | k in shelf.Open() ::
         && k.1 !in c.referenced
         && (shelf.rows[k.1].status.Pending? && k.1 in shelf.finals ==>
               |shelf.finals[k.1]| == shelf.rows[k.1].size && c.hash(shelf.finals[k.1]) == shelf.rows[k.1].sha)
  }

  lemma HealthySettles(c: Conditions, now: int, shelf: Shelf, id: Id)
    requires Healthy(c, shelf) && id in shelf.rows && Unsettled(shelf.rows[id])
    ensures Settle(c, now, id, shelf.At(id)).1 && (Settle(c, now, id, shelf.At(id)).0.row.Some? ==> Settle(c, now, id, shelf.At(id)).0.row.value.status.Ready?)
  {
    assert (shelf.rows[id].created, id) in shelf.Open();
  }
}
