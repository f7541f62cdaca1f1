/** What the message operations promise over whole runs. */
module MessageRuns {
  import opened Basics
  import opened Messages

  ghost predicate IsRun(x: Cipher, run: seq<World>, ops: seq<Op>) {
    && Faithful(x) && |run| == |ops| + 1 && run[0].messages == map[]
    && forall i | 0 <= i < |ops| :: run[i + 1] == Apply(x, run[i], ops[i]).0
  }

  lemma {:induction false} RunOk(x: Cipher, run: seq<World>, ops: seq<Op>, n: nat)
    requires IsRun(x, run, ops) && n <= |ops|
    ensures WorldOk(x, run[n])
  {
    if n > 0 {
      RunOk(x, run, ops, n - 1);
      ApplyOk(x, run[n - 1], ops[n - 1]);
    }
  }

  /** In every reachable state: TEMPORARY exactly when an expiry is set, favourites are PERMANENT, trashed exactly when a
      purge time is set, sensitive exactly when the body is only there encrypted, never without any content, with tags
      that exist and are its owner's, and display orders and attachment ids distinct. */
  lemma MessagesStayWellFormed(x: Cipher, run: seq<World>, ops: seq<Op>, id: Id)
    requires IsRun(x, run, ops) && id in run[|ops|].messages
    ensures var m := run[|ops|].messages[id];
            && (!m.permanent <==> m.expires.Some?) && (m.favorite ==> m.permanent) && (m.trashed.Some? <==> m.purge.Some?)
            && (m.sensitive <==> m.cipher.Some?) && (m.sensitive ==> m.plain.None?)
            && (m.sensitive ==> x.decrypt(id, m.owner, m.cipher.value).Some?)
            && (m.plain.Some? || m.cipher.Some? || m.attachments != [])
            && (forall t | t in m.tags :: t in run[|ops|].rest.tags && run[|ops|].rest.tags[t] == m.owner)
            && (forall i, j | 0 <= i < j < |m.attachments| ::
                  m.attachments[i].order != m.attachments[j].order && m.attachments[i].id != m.attachments[j].id)
  {
    RunOk(x, run, ops, |ops|);
    assert RowOk(x, run[|ops|], id, run[|ops|].messages[id]);
  }

  // ---- Versions ------------------------------------------------------------------------------------

  ghost predicate Has(w: World, id: Id) { id in w.messages }

  // One operation leaves a message alone or moves it one version on; identifiers are never reused.
  lemma OneVersion(x: Cipher, w: World, op: Op, id: Id)
    requires WorldOk(x, w)
    ensures var w' := Apply(x, w, op).0;
            && w.next <= w'.next
            && (Has(w, id) && Has(w', id) && id < w.next ==>
                  w'.messages[id] == w.messages[id] || w'.messages[id].version == w.messages[id].version + 1)
            && (!Has(w, id) && Has(w', id) ==> id == w.next && w'.messages[id].version == 1)
  {
    match op
    case Create(_, _, _, _, _) =>
    case Direct(_, _, _, _) =>
    case Forward(_, _, _, _, _, _) =>
    case Mutate(owner, i, expected, c, at) => MutateVersion(x, w, op);
    case Attach(_, _, _, _, _) =>
    case Detach(_, _, _, _, _) =>
    case Delete(_, _) =>
    case Expire(_, _) =>
    case Purge(_, _) =>
    case DropTag(owner, tag, at) => if Apply(x, w, op).1.None? { DropTagOk(x, w, owner, tag, at); }
    case Elsewhere(_) =>
  }

  lemma MutateVersion(x: Cipher, w: World, op: Op)
    requires op.Mutate?
    ensures var w' := Apply(x, w, op).0;
            w' == w || (Has(w, op.id) && w.messages[op.id].version == op.expected
                        && Has(w', op.id) && w'.messages[op.id].version == op.expected + 1
                        && w' == w.(messages := w.messages[op.id := w'.messages[op.id]]))
  {}

  // How many operations from i to j changed the message.
  ghost function Commits(run: seq<World>, id: Id, i: nat, j: nat): nat
    requires i <= j < |run|
  {
    if i == j then 0
    else Commits(run, id, i, j - 1) + if Has(run[j - 1], id) && Has(run[j], id) && run[j - 1].messages[id] != run[j].messages[id] then 1 else 0
  }

  /** The version counts the committed changes, so it identifies the content: while a message exists, equal versions mean
      equal messages, attachments and tags included. */
  lemma {:induction false} VersionCountsChanges(x: Cipher, run: seq<World>, ops: seq<Op>, id: Id, i: nat, j: nat)
    requires IsRun(x, run, ops) && i <= j <= |ops| && Has(run[i], id) && Has(run[j], id)
    ensures run[j].messages[id].version == run[i].messages[id].version + Commits(run, id, i, j)
    ensures run[j].messages[id].version == run[i].messages[id].version ==> run[j].messages[id] == run[i].messages[id]
  {
    if i < j {
      OneChange(x, run, ops, id, i, j - 1);
      VersionCountsChanges(x, run, ops, id, i, j - 1);
      CommitsStep(run, id, i, j);
      VersionStep(run[i].messages[id], run[j - 1].messages[id], run[j].messages[id], Commits(run, id, i, j - 1));
    }
  }

  lemma VersionStep(first: Message, m: Message, m': Message, commits: nat)
    requires m.version == first.version + commits && (m.version == first.version ==> m == first)
    requires m' == m || m'.version == m.version + 1
    ensures m'.version == first.version + commits + if m != m' then 1 else 0
    ensures m'.version == first.version ==> m' == first
  {}

  lemma CommitsStep(run: seq<World>, id: Id, i: nat, j: nat)
    requires i < j < |run| && Has(run[j - 1], id) && Has(run[j], id)
    ensures Commits(run, id, i, j) == Commits(run, id, i, j - 1) + if run[j - 1].messages[id] != run[j].messages[id] then 1 else 0
  {}

  // A message that exists at i and after operation j existed before that operation, and moved by at most one version.
  lemma OneChange(x: Cipher, run: seq<World>, ops: seq<Op>, id: Id, i: nat, j: nat)
    requires IsRun(x, run, ops) && i <= j < |ops| && Has(run[i], id) && Has(run[j + 1], id)
    ensures Has(run[j], id)
    ensures run[j + 1].messages[id] == run[j].messages[id] || run[j + 1].messages[id].version == run[j].messages[id].version + 1
  {
    RunOk(x, run, ops, i);
    RunOk(x, run, ops, j);
    NextGrows(x, run, ops, i, j);
    OneVersion(x, run[j], ops[j], id);
  }

  lemma {:induction false} NextGrows(x: Cipher, run: seq<World>, ops: seq<Op>, i: nat, j: nat)
    requires IsRun(x, run, ops) && i <= j <= |ops|
    ensures run[i].next <= run[j].next
  {
    if i < j {
      NextGrows(x, run, ops, i, j - 1);
      RunOk(x, run, ops, j - 1);
      OneVersion(x, run[j - 1], ops[j - 1], 0);
    }
  }

  predicate Versioned(op: Op) { op.Mutate? || op.Attach? || op.Detach? }

  lemma NamesCurrentVersion(x: Cipher, w: World, op: Op)
    requires Versioned(op) && Apply(x, w, op).1.None?
    ensures Has(w, op.id) && w.messages[op.id].version == op.expected && w.messages[op.id].owner == op.owner
  {
    if op.Mutate? { assert Load(w, op.owner, op.id, op.expected).Ok?; }
  }

  /** No lost update: once a change to a message is committed, every later operation that still names the version the
      change replaced is refused. */
  lemma NoLostUpdate(x: Cipher, run: seq<World>, ops: seq<Op>, i: nat, j: nat)
    requires IsRun(x, run, ops) && i < j < |ops| && Versioned(ops[i]) && Versioned(ops[j]) && ops[i].id == ops[j].id
    requires Apply(x, run[i], ops[i]).1.None? && run[i + 1] != run[i] && ops[j].expected == ops[i].expected
    ensures Apply(x, run[j], ops[j]).1.Some? && run[j + 1] == run[j]
  {
    var id := ops[i].id;
    NamesCurrentVersion(x, run[i], ops[i]);
    RefusedChangesNothing(x, run[j], ops[j]);
    if Apply(x, run[j], ops[j]).1.None? {
      NamesCurrentVersion(x, run[j], ops[j]);
      Bumps(x, run[i], ops[i]);
      VersionCountsChanges(x, run, ops, id, i + 1, j);
      assert false;
    }
  }

  lemma Bumps(x: Cipher, w: World, op: Op)
    requires Versioned(op) && Apply(x, w, op).1.None? && Apply(x, w, op).0 != w
    ensures var w' := Apply(x, w, op).0; Has(w', op.id) && w'.messages[op.id].version == op.expected + 1
  {
    if op.Mutate? { MutateVersion(x, w, op); }
  }

  // ---- Trash ---------------------------------------------------------------------------------------

  // Step j put the message in the trash: its owner did, or it had expired.
  ghost predicate TrashesAt(run: seq<World>, ops: seq<Op>, j: nat, id: Id)
    requires |run| == |ops| + 1
  {
    && j < |ops| && Has(run[j], id) && run[j].messages[id].trashed.None?
    && (ops[j].Expire? || (ops[j].Mutate? && ops[j].id == id && ops[j].c.Trash?))
  }

  ghost predicate StaysTrashed(run: seq<World>, id: Id, from: nat, to: nat, at: int, due: int)
    requires to < |run|
  { forall k | from <= k <= to :: Has(run[k], id) && run[k].messages[id].trashed == Some(at) && run[k].messages[id].purge == Some(due) }

  // How a message in the trash after an operation was before it.
  ghost predicate TrashFollows(w: World, op: Op, id: Id, m': Message) {
    && Has(w, id)
    && if w.messages[id].trashed.Some? then m'.trashed == w.messages[id].trashed && m'.purge == w.messages[id].purge
       else (op.Expire? || (op.Mutate? && op.id == id && op.c.Trash?))
            && m'.trashed == Some(op.at.now) && m'.purge == Some(op.at.now + op.at.trashTtl)
  }

  lemma TrashStep(x: Cipher, w: World, op: Op, id: Id)
    requires WorldOk(x, w) && Has(Apply(x, w, op).0, id) && Apply(x, w, op).0.messages[id].trashed.Some?
    ensures TrashFollows(w, op, id, Apply(x, w, op).0.messages[id])
  {
    if op.Mutate? {
      MutateTrash(x, w, op);
    } else if op.DropTag? {
      DropTagTrash(x, w, op, id);
    } else if Has(w, id) {
      assert MessageOk(x, id, w.messages[id]);
      OldTrash(x, w, op, id);
    } else {
      NewIsNotTrashed(x, w, op, id);
    }
  }

  lemma NewIsNotTrashed(x: Cipher, w: World, op: Op, id: Id)
    requires !Has(w, id) && Has(Apply(x, w, op).0, id)
    ensures Apply(x, w, op).0.messages[id].trashed.None?
  {}

  lemma OldTrash(x: Cipher, w: World, op: Op, id: Id)
    requires !op.Mutate? && !op.DropTag? && Has(w, id) && id < w.next && MessageOk(x, id, w.messages[id])
    requires Has(Apply(x, w, op).0, id) && Apply(x, w, op).0.messages[id].trashed.Some?
    ensures TrashFollows(w, op, id, Apply(x, w, op).0.messages[id])
  {}

  lemma DropTagTrash(x: Cipher, w: World, op: Op, id: Id)
    requires op.DropTag? && Has(Apply(x, w, op).0, id) && Apply(x, w, op).0.messages[id].trashed.Some?
    ensures TrashFollows(w, op, id, Apply(x, w, op).0.messages[id])
  {}

  lemma MutateTrash(x: Cipher, w: World, op: Op)
    requires op.Mutate?
    ensures var w' := Apply(x, w, op).0;
            forall id | Has(w', id) && w'.messages[id].trashed.Some? :: TrashFollows(w, op, id, w'.messages[id])
  {}

  lemma {:induction false} TrashedSince(x: Cipher, run: seq<World>, ops: seq<Op>, n: nat, id: Id) returns (j: nat)
    requires IsRun(x, run, ops) && n <= |ops| && Has(run[n], id) && run[n].messages[id].trashed.Some?
    ensures j < n && TrashesAt(run, ops, j, id)
    ensures StaysTrashed(run, id, j + 1, n, ops[j].at.now, ops[j].at.now + ops[j].at.trashTtl)
    decreases n
  {
    if n == 0 {
      assert false;
    } else {
      RunTrash(x, run, ops, n, id);
      if run[n - 1].messages[id].trashed.None? {
        j := n - 1;
      } else {
        j := TrashedSince(x, run, ops, n - 1, id);
        StaysOneMore(run, id, j + 1, n, ops[j].at.now, ops[j].at.now + ops[j].at.trashTtl);
      }
    }
  }

  lemma RunTrash(x: Cipher, run: seq<World>, ops: seq<Op>, n: nat, id: Id)
    requires IsRun(x, run, ops) && 0 < n <= |ops| && Has(run[n], id) && run[n].messages[id].trashed.Some?
    ensures TrashFollows(run[n - 1], ops[n - 1], id, run[n].messages[id])
  {
    RunOk(x, run, ops, n - 1);
    TrashStep(x, run[n - 1], ops[n - 1], id);
  }

  lemma StaysOneMore(run: seq<World>, id: Id, from: nat, n: nat, at: int, due: int)
    requires from < n < |run| && StaysTrashed(run, id, from, n - 1, at, due)
    requires Has(run[n], id) && run[n].messages[id].trashed == run[n - 1].messages[id].trashed && run[n].messages[id].purge == run[n - 1].messages[id].purge
    ensures StaysTrashed(run, id, from, n, at, due)
  {}

  /** The scheduler purges a message only after a full, uninterrupted trash period: the one in force when it was trashed,
      counted from then, without a restore in between. */
  lemma PurgedAfterFullPeriod(x: Cipher, run: seq<World>, ops: seq<Op>, n: nat, id: Id) returns (j: nat)
    requires IsRun(x, run, ops) && n < |ops| && ops[n].Purge? && Has(run[n], id) && !Has(run[n + 1], id)
    ensures TrashesAt(run, ops, j, id) && j < n && ops[j].at.now + ops[j].at.trashTtl <= ops[n].at.now
    ensures StaysTrashed(run, id, j + 1, n, ops[j].at.now, ops[j].at.now + ops[j].at.trashTtl)
  {
    RunOk(x, run, ops, n);
    assert MessageOk(x, id, run[n].messages[id]);
    j := TrashedSince(x, run, ops, n, id);
  }

  // ---- Bodies --------------------------------------------------------------------------------------

  /** Making a message sensitive and then not, whatever the nonces, gives back the very same body. */
  lemma SensitiveRoundTrip(x: Cipher, id: Id, m: Message, at: Moment, owned: set<Id>, nonce: nat)
    requires Faithful(x) && !m.sensitive && m.cipher.None? && Decide(x, id, m, SetSensitive(true, nonce), at, owned).Change?
    ensures var hidden := Decide(x, id, m, SetSensitive(true, nonce), at, owned).m;
            && hidden.plain.None? && hidden.cipher.Some? && hidden.sensitive
            && forall later: Moment, n: nat {:trigger Decide(x, id, Bumped(hidden, at), SetSensitive(false, n), later, owned)} ::
                 Decide(x, id, Bumped(hidden, at), SetSensitive(false, n), later, owned)
                 == Change(m.(version := m.version + 1, updated := at.now))
  {}

  /** Editing with a body makes it the body exactly when the message has a body to replace and the edit does not also clear it. */
  lemma EditSetsBodyExactly(x: Cipher, id: Id, m: Message, c: Command, at: Moment, owned: set<Id>)
    requires c.Edit? && c.body.Some? && !Decide(x, id, m, c, at, owned).Refuse?
    ensures var r := Decide(x, id, m, c, at, owned);
            (if r.Change? then r.m else m).plain == c.body <==> m.plain.Some? && !c.clear
  {}

  // A message of attachments alone, edited with a body, stays without one, and the edit is accepted.
  lemma EditCanDropItsBody(x: Cipher, at: Moment)
    ensures var m := Message(1, None, None, None, false, None, None, false, true, false, None, None, None, 1, 0, 0, {}, [Attachment(2, 3, 0)]);
            Decide(x, 1, m, Edit(Some("hi"), false, None, Untouched, Untouched, Untouched), at, {}) == Keep
  {}
}
