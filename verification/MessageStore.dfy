/** The message operations as the service runs them: load under the row lock, change field by field, save.
    A failing transaction puts every table back. */
module MessageStore {
  import opened Basics
  import opened Messages
  import opened MessageEffects
  import Tokens
  import opened Batches

  class Service {
    var messages: map<Id, Message>
    var rest: Rest
    var next: Id
    const x: Cipher

    constructor (x: Cipher, w: World)
      ensures this.x == x && View() == w
    {
      this.x := x;
      messages, rest, next := w.messages, w.rest, w.next;
    }

    function View(): World
      reads this
    { World(messages, rest, next) }

    method Rollback(w: World)
      modifies this
      ensures View() == w
    {
      messages, rest, next := w.messages, w.rest, w.next;
    }

    method BindUploads(owner: Id, uploadIds: seq<Id>, startOrder: nat) returns (e: Option<Error>, bound: seq<Attachment>)
      modifies this
      ensures messages == old(messages)
      ensures e == BindError(old(rest), owner, uploadIds)
      ensures e.None? ==> && bound == Attached(old(rest).uploads, uploadIds, startOrder, old(next))
                          && rest == old(rest).(uploads := Consumed(old(rest).uploads, uploadIds)) && next == old(next) + |uploadIds|
    {
      bound := [];
      e := CheckIds(uploadIds);
      if e.Some? { return; }
      var byId;
      e, byId := LoadUploads(owner, uploadIds);
      if e.Some? { return; }
      ghost var uploads0, next0 := rest.uploads, next;
      for order := 0 to |uploadIds|
        invariant messages == old(messages) && next == next0 + order
        invariant bound == Attached(uploads0, uploadIds, startOrder, next0)[..order]
        invariant rest == old(rest).(uploads := Consumed(uploads0, uploadIds[..order]))
      {
        var u := uploadIds[order];
        bound := bound + [Attachment(next, byId[u], startOrder + order)];
        next := next + 1;
        assert uploadIds[..order + 1] == uploadIds[..order] + [u];
        rest := rest.(uploads := rest.uploads[u := rest.uploads[u].(consumed := true)]);
      }
      assert uploadIds[..|uploadIds|] == uploadIds;
    }

    // loadOwned and the version check, as every versioned operation starts.
    method LoadVersion(owner: Id, id: Id, expected: int) returns (r: Result<Message>)
      ensures r == Load(View(), owner, id, expected)
    {
      if expected < 1 { return Err(Validation); }
      if id !in messages || messages[id].owner != owner { return Err(NotFound); }
      if messages[id].version != expected { return Err(VersionConflict); }
      return Ok(messages[id]);
    }

    method Insert(sender: Id, owner: Id, d: Draft, permanent: bool, tags: seq<Id>, at: Moment) returns (e: Option<Error>)
      modifies this
      ensures (View(), e) == Messages.Insert(x, old(View()), sender, owner, d, permanent, tags, at)
    {
      var before := View();
      var made := NewMessage(x, next, owner, Title(d.title), d.body, d.markdown, permanent, d.sensitive, d.nonce, at);
      if made.Err? { return Some(made.error); }
      var id := next;
      next := next + 1;
      messages := messages[id := made.value];
      var bound;
      e, bound := BindUploads(sender, d.uploads, 0);
      if e.Some? { Rollback(before); return; }
      messages := messages[id := messages[id].(attachments := bound)];
      messages := messages[id := messages[id].(tags := Elements(tags))];
      assert messages == before.messages[id := made.value.(attachments := bound, tags := Elements(tags))];
    }

    method Create(owner: Id, d: Draft, permanent: bool, tags: seq<Id>, at: Moment) returns (e: Option<Error>)
      modifies this
      ensures (View(), e) == Apply(x, old(View()), Op.Create(owner, d, permanent, tags, at))
      ensures Faithful(x) ==> Creates(x, old(View()), View(), e, owner, d, permanent, tags, at)
    {
      if Faithful(x) { CreateEffect(x, View(), owner, d, permanent, tags, at); }
      if !TitleFits(d.title) { return Some(Validation); }
      if (d.body != "" && !ValidBody(d.body)) || (d.body == "" && |d.uploads| == 0) || (d.body == "" && d.sensitive) { return Some(Validation); }
      if !TagsFit(tags, Owned(rest, owner)) { return Some(Validation); }
      e := Insert(owner, owner, d, permanent, tags, at);
    }

    method DirectSend(sender: Id, recipient: Id, d: Draft, at: Moment) returns (e: Option<Error>)
      modifies this
      ensures (View(), e) == Apply(x, old(View()), Op.Direct(sender, recipient, d, at))
      ensures Faithful(x) ==> SendsTo(x, old(View()), View(), e, sender, recipient, d, at)
    {
      if Faithful(x) { DirectEffect(x, View(), sender, recipient, d, at); }
      if !TitleFits(d.title) { return Some(Validation); }
      if (d.body != "" && !ValidBody(d.body)) || (d.body == "" && |d.uploads| == 0) || (d.body == "" && d.sensitive) { return Some(Validation); }
      if recipient !in rest.active { return Some(RecipientUnavailable); }
      e := Insert(sender, recipient, d, false, [], at);
    }

    method Forward(sender: Id, source: Id, expected: int, recipient: Id, nonce: nat, at: Moment) returns (e: Option<Error>)
      modifies this
      ensures (View(), e) == Apply(x, old(View()), Op.Forward(sender, source, expected, recipient, nonce, at))
      ensures Faithful(x) ==> Forwards(x, old(View()), View(), e, sender, source, expected, recipient, nonce, at)
    {
      if Faithful(x) { ForwardEffect(x, View(), sender, source, expected, recipient, nonce, at); }
      var r := LoadVersion(sender, source, expected);
      if r.Err? { return Some(r.error); }
      var m := r.value;
      if m.trashed.Some? { return Some(Trashed); }
      if recipient !in rest.active { return Some(RecipientUnavailable); }
      var body := "";
      if m.sensitive {
        if m.cipher.None? { return Some(CipherFailed); }
        var revealed := x.decrypt(source, m.owner, m.cipher.value);
        if revealed.None? { return Some(CipherFailed); }
        body := revealed.value;
      } else if m.plain.Some? {
        body := m.plain.value;
      } else if |m.attachments| == 0 {
        return Some(ContentRequired);
      }
      var made := NewMessage(x, next, recipient, m.title, body, m.markdown, false, m.sensitive, nonce, at);
      if made.Err? { return Some(made.error); }
      var before := View();
      var id := next;
      next := next + 1;
      messages := messages[id := made.value];
      var items := CopyAttachments(m.attachments);
      if |items| != |m.attachments| { Rollback(before); return Some(Validation); }
      messages := messages[id := messages[id].(attachments := items)];
      assert messages == before.messages[id := made.value.(attachments := items)];
      e := None;
    }

    // New attachments for those of the source whose object is READY.
    method CopyAttachments(attachments: seq<Attachment>) returns (items: seq<Attachment>)
      modifies this`next
      ensures next == old(next) + |items| && (|items| == |attachments| <==> AllReady(rest, attachments))
      ensures AllReady(rest, attachments) ==> items == Copied(attachments, old(next))
    {
      items := [];
      for i := 0 to |attachments|
        invariant next == old(next) + |items|
        invariant AllReady(rest, attachments[..i]) ==> items == Copied(attachments, old(next))[..i]
        invariant |items| <= i && (|items| == i <==> AllReady(rest, attachments[..i]))
      {
        assert attachments[..i + 1] == attachments[..i] + [attachments[i]];
        if attachments[i].file in rest.ready {
          items := items + [attachments[i].(id := next)];
          next := next + 1;
        }
      }
      assert attachments[..|attachments|] == attachments;
    }

    // The closure of Edit; its second half concerns the descriptive fields.
    method EditFields(id: Id, old_: Message, c: Command, ghost at: Moment, ghost owned: set<Id>) returns (o: Outcome)
      requires c.Edit? && old_.trashed.None?
      ensures o == Decide(x, id, old_, c, at, owned)
    {
      if old_.sensitive && c.body.Some? { return Refuse(Validation); }
      if old_.sensitive && c.clear { return Refuse(Validation); }
      if c.clear && |old_.attachments| == 0 { return Refuse(ContentRequired); }
      var changed, m := EditText(old_, c.title, c.body, c.clear);
      var more;
      more, m := EditDetails(m, c.format, c.detectedType, c.detectedLanguage);
      return if changed || more then Outcome.Change(m) else Keep;
    }

    method EditText(old_: Message, title: Field, body: Option<string>, clear: bool) returns (changed: bool, m: Message)
      ensures m == old_.(title := Put(Normal(title), old_.title),
                         plain := if clear then None else if body.Some? && old_.plain.Some? then body else old_.plain)
      ensures changed <==> m != old_
    {
      m := old_;
      changed := false;
      if title.Set? && m.title != Title(title.value) { m := m.(title := Title(title.value)); changed := true; }
      if clear && m.plain.Some? { m := m.(plain := None); changed := true; }
      if body.Some? && m.plain.Some? && body.value != m.plain.value { m := m.(plain := body); changed := true; }
    }

    method EditDetails(old_: Message, format: Option<bool>, dt: Field, dl: Field) returns (changed: bool, m: Message)
      ensures m == old_.(markdown := if format.Some? then format.value else old_.markdown,
                         detectedType := Put(dt, old_.detectedType), detectedLanguage := Put(dl, old_.detectedLanguage))
      ensures changed <==> m != old_
    {
      m := old_;
      changed := false;
      if format.Some? && format.value != m.markdown { m := m.(markdown := format.value); changed := true; }
      if dt.Set? && m.detectedType != dt.value { m := m.(detectedType := dt.value); changed := true; }
      if dl.Set? && m.detectedLanguage != dl.value { m := m.(detectedLanguage := dl.value); changed := true; }
    }

    method Change(id: Id, old_: Message, c: Command, at: Moment, owned: set<Id>) returns (o: Outcome)
      ensures o == Decide(x, id, old_, c, at, owned)
    {
      var m := old_;
      if m.trashed.Some? && !c.Trash? && !c.Restore? { return Refuse(Trashed); }
      match c {
      case Edit(_, _, _, _, _, _) => o := EditFields(id, m, c, at, owned); return;
      case MakePermanent =>
        if m.permanent { return Keep; }
        m := m.(permanent := true);
        m := m.(expires := None);
      case ExtendExpiry(days) =>
        if m.permanent || m.expires.None? { return Refuse(NotTemporary); }
        m := m.(expires := Some(m.expires.value + days * DAY));
      case SetFavorite(favorite) =>
        if favorite && !m.permanent { return Refuse(FavoriteRequiresPermanent); }
        if m.favorite == favorite { return Keep; }
        m := m.(favorite := favorite);
      case Trash =>
        if m.trashed.Some? { return Keep; }
        m := m.(trashed := Some(at.now));
        m := m.(purge := Some(at.now + at.trashTtl));
      case Restore =>
        if m.trashed.None? { return Refuse(NotTrashed); }
        m := m.(trashed := None);
        m := m.(purge := None);
        if m.permanent { m := m.(expires := None); }
        else if m.expires.None? || m.expires.value <= at.now { m := m.(expires := Some(at.now + at.temporaryTtl)); }
      case SetSensitive(sensitive, nonce) =>
        if m.sensitive == sensitive { return Keep; }
        if sensitive {
          if m.plain.None? || !ValidBody(m.plain.value) { return Refuse(Validation); }
          var sealed := x.encrypt(id, m.owner, m.plain.value, nonce);
          if sealed.None? { return Refuse(CipherFailed); }
          m := m.(plain := None, cipher := sealed);
          m := m.(sensitive := true);
        } else {
          if m.cipher.None? { return Refuse(CipherFailed); }
          var revealed := x.decrypt(id, m.owner, m.cipher.value);
          if revealed.None? { return Refuse(CipherFailed); }
          m := m.(plain := revealed, cipher := None);
          m := m.(sensitive := false);
        }
      case EditSensitive(title, body, nonce) =>
        if !m.sensitive { return Refuse(NotSensitive); }
        var sealed := x.encrypt(id, m.owner, body, nonce);
        if sealed.None? { return Refuse(CipherFailed); }
        m := m.(cipher := sealed);
        if title.Set? { m := m.(title := Title(title.value)); }
      case ReplaceTags(ids) =>
        if !TagsFit(ids, owned) { return Refuse(Validation); }
        var wanted := Elements(ids);
        if m.tags == wanted { return Keep; }
        m := m.(tags := wanted);
      }
      return Outcome.Change(m);
    }

    method Mutate(owner: Id, id: Id, expected: int, c: Command, at: Moment) returns (e: Option<Error>)
      modifies this
      ensures (View(), e) == Apply(x, old(View()), Op.Mutate(owner, id, expected, c, at))
      ensures Faithful(x) && WorldOk(x, old(View())) ==> Carried(x, old(View()), View(), e, owner, id, expected, c, at)
    {
      if Faithful(x) && WorldOk(x, View()) { MutateEffect(x, View(), owner, id, expected, c, at); }
      if !WellFormed(c) { return Some(Validation); }
      var r := LoadVersion(owner, id, expected);
      if r.Err? { return Some(r.error); }
      var o := Change(id, r.value, c, at, Owned(rest, owner));
      if o.Refuse? { return Some(o.error); }
      if o.Change? {
        var m := o.m.(version := o.m.version + 1);
        m := m.(updated := at.now);
        messages := messages[id := m];
      }
      e := None;
    }

    method AddAttachments(owner: Id, id: Id, expected: int, uploads: seq<Id>, at: Moment) returns (e: Option<Error>)
      modifies this
      ensures (View(), e) == Apply(x, old(View()), Op.Attach(owner, id, expected, uploads, at))
      ensures Attaches(old(View()), View(), e, owner, id, expected, uploads, at)
    {
      AttachEffect(x, View(), owner, id, expected, uploads, at);
      if |uploads| == 0 { return Some(Validation); }
      var r := LoadVersion(owner, id, expected);
      if r.Err? { return Some(r.error); }
      var m := r.value;
      if m.trashed.Some? { return Some(Trashed); }
      var before := View();
      var start := NextOrder(m.attachments);
      var bound;
      e, bound := BindUploads(owner, uploads, start);
      if e.Some? { Rollback(before); return; }
      m := m.(attachments := m.attachments + bound, version := m.version + 1, updated := at.now);
      messages := messages[id := m];
    }

    method RemoveAttachment(owner: Id, id: Id, expected: int, attachment: Id, at: Moment) returns (e: Option<Error>)
      modifies this
      ensures (View(), e) == Apply(x, old(View()), Op.Detach(owner, id, expected, attachment, at))
      ensures WorldOk(x, old(View())) ==> Detaches(old(View()), View(), e, owner, id, expected, attachment, at)
    {
      if WorldOk(x, View()) { DetachEffect(x, View(), owner, id, expected, attachment, at); }
      var r := LoadVersion(owner, id, expected);
      if r.Err? { return Some(r.error); }
      var m := r.value;
      if m.trashed.Some? { return Some(Trashed); }
      if m.plain.None? && m.cipher.None? && |m.attachments| <= 1 { return Some(ContentRequired); }
      if !HasAttachment(m.attachments, attachment) { return Some(NotFound); }
      m := m.(attachments := Without(m.attachments, attachment), version := m.version + 1, updated := at.now);
      messages := messages[id := m];
      e := None;
    }

    method PermanentlyDelete(owner: Id, id: Id) returns (e: Option<Error>)
      modifies this
      ensures (View(), e) == Apply(x, old(View()), Op.Delete(owner, id))
      ensures e.None? <==> id in old(messages) && old(messages)[id].owner == owner && old(messages)[id].trashed.Some?
      ensures View() == if e.None? then old(View()).(messages := old(messages) - {id}) else old(View())
    {
      if id !in messages || messages[id].owner != owner { return Some(NotFound); }
      if messages[id].trashed.None? { return Some(NotTrashed); }
      messages := messages - {id};
      e := None;
    }

    /** tags.PostgreSQLRepository.Delete: lock the owner's messages with the tag, delete it with its links, bump those messages. */
    method DeleteTag(owner: Id, tag: Id, at: Moment) returns (e: Option<Error>)
      modifies this
      ensures (View(), e) == Apply(x, old(View()), Op.DropTag(owner, tag, at))
    {
      var locked := Affected(messages, owner, tag);
      if tag !in rest.tags || rest.tags[tag] != owner { return Some(NotFound); }
      Relabelled(messages, owner, tag, at);
      rest := rest.(tags := rest.tags - {tag});
      messages := Unlinked(messages, tag);
      if |locked| > 0 { messages := BumpedAll(messages, locked, at); }
      e := None;
    }

    // One batch of the expiry, after the messages in `done`.
    method ExpireBatch(at: Moment, batch: nat, ghost start: World, ghost done: set<Id>) returns (page: set<Id>)
      requires done <= Due(start, at) && View() == start.(messages := Expired(start.messages, done, at))
      modifies this
      ensures done + page <= Due(start, at) && View() == start.(messages := Expired(start.messages, done + page, at))
      ensures |page| == Min(batch, |Due(start, at)| - |done|) && |done + page| == |done| + |page|
    {
      ExpirePage(start, at, done, batch);
      page := Batch(ExpiryTimes(View(), at), batch);
      messages := Expired(messages, page, at);
    }

    /** The scheduler's expiry: batch after batch of the longest expired messages goes to the trash, until none is left or
        the limit on batches is reached. */
    method ExpireTemporary(at: Moment, batch: nat, maxBatches: nat) returns (ghost done: set<Id>)
      requires batch >= 1
      modifies this
      ensures View() == Apply(x, old(View()), Op.Expire(done, at)).0
      ensures done <= Due(old(View()), at) && |done| == Min(|Due(old(View()), at)|, batch * maxBatches)
      ensures Expires(old(View()), View(), done, at)
      ensures |done| < batch * maxBatches ==> forall id | id in messages :: !Lapsed(messages[id], at.now)
    {
      ghost var start := View();
      done := {};
      assert Expired(start.messages, {}, at) == start.messages;
      var cycle := 0;
      var last: nat := batch;
      while cycle < maxBatches && last == batch
        invariant cycle <= maxBatches && View() == start.(messages := Expired(start.messages, done, at))
        invariant done <= Due(start, at) && Progress(|Due(start, at)|, |done|, batch, cycle, last)
      {
        var page := ExpireBatch(at, batch, start, done);
        Advance(|Due(start, at)|, |done|, batch, cycle, |page|);
        last := |page|;
        done := done + page;
        cycle := cycle + 1;
      }
      Ends(|Due(start, at)|, |done|, batch, cycle, last, maxBatches);
      ExpireIs(x, start, at, done);
      ExpireEffect(x, start, done, at);
      SubsetSize(done, Due(start, at));
    }

    method PurgeBatch(at: Moment, batch: nat, ghost start: World, ghost done: set<Id>) returns (page: set<Id>)
      requires done <= Purgeable(start, at) && View() == start.(messages := start.messages - done)
      modifies this
      ensures done + page <= Purgeable(start, at) && View() == start.(messages := start.messages - (done + page))
      ensures |page| == Min(batch, |Purgeable(start, at)| - |done|) && |done + page| == |done| + |page|
    {
      PurgePage(start, at, done, batch);
      page := Batch(PurgeTimes(View(), at), batch);
      messages := messages - page;
    }

    /** The scheduler's purge: the same with the trashed messages whose time has come. */
    method PurgeTrash(at: Moment, batch: nat, maxBatches: nat) returns (ghost done: set<Id>)
      requires batch >= 1
      modifies this
      ensures View() == Apply(x, old(View()), Op.Purge(done, at)).0
      ensures done <= Purgeable(old(View()), at) && |done| == Min(|Purgeable(old(View()), at)|, batch * maxBatches)
      ensures Purges(old(View()), View(), done, at)
      ensures |done| < batch * maxBatches ==> forall id | id in messages :: !Overdue(messages[id], at.now)
    {
      ghost var start := View();
      done := {};
      assert start.messages - {} == start.messages;
      var cycle := 0;
      var last: nat := batch;
      while cycle < maxBatches && last == batch
        invariant cycle <= maxBatches && View() == start.(messages := start.messages - done)
        invariant done <= Purgeable(start, at) && Progress(|Purgeable(start, at)|, |done|, batch, cycle, last)
      {
        var page := PurgeBatch(at, batch, start, done);
        Advance(|Purgeable(start, at)|, |done|, batch, cycle, |page|);
        last := |page|;
        done := done + page;
        cycle := cycle + 1;
      }
      Ends(|Purgeable(start, at)|, |done|, batch, cycle, last, maxBatches);
      PurgeIs(x, start, at, done);
      PurgeEffect(x, start, done, at);
      SubsetSize(done, Purgeable(start, at));
    }

    method CheckIds(uploadIds: seq<Id>) returns (e: Option<Error>)
      ensures e == if NIL in uploadIds || !Distinct(uploadIds) then Some(Validation) else None
    {
      var seen: set<Id> := {};
      for i := 0 to |uploadIds|
        invariant NIL !in uploadIds[..i] && Distinct(uploadIds[..i]) && seen == Elements(uploadIds[..i])
      {
        assert uploadIds[..i + 1] == uploadIds[..i] + [uploadIds[i]];
        if uploadIds[i] == NIL || uploadIds[i] in seen { return Some(Validation); }
        seen := seen + {uploadIds[i]};
      }
      assert uploadIds[..|uploadIds|] == uploadIds;
      e := None;
    }

    // The rows come in id order; the first unfit one ends the scan.
    method LoadUploads(owner: Id, uploadIds: seq<Id>) returns (e: Option<Error>, byId: map<Id, Id>)
      requires NIL !in uploadIds && Distinct(uploadIds)
      ensures e == BindError(rest, owner, uploadIds)
      ensures e.None? ==> forall u | u in uploadIds :: u in byId && u in rest.uploads && rest.uploads[u].file == Some(byId[u])
    {
      var found := Found(rest, owner, uploadIds);
      e, byId := ScanRows(found, owner, uploadIds);
      if e.None? { e := CountRows(found, |byId|, owner, uploadIds); }
    }

    method ScanRows(found: set<Id>, ghost owner: Id, ghost uploadIds: seq<Id>) returns (e: Option<Error>, byId: map<Id, Id>)
      requires NIL !in uploadIds && Distinct(uploadIds) && found == Found(rest, owner, uploadIds)
      ensures if e.Some? then e == BindError(rest, owner, uploadIds) else byId.Keys == found && Loaded(byId)
    {
      var rows := found;
      byId := map[];
      while rows != {}
        invariant rows <= found && byId.Keys == found - rows && Loaded(byId)
        decreases |rows|
      {
        var u := Least(rows);
        e := CheckRow(u);
        if e.Some? {
          FirstBad(found, rows, byId, u, owner, uploadIds);
          return;
        }
        rows := rows - {u};
        byId := byId[u := rest.uploads[u].file.value];
      }
      e := None;
    }

    method CheckRow(u: Id) returns (e: Option<Error>)
      requires u in rest.uploads && rest.uploads[u].file.Some?
      ensures e == if Bindable(rest, u) then None else Some(if rest.uploads[u].consumed then UploadConsumed else Validation)
    {
      var row := rest.uploads[u];
      if row.consumed { return Some(UploadConsumed); }
      if !row.completed || row.file.value !in rest.ready || row.file.value == NIL { return Some(Validation); }
      e := None;
    }

    method CountRows(ghost found: set<Id>, rows: nat, ghost owner: Id, uploadIds: seq<Id>) returns (e: Option<Error>)
      requires NIL !in uploadIds && Distinct(uploadIds) && found == Found(rest, owner, uploadIds) && rows == |found|
      requires forall u | u in found :: Bindable(rest, u)
      ensures e == BindError(rest, owner, uploadIds)
      ensures e.None? ==> forall u | u in uploadIds :: u in found
    {
      DistinctSize(uploadIds);
      assert (set u | u in found && !Bindable(rest, u)) == {};
      if rows != |uploadIds| {
        MissingOne(found, uploadIds);
        return Some(Validation);
      }
      AllFound(found, uploadIds);
      e := None;
    }

    ghost predicate Loaded(byId: map<Id, Id>)
      reads this
    { forall u | u in byId :: u in rest.uploads && rest.uploads[u].file == Some(byId[u]) && Bindable(rest, u) }

    lemma FirstBad(found: set<Id>, left: set<Id>, byId: map<Id, Id>, u: Id, owner: Id, ids: seq<Id>)
      requires NIL !in ids && Distinct(ids) && found == Found(rest, owner, ids) && left <= found && u in left
      requires (forall k | k in left :: u <= k) && !Bindable(rest, u) && byId.Keys == found - left && Loaded(byId)
      ensures BindError(rest, owner, ids) == Some(if rest.uploads[u].consumed then UploadConsumed else Validation)
    {
      var bad := set k | k in found && !Bindable(rest, k);
      assert u in bad && Least(bad) in left;
    }
  }

  // After `cycle` full batches, or one that was not full, `done` of `total` rows are handled.
  predicate Progress(total: nat, done: nat, batch: nat, cycle: nat, last: nat) {
    last <= batch && done == (if last == batch then batch * cycle else total) && done <= total && (last < batch ==> total <= batch * cycle)
  }

  lemma Advance(total: nat, done: nat, batch: nat, cycle: nat, page: nat)
    requires Progress(total, done, batch, cycle, batch) && page == Min(batch, total - done)
    ensures Progress(total, done + page, batch, cycle + 1, page)
  {
    assert batch * (cycle + 1) == batch * cycle + batch;
  }

  lemma Ends(total: nat, done: nat, batch: nat, cycle: nat, last: nat, max: nat)
    requires Progress(total, done, batch, cycle, last) && cycle <= max && (cycle == max || last != batch)
    ensures done == Min(total, batch * max)
  {
    assert batch * max - batch * cycle == batch * (max - cycle);
  }

  lemma ExpireIs(x: Cipher, w: World, at: Moment, done: set<Id>)
    requires done <= Due(w, at)
    ensures Apply(x, w, Op.Expire(done, at)).0 == w.(messages := Expired(w.messages, done, at))
  {
    assert done * Due(w, at) == done;
  }

  function ExpiryTimes(w: World, at: Moment): map<Id, int> { map id | id in Due(w, at) :: w.messages[id].expires.value }

  function PurgeTimes(w: World, at: Moment): map<Id, int> { map id | id in Purgeable(w, at) :: w.messages[id].purge.value }

  // The next batch, after the messages in `done`, adds to what one update would do.
  lemma ExpirePage(w: World, at: Moment, done: set<Id>, batch: nat)
    requires done <= Due(w, at)
    ensures var page := Batch(ExpiryTimes(w.(messages := Expired(w.messages, done, at)), at), batch);
            && done + page <= Due(w, at) && |page| == Min(batch, |Due(w, at)| - |done|) && |done + page| == |done| + |page|
            && Expired(Expired(w.messages, done, at), page, at) == Expired(w.messages, done + page, at)
  {
    var times := ExpiryTimes(w.(messages := Expired(w.messages, done, at)), at);
    DueAfter(w, at, done);
    assert times.Keys == Due(w, at) - done;
    BatchMeaning(times, batch);
    RestSize(Due(w, at), done, Batch(times, batch));
    ExpiredTwice(w.messages, done, Batch(times, batch), at);
  }

  lemma PurgePage(w: World, at: Moment, done: set<Id>, batch: nat)
    requires done <= Purgeable(w, at)
    ensures var page := Batch(PurgeTimes(w.(messages := w.messages - done), at), batch);
            && done + page <= Purgeable(w, at) && |page| == Min(batch, |Purgeable(w, at)| - |done|) && |done + page| == |done| + |page|
            && w.messages - done - page == w.messages - (done + page)
  {
    var times := PurgeTimes(w.(messages := w.messages - done), at);
    PurgeableAfter(w, at, done);
    assert times.Keys == Purgeable(w, at) - done;
    BatchMeaning(times, batch);
    RestSize(Purgeable(w, at), done, Batch(times, batch));
    PurgedTwice(w.messages, done, Batch(times, batch));
  }

  lemma RestSize(all: set<Id>, done: set<Id>, page: set<Id>)
    requires done <= all && page <= all - done
    ensures |all - done| == |all| - |done| && |done + page| == |done| + |page|
  {
    assert done + (all - done) == all;
  }

  lemma DueAfter(w: World, at: Moment, done: set<Id>)
    ensures Due(w.(messages := Expired(w.messages, done, at)), at) == Due(w, at) - done
  {}

  lemma ExpiredTwice(messages: map<Id, Message>, done: set<Id>, page: set<Id>, at: Moment)
    requires done !! page
    ensures Expired(Expired(messages, done, at), page, at) == Expired(messages, done + page, at)
  {}

  lemma PurgeIs(x: Cipher, w: World, at: Moment, done: set<Id>)
    requires done <= Purgeable(w, at)
    ensures Apply(x, w, Op.Purge(done, at)).0 == w.(messages := w.messages - done)
  {
    assert done * Purgeable(w, at) == done;
  }

  lemma PurgedTwice(messages: map<Id, Message>, done: set<Id>, page: set<Id>)
    ensures messages - done - page == messages - (done + page)
  {}

  lemma PurgeableAfter(w: World, at: Moment, done: set<Id>)
    ensures Purgeable(w.(messages := w.messages - done), at) == Purgeable(w, at) - done
  {}

  lemma {:induction false} DistinctSize(ids: seq<Id>)
    requires Distinct(ids)
    ensures |Elements(ids)| == |ids|
  {
    if ids != [] {
      var rest := ids[..|ids| - 1]; var last := ids[|ids| - 1];
      DistinctSize(rest);
      assert ids == rest + [last];
      assert Elements(ids) == Elements(rest) + {last};
      forall i | 0 <= i < |rest| ensures rest[i] != last { assert ids[i] == rest[i] && ids[|ids| - 1] == last; }
    }
  }

  lemma MissingOne(found: set<Id>, ids: seq<Id>)
    requires (forall u | u in found :: u in ids) && |found| != |Elements(ids)|
    ensures exists u :: u in ids && u !in found
  {
    var all := Elements(ids);
    assert found <= all && found != all;
    assert forall u | u in all && u !in found :: u in all - found;
    var u :| u in all - found;
  }

  lemma {:induction false} AllFound(found: set<Id>, ids: seq<Id>)
    requires (forall u | u in found :: u in ids) && |found| == |Elements(ids)|
    ensures forall u | u in ids :: u in found
  {
    var all := Elements(ids);
    assert found <= all;
    SubsetSize(found, all);
  }

  // SELECT m.id FROM messages m JOIN message_tags mt ... WHERE mt.tag_id = $1 AND m.owner_id = $2
  function Affected(messages: map<Id, Message>, owner: Id, tag: Id): set<Id> {
    set id | id in messages && tag in messages[id].tags && messages[id].owner == owner
  }

  function Unlinked(messages: map<Id, Message>, tag: Id): map<Id, Message> {
    map id | id in messages :: messages[id].(tags := messages[id].tags - {tag})
  }

  function BumpedAll(messages: map<Id, Message>, ids: set<Id>, at: Moment): map<Id, Message> {
    map id | id in messages :: if id in ids then Bumped(messages[id], at) else messages[id]
  }

  lemma Relabelled(messages: map<Id, Message>, owner: Id, tag: Id, at: Moment)
    ensures var ids := Affected(messages, owner, tag); var bare := Unlinked(messages, tag);
            Untagged(messages, owner, tag, at) == if |ids| > 0 then BumpedAll(bare, ids, at) else bare
  {
    if |Affected(messages, owner, tag)| == 0 {
      forall id | id in messages ensures !(tag in messages[id].tags && messages[id].owner == owner) { assert id !in Affected(messages, owner, tag); }
    }
  }
}
