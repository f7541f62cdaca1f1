/** What the message operations come to, said of the tables directly: who owns a new message, what it contains, which uploads
    it takes, when an operation is refused, and what each command changes. */
module MessageEffects {
  import opened Basics
  import opened Messages
  import Tokens

  // ---- Uploads a message may take --------------------------------------------------------------------

  // A completed upload of the sender's own that no message took, with its object READY.
  predicate Usable(rest: Rest, sender: Id, u: Id) {
    && u in rest.uploads && rest.uploads[u].owner == sender && rest.uploads[u].completed && !rest.uploads[u].consumed
    && rest.uploads[u].file.Some? && rest.uploads[u].file.value in rest.ready && rest.uploads[u].file.value != 0
  }

  predicate MayTake(rest: Rest, sender: Id, ids: seq<Id>) {
    && (forall i, j | 0 <= i < j < |ids| :: ids[i] != ids[j])
    && (forall i | 0 <= i < |ids| :: ids[i] != 0 && Usable(rest, sender, ids[i]))
  }

  /** Uploads can be bound exactly if they are distinct and all usable by the sender; "already consumed" is the answer only
      if one of the sender's is. */
  lemma BindErrorMeaning(rest: Rest, sender: Id, ids: seq<Id>)
    ensures BindError(rest, sender, ids).None? <==> MayTake(rest, sender, ids)
    ensures BindError(rest, sender, ids).Some? ==> BindError(rest, sender, ids).value in {UploadConsumed, Validation}
    ensures BindError(rest, sender, ids) == Some(UploadConsumed) ==>
              exists u :: u in ids && u in rest.uploads && rest.uploads[u].owner == sender && rest.uploads[u].consumed
  {
    var found := Found(rest, sender, ids);
    var bad := set u | u in found && !Bindable(rest, u);
    if BindError(rest, sender, ids).None? {
      forall i | 0 <= i < |ids| ensures ids[i] != 0 && Usable(rest, sender, ids[i]) {
        assert ids[i] in found && ids[i] !in bad;
      }
    }
    if MayTake(rest, sender, ids) {
      forall u | u in ids ensures u in found && u !in bad { var i :| 0 <= i < |ids| && ids[i] == u; assert Usable(rest, sender, ids[i]); }
      assert bad == {};
    }
  }

  // Exactly these uploads are consumed now; nothing else of the rest changed.
  ghost predicate Taken(rest: Rest, rest': Rest, ids: seq<Id>) {
    && rest' == rest.(uploads := rest'.uploads) && rest'.uploads.Keys == rest.uploads.Keys
    && forall u | u in rest.uploads :: rest'.uploads[u] == if u in ids then rest.uploads[u].(consumed := true) else rest.uploads[u]
  }

  // ---- New messages ------------------------------------------------------------------------------------

  // Exactly one message was added, under the next identifier.
  ghost predicate OneMore(w: World, w': World) {
    && w'.messages.Keys == w.messages.Keys + {w.next} && w.next < w'.next
    && forall id | id in w.messages && id != w.next :: w'.messages[id] == w.messages[id]
  }

  // The body can be read back: as it is, or by decryption.
  predicate BodyIs(x: Cipher, id: Id, m: Message, body: string, sensitive: bool) {
    && m.sensitive == sensitive
    && if sensitive then m.plain.None? && m.cipher.Some? && x.decrypt(id, m.owner, m.cipher.value) == Some(body)
       else m.cipher.None? && m.plain == if body == "" then None else Some(body)
  }

  predicate JustCreated(m: Message, permanent: bool, at: Moment) {
    && m.version == 1 && m.created == at.now && m.updated == at.now && m.permanent == permanent
    && m.expires == (if permanent then None else Some(at.now + at.temporaryTtl))
    && m.trashed.None? && m.purge.None? && !m.favorite && m.detectedType.None? && m.detectedLanguage.None?
  }

  ghost predicate Sent(x: Cipher, w: World, w': World, sender: Id, owner: Id, d: Draft, permanent: bool, tags: seq<Id>, at: Moment) {
    && MayTake(w.rest, sender, d.uploads) && OneMore(w, w') && Taken(w.rest, w'.rest, d.uploads)
    && var m := w'.messages[w.next];
    && m.owner == owner && JustCreated(m, permanent, at) && BodyIs(x, w.next, m, d.body, d.sensitive) && m.markdown == d.markdown
    && m.title == (if d.title.None? || Tokens.Trim(d.title.value) == "" then None else Some(Tokens.Trim(d.title.value)))
    && (forall t :: t in m.tags <==> t in tags)
    && |m.attachments| == |d.uploads|
    && forall i | 0 <= i < |d.uploads| ::
         m.attachments[i].file == w.rest.uploads[d.uploads[i]].file.value && m.attachments[i].order == i
         && m.attachments[i].id == w.next + 1 + i < w'.next
  }

  // The draft is in order: a title of at most 200 characters, and a body of at most 1 MiB or uploads instead.
  predicate InOrder(d: Draft) {
    && (d.title.Some? ==> |Tokens.Trim(d.title.value)| <= 200)
    && (if d.body == "" then d.uploads != [] && !d.sensitive else Tokens.Bytes(d.body) <= 1048576)
  }

  predicate CanEncrypt(x: Cipher, id: Id, owner: Id, d: Draft) { d.sensitive ==> x.encrypt(id, owner, d.body, d.nonce).Some? }

  lemma InsertSends(x: Cipher, w: World, sender: Id, owner: Id, d: Draft, permanent: bool, tags: seq<Id>, at: Moment)
    requires Faithful(x) && DraftFits(d)
    ensures var (w', e) := Insert(x, w, sender, owner, d, permanent, tags, at);
            && (e.None? <==> MayTake(w.rest, sender, d.uploads) && CanEncrypt(x, w.next, owner, d))
            && if e.None? then Sent(x, w, w', sender, owner, d, permanent, tags, at) else w' == w
  {
    BindErrorMeaning(w.rest, sender, d.uploads);
  }

  // Creating a message for oneself.
  ghost predicate Creates(x: Cipher, w: World, w': World, e: Option<Error>, owner: Id, d: Draft, permanent: bool, tags: seq<Id>, at: Moment) {
    && (e.None? <==>
          && InOrder(d) && MayTake(w.rest, owner, d.uploads) && CanEncrypt(x, w.next, owner, d)
          && (forall i, j | 0 <= i < j < |tags| :: tags[i] != tags[j])
          && (forall t | t in tags :: t != 0 && t in w.rest.tags && w.rest.tags[t] == owner))
    && if e.None? then Sent(x, w, w', owner, owner, d, permanent, tags, at) else w' == w
  }

  // Sending one to somebody else: it is the recipient's, temporary and without tags; the uploads are the sender's.
  ghost predicate SendsTo(x: Cipher, w: World, w': World, e: Option<Error>, sender: Id, recipient: Id, d: Draft, at: Moment) {
    && (e.None? <==> InOrder(d) && recipient in w.rest.active && MayTake(w.rest, sender, d.uploads) && CanEncrypt(x, w.next, recipient, d))
    && (InOrder(d) && recipient !in w.rest.active ==> e == Some(RecipientUnavailable))
    && if e.None? then Sent(x, w, w', sender, recipient, d, false, [], at) else w' == w
  }

  lemma InOrderMeansFits(d: Draft)
    ensures DraftFits(d) <==> InOrder(d)
  {}

  lemma {:induction false} DistinctElements(ids: seq<Id>)
    ensures |Elements(ids)| <= |ids|
    ensures |Elements(ids)| == |ids| <==> forall i, j | 0 <= i < j < |ids| :: ids[i] != ids[j]
  {
    if ids != [] {
      var rest := ids[..|ids| - 1]; var last := ids[|ids| - 1];
      DistinctElements(rest);
      assert ids == rest + [last];
      assert Elements(ids) == Elements(rest) + {last};
      if last in rest {
        var i :| 0 <= i < |rest| && rest[i] == last;
        assert ids[i] == ids[|ids| - 1];
      }
    }
  }

  lemma CreateEffect(x: Cipher, w: World, owner: Id, d: Draft, permanent: bool, tags: seq<Id>, at: Moment)
    requires Faithful(x)
    ensures var (w', e) := Apply(x, w, Create(owner, d, permanent, tags, at)); Creates(x, w, w', e, owner, d, permanent, tags, at)
  {
    InOrderMeansFits(d);
    DistinctElements(tags);
    if DraftFits(d) { InsertSends(x, w, owner, owner, d, permanent, tags, at); }
  }

  lemma DirectEffect(x: Cipher, w: World, sender: Id, recipient: Id, d: Draft, at: Moment)
    requires Faithful(x)
    ensures var (w', e) := Apply(x, w, Direct(sender, recipient, d, at)); SendsTo(x, w, w', e, sender, recipient, d, at)
  {
    InOrderMeansFits(d);
    if DraftFits(d) { InsertSends(x, w, sender, recipient, d, false, [], at); }
  }

  // ---- Forwarding ----------------------------------------------------------------------------------------

  // What there is to read in a message.
  function ReadBody(x: Cipher, id: Id, m: Message): Option<string> {
    if m.sensitive then (if m.cipher.Some? then x.decrypt(id, m.owner, m.cipher.value) else None)
    else if m.plain.Some? then m.plain else Some("")
  }

  predicate CanLoad(w: World, owner: Id, id: Id, expected: int) {
    expected >= 1 && id in w.messages && w.messages[id].owner == owner && w.messages[id].version == expected
  }

  predicate Forwardable(x: Cipher, w: World, source: Id, recipient: Id, nonce: nat)
    requires source in w.messages
  {
    var m := w.messages[source]; var body := ReadBody(x, source, m);
    && m.trashed.None? && body.Some? && (body.value == "" ==> !m.sensitive && (m.plain.Some? || m.attachments != []))
    && (m.sensitive ==> x.encrypt(w.next, recipient, body.value, nonce).Some?)
    && forall i | 0 <= i < |m.attachments| :: m.attachments[i].file in w.rest.ready
  }

  // The recipient gets the source's title, body and files, in order; everything else stays.
  ghost predicate Copies(x: Cipher, w: World, w': World, source: Id, recipient: Id, at: Moment)
    requires source in w.messages && ReadBody(x, source, w.messages[source]).Some?
  {
    && OneMore(w, w') && w'.rest == w.rest
    && var m := w'.messages[w.next]; var s := w.messages[source];
    && m.owner == recipient && JustCreated(m, false, at) && m.title == s.title && m.markdown == s.markdown && m.tags == {}
    && BodyIs(x, w.next, m, ReadBody(x, source, s).value, s.sensitive)
    && |m.attachments| == |s.attachments|
    && forall i | 0 <= i < |s.attachments| ::
         m.attachments[i].file == s.attachments[i].file && m.attachments[i].order == s.attachments[i].order
         && m.attachments[i].id == w.next + 1 + i < w'.next
  }

  ghost predicate Forwards(x: Cipher, w: World, w': World, e: Option<Error>, sender: Id, source: Id, expected: int, recipient: Id, nonce: nat, at: Moment) {
    && (e.None? <==> CanLoad(w, sender, source, expected) && recipient in w.rest.active && Forwardable(x, w, source, recipient, nonce))
    && if e.None? then Copies(x, w, w', source, recipient, at) else w' == w
  }

  lemma ForwardEffect(x: Cipher, w: World, sender: Id, source: Id, expected: int, recipient: Id, nonce: nat, at: Moment)
    requires Faithful(x)
    ensures var (w', e) := Apply(x, w, Forward(sender, source, expected, recipient, nonce, at));
            Forwards(x, w, w', e, sender, source, expected, recipient, nonce, at)
  {}

  // ---- Commands on one message ---------------------------------------------------------------------------

  predicate ShortTitle(title: Field) { title.Set? && title.value.Some? ==> |Tokens.Trim(title.value.value)| <= 200 }

  predicate ShortName(name: Field) { name.Set? && name.value.Some? ==> |name.value.value| <= 64 }

  predicate FitBody(body: string) { body != "" && Tokens.Bytes(body) <= 1048576 }

  // Which commands a message accepts.
  predicate Accepts(x: Cipher, id: Id, m: Message, c: Command, tags: map<Id, Id>) {
    && (m.trashed.Some? ==> c.Trash? || c.Restore?)
    && match c
       case Edit(body, clear, format, title, dt, dl) =>
         && (body.Some? || clear || format.Some? || title.Set? || dt.Set? || dl.Set?)
         && (body.Some? ==> FitBody(body.value)) && ShortTitle(title) && ShortName(dt) && ShortName(dl)
         && (m.sensitive ==> body.None? && !clear) && (clear ==> m.attachments != [])
       case MakePermanent => true
       case ExtendExpiry(days) => (days == 1 || days == 3 || days == 7) && !m.permanent && m.expires.Some?
       case SetFavorite(favorite) => favorite ==> m.permanent
       case Trash => true
       case Restore => m.trashed.Some?
       case SetSensitive(sensitive, nonce) =>
         if m.sensitive == sensitive then true
         else if sensitive then m.plain.Some? && FitBody(m.plain.value) && x.encrypt(id, m.owner, m.plain.value, nonce).Some?
         else m.cipher.Some? && x.decrypt(id, m.owner, m.cipher.value).Some?
       case EditSensitive(title, body, nonce) => m.sensitive && FitBody(body) && ShortTitle(title) && x.encrypt(id, m.owner, body, nonce).Some?
       case ReplaceTags(ids) =>
         && (forall i, j | 0 <= i < j < |ids| :: ids[i] != ids[j])
         && forall t | t in ids :: t != 0 && t in tags && tags[t] == m.owner
  }

  // The title is what the field says, trimmed, a blank one being none.
  predicate TitleSet(title: Field, before: Option<string>, after: Option<string>) {
    match title
    case Untouched => after == before
    case Set(None) => after.None?
    case Set(Some(text)) => after == if Tokens.Trim(text) == "" then None else Some(Tokens.Trim(text))
  }

  predicate NameSet(name: Field, before: Option<string>, after: Option<string>) { after == if name.Set? then name.value else before }

  // What a command changes, and that it changes nothing else.
  ghost predicate Does(x: Cipher, id: Id, m: Message, c: Command, at: Moment, m': Message) {
    match c
    case Edit(body, clear, format, title, dt, dl) =>
      && m' == m.(title := m'.title, plain := m'.plain, markdown := m'.markdown, detectedType := m'.detectedType, detectedLanguage := m'.detectedLanguage)
      && TitleSet(title, m.title, m'.title) && NameSet(dt, m.detectedType, m'.detectedType) && NameSet(dl, m.detectedLanguage, m'.detectedLanguage)
      && m'.markdown == (if format.Some? then format.value else m.markdown)
      && m'.plain == (if clear then None else if body.Some? && m.plain.Some? then body else m.plain)
    case MakePermanent => m'.permanent && m'.expires.None? && m' == m.(permanent := true, expires := None)
    case ExtendExpiry(days) =>
      m.expires.Some? && m'.expires.Some? && m'.expires.value - m.expires.value == days * 86400 && m' == m.(expires := m'.expires)
    case SetFavorite(favorite) => m'.favorite == favorite && m' == m.(favorite := m'.favorite)
    case Trash =>
      if m.trashed.Some? then m' == m else m' == m.(trashed := Some(at.now), purge := Some(at.now + at.trashTtl))
    case Restore =>
      && m'.trashed.None? && m'.purge.None? && m' == m.(trashed := None, purge := None, expires := m'.expires)
      && if m.permanent then m'.expires.None?
         else if m.expires.Some? && m.expires.value > at.now then m'.expires == m.expires
         else m'.expires == Some(at.now + at.temporaryTtl)
    case SetSensitive(sensitive, _) =>
      && m' == m.(plain := m'.plain, cipher := m'.cipher, sensitive := sensitive)
      && if m.sensitive == sensitive then m' == m
         else if sensitive then m.plain.Some? && BodyIs(x, id, m', m.plain.value, true)
         else m.cipher.Some? && m'.cipher.None? && m'.plain.Some? && x.decrypt(id, m.owner, m.cipher.value) == m'.plain
    case EditSensitive(title, body, _) =>
      m' == m.(title := m'.title, cipher := m'.cipher) && TitleSet(title, m.title, m'.title) && (m.plain.None? ==> BodyIs(x, id, m', body, true))
    case ReplaceTags(ids) => m' == m.(tags := m'.tags) && forall t :: t in m'.tags <==> t in ids
  }

  /** A command is carried out exactly when the message accepts it, and then does what it says and nothing else; the version
      moves on when something changed. */
  lemma DecideEffect(x: Cipher, id: Id, m: Message, c: Command, at: Moment, tags: map<Id, Id>, owned: set<Id>)
    requires Faithful(x) && LifeOk(m) && forall t :: t in owned <==> t in tags && tags[t] == m.owner
    ensures var o := Decide(x, id, m, c, at, owned); var m' := if o.Change? then o.m else m;
            && (WellFormed(c) && !o.Refuse? <==> Accepts(x, id, m, c, tags))
            && (WellFormed(c) && !o.Refuse? ==> Does(x, id, m, c, at, m') && (o.Change? <==> m' != m || c.EditSensitive?))
  {
    match c
    case Edit(_, _, _, _, _, _) => EditEffect(x, id, m, c, at, tags, owned);
    case ReplaceTags(ids) => DistinctElements(ids);
    case _ =>
  }

  lemma EditEffect(x: Cipher, id: Id, m: Message, c: Command, at: Moment, tags: map<Id, Id>, owned: set<Id>)
    requires c.Edit?
    ensures var o := Decide(x, id, m, c, at, owned); var m' := if o.Change? then o.m else m;
            && (WellFormed(c) && !o.Refuse? <==> Accepts(x, id, m, c, tags))
            && (WellFormed(c) && !o.Refuse? ==> Does(x, id, m, c, at, m') && (o.Change? <==> m' != m))
  {}

  // The change of one message in the tables.
  ghost predicate Changes(w: World, w': World, id: Id, m': Message, at: Moment)
    requires id in w.messages
  {
    && w'.rest == w.rest && w'.next == w.next
    && w'.messages == w.messages[id := m'.(version := w.messages[id].version + 1, updated := at.now)]
  }

  ghost predicate Carried(x: Cipher, w: World, w': World, e: Option<Error>, owner: Id, id: Id, expected: int, c: Command, at: Moment) {
    && (e.None? <==> CanLoad(w, owner, id, expected) && Accepts(x, id, w.messages[id], c, w.rest.tags))
    && if e.Some? then w' == w
       else exists m': Message :: Does(x, id, w.messages[id], c, at, m')
              && if m' == w.messages[id] && !c.EditSensitive? then w' == w else Changes(w, w', id, m', at)
  }

  lemma MutateEffect(x: Cipher, w: World, owner: Id, id: Id, expected: int, c: Command, at: Moment)
    requires Faithful(x) && WorldOk(x, w)
    ensures var (w', e) := Apply(x, w, Mutate(owner, id, expected, c, at)); Carried(x, w, w', e, owner, id, expected, c, at)
  {
    if CanLoad(w, owner, id, expected) {
      RowFacts(x, w, id);
      DecideEffect(x, id, w.messages[id], c, at, w.rest.tags, Owned(w.rest, owner));
      Decided(x, w, owner, id, expected, c, at);
    }
  }

  lemma Decided(x: Cipher, w: World, owner: Id, id: Id, expected: int, c: Command, at: Moment)
    requires CanLoad(w, owner, id, expected)
    ensures var (w', e) := Apply(x, w, Mutate(owner, id, expected, c, at)); var m := w.messages[id];
            var o := Decide(x, id, m, c, at, Owned(w.rest, owner)); var m' := if o.Change? then o.m else m;
            && (e.None? <==> WellFormed(c) && !o.Refuse?) && (e.Some? || o.Keep? ==> w' == w)
            && (e.None? && o.Change? ==> m'.version == m.version ==> Changes(w, w', id, m', at))
  {}

  // ---- Attachments ---------------------------------------------------------------------------------------

  // The new attachments stand behind the old ones.
  ghost predicate Attaches(w: World, w': World, e: Option<Error>, owner: Id, id: Id, expected: int, uploads: seq<Id>, at: Moment) {
    && (e.None? <==> uploads != [] && CanLoad(w, owner, id, expected) && w.messages[id].trashed.None? && MayTake(w.rest, owner, uploads))
    && if e.Some? then w' == w
       else
         && Taken(w.rest, w'.rest, uploads) && id in w'.messages
         && var m := w.messages[id]; var m' := w'.messages[id]; var n := |m.attachments|;
         && w'.messages == w.messages[id := m'] && m' == m.(attachments := m'.attachments, version := m.version + 1, updated := at.now)
         && |m'.attachments| == n + |uploads| && m'.attachments[..n] == m.attachments
         && forall i | 0 <= i < |uploads| ::
              && m'.attachments[n + i].file == w.rest.uploads[uploads[i]].file.value && m'.attachments[n + i].id == w.next + i < w'.next
              && m'.attachments[n + i].order == m'.attachments[n].order + i
              && forall j | 0 <= j < n :: m.attachments[j].order < m'.attachments[n + i].order
  }

  lemma AttachEffect(x: Cipher, w: World, owner: Id, id: Id, expected: int, uploads: seq<Id>, at: Moment)
    ensures var (w', e) := Apply(x, w, Attach(owner, id, expected, uploads, at)); Attaches(w, w', e, owner, id, expected, uploads, at)
  {
    BindErrorMeaning(w.rest, owner, uploads);
  }

  // One attachment goes, unless nothing would be left; the others keep their order.
  ghost predicate Detaches(w: World, w': World, e: Option<Error>, owner: Id, id: Id, expected: int, attachment: Id, at: Moment) {
    && (e.None? <==>
          && CanLoad(w, owner, id, expected) && var m := w.messages[id];
          && m.trashed.None? && (exists a :: a in m.attachments && a.id == attachment)
          && (m.plain.Some? || m.cipher.Some? || |m.attachments| >= 2))
    && if e.Some? then w' == w
       else
         && id in w'.messages && var m := w.messages[id]; var m' := w'.messages[id];
         && w' == w.(messages := w.messages[id := m']) && m' == m.(attachments := m'.attachments, version := m.version + 1, updated := at.now)
         && Ascending(m'.attachments) && forall a :: a in m'.attachments <==> a in m.attachments && a.id != attachment
  }

  predicate Ascending(attachments: seq<Attachment>) { forall i, j | 0 <= i < j < |attachments| :: attachments[i].order < attachments[j].order }

  lemma DetachEffect(x: Cipher, w: World, owner: Id, id: Id, expected: int, attachment: Id, at: Moment)
    requires WorldOk(x, w)
    ensures var (w', e) := Apply(x, w, Detach(owner, id, expected, attachment, at)); Detaches(w, w', e, owner, id, expected, attachment, at)
  {
    if CanLoad(w, owner, id, expected) {
      RowFacts(x, w, id);
      WithoutMeaning(w.messages[id].attachments, attachment, w.next);
      Detached(x, w, owner, id, expected, attachment, at);
    }
  }

  lemma Detached(x: Cipher, w: World, owner: Id, id: Id, expected: int, attachment: Id, at: Moment)
    requires CanLoad(w, owner, id, expected)
    ensures var (w', e) := Apply(x, w, Detach(owner, id, expected, attachment, at)); var m := w.messages[id];
            && (e.None? <==> m.trashed.None? && HasAttachment(m.attachments, attachment) && (m.plain.Some? || m.cipher.Some? || |m.attachments| >= 2))
            && w' == if e.Some? then w else w.(messages := w.messages[
                 id := m.(attachments := Without(m.attachments, attachment), version := m.version + 1, updated := at.now)])
  {}

  lemma RowFacts(x: Cipher, w: World, id: Id)
    requires WorldOk(x, w) && id in w.messages
    ensures LifeOk(w.messages[id]) && ListOk(w.messages[id].attachments, w.next)
  {
    assert RowOk(x, w, id, w.messages[id]);
  }

  lemma WithoutMeaning(attachments: seq<Attachment>, id: Id, next: Id)
    requires ListOk(attachments, next)
    ensures HasAttachment(attachments, id) <==> exists a :: a in attachments && a.id == id
    ensures Ascending(Without(attachments, id)) && forall a :: a in Without(attachments, id) <==> a in attachments && a.id != id
  {
    WithoutMembers(attachments, id);
    WithoutOk(attachments, id, next);
    if a :| a in attachments && a.id == id {
      var i :| 0 <= i < |attachments| && attachments[i] == a;
      assert HasAttachment(attachments, id);
    }
  }

  // ---- The scheduler ---------------------------------------------------------------------------------------

  // An untrashed temporary message whose time has come; a trashed one.
  predicate Lapsed(m: Message, now: int) { !m.permanent && m.trashed.None? && m.expires.Some? && m.expires.value <= now }

  predicate Overdue(m: Message, now: int) { m.purge.Some? && m.purge.value <= now }

  // Exactly the messages of `done` went to the trash, for the period now in force.
  ghost predicate Expires(w: World, w': World, done: set<Id>, at: Moment) {
    && w'.rest == w.rest && w'.next == w.next && w'.messages.Keys == w.messages.Keys
    && (forall id | id in done :: id in w.messages && Lapsed(w.messages[id], at.now))
    && forall id | id in w.messages ::
         w'.messages[id] == if id in done
           then w.messages[id].(trashed := Some(at.now), purge := Some(at.now + at.trashTtl), version := w.messages[id].version + 1, updated := at.now)
           else w.messages[id]
  }

  lemma ExpireEffect(x: Cipher, w: World, done: set<Id>, at: Moment)
    ensures (forall id :: id in Due(w, at) <==> id in w.messages && Lapsed(w.messages[id], at.now))
    ensures done <= Due(w, at) ==> Expires(w, Apply(x, w, Expire(done, at)).0, done, at)
  {}

  ghost predicate Purges(w: World, w': World, done: set<Id>, at: Moment) {
    && (forall id | id in done :: id in w.messages && Overdue(w.messages[id], at.now)) && w' == w.(messages := w.messages - done)
  }

  lemma PurgeEffect(x: Cipher, w: World, done: set<Id>, at: Moment)
    ensures (forall id :: id in Purgeable(w, at) <==> id in w.messages && Overdue(w.messages[id], at.now))
    ensures done <= Purgeable(w, at) ==> Purges(w, Apply(x, w, Purge(done, at)).0, done, at)
  {
    if done <= Purgeable(w, at) { assert done * Purgeable(w, at) == done; }
  }
}
