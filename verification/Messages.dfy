/** The life of a message: internal/messages/service.go and attachments.go, and the scheduler's expiry
    and purge batches (internal/jobs/scheduler.go). Each operation is one transaction under the message's
    row lock. */
module Messages {
  import opened Basics
  import Tokens

  type Id = nat

  const NIL: Id := 0
  const MaxBodyBytes := 0x10_0000
  const DAY := 24 * 60 * 60

  // The attachments of a message are listed in display order.
  datatype Attachment = Attachment(id: Id, file: Id, order: nat)
  datatype Message = Message(
    owner: Id, title: Option<string>, plain: Option<string>, cipher: Option<nat>, markdown: bool,
    detectedType: Option<string>, detectedLanguage: Option<string>, sensitive: bool, permanent: bool, favorite: bool,
    expires: Option<int>, trashed: Option<int>, purge: Option<int>, version: int, created: int, updated: int,
    tags: set<Id>, attachments: seq<Attachment>)

  datatype Upload = Upload(owner: Id, file: Option<Id>, completed: bool, consumed: bool)

  datatype Error =
    | Validation | NotFound | VersionConflict | Trashed | NotTrashed | NotTemporary | NotSensitive
    | FavoriteRequiresPermanent | ContentRequired | UploadConsumed | RecipientUnavailable | CipherFailed

  // AES-GCM bound to message and owner; `nonce` is the random draw.
  datatype Cipher = Cipher(encrypt: (Id, Id, string, nat) -> Option<nat>, decrypt: (Id, Id, nat) -> Option<string>)

  ghost predicate Faithful(x: Cipher) {
    forall id, owner, body, nonce :: x.encrypt(id, owner, body, nonce).Some? ==>
      x.decrypt(id, owner, x.encrypt(id, owner, body, nonce).value) == Some(body)
  }

  // The clock reading and the settings an operation works with.
  datatype Moment = Moment(now: int, temporaryTtl: nat, trashTtl: nat)

  predicate ValidBody(body: string) { body != "" && Tokens.Bytes(body) <= MaxBodyBytes }

  datatype Field = Untouched | Set(value: Option<string>)

  function Put(field: Field, old_: Option<string>): Option<string> { if field.Set? then field.value else old_ }

  // normalizeTitle; a blank title is no title.
  function Title(title: Option<string>): Option<string> {
    if title.None? || Tokens.Trim(title.value) == "" then None else Some(Tokens.Trim(title.value))
  }

  predicate TitleFits(title: Option<string>) { Title(title).Some? ==> |Title(title).value| <= 200 }

  // ---- Changing one message ------------------------------------------------------------------------

  datatype Command =
    | Edit(body: Option<string>, clear: bool, format: Option<bool>, title: Field, detectedType: Field, detectedLanguage: Field)
    | MakePermanent | ExtendExpiry(days: int) | SetFavorite(favorite: bool) | Trash | Restore
    | SetSensitive(sensitive: bool, nonce: nat) | EditSensitive(newTitle: Field, newBody: string, nonce: nat)
    | ReplaceTags(ids: seq<Id>)

  // What is refused before the message is even looked at.
  predicate WellFormed(c: Command) {
    match c
    case Edit(body, clear, format, title, dt, dl) =>
      && !(body.None? && !clear && format.None? && title.Untouched? && dt.Untouched? && dl.Untouched?)
      && (body.Some? ==> ValidBody(body.value)) && (title.Set? ==> TitleFits(title.value))
      && (dt.Set? && dt.value.Some? ==> |dt.value.value| <= 64) && (dl.Set? && dl.value.Some? ==> |dl.value.value| <= 64)
    case ExtendExpiry(days) => days in {1, 3, 7}
    case EditSensitive(title, body, _) => ValidBody(body) && (title.Set? ==> TitleFits(title.value))
    case _ => true
  }

  datatype Outcome = Keep | Change(m: Message) | Refuse(error: Error)

  function Unless(m: Message, m': Message): Outcome { if m' == m then Keep else Change(m') }

  function Normal(title: Field): Field { if title.Set? then Set(Title(title.value)) else title }

  function Elements(ids: seq<Id>): set<Id> { set i | i in ids }

  // Tags must be distinct, real and the owner's.
  predicate TagsFit(ids: seq<Id>, owned: set<Id>) {
    NIL !in ids && |Elements(ids)| == |ids| && forall t | t in ids :: t in owned
  }

  // What each command makes of a message; `owned` are the owner's tags.
  function Decide(x: Cipher, id: Id, m: Message, c: Command, at: Moment, owned: set<Id>): Outcome {
    if m.trashed.Some? && !c.Trash? && !c.Restore? then Refuse(Trashed) else
    match c
    case Edit(body, clear, format, title, dt, dl) =>
      if m.sensitive && (body.Some? || clear) then Refuse(Validation)
      else if clear && m.attachments == [] then Refuse(ContentRequired)
      else Unless(m, m.(
        title := Put(Normal(title), m.title),
        plain := if clear then None else if body.Some? && m.plain.Some? then body else m.plain,
        markdown := if format.Some? then format.value else m.markdown,
        detectedType := Put(dt, m.detectedType), detectedLanguage := Put(dl, m.detectedLanguage)))
    case MakePermanent => Unless(m, m.(permanent := true, expires := if m.permanent then m.expires else None))
    case ExtendExpiry(days) =>
      if m.permanent || m.expires.None? then Refuse(NotTemporary) else Change(m.(expires := Some(m.expires.value + days * DAY)))
    case SetFavorite(favorite) =>
      if favorite && !m.permanent then Refuse(FavoriteRequiresPermanent) else Unless(m, m.(favorite := favorite))
    case Trash => if m.trashed.Some? then Keep else Change(m.(trashed := Some(at.now), purge := Some(at.now + at.trashTtl)))
    case Restore =>
      if m.trashed.None? then Refuse(NotTrashed)
      else Change(m.(trashed := None, purge := None,
                     expires := if m.permanent then None
                                else if m.expires.Some? && m.expires.value > at.now then m.expires else Some(at.now + at.temporaryTtl)))
    case SetSensitive(sensitive, nonce) =>
      if m.sensitive == sensitive then Keep
      else if sensitive then
        if m.plain.None? || !ValidBody(m.plain.value) then Refuse(Validation)
        else
          var sealed := x.encrypt(id, m.owner, m.plain.value, nonce);
          if sealed.None? then Refuse(CipherFailed) else Change(m.(plain := None, cipher := sealed, sensitive := true))
      else if m.cipher.None? || x.decrypt(id, m.owner, m.cipher.value).None? then Refuse(CipherFailed)
      else Change(m.(plain := x.decrypt(id, m.owner, m.cipher.value), cipher := None, sensitive := false))
    case EditSensitive(title, body, nonce) =>
      if !m.sensitive then Refuse(NotSensitive)
      else if x.encrypt(id, m.owner, body, nonce).None? then Refuse(CipherFailed)
      else Change(m.(cipher := x.encrypt(id, m.owner, body, nonce), title := Put(Normal(title), m.title)))
    case ReplaceTags(ids) =>
      if !TagsFit(ids, owned) then Refuse(Validation) else Unless(m, m.(tags := Elements(ids)))
  }

  // ---- The tables ----------------------------------------------------------------------------------

  // What other parts of the server keep: uploads, READY objects, owners of tags, users who may receive.
  datatype Rest = Rest(uploads: map<Id, Upload>, ready: set<Id>, tags: map<Id, Id>, active: set<Id>)

  // `next` is the next unused identifier.
  datatype World = World(messages: map<Id, Message>, rest: Rest, next: Id)

  function Owned(rest: Rest, owner: Id): set<Id> { set t | t in rest.tags && rest.tags[t] == owner }

  datatype Draft = Draft(title: Option<string>, body: string, markdown: bool, sensitive: bool, uploads: seq<Id>, nonce: nat)

  datatype Op =
    | Create(owner: Id, draft: Draft, permanent: bool, ids: seq<Id>, at: Moment)
    | Direct(sender: Id, recipient: Id, draft: Draft, at: Moment)
    | Forward(sender: Id, source: Id, expected: int, recipient: Id, nonce: nat, at: Moment)
    | Mutate(owner: Id, id: Id, expected: int, c: Command, at: Moment)
    | Attach(owner: Id, id: Id, expected: int, uploads: seq<Id>, at: Moment)
    | Detach(owner: Id, id: Id, expected: int, attachment: Id, at: Moment)
    | Delete(owner: Id, id: Id)
    | Expire(due: set<Id>, at: Moment)      // one scheduler batch
    | Purge(due: set<Id>, at: Moment)
    | DropTag(owner: Id, tag: Id, at: Moment)
    | Elsewhere(rest: Rest)                 // other parts of the server; they neither delete tags nor give them away

  datatype Result<T> = Ok(value: T) | Err(error: Error)

  predicate DraftFits(d: Draft) {
    && TitleFits(d.title) && (d.body != "" ==> ValidBody(d.body)) && (d.body == "" ==> d.uploads != [] && !d.sensitive)
  }

  function NewMessage(x: Cipher, id: Id, owner: Id, title: Option<string>, body: string, markdown: bool, permanent: bool,
                      sensitive: bool, nonce: nat, at: Moment): Result<Message>
  {
    var m := Message(owner, title, None, None, markdown, None, None, sensitive, permanent, false,
                     if permanent then None else Some(at.now + at.temporaryTtl), None, None, 1, at.now, at.now, {}, []);
    if sensitive then
      if body == "" then Err(Validation)
      else if x.encrypt(id, owner, body, nonce).None? then Err(CipherFailed)
      else Ok(m.(cipher := x.encrypt(id, owner, body, nonce)))
    else Ok(m.(plain := if body == "" then None else Some(body)))
  }

  predicate Bindable(rest: Rest, u: Id)
    requires u in rest.uploads && rest.uploads[u].file.Some?
  { rest.uploads[u].completed && !rest.uploads[u].consumed && rest.uploads[u].file.value in rest.ready && rest.uploads[u].file.value != NIL }

  // SELECT ... WHERE user_id = $1 AND id = ANY($2), joined with the file objects.
  function Found(rest: Rest, owner: Id, ids: seq<Id>): set<Id> {
    set u | u in ids && u in rest.uploads && rest.uploads[u].owner == owner && rest.uploads[u].file.Some?
  }

  predicate Distinct(ids: seq<Id>) { forall i, j | 0 <= i < j < |ids| :: ids[i] != ids[j] }

  // The rows are read in id order; the first one that does not fit names the error.
  function BindError(rest: Rest, owner: Id, ids: seq<Id>): (e: Option<Error>)
    ensures e.None? ==> forall u | u in ids :: u in rest.uploads && rest.uploads[u].file.Some?
  {
    var found := Found(rest, owner, ids);
    var bad := set u | u in found && !Bindable(rest, u);
    if NIL in ids || !Distinct(ids) then Some(Validation)
    else if bad != {} then Some(if rest.uploads[Least(bad)].consumed then UploadConsumed else Validation)
    else if exists u :: u in ids && u !in found then Some(Validation)
    else None
  }

  function Attached(uploads: map<Id, Upload>, ids: seq<Id>, start: nat, next: Id): seq<Attachment>
    requires forall u | u in ids :: u in uploads && uploads[u].file.Some?
  {
    seq(|ids|, i requires 0 <= i < |ids| => Attachment(next + i, uploads[ids[i]].file.value, start + i))
  }

  function Consumed(uploads: map<Id, Upload>, ids: seq<Id>): map<Id, Upload> {
    map u | u in uploads :: if u in ids then uploads[u].(consumed := true) else uploads[u]
  }

  lemma {:induction false} LeastExists(s: set<nat>, n: nat)
    requires n in s
    ensures exists m :: m in s && forall k | k in s :: m <= k
    decreases n
  {
    if k :| k in s && k < n { LeastExists(s, k); }
  }

  function Least(s: set<nat>): (n: nat)
    requires s != {}
    ensures n in s && forall k | k in s :: n <= k
  {
    ghost var k :| k in s;
    LeastExists(s, k);
    var n :| n in s && forall k | k in s :: n <= k;
    n
  }

  // COALESCE(MAX(display_order) + 1, 0)
  function NextOrder(attachments: seq<Attachment>): (n: nat)
    ensures forall i | 0 <= i < |attachments| :: attachments[i].order < n
    ensures if attachments == [] then n == 0 else exists i :: 0 <= i < |attachments| && attachments[i].order + 1 == n
  {
    if attachments == [] then 0 else
      var rest := NextOrder(attachments[..|attachments| - 1]); var last := attachments[|attachments| - 1].order;
      if rest <= last then last + 1 else rest
  }

  function Copied(attachments: seq<Attachment>, next: Id): seq<Attachment> {
    seq(|attachments|, i requires 0 <= i < |attachments| => attachments[i].(id := next + i))
  }

  function Without(attachments: seq<Attachment>, id: Id): seq<Attachment> {
    if attachments == [] then []
    else if attachments[0].id == id then Without(attachments[1..], id)
    else [attachments[0]] + Without(attachments[1..], id)
  }

  predicate HasAttachment(attachments: seq<Attachment>, id: Id) { exists i :: 0 <= i < |attachments| && attachments[i].id == id }

  // ---- Operations ----------------------------------------------------------------------------------

  function Fail(w: World, e: Error): (World, Option<Error>) { (w, Some(e)) }

  function Save(w: World, id: Id, m: Message): (World, Option<Error>) { (w.(messages := w.messages[id := m]), None) }

  function Bumped(m: Message, at: Moment): Message { m.(version := m.version + 1, updated := at.now) }

  // loadOwned and the optimistic version check.
  function Load(w: World, owner: Id, id: Id, expected: int): Result<Message> {
    if expected < 1 then Err(Validation)
    else if id !in w.messages || w.messages[id].owner != owner then Err(NotFound)
    else if w.messages[id].version != expected then Err(VersionConflict)
    else Ok(w.messages[id])
  }

  function Insert(x: Cipher, w: World, sender: Id, owner: Id, d: Draft, permanent: bool, tags: seq<Id>, at: Moment): (World, Option<Error>) {
    var id := w.next;
    var made := NewMessage(x, id, owner, Title(d.title), d.body, d.markdown, permanent, d.sensitive, d.nonce, at);
    var bind := BindError(w.rest, sender, d.uploads);
    if made.Err? then Fail(w, made.error)
    else if bind.Some? then Fail(w, bind.value)
    else
      var m := made.value.(tags := Elements(tags), attachments := Attached(w.rest.uploads, d.uploads, 0, id + 1));
      (World(w.messages[id := m], w.rest.(uploads := Consumed(w.rest.uploads, d.uploads)), id + 1 + |d.uploads|), None)
  }

  // What a forwarded message carries on.
  function ForwardBody(x: Cipher, id: Id, m: Message): Result<string> {
    if m.sensitive then
      if m.cipher.None? || x.decrypt(id, m.owner, m.cipher.value).None? then Err(CipherFailed) else Ok(x.decrypt(id, m.owner, m.cipher.value).value)
    else if m.plain.Some? then Ok(m.plain.value)
    else if m.attachments == [] then Err(ContentRequired)
    else Ok("")
  }

  predicate AllReady(rest: Rest, attachments: seq<Attachment>) { forall i | 0 <= i < |attachments| :: attachments[i].file in rest.ready }

  function Due(w: World, at: Moment): set<Id> {
    set id | id in w.messages && !w.messages[id].permanent && w.messages[id].trashed.None?
             && w.messages[id].expires.Some? && w.messages[id].expires.value <= at.now
  }

  // UPDATE messages SET trashed_at, purge_at, version = version + 1, updated_at
  function Expired(messages: map<Id, Message>, ids: set<Id>, at: Moment): map<Id, Message> {
    map id | id in messages :: if id in ids
      then Bumped(messages[id].(trashed := Some(at.now), purge := Some(at.now + at.trashTtl)), at) else messages[id]
  }

  function Purgeable(w: World, at: Moment): set<Id> {
    set id | id in w.messages && w.messages[id].purge.Some? && w.messages[id].purge.value <= at.now
  }

  // The links of a deleted tag go with it; the owner's messages that had it move one version on.
  function Untagged(messages: map<Id, Message>, owner: Id, tag: Id, at: Moment): map<Id, Message> {
    map id | id in messages ::
      var m := messages[id]; var m' := m.(tags := m.tags - {tag});
      if tag in m.tags && m.owner == owner then Bumped(m', at) else m'
  }

  function Apply(x: Cipher, w: World, op: Op): (World, Option<Error>) {
    match op
    case Create(owner, d, permanent, tags, at) =>
      if !DraftFits(d) || !TagsFit(tags, Owned(w.rest, owner)) then Fail(w, Validation)
      else Insert(x, w, owner, owner, d, permanent, tags, at)
    case Direct(sender, recipient, d, at) =>
      if !DraftFits(d) then Fail(w, Validation)
      else if recipient !in w.rest.active then Fail(w, RecipientUnavailable)
      else Insert(x, w, sender, recipient, d, false, [], at)
    case Forward(sender, source, expected, recipient, nonce, at) =>
      var m := Load(w, sender, source, expected);
      if m.Err? then Fail(w, m.error)
      else if m.value.trashed.Some? then Fail(w, Trashed)
      else if recipient !in w.rest.active then Fail(w, RecipientUnavailable)
      else
        var body := ForwardBody(x, source, m.value);
        if body.Err? then Fail(w, body.error) else
        var made := NewMessage(x, w.next, recipient, m.value.title, body.value, m.value.markdown, false, m.value.sensitive, nonce, at);
        if made.Err? then Fail(w, made.error)
        else if !AllReady(w.rest, m.value.attachments) then Fail(w, Validation)
        else (World(w.messages[w.next := made.value.(attachments := Copied(m.value.attachments, w.next + 1))], w.rest,
                    w.next + 1 + |m.value.attachments|), None)
    case Mutate(owner, id, expected, c, at) =>
      if !WellFormed(c) then Fail(w, Validation) else
      var m := Load(w, owner, id, expected);
      if m.Err? then Fail(w, m.error) else
      (match Decide(x, id, m.value, c, at, Owned(w.rest, owner))
       case Refuse(e) => Fail(w, e)
       case Keep => (w, None)
       case Change(m') => Save(w, id, Bumped(m', at)))
    case Attach(owner, id, expected, uploads, at) =>
      if uploads == [] then Fail(w, Validation) else
      var m := Load(w, owner, id, expected);
      var bind := BindError(w.rest, owner, uploads);
      if m.Err? then Fail(w, m.error)
      else if m.value.trashed.Some? then Fail(w, Trashed)
      else if bind.Some? then Fail(w, bind.value)
      else
        var more := Attached(w.rest.uploads, uploads, NextOrder(m.value.attachments), w.next);
        (World(w.messages[id := Bumped(m.value.(attachments := m.value.attachments + more), at)],
               w.rest.(uploads := Consumed(w.rest.uploads, uploads)), w.next + |uploads|), None)
    case Detach(owner, id, expected, attachment, at) =>
      var m := Load(w, owner, id, expected);
      if m.Err? then Fail(w, m.error)
      else if m.value.trashed.Some? then Fail(w, Trashed)
      else if m.value.plain.None? && m.value.cipher.None? && |m.value.attachments| <= 1 then Fail(w, ContentRequired)
      else if !HasAttachment(m.value.attachments, attachment) then Fail(w, NotFound)
      else Save(w, id, Bumped(m.value.(attachments := Without(m.value.attachments, attachment)), at))
    case Delete(owner, id) =>
      if id !in w.messages || w.messages[id].owner != owner then Fail(w, NotFound)
      else if w.messages[id].trashed.None? then Fail(w, NotTrashed)
      else (w.(messages := w.messages - {id}), None)
    case Expire(due, at) =>
      (w.(messages := Expired(w.messages, due * Due(w, at), at)), None)
    case Purge(due, at) => (w.(messages := w.messages - (due * Purgeable(w, at))), None)
    case DropTag(owner, tag, at) =>
      if tag !in Owned(w.rest, owner) then Fail(w, NotFound)
      else (w.(messages := Untagged(w.messages, owner, tag, at), rest := w.rest.(tags := w.rest.tags - {tag})), None)
    case Elsewhere(rest) => (w.(rest := rest.(tags := rest.tags + w.rest.tags)), None)
  }

  // ---- The invariant -------------------------------------------------------------------------------

  // Distinct identifiers below `next`, distinct display orders, in display order.
  predicate ListOk(attachments: seq<Attachment>, next: Id) {
    && (forall i, j | 0 <= i < j < |attachments| :: attachments[i].order < attachments[j].order && attachments[i].id != attachments[j].id)
    && (forall i | 0 <= i < |attachments| :: attachments[i].id < next)
  }

  ghost predicate BodyOk(x: Cipher, id: Id, m: Message) {
    if m.sensitive then
      m.plain.None? && m.cipher.Some? && x.decrypt(id, m.owner, m.cipher.value).Some? && ValidBody(x.decrypt(id, m.owner, m.cipher.value).value)
    else m.cipher.None? && (m.plain.Some? ==> ValidBody(m.plain.value))
  }

  predicate LifeOk(m: Message) {
    && (m.permanent <==> m.expires.None?) && (m.favorite ==> m.permanent)
    && (m.trashed.Some? <==> m.purge.Some?) && m.version >= 1
  }

  predicate HasContent(m: Message) { m.plain.Some? || m.cipher.Some? || m.attachments != [] }

  ghost predicate MessageOk(x: Cipher, id: Id, m: Message) {
    BodyOk(x, id, m) && LifeOk(m) && HasContent(m)
  }

  ghost predicate RowOk(x: Cipher, w: World, id: Id, m: Message) {
    id < w.next && MessageOk(x, id, m) && ListOk(m.attachments, w.next) && TagsOk(w.rest, m)
  }

  // A message carries its owner's tags only.
  ghost predicate TagsOk(rest: Rest, m: Message) { forall t | t in m.tags :: t in rest.tags && rest.tags[t] == m.owner }

  ghost predicate WorldOk(x: Cipher, w: World) {
    forall id | id in w.messages :: RowOk(x, w, id, w.messages[id])
  }

  // ---- Every operation keeps it ---------------------------------------------------------------------

  lemma NewMessageOk(x: Cipher, id: Id, owner: Id, title: Option<string>, body: string, markdown: bool, permanent: bool,
                     sensitive: bool, nonce: nat, at: Moment)
    requires Faithful(x) && (body != "" ==> ValidBody(body))
    ensures var r := NewMessage(x, id, owner, title, body, markdown, permanent, sensitive, nonce, at); r.Ok? ==>
            var m := r.value;
            BodyOk(x, id, m) && LifeOk(m) && m.version == 1 && m.attachments == [] && (HasContent(m) <==> body != "")
  {}

  lemma DecideOk(x: Cipher, id: Id, m: Message, c: Command, at: Moment, owned: set<Id>)
    requires Faithful(x) && MessageOk(x, id, m) && WellFormed(c) && Decide(x, id, m, c, at, owned).Change?
    ensures var m' := Decide(x, id, m, c, at, owned).m;
            MessageOk(x, id, Bumped(m', at)) && m'.version == m.version && m'.owner == m.owner && m'.attachments == m.attachments
  {}

  lemma {:induction false} WithoutMembers(attachments: seq<Attachment>, id: Id)
    ensures forall a :: a in Without(attachments, id) <==> a in attachments && a.id != id
  {
    if attachments != [] {
      WithoutMembers(attachments[1..], id);
      assert attachments == [attachments[0]] + attachments[1..];
    }
  }

  lemma {:induction false} WithoutOk(attachments: seq<Attachment>, id: Id, next: Id)
    requires ListOk(attachments, next)
    ensures ListOk(Without(attachments, id), next)
  {
    if attachments != [] {
      var tail := attachments[1..];
      WithoutOk(tail, id, next);
      WithoutMembers(tail, id);
      forall a | a in tail ensures attachments[0].order < a.order && attachments[0].id != a.id {
        var i :| 0 <= i < |tail| && tail[i] == a;
        assert attachments[i + 1] == a;
      }
      if attachments[0].id != id { Prepend(attachments[0], Without(tail, id), next); }
    }
  }

  lemma Prepend(first: Attachment, rest: seq<Attachment>, next: Id)
    requires ListOk(rest, next) && first.id < next && forall a | a in rest :: first.order < a.order && first.id != a.id
    ensures ListOk([first] + rest, next)
  {}

  lemma {:induction false} WithoutLength(attachments: seq<Attachment>, id: Id, next: Id)
    requires ListOk(attachments, next)
    ensures |Without(attachments, id)| == |attachments| - (if HasAttachment(attachments, id) then 1 else 0)
  {
    if attachments != [] {
      var tail := attachments[1..];
      WithoutLength(tail, id, next);
      HasFirst(attachments, id);
      assert attachments[0].id == id ==> !HasAttachment(tail, id);
    }
  }

  lemma HasFirst(attachments: seq<Attachment>, id: Id)
    requires attachments != []
    ensures HasAttachment(attachments, id) <==> attachments[0].id == id || HasAttachment(attachments[1..], id)
  {
    var tail := attachments[1..];
    forall i | 0 <= i < |tail| ensures tail[i] == attachments[i + 1] {}
    forall i | 0 < i < |attachments| ensures attachments[i] == tail[i - 1] {}
  }

  lemma InsertOk(x: Cipher, w: World, sender: Id, owner: Id, d: Draft, permanent: bool, tags: seq<Id>, at: Moment)
    requires Faithful(x) && WorldOk(x, w) && DraftFits(d) && (tags != [] ==> sender == owner && TagsFit(tags, Owned(w.rest, owner)))
    ensures WorldOk(x, Insert(x, w, sender, owner, d, permanent, tags, at).0)
  {
    NewMessageOk(x, w.next, owner, Title(d.title), d.body, d.markdown, permanent, d.sensitive, d.nonce, at);
    if Insert(x, w, sender, owner, d, permanent, tags, at).1.None? {
      InsertedOk(x, w, Insert(x, w, sender, owner, d, permanent, tags, at).0, w.next);
    }
  }

  // One new message, and the others as they were.
  lemma InsertedOk(x: Cipher, w: World, w': World, id: Id)
    requires WorldOk(x, w) && w.next <= w'.next && w'.rest.tags == w.rest.tags && id in w'.messages && w'.messages == w.messages[id := w'.messages[id]]
    ensures RowOk(x, w', id, w'.messages[id]) ==> WorldOk(x, w')
  {}

  lemma ForwardOk(x: Cipher, w: World, op: Op)
    requires Faithful(x) && WorldOk(x, w) && op.Forward?
    ensures WorldOk(x, Apply(x, w, op).0)
  {
    var m := Load(w, op.sender, op.source, op.expected);
    if m.Ok? && ForwardBody(x, op.source, m.value).Ok? {
      NewMessageOk(x, w.next, op.recipient, m.value.title, ForwardBody(x, op.source, m.value).value, m.value.markdown, false,
                   m.value.sensitive, op.nonce, op.at);
    }
  }

  lemma MutateOk(x: Cipher, w: World, op: Op)
    requires Faithful(x) && WorldOk(x, w) && op.Mutate?
    ensures WorldOk(x, Apply(x, w, op).0)
  {
    var m := Load(w, op.owner, op.id, op.expected);
    if m.Ok? && WellFormed(op.c) && Decide(x, op.id, m.value, op.c, op.at, Owned(w.rest, op.owner)).Change? {
      DecideOk(x, op.id, m.value, op.c, op.at, Owned(w.rest, op.owner));
    }
  }

  lemma DetachOk(x: Cipher, w: World, op: Op)
    requires Faithful(x) && WorldOk(x, w) && op.Detach?
    ensures WorldOk(x, Apply(x, w, op).0)
  {
    var m := Load(w, op.owner, op.id, op.expected);
    if m.Ok? {
      WithoutOk(m.value.attachments, op.attachment, w.next);
      WithoutLength(m.value.attachments, op.attachment, w.next);
    }
  }

  lemma RefusedChangesNothing(x: Cipher, w: World, op: Op)
    ensures Apply(x, w, op).1.Some? ==> Apply(x, w, op).0 == w
  {}

  /** Every operation, accepted or refused, keeps every message well-formed. */
  lemma ApplyOk(x: Cipher, w: World, op: Op)
    requires Faithful(x) && WorldOk(x, w)
    ensures WorldOk(x, Apply(x, w, op).0)
  {
    match op
    case Create(owner, d, permanent, tags, at) => if DraftFits(d) && TagsFit(tags, Owned(w.rest, owner)) { InsertOk(x, w, owner, owner, d, permanent, tags, at); }
    case Direct(sender, recipient, d, at) => if DraftFits(d) { InsertOk(x, w, sender, recipient, d, false, [], at); }
    case Forward(_, _, _, _, _, _) => ForwardOk(x, w, op);
    case Mutate(_, _, _, _, _) => MutateOk(x, w, op);
    case Detach(_, _, _, _, _) => DetachOk(x, w, op);
    case Attach(_, _, _, _, _) => AttachOk(x, w, op);
    case Delete(_, _) =>
    case Expire(_, _) => ExpireOk(x, w, op);
    case Purge(_, _) =>
    case DropTag(owner, tag, at) => if Apply(x, w, op).1.None? { DropTagOk(x, w, owner, tag, at); }
    case Elsewhere(_) =>
  }

  /** Deleting a tag takes it off every message, and exactly the messages that had it move one version on, so that whoever saw
      them with the tag has to look again. */
  lemma DropTagOk(x: Cipher, w: World, owner: Id, tag: Id, at: Moment)
    requires WorldOk(x, w) && Apply(x, w, DropTag(owner, tag, at)).1.None?
    ensures var w' := Apply(x, w, DropTag(owner, tag, at)).0;
            && WorldOk(x, w') && w'.messages.Keys == w.messages.Keys
            && forall id | id in w.messages :: tag !in w'.messages[id].tags && w'.messages[id] == UntaggedOne(w.messages[id], tag, at)
  {
    var w' := Apply(x, w, DropTag(owner, tag, at)).0;
    forall id | id in w.messages
      ensures tag !in w'.messages[id].tags && w'.messages[id] == UntaggedOne(w.messages[id], tag, at)
      ensures MessageOk(x, id, w'.messages[id]) && ListOk(w'.messages[id].attachments, w.next) && TagsOk(w'.rest, w'.messages[id])
    {
      assert TagsOk(w.rest, w.messages[id]);
      UntaggedOk(x, id, w.messages[id], tag, at, w.rest);
    }
  }

  function UntaggedOne(m: Message, tag: Id, at: Moment): Message { if tag in m.tags then Bumped(m.(tags := m.tags - {tag}), at) else m }

  lemma UntaggedOk(x: Cipher, id: Id, m: Message, tag: Id, at: Moment, rest: Rest)
    requires MessageOk(x, id, m) && TagsOk(rest, m)
    ensures var m' := UntaggedOne(m, tag, at); MessageOk(x, id, m') && TagsOk(rest.(tags := rest.tags - {tag}), m')
    ensures tag !in m.tags ==> m.(tags := m.tags - {tag}) == m
  {
    if tag !in m.tags { assert m.tags - {tag} == m.tags; }
  }

  lemma AttachOk(x: Cipher, w: World, op: Op)
    requires WorldOk(x, w) && op.Attach?
    ensures WorldOk(x, Apply(x, w, op).0)
  {}

  lemma ExpireOk(x: Cipher, w: World, op: Op)
    requires WorldOk(x, w) && op.Expire?
    ensures WorldOk(x, Apply(x, w, op).0)
  {}
}
