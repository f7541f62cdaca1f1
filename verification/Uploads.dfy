/** internal/uploads/service.go and finalize.go as they run: one thread writing a part, or completing and
    finalizing an upload, with any operation failing and other threads changing everything its locks do not
    protect between any two operations. Every operation is proved to be a step of Pipeline, taken in the order
    the protocol demands. */
module Uploads {
  import opened Basics
  import opened Parts
  import opened Sums
  import opened Pipeline
  import opened Keyset

  // One protocol step as it happened.
  datatype Entry = Entry(before: World, th: Thread, act: Act, th': Option<Thread>, after: World)

  // The step is allowed whatever the other threads are; a lock is entered when it is free.
  ghost predicate Allowed(c: Config, e: Entry)
    requires c.chunk > 0
  {
    && (e.act.KeyDo? ==> e.th.Finishing? && e.th.pc.Hashed?)
    && forall threads: map<nat, Thread> | e.act.KeyDo? ==> ContentFree(State(e.before, threads), e.th.pc.sha, e.th.size) ::
         ThreadStep(c, State(e.before, threads), e.after, e.th, e.th', e.act)
  }

  // The steps of one thread, one after the other; in between, others may have changed the world.
  ghost predicate IsPath(c: Config, log: seq<Entry>)
    requires c.chunk > 0
  {
    && (forall i | 0 <= i < |log| :: Allowed(c, log[i]))
    && (forall i | 0 < i < |log| :: log[i - 1].th' == Some(log[i].th))
  }

  // Other threads never touch a staging file whose exclusive lock is held.
  ghost predicate Respectful(others: (nat, World) -> World, u: Id) {
    forall n, w :: SameStage(w, others(n, w), u)
  }

  datatype Reservation = Made(id: Id) | Existing(id: Id, ready: bool) | NotReserved | OverQuota

  datatype Result = Completed(file: Id) | Already | Rejected(error: Refusal) | Corrupt | Retryable | Quota

  datatype Refusal = NotFound | TooLate | InvalidState | OutOfRange | SizeMismatch | StreamBroken | Incomplete | Unavailable

  // While a part of upload u is locked, nobody changes the length of its staging file, which is the declared size.
  ghost predicate Intact(w: World, u: Id) {
    u in w.sessions && Open(w.sessions[u].status) ==> u in w.staging && |w.staging[u].bytes| == w.sessions[u].size == |w.staging[u].clean|
  }

  ghost predicate SameLength(x: World, y: World, u: Id) {
    u in x.staging && |x.staging[u].clean| == |x.staging[u].bytes| ==>
      u in y.staging && |y.staging[u].bytes| == |x.staging[u].bytes| == |y.staging[u].clean|
  }

  ghost predicate Sharing(others: (nat, World) -> World, u: Id) {
    forall n, w :: (Intact(w, u) ==> Intact(others(n, w), u)) && SameLength(w, others(n, w), u)
  }

  // What PutPart reads: the bytes that arrive, and whether the stream then ends or breaks.
  datatype Stream = Stream(bytes: Bytes, broken: bool)

  // The two transactions that complete an upload.
  predicate Completes(act: Act) { act == FinDo(FinLink) || act == OwnDo(OwnReady) }

  // The transaction in which the upload was completed with this file.
  ghost predicate CompletedBy(e: Entry, u: Id, file: Id) {
    && Completes(e.act)
    && u in e.before.sessions && e.before.sessions[u].status == Completing
    && u in e.after.sessions && e.after.sessions[u].status == SessionStatus.Completed && e.after.sessions[u].file == Some(file)
    && HasRow(e.after.objects, file, Ready)
  }

  // The transaction that marked part k of upload u with this body.
  ghost predicate CommittedBy(e: Entry, u: Id, k: nat, body: Bytes) {
    && e.act == PutDo(PutCommit) && (u, k) in e.after.parts && e.after.parts[(u, k)] == |body|
    && (u, k) in e.after.written && e.after.written[(u, k)] == body
    && u in e.before.sessions && Open(e.before.sessions[u].status)
  }

  ghost predicate NotCommitted(from: seq<Entry>, to: seq<Entry>) {
    from <= to && forall i | |from| <= i < |to| :: to[i].act != PutDo(PutCommit)
  }

  // ---- What happens when nothing fails and nobody interferes ----------------------------------------

  predicate Accepting(w: World, u: Id) { u in w.sessions && Open(w.sessions[u].status) && w.sessions[u].expires > w.clock }

  // PutPart's conditions for committing part k.
  predicate PartFits(c: Config, w: World, u: Id, k: nat, contentLength: int)
    requires c.chunk > 0
  {
    && Accepting(w, u) && k < PartCount(w.sessions[u].size, c.chunk) && (contentLength < 0 || contentLength == PartSize(w.sessions[u].size, c.chunk, k))
  }

  predicate Delivers(c: Config, size: nat, k: nat, body: Stream)
    requires c.chunk > 0
  { |body.bytes| == PartLength(c, size, k) && !body.broken }

  // Why PutPart refuses before it reads anything.
  ghost predicate PutRefuses(c: Config, w: World, u: Id, k: nat, r: Option<Refusal>)
    requires c.chunk > 0
  {
    if u !in w.sessions then r == Some(NotFound) else
      var x := w.sessions[u];
      if x.expires <= w.clock || x.status.Expired? then r == Some(TooLate)
      else if x.status != Created && x.status != Uploading then r == Some(InvalidState)
      else r == Some(if k >= PartCount(x.size, c.chunk) then OutOfRange else SizeMismatch)
  }

  // The bytes from offset on are data; nothing else changed in any staging file.
  ghost predicate Patched(m: map<Id, StageFile>, m': map<Id, StageFile>, u: Id, offset: nat, data: Bytes) {
    && m'.Keys == m.Keys && (forall v | v in m && v != u :: m'[v] == m[v])
    && u in m && offset + |data| <= |m[u].bytes| && m'[u].bytes == Overwrite(m[u].bytes, offset, data)
  }

  // What arrives goes to the part's place in the file, up to the part's length. The part counts exactly when all of it came.
  ghost predicate PutStores(c: Config, w: World, w': World, u: Id, k: nat, body: Stream, r: Option<Refusal>)
    requires c.chunk > 0 && u in w.sessions
  {
    var x := w.sessions[u]; var n := PartLength(c, x.size, k);
    && Patched(w.staging, w'.staging, u, k * c.chunk, if |body.bytes| <= n then body.bytes else body.bytes[..n])
    && if Delivers(c, x.size, k, body) then
         r == None && w' == SetSession(w, u, x.(status := Uploading)).(staging := w'.staging, parts := w.parts[(u, k) := n],
                                                                      written := w.written[(u, k) := body.bytes])
       else
         r == Some(if body.broken && |body.bytes| <= n then StreamBroken else SizeMismatch)
         && w' == w.(staging := w'.staging, parts := w.parts - {(u, k)})
  }

  // Nothing refers to the waiting row.
  ghost predicate Droppable(w: World, id: Id) {
    HasRow(w.objects, id, Pending) && !Referenced(w, id) && forall v | v in w.sessions :: w.sessions[v].file != Some(id)
  }

  predicate InStage(w: World, u: Id, size: nat) { u in w.staging && |w.staging[u].bytes| == size }

  predicate Waiting(w: World, u: Id) { u in w.sessions && w.sessions[u].status == Completing }

  predicate Stored(c: Config, w: World, id: Id, sha: nat, size: nat) {
    id in w.finals && |w.finals[id].bytes| == size && c.hash(w.finals[id].bytes) == sha
  }

  // The upload completed with a READY object, its staging file gone.
  function Served(w: World, u: Id, id: Id): World
    requires u in w.sessions
  { DropStageFile(Finished(w, u, id), u) }

  function WithRow(w: World, id: Id, sha: nat, size: nat): World {
    w.(used := w.used + {id}, objects := w.objects[id := Object(sha, size, Pending, 0)])
  }

  function Moved(w: World, id: Id): World
    requires id in w.temps
  { DropTemp(w, id).(finals := w.finals[id := w.temps[id]]) }

  // A new object: reserved, written, synced, renamed, published.
  function NewlyServed(w: World, u: Id, id: Id, sha: nat, size: nat, bytes: Bytes): World
    requires u in w.sessions
  {
    var r := WithRow(w, id, sha, size);
    Served(Promoted(Moved(r.(temps := r.temps[id := Blob(bytes, true)]), id), id), u, id)
  }

  // The commit temp, created empty in w, holds the first n bytes of the staging file.
  ghost predicate Copied(w: World, w': World, u: Id, id: Id, n: nat) {
    u in w.staging && n <= |w.staging[u].bytes| && id in w.temps && w.temps[id] == Blob([], false) ==>
      w' == w.(temps := w.temps[id := Blob(w.staging[u].bytes[..n], false)])
  }

  ghost predicate CopiedWhole(w: World, w': World, u: Id, id: Id)
    requires u in w.staging
  {
    id in w.temps && w.temps[id] == Blob([], false) ==> w' == w.(temps := w.temps[id := Blob(w.staging[u].bytes, false)])
  }

  predicate OverBudget(quota: Option<nat>, size: nat, stored: nat) {
    quota.Some? && (size > quota.value || stored > quota.value - size)
  }

  // Nothing stored yet: store it, unless the quota refuses.
  ghost predicate StoresNew(w: World, w': World, quota: Option<nat>, u: Id, id: Id, sha: nat, size: nat, bytes: Bytes, r: Result)
    requires u in w.sessions
  {
    if OverBudget(quota, size, StoredBytes(w.objects)) then r == Quota && w' == w
    else r == Result.Completed(id) && w' == NewlyServed(w, u, id, sha, size, bytes)
  }

  ghost predicate Reconciled(c: Config, w: World, w': World, id: Id, sha: nat, size: nat, found: Option<bool>)
    requires id in w.objects
  {
    var v := DropTemp(w, id);
    if id in w.finals then
      if Stored(c, w, id, sha, size) then found == Some(true) && w' == Promoted(w, id) else found == None && w' == w
    else if Droppable(v, id) then found == Some(false) && w' == WithoutObject(v, id)
    else found == None && w' == v
  }

  // A waiting reservation of the same content, left by a crash or a failure.
  ghost predicate TakesOver(c: Config, w: World, w': World, quota: Option<nat>, u: Id, row: Id, id: Id, sha: nat, size: nat, bytes: Bytes, r: Result)
    requires u in w.sessions && row in w.objects
  {
    if row in w.finals then
      if Stored(c, w, row, sha, size) then r == Result.Completed(row) && w' == Served(Promoted(w, row), u, row) else r == Retryable && w' == w
    else if Droppable(DropTemp(w, row), row) then StoresNew(WithoutObject(DropTemp(w, row), row), w', quota, u, id, sha, size, bytes, r)
    else r == Retryable && w' == DropTemp(w, row)
  }

  ghost predicate SharesTo(c: Config, w: World, w': World, quota: Option<nat>, u: Id, row: Id, id: Id, sha: nat, size: nat, bytes: Bytes, r: Result)
    requires u in w.sessions && row in w.objects
  {
    match w.objects[row].status
    case Deleting => r == Retryable && w' == w
    case Ready => r == Result.Completed(row) && w' == Served(w, u, row)
    case Pending => TakesOver(c, w, w', quota, u, row, id, sha, size, bytes, r)
  }

  // What Finalize makes of the world: by the state of the row with the content's hash and size, if there is one.
  ghost predicate FinalizesTo(c: Config, w: World, w': World, quota: Option<nat>, u: Id, id: Id, size: nat, r: Result)
    requires u in w.sessions && u in w.staging
  {
    var bytes := w.staging[u].bytes; var sha := c.hash(bytes);
    && (NoRow(w.objects, sha, size) ==> StoresNew(w, w', quota, u, id, sha, size, bytes, r))
    && forall row | IsRow(w.objects, row, sha, size) :: SharesTo(c, w, w', quota, u, row, id, sha, size, bytes, r)
  }

  // Validation in one transaction, the staging file being in place.
  ghost predicate SealsTo(c: Config, w: World, w': World, u: Id, r: Option<Result>, size: nat)
    requires c.chunk > 0 && u in w.sessions && u in w.staging
  {
    && (r.None? <==> Acceptable(c, w, u)) && (!AllParts(c, w, u) ==> r == Some(Rejected(Incomplete)))
    && if r.None? then size == w.sessions[u].size && w' == Sealed(c, w, u).(staging := w.staging) else w' == w
  }

  // Complete goes on to finalize exactly an upload that is acceptable or was accepted before.
  ghost predicate AcceptsTo(c: Config, w: World, w': World, u: Id, r: Option<Result>, size: nat)
    requires c.chunk > 0
  {
    && (r.None? <==> Waiting(w, u) || Acceptable(c, w, u))
    && (Waiting(w, u) ==> w' == w && size == w.sessions[u].size)
    && (Acceptable(c, w, u) ==> w' == Sealed(c, w, u) && size == w.sessions[u].size)
    && (r.Some? ==> AnswersByRow(c, w, w', u, r.value))
  }

  // What Complete makes of the world.
  ghost predicate CompletesTo(c: Config, w: World, w': World, quota: Option<nat>, u: Id, id: Id, r: Result)
    requires c.chunk > 0
  {
    && (Waiting(w, u) && InStage(w, u, w.sessions[u].size) ==> FinalizesTo(c, w, w', quota, u, id, w.sessions[u].size, r))
    && (Acceptable(c, w, u) ==> FinalizesTo(c, Sealed(c, w, u), w', quota, u, id, w.sessions[u].size, r))
    && (!Waiting(w, u) && !Acceptable(c, w, u) ==> !r.Completed?)
  }

  // COMPLETING becomes FAILED: the staging file is of no use.
  function Abandoned(w: World, u: Id): World
    requires u in w.sessions
  { SetSession(w, u, w.sessions[u].(status := Failed)) }

  // How Complete answers for an upload it does not finalize, by the session's row, its staging file and its parts.
  ghost predicate AnswersByRow(c: Config, w: World, w': World, u: Id, r: Result)
    requires c.chunk > 0
  {
    if u !in w.sessions then r == Rejected(NotFound) && w' == w else
      var x := w.sessions[u];
      match x.status
      case Completed => r == Already && w' == w
      case Expired => r == Rejected(TooLate) && w' == w
      case Failed => r == Rejected(if x.expires <= w.clock then TooLate else InvalidState) && w' == w
      case Completing => !InStage(w, u, x.size) ==> r == Corrupt && w' == Abandoned(w, u)
      case _ =>
        if x.expires <= w.clock then r == Rejected(TooLate) && w' == w
        else if !InStage(w, u, x.size) then r == Corrupt && w' == w
        else !AllParts(c, w, u) ==> r == Rejected(Incomplete) && w' == SetStage(w, u, SyncStage(w.staging[u]))
  }

  ghost predicate OnlyRow(w: World, row: Id)
    requires row in w.objects
  { forall i | IsRow(w.objects, i, w.objects[row].sha, w.objects[row].size) :: i == row }

  // What looking for the content's row finds, if there is one.
  ghost predicate FoundRow(c: Config, w: World, w': World, row: Id, sha: nat, size: nat, found: Option<Option<Id>>)
    requires row in w.objects
  {
    match w.objects[row].status
    case Deleting => found == None && w' == w
    case Ready => found == Some(Some(row)) && w' == w
    case Pending =>
      exists kept: Option<bool> :: Reconciled(c, w, w', row, sha, size, kept)
        && found == if kept.None? then None else Some(if kept.value then Some(row) else None)
  }

  ghost predicate FindsTo(c: Config, w: World, w': World, sha: nat, size: nat, found: Option<Option<Id>>) {
    && (NoRow(w.objects, sha, size) ==> found == Some(None) && w' == w)
    && forall row | IsRow(w.objects, row, sha, size) && OnlyRow(w, row) :: FoundRow(c, w, w', row, sha, size, found)
  }

  // Tables that keep UNIQUE (sha256, size_bytes), and an unused identifier.
  ghost predicate Orderly(w: World, id: Id) {
    && id !in w.used && (forall i | i in w.finals :: i in w.used)
    && forall i, j | i in w.objects && IsRow(w.objects, j, w.objects[i].sha, w.objects[i].size) :: i == j
  }

  // An upload waiting to be finalized.
  ghost predicate ReadyToFinalize(w: World, u: Id, size: nat, id: Id) { Waiting(w, u) && InStage(w, u, size) && Orderly(w, id) }

  // What Complete accepts: an open, unexpired upload whose file and parts are all there.
  ghost predicate Acceptable(c: Config, w: World, u: Id)
    requires c.chunk > 0
  { Accepting(w, u) && InStage(w, u, w.sessions[u].size) && AllParts(c, w, u) }

  // ... and what it makes of it: synced, COMPLETING, its content settled.
  function Sealed(c: Config, w: World, u: Id): World
    requires c.chunk > 0 && u in w.sessions && u in w.staging
  {
    SetSession(SetStage(w, u, SyncStage(w.staging[u])), u, w.sessions[u].(status := Completing)).(
      sealed := w.sealed[u := Joined(w.written, u, PartCount(w.sessions[u].size, c.chunk))])
  }

  // More steps were taken, none of which completes an upload.
  ghost predicate Quiet(from: seq<Entry>, to: seq<Entry>) { from <= to && forall i | |from| <= i < |to| :: !Completes(to[i].act) }

  class Server {
    var w: World
    var ticks: nat
    const c: Config
    const quota: Option<nat>
    const others: (nat, World) -> World   // what the other threads do meanwhile
    const fails: nat -> bool              // which operations fail
    const lands: nat -> bool              // which failing renames take effect all the same
    const chunks: nat -> nat              // how much each read returns

    ghost var th: Option<Thread>
    ghost var log: seq<Entry>

    constructor (w: World, c: Config, quota: Option<nat>, others: (nat, World) -> World, fails: nat -> bool, lands: nat -> bool,
                 chunks: nat -> nat, ghost th: Thread)
      requires c.chunk > 0
      ensures Valid() && this.w == w && this.th == Some(th) && log == []
      ensures this.c == c && this.quota == quota && this.others == others
    {
      this.w, this.c, this.quota, this.others, this.fails, this.lands, this.chunks := w, c, quota, others, fails, lands, chunks;
      ticks, this.th, log := 0, Some(th), [];
    }

    ghost predicate Valid()
      reads this
    { c.chunk > 0 && IsPath(c, log) && (log != [] ==> log[|log| - 1].th' == th) }

    // Holding upload u at `pc`.
    ghost predicate At(u: Id, size: nat, pc: FinPc)
      reads this
    { Valid() && Respectful(others, u) && th == Some(Finishing(u, size, pc)) }

    // Nothing fails and nobody else does anything.
    ghost predicate Calm() { (forall n :: !fails(n)) && forall n, v :: others(n, v) == v }

    // The next operation starts: others have run, and it may fail.
    method Op(ghost u: Id) returns (ok: bool)
      requires Respectful(others, u)
      modifies this`w, this`ticks
      ensures w == others(old(ticks), old(w)) && ok == !fails(old(ticks)) && ticks == old(ticks) + 1
      ensures SameStage(old(w), w, u)
      ensures Calm() ==> ok && w == old(w)
    {
      w := others(ticks, w);
      ok := !fails(ticks);
      ticks := ticks + 1;
    }

    ghost method Log(before: World, act: Act, next: Option<Thread>)
      requires Valid() && th.Some? && Allowed(c, Entry(before, th.value, act, next, w))
      modifies this`th, this`log
      ensures Valid() && th == next && log == old(log) + [Entry(before, old(th).value, act, next, w)]
    {
      log := log + [Entry(before, th.value, act, next, w)];
      th := next;
    }

    ghost method LogSeal(before: World, a: SealAct, next: Option<Thread>)
      requires Valid() && th.Some? && SealStep(c, before, w, th.value, next, a)
      modifies this`th, this`log
      ensures Valid() && th == next && log == old(log) + [Entry(before, old(th).value, SealDo(a), next, w)]
    { Log(before, SealDo(a), next); }

    ghost method LogFin(before: World, a: FinAct, next: Option<Thread>)
      requires Valid() && th.Some? && FinStep(c, before, w, th.value, next, a)
      modifies this`th, this`log
      ensures Valid() && th == next && log == old(log) + [Entry(before, old(th).value, FinDo(a), next, w)]
    { Log(before, FinDo(a), next); }

    ghost method LogOwn(before: World, a: OwnAct, next: Option<Thread>)
      requires Valid() && th.Some? && OwnStep(before, w, th.value, next, a)
      modifies this`th, this`log
      ensures Valid() && th == next && log == old(log) + [Entry(before, old(th).value, OwnDo(a), next, w)]
    { Log(before, OwnDo(a), next); }

    // An error return before a reservation is owned.
    ghost method Stop()
      requires Valid() && th.Some? && th.value.Finishing? && !th.value.pc.Owner?
      modifies this`th, this`log
      ensures Valid() && th == None && Quiet(old(log), log)
    {
      LogSeal(w, FinStop, None);
    }

    method MarkFailed(u: Id, ghost size: nat)
      requires Valid() && Respectful(others, u) && th.Some? && th.value.Finishing? && th.value.u == u
      requires th.value.pc.StatStage? || th.value.pc.Hashing?
      modifies this
      ensures Valid() && th == None && Quiet(old(log), log)
      ensures Calm() && Waiting(old(w), u) ==> w == Abandoned(old(w), u)
    {
      var ok := Op(u);
      if ok && u in w.sessions && w.sessions[u].status == Completing {
        ghost var before := w;
        w := SetSession(w, u, w.sessions[u].(status := Failed));
        LogSeal(before, FinFail, None);
      } else {
        Stop();
      }
    }

    // ---- PutPart -------------------------------------------------------------------------------

    ghost predicate Writes(u: Id, k: nat, size: nat, body: Bytes, put: PutPc)
      reads this
    { Valid() && Sharing(others, u) && th == Some(Putting(u, k, size, body, put)) }

    // The upload's staging file has the declared size.
    ghost predicate Whole(u: Id, size: nat)
      reads this
    { u in w.staging && |w.staging[u].bytes| == size == |w.staging[u].clean| }

    method SharedOp(ghost u: Id) returns (ok: bool)
      requires Sharing(others, u)
      modifies this`w, this`ticks
      ensures w == others(old(ticks), old(w)) && ok == !fails(old(ticks)) && ticks == old(ticks) + 1
      ensures (Intact(old(w), u) ==> Intact(w, u)) && SameLength(old(w), w, u)
      ensures Calm() ==> ok && w == old(w)
    {
      w := others(ticks, w);
      ok := !fails(ticks);
      ticks := ticks + 1;
    }

    ghost method LogPut(before: World, a: PutAct, next: Option<Thread>)
      requires Valid() && th.Some? && PutStep(c, before, w, th.value, next, a)
      modifies this`th, this`log
      ensures Valid() && th == next && log == old(log) + [Entry(before, old(th).value, PutDo(a), next, w)]
    { Log(before, PutDo(a), next); }

    ghost method PutEnds()
      requires Valid() && th.Some? && th.value.Putting?
      modifies this`th, this`log
      ensures Valid() && th == None && NotCommitted(old(log), log)
    { LogPut(w, PutStop, None); }

    /** Only a whole stream of the declared length is ever committed, and then exactly its content. With nothing failing and
        nobody interfering, a part is committed if and only if it is one of the upload's, the declared and the delivered
        length are its size, the stream does not break, and the upload is open and unexpired. */
    method PutPart(u: Id, k: nat, contentLength: int, body: Stream) returns (refused: Option<Refusal>)
      requires Writes(u, k, 0, [], PutLocked) && Intact(w, u)
      modifies this
      ensures Valid() && th == None
      ensures refused.Some? ==> NotCommitted(old(log), log)
      ensures refused.None? ==> old(log) < log && CommittedBy(log[|log| - 1], u, k, body.bytes)
      ensures Calm() ==> (refused.None? <==> PartFits(c, old(w), u, k, contentLength) && Delivers(c, old(w).sessions[u].size, k, body))
      ensures Calm() && !PartFits(c, old(w), u, k, contentLength) ==> PutRefuses(c, old(w), u, k, refused) && w == old(w)
      ensures Calm() && PartFits(c, old(w), u, k, contentLength) ==> PutStores(c, old(w), w, u, k, body, refused)
    {
      var size;
      size, refused := CheckPart(u, k, contentLength);
      if refused.Some? { return; }
      refused := InvalidatePart(u, k, size);
      if refused.Some? { return; }
      refused := WritePart(u, k, size, body);
      StoresOver(c, old(w), w, u, k, body, refused);
    }

    method WritePart(u: Id, k: nat, size: nat, body: Stream) returns (refused: Option<Refusal>)
      requires Writes(u, k, size, [], Writing) && Whole(u, size) && k < PartCount(size, c.chunk)
      modifies this
      ensures Valid() && th == None
      ensures if refused.Some? then NotCommitted(old(log), log) else old(log) < log && CommittedBy(log[|log| - 1], u, k, body.bytes)
      ensures Calm() ==> (refused.None? <==> Delivers(c, size, k, body) && Accepting(old(w), u))
      ensures Calm() && Accepting(old(w), u) && old(w).sessions[u].size == size && (u, k) !in old(w).parts ==>
                PutStores(c, old(w), w, u, k, body, refused)
    {
      refused := WriteBody(u, k, size, body);
      if refused.Some? { return; }
      refused := SyncFile(u, k, size, body.bytes);
      if refused.Some? { return; }
      refused := CommitPart(u, k, size, body.bytes);
    }

    method InvalidatePart(u: Id, k: nat, ghost size: nat) returns (refused: Option<Refusal>)
      requires Writes(u, k, size, [], PutChecked) && Whole(u, size)
      modifies this
      ensures Valid() && NotCommitted(old(log), log)
      ensures if refused.Some? then th == None else Writes(u, k, size, [], Writing) && Whole(u, size)
      ensures Calm() ==> refused.None? && w == old(w).(parts := old(w).parts - {(u, k)})
    {
      var ok := SharedOp(u);
      if !ok { PutEnds(); return Some(Unavailable); }
      ghost var before := w;
      w := w.(parts := w.parts - {(u, k)});
      LogPut(before, PutInvalidate, Some(Putting(u, k, size, [], Writing)));
      ok := SharedOp(u);   // a write slot, and opening the file
      if !ok { PutEnds(); return Some(Unavailable); }
      refused := None;
    }

    method SyncFile(u: Id, k: nat, ghost size: nat, ghost body: Bytes) returns (refused: Option<Refusal>)
      requires Writes(u, k, size, body, Writing) && Whole(u, size) && |body| == PartLength(c, size, k)
      modifies this
      ensures Valid() && NotCommitted(old(log), log)
      ensures if refused.Some? then th == None else Writes(u, k, size, body, Synced)
      ensures Calm() ==> refused.None? && w == SetStage(old(w), u, SyncStage(old(w).staging[u]))
    {
      var ok := SharedOp(u);
      if !ok { PutEnds(); return Some(Unavailable); }
      ghost var before := w;
      w := SetStage(w, u, SyncStage(w.staging[u]));
      LogPut(before, PutSync, Some(Putting(u, k, size, body, Synced)));
      refused := None;
    }

    method CheckPart(u: Id, k: nat, contentLength: int) returns (size: nat, refused: Option<Refusal>)
      requires Writes(u, k, 0, [], PutLocked) && Intact(w, u)
      modifies this
      ensures Valid() && NotCommitted(old(log), log)
      ensures if refused.Some? then th == None else Writes(u, k, size, [], PutChecked) && Whole(u, size) && k < PartCount(size, c.chunk)
      ensures Calm() ==> w == old(w) && (refused.None? <==> PartFits(c, w, u, k, contentLength)) && (refused.None? ==> size == w.sessions[u].size)
      ensures Calm() && refused.Some? ==> PutRefuses(c, w, u, k, refused)
    {
      size := 0;
      var ok := SharedOp(u);
      if !ok { PutEnds(); return size, Some(Unavailable); }
      if u !in w.sessions { PutEnds(); return size, Some(NotFound); }
      var row := w.sessions[u];
      if row.expires <= w.clock || row.status.Expired? { PutEnds(); return size, Some(TooLate); }
      if !row.status.Created? && !row.status.Uploading? { PutEnds(); return size, Some(InvalidState); }
      size := row.size;
      var expected := PartSize(size, c.chunk, k);
      if expected < 0 { PutEnds(); return size, Some(OutOfRange); }
      LogPut(w, PutCheck, Some(Putting(u, k, size, [], PutChecked)));
      if contentLength >= 0 && contentLength != expected { PutEnds(); return size, Some(SizeMismatch); }
      refused := None;
    }

    // The copy loop through offsetWriter, limited to the part's size.
    method WriteBody(u: Id, k: nat, size: nat, body: Stream) returns (refused: Option<Refusal>)
      requires Writes(u, k, size, [], Writing) && Whole(u, size) && k < PartCount(size, c.chunk)
      modifies this
      ensures Valid() && NotCommitted(old(log), log)
      ensures if refused.Some? then th == None
              else Writes(u, k, size, body.bytes, Writing) && Whole(u, size) && Delivers(c, size, k, body)
      ensures Calm() ==> BodyStored(c, old(w), w, u, k, size, body, refused)
    {
      var expected := PartSize(size, c.chunk, k);
      ghost var start := w;
      var written: nat := 0;
      var done := false;
      while !done
        invariant Progressed(u, k, size, body.bytes, written, start) && NotCommitted(old(log), log)
        invariant done ==> written == expected || written == |body.bytes|
        decreases !done, |body.bytes| - written
      {
        var n := WriteSome(u, k, size, body.bytes, written, start);
        if n.None? { return Some(Unavailable); }
        done := n.value == written;
        written := n.value;
      }
      assert written == |body.bytes| ==> body.bytes[..written] == body.bytes;
      refused := AfterBody(body, written, expected);
      if refused.Some? { PutEnds(); }
    }

    // The first `written` bytes of the stream are in the file.
    ghost predicate Progressed(u: Id, k: nat, size: nat, bytes: Bytes, written: nat, start: World)
      requires c.chunk > 0
      reads this
    {
      && k < PartCount(size, c.chunk) && written <= |bytes| && written <= PartSize(size, c.chunk, k)
      && Writes(u, k, size, bytes[..written], Writing) && Whole(u, size)
      && (Calm() ==> w == start.(staging := w.staging) && Patched(start.staging, w.staging, u, k * c.chunk, bytes[..written]))
    }

    // One write; None: it failed.
    method WriteSome(u: Id, k: nat, size: nat, bytes: Bytes, written: nat, ghost start: World) returns (n: Option<nat>)
      requires c.chunk > 0 && Progressed(u, k, size, bytes, written, start)
      modifies this
      ensures Valid() && NotCommitted(old(log), log)
      ensures n.None? ==> th == None && !Calm()
      ensures n.Some? ==> Progressed(u, k, size, bytes, n.value, start) && written <= n.value
      ensures n == Some(written) ==> written == |bytes| || written == PartSize(size, c.chunk, k)
    {
      var ok := SharedOp(u);
      if !ok { PutEnds(); return None; }
      var to := NextWrite(bytes, written, PartSize(size, c.chunk, k));
      if to > written {
        assert bytes[..to] == bytes[..written] + bytes[written..to];
        WriteAt(u, k, size, bytes[..written], bytes[written..to], start.staging);
      }
      n := Some(to);
    }

    // What the copy loop and the read of one more byte after it report.
    method AfterBody(body: Stream, written: nat, expected: nat) returns (refused: Option<Refusal>)
      requires written <= |body.bytes| && written <= expected && (written == expected || written == |body.bytes|)
      ensures refused.None? <==> |body.bytes| == expected && !body.broken
      ensures refused.Some? ==> refused == Some(if body.broken && |body.bytes| <= expected then StreamBroken else SizeMismatch)
    {
      if written < expected { return Some(if body.broken then StreamBroken else SizeMismatch); }
      if |body.bytes| > written { return Some(SizeMismatch); }
      if body.broken { return Some(StreamBroken); }
      refused := None;
    }

    // How far the next write reaches: some bytes, but not past the end of the stream or of the part.
    method NextWrite(bytes: Bytes, written: nat, expected: nat) returns (n: nat)
      requires written <= |bytes| && written <= expected
      ensures written <= n <= |bytes| && n <= expected && (n == written ==> n == |bytes| || n == expected)
    {
      n := written + if chunks(ticks) == 0 then 1 else chunks(ticks);
      if n > expected { n := expected; }
      if n > |bytes| { n := |bytes|; }
    }

    method WriteAt(u: Id, k: nat, size: nat, body: Bytes, data: Bytes, ghost start: map<Id, StageFile>)
      requires Writes(u, k, size, body, Writing) && Whole(u, size) && k < PartCount(size, c.chunk)
      requires |body| + |data| <= PartSize(size, c.chunk, k)
      modifies this`w, this`th, this`log
      ensures Writes(u, k, size, body + data, Writing) && Whole(u, size) && NotCommitted(old(log), log)
      ensures w == old(w).(staging := w.staging)
      ensures Patched(start, old(w).staging, u, k * c.chunk, body) ==> Patched(start, w.staging, u, k * c.chunk, body + data)
    {
      ghost var before := w;
      w := SetStage(w, u, WriteStage(w.staging[u], k * c.chunk + |body|, data));
      LogPut(before, PutWrite(data), Some(Putting(u, k, size, body + data, Writing)));
      PatchMore(start, before.staging, w.staging, u, k * c.chunk, body, data);
    }

    method CommitPart(u: Id, k: nat, ghost size: nat, body: Bytes) returns (refused: Option<Refusal>)
      requires Writes(u, k, size, body, Synced)
      modifies this
      ensures Valid() && th == None
      ensures if refused.Some? then NotCommitted(old(log), log) else old(log) < log && CommittedBy(log[|log| - 1], u, k, body)
      ensures Calm() ==> (refused.None? <==> Accepting(old(w), u))
      ensures Calm() && refused.None? ==>
                w == SetSession(old(w), u, old(w).sessions[u].(status := Uploading)).(
                       parts := old(w).parts[(u, k) := |body|], written := old(w).written[(u, k) := body])
    {
      var ok := SharedOp(u);
      if !ok { PutEnds(); return Some(Unavailable); }
      if u !in w.sessions { PutEnds(); return Some(NotFound); }
      var row := w.sessions[u];
      if row.expires <= w.clock || row.status.Expired? { PutEnds(); return Some(TooLate); }
      if !row.status.Created? && !row.status.Uploading? { PutEnds(); return Some(InvalidState); }
      ghost var before := w;
      w := SetSession(w, u, row.(status := Uploading)).(
             parts := w.parts[(u, k) := |body|], written := w.written[(u, k) := body]);
      LogPut(before, PutCommit, None);
      refused := None;
    }

    // ---- Complete and Finalize -----------------------------------------------------------------

    // hashStaging: read to the end, feeding the hash.
    method HashStaging(u: Id, size: nat) returns (sum: Option<nat>)
      requires At(u, size, Hashing([]))
      modifies this
      ensures Quiet(old(log), log)
      ensures if sum.Some? then At(u, size, Hashed(sum.value))
              else Valid() && th.Some? && th.value.Finishing? && th.value.u == u && th.value.pc.Hashing?
      ensures sum.Some? ==> InStage(old(w), u, size) && sum.value == c.hash(old(w).staging[u].bytes)
      ensures Calm() ==> w == old(w) && (InStage(w, u, size) ==> sum.Some?)
    {
      ghost var start := w;
      var h: Bytes := [];
      var done := false;
      while !done
        invariant At(u, size, Hashing(h)) && Quiet(old(log), log)
        invariant SameStage(start, w, u) && (u in w.staging ==> h <= w.staging[u].bytes)
        invariant done ==> u in w.staging && h == w.staging[u].bytes
        invariant Calm() ==> w == start
        decreases !done, if u in w.staging then |w.staging[u].bytes| - |h| else 0
      {
        var next := ReadSome(u, size, h, start);
        if next.None? { return None; }
        done := |next.value| == |h|;
        h := next.value;
      }
      if |h| != size { return None; }
      sum := Some(c.hash(h));
      LogSeal(w, FinHash, Some(Finishing(u, size, Hashed(sum.value))));
    }

    // One more read; None: the file cannot be read.
    method ReadSome(u: Id, size: nat, h: Bytes, ghost start: World) returns (next: Option<Bytes>)
      requires At(u, size, Hashing(h)) && SameStage(start, w, u) && (u in w.staging ==> h <= w.staging[u].bytes)
      modifies this
      ensures SameStage(start, w, u) && Quiet(old(log), log)
      ensures match next
              case None => At(u, size, Hashing(h))
              case Some(h') => At(u, size, Hashing(h')) && u in w.staging && h <= h' <= w.staging[u].bytes && (h' == h ==> h == w.staging[u].bytes)
      ensures Calm() ==> w == old(w) && (u in w.staging ==> next.Some?)
    {
      var ok := Op(u);
      if !ok || u !in w.staging { return None; }
      var n := NextRead(|w.staging[u].bytes| - |h|);
      if n == 0 { return Some(h); }
      var h' := h + w.staging[u].bytes[|h|..|h| + n];
      LogSeal(w, FinRead(n), Some(Finishing(u, size, Hashing(h'))));
      next := Some(h');
    }

    // A read returns some bytes, and none only at the end.
    method NextRead(left: nat) returns (n: nat)
      ensures n <= left && (n == 0 <==> left == 0)
    {
      n := if chunks(ticks) == 0 then 1 else chunks(ticks);
      if n > left { n := left; }
    }

    // SELECT ... WHERE sha256 = $1 AND size_bytes = $2
    method Find(sha: nat, size: nat) returns (row: Option<Id>)
      ensures row.Some? ==> IsRow(w.objects, row.value, sha, size)
      ensures row.None? ==> NoRow(w.objects, sha, size)
    {
      if id :| id in w.objects && IsRow(w.objects, id, sha, size) { return Some(id); }
      row := None;
    }

    // The reservation never got its object: remove it.
    method DropReservation(u: Id, size: nat, sha: nat, id: Id, last: bool) returns (gone: bool)
      requires At(u, size, Checking(sha, id, last)) && id !in w.finals
      modifies this
      ensures Valid() && Quiet(old(log), log)
      ensures if gone then At(u, size, Reserving(sha, last)) else th == None
      ensures Calm() ==> var v := DropTemp(old(w), id); gone == Droppable(v, id) && w == if gone then WithoutObject(v, id) else v
    {
      LogFin(w, FinMissing, Some(Finishing(u, size, Missing(sha, id, last))));
      var ok := Op(u);
      if !ok { Stop(); return false; }
      ghost var before := w;
      w := DropTemp(w, id);
      LogFin(before, FinDropTemp, Some(Finishing(u, size, Absent(sha, id, last))));
      gone := DropRow(u, size, sha, id, last);
    }

    method DropRow(u: Id, size: nat, sha: nat, id: Id, last: bool) returns (gone: bool)
      requires At(u, size, Absent(sha, id, last))
      modifies this
      ensures Valid() && Quiet(old(log), log)
      ensures if gone then At(u, size, Reserving(sha, last)) else th == None
      ensures Calm() ==> gone == Droppable(old(w), id) && w == if gone then WithoutObject(old(w), id) else old(w)
    {
      var ok := Op(u);
      if !ok || !HasRow(w.objects, id, Pending) || (exists a :: a in w.attachments && w.attachments[a].file == id)
         || (exists v :: v in w.sessions && w.sessions[v].file == Some(id)) { Stop(); return false; }
      ghost var before := w;
      w := WithoutObject(w, id);
      LogFin(before, FinDropRow, Some(Finishing(u, size, Reserving(sha, last))));
      gone := true;
    }

    // True: the row is READY now. False: it is gone. None: the finalizer has ended.
    method ReconcilePending(u: Id, size: nat, sha: nat, id: Id, last: bool) returns (found: Option<bool>)
      requires At(u, size, Checking(sha, id, last))
      modifies this
      ensures Valid() && Quiet(old(log), log)
      ensures match found case None => th == None case Some(ready) => At(u, size, if ready then Matched(sha, id) else Reserving(sha, last))
      ensures Calm() && HasRow(old(w).objects, id, Pending) && IsRow(old(w).objects, id, sha, size) ==> Reconciled(c, old(w), w, id, sha, size, found)
    {
      var ok := Op(u);
      if !ok { Stop(); return None; }
      if id !in w.finals {
        var gone := DropReservation(u, size, sha, id, last);
        return if gone then Some(false) else None;
      }
      if |w.finals[id].bytes| != size || c.hash(w.finals[id].bytes) != sha { Stop(); return None; }
      LogFin(w, FinVerify, Some(Finishing(u, size, Verified(sha, id))));
      ok := Promote(u, size, sha, id);
      found := if ok then Some(true) else None;
    }

    method Promote(u: Id, size: nat, sha: nat, id: Id) returns (ok: bool)
      requires At(u, size, Verified(sha, id))
      modifies this
      ensures Valid() && Quiet(old(log), log)
      ensures if ok then At(u, size, Matched(sha, id)) else th == None
      ensures Calm() && HasRow(old(w).objects, id, Pending) && IsRow(old(w).objects, id, sha, size) ==> ok && w == Promoted(old(w), id)
    {
      ok := Op(u);
      if !ok || !HasRow(w.objects, id, Pending) || !IsRow(w.objects, id, sha, size) { Stop(); return false; }
      ghost var before := w;
      w := Promoted(w, id);
      LogFin(before, FinPromote, Some(Finishing(u, size, Matched(sha, id))));
    }

    method DeleteStaging(u: Id, size: nat)
      requires At(u, size, DropStage)
      modifies this
      ensures Valid() && th == None && Quiet(old(log), log)
      ensures Calm() ==> w == DropStageFile(old(w), u)
    {
      var ok := Op(u);
      if !ok { Stop(); return; }
      ghost var before := w;
      w := DropStageFile(w, u);
      LogSeal(before, FinDropStage, None);
    }

    // completeWith, and the staging file goes.
    method CompleteWith(u: Id, size: nat, sha: nat, id: Id) returns (r: Result)
      requires At(u, size, Matched(sha, id))
      modifies this
      ensures Valid() && th == None && Outcome(old(log), log, u, r)
      ensures Calm() && Waiting(old(w), u) && HasRow(old(w).objects, id, Ready) ==> r == Result.Completed(id) && w == Served(old(w), u, id)
    {
      var ok := Op(u);
      if !ok || u !in w.sessions || w.sessions[u].status != Completing || !HasRow(w.objects, id, Ready) { Stop(); return Retryable; }
      ghost var before := w;
      w := Finished(w, u, id);
      LogFin(before, FinLink, Some(Finishing(u, size, DropStage)));
      ghost var e := log[|old(log)|];
      DeleteStaging(u, size);
      OneThenQuiet(old(log), e, log, u, id);
      r := Result.Completed(id);
    }

    // SELECT SUM(size_bytes)
    method StoredTotal() returns (n: nat)
      ensures n == StoredBytes(w.objects)
    {
      var left := ObjectSizes(w.objects);
      n := 0;
      while left != map[]
        invariant n + Total(left) == StoredBytes(w.objects)
        decreases |left|
      {
        var id :| id in left;
        TotalRemove(left, id);
        Shrinks(left, id);
        n := n + left[id];
        left := left - {id};
      }
    }

    method ReservePending(u: Id, size: nat, sha: nat, last: bool, id: Id) returns (r: Reservation)
      requires At(u, size, Reserving(sha, last))
      modifies this
      ensures Valid() && Quiet(old(log), log)
      ensures match r
              case Made(row) => At(u, size, Owner(sha, row, Reserved))
              case Existing(row, ready) => !last && At(u, size, if ready then Matched(sha, row) else Checking(sha, row, true))
              case _ => th == None
      ensures Calm() && NoRow(old(w).objects, sha, size) && id !in old(w).used ==>
                if OverBudget(quota, size, StoredBytes(old(w).objects)) then r == OverQuota && w == old(w)
                else r == Made(id) && w == WithRow(old(w), id, sha, size)
    {
      var ok := Op(u);
      if !ok { Stop(); return NotReserved; }
      var existing := Find(sha, size);
      if existing.Some? {
        var row := existing.value;
        if last || w.objects[row].status.Deleting? { Stop(); return NotReserved; }
        var ready := w.objects[row].status.Ready?;
        LogFin(w, FinReserveFound(row), Some(Finishing(u, size, if ready then Matched(sha, row) else Checking(sha, row, true))));
        return Existing(row, ready);
      }
      r := InsertPending(u, size, sha, last, id);
    }

    method InsertPending(u: Id, size: nat, sha: nat, ghost last: bool, id: Id) returns (r: Reservation)
      requires At(u, size, Reserving(sha, last)) && NoRow(w.objects, sha, size)
      modifies this
      ensures Valid() && Quiet(old(log), log)
      ensures if r.Made? then At(u, size, Owner(sha, r.id, Reserved)) else th == None && !r.Existing?
      ensures id !in old(w).used ==>
                if OverBudget(quota, size, StoredBytes(old(w).objects)) then r == OverQuota && w == old(w)
                else r == Made(id) && w == WithRow(old(w), id, sha, size)
    {
      if quota.Some? {
        var used := StoredTotal();
        if size > quota.value || used > quota.value - size { Stop(); return OverQuota; }
      }
      if id in w.used { Stop(); return NotReserved; }   // identifiers are drawn at random and do not repeat
      ghost var before := w;
      w := w.(used := w.used + {id}, objects := w.objects[id := Object(sha, size, Pending, 0)]);
      LogFin(before, FinReserve(id, quota), Some(Finishing(u, size, Owner(sha, id, Reserved))));
      r := Made(id);
    }

    // The deferred cleanup of a reservation that is given up.
    method Cleanup(u: Id, size: nat, sha: nat, id: Id)
      requires At(u, size, Owner(sha, id, Undo))
      modifies this
      ensures Valid() && th == None && Quiet(old(log), log)
    {
      var ok := Op(u);
      ghost var before := w;
      if ok { w := DropTemp(w, id); }
      LogOwn(before, OwnUndoTemp(ok), Some(Finishing(u, size, Owner(sha, id, UndoRow))));
      CleanupRow(u, size, sha, id);
    }

    method CleanupRow(u: Id, size: nat, sha: nat, id: Id)
      requires At(u, size, Owner(sha, id, UndoRow))
      modifies this
      ensures Valid() && th == None && Quiet(old(log), log)
    {
      var ok := Op(u);
      ok := ok && HasRow(w.objects, id, Pending);
      ghost var before := w;
      if ok { w := WithoutObject(w, id); }
      LogOwn(before, OwnUndoRow(ok), None);
    }

    method GiveUp(u: Id, size: nat, sha: nat, id: Id, ghost own: OwnPc)
      requires At(u, size, Owner(sha, id, own)) && (own.Reserved? || own.Copying? || own.Flushed?)
      modifies this
      ensures Valid() && th == None && Quiet(old(log), log)
    {
      LogOwn(w, OwnUndo, Some(Finishing(u, size, Owner(sha, id, Undo))));
      Cleanup(u, size, sha, id);
    }

    // copyContext into the commit temp, then sync.
    method CopyToTemp(u: Id, size: nat, sha: nat, id: Id) returns (ok: bool)
      requires At(u, size, Owner(sha, id, Reserved))
      modifies this
      ensures Valid() && Quiet(old(log), log)
      ensures if ok then At(u, size, Owner(sha, id, Flushed)) else th == None
      ensures Calm() && InStage(old(w), u, size) ==> ok && w == old(w).(temps := old(w).temps[id := Blob(old(w).staging[u].bytes, true)])
    {
      ok := Op(u);
      if !ok { GiveUp(u, size, sha, id, Reserved); return; }
      ghost var before := w;
      w := w.(temps := w.temps[id := Blob([], false)]);
      LogOwn(before, OwnTemp, Some(Finishing(u, size, Owner(sha, id, Copying(0)))));
      ok := CopyLoop(u, size, sha, id);
      if ok { ok := SyncTemp(u, size, sha, id); }
    }

    method SyncTemp(u: Id, size: nat, sha: nat, id: Id) returns (ok: bool)
      requires At(u, size, Owner(sha, id, Copying(size))) && InStage(w, u, size)
      modifies this
      ensures Valid() && Quiet(old(log), log)
      ensures if ok then At(u, size, Owner(sha, id, Flushed)) else th == None
      ensures Calm() && id in old(w).temps ==> ok && w == old(w).(temps := old(w).temps[id := old(w).temps[id].(synced := true)])
    {
      ok := Op(u);
      if !ok { GiveUp(u, size, sha, id, Copying(size)); return; }
      ghost var before := w;
      w := w.(temps := if id in w.temps then w.temps[id := w.temps[id].(synced := true)] else w.temps);
      LogOwn(before, OwnFlush, Some(Finishing(u, size, Owner(sha, id, Flushed))));
    }

    method CopyLoop(u: Id, size: nat, sha: nat, id: Id) returns (ok: bool)
      requires At(u, size, Owner(sha, id, Copying(0)))
      modifies this
      ensures Valid() && Quiet(old(log), log)
      ensures if ok then At(u, size, Owner(sha, id, Copying(size))) && u in w.staging && |w.staging[u].bytes| == size else th == None
      ensures Calm() && InStage(old(w), u, size) ==> ok && CopiedWhole(old(w), w, u, id)
    {
      ghost var start := w;
      var total: nat := 0;
      var done := false;
      while !done
        invariant At(u, size, Owner(sha, id, Copying(total))) && Quiet(old(log), log)
        invariant SameStage(start, w, u) && (u in w.staging ==> total <= |w.staging[u].bytes|)
        invariant done ==> u in w.staging && total == |w.staging[u].bytes|
        invariant Calm() ==> Copied(start, w, u, id, total)
        decreases !done, if u in w.staging then |w.staging[u].bytes| - total else 0
      {
        var n := CopySome(u, size, sha, id, total, start);
        if n.None? { return false; }
        done := n.value == 0;
        total := total + n.value;
      }
      if total != size { GiveUp(u, size, sha, id, Copying(total)); return false; }
      CopiedAll(start, w, u, id, size);
      ok := true;
    }

    // The next chunk; 0 at the end of the staging file. None: an operation failed and the finalizer has ended.
    method CopySome(u: Id, size: nat, sha: nat, id: Id, total: nat, ghost start: World) returns (n: Option<nat>)
      requires At(u, size, Owner(sha, id, Copying(total))) && SameStage(start, w, u) && (u in w.staging ==> total <= |w.staging[u].bytes|)
      modifies this
      ensures Valid() && Quiet(old(log), log)
      ensures match n
              case None => th == None
              case Some(k) =>
                At(u, size, Owner(sha, id, Copying(total + k))) && SameStage(start, w, u)
                && u in w.staging && total + k <= |w.staging[u].bytes| && (k == 0 <==> total == |w.staging[u].bytes|)
      ensures Calm() && u in start.staging ==> n.Some? && (Copied(start, old(w), u, id, total) ==> Copied(start, w, u, id, total + n.value))
    {
      var ok := Op(u);
      if !ok || u !in w.staging { GiveUp(u, size, sha, id, Copying(total)); return None; }
      var k := NextRead(|w.staging[u].bytes| - total);
      if k > 0 { CopyChunk(u, size, sha, id, total, total + k, start); }
      n := Some(k);
    }

    method CopyChunk(u: Id, size: nat, sha: nat, id: Id, from: nat, to: nat, ghost start: World)
      requires At(u, size, Owner(sha, id, Copying(from))) && SameStage(start, w, u) && u in w.staging && from <= to <= |w.staging[u].bytes|
      modifies this`w, this`th, this`log
      ensures At(u, size, Owner(sha, id, Copying(to))) && Quiet(old(log), log) && w.staging == old(w).staging
      ensures Copied(start, old(w), u, id, from) ==> Copied(start, w, u, id, to)
    {
      ghost var before := w;
      w := w.(temps := if id in w.temps then w.temps[id := Blob(w.temps[id].bytes + w.staging[u].bytes[from..to], false)] else w.temps);
      LogOwn(before, OwnCopy(to), Some(Finishing(u, size, Owner(sha, id, Copying(to)))));
      CopiedMore(start, before, w, u, id, from, to);
    }

    // storage.Commit; a rename reported as failed may have landed. False: the finalizer has ended.
    method Rename(u: Id, size: nat, sha: nat, id: Id) returns (ok: bool)
      requires At(u, size, Owner(sha, id, Flushed))
      modifies this
      ensures Valid() && Quiet(old(log), log)
      ensures if ok then At(u, size, Owner(sha, id, Renamed)) else th == None
      ensures Calm() && id in old(w).temps && id !in old(w).finals ==> ok && w == Moved(old(w), id)
    {
      ok := Op(u);
      var possible := id in w.temps && id !in w.finals;
      if possible && (ok || lands(ticks)) {
        ghost var before := w;
        w := DropTemp(w, id).(finals := w.finals[id := w.temps[id]]);
        LogOwn(before, OwnRename(ok), Some(Finishing(u, size, Owner(sha, id, if ok then Renamed else OwnPc.Refused))));
      } else {
        ok := false;
        LogOwn(w, OwnRefuse, Some(Finishing(u, size, Owner(sha, id, OwnPc.Refused))));
      }
      if !ok { AfterRefusal(u, size, sha, id); }
    }

    // keepPending unless the final object is known not to exist.
    method AfterRefusal(u: Id, size: nat, sha: nat, id: Id)
      requires At(u, size, Owner(sha, id, OwnPc.Refused))
      modifies this
      ensures Valid() && th == None && Quiet(old(log), log)
    {
      var ok := Op(u);
      if !ok || id in w.finals {
        LogOwn(w, OwnExists, None);
      } else {
        LogOwn(w, OwnGone, Some(Finishing(u, size, Owner(sha, id, Undo))));
        Cleanup(u, size, sha, id);
      }
    }

    // The owned reservation: write, sync, rename, publish.
    method WriteObject(u: Id, size: nat, sha: nat, id: Id) returns (r: Result)
      requires At(u, size, Owner(sha, id, Reserved))
      modifies this
      ensures Valid() && th == None && Outcome(old(log), log, u, r)
      ensures Calm() && Waiting(old(w), u) && InStage(old(w), u, size) && id !in old(w).finals
              && HasRow(old(w).objects, id, Pending) && IsRow(old(w).objects, id, sha, size) ==>
                var v := Moved(old(w).(temps := old(w).temps[id := Blob(old(w).staging[u].bytes, true)]), id);
                r == Result.Completed(id) && w == Served(Promoted(v, id), u, id)
    {
      var ok := CopyToTemp(u, size, sha, id);
      if !ok { return Retryable; }
      ok := Rename(u, size, sha, id);
      if !ok { return Retryable; }
      ghost var mid := log;
      r := Publish(u, size, sha, id);
      QuietThen(old(log), mid, log, u, r);
    }

    // Renamed: look at the final object, then publish it and complete the upload in one transaction.
    method Publish(u: Id, size: nat, sha: nat, id: Id) returns (r: Result)
      requires At(u, size, Owner(sha, id, Renamed))
      modifies this
      ensures Valid() && th == None && Outcome(old(log), log, u, r)
      ensures Calm() && Waiting(old(w), u) && id in old(w).finals && |old(w).finals[id].bytes| == size
              && HasRow(old(w).objects, id, Pending) && IsRow(old(w).objects, id, sha, size) ==>
                r == Result.Completed(id) && w == Served(Promoted(old(w), id), u, id)
    {
      var ok := StatFinal(u, size, sha, id);
      if !ok { return Retryable; }
      ghost var mid := log;
      r := ReadyAndComplete(u, size, sha, id);
      QuietThen(old(log), mid, log, u, r);
    }

    method StatFinal(u: Id, size: nat, sha: nat, id: Id) returns (ok: bool)
      requires At(u, size, Owner(sha, id, Renamed))
      modifies this
      ensures Valid() && Quiet(old(log), log)
      ensures if ok then At(u, size, Owner(sha, id, Statted)) else th == None
      ensures Calm() ==> w == old(w) && (ok <==> id in w.finals && |w.finals[id].bytes| == size)
    {
      ok := Op(u);
      ok := ok && id in w.finals && |w.finals[id].bytes| == size;
      if ok {
        LogOwn(w, OwnStat, Some(Finishing(u, size, Owner(sha, id, Statted))));
      } else {
        LogOwn(w, OwnStop, None);
      }
    }

    method ReadyAndComplete(u: Id, size: nat, sha: nat, id: Id) returns (r: Result)
      requires At(u, size, Owner(sha, id, Statted))
      modifies this
      ensures Valid() && th == None && Outcome(old(log), log, u, r)
      ensures Calm() && Waiting(old(w), u) && HasRow(old(w).objects, id, Pending) && IsRow(old(w).objects, id, sha, size) ==>
                r == Result.Completed(id) && w == Served(Promoted(old(w), id), u, id)
    {
      var ok := CommitReady(u, size, sha, id);
      if !ok { return Retryable; }
      ghost var e := log[|old(log)|];
      DeleteStaging(u, size);
      OneThenQuiet(old(log), e, log, u, id);
      r := Result.Completed(id);
    }

    // The transaction of readyAndComplete.
    method CommitReady(u: Id, size: nat, sha: nat, id: Id) returns (ok: bool)
      requires At(u, size, Owner(sha, id, Statted))
      modifies this
      ensures if ok then At(u, size, DropStage) && |log| > 0 && log == old(log) + [log[|log| - 1]] && CompletedBy(log[|log| - 1], u, id)
              else Valid() && th == None && Quiet(old(log), log)
      ensures Calm() && Waiting(old(w), u) && HasRow(old(w).objects, id, Pending) && IsRow(old(w).objects, id, sha, size) ==>
                ok && w == Finished(Promoted(old(w), id), u, id)
    {
      ok := Op(u);
      if !ok || u !in w.sessions || w.sessions[u].status != Completing || !HasRow(w.objects, id, Pending) || !IsRow(w.objects, id, sha, size) {
        LogOwn(w, OwnStop, None);
        return false;
      }
      ghost var before := w;
      w := Promoted(w, id);
      w := Finished(w, u, id);
      LogOwn(before, OwnReady, Some(Finishing(u, size, DropStage)));
    }

    // What Complete checks: part numbers 0, 1, 2, ... with the declared sizes, adding up to the upload.
    method CheckParts(u: Id, size: nat) returns (ok: bool)
      requires Valid() && u in w.sessions && w.sessions[u].size == size
      ensures ok <==> AllParts(c, w, u)
    {
      var parts := Listed(w, u);
      ListedMeaning(c, w, u);
      var n := PartCount(size, c.chunk);
      if |parts| != n { return false; }
      var total := 0;
      for i := 0 to |parts|
        invariant forall j | 0 <= j < i :: parts[j] == (j, PartLength(c, size, j))
        invariant total == PartEnd(size, c.chunk, i)
      {
        if parts[i].0 != i || parts[i].1 != PartSize(size, c.chunk, i) { return false; }
        PartEndStep(size, c.chunk, i);
        total := total + parts[i].1;
      }
      assert !(n * c.chunk < size);
      ok := total == size;
    }

    // The checks of Complete before it touches anything; None: accepted before, or the staging file is to be synced.
    method Precheck(u: Id) returns (r: Option<Result>)
      requires c.chunk > 0
      ensures r.Some? ==> !r.value.Completed? && !Waiting(w, u) && !(Accepting(w, u) && InStage(w, u, w.sessions[u].size))
      ensures r.Some? ==> AnswersByRow(c, w, w, u, r.value)
      ensures r.None? ==> u in w.sessions && (Waiting(w, u) || (Accepting(w, u) && InStage(w, u, w.sessions[u].size)))
    {
      if u !in w.sessions { return Some(Rejected(NotFound)); }
      var row := w.sessions[u];
      if row.status.Expired? || (row.expires <= w.clock && !row.status.Completing? && !row.status.Completed?) {
        return Some(Rejected(TooLate));
      }
      if row.status.Completed? { return Some(Already); }
      if row.status.Completing? { return None; }
      if !row.status.Created? && !row.status.Uploading? { return Some(Rejected(InvalidState)); }
      if u !in w.staging || |w.staging[u].bytes| != row.size { return Some(Corrupt); }
      r := None;
    }

    // The transaction of Complete, with its validation; None: go on to finalize.
    method Accept(u: Id) returns (r: Option<Result>, size: nat)
      requires At(u, 0, Locked)
      modifies this
      ensures Valid() && Quiet(old(log), log)
      ensures if r.Some? then th == None && !r.value.Completed? else At(u, size, StatStage)
      ensures Calm() ==> AcceptsTo(c, old(w), w, u, r, size)
    {
      size := 0;
      var ok := Op(u);
      if !ok { Stop(); return Some(Rejected(Unavailable)), size; }
      r := Precheck(u);
      if r.Some? { Stop(); return; }
      if w.sessions[u].status.Completing? {
        size := w.sessions[u].size;
        LogSeal(w, FinResume, Some(Finishing(u, size, StatStage)));
        return;
      }
      r, size := SyncAndSeal(u);
    }

    method SyncAndSeal(u: Id) returns (r: Option<Result>, size: nat)
      requires At(u, 0, Locked) && u in w.sessions && Open(w.sessions[u].status) && InStage(w, u, w.sessions[u].size)
      modifies this
      ensures Valid() && Quiet(old(log), log)
      ensures if r.Some? then th == None && !r.value.Completed? else At(u, size, StatStage)
      ensures Calm() && Accepting(old(w), u) ==> AcceptsTo(c, old(w), w, u, r, size)
    {
      ghost var before := w;
      w := SetStage(w, u, SyncStage(w.staging[u]));
      LogSeal(before, FinSync, Some(Finishing(u, 0, StageSynced)));
      r, size := Seal(u);
      SealAccepts(c, before, w, u, r, size);
    }

    method Seal(u: Id) returns (r: Option<Result>, size: nat)
      requires At(u, 0, StageSynced)
      modifies this
      ensures Valid() && Quiet(old(log), log)
      ensures if r.Some? then th == None && !r.value.Completed? else At(u, size, StatStage)
      ensures Calm() && u in old(w).sessions && InStage(old(w), u, old(w).sessions[u].size) ==> SealsTo(c, old(w), w, u, r, size)
    {
      size := 0;
      var ok := Op(u);
      if !ok { Stop(); return Some(Corrupt), size; }
      r := Validate(u);
      if r.Some? { Stop(); return; }
      size := w.sessions[u].size;
      ghost var before := w;
      w := SetSession(w, u, w.sessions[u].(status := Completing)).(
             sealed := w.sealed[u := Joined(w.written, u, PartCount(size, c.chunk))]);
      LogSeal(before, FinSeal, Some(Finishing(u, size, StatStage)));
    }

    method Validate(u: Id) returns (r: Option<Result>)
      requires Valid()
      ensures r.None? <==> Acceptable(c, w, u)
      ensures r.Some? ==> !r.value.Completed?
      ensures u in w.sessions && InStage(w, u, w.sessions[u].size) && !AllParts(c, w, u) ==> r == Some(Rejected(Incomplete))
    {
      if u !in w.sessions || u !in w.staging || |w.staging[u].bytes| != w.sessions[u].size { return Some(Corrupt); }
      var row := w.sessions[u];
      var ok := CheckParts(u, row.size);
      if !ok { return Some(Rejected(Incomplete)); }
      if !Open(row.status) || row.expires <= w.clock { return Some(Rejected(InvalidState)); }
      r := None;
    }

    /** Completing an upload takes only steps of the protocol; it reports Completed exactly when it completed the upload,
        after every part was found in place, with its object READY. With nothing failing and nobody interfering it finalizes
        exactly the uploads that are open, unexpired and all there, and those accepted before; for the others the row says
        which answer it gives. */
    method Complete(u: Id, draw: seq<Id>) returns (r: Result)
      requires At(u, 0, Locked) && |draw| == 2
      modifies this
      ensures Valid() && th == None && Outcome(old(log), log, u, r)
      ensures Calm() ==> AnswersByRow(c, old(w), w, u, r)
      ensures Calm() && Orderly(old(w), draw[0]) ==> CompletesTo(c, old(w), w, quota, u, draw[0], r)
    {
      var refused, size := Accept(u);
      if refused.Some? { return refused.value; }
      ghost var mid := log;
      r := Finalize(u, size, draw);
      QuietThen(old(log), mid, log, u, r);
    }

    /** Whatever fails and whatever others do meanwhile, the finalizer takes only steps of the protocol, each allowed by
        the one before; it reports Completed exactly when it completed the upload, with that object READY. With nothing
        failing and nobody interfering, the result and the whole new state follow from the row the content has, if any. */
    method Finalize(u: Id, size: nat, draw: seq<Id>) returns (r: Result)
      requires At(u, size, StatStage) && |draw| == 2
      modifies this
      ensures Valid() && th == None && Outcome(old(log), log, u, r)
      ensures Calm() && ReadyToFinalize(old(w), u, size, draw[0]) ==> FinalizesTo(c, old(w), w, quota, u, draw[0], size, r)
      ensures Calm() && Waiting(old(w), u) && !InStage(old(w), u, size) ==> r == Corrupt && w == Abandoned(old(w), u)
    {
      var sum := CheckAndHash(u, size);
      if sum.None? { return Corrupt; }
      var sha := sum.value;
      LockContent(u, size, sha);
      ghost var mid := log;
      r := UnderContentLock(u, size, sha, draw);
      QuietThen(old(log), mid, log, u, r);
    }

    // A staging file that is missing, mis-sized or unreadable fails the upload.
    method CheckAndHash(u: Id, size: nat) returns (sum: Option<nat>)
      requires At(u, size, StatStage)
      modifies this
      ensures Valid() && Quiet(old(log), log)
      ensures if sum.Some? then At(u, size, Hashed(sum.value)) else th == None
      ensures Calm() && InStage(old(w), u, size) ==> sum == Some(c.hash(old(w).staging[u].bytes)) && w == old(w)
      ensures Calm() && !InStage(old(w), u, size) && Waiting(old(w), u) ==> sum.None? && w == Abandoned(old(w), u)
    {
      var ok := Op(u);
      if !ok || u !in w.staging || |w.staging[u].bytes| != size { MarkFailed(u, size); return None; }
      LogSeal(w, FinStat, Some(Finishing(u, size, Hashing([]))));
      sum := HashStaging(u, size);
      if sum.None? { MarkFailed(u, size); }
    }

    method LockContent(u: Id, size: nat, sha: nat)
      requires At(u, size, Hashed(sha))
      modifies this
      ensures At(u, size, Keyed(sha)) && Quiet(old(log), log) && (Calm() ==> w == old(w))
    {
      var _ := Op(u);
      Log(w, KeyDo, Some(Finishing(u, size, Keyed(sha))));
    }

    // Is the content there already? None: the finalizer has ended.
    method FindObject(u: Id, size: nat, sha: nat) returns (found: Option<Option<Id>>)
      requires At(u, size, Keyed(sha))
      modifies this
      ensures Valid() && Quiet(old(log), log)
      ensures match found
              case None => th == None
              case Some(id) => At(u, size, if id.Some? then Matched(sha, id.value) else Reserving(sha, false))
      ensures Calm() ==> FindsTo(c, old(w), w, sha, size, found)
    {
      var ok := Op(u);
      if !ok { Stop(); return None; }
      var row := Find(sha, size);
      if row.None? {
        LogFin(w, FinFindNone, Some(Finishing(u, size, Reserving(sha, false))));
        return Some(None);
      }
      if w.objects[row.value].status.Deleting? { Stop(); return None; }
      var ready := w.objects[row.value].status.Ready?;
      LogFin(w, FinFind(row.value), Some(Finishing(u, size, if ready then Matched(sha, row.value) else Checking(sha, row.value, false))));
      if ready { return Some(row); }
      var kept := ReconcilePending(u, size, sha, row.value, false);
      if kept.None? { return None; }
      found := Some(if kept.value then row else None);
    }

    method UnderContentLock(u: Id, size: nat, sha: nat, draw: seq<Id>) returns (r: Result)
      requires At(u, size, Keyed(sha)) && |draw| == 2
      modifies this
      ensures Valid() && th == None && Outcome(old(log), log, u, r)
      ensures Calm() && ReadyToFinalize(old(w), u, size, draw[0]) && sha == c.hash(old(w).staging[u].bytes) ==>
                FinalizesTo(c, old(w), w, quota, u, draw[0], size, r)
    {
      var found := FindObject(u, size, sha);
      FoundWorld(c, old(w), w, quota, u, draw[0], sha, size, found);
      if found.None? { return Retryable; }
      ghost var mid := log;
      if found.value.Some? {
        r := CompleteWith(u, size, sha, found.value.value);
      } else {
        r := ReserveAndWrite(u, size, sha, draw);
      }
      QuietThen(old(log), mid, log, u, r);
    }

    // Another finalizer's reservation is waiting: reconcile it, and reserve once more if that removed it.
    method ReserveAgain(u: Id, size: nat, sha: nat, id: Id, draw: Id) returns (r: Reservation)
      requires At(u, size, Checking(sha, id, true))
      modifies this
      ensures Valid() && Quiet(old(log), log)
      ensures match r
              case Made(row) => At(u, size, Owner(sha, row, Reserved))
              case Existing(row, ready) => ready && At(u, size, Matched(sha, row))
              case _ => th == None
    {
      var found := ReconcilePending(u, size, sha, id, true);
      if found.None? { return NotReserved; }
      if found.value { return Existing(id, true); }
      r := ReservePending(u, size, sha, true, draw);
    }

    // The row to fill or to share: reserved here, or somebody else's.
    method Reserve(u: Id, size: nat, sha: nat, draw: seq<Id>) returns (row: Reservation)
      requires At(u, size, Reserving(sha, false)) && |draw| == 2
      modifies this
      ensures Valid() && Quiet(old(log), log)
      ensures match row
              case Made(id) => At(u, size, Owner(sha, id, Reserved))
              case Existing(id, ready) => ready && At(u, size, Matched(sha, id))
              case _ => th == None
      ensures Calm() && NoRow(old(w).objects, sha, size) && draw[0] !in old(w).used ==>
                if OverBudget(quota, size, StoredBytes(old(w).objects)) then row == OverQuota && w == old(w)
                else row == Made(draw[0]) && w == WithRow(old(w), draw[0], sha, size)
    {
      var ok := Op(u);   // free space
      if !ok { Stop(); return NotReserved; }
      row := ReservePending(u, size, sha, false, draw[0]);
      if row.Existing? && !row.ready {
        row := ReserveAgain(u, size, sha, row.id, draw[1]);
        if row.OverQuota? { row := NotReserved; }
      }
    }

    method ReserveAndWrite(u: Id, size: nat, sha: nat, draw: seq<Id>) returns (r: Result)
      requires At(u, size, Reserving(sha, false)) && |draw| == 2
      modifies this
      ensures Valid() && th == None && Outcome(old(log), log, u, r)
      ensures Calm() && Waiting(old(w), u) && InStage(old(w), u, size) && NoRow(old(w).objects, sha, size)
              && draw[0] !in old(w).used && draw[0] !in old(w).finals ==>
                StoresNew(old(w), w, quota, u, draw[0], sha, size, old(w).staging[u].bytes, r)
    {
      var row := Reserve(u, size, sha, draw);
      if row.OverQuota? { return Quota; }
      if row.NotReserved? { return Retryable; }
      ghost var mid := log;
      if row.Existing? {
        r := CompleteWith(u, size, sha, row.id);
      } else {
        r := WriteObject(u, size, sha, row.id);
      }
      QuietThen(old(log), mid, log, u, r);
    }
  }

  // Completed is reported exactly when one of the new steps completed the upload with that file.
  ghost predicate Outcome(from: seq<Entry>, to: seq<Entry>, u: Id, r: Result) {
    && from <= to
    && match r
       case Completed(file) => exists i :: |from| <= i < |to| && CompletedBy(to[i], u, file)
       case _ => Quiet(from, to)
  }

  lemma SealAccepts(c: Config, w: World, w': World, u: Id, r: Option<Result>, size: nat)
    requires c.chunk > 0 && u in w.sessions && InStage(w, u, w.sessions[u].size)
    ensures Accepting(w, u) && SealsTo(c, SetStage(w, u, SyncStage(w.staging[u])), w', u, r, size) ==> AcceptsTo(c, w, w', u, r, size)
  {}

  // What is left to do once the row was looked for.
  ghost predicate Continues(c: Config, w: World, v: World, w': World, quota: Option<nat>, u: Id, id: Id, sha: nat, size: nat,
                            found: Option<Option<Id>>, r: Result)
    requires u in w.staging
  {
    match found
    case None => r == Retryable && w' == v
    case Some(Some(row)) => u in v.sessions && r == Result.Completed(row) && w' == Served(v, u, row)
    case Some(None) => u in v.sessions && StoresNew(v, w', quota, u, id, sha, size, w.staging[u].bytes, r)
  }

  ghost predicate FoundIn(w: World, v: World, u: Id, id: Id, sha: nat, size: nat, found: Option<Option<Id>>) {
    && Waiting(v, u) && v.staging == w.staging && v.used == w.used && id !in v.finals
    && (found == Some(None) ==> NoRow(v.objects, sha, size))
    && (found.Some? && found.value.Some? ==> HasRow(v.objects, found.value.value, Ready))
  }

  lemma FoundRowIn(c: Config, w: World, v: World, u: Id, id: Id, row: Id, sha: nat, size: nat, found: Option<Option<Id>>)
    requires ReadyToFinalize(w, u, size, id) && IsRow(w.objects, row, sha, size) && FoundRow(c, w, v, row, sha, size, found)
    ensures FoundIn(w, v, u, id, sha, size, found)
  {
    OneRow(w, row, id, sha, size);
    if w.objects[row].status.Pending? {
      var kept :| Reconciled(c, w, v, row, sha, size, kept) && found == if kept.None? then None else Some(if kept.value then Some(row) else None);
      FoundPendingIn(c, w, v, u, row, sha, size, kept);
    }
  }

  lemma OneRow(w: World, row: Id, id: Id, sha: nat, size: nat)
    requires Orderly(w, id) && IsRow(w.objects, row, sha, size)
    ensures (forall i | IsRow(w.objects, i, sha, size) :: i == row) && id !in w.finals
  {}

  lemma FoundPendingIn(c: Config, w: World, v: World, u: Id, row: Id, sha: nat, size: nat, kept: Option<bool>)
    requires Waiting(w, u) && IsRow(w.objects, row, sha, size) && Reconciled(c, w, v, row, sha, size, kept)
    requires forall i | IsRow(w.objects, i, sha, size) :: i == row
    ensures Waiting(v, u) && v.staging == w.staging && v.used == w.used && v.finals == w.finals
    ensures kept == Some(true) ==> HasRow(v.objects, row, Ready)
    ensures kept == Some(false) ==> NoRow(v.objects, sha, size)
  {
    if kept == Some(false) {
      forall i | i in v.objects ensures !IsRow(v.objects, i, sha, size) { assert i != row && !IsRow(w.objects, i, sha, size); }
    }
  }

  lemma FoundPendingThen(c: Config, w: World, v: World, w': World, quota: Option<nat>, u: Id, id: Id, row: Id, sha: nat, size: nat,
                         kept: Option<bool>, r: Result)
    requires u in w.sessions && u in w.staging && row in w.objects && Reconciled(c, w, v, row, sha, size, kept)
    requires Continues(c, w, v, w', quota, u, id, sha, size, if kept.None? then None else Some(if kept.value then Some(row) else None), r)
    ensures TakesOver(c, w, w', quota, u, row, id, sha, size, w.staging[u].bytes, r)
  {}

  lemma FoundRowThen(c: Config, w: World, v: World, w': World, quota: Option<nat>, u: Id, id: Id, row: Id, sha: nat, size: nat,
                     found: Option<Option<Id>>, r: Result)
    requires u in w.sessions && u in w.staging && row in w.objects
    requires FoundRow(c, w, v, row, sha, size, found) && Continues(c, w, v, w', quota, u, id, sha, size, found, r)
    ensures SharesTo(c, w, w', quota, u, row, id, sha, size, w.staging[u].bytes, r)
  {
    if w.objects[row].status.Pending? {
      var kept :| Reconciled(c, w, v, row, sha, size, kept) && found == if kept.None? then None else Some(if kept.value then Some(row) else None);
      FoundPendingThen(c, w, v, w', quota, u, id, row, sha, size, kept, r);
    }
  }

  lemma OneRowFinalizes(c: Config, w: World, w': World, quota: Option<nat>, u: Id, id: Id, row: Id, sha: nat, size: nat, r: Result)
    requires ReadyToFinalize(w, u, size, id) && IsRow(w.objects, row, sha, size) && sha == c.hash(w.staging[u].bytes)
    requires SharesTo(c, w, w', quota, u, row, id, sha, size, w.staging[u].bytes, r) <==> true
    ensures FinalizesTo(c, w, w', quota, u, id, size, r)
  {
    assert forall i | IsRow(w.objects, i, sha, size) :: i == row;
  }

  lemma FoundWorld(c: Config, w: World, v: World, quota: Option<nat>, u: Id, id: Id, sha: nat, size: nat, found: Option<Option<Id>>)
    ensures ReadyToFinalize(w, u, size, id) && sha == c.hash(w.staging[u].bytes) && FindsTo(c, w, v, sha, size, found) ==>
              && FoundIn(w, v, u, id, sha, size, found)
              && forall w', r | Continues(c, w, v, w', quota, u, id, sha, size, found, r) :: FinalizesTo(c, w, w', quota, u, id, size, r)
  {
    if ReadyToFinalize(w, u, size, id) && sha == c.hash(w.staging[u].bytes) && FindsTo(c, w, v, sha, size, found) {
      if row :| IsRow(w.objects, row, sha, size) {
        assert OnlyRow(w, row);
        FoundRowIn(c, w, v, u, id, row, sha, size, found);
        forall w', r | Continues(c, w, v, w', quota, u, id, sha, size, found, r) ensures FinalizesTo(c, w, w', quota, u, id, size, r) {
          FoundRowThen(c, w, v, w', quota, u, id, row, sha, size, found, r);
          OneRowFinalizes(c, w, w', quota, u, id, row, sha, size, r);
        }
      }
    }
  }

  // One more chunk.
  lemma CopiedMore(w0: World, w1: World, w2: World, u: Id, id: Id, from: nat, to: nat)
    requires u in w1.staging && from <= to <= |w1.staging[u].bytes|
    requires w2 == w1.(temps := if id in w1.temps then w1.temps[id := Blob(w1.temps[id].bytes + w1.staging[u].bytes[from..to], false)] else w1.temps)
    requires u in w0.staging ==> w0.staging[u] == w1.staging[u]
    ensures Copied(w0, w1, u, id, from) ==> Copied(w0, w2, u, id, to)
  {
    var b := w1.staging[u].bytes;
    assert b[..from] + b[from..to] == b[..to];
    if Copied(w0, w1, u, id, from) && u in w0.staging && id in w0.temps && w0.temps[id] == Blob([], false) {
      assert w1 == w0.(temps := w0.temps[id := Blob(b[..from], false)]);
      assert w2.temps == w0.temps[id := Blob(b[..to], false)];
    }
  }

  lemma CopiedAll(w: World, w': World, u: Id, id: Id, size: nat)
    ensures InStage(w, u, size) && Copied(w, w', u, id, size) ==> CopiedWhole(w, w', u, id)
  {
    if InStage(w, u, size) { assert w.staging[u].bytes[..size] == w.staging[u].bytes; }
  }

  // The upload is COMPLETED with this file.
  predicate CompletedWith(w: World, u: Id, file: Id) {
    u in w.sessions && w.sessions[u].status == SessionStatus.Completed && w.sessions[u].file == Some(file)
  }

  lemma StoredIsCompleted(w: World, w': World, quota: Option<nat>, u: Id, id: Id, sha: nat, size: nat, bytes: Bytes, file: Id)
    requires u in w.sessions && StoresNew(w, w', quota, u, id, sha, size, bytes, Result.Completed(file))
    ensures CompletedWith(w', u, file)
  {}

  lemma SharedIsCompleted(c: Config, w: World, w': World, quota: Option<nat>, u: Id, row: Id, id: Id, sha: nat, size: nat, bytes: Bytes, file: Id)
    requires u in w.sessions && row in w.objects && SharesTo(c, w, w', quota, u, row, id, sha, size, bytes, Result.Completed(file))
    ensures CompletedWith(w', u, file)
  {
    if w.objects[row].status.Pending? { TakenIsCompleted(c, w, w', quota, u, row, id, sha, size, bytes, file); }
  }

  lemma TakenIsCompleted(c: Config, w: World, w': World, quota: Option<nat>, u: Id, row: Id, id: Id, sha: nat, size: nat, bytes: Bytes, file: Id)
    requires u in w.sessions && row in w.objects && TakesOver(c, w, w', quota, u, row, id, sha, size, bytes, Result.Completed(file))
    ensures CompletedWith(w', u, file)
  {
    if row !in w.finals { StoredIsCompleted(WithoutObject(DropTemp(w, row), row), w', quota, u, id, sha, size, bytes, file); }
  }

  lemma FinalizedIsCompleted(c: Config, w: World, w': World, quota: Option<nat>, u: Id, id: Id, size: nat, file: Id)
    requires u in w.sessions && u in w.staging && FinalizesTo(c, w, w', quota, u, id, size, Result.Completed(file))
    ensures CompletedWith(w', u, file)
  {
    var bytes := w.staging[u].bytes;
    if row :| IsRow(w.objects, row, c.hash(bytes), size) {
      SharedIsCompleted(c, w, w', quota, u, row, id, c.hash(bytes), size, bytes, file);
    } else {
      StoredIsCompleted(w, w', quota, u, id, c.hash(bytes), size, bytes, file);
    }
  }

  /** A client that lost the reply may ask again: an undisturbed Complete after one that completed the upload says so and
      changes nothing. */
  lemma RepeatedCompleteIsAnswered(c: Config, w: World, w1: World, w2: World, quota: Option<nat>, u: Id, id: Id, file: Id, again: Result)
    requires c.chunk > 0 && AnswersByRow(c, w, w1, u, Result.Completed(file)) && CompletesTo(c, w, w1, quota, u, id, Result.Completed(file))
    requires AnswersByRow(c, w1, w2, u, again)
    ensures again == Already && w2 == w1 && w1.sessions[u].file == Some(file)
  {
    if Waiting(w, u) {
      FinalizedIsCompleted(c, w, w1, quota, u, id, w.sessions[u].size, file);
    } else {
      FinalizedIsCompleted(c, Sealed(c, w, u), w1, quota, u, id, w.sessions[u].size, file);
    }
  }

  // data was written into the staging file of u.
  ghost predicate PutBytes(m: map<Id, StageFile>, m': map<Id, StageFile>, u: Id, offset: nat, data: Bytes) {
    && u in m && offset + |data| <= |m[u].bytes| == |m[u].clean| && m' == m[u := WriteStage(m[u], offset, data)]
  }

  lemma PatchMore(m: map<Id, StageFile>, m1: map<Id, StageFile>, m2: map<Id, StageFile>, u: Id, offset: nat, body: Bytes, data: Bytes)
    requires PutBytes(m1, m2, u, offset + |body|, data)
    ensures Patched(m, m1, u, offset, body) ==> Patched(m, m2, u, offset, body + data)
  {
    if Patched(m, m1, u, offset, body) { OverwriteMore(m[u].bytes, offset, body, data); }
  }

  lemma OverwriteMore<T>(bytes: seq<T>, offset: nat, body: seq<T>, data: seq<T>)
    requires offset + |body| + |data| <= |bytes|
    ensures Overwrite(Overwrite(bytes, offset, body), offset + |body|, data) == Overwrite(bytes, offset, body + data)
  {}

  // The whole stream, or as much of it as the part takes, is in place.
  ghost predicate BodyStored(c: Config, w: World, w': World, u: Id, k: nat, size: nat, body: Stream, r: Option<Refusal>)
    requires c.chunk > 0
  {
    var n := PartLength(c, size, k);
    && w' == w.(staging := w'.staging)
    && Patched(w.staging, w'.staging, u, k * c.chunk, if |body.bytes| <= n then body.bytes else body.bytes[..n])
    && (r.None? <==> Delivers(c, size, k, body))
    && (r.Some? ==> r == Some(if body.broken && |body.bytes| <= n then StreamBroken else SizeMismatch))
  }

  // Invalidating the part first makes no difference to what is stored.
  lemma StoresOver(c: Config, w: World, w': World, u: Id, k: nat, body: Stream, r: Option<Refusal>)
    requires c.chunk > 0
    ensures u in w.sessions && PutStores(c, w.(parts := w.parts - {(u, k)}), w', u, k, body, r) ==> PutStores(c, w, w', u, k, body, r)
  {
    if u in w.sessions {
      var n := PartLength(c, w.sessions[u].size, k);
      assert (w.parts - {(u, k)})[(u, k) := n] == w.parts[(u, k) := n];
    }
    assert w.parts - {(u, k)} - {(u, k)} == w.parts - {(u, k)};
  }

  // SELECT part_number, size_bytes ... ORDER BY part_number
  function Listed(w: World, u: Id): seq<Key> {
    All(Asc, set p | p in w.parts && p.0 == u :: (p.1, w.parts[p]))
  }

  // The parts are complete exactly when the list is 0, 1, 2, ... with the declared sizes.
  lemma ListedMeaning(c: Config, w: World, u: Id)
    requires c.chunk > 0 && u in w.sessions
    ensures var size := w.sessions[u].size; var parts := Listed(w, u);
            AllParts(c, w, u) <==> |parts| == PartCount(size, c.chunk) && forall i | 0 <= i < |parts| :: parts[i] == (i, PartLength(c, size, i))
  {
    var size := w.sessions[u].size; var parts := Listed(w, u); var n := PartCount(size, c.chunk);
    var keys := set p | p in w.parts && p.0 == u :: (p.1, w.parts[p]);
    AllMeaning(Asc, keys);
    if AllParts(c, w, u) {
      forall k: nat | k < n ensures (k, PartLength(c, size, k)) in parts { assert (u, k) in w.parts; }
      InOrder(parts, n, k requires 0 <= k => PartLength(c, size, k));
    } else if |parts| == n && forall i | 0 <= i < |parts| :: parts[i] == (i, PartLength(c, size, i)) {
      forall k: nat | k < n ensures (u, k) in w.parts && w.parts[(u, k)] == PartLength(c, size, k) { assert parts[k] in keys; }
      forall p | p in w.parts && p.0 == u ensures p.1 < n { assert (p.1, w.parts[p]) in parts; }
      assert false;
    }
  }

  // A sorted list of all the pairs (k, f(k)) with k < n, and nothing else, has them in place.
  lemma InOrder(parts: seq<Key>, n: nat, f: nat -> nat)
    requires Sorted(Asc, parts)
    requires (forall x | x in parts :: 0 <= x.0 < n && x.1 == f(x.0)) && forall k: nat | k < n :: (k, f(k)) in parts
    ensures |parts| == n && forall i | 0 <= i < n :: parts[i] == (i, f(i))
  {
    var m := if |parts| < n then |parts| else n;
    assert |parts| < n ==> (|parts|, f(|parts|)) in parts;
    InPlace(parts, n, f, m);
    if |parts| >= n && parts != [] {
      var last := |parts| - 1;
      assert parts[last] in parts;
      SamePlace(parts, last, parts[last].0);
    }
  }

  lemma SamePlace(parts: seq<Key>, i: nat, j: nat)
    requires Sorted(Asc, parts) && i < |parts| && j < |parts|
    ensures parts[i] == parts[j] ==> i == j
  {
    if i < j { assert Less(Asc, parts[i], parts[j]); }
    if j < i { assert Less(Asc, parts[j], parts[i]); }
  }

  lemma {:induction false} InPlace(parts: seq<Key>, n: nat, f: nat -> nat, m: nat)
    requires Sorted(Asc, parts) && m <= |parts| && m <= n
    requires (forall x | x in parts :: 0 <= x.0 < n && x.1 == f(x.0)) && forall k: nat | k < n :: (k, f(k)) in parts
    ensures forall i | 0 <= i < m :: parts[i] == (i, f(i))
  {
    if m > 0 {
      var i: nat := m - 1;
      InPlace(parts, n, f, i);
      assert parts[i] in parts;
      var at :| 0 <= at < |parts| && parts[at] == (i, f(i));
      assert at >= i;
    }
  }

  lemma OneThenQuiet(from: seq<Entry>, e: Entry, to: seq<Entry>, u: Id, id: Id)
    requires Quiet(from + [e], to) && CompletedBy(e, u, id)
    ensures Outcome(from, to, u, Result.Completed(id))
  {
    assert to[|from|] == (from + [e])[|from|];
  }

  lemma QuietThen(from: seq<Entry>, mid: seq<Entry>, to: seq<Entry>, u: Id, r: Result)
    requires Quiet(from, mid) && Outcome(mid, to, u, r)
    ensures Outcome(from, to, u, r)
  {
    forall i | |from| <= i < |mid| ensures to[i] == mid[i] {}
  }
}
