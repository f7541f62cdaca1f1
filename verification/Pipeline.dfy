/** The life of an uploaded file as a protocol over database rows, files and in-process threads:
    part writes, completion, deduplicated finalization, binding to messages, garbage collection.
    One step is one SQL transaction, one file operation, or one lock acquisition; a crash may fall
    between any two of them. It discards every thread (and with it every in-process lock) and may
    garble bytes that were never synced; rows, file names and file lengths survive it. */
module Pipeline {
  import opened Basics
  import opened Parts
  import opened Sums

  type Id = nat
  type Part = (Id, nat)

  // `hash` stands for SHA-256, `maxStaging` for UPLOAD_STAGING_MAX_BYTES.
  datatype Config = Config(hash: Bytes -> nat, chunk: nat, maxStaging: nat)

  const LEASE: int := 24 * 60 * 60

  datatype SessionStatus = Created | Uploading | Completing | Completed | Failed | Expired
  datatype Session = Session(size: nat, status: SessionStatus, expires: int,
                             file: Option<Id>, consumed: bool, completedAt: int)

  datatype ObjectStatus = Pending | Ready | Deleting
  datatype Object = Object(sha: nat, size: nat, status: ObjectStatus, readyAt: int)

  // `origin` is history: the upload whose binding first created this reference.
  datatype Attachment = Attachment(file: Id, origin: Id)

  // `clean[i]` says that byte i has been synced since it was last written.
  datatype StageFile = StageFile(bytes: Bytes, clean: seq<bool>)
  datatype Blob = Blob(bytes: Bytes, synced: bool)

  datatype PutPc = PutLocked | PutChecked | Writing | Synced
  datatype OwnPc = Reserved | Copying(n: nat) | Flushed | Refused | Renamed | Statted | Undo | UndoRow
  datatype FinPc =
    | Locked | StageSynced | StatStage | Hashing(read: Bytes) | Hashed(sha: nat) | Keyed(sha: nat)
    | Matched(sha: nat, id: Id)
    | Checking(sha: nat, id: Id, last: bool) | Missing(sha: nat, id: Id, last: bool)
    | Absent(sha: nat, id: Id, last: bool) | Verified(sha: nat, id: Id)
    | Reserving(sha: nat, last: bool)
    | Owner(sha: nat, id: Id, own: OwnPc)
    | DropStage
  datatype ResolvePc = ResStart | ResMissing | ResAbsent | ResVerified

  datatype Thread =
    | Creating(u: Id, size: nat, expires: int, made: bool)           // Service.Create inside its transaction
    | Putting(u: Id, k: nat, size: nat, body: Bytes, put: PutPc)     // PutPart, holding Chunk(u, k)
    | Finishing(u: Id, size: nat, pc: FinPc)                         // Complete and Finalize, holding Exclusive(u)
    | Cleaning(u: Id, fileGone: bool)                                // expired upload, holding Exclusive(u)
    | Sweeping(doomed: set<Id>, filtered: bool)                      // ReconcileStaging, holding stagingLife
    | Resolving(id: Id, row: Object, res: ResolvePc)                 // files.reconcilePending
    | Erasing(id: Id, fileGone: bool)                                // files.deleteObject

  // Everything that survives a crash, with three history fields.
  datatype World = World(
    clock: int,
    used: set<Id>,                      // every identifier ever drawn
    sessions: map<Id, Session>,
    parts: map<Part, nat>,              // upload_parts: committed size
    objects: map<Id, Object>,
    attachments: map<Id, Attachment>,
    busy: set<Id>,                      // objects with a PENDING or RUNNING thumbnail job
    staging: map<Id, StageFile>,
    temps: map<Id, Blob>,
    finals: map<Id, Blob>,
    written: map<Part, Bytes>,          // history: the body behind each committed marker
    sealed: map<Id, Bytes>,             // history: the joined bodies when Complete accepted the upload
    born: set<Id>)                      // history: the uploads that ever had a row

  datatype State = State(w: World, threads: map<nat, Thread>)

  ghost predicate Init(s: State) {
    && s.threads == map[] && s.w.sessions == map[] && s.w.parts == map[] && s.w.objects == map[]
    && s.w.attachments == map[] && s.w.busy == {} && s.w.staging == map[] && s.w.finals == map[] && s.w.temps == map[]
    && s.w.written == map[] && s.w.sealed == map[] && s.w.born == {}
  }

  // ---- Vocabulary -------------------------------------------------------------------------------

  // sql/generated/uploads.sql.go:177: the statuses whose staging file is kept.
  predicate Active(status: SessionStatus) { status in {Created, Uploading, Completing, Failed} }

  predicate Open(status: SessionStatus) { status in {Created, Uploading} }

  function PartLength(c: Config, size: nat, k: nat): nat
    requires c.chunk > 0
  { if k < PartCount(size, c.chunk) then PartSize(size, c.chunk, k) else 0 }

  function ActiveSizes(sessions: map<Id, Session>): map<Id, nat> {
    map u | u in sessions && Active(sessions[u].status) :: sessions[u].size
  }

  ghost function ActiveBytes(sessions: map<Id, Session>): nat { Total(ActiveSizes(sessions)) }

  function ObjectSizes(objects: map<Id, Object>): map<Id, nat> { map id | id in objects :: objects[id].size }

  ghost function StoredBytes(objects: map<Id, Object>): nat { Total(ObjectSizes(objects)) }

  predicate HasRow(objects: map<Id, Object>, id: Id, status: ObjectStatus) { id in objects && objects[id].status == status }

  predicate IsRow(objects: map<Id, Object>, id: Id, sha: nat, size: nat) {
    id in objects && objects[id].sha == sha && objects[id].size == size
  }

  ghost predicate NoRow(objects: map<Id, Object>, sha: nat, size: nat) { forall id | id in objects :: !IsRow(objects, id, sha, size) }

  ghost predicate Referenced(w: World, id: Id) { exists a :: a in w.attachments && w.attachments[a].file == id }

  function SyncStage(f: StageFile): StageFile { f.(clean := seq(|f.bytes|, _ => true)) }

  function WriteStage(f: StageFile, offset: nat, data: Bytes): StageFile
    requires offset + |data| <= |f.bytes| == |f.clean|
  { StageFile(Overwrite(f.bytes, offset, data), Overwrite(f.clean, offset, seq(|data|, _ => false))) }

  function EmptyStage(size: nat): StageFile { StageFile(seq(size, _ => 0), seq(size, _ => false)) }

  function SetStage(w: World, u: Id, f: StageFile): World { w.(staging := w.staging[u := f]) }

  function DropStageFile(w: World, u: Id): World { w.(staging := w.staging - {u}) }

  // The staging file of upload u is the same.
  predicate SameStage(w: World, w': World, u: Id) {
    (u in w'.staging <==> u in w.staging) && (u in w.staging ==> w'.staging[u] == w.staging[u])
  }

  function SetSession(w: World, u: Id, x: Session): World { w.(sessions := w.sessions[u := x]) }

  function DropTemp(w: World, id: Id): World { w.(temps := w.temps - {id}) }

  // Row deletion with its foreign keys: parts cascade with their session, a session forgets a deleted object.
  function WithoutSessions(w: World, us: set<Id>): World {
    w.(sessions := w.sessions - us, parts := map p | p in w.parts && p.0 !in us :: w.parts[p])
  }

  function Unlinked(sessions: map<Id, Session>, id: Id): map<Id, Session> {
    map u | u in sessions :: if sessions[u].file == Some(id) then sessions[u].(file := None) else sessions[u]
  }

  function WithoutObject(w: World, id: Id): World {
    w.(objects := w.objects - {id}, sessions := Unlinked(w.sessions, id))
  }

  function Promoted(w: World, id: Id): World
    requires id in w.objects
  { w.(objects := w.objects[id := w.objects[id].(status := Ready, readyAt := w.clock)]) }

  function Finished(w: World, u: Id, id: Id): World
    requires u in w.sessions
  { SetSession(w, u, w.sessions[u].(status := Completed, file := Some(id), completedAt := w.clock)) }

  // ---- Locks -------------------------------------------------------------------------------------

  predicate Touches(th: Thread, u: Id) { (th.Putting? || th.Finishing? || th.Cleaning?) && th.u == u }

  // LockRegistry.Exclusive(u) can be taken; LockRegistry.Chunk(u, k) can be taken.
  ghost predicate ExclusiveFree(s: State, u: Id) { forall t | t in s.threads :: !Touches(s.threads[t], u) }

  ghost predicate ChunkFree(s: State, u: Id, k: nat) {
    forall t | t in s.threads && Touches(s.threads[t], u) :: s.threads[t].Putting? && s.threads[t].k != k
  }

  // The finalizer's content lock, keyed by hash and size.
  predicate HoldsContent(th: Thread) {
    th.Finishing? && !(th.pc.Locked? || th.pc.StageSynced? || th.pc.StatStage? || th.pc.Hashing? || th.pc.Hashed? || th.pc.DropStage?)
  }

  ghost predicate ContentFree(s: State, sha: nat, size: nat) {
    forall t | t in s.threads && HoldsContent(s.threads[t]) :: !(s.threads[t].pc.sha == sha && s.threads[t].size == size)
  }

  ghost predicate LifeFree(s: State) { forall t | t in s.threads :: !s.threads[t].Creating? && !s.threads[t].Sweeping? }

  // ---- Entering: lock acquisition and row scans ---------------------------------------------------

  datatype BeginAct =
    | CreateBegin(u: Id, size: nat, expires: int) | PutLock(u: Id, k: nat) | FinLock(u: Id) | CleanBegin(u: Id)
    | SweepBegin | ResolveBegin(id: Id) | EraseBegin(id: Id)

  ghost predicate BeginStep(c: Config, s: State, w': World, th: Thread, a: BeginAct) {
    var w := s.w;
    match a
    case CreateBegin(u, size, expires) =>   // stagingLife.RLock and the reservation advisory lock
      && LifeFree(s) && u !in w.used && ActiveBytes(w.sessions) + size <= c.maxStaging
      && th == Creating(u, size, expires, false) && w' == w.(used := w.used + {u})
    case PutLock(u, k) => ChunkFree(s, u, k) && th == Putting(u, k, 0, [], PutLocked) && w' == w
    case FinLock(u) => ExclusiveFree(s, u) && th == Finishing(u, 0, Locked) && w' == w
    case CleanBegin(u) =>   // an expired upload found earlier; its row may be gone by now
      && ExclusiveFree(s, u) && u in w.born && (u in w.sessions ==> w.sessions[u].status == Expired)
      && th == Cleaning(u, false) && w' == w
    case SweepBegin => LifeFree(s) && th == Sweeping(w.staging.Keys, false) && w' == w   // stagingLife.Lock
    case ResolveBegin(id) => HasRow(w.objects, id, Pending) && th == Resolving(id, w.objects[id], ResStart) && w' == w
    case EraseBegin(id) => HasRow(w.objects, id, Deleting) && th == Erasing(id, false) && w' == w
  }

  // ---- Creating an upload: internal/uploads/service.go 63-111 ------------------------------------
  // A thread step relates the world, and the thread itself, before and after; None means the thread ends.

  datatype CreateAct = CreateFile | CreateInsert | CreateUndo(removed: bool)

  ghost predicate CreateStep(w: World, w': World, th: Thread, th': Option<Thread>, a: CreateAct) {
    && th.Creating?
    && match a
       case CreateFile => !th.made && th' == Some(th.(made := true)) && w' == SetStage(w, th.u, EmptyStage(th.size))
       case CreateInsert =>
         th.made && th' == None && w' == SetSession(w, th.u, Session(th.size, Created, th.expires, None, false, 0)).(born := w.born + {th.u})
       case CreateUndo(removed) => th' == None && w' == if removed then DropStageFile(w, th.u) else w
  }

  // ---- Writing one part: internal/uploads/service.go 129-208, repository.go 146-179 ---------------

  datatype PutAct = PutCheck | PutInvalidate | PutWrite(data: Bytes) | PutSync | PutCommit | PutStop

  ghost predicate PutStep(c: Config, w: World, w': World, th: Thread, th': Option<Thread>, a: PutAct)
    requires c.chunk > 0
  {
    && th.Putting?
    && var u := th.u; var offset := th.k * c.chunk + |th.body|;
    && match a
       case PutCheck =>
         && th.put.PutLocked? && u in w.sessions && w.sessions[u].expires > w.clock
         && Open(w.sessions[u].status) && th.k < PartCount(w.sessions[u].size, c.chunk)
         && th' == Some(th.(size := w.sessions[u].size, put := PutChecked)) && w' == w
       case PutInvalidate =>
         th.put.PutChecked? && th' == Some(th.(put := Writing)) && w' == w.(parts := w.parts - {(u, th.k)})
       case PutWrite(data) =>
         && th.put.Writing? && |th.body| + |data| <= PartLength(c, th.size, th.k)
         && u in w.staging && offset + |data| <= |w.staging[u].bytes| == |w.staging[u].clean|
         && th' == Some(th.(body := th.body + data)) && w' == SetStage(w, u, WriteStage(w.staging[u], offset, data))
       case PutSync =>
         && th.put.Writing? && |th.body| == PartLength(c, th.size, th.k) && u in w.staging
         && th' == Some(th.(put := Synced)) && w' == SetStage(w, u, SyncStage(w.staging[u]))
       case PutCommit =>
         && th.put.Synced? && u in w.sessions && w.sessions[u].expires > w.clock && Open(w.sessions[u].status)
         && th' == None
         && w' == SetSession(w, u, w.sessions[u].(status := Uploading)).(
              parts := w.parts[(u, th.k) := |th.body|], written := w.written[(u, th.k) := th.body])
       case PutStop => th' == None && w' == w
  }

  // ---- Completing and finalizing: internal/uploads/service.go 210-252, finalize.go ----------------

  // What Complete validates before the upload may become COMPLETING.
  ghost predicate AllParts(c: Config, w: World, u: Id)
    requires c.chunk > 0 && u in w.sessions
  {
    var n := PartCount(w.sessions[u].size, c.chunk);
    && (forall k: nat | k < n :: (u, k) in w.parts && w.parts[(u, k)] == PartLength(c, w.sessions[u].size, k))
    && (forall p | p in w.parts && p.0 == u :: p.1 < n)
  }

  // Complete up to the computed hash.
  datatype SealAct = FinSync | FinSeal | FinResume | FinStat | FinFail | FinRead(n: nat) | FinHash | FinDropStage | FinStop

  ghost predicate SealStep(c: Config, w: World, w': World, th: Thread, th': Option<Thread>, a: SealAct)
    requires c.chunk > 0
  {
    && th.Finishing?
    && var u := th.u; var pc := th.pc;
    && match a
       case FinSync => pc.Locked? && u in w.sessions && Open(w.sessions[u].status) && u in w.staging && th' == Some(th.(pc := StageSynced)) && w' == SetStage(w, u, SyncStage(w.staging[u]))
       case FinSeal =>
         && pc.StageSynced? && u in w.sessions && Open(w.sessions[u].status) && w.sessions[u].expires > w.clock
         && u in w.staging && |w.staging[u].bytes| == w.sessions[u].size && AllParts(c, w, u)
         && th' == Some(Finishing(u, w.sessions[u].size, StatStage))
         && w' == SetSession(w, u, w.sessions[u].(status := Completing)).(
              sealed := w.sealed[u := Joined(w.written, u, PartCount(w.sessions[u].size, c.chunk))])
       case FinResume =>
         && pc.Locked? && u in w.sessions && w.sessions[u].status == Completing
         && th' == Some(Finishing(u, w.sessions[u].size, StatStage)) && w' == w
       case FinStat =>
         pc.StatStage? && u in w.staging && |w.staging[u].bytes| == th.size && th' == Some(th.(pc := Hashing([]))) && w' == w
       case FinFail =>   // markFailed: the staging file is missing, mis-sized or unreadable
         && (pc.StatStage? || pc.Hashing?) && u in w.sessions && w.sessions[u].status == Completing
         && th' == None && w' == SetSession(w, u, w.sessions[u].(status := Failed))
       case FinRead(n) =>
         && pc.Hashing? && u in w.staging && |pc.read| + n <= |w.staging[u].bytes|
         && th' == Some(th.(pc := Hashing(pc.read + w.staging[u].bytes[|pc.read|..|pc.read| + n]))) && w' == w
       case FinHash =>
         && pc.Hashing? && u in w.staging && |pc.read| == |w.staging[u].bytes| == th.size
         && th' == Some(th.(pc := Hashed(c.hash(pc.read)))) && w' == w
       case FinDropStage => pc.DropStage? && th' == None && w' == DropStageFile(w, u)
       case FinStop => !pc.Owner? && th' == None && w' == w   // any error return before a reservation is owned
  }

  // Under the content lock: find, reconcile or reserve the object row.
  datatype FinAct =
    | FinFindNone | FinFind(id: Id) | FinMissing | FinDropTemp | FinDropRow | FinVerify | FinPromote
    | FinReserve(id: Id, quota: Option<nat>) | FinReserveFound(id: Id) | FinLink

  ghost predicate FinStep(c: Config, w: World, w': World, th: Thread, th': Option<Thread>, a: FinAct) {
    && th.Finishing?
    && var u := th.u; var pc := th.pc;
    && match a
       case FinFindNone => pc.Keyed? && NoRow(w.objects, pc.sha, th.size) && th' == Some(th.(pc := Reserving(pc.sha, false))) && w' == w
       case FinFind(id) =>
         && pc.Keyed? && IsRow(w.objects, id, pc.sha, th.size) && !w.objects[id].status.Deleting? && w' == w
         && th' == Some(th.(pc := if w.objects[id].status.Ready? then Matched(pc.sha, id) else Checking(pc.sha, id, false)))
       case FinMissing =>
         pc.Checking? && pc.id !in w.finals && th' == Some(th.(pc := Missing(pc.sha, pc.id, pc.last))) && w' == w
       case FinDropTemp =>
         pc.Missing? && th' == Some(th.(pc := Absent(pc.sha, pc.id, pc.last))) && w' == DropTemp(w, pc.id)
       case FinDropRow =>
         && pc.Absent? && HasRow(w.objects, pc.id, Pending) && !Referenced(w, pc.id)
         && (forall v | v in w.sessions :: w.sessions[v].file != Some(pc.id))
         && th' == Some(th.(pc := Reserving(pc.sha, pc.last))) && w' == WithoutObject(w, pc.id)
       case FinVerify =>
         && pc.Checking? && pc.id in w.finals && |w.finals[pc.id].bytes| == th.size && c.hash(w.finals[pc.id].bytes) == pc.sha
         && th' == Some(th.(pc := Verified(pc.sha, pc.id))) && w' == w
       case FinPromote =>
         && pc.Verified? && HasRow(w.objects, pc.id, Pending) && IsRow(w.objects, pc.id, pc.sha, th.size)
         && th' == Some(th.(pc := Matched(pc.sha, pc.id))) && w' == Promoted(w, pc.id)
       case FinReserve(id, quota) =>
         && pc.Reserving? && id !in w.used && NoRow(w.objects, pc.sha, th.size)
         && (quota.Some? ==> th.size <= quota.value && StoredBytes(w.objects) <= quota.value - th.size)
         && th' == Some(th.(pc := Owner(pc.sha, id, Reserved)))
         && w' == w.(used := w.used + {id}, objects := w.objects[id := Object(pc.sha, th.size, Pending, 0)])
       case FinReserveFound(id) =>
         && pc.Reserving? && !pc.last && IsRow(w.objects, id, pc.sha, th.size) && !w.objects[id].status.Deleting? && w' == w
         && th' == Some(th.(pc := if w.objects[id].status.Ready? then Matched(pc.sha, id) else Checking(pc.sha, id, true)))
       case FinLink =>   // completeWith
         && pc.Matched? && u in w.sessions && w.sessions[u].status == Completing && HasRow(w.objects, pc.id, Ready)
         && th' == Some(th.(pc := DropStage)) && w' == Finished(w, u, pc.id)
  }

  // ---- Owning a reservation: internal/uploads/finalize.go 183-270 --------------------------------

  datatype OwnAct = OwnTemp | OwnCopy(n: nat) | OwnFlush | OwnRename(acked: bool) | OwnRefuse | OwnExists | OwnGone
                  | OwnStat | OwnReady | OwnUndo | OwnUndoTemp(removed: bool) | OwnUndoRow(removed: bool) | OwnStop

  ghost predicate OwnStep(w: World, w': World, th: Thread, th': Option<Thread>, a: OwnAct) {
    && th.Finishing? && th.pc.Owner?
    && var u := th.u; var id := th.pc.id; var own := th.pc.own;
    && match a
       case OwnTemp => own.Reserved? && th' == At(th, Copying(0)) && w' == w.(temps := w.temps[id := Blob([], false)])
       case OwnCopy(n) =>   // a temp removed under the open handle keeps no name
         && own.Copying? && u in w.staging && own.n <= n <= |w.staging[u].bytes| && th' == At(th, Copying(n))
         && w' == w.(temps := if id in w.temps
              then w.temps[id := Blob(w.temps[id].bytes + w.staging[u].bytes[own.n..n], false)] else w.temps)
       case OwnFlush =>
         && own.Copying? && u in w.staging && own.n == |w.staging[u].bytes| == th.size && th' == At(th, Flushed)
         && w' == w.(temps := if id in w.temps then w.temps[id := w.temps[id].(synced := true)] else w.temps)
       case OwnRename(acked) =>   // the rename may land and still be reported as failed
         && own.Flushed? && id in w.temps && id !in w.finals && th' == At(th, if acked then Renamed else Refused)
         && w' == DropTemp(w, id).(finals := w.finals[id := w.temps[id]])
       case OwnRefuse => own.Flushed? && th' == At(th, Refused) && w' == w
       case OwnExists => own.Refused? && th' == None && w' == w   // final exists, or its Stat failed: the row is kept
       case OwnGone => own.Refused? && id !in w.finals && th' == At(th, Undo) && w' == w
       case OwnStat => own.Renamed? && id in w.finals && |w.finals[id].bytes| == th.size && th' == At(th, Statted) && w' == w
       case OwnReady =>   // readyAndComplete
         && own.Statted? && u in w.sessions && w.sessions[u].status == Completing
         && HasRow(w.objects, id, Pending) && IsRow(w.objects, id, th.pc.sha, th.size)
         && th' == Some(th.(pc := DropStage)) && w' == Finished(Promoted(w, id), u, id)
       case OwnUndo => (own.Reserved? || own.Copying? || own.Flushed?) && th' == At(th, Undo) && w' == w
       case OwnUndoTemp(removed) => own.Undo? && th' == At(th, UndoRow) && w' == if removed then DropTemp(w, id) else w
       case OwnUndoRow(removed) =>
         && own.UndoRow? && (removed ==> HasRow(w.objects, id, Pending)) && th' == None
         && w' == if removed then WithoutObject(w, id) else w
       case OwnStop => (own.Renamed? || own.Statted?) && th' == None && w' == w   // keepPending: the row waits for reconciliation
  }

  function At(th: Thread, own: OwnPc): Option<Thread>
    requires th.Finishing? && th.pc.Owner?
  { Some(th.(pc := th.pc.(own := own))) }

  // ---- Maintenance: uploads/service.go 274-327, files/service.go 273-352 --------------------------

  datatype MaintAct =
    | CleanFile | CleanParts | SweepFilter | SweepDrop(u: Id)
    | ResolveMissing | ResolveDropTemp(removed: bool) | ResolveDropRow | ResolveVerify | ResolvePromote
    | EraseFile | EraseRow | MaintStop

  ghost predicate MaintStep(c: Config, w: World, w': World, th: Thread, th': Option<Thread>, a: MaintAct) {
    match a
    case CleanFile => th.Cleaning? && !th.fileGone && th' == Some(Cleaning(th.u, true)) && w' == DropStageFile(w, th.u)
    case CleanParts =>
      th.Cleaning? && th.fileGone && th' == None && w' == w.(parts := map p | p in w.parts && p.0 != th.u :: w.parts[p])
    case SweepFilter =>
      && th.Sweeping? && !th.filtered && w' == w
      && th' == Some(Sweeping(set u | u in th.doomed && !(u in w.sessions && Active(w.sessions[u].status)), true))
    case SweepDrop(u) => th.Sweeping? && th.filtered && u in th.doomed && th' == Some(th) && w' == DropStageFile(w, u)
    case ResolveMissing => th.Resolving? && th.res.ResStart? && th.id !in w.finals && th' == Some(th.(res := ResMissing)) && w' == w
    case ResolveDropTemp(removed) =>
      && th.Resolving? && th.res.ResMissing? && th' == Some(th.(res := ResAbsent)) && w' == if removed then DropTemp(w, th.id) else w
    case ResolveDropRow =>
      && th.Resolving? && th.res.ResAbsent? && HasRow(w.objects, th.id, Pending) && !Referenced(w, th.id)
      && th' == None && w' == WithoutObject(w, th.id)
    case ResolveVerify =>
      && th.Resolving? && th.res.ResStart? && th.id in w.finals
      && |w.finals[th.id].bytes| == th.row.size && c.hash(w.finals[th.id].bytes) == th.row.sha
      && th' == Some(th.(res := ResVerified)) && w' == w
    case ResolvePromote =>
      th.Resolving? && th.res.ResVerified? && HasRow(w.objects, th.id, Pending) && th' == None && w' == Promoted(w, th.id)
    case EraseFile => th.Erasing? && !th.fileGone && th' == Some(Erasing(th.id, true)) && w' == w.(finals := w.finals - {th.id})
    case EraseRow =>
      && th.Erasing? && th.fileGone && HasRow(w.objects, th.id, Deleting) && !Referenced(w, th.id)
      && th' == None && w' == WithoutObject(w, th.id)
    case MaintStop => (th.Cleaning? || th.Sweeping? || th.Resolving? || th.Erasing?) && th' == None && w' == w
  }

  // ---- Transactions on references: messages/attachments.go 51-178, files/service.go 173-212 --------

  datatype RefAct =
    | Bind(links: map<Id, Id>)              // new attachment -> upload, all in one transaction
    | CopyAll(links: map<Id, Id>)           // new attachment -> source attachment
    | Unbind(gone: set<Id>)                 // RemoveAttachment, permanent deletion, purge, user deletion
    | DropUploads(gone: set<Id>)            // user deletion
    | GcMark(now: int, marked: set<Id>)
    | JobStart(id: Id) | JobEnd(id: Id)
    | ReapTemp(id: Id)                      // cleanupTemps

  // The lease test of the GC statements.
  ghost predicate Leased(w: World, id: Id, now: int) {
    exists u :: u in w.sessions && w.sessions[u].file == Some(id) && w.sessions[u].status == Completed
                && !w.sessions[u].consumed && w.sessions[u].completedAt > now - LEASE
  }

  ghost predicate Collectable(w: World, id: Id, now: int) {
    HasRow(w.objects, id, Ready) && w.objects[id].readyAt <= now - LEASE && !Referenced(w, id) && !Leased(w, id, now) && id !in w.busy
  }

  function LapsedUploads(w: World, now: int): set<Id> {
    set u | u in w.sessions && w.sessions[u].status == Completed && w.sessions[u].completedAt <= now - LEASE
  }

  predicate Bindable(w: World, u: Id)
    requires u in w.sessions
  {
    var x := w.sessions[u];
    x.status == Completed && !x.consumed && x.file.Some? && HasRow(w.objects, x.file.value, Ready)
  }

  function Consumed(sessions: map<Id, Session>, us: set<Id>): map<Id, Session> {
    map u | u in sessions :: if u in us then sessions[u].(consumed := true) else sessions[u]
  }

  function Marked(objects: map<Id, Object>, ids: set<Id>): map<Id, Object> {
    map id | id in objects :: if id in ids then objects[id].(status := Deleting) else objects[id]
  }

  ghost predicate RefStep(w: World, w': World, a: RefAct) {
    match a
    case Bind(links) =>
      && links.Keys !! w.used
      && (forall a1, a2 | a1 in links && a2 in links && links[a1] == links[a2] :: a1 == a2)
      && (forall a | a in links :: links[a] in w.sessions && Bindable(w, links[a]))
      && w' == w.(used := w.used + links.Keys, sessions := Consumed(w.sessions, links.Values),
                  attachments := w.attachments + map a | a in links :: Attachment(w.sessions[links[a]].file.value, links[a]))
    case CopyAll(links) =>
      && links.Keys !! w.used
      && (forall a | a in links :: links[a] in w.attachments && HasRow(w.objects, w.attachments[links[a]].file, Ready))
      && w' == w.(used := w.used + links.Keys, attachments := w.attachments + map a | a in links :: w.attachments[links[a]])
    case Unbind(gone) => w' == w.(attachments := w.attachments - gone)
    case DropUploads(gone) => w' == WithoutSessions(w, gone)
    case GcMark(now, marked) =>   // `now` was read before the transaction started
      && now <= w.clock
      && var kept := WithoutSessions(w, LapsedUploads(w, now));
      && (forall id | id in marked :: Collectable(kept, id, now))
      && w' == kept.(objects := Marked(w.objects, marked))
    case JobStart(id) => HasRow(w.objects, id, Ready) && w' == w.(busy := w.busy + {id})
    case JobEnd(id) => w' == w.(busy := w.busy - {id})
    case ReapTemp(id) => !HasRow(w.objects, id, Pending) && w' == DropTemp(w, id)
  }

  // MarkExpired under Exclusive(u).
  ghost predicate ExpireStep(s: State, w': World, u: Id) {
    && ExclusiveFree(s, u) && u in s.w.sessions && s.w.sessions[u].expires <= s.w.clock
    && (Open(s.w.sessions[u].status) || s.w.sessions[u].status == Failed)
    && w' == SetSession(s.w, u, s.w.sessions[u].(status := Expired))
  }

  // ---- Crashes and runs --------------------------------------------------------------------------

  ghost predicate GarbledStage(f: StageFile, f': StageFile) {
    |f'.bytes| == |f.bytes| && f'.clean == f.clean
    && forall i | 0 <= i < |f.bytes| && i < |f.clean| && f.clean[i] :: f'.bytes[i] == f.bytes[i]
  }

  ghost predicate GarbledBlobs(m: map<Id, Blob>, m': map<Id, Blob>) {
    m'.Keys == m.Keys && forall id | id in m :: m[id].synced ==> m'[id] == m[id]
  }

  ghost predicate Crash(w: World, w': World) {
    && w' == w.(staging := w'.staging, temps := w'.temps, finals := w'.finals)
    && w'.staging.Keys == w.staging.Keys && (forall u | u in w.staging :: GarbledStage(w.staging[u], w'.staging[u]))
    && GarbledBlobs(w.temps, w'.temps) && GarbledBlobs(w.finals, w'.finals)
  }

  datatype Act =
    | CreateDo(create: CreateAct) | PutDo(put: PutAct) | SealDo(seal: SealAct) | KeyDo | FinDo(fin: FinAct)
    | OwnDo(own: OwnAct) | MaintDo(maint: MaintAct)

  ghost predicate ThreadStep(c: Config, s: State, w': World, th: Thread, th': Option<Thread>, a: Act)
    requires c.chunk > 0
  {
    match a
    case CreateDo(x) => CreateStep(s.w, w', th, th', x)
    case PutDo(x) => PutStep(c, s.w, w', th, th', x)
    case SealDo(x) => SealStep(c, s.w, w', th, th', x)
    case KeyDo =>   // contentFinalizeLocks.lock
      && th.Finishing? && th.pc.Hashed? && ContentFree(s, th.pc.sha, th.size)
      && th' == Some(th.(pc := Keyed(th.pc.sha))) && w' == s.w
    case FinDo(x) => FinStep(c, s.w, w', th, th', x)
    case OwnDo(x) => OwnStep(s.w, w', th, th', x)
    case MaintDo(x) => MaintStep(c, s.w, w', th, th', x) && (x.SweepDrop? ==> ExclusiveFree(s, x.u))
  }

  datatype Step =
    | Begin(t: nat, th: Thread, begin: BeginAct) | Run(t: nat, th': Option<Thread>, act: Act)
    | Refer(ref: RefAct) | Expire(u: Id) | CrashStep | Tick(d: nat)

  ghost predicate Next(c: Config, s: State, s': State, step: Step)
    requires c.chunk > 0
  {
    match step
    case Begin(t, th, a) => t !in s.threads && s'.threads == s.threads[t := th] && BeginStep(c, s, s'.w, th, a)
    case Run(t, th', a) =>
      && t in s.threads && ThreadStep(c, s, s'.w, s.threads[t], th', a)
      && s'.threads == if th'.Some? then s.threads[t := th'.value] else s.threads - {t}
    case Refer(a) => s'.threads == s.threads && RefStep(s.w, s'.w, a)
    case Expire(u) => s'.threads == s.threads && ExpireStep(s, s'.w, u)
    case CrashStep => s'.threads == map[] && Crash(s.w, s'.w)
    case Tick(d) => s' == s.(w := s.w.(clock := s.w.clock + d))
  }

  ghost predicate IsRun(c: Config, run: seq<State>, steps: seq<Step>)
    requires c.chunk > 0
  {
    |run| == |steps| + 1 && Init(run[0]) && forall i | 0 <= i < |steps| :: Next(c, run[i], run[i + 1], steps[i])
  }
}
