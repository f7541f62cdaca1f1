/** What every reachable state of the upload pipeline satisfies. */
module PipelineInvariant {
  import opened Basics
  import opened Parts
  import opened Pipeline

  // ---- Tables against files ----------------------------------------------------------------------

  ghost predicate Good(c: Config, blob: Blob, row: Object) {
    blob.synced && |blob.bytes| == row.size && c.hash(blob.bytes) == row.sha
  }

  ghost predicate ObjectsOk(c: Config, used: set<Id>, objects: map<Id, Object>, finals: map<Id, Blob>) {
    && (forall id | id in objects :: id in used)
    && (forall id | id in finals :: id in used)
    && (forall id | HasRow(objects, id, Ready) :: id in finals)
    && (forall id | id in objects && id in finals && !objects[id].status.Deleting? :: Good(c, finals[id], objects[id]))
    && (forall i, j | i in objects && j in objects && i != j :: objects[i].sha != objects[j].sha || objects[i].size != objects[j].size)
  }

  // The object is READY and has the hash and size of what upload `origin` sent.
  ghost predicate Linked(c: Config, objects: map<Id, Object>, sealed: map<Id, Bytes>, id: Id, origin: Id) {
    HasRow(objects, id, Ready) && origin in sealed && IsRow(objects, id, c.hash(sealed[origin]), |sealed[origin]|)
  }

  ghost predicate AttachmentsOk(c: Config, objects: map<Id, Object>, sealed: map<Id, Bytes>, attachments: map<Id, Attachment>) {
    forall a | a in attachments :: Linked(c, objects, sealed, attachments[a].file, attachments[a].origin)
  }

  predicate Awaiting(x: Session) { x.status == Completed && !x.consumed }

  // Every completed upload that no message consumed yet points to a READY object holding its bytes.
  ghost predicate LeasesOk(c: Config, objects: map<Id, Object>, sealed: map<Id, Bytes>, sessions: map<Id, Session>) {
    forall u | u in sessions && Awaiting(sessions[u]) :: sessions[u].file.Some? && Linked(c, objects, sealed, sessions[u].file.value, u)
  }

  ghost predicate JobsOk(objects: map<Id, Object>, busy: set<Id>) { forall id | id in busy :: HasRow(objects, id, Ready) }

  // ---- Staging -----------------------------------------------------------------------------------

  ghost predicate CleanAt(f: StageFile, offset: nat, length: nat) {
    offset + length <= |f.clean| && forall i | offset <= i < offset + length :: f.clean[i]
  }

  // The region of part k holds `body`, synced.
  ghost predicate RegionOk(c: Config, f: StageFile, k: nat, body: Bytes) {
    Holds(f.bytes, k * c.chunk, body) && CleanAt(f, k * c.chunk, |body|)
  }

  predicate Kept(sessions: map<Id, Session>, u: Id) { u in sessions && Active(sessions[u].status) }

  ghost predicate MarkersOk(c: Config, sessions: map<Id, Session>, parts: map<Part, nat>, staging: map<Id, StageFile>, written: map<Part, Bytes>)
    requires c.chunk > 0
  {
    forall p | p in parts ::
      && p.0 in sessions
      && (Kept(sessions, p.0) && p.0 in staging ==>
            MarkerOk(c, sessions[p.0].size, staging[p.0], p.1, parts[p], if p in written then Some(written[p]) else None))
  }

  ghost predicate MarkerOk(c: Config, size: nat, f: StageFile, k: nat, committed: nat, body: Option<Bytes>)
    requires c.chunk > 0
  {
    && k < PartCount(size, c.chunk) && committed == PartLength(c, size, k)
    && body.Some? && |body.value| == committed && RegionOk(c, f, k, body.value)
  }

  // An active upload keeps its staging file at exactly the expected size.
  ghost predicate StagingOk(used: set<Id>, born: set<Id>, sessions: map<Id, Session>, staging: map<Id, StageFile>) {
    && born <= used && (forall u | u in sessions :: u in born)
    && (forall u | u in staging :: u in used && |staging[u].clean| == |staging[u].bytes|)
    && (forall u | Kept(sessions, u) :: StageIs(staging, u, sessions[u].size))
  }

  predicate StageIs(staging: map<Id, StageFile>, u: Id, size: nat) { u in staging && |staging[u].bytes| == size }

  // Once Complete accepted an upload, staging holds exactly the joined part bodies, synced.
  ghost predicate SealsOk(born: set<Id>, sessions: map<Id, Session>, staging: map<Id, StageFile>, sealed: map<Id, Bytes>) {
    && (forall u | u in sealed :: u in born && (u in sessions ==> !Open(sessions[u].status)))
    && (forall u | Kept(sessions, u) && !Open(sessions[u].status) && u in staging :: u in sealed && StageHolds(staging[u], sealed[u]))
  }

  ghost predicate StageHolds(f: StageFile, bytes: Bytes) { f.bytes == bytes && CleanAt(f, 0, |bytes|) }

  ghost predicate WorldOk(c: Config, w: World)
    requires c.chunk > 0
  {
    && ObjectsOk(c, w.used, w.objects, w.finals) && AttachmentsOk(c, w.objects, w.sealed, w.attachments)
    && LeasesOk(c, w.objects, w.sealed, w.sessions) && JobsOk(w.objects, w.busy)
    && StagingOk(w.used, w.born, w.sessions, w.staging) && MarkersOk(c, w.sessions, w.parts, w.staging, w.written)
    && SealsOk(w.born, w.sessions, w.staging, w.sealed)
  }

  // ---- Threads -----------------------------------------------------------------------------------

  predicate RowKey(w: World, id: Id, sha: nat, size: nat) { id in w.used && (id in w.objects ==> IsRow(w.objects, id, sha, size)) }

  predicate PendingOnly(w: World, id: Id) { id !in w.finals && (id in w.objects ==> w.objects[id].status.Pending?) }

  predicate FinalThere(w: World, id: Id) { HasRow(w.objects, id, Pending) ==> id in w.finals }

  ghost predicate PutOk(c: Config, w: World, u: Id, k: nat, size: nat, body: Bytes, put: PutPc)
    requires c.chunk > 0
  {
    if put.PutLocked? then body == [] else
      && u in w.born && k < PartCount(size, c.chunk) && StageIs(w.staging, u, size)
      && (u in w.sessions ==> Open(w.sessions[u].status) && w.sessions[u].size == size)
      && (if put.PutChecked? then body == []
          else (u, k) !in w.parts && |body| <= PartLength(c, size, k) && Holds(w.staging[u].bytes, k * c.chunk, body))
      && (put.Synced? ==> |body| == PartLength(c, size, k) && CleanAt(w.staging[u], k * c.chunk, |body|))
  }

  ghost predicate OwnOk(w: World, bytes: Bytes, id: Id, own: OwnPc) {
    match own
    case Reserved => PendingOnly(w, id)
    case Copying(n) => PendingOnly(w, id) && n <= |bytes| && (id in w.temps ==> w.temps[id].bytes == bytes[..n])
    case Flushed => PendingOnly(w, id) && (id in w.temps ==> w.temps[id] == Blob(bytes, true))
    case Renamed => FinalThere(w, id)
    case Statted => FinalThere(w, id)
    case _ => true
  }

  ghost predicate FinOk(c: Config, w: World, u: Id, size: nat, pc: FinPc) {
    match pc
    case Locked => true
    case StageSynced => u in w.born && u in w.staging && CleanAt(w.staging[u], 0, |w.staging[u].bytes|)
    case DropStage => u in w.born && (u in w.sessions ==> w.sessions[u].status == Completed)
    case StatStage => CompletingRow(w, u, size)
    case _ => CompletingRow(w, u, size) && StageIs(w.staging, u, size) && HashedOk(c, w, w.staging[u].bytes, size, pc)
  }

  predicate CompletingRow(w: World, u: Id, size: nat) {
    u in w.born && (u in w.sessions ==> w.sessions[u].status == Completing && w.sessions[u].size == size)
  }

  ghost predicate HashedOk(c: Config, w: World, bytes: Bytes, size: nat, pc: FinPc) {
    match pc
    case Hashing(read) => read <= bytes
    case Hashed(sha) => c.hash(bytes) == sha
    case Keyed(sha) => c.hash(bytes) == sha
    case Reserving(sha, _) => c.hash(bytes) == sha
    case Matched(sha, id) => c.hash(bytes) == sha && RowKey(w, id, sha, size)
    case Checking(sha, id, _) => c.hash(bytes) == sha && RowKey(w, id, sha, size)
    case Missing(sha, id, _) => c.hash(bytes) == sha && RowKey(w, id, sha, size)
    case Absent(sha, id, _) => c.hash(bytes) == sha && RowKey(w, id, sha, size)
    case Verified(sha, id) => c.hash(bytes) == sha && RowKey(w, id, sha, size) && FinalThere(w, id)
    case Owner(sha, id, own) => c.hash(bytes) == sha && RowKey(w, id, sha, size) && OwnOk(w, bytes, id, own)
    case _ => true
  }

  ghost predicate ThreadOk(c: Config, w: World, th: Thread)
    requires c.chunk > 0
  { ThreadFacts(c, w, th) <==> true }   // one fact, not a case per thread state, wherever a lemma passes it on

  ghost predicate ThreadFacts(c: Config, w: World, th: Thread)
    requires c.chunk > 0
  {
    match th
    case Creating(u, size, _, made) =>
      && u in w.used && u !in w.born
      && (if made then StageIs(w.staging, u, size) else u !in w.staging)
    case Putting(u, k, size, body, put) => PutOk(c, w, u, k, size, body, put)
    case Finishing(u, size, pc) => FinOk(c, w, u, size, pc)
    case Cleaning(u, _) => u in w.born && (u in w.sessions ==> w.sessions[u].status == Expired)
    case Sweeping(doomed, filtered) => forall u | u in doomed :: u in w.used && (filtered ==> !Kept(w.sessions, u))
    case Resolving(id, row, res) => RowKey(w, id, row.sha, row.size) && (res.ResVerified? ==> FinalThere(w, id))
    case Erasing(id, _) => id in w.used && (id in w.objects ==> w.objects[id].status.Deleting?)
  }

  // ---- Locks: what two different threads can never do at once ------------------------------------

  predicate LifeThread(th: Thread) { th.Creating? || th.Sweeping? }

  predicate TouchesAny(th: Thread) { th.Putting? || th.Finishing? || th.Cleaning? }

  predicate OwnsRow(th: Thread) { th.Finishing? && th.pc.Owner? }

  predicate Compatible(x: Thread, y: Thread) {
    && !(LifeThread(x) && LifeThread(y))
    && (TouchesAny(x) && Touches(y, x.u) ==> x.Putting? && y.Putting? && x.k != y.k)
    && (HoldsContent(x) && HoldsContent(y) ==> x.pc.sha != y.pc.sha || x.size != y.size)
    && (OwnsRow(x) && OwnsRow(y) ==> x.pc.id != y.pc.id)
  }

  ghost predicate LocksOk(threads: map<nat, Thread>) {
    forall t1, t2 | t1 in threads && t2 in threads && t1 != t2 :: Compatible(threads[t1], threads[t2])
  }

  ghost predicate Inv(c: Config, s: State) {
    && c.chunk > 0 && WorldOk(c, s.w) && LocksOk(s.threads)
    && forall t | t in s.threads :: ThreadOk(c, s.w, s.threads[t])
  }
}
