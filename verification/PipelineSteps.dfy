/** How the shared effects of the pipeline's steps act on the invariant: one lemma for the tables,
    one for every thread other than the one that stepped. */
module PipelineSteps {
  import opened Basics
  import opened Parts
  import opened Pipeline
  import opened PipelineInvariant

  predicate Clear(o: Thread, u: Id) { !Touches(o, u) && !(o.Creating? && o.u == u) }

  // ---- Staging files -------------------------------------------------------------------------------

  lemma StageFrame(c: Config, w: World, u: Id, f: StageFile, o: Thread)
    requires c.chunk > 0 && ThreadOk(c, w, o) && Clear(o, u)
    ensures ThreadOk(c, SetStage(w, u, f), o)
  {}

  lemma StageDropFrame(c: Config, w: World, u: Id, o: Thread)
    requires c.chunk > 0 && ThreadOk(c, w, o) && Clear(o, u)
    ensures ThreadOk(c, DropStageFile(w, u), o)
  {}

  lemma StageDropWorld(c: Config, w: World, u: Id)
    requires c.chunk > 0 && WorldOk(c, w) && !Kept(w.sessions, u)
    ensures WorldOk(c, DropStageFile(w, u))
  {}

  // Syncing a file only adds clean bytes.
  lemma SyncWorld(c: Config, w: World, u: Id)
    requires c.chunk > 0 && WorldOk(c, w) && u in w.staging
    ensures WorldOk(c, SetStage(w, u, SyncStage(w.staging[u])))
  {}

  lemma SyncFrame(c: Config, w: World, u: Id, o: Thread)
    requires c.chunk > 0 && ThreadOk(c, w, o) && u in w.staging
    ensures ThreadOk(c, SetStage(w, u, SyncStage(w.staging[u])), o)
  {}

  // A write into one part's region leaves the other regions alone.
  lemma WriteApart(c: Config, f: StageFile, size: nat, j: nat, k: nat, at: nat, data: Bytes, body: Bytes)
    requires c.chunk > 0 && |f.bytes| == |f.clean| == size && j != k
    requires j < PartCount(size, c.chunk) && |body| <= PartLength(c, size, j) && Holds(f.bytes, j * c.chunk, body)
    requires k < PartCount(size, c.chunk) && at + |data| <= PartLength(c, size, k)
    ensures k * c.chunk + at + |data| <= size
    ensures var g := WriteStage(f, k * c.chunk + at, data);
            Holds(g.bytes, j * c.chunk, body) && (CleanAt(f, j * c.chunk, |body|) ==> CleanAt(g, j * c.chunk, |body|))
  {
    if j < k { PartsDisjoint(size, c.chunk, j, k); } else { PartsDisjoint(size, c.chunk, k, j); }
  }

  lemma WriteWorld(c: Config, w: World, u: Id, k: nat, size: nat, body: Bytes, data: Bytes)
    requires c.chunk > 0 && WorldOk(c, w) && PutOk(c, w, u, k, size, body, Writing)
    requires |body| + |data| <= PartLength(c, size, k)
    ensures k * c.chunk + |body| + |data| <= size
    ensures WorldOk(c, SetStage(w, u, WriteStage(w.staging[u], k * c.chunk + |body|, data)))
  {
    var f := w.staging[u];
    var w' := SetStage(w, u, WriteStage(f, k * c.chunk + |body|, data));
    forall p | p in w.parts && p.0 == u && Kept(w.sessions, u)
      ensures MarkerOk(c, size, w'.staging[u], p.1, w.parts[p], if p in w.written then Some(w.written[p]) else None)
    {
      WriteApart(c, f, size, p.1, k, |body|, data, w.written[p]);
    }
  }

  lemma WriteFramePart(c: Config, w: World, u: Id, k: nat, size: nat, body: Bytes, data: Bytes, j: nat, size': nat, body': Bytes, put: PutPc)
    requires c.chunk > 0 && u in w.staging && |w.staging[u].clean| == |w.staging[u].bytes|
    requires PutOk(c, w, u, k, size, body, Writing) && PutOk(c, w, u, j, size', body', put) && j != k
    requires |body| + |data| <= PartLength(c, size, k) && k * c.chunk + |body| + |data| <= size
    ensures PutOk(c, SetStage(w, u, WriteStage(w.staging[u], k * c.chunk + |body|, data)), u, j, size', body', put)
  {
    if put.Writing? || put.Synced? {
      WriteApart(c, w.staging[u], size, j, k, |body|, data, body');
    }
  }

  lemma WriteFrame(c: Config, w: World, u: Id, k: nat, size: nat, body: Bytes, data: Bytes, o: Thread)
    requires c.chunk > 0 && ThreadOk(c, w, o) && PutOk(c, w, u, k, size, body, Writing)
    requires |w.staging[u].clean| == |w.staging[u].bytes|
    requires |body| + |data| <= PartLength(c, size, k) && k * c.chunk + |body| + |data| <= size
    requires Compatible(Putting(u, k, size, body, Writing), o)
    ensures ThreadOk(c, SetStage(w, u, WriteStage(w.staging[u], k * c.chunk + |body|, data)), o)
  {
    if Touches(o, u) {
      WriteFramePart(c, w, u, k, size, body, data, o.k, o.size, o.body, o.put);
    } else {
      StageFrame(c, w, u, WriteStage(w.staging[u], k * c.chunk + |body|, data), o);
    }
  }

  // ---- Sessions and parts ------------------------------------------------------------------------

  // A status change of an upload nobody else touches.
  lemma SessionFrame(c: Config, w: World, u: Id, x: Session, o: Thread)
    requires c.chunk > 0 && ThreadOk(c, w, o) && Clear(o, u)
    requires u in w.sessions && u in w.born && (Active(x.status) ==> Kept(w.sessions, u))
    ensures ThreadOk(c, SetSession(w, u, x), o)
  {}

  // A thread does not depend on its upload's row, its markers, or the history beyond these.
  lemma RowsGoneFrame(c: Config, w: World, us: set<Id>, o: Thread)
    requires c.chunk > 0 && ThreadOk(c, w, o)
    ensures ThreadOk(c, WithoutSessions(w, us), o)
  {}

  lemma RowsGoneWorld(c: Config, w: World, us: set<Id>)
    requires c.chunk > 0 && WorldOk(c, w)
    ensures WorldOk(c, WithoutSessions(w, us))
  {}

  // Leaving the open and completing statuses for a final one.
  lemma RetireWorld(c: Config, w: World, u: Id, x: Session)
    requires c.chunk > 0 && WorldOk(c, w) && u in w.sessions && !Active(x.status)
    requires Awaiting(x) ==> x.file.Some? && Linked(c, w.objects, w.sealed, x.file.value, u)
    ensures WorldOk(c, SetSession(w, u, x))
  {}

  // ---- Object rows -------------------------------------------------------------------------------

  lemma PromoteWorld(c: Config, w: World, id: Id)
    requires c.chunk > 0 && WorldOk(c, w) && HasRow(w.objects, id, Pending) && id in w.finals
    ensures WorldOk(c, Promoted(w, id))
  {}

  lemma PromoteFrame(c: Config, w: World, id: Id, o: Thread)
    requires c.chunk > 0 && ThreadOk(c, w, o) && HasRow(w.objects, id, Pending) && id in w.finals
    ensures ThreadOk(c, Promoted(w, id), o)
  {}

  // Deleting a row that no attachment and no unconsumed upload relies on.
  lemma RowGoneLinks(c: Config, w: World, id: Id)
    requires !HasRow(w.objects, id, Ready)
    requires AttachmentsOk(c, w.objects, w.sealed, w.attachments) && LeasesOk(c, w.objects, w.sealed, w.sessions) && JobsOk(w.objects, w.busy)
    ensures AttachmentsOk(c, w.objects - {id}, w.sealed, w.attachments) && JobsOk(w.objects - {id}, w.busy)
    ensures LeasesOk(c, w.objects - {id}, w.sealed, Unlinked(w.sessions, id))
  {
    forall i, u | Linked(c, w.objects, w.sealed, i, u) ensures i != id && Linked(c, w.objects - {id}, w.sealed, i, u) {}
  }

  lemma RowGoneStage(c: Config, w: World, id: Id)
    requires c.chunk > 0 && WorldOk(c, w)
    ensures StagingOk(w.used, w.born, Unlinked(w.sessions, id), w.staging)
    ensures MarkersOk(c, Unlinked(w.sessions, id), w.parts, w.staging, w.written)
    ensures SealsOk(w.born, Unlinked(w.sessions, id), w.staging, w.sealed)
  {}

  // Deleting a row that is not READY: no attachment and no unconsumed upload relies on it.
  lemma RowGoneWorld(c: Config, w: World, id: Id)
    requires c.chunk > 0 && WorldOk(c, w) && id in w.objects && !w.objects[id].status.Ready?
    ensures WorldOk(c, WithoutObject(w, id))
  {
    RowGoneLinks(c, w, id);
    RowGoneStage(c, w, id);
  }

  lemma RowGoneFrame(c: Config, w: World, id: Id, o: Thread)
    requires c.chunk > 0 && ThreadOk(c, w, o)
    ensures ThreadOk(c, WithoutObject(w, id), o)
  {}

  lemma TempFrame(c: Config, w: World, id: Id, o: Thread)
    requires c.chunk > 0 && ThreadOk(c, w, o)
    ensures ThreadOk(c, DropTemp(w, id), o)
  {}

  // ---- Creating --------------------------------------------------------------------------------

  lemma CreateWorld(c: Config, w: World, w': World, th: Thread, th': Option<Thread>, a: CreateAct)
    requires c.chunk > 0 && WorldOk(c, w) && ThreadOk(c, w, th) && CreateStep(w, w', th, th', a)
    ensures WorldOk(c, w') && (th'.Some? ==> ThreadOk(c, w', th'.value))
  {
    if a.CreateInsert? { InsertedWorld(c, w, th.u, th.size, th.expires); }
  }

  lemma InsertedWorld(c: Config, w: World, u: Id, size: nat, expires: int)
    requires c.chunk > 0 && WorldOk(c, w) && u in w.used && u !in w.born && StageIs(w.staging, u, size)
    ensures WorldOk(c, SetSession(w, u, Session(size, Created, expires, None, false, 0)).(born := w.born + {u}))
  {}

  lemma CreateOther(c: Config, w: World, w': World, th: Thread, th': Option<Thread>, a: CreateAct, o: Thread)
    requires c.chunk > 0 && ThreadOk(c, w, th) && ThreadOk(c, w, o) && Compatible(th, o)
    requires CreateStep(w, w', th, th', a)
    ensures ThreadOk(c, w', o)
  {}

  lemma WriteSelf(c: Config, w: World, u: Id, k: nat, size: nat, body: Bytes, data: Bytes)
    requires c.chunk > 0 && PutOk(c, w, u, k, size, body, Writing)
    requires |body| + |data| <= PartLength(c, size, k) && k * c.chunk + |body| + |data| <= |w.staging[u].bytes| == |w.staging[u].clean|
    ensures PutOk(c, SetStage(w, u, WriteStage(w.staging[u], k * c.chunk + |body|, data)), u, k, size, body + data, Writing)
  {
    var g := WriteStage(w.staging[u], k * c.chunk + |body|, data);
    forall i | 0 <= i < |body + data| ensures g.bytes[k * c.chunk + i] == (body + data)[i] {
      if i >= |body| { assert g.bytes[k * c.chunk + |body| + (i - |body|)] == data[i - |body|]; }
    }
  }

  lemma InvalidateSelf(c: Config, w: World, u: Id, k: nat, size: nat)
    requires c.chunk > 0 && PutOk(c, w, u, k, size, [], PutChecked)
    ensures PutOk(c, w.(parts := w.parts - {(u, k)}), u, k, size, [], Writing)
  {
    PartEndStep(size, c.chunk, k);
  }

  lemma SyncSelf(c: Config, w: World, u: Id, k: nat, size: nat, body: Bytes)
    requires c.chunk > 0 && PutOk(c, w, u, k, size, body, Writing) && |body| == PartLength(c, size, k)
    ensures PutOk(c, SetStage(w, u, SyncStage(w.staging[u])), u, k, size, body, Synced)
  {}

  lemma InvalidateFrame(c: Config, w: World, p: Part, o: Thread)
    requires c.chunk > 0 && ThreadOk(c, w, o)
    ensures ThreadOk(c, w.(parts := w.parts - {p}), o)
  {}

  // ---- Writing parts -----------------------------------------------------------------------------

  lemma CommitWorld(c: Config, w: World, u: Id, k: nat, size: nat, body: Bytes)
    requires c.chunk > 0 && WorldOk(c, w) && PutOk(c, w, u, k, size, body, Synced) && u in w.sessions
    ensures WorldOk(c, SetSession(w, u, w.sessions[u].(status := Uploading)).(
                         parts := w.parts[(u, k) := |body|], written := w.written[(u, k) := body]))
  {
    assert MarkerOk(c, size, w.staging[u], k, |body|, Some(body));
  }

  lemma InvalidateWorld(c: Config, w: World, p: Part)
    requires c.chunk > 0 && WorldOk(c, w)
    ensures WorldOk(c, w.(parts := w.parts - {p}))
  {}

  lemma PutWorld(c: Config, w: World, w': World, th: Thread, th': Option<Thread>, a: PutAct)
    requires c.chunk > 0 && WorldOk(c, w) && ThreadOk(c, w, th) && PutStep(c, w, w', th, th', a)
    ensures WorldOk(c, w')
  {
    assert PutOk(c, w, th.u, th.k, th.size, th.body, th.put);
    if a.PutWrite? { PutWriteWorld(c, w, w', th, th', a.data); }
    else if a.PutCommit? { PutCommitWorld(c, w, w', th, th'); }
    else if a.PutSync? { SyncWorld(c, w, th.u); }
    else if a.PutInvalidate? { InvalidateWorld(c, w, (th.u, th.k)); }
    else { assert w' == w; }
  }

  lemma PutWriteWorld(c: Config, w: World, w': World, th: Thread, th': Option<Thread>, data: Bytes)
    requires c.chunk > 0 && WorldOk(c, w) && th.Putting? && PutOk(c, w, th.u, th.k, th.size, th.body, th.put)
    requires PutStep(c, w, w', th, th', PutWrite(data))
    ensures WorldOk(c, w')
  { WriteWorld(c, w, th.u, th.k, th.size, th.body, data); }

  lemma PutCommitWorld(c: Config, w: World, w': World, th: Thread, th': Option<Thread>)
    requires c.chunk > 0 && WorldOk(c, w) && th.Putting? && PutOk(c, w, th.u, th.k, th.size, th.body, th.put)
    requires PutStep(c, w, w', th, th', PutCommit)
    ensures WorldOk(c, w')
  { CommitWorld(c, w, th.u, th.k, th.size, th.body); }

  lemma PutSelf(c: Config, w: World, w': World, th: Thread, th': Option<Thread>, a: PutAct)
    requires c.chunk > 0 && WorldOk(c, w) && ThreadOk(c, w, th) && PutStep(c, w, w', th, th', a)
    ensures th'.Some? ==> ThreadFacts(c, w', th'.value)
  {
    match a
    case PutCheck => assert Kept(w.sessions, th.u);
    case PutInvalidate => InvalidateSelf(c, w, th.u, th.k, th.size);
    case PutWrite(data) => WriteSelf(c, w, th.u, th.k, th.size, th.body, data);
    case PutSync => SyncSelf(c, w, th.u, th.k, th.size, th.body);
    case _ =>
  }

  lemma PutOther(c: Config, w: World, w': World, th: Thread, th': Option<Thread>, a: PutAct, o: Thread)
    requires c.chunk > 0 && ThreadOk(c, w, th) && ThreadOk(c, w, o) && Compatible(th, o)
    requires PutStep(c, w, w', th, th', a)
    ensures ThreadOk(c, w', o)
  {
    match a
    case PutWrite(data) => WriteFrame(c, w, th.u, th.k, th.size, th.body, data, o);
    case PutSync => SyncFrame(c, w, th.u, o);
    case PutInvalidate => InvalidateFrame(c, w, (th.u, th.k), o);
    case PutCommit => CommitFrame(c, w, th.u, th.k, th.body, o);
    case _ =>
  }

  lemma CommitFrame(c: Config, w: World, u: Id, k: nat, body: Bytes, o: Thread)
    requires c.chunk > 0 && ThreadOk(c, w, o) && u in w.sessions && u in w.born && Open(w.sessions[u].status)
    requires Touches(o, u) ==> o.Putting? && o.k != k
    ensures ThreadOk(c, SetSession(w, u, w.sessions[u].(status := Uploading)).(
                          parts := w.parts[(u, k) := |body|], written := w.written[(u, k) := body]), o)
  {}

  // What Complete validated makes the staging file the in-order concatenation of the committed bodies.
  lemma ValidatedIsJoined(c: Config, w: World, u: Id)
    requires c.chunk > 0 && WorldOk(c, w) && u in w.sessions && Open(w.sessions[u].status) && AllParts(c, w, u)
    ensures u in w.staging && w.staging[u].bytes == Joined(w.written, u, PartCount(w.sessions[u].size, c.chunk))
  {
    var f := w.staging[u];
    forall k: nat | k < PartCount(|f.bytes|, c.chunk)
      ensures (u, k) in w.written && |w.written[(u, k)]| == PartSize(|f.bytes|, c.chunk, k) && Holds(f.bytes, k * c.chunk, w.written[(u, k)])
    {
      assert (u, k) in w.parts;
      assert MarkerOk(c, w.sessions[u].size, f, k, w.parts[(u, k)], if (u, k) in w.written then Some(w.written[(u, k)]) else None);
    }
    AllRegionsJoin(f.bytes, w.written, u, c.chunk);
  }

  // A new seal disturbs no existing link: the upload was open, so nothing can be linked to it yet.
  lemma SealedLinks(c: Config, w: World, u: Id, bytes: Bytes)
    requires AttachmentsOk(c, w.objects, w.sealed, w.attachments) && LeasesOk(c, w.objects, w.sealed, w.sessions)
    requires u !in w.sealed && u in w.sessions
    ensures AttachmentsOk(c, w.objects, w.sealed[u := bytes], w.attachments)
    ensures LeasesOk(c, w.objects, w.sealed[u := bytes], w.sessions[u := w.sessions[u].(status := Completing)])
  {}

  lemma SealedStage(c: Config, w: World, u: Id, bytes: Bytes)
    requires c.chunk > 0 && WorldOk(c, w) && u in w.sessions && Open(w.sessions[u].status)
    requires u in w.staging && StageHolds(w.staging[u], bytes)
    ensures var sessions := w.sessions[u := w.sessions[u].(status := Completing)];
            && StagingOk(w.used, w.born, sessions, w.staging) && MarkersOk(c, sessions, w.parts, w.staging, w.written)
            && SealsOk(w.born, sessions, w.staging, w.sealed[u := bytes])
  {}

  lemma SealedWorld(c: Config, w: World, u: Id, bytes: Bytes)
    requires c.chunk > 0 && WorldOk(c, w) && u in w.sessions && Open(w.sessions[u].status)
    requires u in w.staging && StageHolds(w.staging[u], bytes)
    ensures WorldOk(c, SetSession(w, u, w.sessions[u].(status := Completing)).(sealed := w.sealed[u := bytes]))
  {
    SealedLinks(c, w, u, bytes);
    SealedStage(c, w, u, bytes);
  }

  lemma SealedFrame(c: Config, w: World, u: Id, bytes: Bytes, o: Thread)
    requires c.chunk > 0 && ThreadOk(c, w, o) && !Touches(o, u) && u in w.sessions && u in w.born && Open(w.sessions[u].status)
    ensures ThreadOk(c, SetSession(w, u, w.sessions[u].(status := Completing)).(sealed := w.sealed[u := bytes]), o)
  {}

  lemma FailWorld(c: Config, w: World, u: Id)
    requires c.chunk > 0 && WorldOk(c, w) && u in w.sessions && w.sessions[u].status == Completing
    ensures WorldOk(c, SetSession(w, u, w.sessions[u].(status := Failed)))
  {}

  // ---- Sealing and hashing -----------------------------------------------------------------------

  lemma SealWorld(c: Config, w: World, w': World, th: Thread, th': Option<Thread>, a: SealAct)
    requires c.chunk > 0 && WorldOk(c, w) && ThreadOk(c, w, th) && SealStep(c, w, w', th, th', a)
    ensures WorldOk(c, w')
  {
    match a
    case FinSync => SyncWorld(c, w, th.u);
    case FinSeal => ValidatedIsJoined(c, w, th.u); SealedWorld(c, w, th.u, w.staging[th.u].bytes);
    case FinFail => FailWorld(c, w, th.u);
    case FinDropStage => StageDropWorld(c, w, th.u);
    case _ =>
  }

  lemma SealSelf(c: Config, w: World, w': World, th: Thread, th': Option<Thread>, a: SealAct)
    requires c.chunk > 0 && WorldOk(c, w) && ThreadOk(c, w, th) && SealStep(c, w, w', th, th', a)
    ensures th'.Some? ==> ThreadFacts(c, w', th'.value)
  {
    match a
    case FinHash => assert th.pc.read == w.staging[th.u].bytes;
    case FinRead(n) =>
      assert th.pc.read == w.staging[th.u].bytes[..|th.pc.read|];
      assert th'.value.pc.read == w.staging[th.u].bytes[..|th.pc.read| + n];
    case _ =>
  }

  lemma SealOther(c: Config, w: World, w': World, th: Thread, th': Option<Thread>, a: SealAct, o: Thread)
    requires c.chunk > 0 && ThreadOk(c, w, th) && ThreadOk(c, w, o) && Compatible(th, o)
    requires SealStep(c, w, w', th, th', a)
    ensures ThreadOk(c, w', o)
  {
    match a
    case FinSync => SyncFrame(c, w, th.u, o);
    case FinDropStage => StageDropFrame(c, w, th.u, o);
    case FinSeal => SealedFrame(c, w, th.u, w'.sealed[th.u], o);
    case FinFail => SessionFrame(c, w, th.u, w.sessions[th.u].(status := Failed), o);
    case _ =>
  }

  // Linking a completing upload to a READY row with its hash and size.
  lemma FinishedWorld(c: Config, w: World, u: Id, id: Id)
    requires c.chunk > 0 && WorldOk(c, w) && u in w.sessions && w.sessions[u].status == Completing
    requires HasRow(w.objects, id, Ready) && IsRow(w.objects, id, c.hash(w.staging[u].bytes), w.sessions[u].size)
    ensures WorldOk(c, Finished(w, u, id))
  {
    RetireWorld(c, w, u, w.sessions[u].(status := Completed, file := Some(id), completedAt := w.clock));
  }

  lemma ReservedWorld(c: Config, w: World, id: Id, sha: nat, size: nat)
    requires c.chunk > 0 && WorldOk(c, w) && id !in w.used && NoRow(w.objects, sha, size)
    ensures WorldOk(c, w.(used := w.used + {id}, objects := w.objects[id := Object(sha, size, Pending, 0)]))
  {}

  lemma ReservedFrame(c: Config, w: World, id: Id, sha: nat, size: nat, o: Thread)
    requires c.chunk > 0 && ThreadOk(c, w, o) && id !in w.used
    ensures ThreadOk(c, w.(used := w.used + {id}, objects := w.objects[id := Object(sha, size, Pending, 0)]), o)
  {}

  // ---- Under the content lock --------------------------------------------------------------------

  lemma FinWorld(c: Config, w: World, w': World, th: Thread, th': Option<Thread>, a: FinAct)
    requires c.chunk > 0 && WorldOk(c, w) && ThreadOk(c, w, th) && FinStep(c, w, w', th, th', a)
    ensures WorldOk(c, w')
  {
    match a
    case FinDropRow => RowGoneWorld(c, w, th.pc.id);
    case FinPromote => PromoteWorld(c, w, th.pc.id);
    case FinReserve(id, quota) => ReservedWorld(c, w, id, th.pc.sha, th.size);
    case FinLink => FinishedWorld(c, w, th.u, th.pc.id);
    case _ =>
  }

  lemma FinSelf(c: Config, w: World, w': World, th: Thread, th': Option<Thread>, a: FinAct)
    requires c.chunk > 0 && WorldOk(c, w) && ThreadOk(c, w, th) && FinStep(c, w, w', th, th', a)
    ensures th'.Some? ==> ThreadFacts(c, w', th'.value)
  {}

  lemma FinOther(c: Config, w: World, w': World, th: Thread, th': Option<Thread>, a: FinAct, o: Thread)
    requires c.chunk > 0 && ThreadOk(c, w, th) && ThreadOk(c, w, o) && Compatible(th, o)
    requires FinStep(c, w, w', th, th', a)
    ensures ThreadOk(c, w', o)
  {
    match a
    case FinDropTemp => TempFrame(c, w, th.pc.id, o);
    case FinDropRow => RowGoneFrame(c, w, th.pc.id, o);
    case FinPromote => PromoteFrame(c, w, th.pc.id, o);
    case FinReserve(id, quota) => ReservedFrame(c, w, id, th.pc.sha, th.size, o);
    case FinLink => SessionFrame(c, w, th.u, Finished(w, th.u, th.pc.id).sessions[th.u], o);
    case _ =>
  }

  // Only the owner of a reservation writes its temp and renames it.
  predicate NotOwner(o: Thread, id: Id) { !(OwnsRow(o) && o.pc.id == id) }

  lemma TempWriteFrame(c: Config, w: World, temps: map<Id, Blob>, id: Id, o: Thread)
    requires c.chunk > 0 && ThreadOk(c, w, o) && NotOwner(o, id) && temps - {id} == w.temps - {id}
    ensures ThreadOk(c, w.(temps := temps), o)
  {
    forall i | i != id ensures (i in temps <==> i in w.temps) && (i in temps ==> temps[i] == w.temps[i]) {
      assert i in temps <==> i in temps - {id};
      if i in temps { assert temps[i] == (temps - {id})[i] && w.temps[i] == (w.temps - {id})[i]; }
    }
  }

  lemma RenameWorld(c: Config, w: World, id: Id)
    requires c.chunk > 0 && WorldOk(c, w) && id in w.used && id in w.temps && PendingOnly(w, id)
    requires id in w.objects ==> Good(c, w.temps[id], w.objects[id])
    ensures WorldOk(c, DropTemp(w, id).(finals := w.finals[id := w.temps[id]]))
  {}

  lemma RenameFrame(c: Config, w: World, id: Id, o: Thread)
    requires c.chunk > 0 && ThreadOk(c, w, o) && NotOwner(o, id) && id in w.temps
    ensures ThreadOk(c, DropTemp(w, id).(finals := w.finals[id := w.temps[id]]), o)
  {}

  lemma ReadyFrame(c: Config, w: World, u: Id, id: Id, o: Thread)
    requires c.chunk > 0 && ThreadOk(c, w, o) && Clear(o, u)
    requires HasRow(w.objects, id, Pending) && id in w.finals && u in w.sessions && u in w.born
    ensures ThreadOk(c, Finished(Promoted(w, id), u, id), o)
  {
    PromoteFrame(c, w, id, o);
    SessionFrame(c, Promoted(w, id), u, Finished(Promoted(w, id), u, id).sessions[u], o);
  }

  // ---- Owning a reservation ----------------------------------------------------------------------

  lemma OwnWorld(c: Config, w: World, w': World, th: Thread, th': Option<Thread>, a: OwnAct)
    requires c.chunk > 0 && WorldOk(c, w) && ThreadOk(c, w, th) && OwnStep(w, w', th, th', a)
    ensures WorldOk(c, w')
  {
    match a
    case OwnRename(acked) => RenameWorld(c, w, th.pc.id);
    case OwnReady => PromoteWorld(c, w, th.pc.id); FinishedWorld(c, Promoted(w, th.pc.id), th.u, th.pc.id);
    case OwnUndoRow(removed) => if removed { RowGoneWorld(c, w, th.pc.id); }
    case _ =>
  }

  lemma OwnSelfTemps(c: Config, w: World, w': World, th: Thread, th': Option<Thread>, a: OwnAct)
    requires c.chunk > 0 && ThreadOk(c, w, th) && OwnStep(w, w', th, th', a) && (a.OwnTemp? || a.OwnCopy? || a.OwnFlush?)
    ensures th'.Some? ==> ThreadFacts(c, w', th'.value)
  {
    if a.OwnCopy? {
      var bytes := w.staging[th.u].bytes;
      assert bytes[..th.pc.own.n] + bytes[th.pc.own.n..a.n] == bytes[..a.n];
    }
    if a.OwnFlush? { assert w.staging[th.u].bytes[..th.pc.own.n] == w.staging[th.u].bytes; }
  }

  lemma OwnSelf(c: Config, w: World, w': World, th: Thread, th': Option<Thread>, a: OwnAct)
    requires c.chunk > 0 && ThreadOk(c, w, th) && OwnStep(w, w', th, th', a)
    ensures th'.Some? ==> ThreadOk(c, w', th'.value)
  {
    if a.OwnTemp? || a.OwnCopy? || a.OwnFlush? { OwnSelfTemps(c, w, w', th, th', a); }
    else if a.OwnReady? { OwnSelfReady(c, w, w', th, th', a); }
  }

  lemma OwnSelfReady(c: Config, w: World, w': World, th: Thread, th': Option<Thread>, a: OwnAct)
    requires c.chunk > 0 && ThreadOk(c, w, th) && OwnStep(w, w', th, th', a) && a.OwnReady?
    ensures th'.Some? ==> ThreadOk(c, w', th'.value)
  {}

  lemma OwnOtherTemps(c: Config, w: World, w': World, th: Thread, th': Option<Thread>, a: OwnAct, o: Thread)
    requires c.chunk > 0 && ThreadOk(c, w, o) && Compatible(th, o)
    requires OwnStep(w, w', th, th', a) && (a.OwnTemp? || a.OwnCopy? || a.OwnFlush? || a.OwnUndoTemp?)
    ensures ThreadOk(c, w', o)
  {
    TempWriteFrame(c, w, w'.temps, th.pc.id, o);
  }

  lemma OwnOther(c: Config, w: World, w': World, th: Thread, th': Option<Thread>, a: OwnAct, o: Thread)
    requires c.chunk > 0 && ThreadOk(c, w, th) && ThreadOk(c, w, o) && Compatible(th, o)
    requires OwnStep(w, w', th, th', a)
    ensures ThreadOk(c, w', o)
  {
    if a.OwnTemp? || a.OwnCopy? || a.OwnFlush? || a.OwnUndoTemp? {
      OwnOtherTemps(c, w, w', th, th', a, o);
    } else if a.OwnRename? {
      RenameFrame(c, w, th.pc.id, o);
    } else if a.OwnReady? {
      ReadyFrame(c, w, th.u, th.pc.id, o);
    } else if a.OwnUndoRow? {
      if a.removed { RowGoneFrame(c, w, th.pc.id, o); }
    } else {
      assert w' == w;
    }
  }

  // ---- Maintenance: frames ------------------------------------------------------------------------

  lemma EraseFrame(c: Config, w: World, id: Id, o: Thread)
    requires c.chunk > 0 && ThreadOk(c, w, o) && !HasRow(w.objects, id, Pending)
    ensures ThreadOk(c, w.(finals := w.finals - {id}), o)
  {}

  lemma PartsGoneFrame(c: Config, w: World, u: Id, o: Thread)
    requires c.chunk > 0 && ThreadOk(c, w, o)
    ensures ThreadOk(c, w.(parts := map p | p in w.parts && p.0 != u :: w.parts[p]), o)
  {}

  // ---- Maintenance -------------------------------------------------------------------------------

  lemma MaintWorld(c: Config, w: World, w': World, th: Thread, th': Option<Thread>, a: MaintAct)
    requires c.chunk > 0 && WorldOk(c, w) && ThreadOk(c, w, th) && MaintStep(c, w, w', th, th', a)
    ensures WorldOk(c, w') && (th'.Some? ==> ThreadOk(c, w', th'.value))
  {
    match a
    case CleanFile => StageDropWorld(c, w, th.u);
    case SweepDrop(u) => StageDropWorld(c, w, u);
    case ResolveDropRow => RowGoneWorld(c, w, th.id);
    case EraseRow => RowGoneWorld(c, w, th.id);
    case ResolvePromote => PromoteWorld(c, w, th.id);
    case _ =>
  }

  lemma MaintOther(c: Config, w: World, w': World, th: Thread, th': Option<Thread>, a: MaintAct, o: Thread)
    requires c.chunk > 0 && ThreadOk(c, w, th) && ThreadOk(c, w, o) && Compatible(th, o)
    requires MaintStep(c, w, w', th, th', a) && (a.SweepDrop? ==> !Touches(o, a.u))
    ensures ThreadOk(c, w', o)
  {
    match a
    case CleanFile => StageDropFrame(c, w, th.u, o);
    case SweepDrop(u) => StageDropFrame(c, w, u, o);
    case ResolveDropTemp(removed) => if removed { TempFrame(c, w, th.id, o); }
    case ResolveDropRow => RowGoneFrame(c, w, th.id, o);
    case EraseRow => RowGoneFrame(c, w, th.id, o);
    case ResolvePromote => PromoteFrame(c, w, th.id, o);
    case EraseFile => EraseFrame(c, w, th.id, o);
    case CleanParts => PartsGoneFrame(c, w, th.u, o);
    case _ =>
  }
}
