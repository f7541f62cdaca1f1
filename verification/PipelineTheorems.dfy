/** What the pipeline promises over every run: any interleaving of uploads, finalizers, reconcilers,
    garbage collection and reference changes, with a crash allowed between any two steps. */
module PipelineTheorems {
  import opened Basics
  import opened Parts
  import opened Sums
  import opened Pipeline
  import opened PipelineInvariant
  import opened PipelineRuns

  ghost predicate Collisionless(hash: Bytes -> nat) { forall x, y | hash(x) == hash(y) && |x| == |y| :: x == y }

  // ---- Stored objects ----------------------------------------------------------------------------

  /** Every READY row has its final object, synced, with exactly the row's size and hash. */
  lemma ReadyMeansStored(c: Config, run: seq<State>, steps: seq<Step>, id: Id)
    requires c.chunk > 0 && IsRun(c, run, steps) && HasRow(run[|steps|].w.objects, id, Ready)
    ensures var w := run[|steps|].w;
            id in w.finals && w.finals[id].synced && |w.finals[id].bytes| == w.objects[id].size && c.hash(w.finals[id].bytes) == w.objects[id].sha
  {
    RunsKeepInv(c, run, steps);
  }

  /** Deduplication: no two rows share hash and size. */
  lemma RowsAreUnique(c: Config, run: seq<State>, steps: seq<Step>, i: Id, j: Id)
    requires c.chunk > 0 && IsRun(c, run, steps) && i in run[|steps|].w.objects && j in run[|steps|].w.objects
    requires run[|steps|].w.objects[i].sha == run[|steps|].w.objects[j].sha && run[|steps|].w.objects[i].size == run[|steps|].w.objects[j].size
    ensures i == j
  {
    RunsKeepInv(c, run, steps);
  }

  /** No dangling reference: an attachment, and a completed upload no message took yet, points to a READY stored object. */
  lemma ReferencesResolve(c: Config, run: seq<State>, steps: seq<Step>)
    requires c.chunk > 0 && IsRun(c, run, steps)
    ensures var w := run[|steps|].w;
            && (forall a | a in w.attachments :: HasRow(w.objects, w.attachments[a].file, Ready) && w.attachments[a].file in w.finals)
            && (forall u | u in w.sessions && Awaiting(w.sessions[u]) ::
                  w.sessions[u].file.Some? && HasRow(w.objects, w.sessions[u].file.value, Ready) && w.sessions[u].file.value in w.finals)
            && (forall id | id in w.busy :: HasRow(w.objects, id, Ready))
  {
    RunsKeepInv(c, run, steps);
  }

  // ---- The bytes, end to end ---------------------------------------------------------------------

  // Step j is the transaction in which Complete accepts upload u.
  ghost predicate SealsAt(run: seq<State>, steps: seq<Step>, j: nat, u: Id)
    requires |run| == |steps| + 1
  {
    && j < |steps| && steps[j].Run? && steps[j].act == SealDo(FinSeal)
    && steps[j].t in run[j].threads && run[j].threads[steps[j].t].Finishing? && run[j].threads[steps[j].t].u == u
    && u in run[j].w.sessions
  }

  ghost function UploadedAt(c: Config, s: State, u: Id): Bytes
    requires c.chunk > 0 && u in s.w.sessions
  { Joined(s.w.written, u, PartCount(s.w.sessions[u].size, c.chunk)) }

  // What no thread step but an insertion or a seal can disturb: seals, settled uploads, and the set of active uploads.
  ghost predicate Settled(w: World, u: Id) {
    u in w.sessions && w.sessions[u].status == Completed && w.sessions[u].file.Some? && HasRow(w.objects, w.sessions[u].file.value, Ready)
  }

  ghost predicate NoNewActive(x: map<Id, Session>, y: map<Id, Session>) {
    forall u | Kept(y, u) :: Kept(x, u) && x[u].size == y[u].size
  }

  ghost predicate Gentle(w: World, w': World) {
    && NoNewActive(w.sessions, w'.sessions)
    && forall u | Settled(w, u) :: u in w'.sessions && w'.sessions[u] == w.sessions[u]
  }

  lemma PutGentle(c: Config, w: World, w': World, th: Thread, th': Option<Thread>, a: PutAct)
    requires c.chunk > 0 && PutStep(c, w, w', th, th', a)
    ensures Gentle(w, w') && w'.sealed == w.sealed
  {}

  // One session changed, and not to or from being settled or into being active.
  lemma OneGentle(w: World, w': World, u: Id)
    requires u in w.sessions && u in w'.sessions && w'.sessions == w.sessions[u := w'.sessions[u]] && !Settled(w, u)
    requires Active(w'.sessions[u].status) ==> Active(w.sessions[u].status) && w'.sessions[u].size == w.sessions[u].size
    ensures Gentle(w, w')
  {}

  lemma SealGentle(c: Config, w: World, w': World, th: Thread, th': Option<Thread>, a: SealAct)
    requires c.chunk > 0 && SealStep(c, w, w', th, th', a)
    ensures Gentle(w, w') && (!a.FinSeal? ==> w'.sealed == w.sealed)
  {
    if a.FinSeal? || a.FinFail? { OneGentle(w, w', th.u); }
  }

  lemma FinGentle(c: Config, w: World, w': World, th: Thread, th': Option<Thread>, a: FinAct)
    requires FinStep(c, w, w', th, th', a)
    ensures Gentle(w, w') && w'.sealed == w.sealed
  {}

  lemma OwnGentle(w: World, w': World, th: Thread, th': Option<Thread>, a: OwnAct)
    requires OwnStep(w, w', th, th', a)
    ensures Gentle(w, w') && w'.sealed == w.sealed
  {
    if a.OwnReady? { OneGentle(w, w', th.u); }
    else if a.OwnUndoRow? { UndoGentle(w, w', th.pc.id, a.removed); }
    else { assert w'.sessions == w.sessions; }
  }

  lemma UndoGentle(w: World, w': World, id: Id, removed: bool)
    requires w' == (if removed then WithoutObject(w, id) else w) && (removed ==> HasRow(w.objects, id, Pending))
    ensures Gentle(w, w')
  {}

  lemma MaintGentle(c: Config, w: World, w': World, th: Thread, th': Option<Thread>, a: MaintAct)
    requires MaintStep(c, w, w', th, th', a)
    ensures Gentle(w, w') && w'.sealed == w.sealed && (th'.Some? ==> !th'.value.Creating?)
  {}

  lemma RunGentle(c: Config, s: State, w': World, th: Thread, th': Option<Thread>, a: Act)
    requires c.chunk > 0 && ThreadStep(c, s, w', th, th', a) && a != CreateDo(CreateInsert)
    ensures Gentle(s.w, w') && (a != SealDo(FinSeal) ==> w'.sealed == s.w.sealed)
    ensures th'.Some? && th'.value.Creating? ==> th.Creating? && th.size == th'.value.size
  {
    match a
    case FinDo(x) => FinGentle(c, s.w, w', th, th', x);
    case OwnDo(x) => OwnGentle(s.w, w', th, th', x);
    case MaintDo(x) => MaintGentle(c, s.w, w', th, th', x);
    case SealDo(x) => SealGentle(c, s.w, w', th, th', x);
    case PutDo(x) => PutGentle(c, s.w, w', th, th', x);
    case CreateDo(x) =>
    case KeyDo =>
  }

  lemma RefGentle(w: World, w': World, a: RefAct)
    requires RefStep(w, w', a)
    ensures NoNewActive(w.sessions, w'.sessions) && w'.sealed == w.sealed
  {}

  // Steps outside threads change no seal and activate no upload.
  lemma OutsideGentle(c: Config, s: State, s': State, step: Step)
    requires c.chunk > 0 && Next(c, s, s', step) && !step.Run?
    ensures NoNewActive(s.w.sessions, s'.w.sessions) && s'.w.sealed == s.w.sealed
  {
    if step.Refer? { RefGentle(s.w, s'.w, step.ref); }
  }

  lemma SealStepWrites(c: Config, w: World, w': World, th: Thread, th': Option<Thread>, u: Id)
    requires c.chunk > 0 && SealStep(c, w, w', th, th', FinSeal) && u in w'.sealed
    ensures u != th.u ==> u in w.sealed && w.sealed[u] == w'.sealed[u]
    ensures u == th.u ==> u in w.sessions && w'.sealed[u] == Joined(w.written, u, PartCount(w.sessions[u].size, c.chunk))
  {}

  ghost predicate SealSame(s: State, s': State, u: Id)
    requires u in s'.w.sealed
  { u in s.w.sealed && s.w.sealed[u] == s'.w.sealed[u] }

  // A seal is written by that transaction only, and never changes.
  lemma SealStep1(c: Config, run: seq<State>, steps: seq<Step>, j: nat, u: Id)
    requires c.chunk > 0 && |run| == |steps| + 1 && j < |steps| && Next(c, run[j], run[j + 1], steps[j]) && u in run[j + 1].w.sealed
    ensures SealSame(run[j], run[j + 1], u)
         || (SealsAt(run, steps, j, u) && run[j + 1].w.sealed[u] == UploadedAt(c, run[j], u))
  {
    var step := steps[j]; var s := run[j]; var s' := run[j + 1];
    if !step.Run? {
      OutsideGentle(c, s, s', step);
    } else if step.act == SealDo(FinSeal) {
      SealStepWrites(c, s.w, s'.w, s.threads[step.t], step.th', u);
    } else if step.act != CreateDo(CreateInsert) {
      RunGentle(c, s, s'.w, s.threads[step.t], step.th', step.act);
    }
  }

  lemma {:induction false} SealComesFromComplete(c: Config, run: seq<State>, steps: seq<Step>, u: Id) returns (j: nat)
    requires c.chunk > 0 && IsRun(c, run, steps) && u in run[|steps|].w.sealed
    ensures SealsAt(run, steps, j, u) && run[|steps|].w.sealed[u] == UploadedAt(c, run[j], u)
  {
    if steps == [] {
      assert false;
    } else {
      var n: nat := |steps| - 1;
      assert Next(c, run[n], run[n + 1], steps[n]);
      SealStep1(c, run, steps, n, u);
      if SealSame(run[n], run[n + 1], u) {
        j := SealComesFromComplete(c, run[..|steps|], steps[..n], u);
      } else {
        j := n;
      }
    }
  }

  /** What a message attachment serves is, byte for byte, the in-order concatenation of the part bodies
      committed when Complete accepted the upload it came from. Deduplication, forwarding, crashes and
      collection in between make no difference. */
  lemma ServedBytesAreUploadedBytes(c: Config, run: seq<State>, steps: seq<Step>, a: Id)
    requires c.chunk > 0 && IsRun(c, run, steps) && Collisionless(c.hash) && a in run[|steps|].w.attachments
    ensures var w := run[|steps|].w; var x := w.attachments[a];
            x.file in w.finals && exists j: nat :: SealsAt(run, steps, j, x.origin) && w.finals[x.file].bytes == UploadedAt(c, run[j], x.origin)
  {
    RunsKeepInv(c, run, steps);
    var w := run[|steps|].w;
    var x := w.attachments[a];
    assert Linked(c, w.objects, w.sealed, x.file, x.origin);
    var j := SealComesFromComplete(c, run, steps, x.origin);
    assert SealsAt(run, steps, j, x.origin) && w.finals[x.file].bytes == UploadedAt(c, run[j], x.origin);
  }

  // ---- Staging -----------------------------------------------------------------------------------

  /** A part marker of an active upload means the staging bytes of that part's region are exactly the last
      committed body, even though other parts are being written and crashes garble unsynced bytes. */
  lemma MarkerMeansBytes(c: Config, run: seq<State>, steps: seq<Step>, p: Part)
    requires c.chunk > 0 && IsRun(c, run, steps) && p in run[|steps|].w.parts && Kept(run[|steps|].w.sessions, p.0)
    ensures var w := run[|steps|].w;
            && p.0 in w.staging && p in w.written && w.parts[p] == |w.written[p]| == PartSize(w.sessions[p.0].size, c.chunk, p.1)
            && p.1 * c.chunk + |w.written[p]| <= |w.staging[p.0].bytes|
            && w.staging[p.0].bytes[p.1 * c.chunk..p.1 * c.chunk + |w.written[p]|] == w.written[p]
  {
    RunsKeepInv(c, run, steps);
    var w := run[|steps|].w;
    assert MarkerOk(c, w.sessions[p.0].size, w.staging[p.0], p.1, w.parts[p], if p in w.written then Some(w.written[p]) else None);
  }

  /** No cleanup ever takes the staging file of an active upload, and no part write changes its length. */
  lemma ActiveUploadsKeepTheirFile(c: Config, run: seq<State>, steps: seq<Step>, u: Id)
    requires c.chunk > 0 && IsRun(c, run, steps) && Kept(run[|steps|].w.sessions, u)
    ensures u in run[|steps|].w.staging && |run[|steps|].w.staging[u].bytes| == run[|steps|].w.sessions[u].size
  {
    RunsKeepInv(c, run, steps);
  }

  // A thread that works on another upload, or only sweeps what is not locked, leaves the staging file of u alone.
  ghost predicate Elsewhere(s: State, th: Thread, a: Act, u: Id) {
    && ((th.Creating? || th.Putting? || th.Finishing? || th.Cleaning?) ==> th.u != u)
    && (a.MaintDo? && a.maint.SweepDrop? ==> a.maint.u != u)
  }

  lemma ElsewhereKeeps(c: Config, s: State, w': World, th: Thread, th': Option<Thread>, a: Act, u: Id)
    requires c.chunk > 0 && ThreadStep(c, s, w', th, th', a) && Elsewhere(s, th, a, u)
    ensures SameStage(s.w, w', u)
  {
    match a
    case CreateDo(x) => CreateKeepsStage(s.w, w', th, th', x, u);
    case PutDo(x) => PutKeepsStage(c, s.w, w', th, th', x, u);
    case SealDo(x) => SealKeepsStage(c, s.w, w', th, th', x, u);
    case KeyDo =>
    case FinDo(x) => FinKeepsStage(c, s.w, w', th, th', x, u);
    case OwnDo(x) => OwnKeepsStage(s.w, w', th, th', x, u);
    case MaintDo(x) => MaintKeepsStage(c, s.w, w', th, th', x, u);
  }

  lemma CreateKeepsStage(w: World, w': World, th: Thread, th': Option<Thread>, a: CreateAct, u: Id)
    requires CreateStep(w, w', th, th', a) && th.u != u
    ensures SameStage(w, w', u)
  {}

  lemma PutKeepsStage(c: Config, w: World, w': World, th: Thread, th': Option<Thread>, a: PutAct, u: Id)
    requires c.chunk > 0 && PutStep(c, w, w', th, th', a) && th.u != u
    ensures SameStage(w, w', u)
  {}

  lemma SealKeepsStage(c: Config, w: World, w': World, th: Thread, th': Option<Thread>, a: SealAct, u: Id)
    requires c.chunk > 0 && SealStep(c, w, w', th, th', a) && th.u != u
    ensures SameStage(w, w', u)
  {}

  lemma FinKeepsStage(c: Config, w: World, w': World, th: Thread, th': Option<Thread>, a: FinAct, u: Id)
    requires FinStep(c, w, w', th, th', a)
    ensures SameStage(w, w', u)
  {}

  lemma OwnKeepsStage(w: World, w': World, th: Thread, th': Option<Thread>, a: OwnAct, u: Id)
    requires OwnStep(w, w', th, th', a)
    ensures SameStage(w, w', u)
  {}

  lemma MaintKeepsStage(c: Config, w: World, w': World, th: Thread, th': Option<Thread>, a: MaintAct, u: Id)
    requires MaintStep(c, w, w', th, th', a) && (th.Cleaning? ==> th.u != u) && (a.SweepDrop? ==> a.u != u)
    ensures SameStage(w, w', u)
  {}

  /** While a finalizer works on an upload that exists, no step of anyone else, short of a crash, touches the staging file:
      what was hashed is what is copied. */
  lemma ExclusiveFreezesStaging(c: Config, s: State, s': State, step: Step, t: nat)
    requires Inv(c, s) && Next(c, s, s', step) && !step.CrashStep? && t in s.threads && s.threads[t].Finishing?
    requires s.threads[t].u in s.w.born && !(step.Run? && step.t == t)
    ensures SameStage(s.w, s'.w, s.threads[t].u)
  {
    if step.Run? {
      assert ThreadOk(c, s.w, s.threads[step.t]) && Compatible(s.threads[t], s.threads[step.t]);
      FrozenByThreads(c, s, s'.w, s.threads[t], s.threads[step.t], step.th', step.act);
    } else {
      FrozenOutside(c, s, s', step, s.threads[t].u);
    }
  }

  /** While a part is being written nobody else, short of a crash, removes the staging file or changes its length. */
  lemma ChunkLockKeepsLength(c: Config, s: State, s': State, step: Step, t: nat)
    requires Inv(c, s) && Next(c, s, s', step) && !step.CrashStep? && t in s.threads && s.threads[t].Putting? && !s.threads[t].put.PutLocked?
    requires !(step.Run? && step.t == t)
    ensures var u := s.threads[t].u;
            u in s.w.staging && u in s'.w.staging && |s'.w.staging[u].bytes| == |s.w.staging[u].bytes| == |s'.w.staging[u].clean|
  {
    NextInv(c, s, s', step);
    assert t in s'.threads && s'.threads[t] == s.threads[t];
    assert ThreadOk(c, s.w, s.threads[t]) && ThreadOk(c, s'.w, s.threads[t]);
  }

  lemma FrozenByThreads(c: Config, s: State, w': World, mine: Thread, th: Thread, th': Option<Thread>, a: Act)
    requires c.chunk > 0 && ThreadStep(c, s, w', th, th', a) && ThreadOk(c, s.w, th) && Compatible(mine, th)
    requires mine.Finishing? && mine.u in s.w.born && mine in s.threads.Values
    ensures SameStage(s.w, w', mine.u)
  {
    OthersAreElsewhere(c, s, w', mine, th, th', a);
    ElsewhereKeeps(c, s, w', th, th', a, mine.u);
  }

  lemma FrozenOutside(c: Config, s: State, s': State, step: Step, u: Id)
    requires c.chunk > 0 && Next(c, s, s', step) && !step.Run? && !step.CrashStep?
    ensures SameStage(s.w, s'.w, u)
  {
    if step.Refer? {
      RefKeepsStage(s.w, s'.w, step.ref, u);
    } else if step.Expire? {
      assert s'.w == SetSession(s.w, step.u, s.w.sessions[step.u].(status := SessionStatus.Expired));
    }
  }

  lemma OthersAreElsewhere(c: Config, s: State, w': World, mine: Thread, th: Thread, th': Option<Thread>, a: Act)
    requires c.chunk > 0 && ThreadStep(c, s, w', th, th', a) && ThreadOk(c, s.w, th) && Compatible(mine, th)
    requires mine.Finishing? && mine.u in s.w.born && mine in s.threads.Values
    ensures Elsewhere(s, th, a, mine.u)
  {
    assert Touches(mine, mine.u);
    if a.MaintDo? && a.maint.SweepDrop? { assert ExclusiveFree(s, a.maint.u); }
  }

  lemma RefKeepsStage(w: World, w': World, a: RefAct, u: Id)
    requires RefStep(w, w', a)
    ensures SameStage(w, w', u)
  {}

  // ---- Finalizers do not fight -------------------------------------------------------------------

  /** Under the content lock a finalizer only ever reaps reservations that no running finalizer owns. */
  lemma ReapsOnlyOrphans(c: Config, run: seq<State>, steps: seq<Step>, t: nat, other: nat)
    requires c.chunk > 0 && IsRun(c, run, steps) && t in run[|steps|].threads && other in run[|steps|].threads && t != other
    requires var th := run[|steps|].threads[t]; th.Finishing? && (th.pc.Checking? || th.pc.Missing? || th.pc.Absent?)
    requires run[|steps|].threads[t].pc.id in run[|steps|].w.objects
    ensures !(OwnsRow(run[|steps|].threads[other]) && run[|steps|].threads[other].pc.id == run[|steps|].threads[t].pc.id)
  {
    RunsKeepInv(c, run, steps);
    var s := run[|steps|];
    assert Compatible(s.threads[t], s.threads[other]) && ThreadOk(c, s.w, s.threads[t]) && ThreadOk(c, s.w, s.threads[other]);
  }

  // ---- The lease ---------------------------------------------------------------------------------

  ghost predicate SameUpload(w: World, w': World, u: Id)
    requires u in w.sessions
  { u in w'.sessions && w'.sessions[u] == w.sessions[u] }

  /** No thread, expiry or crash touches an upload that completed and was not taken yet. */
  lemma AwaitingUploadStays(c: Config, s: State, s': State, step: Step, u: Id)
    requires Inv(c, s) && Next(c, s, s', step) && u in s.w.sessions && Awaiting(s.w.sessions[u]) && !step.Refer?
    ensures SameUpload(s.w, s'.w, u)
  {
    assert Settled(s.w, u) && u in s.w.born;
    if step.Run? {
      assert ThreadOk(c, s.w, s.threads[step.t]);
      LeaseRun(c, s, s'.w, s.threads[step.t], step.th', step.act, u);
    } else {
      LeaseElse(c, s, s', step, u);
    }
  }

  predicate CreatesUpload(th: Thread, u: Id) { th.Creating? && th.u == u }

  lemma LeaseRun(c: Config, s: State, w': World, th: Thread, th': Option<Thread>, a: Act, u: Id)
    requires c.chunk > 0 && ThreadStep(c, s, w', th, th', a) && Settled(s.w, u) && !CreatesUpload(th, u)
    ensures u in w'.sessions && w'.sessions[u] == s.w.sessions[u]
  {
    if a != CreateDo(CreateInsert) { RunGentle(c, s, w', th, th', a); }
  }

  lemma LeaseElse(c: Config, s: State, s': State, step: Step, u: Id)
    requires c.chunk > 0 && Next(c, s, s', step) && Settled(s.w, u) && !step.Run? && !step.Refer?
    ensures u in s'.w.sessions && s'.w.sessions[u] == s.w.sessions[u]
  {
    match step
    case Expire(v) => assert s'.w == SetSession(s.w, v, s.w.sessions[v].(status := SessionStatus.Expired));
    case _ =>
  }

  /** Within 24 hours of completion no reference transaction touches it either, except the one binding that takes it
      (and the deletion of its user); garbage collection in particular leaves it and its object alone. */
  lemma LeaseHolds(c: Config, w: World, w': World, a: RefAct, u: Id)
    requires c.chunk > 0 && WorldOk(c, w) && RefStep(w, w', a) && u in w.sessions && Awaiting(w.sessions[u]) && (a.DropUploads? ==> u !in a.gone)
    requires w.clock < w.sessions[u].completedAt + LEASE
    ensures u in w'.sessions
    ensures w'.sessions[u] == if a.Bind? && u in a.links.Values then w.sessions[u].(consumed := true) else w.sessions[u]
    ensures HasRow(w'.objects, w.sessions[u].file.value, Ready)
  {
    if a.GcMark? {
      var kept := WithoutSessions(w, LapsedUploads(w, a.now));
      assert u in kept.sessions && kept.sessions[u].file == Some(w.sessions[u].file.value);
      assert Leased(kept, w.sessions[u].file.value, a.now);
    }
  }

  // ---- Budgets -----------------------------------------------------------------------------------

  /** A reservation never takes the stored total over the quota in force. */
  lemma QuotaHolds(c: Config, w: World, w': World, th: Thread, th': Option<Thread>, id: Id, quota: nat)
    requires FinStep(c, w, w', th, th', FinReserve(id, Some(quota))) && ObjectsOk(c, w.used, w.objects, w.finals)
    ensures StoredBytes(w'.objects) == StoredBytes(w.objects) + th.size <= quota
  {
    TotalInsert(ObjectSizes(w.objects), id, th.size);
    assert ObjectSizes(w'.objects) == ObjectSizes(w.objects)[id := th.size];
  }

  // The staging reservation, counting the one upload that may be between its check and its insert.
  ghost predicate Budget(c: Config, s: State) {
    && ActiveBytes(s.w.sessions) <= c.maxStaging
    && forall t | t in s.threads && s.threads[t].Creating? :: ActiveBytes(s.w.sessions) + s.threads[t].size <= c.maxStaging
  }

  lemma ActiveShrinks(x: map<Id, Session>, y: map<Id, Session>)
    requires NoNewActive(x, y)
    ensures ActiveBytes(y) <= ActiveBytes(x)
  {
    forall u | u in ActiveSizes(y) ensures u in ActiveSizes(x) && ActiveSizes(x)[u] == ActiveSizes(y)[u] {
      assert Kept(y, u);
    }
    TotalMono(ActiveSizes(y), ActiveSizes(x));
  }

  lemma InsertBudget(c: Config, s: State, s': State, t: nat)
    requires c.chunk > 0 && Next(c, s, s', Run(t, None, CreateDo(CreateInsert))) && Budget(c, s)
    requires s.threads[t].u !in s.w.sessions && forall x | x in s.threads && x != t :: !s.threads[x].Creating?
    ensures Budget(c, s')
  {
    var th := s.threads[t];
    TotalInsert(ActiveSizes(s.w.sessions), th.u, th.size);
    assert ActiveSizes(s'.w.sessions) == ActiveSizes(s.w.sessions)[th.u := th.size];
  }

  lemma OtherBudget(c: Config, s: State, s': State)
    requires Budget(c, s) && NoNewActive(s.w.sessions, s'.w.sessions)
    requires forall x | x in s'.threads && s'.threads[x].Creating? ::
               (x in s.threads && s.threads[x].Creating? && s.threads[x].size == s'.threads[x].size)
               || ActiveBytes(s.w.sessions) + s'.threads[x].size <= c.maxStaging
    ensures Budget(c, s')
  {
    ActiveShrinks(s.w.sessions, s'.w.sessions);
  }

  lemma BeginBudget(c: Config, s: State, s': State, step: Step)
    requires c.chunk > 0 && Next(c, s, s', step) && Budget(c, s) && !step.Run?
    ensures Budget(c, s')
  {
    OutsideGentle(c, s, s', step);
    OtherBudget(c, s, s');
  }

  lemma RunBudget(c: Config, s: State, s': State, t: nat, th': Option<Thread>, a: Act)
    requires c.chunk > 0 && Next(c, s, s', Run(t, th', a)) && Budget(c, s) && a != CreateDo(CreateInsert)
    ensures Budget(c, s')
  {
    RunGentle(c, s, s'.w, s.threads[t], th', a);
    OtherBudget(c, s, s');
  }

  lemma BudgetNext(c: Config, s: State, s': State, step: Step)
    requires Inv(c, s) && Next(c, s, s', step) && Budget(c, s)
    ensures Budget(c, s')
  {
    if step.Run? && step.act == CreateDo(CreateInsert) {
      assert ThreadOk(c, s.w, s.threads[step.t]);
      forall x | x in s.threads && x != step.t ensures !s.threads[x].Creating? { assert Compatible(s.threads[x], s.threads[step.t]); }
      InsertBudget(c, s, s', step.t);
    } else if step.Run? {
      RunBudget(c, s, s', step.t, step.th', step.act);
    } else {
      BeginBudget(c, s, s', step);
    }
  }

  /** The declared sizes of all active uploads never exceed the staging limit. */
  lemma {:induction false} StagingBudgetHolds(c: Config, run: seq<State>, steps: seq<Step>)
    requires c.chunk > 0 && IsRun(c, run, steps)
    ensures Budget(c, run[|steps|])
  {
    if steps == [] {
      assert ActiveSizes(run[0].w.sessions) == map[];
    } else {
      var n := |steps| - 1;
      StagingBudgetHolds(c, run[..|steps|], steps[..n]);
      RunsKeepInv(c, run[..|steps|], steps[..n]);
      assert Next(c, run[n], run[n + 1], steps[n]);
      BudgetNext(c, run[n], run[n + 1], steps[n]);
    }
  }
}
