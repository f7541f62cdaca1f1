/** The imperative finalizer of Uploads inside the protocol of Pipeline: its log, woven into whatever the other threads do, is
    a run; and in every reachable state an undisturbed Complete or Finalize finishes the upload, with exact exceptions. */
module UploadsInPipeline {
  import opened Basics
  import opened Parts
  import opened Sums
  import opened Pipeline
  import opened PipelineInvariant
  import opened PipelineSteps
  import opened PipelineRuns
  import opened PipelineOverRuns
  import Uploads

  // ---- A log is part of a run ------------------------------------------------------------------------

  // Thread t takes the logged step.
  function After(s: State, t: nat, e: Uploads.Entry): State {
    State(e.after, if e.th'.Some? then s.threads[t := e.th'.value] else s.threads - {t})
  }

  // Thread t stands where the entry starts; the content lock, when it is what the entry takes, is free.
  ghost predicate Starts(s: State, t: nat, e: Uploads.Entry) {
    && t in s.threads && s.threads[t] == e.th && s.w == e.before
    && (e.act.KeyDo? ==> e.th.Finishing? && e.th.pc.Hashed? && ContentFree(s, e.th.pc.sha, e.th.size))
  }

  /** What Uploads allows is a step of the protocol, and so keeps the invariant. */
  lemma EntryIsStep(c: Config, s: State, t: nat, e: Uploads.Entry)
    requires c.chunk > 0 && Uploads.Allowed(c, e) && Starts(s, t, e)
    ensures Next(c, s, After(s, t, e), Run(t, e.th', e.act)) && (Inv(c, s) ==> Inv(c, After(s, t, e)))
  {
    assert ThreadStep(c, State(e.before, s.threads), e.after, e.th, e.th', e.act);
    if Inv(c, s) { NextInv(c, s, After(s, t, e), Run(t, e.th', e.act)); }
  }

  // Steps of others.
  datatype Gap = Gap(run: seq<State>, steps: seq<Step>)

  // Others run, then the thread takes its logged step, and so on.
  ghost predicate Woven(c: Config, s: State, t: nat, log: seq<Uploads.Entry>, gaps: seq<Gap>)
    requires c.chunk > 0
    decreases |log|
  {
    && |gaps| == |log|
    && (log != [] ==>
          && var g := gaps[0];
          && OthersRun(c, g.run, g.steps, t) && g.run[0] == s && g.run[|g.steps|].w == log[0].before
          && (log[0].act.KeyDo? && log[0].th.Finishing? && log[0].th.pc.Hashed? ==> ContentFree(g.run[|g.steps|], log[0].th.pc.sha, log[0].th.size))
          && Woven(c, After(g.run[|g.steps|], t, log[0]), t, log[1..], gaps[1..]))
  }

  // The state after all of it.
  ghost function Last(s: State, t: nat, log: seq<Uploads.Entry>, gaps: seq<Gap>): State
    requires |gaps| == |log| && forall g | g in gaps :: g.run != []
    decreases |log|
  {
    if log == [] then s else Last(After(gaps[0].run[|gaps[0].run| - 1], t, log[0]), t, log[1..], gaps[1..])
  }

  lemma {:induction false} WovenGaps(c: Config, s: State, t: nat, log: seq<Uploads.Entry>, gaps: seq<Gap>)
    requires c.chunk > 0 && Woven(c, s, t, log, gaps)
    ensures |gaps| == |log| && forall g | g in gaps :: g.run != []
    decreases |log|
  {
    if log != [] {
      WovenGaps(c, After(gaps[0].run[|gaps[0].steps|], t, log[0]), t, log[1..], gaps[1..]);
      assert gaps == [gaps[0]] + gaps[1..];
    }
  }

  lemma Longer(c: Config, run: seq<State>, steps: seq<Step>, s: State, step: Step)
    requires c.chunk > 0 && IsRun(c, run, steps) && Next(c, run[|steps|], s, step)
    ensures IsRun(c, run + [s], steps + [step])
  {
    forall i | 0 <= i < |steps| + 1 ensures Next(c, (run + [s])[i], (run + [s])[i + 1], (steps + [step])[i]) {
      if i < |steps| { assert Next(c, run[i], run[i + 1], steps[i]); }
    }
  }

  lemma OthersFollow(c: Config, run: seq<State>, steps: seq<Step>, g: Gap, t: nat)
    requires c.chunk > 0 && IsRun(c, run, steps) && OthersRun(c, g.run, g.steps, t) && g.run[0] == run[|steps|]
    ensures IsRun(c, run + g.run[1..], steps + g.steps)
  {
    var r, p := run + g.run[1..], steps + g.steps;
    forall i | 0 <= i < |p| ensures Next(c, r[i], r[i + 1], p[i]) {
      if i < |steps| { assert Next(c, run[i], run[i + 1], steps[i]); }
      else { assert Next(c, g.run[i - |steps|], g.run[i - |steps| + 1], g.steps[i - |steps|]); }
    }
  }

  /** The log of Complete, Finalize or PutPart, begun in a reachable state and interleaved with any steps of others, is a run of
      the protocol; whatever holds of all runs holds of it. */
  lemma {:induction false} LogIsRun(c: Config, run: seq<State>, steps: seq<Step>, t: nat, log: seq<Uploads.Entry>, gaps: seq<Gap>)
      returns (run': seq<State>, steps': seq<Step>)
    requires c.chunk > 0 && IsRun(c, run, steps) && Uploads.IsPath(c, log) && Woven(c, run[|steps|], t, log, gaps)
    requires log != [] ==> t in run[|steps|].threads && run[|steps|].threads[t] == log[0].th
    ensures |gaps| == |log| && forall g | g in gaps :: g.run != []
    ensures run <= run' && steps <= steps' && IsRun(c, run', steps')
    ensures run'[|steps'|] == Last(run[|steps|], t, log, gaps) && Inv(c, run'[|steps'|])
    decreases |log|
  {
    WovenGaps(c, run[|steps|], t, log, gaps);
    run', steps' := run, steps;
    if log == [] {
      RunsKeepInv(c, run, steps);
    } else {
      run', steps' := OneEntry(c, run, steps, t, log[0], gaps[0]);
      TailIsPath(c, log);
      run', steps' := LogIsRun(c, run', steps', t, log[1..], gaps[1..]);
    }
  }

  lemma OneEntry(c: Config, run: seq<State>, steps: seq<Step>, t: nat, e: Uploads.Entry, g: Gap) returns (run': seq<State>, steps': seq<Step>)
    requires c.chunk > 0 && IsRun(c, run, steps) && Uploads.Allowed(c, e) && t in run[|steps|].threads && run[|steps|].threads[t] == e.th
    requires OthersRun(c, g.run, g.steps, t) && g.run[0] == run[|steps|] && g.run[|g.steps|].w == e.before
    requires e.act.KeyDo? && e.th.Finishing? && e.th.pc.Hashed? ==> ContentFree(g.run[|g.steps|], e.th.pc.sha, e.th.size)
    ensures run <= run' && steps <= steps' && IsRun(c, run', steps') && run'[|steps'|] == After(g.run[|g.steps|], t, e)
  {
    var s := g.run[|g.steps|];
    RunsKeepInv(c, run, steps);
    OthersLeaveThread(c, g.run, g.steps, t);
    OthersFollow(c, run, steps, g, t);
    EntryIsStep(c, s, t, e);
    run', steps' := run + g.run[1..], steps + g.steps;
    assert run'[|steps'|] == s;
    Longer(c, run', steps', After(s, t, e), Run(t, e.th', e.act));
    run', steps' := run' + [After(s, t, e)], steps' + [Run(t, e.th', e.act)];
  }

  lemma TailIsPath(c: Config, log: seq<Uploads.Entry>)
    requires c.chunk > 0 && log != [] && Uploads.IsPath(c, log)
    ensures Uploads.IsPath(c, log[1..]) && (|log| > 1 ==> log[0].th' == Some(log[1].th))
  {
    forall i | 0 <= i < |log| - 1 ensures Uploads.Allowed(c, log[1..][i]) { assert Uploads.Allowed(c, log[i + 1]); }
    forall i | 0 < i < |log| - 1 ensures log[1..][i - 1].th' == Some(log[1..][i].th) { assert log[i + 1 - 1].th' == Some(log[i + 1].th); }
  }

  // ---- Uploads point to settled objects ---------------------------------------------------------------

  // An upload points to a row that is there, and not to a waiting reservation.
  ghost predicate FilesSettled(w: World) {
    forall u | u in w.sessions && w.sessions[u].file.Some? :: w.sessions[u].file.value in w.objects && !HasRow(w.objects, w.sessions[u].file.value, Pending)
  }

  // An upload is given a READY object only; a row starts waiting only under a new identifier.
  ghost predicate Settles(w: World, w': World) {
    && w.used <= w'.used
    && (forall u | u in w'.sessions && w'.sessions[u].file.Some? ::
          || (u in w.sessions && w.sessions[u].file == w'.sessions[u].file
              && (w'.sessions[u].file.value in w.objects ==> w'.sessions[u].file.value in w'.objects))
          || (w'.sessions[u].file.value in w.objects && HasRow(w'.objects, w'.sessions[u].file.value, Ready)))
    && (forall id | HasRow(w'.objects, id, Pending) :: HasRow(w.objects, id, Pending) || id !in w.used)
  }

  lemma FinSettles(c: Config, w: World, w': World, th: Thread, th': Option<Thread>, a: FinAct)
    requires FinStep(c, w, w', th, th', a)
    ensures Settles(w, w')
  {}

  lemma OwnSettles(w: World, w': World, th: Thread, th': Option<Thread>, a: OwnAct)
    requires OwnStep(w, w', th, th', a)
    ensures Settles(w, w')
  {}

  lemma MaintSettles(c: Config, w: World, w': World, th: Thread, th': Option<Thread>, a: MaintAct)
    requires MaintStep(c, w, w', th, th', a)
    ensures Settles(w, w')
  {}

  lemma SealSettles(c: Config, w: World, w': World, th: Thread, th': Option<Thread>, a: SealAct)
    requires c.chunk > 0 && SealStep(c, w, w', th, th', a)
    ensures Settles(w, w')
  {}

  lemma PutSettles(c: Config, w: World, w': World, th: Thread, th': Option<Thread>, a: PutAct)
    requires c.chunk > 0 && PutStep(c, w, w', th, th', a)
    ensures Settles(w, w')
  {}

  lemma CreateSettles(w: World, w': World, th: Thread, th': Option<Thread>, a: CreateAct)
    requires CreateStep(w, w', th, th', a)
    ensures Settles(w, w')
  {}

  lemma RefSettles(w: World, w': World, a: RefAct)
    requires RefStep(w, w', a)
    ensures Settles(w, w')
  {}

  lemma NextSettles(c: Config, s: State, s': State, step: Step)
    requires c.chunk > 0 && Next(c, s, s', step)
    ensures Settles(s.w, s'.w)
  {
    match step
    case Run(t, th', act) =>
      var th := s.threads[t];
      match act {
        case CreateDo(x) => CreateSettles(s.w, s'.w, th, th', x);
        case PutDo(x) => PutSettles(c, s.w, s'.w, th, th', x);
        case SealDo(x) => SealSettles(c, s.w, s'.w, th, th', x);
        case KeyDo => assert s'.w == s.w;
        case FinDo(x) => FinSettles(c, s.w, s'.w, th, th', x);
        case OwnDo(x) => OwnSettles(s.w, s'.w, th, th', x);
        case MaintDo(x) => MaintSettles(c, s.w, s'.w, th, th', x);
      }
    case Refer(a) => RefSettles(s.w, s'.w, a);
    case _ =>
  }

  lemma StaySettled(c: Config, w: World, w': World)
    requires FilesSettled(w) && ObjectsOk(c, w.used, w.objects, w.finals) && Settles(w, w')
    ensures FilesSettled(w')
  {}

  lemma {:induction false} RunsSettle(c: Config, run: seq<State>, steps: seq<Step>)
    requires c.chunk > 0 && IsRun(c, run, steps)
    ensures FilesSettled(run[|steps|].w) && Inv(c, run[|steps|])
  {
    RunsKeepInv(c, run, steps);
    if steps != [] {
      var n := |steps| - 1;
      RunsSettle(c, run[..|steps|], steps[..n]);
      assert Next(c, run[n], run[n + 1], steps[n]);
      NextSettles(c, run[n], run[n + 1], steps[n]);
      StaySettled(c, run[n].w, run[n + 1].w);
    }
  }

  // ---- An undisturbed finalizer finishes ---------------------------------------------------------------

  // Somebody is erasing the object of this content.
  ghost predicate BeingErased(w: World, sha: nat, size: nat) { exists row :: IsRow(w.objects, row, sha, size) && HasRow(w.objects, row, Deleting) }

  // Nothing with this content is stored: at most a reservation without its object.
  ghost predicate NotStored(w: World, sha: nat, size: nat) {
    forall row | IsRow(w.objects, row, sha, size) :: HasRow(w.objects, row, Pending) && row !in w.finals
  }

  // The rows the quota is compared with.
  function OtherRows(objects: map<Id, Object>, sha: nat, size: nat): map<Id, Object> {
    map id | id in objects && !IsRow(objects, id, sha, size) :: objects[id]
  }

  ghost predicate NoRoom(w: World, quota: Option<nat>, sha: nat, size: nat) {
    NotStored(w, sha, size) && Uploads.OverBudget(quota, size, StoredBytes(OtherRows(w.objects, sha, size)))
  }

  // The upload is completed with a READY object that holds exactly these bytes.
  ghost predicate Delivered(w: World, u: Id, file: Id, sha: nat, size: nat) {
    && u in w.sessions && w.sessions[u].status == Completed && w.sessions[u].file == Some(file)
    && HasRow(w.objects, file, Ready) && IsRow(w.objects, file, sha, size) && file in w.finals
  }

  // What a finalizer working alone on staged bytes returns.
  ghost predicate Finishes(c: Config, w: World, w': World, quota: Option<nat>, u: Id, bytes: Bytes, r: Uploads.Result) {
    var sha := c.hash(bytes);
    && (BeingErased(w, sha, |bytes|) ==> r == Uploads.Retryable)
    && (NoRoom(w, quota, sha, |bytes|) ==> r == Uploads.Quota)
    && (!BeingErased(w, sha, |bytes|) && !NoRoom(w, quota, sha, |bytes|) ==>
          r.Completed? && Delivered(w', u, r.file, sha, |bytes|)
          && |w'.finals[r.file].bytes| == |bytes| && c.hash(w'.finals[r.file].bytes) == sha)
  }

  lemma NewFinishes(c: Config, w: World, w': World, quota: Option<nat>, u: Id, id: Id, bytes: Bytes, r: Uploads.Result)
    requires u in w.sessions && Uploads.StoresNew(w, w', quota, u, id, c.hash(bytes), |bytes|, bytes, r)
    ensures if Uploads.OverBudget(quota, |bytes|, StoredBytes(w.objects)) then r == Uploads.Quota
            else r == Uploads.Result.Completed(id) && Delivered(w', u, id, c.hash(bytes), |bytes|) && w'.finals[id].bytes == bytes
  {}

  lemma NoRowRest(w: World, sha: nat, size: nat)
    requires NoRow(w.objects, sha, size)
    ensures OtherRows(w.objects, sha, size) == w.objects
  {
    forall id | id in w.objects ensures id in OtherRows(w.objects, sha, size) { assert !IsRow(w.objects, id, sha, size); }
  }

  lemma OneRowRest(w: World, row: Id, sha: nat, size: nat)
    requires IsRow(w.objects, row, sha, size) && forall i | IsRow(w.objects, i, sha, size) :: i == row
    ensures OtherRows(w.objects, sha, size) == w.objects - {row}
  {
    forall id | id in w.objects && id != row ensures id in OtherRows(w.objects, sha, size) { assert !IsRow(w.objects, id, sha, size); }
  }

  // A waiting reservation is referred to by nothing.
  lemma WaitingIsDroppable(c: Config, w: World, row: Id)
    requires c.chunk > 0 && WorldOk(c, w) && FilesSettled(w) && HasRow(w.objects, row, Pending)
    ensures Uploads.Droppable(Pipeline.DropTemp(w, row), row)
  {
    var v := Pipeline.DropTemp(w, row);
    forall a | a in v.attachments ensures v.attachments[a].file != row { assert Linked(c, w.objects, w.sealed, w.attachments[a].file, w.attachments[a].origin); }
    forall x | x in v.sessions ensures v.sessions[x].file != Some(row) { assert w.sessions[x].file == v.sessions[x].file; }
  }

  lemma WaitingFinishes(c: Config, w: World, w': World, quota: Option<nat>, u: Id, row: Id, id: Id, bytes: Bytes, r: Uploads.Result)
    requires c.chunk > 0 && WorldOk(c, w) && FilesSettled(w) && Uploads.Waiting(w, u)
    requires IsRow(w.objects, row, c.hash(bytes), |bytes|) && HasRow(w.objects, row, Pending)
    requires forall i | IsRow(w.objects, i, c.hash(bytes), |bytes|) :: i == row
    requires Uploads.TakesOver(c, w, w', quota, u, row, id, c.hash(bytes), |bytes|, bytes, r)
    ensures Finishes(c, w, w', quota, u, bytes, r)
  {
    var sha := c.hash(bytes);
    if row in w.finals {
      assert Good(c, w.finals[row], w.objects[row]);
    } else {
      WaitingIsDroppable(c, w, row);
      OneRowRest(w, row, sha, |bytes|);
      NewFinishes(c, Pipeline.WithoutObject(Pipeline.DropTemp(w, row), row), w', quota, u, id, bytes, r);
    }
  }

  lemma SharedFinishes(c: Config, w: World, w': World, quota: Option<nat>, u: Id, row: Id, id: Id, bytes: Bytes, r: Uploads.Result)
    requires c.chunk > 0 && WorldOk(c, w) && FilesSettled(w) && Uploads.Waiting(w, u)
    requires IsRow(w.objects, row, c.hash(bytes), |bytes|)
    requires forall i | IsRow(w.objects, i, c.hash(bytes), |bytes|) :: i == row
    requires Uploads.SharesTo(c, w, w', quota, u, row, id, c.hash(bytes), |bytes|, bytes, r)
    ensures Finishes(c, w, w', quota, u, bytes, r)
  {
    match w.objects[row].status
    case Pending => WaitingFinishes(c, w, w', quota, u, row, id, bytes, r);
    case Ready => assert HasRow(w.objects, row, Ready) && Good(c, w.finals[row], w.objects[row]);
    case Deleting => assert HasRow(w.objects, row, Deleting);
  }

  lemma FinalizerFinishes(c: Config, w: World, w': World, quota: Option<nat>, u: Id, id: Id, r: Uploads.Result)
    requires c.chunk > 0 && WorldOk(c, w) && FilesSettled(w) && Uploads.Waiting(w, u) && id !in w.used
    ensures u in w.staging && |w.staging[u].bytes| == w.sessions[u].size && Uploads.ReadyToFinalize(w, u, w.sessions[u].size, id)
    ensures Uploads.FinalizesTo(c, w, w', quota, u, id, w.sessions[u].size, r) ==> Finishes(c, w, w', quota, u, w.staging[u].bytes, r)
  {
    assert Kept(w.sessions, u);
    var bytes := w.staging[u].bytes;
    if Uploads.FinalizesTo(c, w, w', quota, u, id, |bytes|, r) {
      if row :| IsRow(w.objects, row, c.hash(bytes), |bytes|) {
        SharedFinishes(c, w, w', quota, u, row, id, bytes, r);
      } else {
        NoRowRest(w, c.hash(bytes), |bytes|);
        NewFinishes(c, w, w', quota, u, id, bytes, r);
      }
    }
  }

  // Syncing and sealing an acceptable upload are steps of the protocol.
  lemma SealedOk(c: Config, w: World, u: Id)
    requires c.chunk > 0 && WorldOk(c, w) && Uploads.Acceptable(c, w, u)
    ensures WorldOk(c, Uploads.Sealed(c, w, u))
  {
    var v := SetStage(w, u, SyncStage(w.staging[u]));
    var th, th1 := Finishing(u, 0, Locked), Finishing(u, 0, StageSynced);
    SealWorld(c, w, v, th, Some(th1), FinSync);
    SealSelf(c, w, v, th, Some(th1), FinSync);
    SealWorld(c, v, Uploads.Sealed(c, w, u), th1, Some(Finishing(u, w.sessions[u].size, StatStage)), FinSeal);
  }

  lemma SealedContent(c: Config, w: World, u: Id)
    requires c.chunk > 0 && WorldOk(c, w) && Uploads.Acceptable(c, w, u)
    ensures var v := Uploads.Sealed(c, w, u);
            WorldOk(c, v) && Uploads.Waiting(v, u) && u in v.staging
            && v.staging[u].bytes == Joined(w.written, u, PartCount(w.sessions[u].size, c.chunk))
  {
    SealedOk(c, w, u);
    var v := Uploads.Sealed(c, w, u);
    assert Kept(v.sessions, u) && StageHolds(v.staging[u], v.sealed[u]);
  }

  lemma SameRows(c: Config, v: World, w: World, w': World, quota: Option<nat>, u: Id, bytes: Bytes, r: Uploads.Result)
    requires v.objects == w.objects && v.finals == w.finals && Finishes(c, v, w', quota, u, bytes, r)
    ensures Finishes(c, w, w', quota, u, bytes, r)
  {}

  lemma AcceptableFinishes(c: Config, w: World, w': World, quota: Option<nat>, u: Id, id: Id, r: Uploads.Result)
    requires c.chunk > 0 && WorldOk(c, w) && FilesSettled(w) && id !in w.used && Uploads.Acceptable(c, w, u)
    ensures Uploads.Orderly(w, id)
    ensures Uploads.CompletesTo(c, w, w', quota, u, id, r) ==>
              Finishes(c, w, w', quota, u, Joined(w.written, u, PartCount(w.sessions[u].size, c.chunk)), r)
  {
    var v := Uploads.Sealed(c, w, u);
    SealedContent(c, w, u);
    FinalizerFinishes(c, v, w', quota, u, id, r);
    if Uploads.CompletesTo(c, w, w', quota, u, id, r) {
      SameRows(c, v, w, w', quota, u, v.staging[u].bytes, r);
    }
  }

  /** In every reachable state an upload that was accepted, before a crash or now, is finalized: with nothing failing and nobody
      interfering, Finalize completes it with an object of exactly its size and hash, unless that object is being erased or
      storing it would exceed the quota. A reservation left by a crash, its object renamed or not, does not stand in the way. */
  lemma AcceptedUploadsFinish(c: Config, run: seq<State>, steps: seq<Step>, u: Id, id: Id, w': World, quota: Option<nat>, r: Uploads.Result)
    requires c.chunk > 0 && IsRun(c, run, steps) && id !in run[|steps|].w.used && Uploads.Waiting(run[|steps|].w, u)
    ensures var w := run[|steps|].w; var size := w.sessions[u].size;
            && Uploads.ReadyToFinalize(w, u, size, id)
            && (Uploads.FinalizesTo(c, w, w', quota, u, id, size, r) ==> Finishes(c, w, w', quota, u, w.staging[u].bytes, r))
  {
    RunsSettle(c, run, steps);
    FinalizerFinishes(c, run[|steps|].w, w', quota, u, id, r);
  }

  /** Likewise Complete finishes every open, unexpired upload whose parts are all there, and its content is their concatenation. */
  lemma CompleteUploadsFinish(c: Config, run: seq<State>, steps: seq<Step>, u: Id, id: Id, w': World, quota: Option<nat>, r: Uploads.Result)
    requires c.chunk > 0 && IsRun(c, run, steps) && id !in run[|steps|].w.used && Uploads.Acceptable(c, run[|steps|].w, u)
    ensures Uploads.Orderly(run[|steps|].w, id)
    ensures var w := run[|steps|].w;
            Uploads.CompletesTo(c, w, w', quota, u, id, r) ==>
              Finishes(c, w, w', quota, u, Joined(w.written, u, PartCount(w.sessions[u].size, c.chunk)), r)
  {
    RunsSettle(c, run, steps);
    AcceptableFinishes(c, run[|steps|].w, w', quota, u, id, r);
  }
}
