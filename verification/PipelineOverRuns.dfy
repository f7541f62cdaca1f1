/** The promises of single steps, carried along whole runs: the lease, the quota, and what a held lock protects. */
module PipelineOverRuns {
  import opened Basics
  import opened Parts
  import opened Sums
  import opened Pipeline
  import opened PipelineInvariant
  import opened PipelineRuns
  import opened PipelineTheorems

  // ---- What only grows -----------------------------------------------------------------------------

  // Only a reservation adds a row.
  ghost predicate NoNewRows(x: map<Id, Object>, y: map<Id, Object>) {
    forall id | id in y :: id in x && y[id].size == x[id].size
  }

  ghost predicate Onward(w: World, w': World, reserving: bool) {
    w.clock <= w'.clock && w.born <= w'.born && (!reserving ==> NoNewRows(w.objects, w'.objects))
  }

  lemma CreateOnward(w: World, w': World, th: Thread, th': Option<Thread>, a: CreateAct)
    requires CreateStep(w, w', th, th', a)
    ensures Onward(w, w', false)
  {}

  lemma PutOnward(c: Config, w: World, w': World, th: Thread, th': Option<Thread>, a: PutAct)
    requires c.chunk > 0 && PutStep(c, w, w', th, th', a)
    ensures Onward(w, w', false)
  {}

  lemma SealOnward(c: Config, w: World, w': World, th: Thread, th': Option<Thread>, a: SealAct)
    requires c.chunk > 0 && SealStep(c, w, w', th, th', a)
    ensures Onward(w, w', false)
  {}

  lemma FinOnward(c: Config, w: World, w': World, th: Thread, th': Option<Thread>, a: FinAct)
    requires FinStep(c, w, w', th, th', a)
    ensures Onward(w, w', a.FinReserve?)
  {}

  lemma OwnOnward(w: World, w': World, th: Thread, th': Option<Thread>, a: OwnAct)
    requires OwnStep(w, w', th, th', a)
    ensures Onward(w, w', false)
  {}

  lemma MaintOnward(c: Config, w: World, w': World, th: Thread, th': Option<Thread>, a: MaintAct)
    requires MaintStep(c, w, w', th, th', a)
    ensures Onward(w, w', false)
  {}

  lemma RefOnward(w: World, w': World, a: RefAct)
    requires RefStep(w, w', a)
    ensures Onward(w, w', false)
  {}

  predicate Reserving(a: Act) { a.FinDo? && a.fin.FinReserve? }

  lemma ThreadOnward(c: Config, s: State, w': World, th: Thread, th': Option<Thread>, a: Act)
    requires c.chunk > 0 && ThreadStep(c, s, w', th, th', a)
    ensures Onward(s.w, w', Reserving(a))
  {
    match a
    case CreateDo(x) => CreateOnward(s.w, w', th, th', x);
    case PutDo(x) => PutOnward(c, s.w, w', th, th', x);
    case SealDo(x) => SealOnward(c, s.w, w', th, th', x);
    case KeyDo => assert w' == s.w;
    case FinDo(x) => FinOnward(c, s.w, w', th, th', x);
    case OwnDo(x) => OwnOnward(s.w, w', th, th', x);
    case MaintDo(x) => MaintOnward(c, s.w, w', th, th', x);
  }

  predicate Reserves(step: Step) { step.Run? && Reserving(step.act) }

  lemma NextOnward(c: Config, s: State, s': State, step: Step)
    requires c.chunk > 0 && Next(c, s, s', step)
    ensures Onward(s.w, s'.w, Reserves(step))
  {
    if step.Run? { ThreadOnward(c, s, s'.w, s.threads[step.t], step.th', step.act); }
    else if step.Refer? { RefOnward(s.w, s'.w, step.ref); }
  }

  // ---- The lease -----------------------------------------------------------------------------------

  // The upload is bound to a message, or deleted with its user.
  predicate Takes(step: Step, u: Id) {
    step.Refer? && ((step.ref.Bind? && u in step.ref.links.Values) || (step.ref.DropUploads? && u in step.ref.gone))
  }

  lemma LeaseNext(c: Config, s: State, s': State, step: Step, u: Id)
    requires Inv(c, s) && Next(c, s, s', step) && u in s.w.sessions && Awaiting(s.w.sessions[u]) && !Takes(step, u)
    requires s.w.clock < s.w.sessions[u].completedAt + LEASE
    ensures u in s'.w.sessions && s'.w.sessions[u] == s.w.sessions[u]
  {
    if step.Refer? {
      LeaseHolds(c, s.w, s'.w, step.ref, u);
    } else {
      AwaitingUploadStays(c, s, s', step, u);
    }
  }

  /** From its completion until 24 hours later, or until a message takes it or its user is deleted, a completed upload stays
      what it is and its object stays READY and stored, whatever anybody does and however often the server crashes. */
  lemma LeaseOverRun(c: Config, run: seq<State>, steps: seq<Step>, n: nat, m: nat, u: Id)
    requires c.chunk > 0 && IsRun(c, run, steps) && n <= m <= |steps| && u in run[n].w.sessions && Awaiting(run[n].w.sessions[u])
    requires run[m].w.clock < run[n].w.sessions[u].completedAt + LEASE
    requires forall k | n <= k < m :: !Takes(steps[k], u)
    ensures StillThere(run[m].w, u, run[n].w.sessions[u])
  {
    var x := run[n].w.sessions[u];
    forall i | n <= i < m ensures Carries(run[i], run[i + 1], u, x) { LeaseStep(c, run, steps, i, u, x); }
    LeaseKept(run, n, m, u, x);
    PrefixInv(c, run, steps, m);
    AwaitingStored(c, run[m], u);
  }

  // The session is what it was, and its object is READY and stored.
  predicate StillThere(w: World, u: Id, x: Session) {
    u in w.sessions && w.sessions[u] == x && x.status == Completed && x.file.Some? && HasRow(w.objects, x.file.value, Ready) && x.file.value in w.finals
  }

  ghost predicate HasSession(s: State, u: Id, x: Session) { u in s.w.sessions && s.w.sessions[u] == x }

  // Time does not go back, and a session inside its lease is carried over.
  ghost predicate Carries(s: State, s': State, u: Id, x: Session) {
    s.w.clock <= s'.w.clock && (HasSession(s, u, x) && s.w.clock < x.completedAt + LEASE ==> HasSession(s', u, x))
  }

  lemma {:induction false} LeaseKept(run: seq<State>, n: nat, m: nat, u: Id, x: Session)
    requires n <= m < |run| && HasSession(run[n], u, x) && run[m].w.clock < x.completedAt + LEASE
    requires forall i | n <= i < m :: Carries(run[i], run[i + 1], u, x)
    ensures HasSession(run[m], u, x)
    decreases m
  {
    if n < m {
      assert Carries(run[m - 1], run[m - 1 + 1], u, x);
      LeaseKept(run, n, m - 1, u, x);
    }
  }

  lemma LeaseStep(c: Config, run: seq<State>, steps: seq<Step>, i: nat, u: Id, x: Session)
    requires c.chunk > 0 && IsRun(c, run, steps) && i < |steps| && Awaiting(x) && !Takes(steps[i], u)
    ensures Carries(run[i], run[i + 1], u, x)
  {
    PrefixInv(c, run, steps, i);
    assert Next(c, run[i], run[i + 1], steps[i]);
    NextOnward(c, run[i], run[i + 1], steps[i]);
    if HasSession(run[i], u, x) && run[i].w.clock < x.completedAt + LEASE { LeaseNext(c, run[i], run[i + 1], steps[i], u); }
  }

  lemma AwaitingStored(c: Config, s: State, u: Id)
    requires Inv(c, s) && u in s.w.sessions && Awaiting(s.w.sessions[u])
    ensures var x := s.w.sessions[u]; x.file.Some? && HasRow(s.w.objects, x.file.value, Ready) && x.file.value in s.w.finals
  {}

  lemma PrefixInv(c: Config, run: seq<State>, steps: seq<Step>, n: nat)
    requires c.chunk > 0 && IsRun(c, run, steps) && n <= |steps|
    ensures Inv(c, run[n])
  {
    var r, p := run[..n + 1], steps[..n];
    forall i | 0 <= i < |p| ensures Next(c, r[i], r[i + 1], p[i]) {
      assert Next(c, run[i], run[i + 1], steps[i]);
    }
    RunsKeepInv(c, r, p);
  }

  // The step completes upload u.
  ghost predicate Completes(s: State, s': State, u: Id) {
    u in s'.w.sessions && Awaiting(s'.w.sessions[u]) && !CompletedBefore(s.w, u)
  }

  // What was completed was completed now.
  ghost predicate CompletesNow(w: World, w': World) {
    forall u | u in w'.sessions && w'.sessions[u].status == Completed :: CompletedBefore(w, u) || w'.sessions[u].completedAt == w.clock
  }

  predicate CompletedBefore(w: World, u: Id) { u in w.sessions && w.sessions[u].status == Completed }

  lemma CreateNow(w: World, w': World, th: Thread, th': Option<Thread>, a: CreateAct)
    requires CreateStep(w, w', th, th', a)
    ensures CompletesNow(w, w')
  {}

  lemma PutNow(c: Config, w: World, w': World, th: Thread, th': Option<Thread>, a: PutAct)
    requires c.chunk > 0 && PutStep(c, w, w', th, th', a)
    ensures CompletesNow(w, w')
  {}

  lemma SealNow(c: Config, w: World, w': World, th: Thread, th': Option<Thread>, a: SealAct)
    requires c.chunk > 0 && SealStep(c, w, w', th, th', a)
    ensures CompletesNow(w, w')
  {}

  lemma FinNow(c: Config, w: World, w': World, th: Thread, th': Option<Thread>, a: FinAct)
    requires FinStep(c, w, w', th, th', a)
    ensures CompletesNow(w, w')
  {}

  lemma OwnNow(w: World, w': World, th: Thread, th': Option<Thread>, a: OwnAct)
    requires OwnStep(w, w', th, th', a)
    ensures CompletesNow(w, w')
  {}

  lemma MaintNow(c: Config, w: World, w': World, th: Thread, th': Option<Thread>, a: MaintAct)
    requires MaintStep(c, w, w', th, th', a)
    ensures CompletesNow(w, w')
  {}

  lemma RefNow(w: World, w': World, a: RefAct)
    requires RefStep(w, w', a)
    ensures CompletesNow(w, w')
  {}

  lemma NextCompletesNow(c: Config, s: State, s': State, step: Step)
    requires c.chunk > 0 && Next(c, s, s', step)
    ensures CompletesNow(s.w, s'.w)
  {
    match step
    case Run(t, th', act) =>
      var th := s.threads[t];
      match act {
        case CreateDo(x) => CreateNow(s.w, s'.w, th, th', x);
        case PutDo(x) => PutNow(c, s.w, s'.w, th, th', x);
        case SealDo(x) => SealNow(c, s.w, s'.w, th, th', x);
        case KeyDo => assert s'.w == s.w;
        case FinDo(x) => FinNow(c, s.w, s'.w, th, th', x);
        case OwnDo(x) => OwnNow(s.w, s'.w, th, th', x);
        case MaintDo(x) => MaintNow(c, s.w, s'.w, th, th', x);
      }
    case Refer(a) => RefNow(s.w, s'.w, a);
    case _ =>
  }

  lemma CompletionStep(c: Config, run: seq<State>, steps: seq<Step>, n: nat, u: Id)
    requires c.chunk > 0 && IsRun(c, run, steps) && n < |steps| && Completes(run[n], run[n + 1], u)
    ensures u in run[n + 1].w.sessions && Awaiting(run[n + 1].w.sessions[u]) && run[n + 1].w.sessions[u].completedAt == run[n].w.clock
  {
    assert Next(c, run[n], run[n + 1], steps[n]);
    NextCompletesNow(c, run[n], run[n + 1], steps[n]);
  }

  /** Counted from the step that completed the upload: for 24 hours, until a message takes it or its user is deleted, it stays
      COMPLETED, with the same READY, stored object. */
  lemma LeaseFromCompletion(c: Config, run: seq<State>, steps: seq<Step>, n: nat, m: nat, u: Id)
    requires c.chunk > 0 && IsRun(c, run, steps) && n < m <= |steps| && Completes(run[n], run[n + 1], u)
    requires run[m].w.clock < run[n].w.clock + 86400 && forall k | n < k < m :: !Takes(steps[k], u)
    ensures StillThere(run[m].w, u, run[n + 1].w.sessions[u])
  {
    CompletionStep(c, run, steps, n, u);
    LeaseOverRun(c, run, steps, n + 1, m, u);
  }

  /** What collection may mark: a READY object that has been READY for 24 hours, that no attachment refers to, that no upload
      completed within the last 24 hours waits with, and that no thumbnail job works on. */
  lemma CollectableMeaning(w: World, id: Id, now: int)
    ensures Collectable(w, id, now) <==>
              && id in w.objects && w.objects[id].status == Ready && w.objects[id].readyAt + 86400 <= now && id !in w.busy
              && (forall a | a in w.attachments :: w.attachments[a].file != id)
              && (forall u | u in w.sessions && w.sessions[u].file == Some(id) && w.sessions[u].status == Completed && !w.sessions[u].consumed ::
                    w.sessions[u].completedAt + 86400 <= now)
  {}

  // ---- The quota -----------------------------------------------------------------------------------

  lemma StoredShrinks(x: map<Id, Object>, y: map<Id, Object>)
    requires NoNewRows(x, y)
    ensures StoredBytes(y) <= StoredBytes(x)
  {
    TotalMono(ObjectSizes(y), ObjectSizes(x));
  }

  // Every reservation of the run was made under a quota of at most q.
  predicate QuotaInForce(steps: seq<Step>, q: nat) {
    forall k | 0 <= k < |steps| && Reserves(steps[k]) :: steps[k].act.fin.quota.Some? && steps[k].act.fin.quota.value <= q
  }

  /** The stored total never exceeds the quota, in any run. */
  lemma {:induction false} QuotaOverRun(c: Config, run: seq<State>, steps: seq<Step>, q: nat)
    requires c.chunk > 0 && IsRun(c, run, steps) && QuotaInForce(steps, q)
    ensures StoredBytes(run[|steps|].w.objects) <= q
  {
    if steps == [] {
      assert ObjectSizes(run[0].w.objects) == map[];
    } else {
      var n := |steps| - 1;
      QuotaOverRun(c, run[..|steps|], steps[..n], q);
      RunsKeepInv(c, run[..|steps|], steps[..n]);
      assert Next(c, run[n], run[n + 1], steps[n]);
      QuotaNext(c, run[n], run[n + 1], steps[n], q);
    }
  }

  lemma QuotaNext(c: Config, s: State, s': State, step: Step, q: nat)
    requires c.chunk > 0 && ObjectsOk(c, s.w.used, s.w.objects, s.w.finals) && Next(c, s, s', step) && StoredBytes(s.w.objects) <= q
    requires Reserves(step) ==> step.act.fin.quota.Some? && step.act.fin.quota.value <= q
    ensures StoredBytes(s'.w.objects) <= q
  {
    if Reserves(step) {
      QuotaHolds(c, s.w, s'.w, s.threads[step.t], step.th', step.act.fin.id, step.act.fin.quota.value);
    } else {
      NextOnward(c, s, s', step);
      StoredShrinks(s.w.objects, s'.w.objects);
    }
  }

  // ---- What a held lock protects, over any number of steps of others --------------------------------

  // Steps of anyone but thread t, without a crash.
  ghost predicate OthersRun(c: Config, run: seq<State>, steps: seq<Step>, t: nat)
    requires c.chunk > 0
  {
    && |run| == |steps| + 1
    && forall i | 0 <= i < |steps| :: Next(c, run[i], run[i + 1], steps[i]) && !steps[i].CrashStep? && !(steps[i].Run? && steps[i].t == t)
  }

  lemma {:induction false} OthersLeaveThread(c: Config, run: seq<State>, steps: seq<Step>, t: nat)
    requires c.chunk > 0 && OthersRun(c, run, steps, t) && Inv(c, run[0]) && t in run[0].threads
    ensures Inv(c, run[|steps|]) && t in run[|steps|].threads && run[|steps|].threads[t] == run[0].threads[t]
    ensures run[0].w.born <= run[|steps|].w.born
  {
    if steps != [] {
      var n := |steps| - 1;
      OthersLeaveThread(c, run[..|steps|], steps[..n], t);
      assert Next(c, run[n], run[n + 1], steps[n]);
      NextInv(c, run[n], run[n + 1], steps[n]);
      NextOnward(c, run[n], run[n + 1], steps[n]);
    }
  }

  /** Between two steps of a finalizer, any number of steps of others leave its staging file exactly as it was. */
  lemma {:induction false} StagingFrozenAlong(c: Config, run: seq<State>, steps: seq<Step>, t: nat)
    requires c.chunk > 0 && OthersRun(c, run, steps, t) && Inv(c, run[0])
    requires t in run[0].threads && run[0].threads[t].Finishing? && run[0].threads[t].u in run[0].w.born
    ensures SameStage(run[0].w, run[|steps|].w, run[0].threads[t].u)
  {
    if steps != [] {
      var n := |steps| - 1;
      StagingFrozenAlong(c, run[..|steps|], steps[..n], t);
      OthersLeaveThread(c, run[..|steps|], steps[..n], t);
      assert Next(c, run[n], run[n + 1], steps[n]);
      ExclusiveFreezesStaging(c, run[n], run[n + 1], steps[n], t);
    }
  }

  /** Between two steps of a part write, any number of steps of others keep the staging file and its length. */
  lemma {:induction false} LengthKeptAlong(c: Config, run: seq<State>, steps: seq<Step>, t: nat)
    requires c.chunk > 0 && OthersRun(c, run, steps, t) && Inv(c, run[0])
    requires t in run[0].threads && run[0].threads[t].Putting? && !run[0].threads[t].put.PutLocked?
    ensures var u := run[0].threads[t].u; var w := run[0].w; var w' := run[|steps|].w;
            u in w.staging && u in w'.staging && |w'.staging[u].bytes| == |w.staging[u].bytes| == |w'.staging[u].clean|
  {
    if steps == [] {
      assert ThreadOk(c, run[0].w, run[0].threads[t]);
    } else {
      var n := |steps| - 1;
      LengthKeptAlong(c, run[..|steps|], steps[..n], t);
      LengthKeptStep(c, run, steps, t);
    }
  }

  lemma LengthKeptStep(c: Config, run: seq<State>, steps: seq<Step>, t: nat)
    requires c.chunk > 0 && OthersRun(c, run, steps, t) && Inv(c, run[0]) && steps != []
    requires t in run[0].threads && run[0].threads[t].Putting? && !run[0].threads[t].put.PutLocked?
    ensures var u := run[0].threads[t].u; var w := run[|steps| - 1].w; var w' := run[|steps|].w;
            u in w.staging && u in w'.staging && |w'.staging[u].bytes| == |w.staging[u].bytes| == |w'.staging[u].clean|
  {
    var n := |steps| - 1;
    OthersLeaveThread(c, run[..|steps|], steps[..n], t);
    assert Next(c, run[n], run[n + 1], steps[n]);
    ChunkLockKeepsLength(c, run[n], run[n + 1], steps[n], t);
  }
}
