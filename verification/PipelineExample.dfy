/** The protocol is not vacuous: an upload can go all the way to a served attachment. And the exception that
    PipelineCoverage describes occurs: a final object can lose its row. */
module PipelineExample {
  import opened Basics
  import opened Parts
  import opened Sums
  import opened Pipeline
  import opened PipelineInvariant

  ghost predicate Reachable(c: Config, s: State)
    requires c.chunk > 0
  { exists run, steps :: IsRun(c, run, steps) && run[|steps|] == s }

  lemma Step1(c: Config, s: State, s': State, step: Step)
    requires c.chunk > 0 && Reachable(c, s) && Next(c, s, s', step)
    ensures Reachable(c, s')
  {
    var run, steps :| IsRun(c, run, steps) && run[|steps|] == s;
    var run', steps' := run + [s'], steps + [step];
    forall i | 0 <= i < |steps'| ensures Next(c, run'[i], run'[i + 1], steps'[i]) {
      if i < |steps| { assert run'[i] == run[i] && run'[i + 1] == run[i + 1]; }
    }
    assert IsRun(c, run', steps') && run'[|steps'|] == s';
  }

  const Empty := World(0, {}, map[], map[], map[], map[], {}, map[], map[], map[], map[], map[], {})

  lemma StartReachable(c: Config)
    requires c.chunk > 0
    ensures Reachable(c, State(Empty, map[]))
  {
    var run, steps := [State(Empty, map[])], [];
    assert IsRun(c, run, steps) && run[|steps|] == State(Empty, map[]);
  }

  // A thread's step, and what it leaves.
  lemma ThreadGoes(c: Config, s: State, w': World, th': Option<Thread>, a: Act)
    requires c.chunk > 0 && Reachable(c, s) && 0 in s.threads && ThreadStep(c, s, w', s.threads[0], th', a)
    ensures Reachable(c, State(w', if th'.Some? then s.threads[0 := th'.value] else s.threads - {0}))
  {
    Step1(c, s, State(w', if th'.Some? then s.threads[0 := th'.value] else s.threads - {0}), Run(0, th', a));
  }

  const Fresh := Session(0, Created, 10, None, false, 0)

  // An empty upload 0, created and not yet completed.
  const CreatedWorld := Empty.(used := {0}, born := {0}, sessions := map[0 := Fresh], staging := map[0 := EmptyStage(0)])

  lemma CreatedReachable(c: Config)
    requires c.chunk > 0
    ensures Reachable(c, State(CreatedWorld, map[]))
  {
    StartReachable(c);
    var w1 := Empty.(used := {0});
    var th := Creating(0, 0, 10, false);
    assert ActiveSizes(map[]) == map[];
    Step1(c, State(Empty, map[]), State(w1, map[0 := th]), Begin(0, th, CreateBegin(0, 0, 10)));
    var w2 := SetStage(w1, 0, EmptyStage(0));
    ThreadGoes(c, State(w1, map[0 := th]), w2, Some(th.(made := true)), CreateDo(CreateFile));
    assert map[0 := th][0 := th.(made := true)] == map[0 := th.(made := true)];
    var w3 := SetSession(w2, 0, Fresh).(born := w2.born + {0});
    ThreadGoes(c, State(w2, map[0 := th.(made := true)]), w3, None, CreateDo(CreateInsert));
    assert w3 == CreatedWorld && map[0 := th.(made := true)] - {0} == map[];
  }

  // Upload 0 held by a finalizer.
  function Held(w: World, pc: FinPc): State { State(w, map[0 := Finishing(0, 0, pc)]) }

  lemma Goes(c: Config, w: World, w': World, pc: FinPc, pc': FinPc, a: Act)
    requires c.chunk > 0 && Reachable(c, Held(w, pc))
    requires ThreadStep(c, Held(w, pc), w', Finishing(0, 0, pc), Some(Finishing(0, 0, pc')), a)
    ensures Reachable(c, Held(w', pc'))
  {
    ThreadGoes(c, Held(w, pc), w', Some(Finishing(0, 0, pc')), a);
    assert Held(w, pc).threads[0 := Finishing(0, 0, pc')] == Held(w', pc').threads;
  }

  lemma GoesFin(c: Config, w: World, w': World, pc: FinPc, pc': FinPc, a: FinAct)
    requires c.chunk > 0 && Reachable(c, Held(w, pc)) && FinStep(c, w, w', Finishing(0, 0, pc), Some(Finishing(0, 0, pc')), a)
    ensures Reachable(c, Held(w', pc'))
  { Goes(c, w, w', pc, pc', FinDo(a)); }

  lemma GoesOwn(c: Config, w: World, w': World, sha: nat, own: OwnPc, pc': FinPc, a: OwnAct)
    requires c.chunk > 0 && Reachable(c, Held(w, Owner(sha, 1, own)))
    requires OwnStep(w, w', Finishing(0, 0, Owner(sha, 1, own)), Some(Finishing(0, 0, pc')), a)
    ensures Reachable(c, Held(w', pc'))
  { Goes(c, w, w', Owner(sha, 1, own), pc', OwnDo(a)); }

  lemma GoesSeal(c: Config, w: World, w': World, pc: FinPc, pc': FinPc, a: SealAct)
    requires c.chunk > 0 && Reachable(c, Held(w, pc)) && SealStep(c, w, w', Finishing(0, 0, pc), Some(Finishing(0, 0, pc')), a)
    ensures Reachable(c, Held(w', pc'))
  { Goes(c, w, w', pc, pc', SealDo(a)); }

  const SealedWorld := CreatedWorld.(sessions := map[0 := Fresh.(status := Completing)], sealed := map[0 := []])

  lemma SealedReachable(c: Config)
    requires c.chunk > 0
    ensures Reachable(c, Held(SealedWorld, StatStage))
  {
    CreatedReachable(c);
    var w := CreatedWorld;
    Step1(c, State(w, map[]), Held(w, Locked), Begin(0, Finishing(0, 0, Locked), FinLock(0)));
    assert SyncStage(EmptyStage(0)) == EmptyStage(0) == StageFile([], []);
    assert SetStage(w, 0, SyncStage(w.staging[0])) == w;
    GoesSeal(c, w, w, Locked, StageSynced, FinSync);
    assert SealedWorld == SetSession(w, 0, Fresh.(status := Completing)).(sealed := w.sealed[0 := Joined(w.written, 0, 0)]);
    GoesSeal(c, w, SealedWorld, StageSynced, StatStage, FinSeal);
  }

  // Accepted, hashed, and alone with its content.
  lemma KeyedReachable(c: Config)
    requires c.chunk > 0
    ensures Reachable(c, Held(SealedWorld, Keyed(c.hash([]))))
  {
    SealedReachable(c);
    assert EmptyStage(0) == StageFile([], []);
    GoesSeal(c, SealedWorld, SealedWorld, StatStage, Hashing([]), FinStat);
    GoesSeal(c, SealedWorld, SealedWorld, Hashing([]), Hashed(c.hash([])), FinHash);
    Goes(c, SealedWorld, SealedWorld, Hashed(c.hash([])), Keyed(c.hash([])), KeyDo);
  }

  function ReservedWorld(sha: nat): World { SealedWorld.(used := {0, 1}, objects := map[1 := Object(sha, 0, Pending, 0)]) }

  function TempWorld(sha: nat, synced: bool): World { ReservedWorld(sha).(temps := map[1 := Blob([], synced)]) }

  function RenamedWorld(sha: nat): World { ReservedWorld(sha).(finals := map[1 := Blob([], true)]) }

  lemma ReservedReachable(c: Config)
    requires c.chunk > 0
    ensures Reachable(c, Held(ReservedWorld(c.hash([])), Owner(c.hash([]), 1, Reserved)))
  {
    KeyedReachable(c);
    var sha := c.hash([]); var w := SealedWorld;
    GoesFin(c, w, w, Keyed(sha), Reserving(sha, false), FinFindNone);
    assert ReservedWorld(sha) == w.(used := w.used + {1}, objects := w.objects[1 := Object(sha, 0, Pending, 0)]);
    GoesFin(c, w, ReservedWorld(sha), Reserving(sha, false), Owner(sha, 1, Reserved), FinReserve(1, None));
  }

  // The commit temp is written and synced.
  lemma FlushedReachable(c: Config)
    requires c.chunk > 0
    ensures Reachable(c, Held(TempWorld(c.hash([]), true), Owner(c.hash([]), 1, Flushed)))
  {
    ReservedReachable(c);
    var sha := c.hash([]);
    assert TempWorld(sha, false) == ReservedWorld(sha).(temps := ReservedWorld(sha).temps[1 := Blob([], false)]);
    GoesOwn(c, ReservedWorld(sha), TempWorld(sha, false), sha, Reserved, Owner(sha, 1, Copying(0)), OwnTemp);
    assert EmptyStage(0) == StageFile([], []);
    assert TempWorld(sha, true) == TempWorld(sha, false).(temps := TempWorld(sha, false).temps[1 := Blob([], true)]);
    GoesOwn(c, TempWorld(sha, false), TempWorld(sha, true), sha, Copying(0), Owner(sha, 1, Flushed), OwnFlush);
  }

  lemma StattedReachable(c: Config)
    requires c.chunk > 0
    ensures Reachable(c, Held(RenamedWorld(c.hash([])), Owner(c.hash([]), 1, Statted)))
  {
    FlushedReachable(c);
    var sha := c.hash([]); var w := TempWorld(sha, true);
    assert RenamedWorld(sha) == DropTemp(w, 1).(finals := w.finals[1 := w.temps[1]]);
    GoesOwn(c, w, RenamedWorld(sha), sha, Flushed, Owner(sha, 1, Renamed), OwnRename(true));
    GoesOwn(c, RenamedWorld(sha), RenamedWorld(sha), sha, Renamed, Owner(sha, 1, Statted), OwnStat);
  }

  function StoredWorld(sha: nat): World {
    RenamedWorld(sha).(staging := map[], objects := map[1 := Object(sha, 0, Ready, 0)],
                       sessions := map[0 := Session(0, Completed, 10, Some(1), false, 0)])
  }

  lemma StoredReachable(c: Config)
    requires c.chunk > 0
    ensures Reachable(c, State(StoredWorld(c.hash([])), map[]))
  {
    StattedReachable(c);
    var sha := c.hash([]); var w := RenamedWorld(sha);
    var done := StoredWorld(sha).(staging := w.staging);
    assert done == Finished(Promoted(w, 1), 0, 1);
    GoesOwn(c, w, done, sha, Statted, DropStage, OwnReady);
    assert StoredWorld(sha) == DropStageFile(done, 0);
    ThreadGoes(c, Held(done, DropStage), StoredWorld(sha), None, SealDo(FinDropStage));
    assert Held(done, DropStage).threads - {0} == map[];
  }

  // Upload 0 is bound as attachment 2.
  function Bound(w: World): World
    requires 0 in w.sessions && w.sessions[0].file.Some?
  {
    w.(used := w.used + {2}, sessions := w.sessions[0 := w.sessions[0].(consumed := true)],
       attachments := w.attachments[2 := Attachment(w.sessions[0].file.value, 0)])
  }

  /** An upload can be created, completed, stored and bound to a message. */
  lemma ServedReachable(c: Config)
    requires c.chunk > 0
    ensures Reachable(c, State(Bound(StoredWorld(c.hash([]))), map[]))
    ensures 2 in Bound(StoredWorld(c.hash([]))).attachments
  {
    StoredReachable(c);
    BindsUpload(StoredWorld(c.hash([])));
    Step1(c, State(StoredWorld(c.hash([])), map[]), State(Bound(StoredWorld(c.hash([]))), map[]), Refer(Bind(map[2 := 0])));
  }

  lemma BindsUpload(w: World)
    requires 0 in w.sessions && Bindable(w, 0) && 2 !in w.used
    ensures RefStep(w, Bound(w), Bind(map[2 := 0]))
  {
    var links: map<Id, Id> := map[2 := 0];
    assert links.Keys == {2} && links.Values == {0};
    assert Bound(w).attachments == w.attachments + map a | a in links :: Attachment(w.sessions[links[a]].file.value, links[a]);
    assert Bound(w).sessions == Consumed(w.sessions, links.Values);
  }

  /** A final object may lose its row: a reconciler that found no final object removes the reservation after the finalizer's
      rename. PipelineCoverage.CoveredExactly says which steps can do that. */
  lemma FinalWithoutRowReachable(c: Config)
    requires c.chunk > 0
    ensures exists s: State :: Reachable(c, s) && 1 in s.w.finals && 1 !in s.w.objects
  {
    FlushedReachable(c);
    var sha := c.hash([]); var w := TempWorld(sha, true); var row := w.objects[1];
    var own := Finishing(0, 0, Owner(sha, 1, Flushed));
    var s1 := State(w, map[0 := own, 1 := Resolving(1, row, ResStart)]);
    assert Held(w, Owner(sha, 1, Flushed)).threads[1 := Resolving(1, row, ResStart)] == s1.threads;
    Step1(c, Held(w, Owner(sha, 1, Flushed)), s1, Begin(1, Resolving(1, row, ResStart), ResolveBegin(1)));
    LosesRow(c, w, own, row, s1);
  }

  lemma LosesRow(c: Config, w: World, own: Thread, row: Object, s1: State)
    requires c.chunk > 0 && w == TempWorld(c.hash([]), true) && own == Finishing(0, 0, Owner(c.hash([]), 1, Flushed)) && row == w.objects[1]
    requires s1 == State(w, map[0 := own, 1 := Resolving(1, row, ResStart)]) && Reachable(c, s1)
    ensures exists s: State :: Reachable(c, s) && 1 in s.w.finals && 1 !in s.w.objects
  {
    var t2 := Resolving(1, row, ResMissing);
    var s2 := State(w, s1.threads[1 := t2]);
    Step1(c, s1, s2, Run(1, Some(t2), MaintDo(ResolveMissing)));
    var t3 := Resolving(1, row, ResAbsent);
    var s3 := State(w, s2.threads[1 := t3]);
    Step1(c, s2, s3, Run(1, Some(t3), MaintDo(ResolveDropTemp(false))));
    LosesRow2(c, w, own, row, s3);
  }

  lemma LosesRow2(c: Config, w: World, own: Thread, row: Object, s3: State)
    requires c.chunk > 0 && w == TempWorld(c.hash([]), true) && own == Finishing(0, 0, Owner(c.hash([]), 1, Flushed)) && row == w.objects[1]
    requires 0 in s3.threads && 1 in s3.threads && s3.threads[0] == own && s3.threads[1] == Resolving(1, row, ResAbsent)
    requires s3.w == w && Reachable(c, s3)
    ensures exists s: State :: Reachable(c, s) && 1 in s.w.finals && 1 !in s.w.objects
  {
    var renamed := own.(pc := own.pc.(own := Renamed));
    var s4 := State(DropTemp(w, 1).(finals := w.finals[1 := w.temps[1]]), s3.threads[0 := renamed]);
    Step1(c, s3, s4, Run(0, Some(renamed), OwnDo(OwnRename(true))));
    Unreserved(c, s4, row);
  }

  lemma Unreserved(c: Config, s: State, row: Object)
    requires c.chunk > 0 && Reachable(c, s) && 1 in s.threads && s.threads[1] == Resolving(1, row, ResAbsent)
    requires HasRow(s.w.objects, 1, Pending) && !Referenced(s.w, 1) && 1 in s.w.finals
    ensures exists s': State :: Reachable(c, s') && 1 in s'.w.finals && 1 !in s'.w.objects
  {
    var s' := State(WithoutObject(s.w, 1), s.threads - {1});
    assert MaintStep(c, s.w, s'.w, s.threads[1], None, ResolveDropRow);
    Step1(c, s, s', Run(1, None, MaintDo(ResolveDropRow)));
    assert Reachable(c, s') && 1 in s'.w.finals && 1 !in s'.w.objects;
  }
}
