/** Uploads and objects between completion and collection: an upload is taken by one message only, an object is left alone
    for a day, and collection removes and marks exactly what has lapsed. */
module PipelineReferences {
  import opened Basics
  import opened Pipeline
  import opened PipelineInvariant
  import opened PipelineRuns
  import opened PipelineOverRuns

  // ---- An upload is taken once -----------------------------------------------------------------------

  predicate IsTaken(w: World, u: Id) { u in w.born && (u in w.sessions ==> w.sessions[u].consumed) }

  ghost predicate StaysTaken(w: World, w': World) { forall u | IsTaken(w, u) :: IsTaken(w', u) }

  lemma CreateTaken(c: Config, w: World, w': World, th: Thread, th': Option<Thread>, a: CreateAct)
    requires c.chunk > 0 && ThreadOk(c, w, th) && CreateStep(w, w', th, th', a)
    ensures StaysTaken(w, w')
  {}

  lemma PutTaken(c: Config, w: World, w': World, th: Thread, th': Option<Thread>, a: PutAct)
    requires c.chunk > 0 && PutStep(c, w, w', th, th', a)
    ensures StaysTaken(w, w')
  {}

  lemma SealTaken(c: Config, w: World, w': World, th: Thread, th': Option<Thread>, a: SealAct)
    requires c.chunk > 0 && SealStep(c, w, w', th, th', a)
    ensures StaysTaken(w, w')
  {}

  lemma FinTaken(c: Config, w: World, w': World, th: Thread, th': Option<Thread>, a: FinAct)
    requires FinStep(c, w, w', th, th', a)
    ensures StaysTaken(w, w')
  {}

  lemma OwnTaken(w: World, w': World, th: Thread, th': Option<Thread>, a: OwnAct)
    requires OwnStep(w, w', th, th', a)
    ensures StaysTaken(w, w')
  {}

  lemma MaintTaken(c: Config, w: World, w': World, th: Thread, th': Option<Thread>, a: MaintAct)
    requires MaintStep(c, w, w', th, th', a)
    ensures StaysTaken(w, w')
  {}

  lemma RefTaken(w: World, w': World, a: RefAct)
    requires RefStep(w, w', a)
    ensures StaysTaken(w, w')
  {}

  lemma NextTaken(c: Config, s: State, s': State, step: Step)
    requires Inv(c, s) && Next(c, s, s', step)
    ensures StaysTaken(s.w, s'.w)
  {
    match step
    case Run(t, th', act) =>
      var th := s.threads[t];
      match act {
        case CreateDo(x) => assert ThreadOk(c, s.w, th); CreateTaken(c, s.w, s'.w, th, th', x);
        case PutDo(x) => PutTaken(c, s.w, s'.w, th, th', x);
        case SealDo(x) => SealTaken(c, s.w, s'.w, th, th', x);
        case KeyDo => assert s'.w == s.w;
        case FinDo(x) => FinTaken(c, s.w, s'.w, th, th', x);
        case OwnDo(x) => OwnTaken(s.w, s'.w, th, th', x);
        case MaintDo(x) => MaintTaken(c, s.w, s'.w, th, th', x);
      }
    case Refer(a) => RefTaken(s.w, s'.w, a);
    case _ =>
  }

  lemma {:induction false} TakenAlong(c: Config, run: seq<State>, steps: seq<Step>, n: nat, m: nat, u: Id)
    requires c.chunk > 0 && IsRun(c, run, steps) && n <= m <= |steps| && IsTaken(run[n].w, u)
    ensures IsTaken(run[m].w, u)
    decreases m
  {
    if n < m {
      TakenAlong(c, run, steps, n, m - 1, u);
      PrefixInv(c, run, steps, m - 1);
      OneStep(c, run, steps, m - 1);
      NextTaken(c, run[m - 1], run[m], steps[m - 1]);
    }
  }

  lemma OneStep(c: Config, run: seq<State>, steps: seq<Step>, i: nat)
    requires c.chunk > 0 && IsRun(c, run, steps) && i < |steps|
    ensures Next(c, run[i], run[i + 1], steps[i])
  {}

  predicate Binds(step: Step, u: Id) { step.Refer? && step.ref.Bind? && u in step.ref.links.Values }

  lemma BindTakes(c: Config, s: State, s': State, step: Step, u: Id)
    requires Inv(c, s) && Next(c, s, s', step) && Binds(step, u)
    ensures IsTaken(s'.w, u) && !IsTaken(s.w, u)
  {
    var a :| a in step.ref.links && step.ref.links[a] == u;
    assert u in s.w.sessions && Bindable(s.w, u);
  }

  /** One upload becomes an attachment of one message only, once: no two bindings of a run take the same upload, nor does one
      binding take it twice. */
  lemma TakenOnce(c: Config, run: seq<State>, steps: seq<Step>, i: nat, j: nat, u: Id)
    requires c.chunk > 0 && IsRun(c, run, steps) && i <= j < |steps| && Binds(steps[i], u) && Binds(steps[j], u)
    ensures i == j && forall a, b | a in steps[i].ref.links && b in steps[i].ref.links && steps[i].ref.links[a] == u == steps[i].ref.links[b] :: a == b
  {
    PrefixInv(c, run, steps, i);
    PrefixInv(c, run, steps, j);
    OneStep(c, run, steps, i);
    OneStep(c, run, steps, j);
    BindTakes(c, run[i], run[i + 1], steps[i], u);
    BindTakes(c, run[j], run[j + 1], steps[j], u);
    if i < j { TakenAlong(c, run, steps, i + 1, j, u); }
  }

  // ---- A READY object is left alone for a day -----------------------------------------------------------

  // A READY row that is less than a day old stays as it is; one that becomes READY does so now.
  ghost predicate ReadyKept(w: World, w': World) {
    && (forall id | HasRow(w.objects, id, Ready) && w.clock < w.objects[id].readyAt + 86400 :: id in w'.objects && w'.objects[id] == w.objects[id])
    && (forall id | HasRow(w'.objects, id, Ready) && !HasRow(w.objects, id, Ready) :: w'.objects[id].readyAt == w.clock)
  }

  lemma FinReady(c: Config, w: World, w': World, th: Thread, th': Option<Thread>, a: FinAct)
    requires ObjectsOk(c, w.used, w.objects, w.finals) && FinStep(c, w, w', th, th', a)
    ensures ReadyKept(w, w')
  {}

  lemma OwnReadyKept(w: World, w': World, th: Thread, th': Option<Thread>, a: OwnAct)
    requires OwnStep(w, w', th, th', a)
    ensures ReadyKept(w, w')
  {}

  lemma MaintReady(c: Config, w: World, w': World, th: Thread, th': Option<Thread>, a: MaintAct)
    requires MaintStep(c, w, w', th, th', a)
    ensures ReadyKept(w, w')
  {}

  lemma RefReady(w: World, w': World, a: RefAct)
    requires RefStep(w, w', a)
    ensures ReadyKept(w, w')
  {
    if a.GcMark? {
      forall id | id in a.marked ensures HasRow(w.objects, id, Ready) && w.objects[id].readyAt + 86400 <= w.clock {
        CollectableMeaning(WithoutSessions(w, LapsedUploads(w, a.now)), id, a.now);
      }
    }
  }

  lemma SealRows(c: Config, w: World, w': World, th: Thread, th': Option<Thread>, a: SealAct)
    requires c.chunk > 0 && SealStep(c, w, w', th, th', a)
    ensures ReadyKept(w, w')
  {
    assert w'.objects == w.objects;
  }

  lemma PutRows(c: Config, w: World, w': World, th: Thread, th': Option<Thread>, a: PutAct)
    requires c.chunk > 0 && PutStep(c, w, w', th, th', a)
    ensures ReadyKept(w, w')
  {
    assert w'.objects == w.objects;
  }

  lemma CreateRows(w: World, w': World, th: Thread, th': Option<Thread>, a: CreateAct)
    requires CreateStep(w, w', th, th', a)
    ensures ReadyKept(w, w')
  {
    assert w'.objects == w.objects;
  }

  lemma NextReady(c: Config, s: State, s': State, step: Step)
    requires c.chunk > 0 && ObjectsOk(c, s.w.used, s.w.objects, s.w.finals) && Next(c, s, s', step)
    ensures ReadyKept(s.w, s'.w)
  {
    match step
    case Run(t, th', act) =>
      var th := s.threads[t];
      match act {
        case FinDo(x) => FinReady(c, s.w, s'.w, th, th', x);
        case OwnDo(x) => OwnReadyKept(s.w, s'.w, th, th', x);
        case MaintDo(x) => MaintReady(c, s.w, s'.w, th, th', x);
        case SealDo(x) => SealRows(c, s.w, s'.w, th, th', x);
        case PutDo(x) => PutRows(c, s.w, s'.w, th, th', x);
        case CreateDo(x) => CreateRows(s.w, s'.w, th, th', x);
        case KeyDo => assert s'.w == s.w;
      }
    case Refer(a) => RefReady(s.w, s'.w, a);
    case Begin(_, _, _) => assert s'.w.objects == s.w.objects;
    case Expire(_) => assert s'.w.objects == s.w.objects;
    case CrashStep => assert s'.w.objects == s.w.objects;
    case Tick(_) => assert s'.w.objects == s.w.objects;
  }

  ghost predicate Onwards(w: World, w': World) { w.clock <= w'.clock && ReadyKept(w, w') }

  lemma StepOnwards(c: Config, run: seq<State>, steps: seq<Step>, i: nat)
    requires c.chunk > 0 && IsRun(c, run, steps) && i < |steps|
    ensures Onwards(run[i].w, run[i + 1].w)
  {
    PrefixInv(c, run, steps, i);
    OneStep(c, run, steps, i);
    NextOnward(c, run[i], run[i + 1], steps[i]);
    NextReady(c, run[i], run[i + 1], steps[i]);
  }

  lemma {:induction false} RowKept(run: seq<State>, n: nat, m: nat, id: Id)
    requires n <= m < |run| && forall i | n <= i < m :: Onwards(run[i].w, run[i + 1].w)
    requires HasRow(run[n].w.objects, id, Ready) && run[m].w.clock < run[n].w.objects[id].readyAt + 86400
    ensures id in run[m].w.objects && run[m].w.objects[id] == run[n].w.objects[id]
    decreases m
  {
    if n < m {
      assert Onwards(run[m - 1].w, run[m - 1 + 1].w);
      RowKept(run, n, m - 1, id);
    }
  }

  /** For 24 hours after an object became READY, its row stays what it is, referred to or not: whoever found it can still
      attach it. */
  lemma ReadyForADay(c: Config, run: seq<State>, steps: seq<Step>, n: nat, m: nat, id: Id)
    requires c.chunk > 0 && IsRun(c, run, steps) && n < m <= |steps|
    requires !HasRow(run[n].w.objects, id, Ready) && HasRow(run[n + 1].w.objects, id, Ready) && run[m].w.clock < run[n].w.clock + 86400
    ensures id in run[m].w.objects && run[m].w.objects[id] == run[n + 1].w.objects[id]
  {
    forall i | n <= i < m ensures Onwards(run[i].w, run[i + 1].w) { StepOnwards(c, run, steps, i); }
    RowKept(run, n + 1, m, id);
  }

  // ---- What one collection does --------------------------------------------------------------------------

  /** A collection deletes exactly the uploads completed 24 hours before its reading or earlier, with their parts, turns the rows
      it marks from READY to DELETING, and changes nothing else. */
  lemma GcMeaning(w: World, w': World, now: int, marked: set<Id>)
    requires RefStep(w, w', GcMark(now, marked))
    ensures w' == w.(sessions := w'.sessions, parts := w'.parts, objects := w'.objects)
    ensures forall u :: u in w'.sessions <==> u in w.sessions && !(w.sessions[u].status == Completed && w.sessions[u].completedAt + 86400 <= now)
    ensures forall u | u in w'.sessions :: w'.sessions[u] == w.sessions[u]
    ensures forall p :: p in w'.parts <==> p in w.parts && !(p.0 in w.sessions && p.0 !in w'.sessions)
    ensures forall p | p in w'.parts :: w'.parts[p] == w.parts[p]
    ensures w'.objects.Keys == w.objects.Keys && forall id | id in marked :: HasRow(w.objects, id, Ready)
    ensures forall id | id in w.objects :: w'.objects[id] == if id in marked then w.objects[id].(status := Deleting) else w.objects[id]
  {
    var kept := WithoutSessions(w, LapsedUploads(w, now));
    forall id | id in marked ensures HasRow(w.objects, id, Ready) { assert Collectable(kept, id, now); }
  }

  // The uploads that count against the staging limit.
  lemma ActiveSizesMeaning(sessions: map<Id, Session>)
    ensures forall u :: u in ActiveSizes(sessions) <==> u in sessions && sessions[u].status in {Created, Uploading, Completing, Failed}
    ensures forall u | u in ActiveSizes(sessions) :: ActiveSizes(sessions)[u] == sessions[u].size
  {}
}
