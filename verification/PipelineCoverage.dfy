/** Does every final object have a row? Not always; here is exactly which steps can take that away. */
module PipelineCoverage {
  import opened Basics
  import opened Pipeline
  import opened PipelineInvariant
  import opened PipelineRuns

  ghost predicate Covered(w: World) { forall id | id in w.finals :: id in w.objects }

  // ---- What a thread's step does to rows and final objects ----------------------------------------

  datatype Effect = Keeps | AddRow(id: Id) | DropRow(id: Id) | Promote(id: Id) | AddFinal(id: Id) | DropFinal(id: Id)

  function EffectOf(th: Thread, a: Act): Effect {
    match a
    case FinDo(x) =>
      if x.FinReserve? then AddRow(x.id)
      else if x.FinDropRow? && th.Finishing? && th.pc.Absent? then DropRow(th.pc.id)
      else if x.FinPromote? && th.Finishing? && th.pc.Verified? then Promote(th.pc.id) else Keeps
    case OwnDo(x) =>
      if !OwnsRow(th) then Keeps
      else if x.OwnRename? then AddFinal(th.pc.id)
      else if x.OwnReady? then Promote(th.pc.id)
      else if x.OwnUndoRow? && x.removed then DropRow(th.pc.id) else Keeps
    case MaintDo(x) =>
      if x.ResolveDropRow? && th.Resolving? then DropRow(th.id)
      else if x.ResolvePromote? && th.Resolving? then Promote(th.id)
      else if x.EraseFile? && th.Erasing? then DropFinal(th.id)
      else if x.EraseRow? && th.Erasing? then DropRow(th.id) else Keeps
    case _ => Keeps
  }

  // The tables agree on every other row.
  ghost predicate AgreeBut(x: map<Id, Object>, y: map<Id, Object>, id: Id) {
    forall i | i != id :: (i in y <==> i in x) && (i in x ==> y[i] == x[i])
  }

  ghost predicate Does(w: World, w': World, e: Effect) {
    match e
    case Keeps => w'.objects == w.objects && w'.finals == w.finals
    case AddRow(id) => id !in w.used && w'.finals == w.finals && HasRow(w'.objects, id, Pending) && AgreeBut(w.objects, w'.objects, id)
    case DropRow(id) => w'.finals == w.finals && id !in w'.objects && AgreeBut(w.objects, w'.objects, id)
    case Promote(id) => w'.finals == w.finals && id in w.objects && id in w'.objects && AgreeBut(w.objects, w'.objects, id)
    case AddFinal(id) => w'.objects == w.objects && w'.finals.Keys == w.finals.Keys + {id}
    case DropFinal(id) => w'.objects == w.objects && w'.finals == w.finals - {id}
  }

  predicate Undoing(th: Thread) { OwnsRow(th) && (th.pc.own.Undo? || th.pc.own.UndoRow?) }

  // Before the rename.
  predicate Preparing(th: Thread) { OwnsRow(th) && (th.pc.own.Reserved? || th.pc.own.Copying? || th.pc.own.Flushed?) }

  // Who may have that effect.
  ghost predicate Entitled(w: World, th: Thread, e: Effect) {
    match e
    case DropRow(id) =>
      || (th.Finishing? && th.pc.Absent? && th.pc.id == id && HasRow(w.objects, id, Pending))
      || (Undoing(th) && th.pc.id == id && HasRow(w.objects, id, Pending))
      || (th.Resolving? && th.res.ResAbsent? && th.id == id && HasRow(w.objects, id, Pending))
      || (th.Erasing? && th.fileGone && th.id == id && HasRow(w.objects, id, Deleting))
    case Promote(id) =>
      || (th.Finishing? && th.pc.Verified? && th.pc.id == id) || (OwnsRow(th) && th.pc.own.Statted? && th.pc.id == id)
      || (th.Resolving? && th.id == id)
    case AddFinal(id) => OwnsRow(th) && th.pc.own.Flushed? && th.pc.id == id
    case DropFinal(id) => th.Erasing? && th.id == id
    case _ => true
  }

  lemma FinEffect(c: Config, w: World, w': World, th: Thread, th': Option<Thread>, a: FinAct)
    requires FinStep(c, w, w', th, th', a)
    ensures Does(w, w', EffectOf(th, FinDo(a))) && Entitled(w, th, EffectOf(th, FinDo(a)))
  {}

  lemma OwnEffect(w: World, w': World, th: Thread, th': Option<Thread>, a: OwnAct)
    requires OwnStep(w, w', th, th', a)
    ensures Does(w, w', EffectOf(th, OwnDo(a))) && Entitled(w, th, EffectOf(th, OwnDo(a)))
  {}

  lemma MaintEffect(c: Config, w: World, w': World, th: Thread, th': Option<Thread>, a: MaintAct)
    requires MaintStep(c, w, w', th, th', a)
    ensures Does(w, w', EffectOf(th, MaintDo(a))) && Entitled(w, th, EffectOf(th, MaintDo(a)))
  {}

  lemma SealEffect(c: Config, w: World, w': World, th: Thread, th': Option<Thread>, a: SealAct)
    requires c.chunk > 0 && SealStep(c, w, w', th, th', a)
    ensures w'.objects == w.objects && w'.finals == w.finals
  {}

  lemma StepEffect(c: Config, s: State, w': World, th: Thread, th': Option<Thread>, a: Act)
    requires c.chunk > 0 && ThreadStep(c, s, w', th, th', a)
    ensures Does(s.w, w', EffectOf(th, a)) && Entitled(s.w, th, EffectOf(th, a))
  {
    match a
    case FinDo(x) => FinEffect(c, s.w, w', th, th', x);
    case OwnDo(x) => OwnEffect(s.w, w', th, th', x);
    case MaintDo(x) => MaintEffect(c, s.w, w', th, th', x);
    case SealDo(x) => SealEffect(c, s.w, w', th, th', x);
    case PutDo(x) => PutEffect(c, s.w, w', th, th', x);
    case CreateDo(x) => CreateEffect(s.w, w', th, th', x);
    case KeyDo => assert w' == s.w;
  }

  lemma PutEffect(c: Config, w: World, w': World, th: Thread, th': Option<Thread>, a: PutAct)
    requires c.chunk > 0 && PutStep(c, w, w', th, th', a)
    ensures w'.objects == w.objects && w'.finals == w.finals
  {}

  lemma CreateEffect(w: World, w': World, th: Thread, th': Option<Thread>, a: CreateAct)
    requires CreateStep(w, w', th, th', a)
    ensures w'.objects == w.objects && w'.finals == w.finals
  {}

  // Outside threads, rows and final objects keep their names, and waiting rows wait.
  lemma OutsideEffect(c: Config, s: State, s': State, step: Step)
    requires c.chunk > 0 && Next(c, s, s', step) && !step.Run?
    ensures s'.w.finals.Keys == s.w.finals.Keys && s'.w.objects.Keys == s.w.objects.Keys
    ensures forall id :: HasRow(s.w.objects, id, Pending) ==> HasRow(s'.w.objects, id, Pending)
  {
    if step.Refer? { RefEffect(s.w, s'.w, step.ref); }
  }

  lemma RefEffect(w: World, w': World, a: RefAct)
    requires RefStep(w, w', a)
    ensures w'.finals == w.finals && w'.objects.Keys == w.objects.Keys
    ensures forall id :: HasRow(w.objects, id, Pending) ==> HasRow(w'.objects, id, Pending)
  {
    if a.GcMark? { assert forall id | id in a.marked :: HasRow(w.objects, id, Ready); }
  }

  // ---- Whoever removes a row has seen that there is no final object --------------------------------

  predicate Free(w: World, id: Id) { id in w.objects ==> id !in w.finals }

  predicate SeenGone(w: World, th: Thread) {
    && (th.Finishing? && (th.pc.Missing? || th.pc.Absent?) ==> Free(w, th.pc.id))
    && (th.Erasing? && th.fileGone ==> Free(w, th.id))
    && (Undoing(th) ==> th.pc.id !in w.finals)
  }

  ghost predicate AllSeenGone(s: State) { forall t | t in s.threads :: SeenGone(s.w, s.threads[t]) }

  lemma OtherSeenGone(c: Config, w: World, w': World, th: Thread, e: Effect, o: Thread)
    requires c.chunk > 0 && ThreadOk(c, w, th) && ThreadOk(c, w, o) && Compatible(th, o)
    requires Does(w, w', e) && Entitled(w, th, e) && SeenGone(w, o)
    ensures SeenGone(w', o)
  {}

  lemma SelfSeenGone(c: Config, s: State, w': World, th: Thread, th': Option<Thread>, a: Act)
    requires c.chunk > 0 && ThreadOk(c, s.w, th) && ThreadStep(c, s, w', th, th', a) && SeenGone(s.w, th)
    ensures th'.Some? ==> SeenGone(w', th'.value)
  {
    match a
    case FinDo(x) => FinSeenGone(c, s.w, w', th, th', x);
    case OwnDo(x) => OwnSeenGone(c, s.w, w', th, th', x);
    case MaintDo(x) =>
    case SealDo(x) => SealSeenGone(c, s.w, w', th, th', x);
    case PutDo(x) =>
    case CreateDo(x) =>
    case KeyDo =>
  }

  lemma FinSeenGone(c: Config, w: World, w': World, th: Thread, th': Option<Thread>, a: FinAct)
    requires FinStep(c, w, w', th, th', a) && SeenGone(w, th)
    ensures th'.Some? ==> SeenGone(w', th'.value)
  {}

  lemma OwnSeenGone(c: Config, w: World, w': World, th: Thread, th': Option<Thread>, a: OwnAct)
    requires c.chunk > 0 && ThreadOk(c, w, th) && OwnStep(w, w', th, th', a) && SeenGone(w, th)
    ensures th'.Some? ==> SeenGone(w', th'.value)
  {}

  lemma SealSeenGone(c: Config, w: World, w': World, th: Thread, th': Option<Thread>, a: SealAct)
    requires c.chunk > 0 && SealStep(c, w, w', th, th', a)
    ensures th'.Some? ==> SeenGone(w', th'.value)
  {}

  lemma NextSeenGone(c: Config, s: State, s': State, step: Step)
    requires Inv(c, s) && AllSeenGone(s) && Next(c, s, s', step)
    ensures AllSeenGone(s')
  {
    if step.Run? {
      var th := s.threads[step.t];
      assert ThreadOk(c, s.w, th);
      StepEffect(c, s, s'.w, th, step.th', step.act);
      SelfSeenGone(c, s, s'.w, th, step.th', step.act);
      forall x | x in s'.threads && x != step.t ensures SeenGone(s'.w, s'.threads[x]) {
        assert ThreadOk(c, s.w, s.threads[x]) && Compatible(th, s.threads[x]);
        OtherSeenGone(c, s.w, s'.w, th, EffectOf(th, step.act), s.threads[x]);
      }
    } else {
      OutsideEffect(c, s, s', step);
    }
  }

  lemma {:induction false} RunsSeeGone(c: Config, run: seq<State>, steps: seq<Step>)
    requires c.chunk > 0 && IsRun(c, run, steps)
    ensures AllSeenGone(run[|steps|]) && Inv(c, run[|steps|])
  {
    RunsKeepInv(c, run, steps);
    if steps != [] {
      var n := |steps| - 1;
      RunsSeeGone(c, run[..|steps|], steps[..n]);
      assert Next(c, run[n], run[n + 1], steps[n]);
      NextSeenGone(c, run[n], run[n + 1], steps[n]);
    }
  }

  // ---- The exact condition -------------------------------------------------------------------------

  // A rename for a reservation that lost its row, or a reconciler's removal of a row whose final object has appeared.
  predicate Orphans(s: State, step: Step) {
    && step.Run? && step.t in s.threads && var th := s.threads[step.t];
    || (step.act.OwnDo? && step.act.own.OwnRename? && OwnsRow(th) && th.pc.id !in s.w.objects)
    || (step.act == MaintDo(ResolveDropRow) && th.Resolving? && th.id in s.w.finals)
  }

  /** In every reachable state in which every final object has a row, a step leaves it so exactly when it is neither a rename
      without a row nor a reconciler's removal of a row with a final object. */
  lemma CoveredExactly(c: Config, run: seq<State>, steps: seq<Step>, s': State, step: Step)
    requires c.chunk > 0 && IsRun(c, run, steps) && Covered(run[|steps|].w) && Next(c, run[|steps|], s', step)
    ensures Covered(s'.w) <==> !Orphans(run[|steps|], step)
  {
    var s := run[|steps|];
    RunsSeeGone(c, run, steps);
    if step.Run? {
      StepEffect(c, s, s'.w, s.threads[step.t], step.th', step.act);
      EffectCovers(s, s'.w, step);
    } else {
      OutsideEffect(c, s, s', step);
    }
  }

  lemma EffectCovers(s: State, w': World, step: Step)
    requires step.Run? && step.t in s.threads && Covered(s.w) && SeenGone(s.w, s.threads[step.t])
    requires var th := s.threads[step.t]; Does(s.w, w', EffectOf(th, step.act)) && Entitled(s.w, th, EffectOf(th, step.act))
    ensures Covered(w') <==> !Orphans(s, step)
  {}

  // ---- Over runs -----------------------------------------------------------------------------------

  // No reconciler is at work on a row whose finalizer is still running.
  ghost predicate NoOverlap(s: State) {
    forall t, x | t in s.threads && x in s.threads && s.threads[t].Resolving? && OwnsRow(s.threads[x]) :: s.threads[t].id != s.threads[x].pc.id
  }

  predicate Steady(w: World, th: Thread) {
    && (th.Resolving? && (th.res.ResMissing? || th.res.ResAbsent?) ==> Free(w, th.id))
    && (Preparing(th) ==> HasRow(w.objects, th.pc.id, Pending))
  }

  ghost predicate AllSteady(s: State) { forall t | t in s.threads :: Steady(s.w, s.threads[t]) }

  lemma OtherSteady(c: Config, w: World, w': World, th: Thread, e: Effect, o: Thread)
    requires c.chunk > 0 && ThreadOk(c, w, th) && ThreadOk(c, w, o) && Compatible(th, o)
    requires Does(w, w', e) && Entitled(w, th, e) && Steady(w, o)
    requires o.Resolving? && OwnsRow(th) ==> o.id != th.pc.id
    requires th.Resolving? && OwnsRow(o) ==> th.id != o.pc.id
    ensures Steady(w', o)
  {}

  lemma SelfSteady(c: Config, s: State, w': World, th: Thread, th': Option<Thread>, a: Act)
    requires c.chunk > 0 && ThreadOk(c, s.w, th) && ThreadStep(c, s, w', th, th', a) && Steady(s.w, th)
    ensures th'.Some? ==> Steady(w', th'.value)
  {
    match a
    case FinDo(x) => FinSteady(c, s.w, w', th, th', x);
    case OwnDo(x) => OwnSteady(s.w, w', th, th', x);
    case MaintDo(x) => MaintSteady(c, s.w, w', th, th', x);
    case SealDo(x) => SealSteady(c, s.w, w', th, th', x);
    case PutDo(x) =>
    case CreateDo(x) =>
    case KeyDo =>
  }

  lemma FinSteady(c: Config, w: World, w': World, th: Thread, th': Option<Thread>, a: FinAct)
    requires FinStep(c, w, w', th, th', a)
    ensures th'.Some? ==> Steady(w', th'.value)
  {}

  lemma OwnSteady(w: World, w': World, th: Thread, th': Option<Thread>, a: OwnAct)
    requires OwnStep(w, w', th, th', a) && Steady(w, th)
    ensures th'.Some? ==> Steady(w', th'.value)
  {}

  lemma MaintSteady(c: Config, w: World, w': World, th: Thread, th': Option<Thread>, a: MaintAct)
    requires MaintStep(c, w, w', th, th', a) && Steady(w, th)
    ensures th'.Some? ==> Steady(w', th'.value)
  {}

  lemma SealSteady(c: Config, w: World, w': World, th: Thread, th': Option<Thread>, a: SealAct)
    requires c.chunk > 0 && SealStep(c, w, w', th, th', a)
    ensures th'.Some? ==> Steady(w', th'.value)
  {}

  lemma BeginSteady(c: Config, s: State, s': State, step: Step)
    requires c.chunk > 0 && Next(c, s, s', step) && step.Begin? && AllSteady(s)
    ensures AllSteady(s')
  {}

  lemma NextSteady(c: Config, s: State, s': State, step: Step)
    requires Inv(c, s) && AllSteady(s) && NoOverlap(s) && Next(c, s, s', step)
    ensures AllSteady(s')
  {
    if step.Run? {
      var th := s.threads[step.t];
      assert ThreadOk(c, s.w, th);
      StepEffect(c, s, s'.w, th, step.th', step.act);
      SelfSteady(c, s, s'.w, th, step.th', step.act);
      forall x | x in s'.threads && x != step.t ensures Steady(s'.w, s'.threads[x]) {
        assert ThreadOk(c, s.w, s.threads[x]) && Compatible(th, s.threads[x]);
        OtherSteady(c, s.w, s'.w, th, EffectOf(th, step.act), s.threads[x]);
      }
    } else if step.Begin? {
      BeginSteady(c, s, s', step);
    } else {
      OutsideEffect(c, s, s', step);
    }
  }

  /** As long as no reconciler works on a row whose finalizer is still running, every final object has a row. */
  lemma {:induction false} CoveredWithoutOverlap(c: Config, run: seq<State>, steps: seq<Step>)
    requires c.chunk > 0 && IsRun(c, run, steps) && forall i | 0 <= i < |steps| :: NoOverlap(run[i])
    ensures Covered(run[|steps|].w) && AllSteady(run[|steps|])
  {
    if steps != [] {
      var n := |steps| - 1;
      CoveredWithoutOverlap(c, run[..|steps|], steps[..n]);
      assert Next(c, run[n], run[n + 1], steps[n]);
      RunsKeepInv(c, run[..|steps|], steps[..n]);
      NextSteady(c, run[n], run[n + 1], steps[n]);
      SteadyNoOrphan(c, run[n], run[n + 1], steps[n]);
      assert IsRun(c, run[..|steps|], steps[..n]);
      CoveredExactly(c, run[..|steps|], steps[..n], run[n + 1], steps[n]);
    }
  }

  lemma SteadyNoOrphan(c: Config, s: State, s': State, step: Step)
    requires c.chunk > 0 && AllSteady(s) && Next(c, s, s', step)
    ensures !Orphans(s, step)
  {
    if step.Run? {
      StepEffect(c, s, s'.w, s.threads[step.t], step.th', step.act);
      assert Steady(s.w, s.threads[step.t]);
    }
  }
}
