/** Every step keeps the invariant; hence every reachable state has it. */
module PipelineRuns {
  import opened Basics
  import opened Parts
  import opened Pipeline
  import opened PipelineInvariant
  import opened PipelineSteps

  // ---- Transactions on references ----------------------------------------------------------------

  lemma ConsumedWorld(c: Config, w: World, us: set<Id>)
    requires c.chunk > 0 && WorldOk(c, w) && forall u | u in us && u in w.sessions :: w.sessions[u].status == Completed
    ensures var sessions := Consumed(w.sessions, us);
            && LeasesOk(c, w.objects, w.sealed, sessions) && StagingOk(w.used, w.born, sessions, w.staging)
            && MarkersOk(c, sessions, w.parts, w.staging, w.written) && SealsOk(w.born, sessions, w.staging, w.sealed)
  {}

  lemma BindWorld(c: Config, w: World, w': World, links: map<Id, Id>)
    requires c.chunk > 0 && WorldOk(c, w) && RefStep(w, w', Bind(links))
    ensures WorldOk(c, w')
  {
    ConsumedWorld(c, w, links.Values);
    forall a | a in w'.attachments ensures Linked(c, w.objects, w.sealed, w'.attachments[a].file, w'.attachments[a].origin) {
      if a in links { assert Awaiting(w.sessions[links[a]]); } else { assert a in w.attachments; }
    }
  }

  lemma MarkedObjects(c: Config, used: set<Id>, objects: map<Id, Object>, finals: map<Id, Blob>, ids: set<Id>)
    requires ObjectsOk(c, used, objects, finals)
    ensures ObjectsOk(c, used, Marked(objects, ids), finals)
  {}

  // With the lapsed uploads gone, every unconsumed upload and every attachment blocks the marking of its object.
  lemma MarkedLinks(c: Config, w: World, now: int, ids: set<Id>)
    requires AttachmentsOk(c, w.objects, w.sealed, w.attachments) && LeasesOk(c, w.objects, w.sealed, w.sessions) && JobsOk(w.objects, w.busy)
    requires LapsedUploads(w, now) == {} && forall id | id in ids :: Collectable(w, id, now)
    ensures var objects := Marked(w.objects, ids);
            AttachmentsOk(c, objects, w.sealed, w.attachments) && LeasesOk(c, objects, w.sealed, w.sessions) && JobsOk(objects, w.busy)
  {
    forall u | u in w.sessions && Awaiting(w.sessions[u])
      ensures w.sessions[u].file.Some? && Linked(c, Marked(w.objects, ids), w.sealed, w.sessions[u].file.value, u)
    {
      assert u !in LapsedUploads(w, now);
      assert Leased(w, w.sessions[u].file.value, now);
    }
    forall a | a in w.attachments ensures Linked(c, Marked(w.objects, ids), w.sealed, w.attachments[a].file, w.attachments[a].origin) {
      assert Referenced(w, w.attachments[a].file);
    }
  }

  lemma GcWorld(c: Config, w: World, w': World, now: int, marked: set<Id>)
    requires c.chunk > 0 && WorldOk(c, w) && RefStep(w, w', GcMark(now, marked))
    ensures WorldOk(c, w')
  {
    var kept := WithoutSessions(w, LapsedUploads(w, now));
    RowsGoneWorld(c, w, LapsedUploads(w, now));
    MarkedObjects(c, w.used, w.objects, w.finals, marked);
    assert LapsedUploads(kept, now) == {};
    MarkedLinks(c, kept, now, marked);
  }

  lemma RefWorld(c: Config, w: World, w': World, a: RefAct)
    requires c.chunk > 0 && WorldOk(c, w) && RefStep(w, w', a)
    ensures WorldOk(c, w')
  {
    match a
    case Bind(links) => BindWorld(c, w, w', links);
    case GcMark(now, marked) => GcWorld(c, w, w', now, marked);
    case DropUploads(gone) => RowsGoneWorld(c, w, gone);
    case CopyAll(links) => CopyWorld(c, w, w', links);
    case _ =>
  }

  lemma CopyWorld(c: Config, w: World, w': World, links: map<Id, Id>)
    requires c.chunk > 0 && WorldOk(c, w) && RefStep(w, w', CopyAll(links))
    ensures WorldOk(c, w')
  {
    forall a | a in w'.attachments ensures Linked(c, w.objects, w.sealed, w'.attachments[a].file, w'.attachments[a].origin) {}
  }

  lemma BindFrame(c: Config, w: World, w': World, links: map<Id, Id>, o: Thread)
    requires c.chunk > 0 && ThreadOk(c, w, o) && RefStep(w, w', Bind(links))
    ensures ThreadFacts(c, w', o)
  {}

  lemma MarkFrame(c: Config, w: World, ids: set<Id>, o: Thread)
    requires c.chunk > 0 && ThreadOk(c, w, o) && forall id | id in ids :: HasRow(w.objects, id, Ready)
    ensures ThreadOk(c, w.(objects := Marked(w.objects, ids)), o)
  {}

  lemma GcFrame(c: Config, w: World, w': World, now: int, marked: set<Id>, o: Thread)
    requires c.chunk > 0 && ThreadOk(c, w, o) && RefStep(w, w', GcMark(now, marked))
    ensures ThreadOk(c, w', o)
  {
    var kept := WithoutSessions(w, LapsedUploads(w, now));
    RowsGoneFrame(c, w, LapsedUploads(w, now), o);
    forall id | id in marked ensures HasRow(kept.objects, id, Ready) { assert Collectable(kept, id, now); }
    MarkFrame(c, kept, marked, o);
  }

  lemma CopyFrame(c: Config, w: World, used: set<Id>, attachments: map<Id, Attachment>, busy: set<Id>, o: Thread)
    requires c.chunk > 0 && ThreadOk(c, w, o) && w.used <= used
    ensures ThreadOk(c, w.(used := used, attachments := attachments, busy := busy), o)
  {}

  lemma RefOther(c: Config, w: World, w': World, a: RefAct, o: Thread)
    requires c.chunk > 0 && ThreadOk(c, w, o) && RefStep(w, w', a)
    ensures ThreadOk(c, w', o)
  {
    match a
    case Bind(links) => BindFrame(c, w, w', links, o);
    case GcMark(now, marked) => GcFrame(c, w, w', now, marked, o);
    case DropUploads(gone) => RowsGoneFrame(c, w, gone, o);
    case ReapTemp(id) => TempFrame(c, w, id, o);
    case _ => CopyFrame(c, w, w'.used, w'.attachments, w'.busy, o);
  }

  // ---- Crashes -----------------------------------------------------------------------------------

  // Synced bytes survive.
  lemma StageSurvives(c: Config, f: StageFile, f': StageFile)
    requires GarbledStage(f, f') && |f.clean| == |f.bytes|
    ensures forall bytes | StageHolds(f, bytes) && |f.clean| == |bytes| :: StageHolds(f', bytes)
    ensures forall k, body | RegionOk(c, f, k, body) :: RegionOk(c, f', k, body)
  {}

  lemma CrashWorld(c: Config, w: World, w': World)
    requires c.chunk > 0 && WorldOk(c, w) && Crash(w, w')
    ensures WorldOk(c, w')
  {
    forall u | u in w.staging
      ensures (forall bytes | StageHolds(w.staging[u], bytes) && |w.staging[u].clean| == |bytes| :: StageHolds(w'.staging[u], bytes))
           && (forall k, body | RegionOk(c, w.staging[u], k, body) :: RegionOk(c, w'.staging[u], k, body))
    {
      StageSurvives(c, w.staging[u], w'.staging[u]);
    }
    CrashStaging(c, w, w');
    CrashMarkers(c, w, w');
  }

  lemma CrashStaging(c: Config, w: World, w': World)
    requires c.chunk > 0 && WorldOk(c, w) && Crash(w, w')
    requires forall u, bytes | u in w.staging && StageHolds(w.staging[u], bytes) && |w.staging[u].clean| == |bytes| :: StageHolds(w'.staging[u], bytes)
    ensures StagingOk(w'.used, w'.born, w'.sessions, w'.staging) && SealsOk(w'.born, w'.sessions, w'.staging, w'.sealed)
  {
    forall u | u in w.staging ensures GarbledStage(w.staging[u], w'.staging[u]) {}
  }

  lemma CrashMarkers(c: Config, w: World, w': World)
    requires c.chunk > 0 && WorldOk(c, w) && Crash(w, w')
    requires forall u, k, body | u in w.staging && RegionOk(c, w.staging[u], k, body) :: RegionOk(c, w'.staging[u], k, body)
    ensures MarkersOk(c, w'.sessions, w'.parts, w'.staging, w'.written)
  {}

  // ---- Locks -------------------------------------------------------------------------------------

  // What a thread locks grows only at its begin step, at the content lock and at a reservation.
  predicate LocksNoMore(th: Thread, th': Thread) {
    && (LifeThread(th') ==> LifeThread(th))
    && (TouchesAny(th') ==> TouchesAny(th) && th'.u == th.u && (th.Putting? <==> th'.Putting?) && (th.Putting? ==> th'.k == th.k))
    && (HoldsContent(th') ==> HoldsContent(th) && th'.pc.sha == th.pc.sha && th'.size == th.size)
    && (OwnsRow(th') ==> OwnsRow(th) && th'.pc.id == th.pc.id)
  }

  lemma QuietStep(c: Config, s: State, w': World, th: Thread, th': Option<Thread>, a: Act)
    requires c.chunk > 0 && ThreadStep(c, s, w', th, th', a) && th'.Some?
    requires !a.KeyDo? && !(a.FinDo? && a.fin.FinReserve?)
    ensures LocksNoMore(th, th'.value)
  {}

  lemma StaysCompatible(c: Config, s: State, w': World, th: Thread, th': Option<Thread>, a: Act, o: Thread)
    requires c.chunk > 0 && ThreadStep(c, s, w', th, th', a) && th'.Some? && o in s.threads.Values
    requires Compatible(th, o) && Compatible(o, th) && ThreadOk(c, s.w, o)
    ensures Compatible(th'.value, o) && Compatible(o, th'.value)
  {
    if !a.KeyDo? && !(a.FinDo? && a.fin.FinReserve?) { QuietStep(c, s, w', th, th', a); }
  }

  lemma LocksRun(c: Config, s: State, s': State, t: nat, th': Option<Thread>, a: Act)
    requires Inv(c, s) && Next(c, s, s', Run(t, th', a))
    ensures LocksOk(s'.threads)
  {
    if th'.Some? {
      var th := s.threads[t];
      forall x | x in s.threads && x != t ensures Compatible(th'.value, s.threads[x]) && Compatible(s.threads[x], th'.value) {
        assert Compatible(th, s.threads[x]) && Compatible(s.threads[x], th) && ThreadOk(c, s.w, s.threads[x]);
        StaysCompatible(c, s, s'.w, th, th', a, s.threads[x]);
      }
    }
  }

  lemma LocksBegin(c: Config, s: State, s': State, t: nat, th: Thread, a: BeginAct)
    requires Inv(c, s) && Next(c, s, s', Begin(t, th, a))
    ensures LocksOk(s'.threads)
  {}

  // ---- One step ----------------------------------------------------------------------------------

  lemma BeginWorld(c: Config, s: State, w': World, th: Thread, a: BeginAct)
    requires Inv(c, s) && BeginStep(c, s, w', th, a)
    ensures WorldOk(c, w') && ThreadOk(c, w', th)
  {}

  lemma BeginOther(c: Config, s: State, w': World, th: Thread, a: BeginAct, o: Thread)
    requires c.chunk > 0 && ThreadOk(c, s.w, o) && BeginStep(c, s, w', th, a)
    ensures ThreadOk(c, w', o)
  {
    CopyFrame(c, s.w, w'.used, s.w.attachments, s.w.busy, o);
  }

  lemma RunWorld(c: Config, s: State, w': World, th: Thread, th': Option<Thread>, a: Act)
    requires c.chunk > 0 && WorldOk(c, s.w) && ThreadOk(c, s.w, th) && ThreadStep(c, s, w', th, th', a)
    ensures WorldOk(c, w')
  {
    match a
    case CreateDo(x) => CreateWorld(c, s.w, w', th, th', x);
    case PutDo(x) => PutWorld(c, s.w, w', th, th', x);
    case SealDo(x) => SealWorld(c, s.w, w', th, th', x);
    case KeyDo =>
    case FinDo(x) => FinWorld(c, s.w, w', th, th', x);
    case OwnDo(x) => OwnWorld(c, s.w, w', th, th', x);
    case MaintDo(x) => MaintWorld(c, s.w, w', th, th', x);
  }

  lemma RunSelf(c: Config, s: State, w': World, th: Thread, th': Option<Thread>, a: Act)
    requires c.chunk > 0 && WorldOk(c, s.w) && ThreadOk(c, s.w, th) && ThreadStep(c, s, w', th, th', a)
    ensures th'.Some? ==> ThreadOk(c, w', th'.value)
  {
    match a
    case CreateDo(x) => CreateWorld(c, s.w, w', th, th', x);
    case PutDo(x) => PutSelf(c, s.w, w', th, th', x);
    case SealDo(x) => SealSelf(c, s.w, w', th, th', x);
    case KeyDo =>
    case FinDo(x) => FinSelf(c, s.w, w', th, th', x);
    case OwnDo(x) => OwnSelf(c, s.w, w', th, th', x);
    case MaintDo(x) => MaintWorld(c, s.w, w', th, th', x);
  }

  lemma RunOther(c: Config, s: State, w': World, th: Thread, th': Option<Thread>, a: Act, x: nat)
    requires c.chunk > 0 && ThreadOk(c, s.w, th) && ThreadStep(c, s, w', th, th', a)
    requires x in s.threads && ThreadOk(c, s.w, s.threads[x]) && Compatible(th, s.threads[x])
    ensures ThreadOk(c, w', s.threads[x])
  {
    var o := s.threads[x];
    match a
    case CreateDo(act) => CreateOther(c, s.w, w', th, th', act, o);
    case PutDo(act) => PutOther(c, s.w, w', th, th', act, o);
    case SealDo(act) => SealOther(c, s.w, w', th, th', act, o);
    case KeyDo =>
    case FinDo(act) => FinOther(c, s.w, w', th, th', act, o);
    case OwnDo(act) => OwnOther(c, s.w, w', th, th', act, o);
    case MaintDo(act) => MaintOther(c, s.w, w', th, th', act, o);
  }

  lemma RunInv(c: Config, s: State, s': State, t: nat, th': Option<Thread>, a: Act)
    requires Inv(c, s) && Next(c, s, s', Run(t, th', a))
    ensures Inv(c, s')
  {
    LocksRun(c, s, s', t, th', a);
    RunWorld(c, s, s'.w, s.threads[t], th', a);
    RunSelf(c, s, s'.w, s.threads[t], th', a);
    forall x | x in s'.threads ensures ThreadOk(c, s'.w, s'.threads[x]) {
      if x != t { RunOther(c, s, s'.w, s.threads[t], th', a, x); }
    }
  }

  lemma ExpireInv(c: Config, s: State, w': World, u: Id)
    requires Inv(c, s) && ExpireStep(s, w', u)
    ensures WorldOk(c, w') && forall t | t in s.threads :: ThreadOk(c, w', s.threads[t])
  {
    var x := s.w.sessions[u].(status := SessionStatus.Expired);
    RetireWorld(c, s.w, u, x);
    forall t | t in s.threads ensures ThreadOk(c, w', s.threads[t]) {
      assert ThreadOk(c, s.w, s.threads[t]) && !Touches(s.threads[t], u);
      SessionFrame(c, s.w, u, x, s.threads[t]);
    }
  }

  lemma TickFrame(c: Config, w: World, now: int, o: Thread)
    requires c.chunk > 0 && ThreadOk(c, w, o)
    ensures ThreadOk(c, w.(clock := now), o)
  {}

  lemma NextInv(c: Config, s: State, s': State, step: Step)
    requires Inv(c, s) && Next(c, s, s', step)
    ensures Inv(c, s')
  {
    match step
    case Begin(t, th, a) =>
      LocksBegin(c, s, s', t, th, a);
      BeginWorld(c, s, s'.w, th, a);
      forall x | x in s.threads ensures ThreadOk(c, s'.w, s.threads[x]) { BeginOther(c, s, s'.w, th, a, s.threads[x]); }
    case Run(t, th', a) => RunInv(c, s, s', t, th', a);
    case Refer(a) =>
      RefWorld(c, s.w, s'.w, a);
      forall t | t in s.threads ensures ThreadOk(c, s'.w, s.threads[t]) { RefOther(c, s.w, s'.w, a, s.threads[t]); }
    case Expire(u) => ExpireInv(c, s, s'.w, u);
    case CrashStep => CrashWorld(c, s.w, s'.w);
    case Tick(d) => forall t | t in s.threads ensures ThreadOk(c, s'.w, s.threads[t]) { TickFrame(c, s.w, s'.w.clock, s.threads[t]); }
  }

  lemma {:induction false} RunsKeepInv(c: Config, run: seq<State>, steps: seq<Step>)
    requires c.chunk > 0 && IsRun(c, run, steps)
    ensures Inv(c, run[|steps|])
  {
    if steps == [] {
    } else {
      var n := |steps| - 1;
      RunsKeepInv(c, run[..|steps|], steps[..n]);
      assert Next(c, run[n], run[n + 1], steps[n]);
      NextInv(c, run[n], run[n + 1], steps[n]);
    }
  }
}
