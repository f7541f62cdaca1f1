/** The reference-counted lock registries (internal/uploads/locks.go, and the content locks of
    internal/uploads/finalize.go). Lock objects are created on first use and forgotten when their last
    user leaves, so a thread may hold a lock object that the registry is about to replace. The section
    under each internal mutex is one atomic step; everything else interleaves freely. A content lock is
    a registry whose threads only ever take Exclusive. */
module Locks {
  import opened Basics

  type Key = nat
  type Ref = nat

  // `of` is history: what the object was created for.
  datatype PartLock = PartLock(refs: int, held: bool, of: (Ref, nat))
  datatype UploadLock = UploadLock(refs: int, readers: int, writer: bool, parts: map<nat, Ref>, of: Key)

  // Where a thread is in Chunk(key, part) or Exclusive(key), or in the function that releases it.
  datatype Place =
    | WantRead | WantEntry | WantPart(p: Ref) | InChunk(p: Ref) | LeavePart(p: Ref) | LeaveRead
    | WantWrite | InExclusive
    | LeaveRegistry
  datatype Thread = Thread(key: Key, part: nat, lock: Ref, at: Place)

  datatype State = State(
    registry: map<Key, Ref>,
    locks: map<Ref, UploadLock>,       // every lock object ever allocated
    partLocks: map<Ref, PartLock>,
    threads: map<nat, Thread>)

  const InitState := State(map[], map[], map[], map[])

  predicate HasPart(at: Place) { at.WantPart? || at.InChunk? || at.LeavePart? }

  function LockAt(s: State, l: Ref): UploadLock { if l in s.locks then s.locks[l] else UploadLock(0, 0, false, map[], 0) }

  function PartAt(s: State, p: Ref): PartLock { if p in s.partLocks then s.partLocks[p] else PartLock(0, false, (0, 0)) }

  function SetLock(s: State, l: Ref, lock: UploadLock): State { s.(locks := s.locks[l := lock]) }

  function SetPart(s: State, p: Ref, part: PartLock): State { s.(partLocks := s.partLocks[p := part]) }

  // acquire: find or create the lock object and count one more user.
  function Acquired(s: State, key: Key, spare: Ref): (State, Ref) {
    if key in s.registry then
      var l := s.registry[key];
      (SetLock(s, l, LockAt(s, l).(refs := LockAt(s, l).refs + 1)), l)
    else
      (SetLock(s, spare, UploadLock(1, 0, false, map[], key)).(registry := s.registry[key := spare]), spare)
  }

  // release: count one user less and forget the object with the last one.
  function Released(s: State, key: Key, l: Ref): State {
    var refs := LockAt(s, l).refs - 1;
    var r := SetLock(s, l, LockAt(s, l).(refs := refs));
    if refs == 0 then r.(registry := s.registry - {key}) else r
  }

  // The lock the thread waits for can be taken. A reader that Go's RWMutex has let in but that has not run yet has taken it.
  predicate Ready(s: State, th: Thread) {
    match th.at
    case WantRead => !LockAt(s, th.lock).writer
    case WantWrite => !LockAt(s, th.lock).writer && LockAt(s, th.lock).readers == 0
    case WantPart(p) => !PartAt(s, p).held
    case _ => true
  }

  // The thread's next step: the shared state after it, and where the thread is then. `spare` is a newly allocated object.
  function Moved(s: State, th: Thread, spare: Ref): (State, Place)
    requires !th.at.LeaveRegistry?
  {
    var l := th.lock; var lock := LockAt(s, l);
    match th.at
    case WantRead => (SetLock(s, l, lock.(readers := lock.readers + 1)), WantEntry)
    case WantEntry =>
      if th.part in lock.parts then
        var p := lock.parts[th.part];
        (SetPart(s, p, PartAt(s, p).(refs := PartAt(s, p).refs + 1)), WantPart(p))
      else
        (SetLock(SetPart(s, spare, PartLock(1, false, (l, th.part))), l, lock.(parts := lock.parts[th.part := spare])), WantPart(spare))
    case WantPart(p) => (SetPart(s, p, PartAt(s, p).(held := true)), InChunk(p))
    case InChunk(p) => (SetPart(s, p, PartAt(s, p).(held := false)), LeavePart(p))
    case LeavePart(p) =>
      var refs := PartAt(s, p).refs - 1;
      var r := SetPart(s, p, PartAt(s, p).(refs := refs));
      (if refs == 0 then SetLock(r, l, lock.(parts := lock.parts - {th.part})) else r, LeaveRead)
    case LeaveRead => (SetLock(s, l, lock.(readers := lock.readers - 1)), LeaveRegistry)
    case WantWrite => (SetLock(s, l, lock.(writer := true)), InExclusive)
    case InExclusive => (SetLock(s, l, lock.(writer := false)), LeaveRegistry)
  }

  datatype Step = Arrive(t: nat, key: Key, part: nat, exclusive: bool, spare: Ref) | Advance(t: nat, spare: Ref) | Leave(t: nat)

  predicate Next(s: State, s': State, step: Step) {
    match step
    case Arrive(t, key, part, exclusive, spare) =>
      && t !in s.threads && spare !in s.locks
      && var (r, l) := Acquired(s, key, spare);
         s' == r.(threads := s.threads[t := Thread(key, part, l, if exclusive then WantWrite else WantRead)])
    case Advance(t, spare) =>
      && t in s.threads && !s.threads[t].at.LeaveRegistry? && Ready(s, s.threads[t]) && spare !in s.partLocks
      && var (r, at) := Moved(s, s.threads[t], spare);
         s' == r.(threads := s.threads[t := s.threads[t].(at := at)])
    case Leave(t) =>
      && t in s.threads && s.threads[t].at.LeaveRegistry?
      && s' == Released(s, s.threads[t].key, s.threads[t].lock).(threads := s.threads - {t})
  }

  ghost predicate IsRun(run: seq<State>, steps: seq<Step>) {
    |run| == |steps| + 1 && run[0] == InitState && forall i | 0 <= i < |steps| :: Next(run[i], run[i + 1], steps[i])
  }

  // ---- Counting ----------------------------------------------------------------------------------

  datatype Role = Uses(l: Ref) | Reads(l: Ref) | Writes(l: Ref) | UsesPart(p: Ref) | HoldsPart(p: Ref)

  predicate Plays(th: Thread, role: Role) {
    match role
    case Uses(l) => th.lock == l
    case Reads(l) => th.lock == l && (th.at.WantEntry? || HasPart(th.at) || th.at.LeaveRead?)
    case Writes(l) => th.lock == l && th.at.InExclusive?
    case UsesPart(p) => HasPart(th.at) && th.at.p == p
    case HoldsPart(p) => th.at == InChunk(p)
  }

  function Cast(threads: map<nat, Thread>, role: Role): set<nat> { set t | t in threads && Plays(threads[t], role) }

  function Count(threads: map<nat, Thread>, role: Role): int { |Cast(threads, role)| }

  function One(b: bool): int { if b then 1 else 0 }

  // Only thread t differs.
  ghost predicate OnlyMoves(threads: map<nat, Thread>, threads': map<nat, Thread>, t: nat) {
    forall x | x != t :: (x in threads <==> x in threads') && (x in threads ==> threads'[x] == threads[x])
  }

  lemma CountBut(threads: map<nat, Thread>, t: nat, role: Role)
    ensures Count(threads, role) == |Cast(threads, role) - {t}| + One(t in threads && Plays(threads[t], role))
  {
    var rest := Cast(threads, role) - {t};
    assert Cast(threads, role) == if t in threads && Plays(threads[t], role) then rest + {t} else rest;
  }

  lemma Recount(threads: map<nat, Thread>, threads': map<nat, Thread>, t: nat, role: Role)
    requires OnlyMoves(threads, threads', t)
    ensures Count(threads', role) == Count(threads, role) - One(t in threads && Plays(threads[t], role))
                                     + One(t in threads' && Plays(threads'[t], role))
  {
    CountBut(threads, t, role);
    CountBut(threads', t, role);
    assert Cast(threads, role) - {t} == Cast(threads', role) - {t};
  }

  lemma Counted(threads: map<nat, Thread>, t: nat, role: Role)
    requires t in threads && Plays(threads[t], role)
    ensures Count(threads, role) >= 1
    ensures forall x | x in threads && x != t && Plays(threads[x], role) :: Count(threads, role) >= 2
  {
    assert t in Cast(threads, role);
    forall x | x in threads && x != t && Plays(threads[x], role) ensures Count(threads, role) >= 2 {
      assert {t, x} <= Cast(threads, role);
      SubsetSize({t, x}, Cast(threads, role));
    }
  }

  // ---- The invariant -----------------------------------------------------------------------------

  // Object l counts exactly its users, and a writer never coexists with a reader.
  ghost predicate LockOk(threads: map<nat, Thread>, l: Ref, lock: UploadLock) {
    && lock.refs == Count(threads, Uses(l)) && lock.readers == Count(threads, Reads(l))
    && One(lock.writer) == Count(threads, Writes(l)) && (lock.writer ==> lock.readers == 0)
  }

  ghost predicate PartOk(threads: map<nat, Thread>, p: Ref, part: PartLock) {
    part.refs == Count(threads, UsesPart(p)) && One(part.held) == Count(threads, HoldsPart(p))
  }

  // A thread's objects are the registered ones.
  ghost predicate ThreadOk(s: State, th: Thread) {
    && th.key in s.registry && s.registry[th.key] == th.lock
    && (HasPart(th.at) ==> th.part in LockAt(s, th.lock).parts && LockAt(s, th.lock).parts[th.part] == th.at.p)
  }

  ghost predicate EntryOk(s: State, k: Key) {
    k in s.registry ==> s.registry[k] in s.locks && LockAt(s, s.registry[k]).of == k && LockAt(s, s.registry[k]).refs > 0
  }

  ghost predicate PartEntryOk(s: State, l: Ref, k: nat) {
    k in LockAt(s, l).parts ==>
      var p := LockAt(s, l).parts[k]; p in s.partLocks && PartAt(s, p).of == (l, k) && PartAt(s, p).refs > 0
  }

  ghost predicate Inv(s: State) {
    && (forall k :: EntryOk(s, k)) && (forall l, k :: PartEntryOk(s, l, k))
    && (forall t | t in s.threads :: ThreadOk(s, s.threads[t]))
    && (forall l :: LockOk(s.threads, l, LockAt(s, l))) && (forall p :: PartOk(s.threads, p, PartAt(s, p)))
  }

  // ---- Every step keeps it -----------------------------------------------------------------------

  // The stepping thread's own facts.
  ghost predicate Mine(s: State, t: nat) {
    t in s.threads ==> ThreadOk(s, s.threads[t]) && EntryOk(s, s.threads[t].key) && PartEntryOk(s, s.threads[t].lock, s.threads[t].part)
  }

  lemma LockKept(s: State, s': State, step: Step, l: Ref)
    requires Next(s, s', step) && Mine(s, step.t) && LockOk(s.threads, l, LockAt(s, l))
    ensures LockOk(s'.threads, l, LockAt(s', l))
  {
    Recount(s.threads, s'.threads, step.t, Uses(l));
    Recount(s.threads, s'.threads, step.t, Reads(l));
    Recount(s.threads, s'.threads, step.t, Writes(l));
    if step.Advance? {
      AdvanceKeepsLock(s, s', step, l);
    } else {
      assert LockAt(s', l).readers == LockAt(s, l).readers && LockAt(s', l).writer == LockAt(s, l).writer;
    }
  }

  lemma AdvanceKeepsLock(s: State, s': State, step: Step, l: Ref)
    requires Next(s, s', step) && step.Advance?
    ensures var th := s.threads[step.t]; var th' := s'.threads[step.t]; var lock := LockAt(s, l); var lock' := LockAt(s', l);
            && lock'.refs == lock.refs && lock'.readers == lock.readers + One(Plays(th', Reads(l))) - One(Plays(th, Reads(l)))
            && lock'.writer == (Plays(th', Writes(l)) || (lock.writer && !Plays(th, Writes(l))))
            && th'.lock == th.lock
  {
    ReadersMoved(s, s.threads[step.t], step.spare, l);
    WriterMoved(s, s.threads[step.t], step.spare, l);
    assert s'.threads[step.t] == s.threads[step.t].(at := Moved(s, s.threads[step.t], step.spare).1);
    assert LockAt(s', l) == LockAt(Moved(s, s.threads[step.t], step.spare).0, l);
  }

  // What one advance does to the fields of object l.
  lemma ReadersMoved(s: State, th: Thread, spare: Ref, l: Ref)
    requires !th.at.LeaveRegistry?
    ensures var (r, at) := Moved(s, th, spare);
            LockAt(r, l).readers == LockAt(s, l).readers + One(Plays(th.(at := at), Reads(l))) - One(Plays(th, Reads(l)))
  {}

  lemma WriterMoved(s: State, th: Thread, spare: Ref, l: Ref)
    requires !th.at.LeaveRegistry?
    ensures var (r, at) := Moved(s, th, spare); var lock := LockAt(s, l);
            && LockAt(r, l).refs == lock.refs
            && LockAt(r, l).writer == (Plays(th.(at := at), Writes(l)) || (lock.writer && !Plays(th, Writes(l))))
  {}

  lemma PartKept(s: State, s': State, step: Step, p: Ref)
    requires Next(s, s', step) && Mine(s, step.t) && PartOk(s.threads, p, PartAt(s, p))
    ensures PartOk(s'.threads, p, PartAt(s', p))
  {
    Recount(s.threads, s'.threads, step.t, UsesPart(p));
    Recount(s.threads, s'.threads, step.t, HoldsPart(p));
  }

  lemma EntryKept(s: State, s': State, step: Step, k: Key)
    requires Next(s, s', step) && Mine(s, step.t) && EntryOk(s, k) && (step.Arrive? ==> EntryOk(s, step.key))
    requires k in s.registry ==> LockAt(s, s.registry[k]).refs == Count(s.threads, Uses(s.registry[k]))
    ensures EntryOk(s', k)
  {
    if k in s.registry { Recount(s.threads, s'.threads, step.t, Uses(s.registry[k])); }
  }

  lemma PartEntryKept(s: State, s': State, step: Step, l: Ref, k: nat)
    requires Next(s, s', step) && Mine(s, step.t) && PartEntryOk(s, l, k)
    requires step.Arrive? ==> EntryOk(s, step.key)
    ensures PartEntryOk(s', l, k)
  {
    if step.Advance? { PartEntryMoved(s, s.threads[step.t], step.spare, l, k); }
  }

  lemma PartEntryMoved(s: State, th: Thread, spare: Ref, l: Ref, k: nat)
    requires !th.at.LeaveRegistry? && spare !in s.partLocks && PartEntryOk(s, l, k) && PartEntryOk(s, th.lock, th.part) && ThreadOk(s, th)
    ensures PartEntryOk(Moved(s, th, spare).0, l, k)
  {}

  // An object is forgotten only with its last user.
  lemma OtherKept(s: State, s': State, step: Step, x: nat)
    requires Next(s, s', step) && Mine(s, step.t) && x in s.threads && x != step.t && ThreadOk(s, s.threads[x])
    requires EntryOk(s, s.threads[x].key) && (step.Arrive? ==> EntryOk(s, step.key))
    requires step.Leave? ==> var l := s.threads[step.t].lock; LockAt(s, l).refs == Count(s.threads, Uses(l))
    requires step.Advance? && s.threads[step.t].at.LeavePart? ==>
               var p := s.threads[step.t].at.p; PartAt(s, p).refs == Count(s.threads, UsesPart(p))
    ensures x in s'.threads && ThreadOk(s', s'.threads[x])
  {
    if step.Leave? {
      Counted(s.threads, step.t, Uses(s.threads[step.t].lock));
    } else if step.Advance? && s.threads[step.t].at.LeavePart? {
      Counted(s.threads, step.t, UsesPart(s.threads[step.t].at.p));
    }
  }

  lemma SelfKept(s: State, s': State, step: Step)
    requires Next(s, s', step) && Mine(s, step.t) && !step.Leave? && (step.Arrive? ==> EntryOk(s, step.key))
    ensures step.t in s'.threads && ThreadOk(s', s'.threads[step.t])
  {}

  lemma NextKeeps(s: State, s': State, step: Step)
    requires Inv(s) && Next(s, s', step)
    ensures Inv(s')
  {
    assert Mine(s, step.t);
    forall k ensures EntryOk(s', k) { 
      if k in s.registry { assert LockOk(s.threads, s.registry[k], LockAt(s, s.registry[k])); }
      EntryKept(s, s', step, k);
    }
    forall l, k ensures PartEntryOk(s', l, k) {
      PartEntryKept(s, s', step, l, k);
    }
    forall t | t in s'.threads ensures ThreadOk(s', s'.threads[t]) {
      if t == step.t { SelfKept(s, s', step); } else { OtherKept(s, s', step, t); }
    }
    forall l ensures LockOk(s'.threads, l, LockAt(s', l)) { LockKept(s, s', step, l); }
    forall p ensures PartOk(s'.threads, p, PartAt(s', p)) { PartKept(s, s', step, p); }
  }

  lemma {:induction false} RunsKeep(run: seq<State>, steps: seq<Step>)
    requires IsRun(run, steps)
    ensures Inv(run[|steps|])
  {
    if steps == [] {
      forall role ensures Count(InitState.threads, role) == 0 { assert Cast(InitState.threads, role) == {}; }
    } else {
      var n := |steps| - 1;
      RunsKeep(run[..|steps|], steps[..n]);
      assert Next(run[n], run[n + 1], steps[n]);
      NextKeeps(run[n], run[n + 1], steps[n]);
    }
  }

  // ---- What the registry promises ----------------------------------------------------------------

  /** Mutual exclusion survives lock churn: two threads inside for the same upload are both chunk
      holders, of different parts, sharing one lock object. */
  lemma MutualExclusion(run: seq<State>, steps: seq<Step>, t: nat, x: nat)
    requires IsRun(run, steps) && t != x && t in run[|steps|].threads && x in run[|steps|].threads
    requires var a := run[|steps|].threads[t]; var b := run[|steps|].threads[x]; a.key == b.key && (a.at.InChunk? || a.at.InExclusive?) && (b.at.InChunk? || b.at.InExclusive?)
    ensures var a := run[|steps|].threads[t]; var b := run[|steps|].threads[x];
            a.at.InChunk? && b.at.InChunk? && a.part != b.part && a.lock == b.lock
  {
    RunsKeep(run, steps);
    var s := run[|steps|];
    var a := s.threads[t]; var b := s.threads[x];
    assert ThreadOk(s, a) && ThreadOk(s, b) && LockOk(s.threads, a.lock, LockAt(s, a.lock));
    if a.at.InExclusive? {
      Counted(s.threads, t, Writes(a.lock));
      if b.at.InChunk? { Counted(s.threads, x, Reads(a.lock)); }
    } else if b.at.InExclusive? {
      Counted(s.threads, x, Writes(a.lock));
      Counted(s.threads, t, Reads(a.lock));
    } else if a.part == b.part {
      assert PartOk(s.threads, a.at.p, PartAt(s, a.at.p));
      Counted(s.threads, t, HoldsPart(a.at.p));
    }
  }

  /** No leak: an upload has a registry entry exactly while some thread uses it, and the entry counts those threads. */
  lemma RegistryMatchesUsers(run: seq<State>, steps: seq<Step>, key: Key)
    requires IsRun(run, steps)
    ensures var s := run[|steps|]; var users := set t | t in s.threads && s.threads[t].key == key;
            && (key in s.registry <==> users != {})
            && (key in s.registry ==> s.registry[key] in s.locks && s.locks[s.registry[key]].refs == |users|)
  {
    RunsKeep(run, steps);
    var s := run[|steps|];
    assert EntryOk(s, key);
    forall t | t in s.threads ensures ThreadOk(s, s.threads[t]) && EntryOk(s, s.threads[t].key) {}
    if key in s.registry {
      var l := s.registry[key];
      assert LockOk(s.threads, l, LockAt(s, l));
      assert Cast(s.threads, Uses(l)) == set t | t in s.threads && s.threads[t].key == key;
    }
  }

  lemma RegistryDrains(run: seq<State>, steps: seq<Step>)
    requires IsRun(run, steps) && run[|steps|].threads == map[]
    ensures run[|steps|].registry == map[]
  {
    var s := run[|steps|];
    forall key | key in s.registry ensures false { RegistryMatchesUsers(run, steps, key); }
  }

  // Go's RWMutex lets no new reader past a waiting writer.
  ghost predicate Behind(s: State, th: Thread) {
    th.at.WantRead? && exists x :: x in s.threads && s.threads[x].lock == th.lock && s.threads[x].at.WantWrite?
  }

  /** No deadlock: while any thread is present, some present thread can take its next step, even if waiting writers hold back
      new readers. */
  lemma SomeoneCanMove(run: seq<State>, steps: seq<Step>) returns (t: nat)
    requires IsRun(run, steps) && run[|steps|].threads != map[]
    ensures t in run[|steps|].threads && Ready(run[|steps|], run[|steps|].threads[t]) && !Behind(run[|steps|], run[|steps|].threads[t])
  {
    RunsKeep(run, steps);
    var s := run[|steps|];
    if x :| x in s.threads && !Waits(s.threads[x].at) {
      t := x;
    } else if x :| x in s.threads && s.threads[x].at.WantPart? {
      t := x;
      var p := s.threads[x].at.p;
      assert Cast(s.threads, HoldsPart(p)) == {};
      assert PartOk(s.threads, p, PartAt(s, p));
    } else {
      t :| t in s.threads;
      if x :| x in s.threads && s.threads[x].at.WantWrite? { t := x; }
      var l := s.threads[t].lock;
      assert Cast(s.threads, Reads(l)) == {} && Cast(s.threads, Writes(l)) == {};
      assert LockOk(s.threads, l, LockAt(s, l));
    }
  }

  predicate Waits(at: Place) { at.WantRead? || at.WantPart? || at.WantWrite? }
}
