/** The browser's upload scheduler: web/src/features/uploads/scheduler.ts. Promise callbacks run one at a
    time, so each public method and each completion is one call. */
module UploadScheduler {
  import opened Sums

  type File = nat

  datatype Task = Task(file: File, id: nat)

  // The tasks of one file, in order.
  function OfFile(tasks: seq<Task>, f: File): seq<Task> {
    if tasks == [] then []
    else OfFile(tasks[..|tasks| - 1], f) + if tasks[|tasks| - 1].file == f then [tasks[|tasks| - 1]] else []
  }

  function Without(tasks: seq<Task>, f: File): seq<Task> {
    if tasks == [] then []
    else Without(tasks[..|tasks| - 1], f) + if tasks[|tasks| - 1].file == f then [] else [tasks[|tasks| - 1]]
  }

  class Scheduler {
    var pending: seq<Task>
    var activeGlobal: nat
    var activeByFile: map<File, nat>
    const globalLimit: nat
    const perFileLimit: nat

    // History: every task enqueued, started and removed, in order, and the files of those that settled.
    ghost var enqueued: seq<Task>
    ghost var started: seq<Task>
    ghost var removed: seq<Task>
    ghost var finished: multiset<File>

    function ActiveFor(f: File): nat
      reads this
    { Count(activeByFile, f) }

    predicate Startable(t: Task)
      reads this
    { ActiveFor(t.file) < perFileLimit }

    /** The counts are those of the tasks started and not settled, both limits hold, and every task enqueued is pending,
        started or removed, exactly once. */
    ghost predicate Valid()
      reads this
    {
      && activeGlobal == Total(activeByFile) && activeGlobal <= globalLimit
      && (forall f | f in activeByFile :: 0 < activeByFile[f] <= perFileLimit)
      && multiset(enqueued) == multiset(pending) + multiset(started) + multiset(removed)
      && activeGlobal + |finished| == |started| && Balanced(activeByFile, finished, started)
    }

    // Nothing that could run is left waiting.
    ghost predicate Settled()
      reads this
    { activeGlobal == globalLimit || forall t | t in pending :: !Startable(t) }

    constructor (globalLimit: nat := 4, perFileLimit: nat := 2)
      ensures Valid() && Settled() && pending == [] && enqueued == [] && started == [] && removed == [] && finished == multiset{}
      ensures this.globalLimit == globalLimit && this.perFileLimit == perFileLimit
    {
      this.globalLimit, this.perFileLimit := globalLimit, perFileLimit;
      pending, activeGlobal, activeByFile := [], 0, map[];
      enqueued, started, removed, finished := [], [], [], multiset{};
    }

    method Enqueue(t: Task)
      requires Valid() && Settled()
      modifies this
      ensures Valid() && Settled() && enqueued == old(enqueued) + [t] && removed == old(removed) && finished == old(finished)
      ensures Drained(old(pending) + [t], old(started))
      ensures activeGlobal == old(activeGlobal) + |started| - |old(started)|
      ensures forall g :: ActiveFor(g) == old(ActiveFor(g)) + |OfFile(started[|old(started)|..], g)|
    {
      pending := pending + [t];
      enqueued := enqueued + [t];
      Drain();
      NewSlots(old(activeByFile), activeByFile, finished, old(started), started);
    }

    method Remove(f: File)
      requires Valid() && Settled()
      modifies this
      ensures Valid() && Settled() && enqueued == old(enqueued) && started == old(started) && activeByFile == old(activeByFile)
      ensures finished == old(finished) && activeGlobal == old(activeGlobal)
      ensures OfFile(pending, f) == [] && removed == old(removed) + OfFile(old(pending), f)
      ensures forall g | g != f :: OfFile(pending, g) == OfFile(old(pending), g)
    {
      removed := removed + OfFile(pending, f);
      Partition(pending, f);
      WithoutMembers(pending, f);
      forall g ensures OfFile(Without(pending, f), g) == if g == f then [] else OfFile(pending, g) { WithoutOrder(pending, f, g); }
      pending := Without(pending, f);
    }

    // From `queue` and `before`, the first tasks of each file were started, in order, and the rest are still pending.
    ghost predicate Drained(queue: seq<Task>, before: seq<Task>)
      reads this
    {
      before <= started && Splits(queue, started[|before|..], pending)
    }

    method FindIndex() returns (index: int)
      ensures index < 0 ==> forall t | t in pending :: !Startable(t)
      ensures index >= 0 ==> index < |pending| && Startable(pending[index]) && forall i | 0 <= i < index :: !Startable(pending[i])
    {
      for i := 0 to |pending|
        invariant forall j | 0 <= j < i :: !Startable(pending[j])
      {
        if Startable(pending[i]) { return i; }
      }
      index := -1;
    }

    method Drain()
      requires Valid()
      modifies this
      ensures Valid() && Settled() && enqueued == old(enqueued) && removed == old(removed) && finished == old(finished)
      ensures Drained(old(pending), old(started))
    {
      ghost var queue, before := pending, started;
      assert started[|before|..] == [];
      while activeGlobal < globalLimit
        invariant Valid() && enqueued == old(enqueued) && removed == old(removed) && finished == old(finished) && Drained(queue, before)
        decreases |pending|
      {
        var index := FindIndex();
        if index < 0 { return; }
        StartKeepsOrder(queue, started[|before|..], pending, index);
        Longer(started, before, pending[index]);
        Start(index);
      }
    }

    // Takes a waiting task out and runs it.
    method Start(index: nat)
      requires Valid() && activeGlobal < globalLimit && index < |pending| && Startable(pending[index])
      modifies this
      ensures Valid() && enqueued == old(enqueued) && removed == old(removed) && finished == old(finished)
      ensures pending == old(pending[..index] + pending[index + 1..]) && started == old(started) + [old(pending)[index]]
    {
      var task := pending[index];
      CountUp(activeByFile, task.file);
      TakeOut(enqueued, pending, started, removed, index);
      pending := pending[..index] + pending[index + 1..];
      BalancedStart(activeByFile, finished, started, task);
      started := started + [task];
      activeGlobal := activeGlobal + 1;
      activeByFile := activeByFile[task.file := ActiveFor(task.file) + 1];
    }

    /** A started task settled, either way: its slot is free, for its file and in all, and taken again only by a task that is
        started now. */
    method Finish(f: File)
      requires Valid() && Settled() && ActiveFor(f) > 0
      modifies this
      ensures Valid() && Settled() && enqueued == old(enqueued) && removed == old(removed)
      ensures Drained(old(pending), old(started)) && finished == old(finished) + multiset{f}
      ensures activeGlobal == old(activeGlobal) - 1 + |started| - |old(started)|
      ensures forall g :: ActiveFor(g) == old(ActiveFor(g)) - (if g == f then 1 else 0) + |OfFile(started[|old(started)|..], g)|
    {
      Release(f);
      ghost var released := activeByFile;
      Drain();
      NewSlots(released, activeByFile, finished, old(started), started);
    }

    method Release(f: File)
      requires Valid() && ActiveFor(f) > 0
      modifies this`activeGlobal, this`activeByFile, this`finished
      ensures Valid() && finished == old(finished) + multiset{f} && activeGlobal == old(activeGlobal) - 1
      ensures forall g :: ActiveFor(g) == old(ActiveFor(g)) - if g == f then 1 else 0
    {
      TotalRemove(activeByFile, f);
      activeGlobal := activeGlobal - 1;
      var remaining := ActiveFor(f) - 1;
      BalancedFinish(activeByFile, finished, started, f);
      if remaining > 0 {
        CountDown(activeByFile, f);
        activeByFile := activeByFile[f := remaining];
      } else {
        activeByFile := activeByFile - {f};
      }
      finished := finished + multiset{f};
    }
  }

  // ---- Slots ---------------------------------------------------------------------------------------

  function Count(active: map<File, nat>, f: File): nat { if f in active then active[f] else 0 }

  // Active are the tasks started and not settled.
  ghost predicate Balanced(active: map<File, nat>, finished: multiset<File>, started: seq<Task>) {
    BalancedFacts(active, finished, started) <==> true   // one fact for the methods to carry
  }

  ghost predicate BalancedFacts(active: map<File, nat>, finished: multiset<File>, started: seq<Task>) {
    forall f :: Count(active, f) + finished[f] == |OfFile(started, f)|
  }

  lemma BalancedStart(active: map<File, nat>, finished: multiset<File>, started: seq<Task>, task: Task)
    requires Balanced(active, finished, started)
    ensures Balanced(active[task.file := Count(active, task.file) + 1], finished, started + [task])
  {
    Starts(started, task);
  }

  lemma BalancedFinish(active: map<File, nat>, finished: multiset<File>, started: seq<Task>, f: File)
    requires Balanced(active, finished, started) && f in active && active[f] > 0
    ensures Balanced(if active[f] > 1 then active[f := active[f] - 1] else active - {f}, finished + multiset{f}, started)
  {}

  lemma NewSlots(released: map<File, nat>, after: map<File, nat>, finished: multiset<File>, from: seq<Task>, to: seq<Task>)
    requires Balanced(released, finished, from) && Balanced(after, finished, to) && from <= to
    ensures forall g :: Count(after, g) == Count(released, g) + |OfFile(to[|from|..], g)|
  {
    NewlyStarted(from, to);
  }

  // ---- Per-file order ------------------------------------------------------------------------------

  // A queue was split into the tasks started and those left, keeping the order within every file.
  ghost predicate Splits(queue: seq<Task>, newly: seq<Task>, left: seq<Task>) {
    forall f :: OfFile(queue, f) == OfFile(newly, f) + OfFile(left, f)
  }

  lemma Starts(started: seq<Task>, task: Task)
    ensures forall g :: |OfFile(started + [task], g)| == |OfFile(started, g)| + if g == task.file then 1 else 0
  {
    forall g ensures |OfFile(started + [task], g)| == |OfFile(started, g)| + if g == task.file then 1 else 0 {
      OfFileAppend(started, [task], g);
      OneOfFile(task, g);
    }
  }

  lemma NewlyStarted(before: seq<Task>, after: seq<Task>)
    requires before <= after
    ensures forall g :: |OfFile(after, g)| == |OfFile(before, g)| + |OfFile(after[|before|..], g)|
  {
    forall g ensures |OfFile(after, g)| == |OfFile(before, g)| + |OfFile(after[|before|..], g)| {
      assert after == before + after[|before|..];
      OfFileAppend(before, after[|before|..], g);
    }
  }

  lemma Longer(started: seq<Task>, before: seq<Task>, task: Task)
    requires before <= started
    ensures (started + [task])[|before|..] == started[|before|..] + [task]
  {}

  lemma {:induction false} OfFileAppend(a: seq<Task>, b: seq<Task>, f: File)
    ensures OfFile(a + b, f) == OfFile(a, f) + OfFile(b, f)
  {
    if b == [] {
      assert a + b == a;
    } else {
      var n := |b| - 1;
      OfFileAppend(a, b[..n], f);
      assert (a + b)[..|a + b| - 1] == a + b[..n] && (a + b)[|a + b| - 1] == b[n];
    }
  }

  lemma {:induction false} NoneOfFile(a: seq<Task>, f: File)
    requires forall i | 0 <= i < |a| :: a[i].file != f
    ensures OfFile(a, f) == []
  {
    if a != [] { NoneOfFile(a[..|a| - 1], f); }
  }

  // Starting the first waiting task of its file keeps every file's order.
  lemma StartKeepsOrder(queue: seq<Task>, newly: seq<Task>, left: seq<Task>, index: nat)
    requires Splits(queue, newly, left) && index < |left| && forall i | 0 <= i < index :: left[i].file != left[index].file
    ensures Splits(queue, newly + [left[index]], left[..index] + left[index + 1..])
  {
    var head, tail := left[..index], left[index + 1..];
    assert left == head + ([left[index]] + tail);
    forall f ensures OfFile(queue, f) == OfFile(newly + [left[index]], f) + OfFile(head + tail, f) {
      MoveOne(newly, head, left[index], tail, f);
    }
  }

  // Starting a waiting task loses none and repeats none.
  lemma TakeOut(enqueued: seq<Task>, tasks: seq<Task>, started: seq<Task>, removed: seq<Task>, index: nat)
    requires index < |tasks| && multiset(enqueued) == multiset(tasks) + multiset(started) + multiset(removed)
    ensures multiset(enqueued) == multiset(tasks[..index] + tasks[index + 1..]) + multiset(started + [tasks[index]]) + multiset(removed)
  {
    assert tasks == tasks[..index] + ([tasks[index]] + tasks[index + 1..]);
  }

  lemma MoveOne(newly: seq<Task>, head: seq<Task>, task: Task, tail: seq<Task>, f: File)
    requires forall i | 0 <= i < |head| :: head[i].file != task.file
    ensures OfFile(newly + [task], f) + OfFile(head + tail, f) == OfFile(newly, f) + OfFile(head + ([task] + tail), f)
  {
    OfFileAppend(newly, [task], f);
    OfFileAppend(head, tail, f);
    OfFileAppend(head, [task] + tail, f);
    OfFileAppend([task], tail, f);
    OneOfFile(task, f);
    if f == task.file { NoneOfFile(head, f); }
    Regroup(OfFile(newly, f), OfFile([task], f), OfFile(head, f), OfFile(tail, f));
  }

  lemma Regroup(n: seq<Task>, t: seq<Task>, h: seq<Task>, l: seq<Task>)
    requires h == [] || t == []
    ensures n + t + (h + l) == n + (h + (t + l))
  {
    if h == [] { assert h + l == l && h + (t + l) == t + l; } else { assert t + l == l && n + t == n; }
  }

  lemma OneOfFile(task: Task, f: File)
    ensures OfFile([task], f) == if f == task.file then [task] else []
  {
    assert [task][..0] == [];
  }

  lemma {:induction false} WithoutOrder(tasks: seq<Task>, f: File, g: File)
    ensures OfFile(Without(tasks, f), g) == if g == f then [] else OfFile(tasks, g)
  {
    if tasks != [] {
      var n := |tasks| - 1;
      WithoutOrder(tasks[..n], f, g);
      if tasks[n].file != f {
        OfFileAppend(Without(tasks[..n], f), [tasks[n]], g);
        OneOfFile(tasks[n], g);
      } else {
        assert Without(tasks, f) == Without(tasks[..n], f);
      }
    }
  }

  lemma {:induction false} Partition(tasks: seq<Task>, f: File)
    ensures multiset(tasks) == multiset(Without(tasks, f)) + multiset(OfFile(tasks, f))
  {
    if tasks != [] {
      Partition(tasks[..|tasks| - 1], f);
      assert tasks == tasks[..|tasks| - 1] + [tasks[|tasks| - 1]];
    }
  }

  lemma {:induction false} WithoutMembers(tasks: seq<Task>, f: File)
    ensures forall t | t in Without(tasks, f) :: t in tasks
  {
    if tasks != [] { WithoutMembers(tasks[..|tasks| - 1], f); }
  }

  lemma CountUp(counts: map<File, nat>, f: File)
    ensures Total(counts[f := (if f in counts then counts[f] else 0) + 1]) == Total(counts) + 1
  {
    if f in counts {
      TotalRemove(counts, f);
      TotalInsert(counts - {f}, f, counts[f] + 1);
      assert (counts - {f})[f := counts[f] + 1] == counts[f := counts[f] + 1];
    } else {
      TotalInsert(counts, f, 1);
    }
  }

  lemma CountDown(counts: map<File, nat>, f: File)
    requires f in counts && counts[f] > 0
    ensures Total(counts[f := counts[f] - 1]) == Total(counts) - 1
  {
    TotalRemove(counts, f);
    TotalInsert(counts - {f}, f, counts[f] - 1);
    assert (counts - {f})[f := counts[f] - 1] == counts[f := counts[f] - 1];
  }
}
