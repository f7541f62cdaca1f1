/** The background job queue: internal/jobs/repository.go, worker.go and backoff.go. One worker claims a
    job, runs its handler and writes the outcome, repeating the write until it is acknowledged; an
    acknowledgement may be lost, the process may crash, and RecoverStuck runs beside it all. */
module Jobs {
  import opened Basics
  import opened Batches

  type Id = nat

  const MAX := 8                // DefaultMaxAttempts
  const STUCK := 15 * 60        // DefaultStuckTimeout

  datatype Status = Pending | Running | Completed | Failed
  datatype Note = Note(code: string, summary: string)
  datatype Job = Job(status: Status, attempts: nat, nextRun: int, created: int, started: Option<int>, last: Option<Note>)

  // What the worker wants to write, with the clock reading it took once.
  datatype Intent = Complete | Fail(note: Note, permanent: bool, now: int)

  // ---- Backoff -------------------------------------------------------------------------------------

  function Pow2(n: nat): nat { if n == 0 then 1 else 2 * Pow2(n - 1) }

  lemma {:induction false} Pow2Grows(a: nat, b: nat)
    requires a <= b
    ensures Pow2(a) <= Pow2(b)
  { if a < b { Pow2Grows(a, b - 1); } }

  function BackoffOf(attempt: int): int { Min(30 * Pow2(if attempt < 1 then 0 else attempt - 1), 1800) }

  /** min(30 * 2^(attempt - 1), 1800) seconds. */
  method Backoff(attempt: int) returns (delay: int)
    ensures delay == Min(30 * Pow2(if attempt < 1 then 0 else attempt - 1), 1800)
  {
    var n := if attempt < 1 then 1 else attempt;
    delay := 30;
    var i := 1;
    while i < n && delay < 1800
      invariant 1 <= i <= n && delay == Min(30 * Pow2(i - 1), 1800)
    {
      delay := delay * 2;
      if delay > 1800 { delay := 1800; }
      i := i + 1;
    }
    Pow2Grows(i - 1, n - 1);
  }

  // ---- Guarded updates -----------------------------------------------------------------------------

  function Claimed(j: Job, now: int): Job { j.(status := Running, attempts := j.attempts + 1, started := Some(now)) }

  predicate Due(j: Job, now: int) { j.status == Pending && j.nextRun <= now }

  // ORDER BY next_run_at, created_at, id
  predicate Sooner(x: Job, i: Id, y: Job, j: Id) {
    x.nextRun < y.nextRun || (x.nextRun == y.nextRun && (x.created < y.created || (x.created == y.created && i <= j)))
  }

  // The row after the write took effect; `attempts` is what the worker saw when it claimed the job.
  function Written(j: Job, attempts: nat, i: Intent): Job {
    match i
    case Complete => j.(status := Completed, started := None, last := None)
    case Fail(note, permanent, now) =>
      if permanent || attempts >= MAX then j.(status := Failed, started := None, last := Some(note))
      else j.(status := Pending, started := None, nextRun := now + BackoffOf(attempts), last := Some(note))
  }

  function Recovered(j: Job, now: int): Job {
    if j.attempts >= MAX then j.(status := Failed, started := None, last := Some(Note("JOB_STUCK_MAX_ATTEMPTS", "stuck job reached maximum attempts")))
    else j.(status := Pending, started := None, nextRun := now, last := Some(Note("JOB_STUCK_RECOVERED", "stuck job recovered")))
  }

  // reconcileComplete and reconcileFail: is this row what the write would have left?
  predicate Intended(j: Job, attempts: nat, i: Intent) {
    match i
    case Complete => j.status == Completed
    case Fail(note, permanent, now) =>
      if permanent || attempts >= MAX then j.status == Failed && j.attempts == attempts && j.last == Some(note)
      else j.status == Pending && j.attempts == attempts && j.last == Some(note) && j.nextRun == now + BackoffOf(attempts)
  }

  datatype Answer = Done | Retry | ClaimLost

  // What became of one try: it never reached the database, its answer got lost, or it was answered.
  datatype Fate = Unsent | Unheard | Heard

  class Repository {
    var jobs: map<Id, Job>

    constructor (jobs: map<Id, Job>)
      ensures this.jobs == jobs
    { this.jobs := jobs; }

    /** Claims the first due job, if any is due. */
    method Claim(now: int) returns (job: Option<Id>)
      modifies this
      ensures job.None? ==> jobs == old(jobs) && forall i | i in jobs :: !Due(jobs[i], now)
      ensures job.Some? ==> job.value in old(jobs) && Due(old(jobs)[job.value], now)
                            && jobs == old(jobs)[job.value := Claimed(old(jobs)[job.value], now)]
      ensures job.Some? ==> forall i | i in old(jobs) && Due(old(jobs)[i], now) :: Sooner(old(jobs)[job.value], job.value, old(jobs)[i], i)
      ensures job.None? ==> forall i | i in jobs && jobs[i].status == Pending :: now < jobs[i].nextRun
      ensures job.Some? ==> forall i | i in old(jobs) && old(jobs)[i].status == Pending && old(jobs)[i].nextRun <= now ::
                var x := old(jobs)[job.value]; var y := old(jobs)[i];
                x.nextRun <= y.nextRun && (x.nextRun == y.nextRun ==> x.created <= y.created && (x.created == y.created ==> job.value <= i))
      ensures job.Some? ==> var j := old(jobs)[job.value];
                            j.status == Pending && j.nextRun <= now
                            && jobs == old(jobs)[job.value := j.(status := Running, attempts := j.attempts + 1, started := Some(now))]
    {
      job := None;
      var left := jobs.Keys;
      while left != {}
        invariant left <= jobs.Keys
        invariant job.None? ==> forall i | i in jobs && i !in left :: !Due(jobs[i], now)
        invariant job.Some? ==> job.value in jobs && Due(jobs[job.value], now)
        invariant job.Some? ==> forall i | i in jobs && i !in left && Due(jobs[i], now) :: Sooner(jobs[job.value], job.value, jobs[i], i)
        decreases |left|
      {
        var id :| id in left;
        left := left - {id};
        if Due(jobs[id], now) && (job.None? || Sooner(jobs[id], id, jobs[job.value], job.value)) { job := Some(id); }
      }
      if job.Some? {
        var j := jobs[job.value];
        j := j.(status := Running, attempts := j.attempts + 1);
        jobs := jobs[job.value := j.(started := Some(now))];
      }
    }

    method Write(id: Id, attempts: nat, i: Intent) returns (rows: nat)
      modifies this
      ensures rows == if id in old(jobs) && old(jobs)[id].status == Running then 1 else 0
      ensures jobs == if rows == 1 then old(jobs)[id := Written(old(jobs)[id], attempts, i)] else old(jobs)
    {
      if id !in jobs || jobs[id].status != Running { return 0; }
      var j := jobs[id];
      j := j.(started := None);
      match i {
        case Complete => j := j.(status := Completed, last := None);
        case Fail(note, permanent, now) =>
          j := j.(last := Some(note));
          if permanent || attempts >= MAX {
            j := j.(status := Failed);
          } else {
            var delay := Backoff(attempts);
            j := j.(status := Pending, nextRun := now + delay);
          }
      }
      jobs := jobs[id := j];
      rows := 1;
    }

    // Complete and Fail: write, and if no row was RUNNING read what is there.
    method Attempt(id: Id, attempts: nat, i: Intent) returns (a: Answer)
      modifies this
      ensures id in old(jobs) && old(jobs)[id].status == Running ==>
                a == Done && jobs == old(jobs)[id := Written(old(jobs)[id], attempts, i)]
      ensures !(id in old(jobs) && old(jobs)[id].status == Running) ==>
                jobs == old(jobs) && a == if id in jobs && Intended(jobs[id], attempts, i) then Done else ClaimLost
    {
      var rows := Write(id, attempts, i);
      if rows == 1 { return Done; }
      if id !in jobs { return ClaimLost; }
      if Intended(jobs[id], attempts, i) { return Done; }
      if jobs[id].status == Running { return Retry; }
      return ClaimLost;
    }

    /** The retry loop of the worker, alone with the table: however many answers are lost, the row is written exactly once. */
    method Persist(id: Id, attempts: nat, i: Intent, fate: nat -> Fate, ghost answered: nat) returns (a: Answer)
      requires fate(answered).Heard? && (id in jobs ==> jobs[id].attempts == attempts)
      modifies this
      ensures a != Retry
      ensures jobs == if id in old(jobs) && old(jobs)[id].status == Running then old(jobs)[id := Written(old(jobs)[id], attempts, i)] else old(jobs)
      ensures a == Done <==> id in jobs && Intended(jobs[id], attempts, i)
    {
      var n := 0;
      ghost var before, after := jobs, if id in jobs && jobs[id].status == Running then jobs[id := Written(jobs[id], attempts, i)] else jobs;
      while true
        invariant n <= answered && (jobs == before || jobs == after)
        decreases answered - n
      {
        if fate(n).Unsent? { n := n + 1; continue; }
        a := Attempt(id, attempts, i);
        if fate(n).Heard? { return; }
        n := n + 1;
      }
    }

    /** Puts back the longest stuck jobs, as many as the batch allows; a job without attempts left fails instead. */
    method RecoverStuck(now: int, batch: int) returns (affected: nat)
      modifies this
      ensures affected == if batch <= 0 then 0 else Min(batch, |StuckTimes(old(jobs), now)|)
      ensures jobs == if batch <= 0 then old(jobs) else RecoveredAll(old(jobs), Batch(StuckTimes(old(jobs), now), batch), now)
      ensures forall id | id in jobs && jobs[id] != old(jobs)[id] :: FreedAt(old(jobs)[id], jobs[id], now)
      ensures forall id :: id in StuckTimes(old(jobs), now) <==>
                && id in old(jobs) && var j := old(jobs)[id]; j.status == Running && j.started.Some? && j.started.value < now - 900
    {
      if batch <= 0 { return 0; }
      var stuck := Batch(StuckTimes(jobs, now), batch);
      BatchMeaning(StuckTimes(jobs, now), batch);
      jobs := map id | id in jobs :: if id !in stuck then jobs[id]
        else if jobs[id].attempts >= MAX
        then jobs[id].(status := Failed, started := None, last := Some(Note("JOB_STUCK_MAX_ATTEMPTS", "stuck job reached maximum attempts")))
        else jobs[id].(status := Pending, started := None, nextRun := now, last := Some(Note("JOB_STUCK_RECOVERED", "stuck job recovered")));
      affected := |stuck|;
    }
  }

  // A job that ran for more than 15 minutes is due again at once, unless this was its eighth attempt.
  predicate FreedAt(j: Job, j': Job, now: int) {
    && j.status == Running && j.started.Some? && j.started.value < now - 900 && j'.started.None? && j'.attempts == j.attempts
    && if j.attempts >= 8 then j'.status == Failed && j'.nextRun == j.nextRun else j'.status == Pending && j'.nextRun == now
  }

  // A failed attempt: the last one fails the job, any other is tried again after 30 seconds, 60, 120, ... and at most 30 minutes.
  lemma WrittenMeaning(j: Job, attempts: nat, i: Intent)
    ensures var j' := Written(j, attempts, i);
            && j'.attempts == j.attempts && j'.created == j.created && j'.started.None?
            && match i
               case Complete => j'.status == Completed && j'.last.None? && j'.nextRun == j.nextRun
               case Fail(note, permanent, now) =>
                 && j'.last == Some(note)
                 && if permanent || attempts >= 8 then j'.status == Failed && j'.nextRun == j.nextRun
                    else j'.status == Pending && j'.nextRun == now + BackoffOf(attempts)
    ensures BackoffOf(0) == 30 && BackoffOf(1) == 30 && BackoffOf(2) == 60 && BackoffOf(6) == 960 && forall a | a >= 7 :: BackoffOf(a) == 1800
  {
    assert Pow2(5) == 32 && Pow2(6) == 64;
    forall a | a >= 7 ensures BackoffOf(a) == 1800 { Pow2Grows(6, a - 1); }
  }

  // "Already written" is answered exactly for a row in the state that the write leaves, attempts and note included.
  lemma IntendedMeaning(j: Job, attempts: nat, i: Intent)
    ensures Intended(j, attempts, i) <==>
              match i
              case Complete => j.status == Completed
              case Fail(note, permanent, now) =>
                && j.attempts == attempts && j.last == Some(note)
                && if permanent || attempts >= 8 then j.status == Failed else j.status == Pending && j.nextRun == now + BackoffOf(attempts)
  {}

  function StuckTimes(jobs: map<Id, Job>, now: int): map<Id, int> {
    map id | id in jobs && IsStuck(jobs[id], now) :: jobs[id].started.value
  }

  function RecoveredAll(jobs: map<Id, Job>, ids: set<Id>, now: int): map<Id, Job> {
    map id | id in jobs :: if id in ids && IsStuck(jobs[id], now) then Recovered(jobs[id], now) else jobs[id]
  }

  /** A recovery leaves no stuck job that started before one it recovered, and none at all if the batch is large enough. */
  lemma RecoversLongestStuck(jobs: map<Id, Job>, now: int, n: nat)
    ensures var after := RecoveredAll(jobs, Batch(StuckTimes(jobs, now), n), now);
            && (forall i, j | i in jobs && after[i] != jobs[i] && j in after && IsStuck(after[j], now) :: jobs[i].started.value <= jobs[j].started.value)
            && |StuckTimes(after, now)| == if |StuckTimes(jobs, now)| <= n then 0 else |StuckTimes(jobs, now)| - n
  {
    var times := StuckTimes(jobs, now); var batch := Batch(times, n);
    BatchMeaning(times, n);
    LeftStuck(jobs, batch, now);
    assert |times| == |times.Keys| && |times - batch| == |(times - batch).Keys| && (times - batch).Keys == times.Keys - batch;
    forall i, j | i in jobs && RecoveredAll(jobs, batch, now)[i] != jobs[i] && j in times - batch ensures i in batch && i in times {}
  }

  lemma LeftStuck(jobs: map<Id, Job>, batch: set<Id>, now: int)
    ensures StuckTimes(RecoveredAll(jobs, batch, now), now) == StuckTimes(jobs, now) - batch
    ensures forall j | j in jobs && IsStuck(RecoveredAll(jobs, batch, now)[j], now) :: j in StuckTimes(jobs, now) - batch
  {}

  predicate IsStuck(j: Job, now: int) { j.status == Running && j.started.Some? && j.started.value < now - STUCK }

  // ---- The queue as a whole ------------------------------------------------------------------------

  // The one worker. `wrote` is history: a try of this write took effect.
  datatype Worker =
    | Idle
    | Handling(id: Id, attempts: nat)
    | Writing(id: Id, attempts: nat, intent: Intent, wrote: bool)
    | Reading(id: Id, attempts: nat, intent: Intent, wrote: bool)    // the write matched no row

  // `claims` is history: how often each job was claimed.
  datatype State = State(jobs: map<Id, Job>, claims: map<Id, nat>, worker: Worker)

  datatype Step =
    | Enqueue(id: Id, at: int) | Claim(id: Id, now: int, heard: bool) | Handle(intent: Intent)
    | Try(fate: Fate) | Read(heard: bool) | Recover(now: int, batch: set<Id>) | Stop

  ghost predicate Next(s: State, s': State, step: Step) {
    match step
    case Enqueue(id, at) =>
      id !in s.jobs && s' == s.(jobs := s.jobs[id := Job(Pending, 0, at, at, None, None)], claims := s.claims[id := 0])
    case Claim(id, now, heard) =>
      && s.worker.Idle? && id in s.jobs && id in s.claims && Due(s.jobs[id], now)
      && s' == State(s.jobs[id := Claimed(s.jobs[id], now)], s.claims[id := s.claims[id] + 1],
                     if heard then Handling(id, s.jobs[id].attempts + 1) else Idle)
    case Handle(intent) => s.worker.Handling? && s' == s.(worker := Writing(s.worker.id, s.worker.attempts, intent, false))
    case Try(fate) =>
      && s.worker.Writing?
      && var w := s.worker; var hit := !fate.Unsent? && w.id in s.jobs && s.jobs[w.id].status == Running;
         s' == s.(jobs := if hit then s.jobs[w.id := Written(s.jobs[w.id], w.attempts, w.intent)] else s.jobs,
                  worker := if !fate.Heard? then Writing(w.id, w.attempts, w.intent, w.wrote || hit) else if hit then Idle
                            else Reading(w.id, w.attempts, w.intent, w.wrote))
    case Read(heard) =>   // Done and ClaimLost end the write; RUNNING, or a lost answer, starts it again
      && s.worker.Reading?
      && var w := s.worker;
         s' == s.(worker := if heard && AnswerAt(s) != Retry then Idle else Writing(w.id, w.attempts, w.intent, w.wrote))
    case Recover(now, batch) =>   // rows that others hold locked are passed over
      s' == s.(jobs := RecoveredAll(s.jobs, batch, now))
    case Stop => s' == s.(worker := Idle)   // crash or shutdown
  }

  // What reconcileComplete or reconcileFail answers.
  function AnswerAt(s: State): Answer
    requires s.worker.Reading?
  {
    var w := s.worker;
    if w.id in s.jobs && Intended(s.jobs[w.id], w.attempts, w.intent) then Done
    else if w.id in s.jobs && s.jobs[w.id].status == Running then Retry else ClaimLost
  }

  ghost predicate IsRun(run: seq<State>, steps: seq<Step>) {
    && |run| == |steps| + 1 && run[0] == State(map[], map[], Idle)
    && forall i | 0 <= i < |steps| :: Next(run[i], run[i + 1], steps[i])
  }

  predicate JobOk(j: Job, claims: nat) {
    && j.attempts == claims <= MAX && (j.status == Pending ==> j.attempts < MAX)
    && (j.status == Running ==> j.attempts >= 1) && (j.status == Running <==> j.started.Some?)
  }

  ghost predicate Inv(s: State) {
    && s.claims.Keys == s.jobs.Keys && (forall id | id in s.jobs :: JobOk(s.jobs[id], s.claims[id]))
    && (!s.worker.Idle? ==>
          var w := s.worker;
          && w.id in s.jobs && s.jobs[w.id].attempts == w.attempts && w.attempts >= 1
          && (w.Reading? ==> s.jobs[w.id].status != Running)
          && (!w.Handling? && w.wrote ==> s.jobs[w.id].status != Running && Intended(s.jobs[w.id], w.attempts, w.intent)))
  }

  lemma NextKeeps(s: State, s': State, step: Step)
    requires Inv(s) && Next(s, s', step)
    ensures Inv(s')
  {
    if step.Recover? { RecoverKeeps(s, s', step); }
    else if step.Claim? { ClaimKeeps(s, s', step); }
    else if step.Try? { TryKeeps(s, s', step); }
  }

  lemma RecoverKeeps(s: State, s': State, step: Step)
    requires Inv(s) && Next(s, s', step) && step.Recover?
    ensures Inv(s')
  {}

  lemma ClaimKeeps(s: State, s': State, step: Step)
    requires Inv(s) && Next(s, s', step) && step.Claim?
    ensures Inv(s')
  {}

  lemma TryKeeps(s: State, s': State, step: Step)
    requires Inv(s) && Next(s, s', step) && step.Try?
    ensures Inv(s')
  {}

  lemma {:induction false} RunsKeep(run: seq<State>, steps: seq<Step>)
    requires IsRun(run, steps)
    ensures Inv(run[|steps|])
  {
    if steps != [] {
      var n := |steps| - 1;
      RunsKeep(run[..|steps|], steps[..n]);
      assert Next(run[n], run[n + 1], steps[n]);
      NextKeeps(run[n], run[n + 1], steps[n]);
    }
  }

  /** A PENDING job has attempts left, a RUNNING one is at its first to eighth, and no job is ever claimed more than
      eight times. */
  lemma AttemptsBounded(run: seq<State>, steps: seq<Step>, id: Id)
    requires IsRun(run, steps) && id in run[|steps|].jobs
    ensures var j := run[|steps|].jobs[id];
            && (j.status == Pending ==> j.attempts < MAX) && (j.status == Running ==> 1 <= j.attempts <= MAX)
            && id in run[|steps|].claims && run[|steps|].claims[id] == j.attempts <= MAX
  {
    RunsKeep(run, steps);
  }

  predicate Claims(step: Step, id: Id) { step.Claim? && step.id == id }

  /** A waiting job is left alone until somebody claims it, and that is never before its time: after a failed attempt, not
      before the backoff is over. */
  lemma {:induction false} WaitsForItsTime(run: seq<State>, steps: seq<Step>, i: nat, j: nat, id: Id)
    requires IsRun(run, steps) && i <= j < |steps| && id in run[i].jobs && run[i].jobs[id].status == Pending
    requires forall k | i <= k < j :: !Claims(steps[k], id)
    ensures id in run[j].jobs && run[j].jobs[id] == run[i].jobs[id]
    ensures Claims(steps[j], id) ==> steps[j].now >= run[i].jobs[id].nextRun
    decreases j
  {
    if i < j {
      WaitsForItsTime(run, steps, i, j - 1, id);
      assert Next(run[j - 1], run[j], steps[j - 1]);
    }
    assert Next(run[j], run[j + 1], steps[j]);
  }

  /** Once a try of a write took effect, no repetition of it changes any row again, the row still is what the write
      intended, and asking about it answers that the write is done. */
  lemma WritesTakeEffectOnce(run: seq<State>, steps: seq<Step>, s': State, step: Step)
    requires IsRun(run, steps) && (run[|steps|].worker.Writing? || run[|steps|].worker.Reading?) && run[|steps|].worker.wrote
    requires Next(run[|steps|], s', step) && (step.Try? || step.Read?)
    ensures var s := run[|steps|]; var w := s.worker;
            && s'.jobs == s.jobs && w.id in s.jobs && Intended(s.jobs[w.id], w.attempts, w.intent) && (w.Reading? ==> AnswerAt(s) == Done)
  {
    RunsKeep(run, steps);
  }

  /** A write that matched no row never finds the job RUNNING when it looks: with one worker the "still running" answer
      does not occur, and a lost claim is reported only when this write never took effect. */
  lemma LostClaimsAreLost(run: seq<State>, steps: seq<Step>)
    requires IsRun(run, steps) && run[|steps|].worker.Reading?
    ensures var s := run[|steps|];
            s.worker.id in s.jobs && s.jobs[s.worker.id].status != Running && AnswerAt(s) != Retry && (AnswerAt(s) == ClaimLost ==> !s.worker.wrote)
  {
    RunsKeep(run, steps);
  }
}
