/** Second-factor enrollment and login: internal/auth/totp_service.go over the guarded updates of
    sql/generated/totp.sql.go. A request reads a snapshot, checks the code against it, and later writes in
    one transaction; any number of requests are in flight together. */
module TotpLogin {
  import opened Basics
  import opened Totp
  import Tokens

  type Id = nat

  const MaxChallengeAttempts := 5
  const MaxFailedAttempts := 5
  const Lockout := 5 * 60

  // `secret` is the decrypted secret, `seal` the stored nonce, ciphertext and version; `epoch` is history:
  // which start of enrollment wrote this row.
  datatype Enrollment = Enrollment(secret: Bytes, seal: nat, epoch: Id, enabled: bool, last: Option<nat>, failed: nat, locked: Option<int>)
  datatype Challenge = Challenge(user: Id, expires: int, attempts: nat, consumed: Option<int>)
  datatype Session = Session(challenge: Id, user: Id, epoch: Id, step: nat)

  datatype Tables = Tables(enrollments: map<Id, Enrollment>, challenges: map<Id, Challenge>, sessions: seq<Session>)

  // ---- Guarded updates -----------------------------------------------------------------------------

  predicate Later(e: Enrollment, step: nat) { e.last.None? || e.last.value < step }

  predicate Claimable(t: Tables, user: Id, step: nat) {
    user in t.enrollments && t.enrollments[user].enabled && Later(t.enrollments[user], step)
  }

  function Used(e: Enrollment, step: nat): Enrollment { e.(last := Some(step), failed := 0, locked := None) }

  predicate Consumable(t: Tables, challenge: Id, user: Id, now: int) {
    && challenge in t.challenges && t.challenges[challenge].user == user
    && t.challenges[challenge].consumed.None? && t.challenges[challenge].expires > now
  }

  // The whole login transaction: all of it, or nothing.
  function LoggedIn(t: Tables, challenge: Id, user: Id, step: nat, now: int): Tables {
    if Claimable(t, user, step) && Consumable(t, challenge, user, now) then
      Tables(t.enrollments[user := Used(t.enrollments[user], step)],
             t.challenges[challenge := t.challenges[challenge].(consumed := Some(now))],
             t.sessions + [Session(challenge, user, t.enrollments[user].epoch, step)])
    else t
  }

  predicate Confirmable(t: Tables, user: Id, seal: nat) {
    user in t.enrollments && !t.enrollments[user].enabled && t.enrollments[user].seal == seal
  }

  function Confirmed(t: Tables, user: Id, seal: nat, step: nat): Tables {
    if Confirmable(t, user, seal) then t.(enrollments := t.enrollments[user := Used(t.enrollments[user], step).(enabled := true)]) else t
  }

  function Started(t: Tables, user: Id, secret: Bytes, seal: nat, epoch: Id): Tables {
    if user in t.enrollments && t.enrollments[user].enabled then t
    else t.(enrollments := t.enrollments[user := Enrollment(secret, seal, epoch, false, None, 0, None)])
  }

  function FailureRecorded(t: Tables, user: Id, now: int): Tables {
    if user !in t.enrollments then t else
      var e := t.enrollments[user];
      t.(enrollments := t.enrollments[user := e.(failed := e.failed + 1,
           locked := if e.failed + 1 >= MaxFailedAttempts then Some(now + Lockout) else e.locked)])
  }

  datatype LoginError = CodeInvalid | ChallengeExpired

  class Repository {
    var enrollments: map<Id, Enrollment>
    var challenges: map<Id, Challenge>
    var sessions: seq<Session>

    constructor (t: Tables)
      ensures View() == t
    { enrollments, challenges, sessions := t.enrollments, t.challenges, t.sessions; }

    function View(): Tables
      reads this
    { Tables(enrollments, challenges, sessions) }

    method ClaimTOTPStep(user: Id, step: nat) returns (rows: nat)
      modifies this`enrollments
      ensures rows == if Claimable(old(View()), user, step) then 1 else 0
      ensures enrollments == if rows == 1 then old(enrollments)[user := Used(old(enrollments)[user], step)] else old(enrollments)
    {
      if user !in enrollments || !enrollments[user].enabled { return 0; }
      var e := enrollments[user];
      if e.last.Some? && e.last.value >= step { return 0; }
      enrollments := enrollments[user := e.(last := Some(step), failed := 0, locked := None)];
      rows := 1;
    }

    method ConsumeTOTPChallenge(challenge: Id, user: Id, now: int) returns (rows: nat)
      modifies this`challenges
      ensures rows == if Consumable(old(View()), challenge, user, now) then 1 else 0
      ensures challenges == if rows == 1 then old(challenges)[challenge := old(challenges)[challenge].(consumed := Some(now))] else old(challenges)
    {
      if challenge !in challenges { return 0; }
      var c := challenges[challenge];
      if c.user != user || c.consumed.Some? || c.expires <= now { return 0; }
      challenges := challenges[challenge := c.(consumed := Some(now))];
      rows := 1;
    }

    method CompleteTOTPLogin(challenge: Id, user: Id, step: nat, now: int) returns (e: Option<LoginError>)
      modifies this
      ensures View() == LoggedIn(old(View()), challenge, user, step, now)
      ensures e == if !Claimable(old(View()), user, step) then Some(CodeInvalid)
                   else if !Consumable(old(View()), challenge, user, now) then Some(ChallengeExpired) else None
    {
      var before := enrollments;
      var claimed := ClaimTOTPStep(user, step);
      if claimed != 1 { return Some(CodeInvalid); }
      var consumed := ConsumeTOTPChallenge(challenge, user, now);
      if consumed != 1 {
        enrollments := before;   // rollback
        return Some(ChallengeExpired);
      }
      sessions := sessions + [Session(challenge, user, enrollments[user].epoch, step)];
      e := None;
    }

    method ConfirmTOTPEnrollment(user: Id, seal: nat, step: nat) returns (confirmed: bool)
      modifies this
      ensures View() == Confirmed(old(View()), user, seal, step) && confirmed == Confirmable(old(View()), user, seal)
    {
      if user !in enrollments { return false; }
      var e := enrollments[user];
      if e.enabled || e.seal != seal { return false; }
      enrollments := enrollments[user := e.(enabled := true, last := Some(step), failed := 0, locked := None)];
      confirmed := true;
    }
  }

  // ---- Requests in flight --------------------------------------------------------------------------

  // `code` and `last` are history: what the step was validated with, against which secret.
  datatype Flight =
    | Login(challenge: Id, user: Id, step: nat, now: int)
    | Confirm(user: Id, secret: Bytes, seal: nat, step: nat, now: int, code: string)
    | Disable(user: Id)

  // `accepted` is history: per enrollment epoch, every accepted step in order. `next` draws epochs and seals.
  datatype State = State(t: Tables, flights: map<nat, Flight>, accepted: map<Id, seq<nat>>, next: Id)

  datatype Step =
    | Start(user: Id, secret: Bytes)                       // StartTOTPEnrollment, writing
    | BeginConfirm(f: nat, user: Id, code: string, step: nat, now: int) | EndConfirm(f: nat)
    | Challenge_(id: Id, user: Id, expires: int)           // a password was accepted
    | BeginLogin(f: nat, challenge: Id, code: string, step: nat, now: int) | EndLogin(f: nat)
    | BeginDisable(f: nat, user: Id, code: string, step: nat, now: int) | EndDisable(f: nat)
    | Failure(user: Id, now: int) | Bump(challenge: Id) | CleanUp(gone: set<Id>) | Abandon(f: nat)

  predicate Unlocked(e: Enrollment, now: int) { e.locked.None? || e.locked.value <= now }

  function LastOf(e: Enrollment): int { if e.last.Some? then e.last.value else -1 }

  // ValidateTOTP returned this step.
  ghost predicate Validated(mac: Mac, secret: Bytes, code: string, now: int, last: int, step: nat) {
    Accepts(mac, secret, code, now, last, step) && forall s: nat | s < step :: !Accepts(mac, secret, code, now, last, s)
  }

  function Append(accepted: map<Id, seq<nat>>, epoch: Id, step: nat): map<Id, seq<nat>> {
    accepted[epoch := (if epoch in accepted then accepted[epoch] else []) + [step]]
  }

  ghost predicate Next(mac: Mac, s: State, s': State, step: Step) {
    var t := s.t;
    match step
    case Start(user, secret) => s' == s.(t := Started(t, user, secret, s.next, s.next), next := s.next + 1)
    case BeginConfirm(f, user, code, step, now) =>
      && f !in s.flights && user in t.enrollments && var e := t.enrollments[user];
      && !e.enabled && Unlocked(e, now) && Validated(mac, e.secret, code, now, -1, step)
      && s' == s.(flights := s.flights[f := Confirm(user, e.secret, e.seal, step, now, code)])
    case EndConfirm(f) =>
      && f in s.flights && s.flights[f].Confirm? && var c := s.flights[f];
         s' == s.(t := Confirmed(t, c.user, c.seal, c.step), flights := s.flights - {f},
                  accepted := if Confirmable(t, c.user, c.seal) then Append(s.accepted, t.enrollments[c.user].epoch, c.step) else s.accepted)
    case Challenge_(id, user, expires) =>
      id == s.next && s' == s.(t := t.(challenges := t.challenges[id := Challenge(user, expires, 0, None)]), next := id + 1)
    case BeginLogin(f, challenge, code, step, now) =>
      && f !in s.flights && challenge in t.challenges && var c := t.challenges[challenge];
      && c.consumed.None? && c.expires > now && c.attempts < MaxChallengeAttempts
      && c.user in t.enrollments && var e := t.enrollments[c.user];
      && e.enabled && Unlocked(e, now) && Validated(mac, e.secret, code, now, LastOf(e), step)
      && s' == s.(flights := s.flights[f := Login(challenge, c.user, step, now)])
    case EndLogin(f) =>
      && f in s.flights && s.flights[f].Login? && var l := s.flights[f];
         s' == s.(t := LoggedIn(t, l.challenge, l.user, l.step, l.now), flights := s.flights - {f},
                  accepted := if Claimable(t, l.user, l.step) && Consumable(t, l.challenge, l.user, l.now)
                              then Append(s.accepted, t.enrollments[l.user].epoch, l.step) else s.accepted)
    case BeginDisable(f, user, code, step, now) =>
      && f !in s.flights && user in t.enrollments && var e := t.enrollments[user];
      && e.enabled && Unlocked(e, now) && Validated(mac, e.secret, code, now, LastOf(e), step)
      && s' == s.(flights := s.flights[f := Disable(user)])
    case EndDisable(f) =>
      && f in s.flights && s.flights[f].Disable?
      && s' == s.(flights := s.flights - {f},
                  t := if s.flights[f].user in t.enrollments && t.enrollments[s.flights[f].user].enabled
                       then t.(enrollments := t.enrollments - {s.flights[f].user}) else t)
    case Failure(user, now) => s' == s.(t := FailureRecorded(t, user, now))
    case Bump(challenge) =>
      challenge in t.challenges
      && s' == s.(t := t.(challenges := t.challenges[challenge := t.challenges[challenge].(attempts := t.challenges[challenge].attempts + 1)]))
    case CleanUp(gone) => s' == s.(t := t.(challenges := t.challenges - gone))
    case Abandon(f) => s' == s.(flights := s.flights - {f})   // refused, cancelled, or the server stopped
  }

  ghost predicate IsRun(mac: Mac, run: seq<State>, steps: seq<Step>) {
    && |run| == |steps| + 1 && run[0] == State(Tables(map[], map[], []), map[], map[], 0)
    && forall i | 0 <= i < |steps| :: Next(mac, run[i], run[i + 1], steps[i])
  }

  // ---- The invariant -------------------------------------------------------------------------------

  ghost predicate Increasing(steps: seq<nat>) { forall i, j | 0 <= i < j < |steps| :: steps[i] < steps[j] }

  type Accepted = map<Id, seq<nat>>

  // The row's last used step is the last accepted one of its epoch.
  ghost predicate RowOk(accepted: Accepted, next: Id, e: Enrollment) {
    && e.epoch < next && e.seal == e.epoch && (e.enabled <==> e.epoch in accepted)
    && (if e.epoch in accepted then accepted[e.epoch] != [] && e.last == Some(accepted[e.epoch][|accepted[e.epoch]| - 1]) else e.last.None?)
  }

  ghost predicate RowsOk(enrollments: map<Id, Enrollment>, accepted: Accepted, next: Id) {
    && (forall u | u in enrollments :: RowOk(accepted, next, enrollments[u]))
    && (forall u, v | u in enrollments && v in enrollments && u != v :: enrollments[u].epoch != enrollments[v].epoch)
  }

  ghost predicate AcceptedOk(accepted: Accepted, next: Id) { forall e | e in accepted :: e < next && Increasing(accepted[e]) }

  ghost predicate SessionOk(challenges: map<Id, Challenge>, accepted: Accepted, next: Id, x: Session) {
    && x.challenge < next && (x.challenge in challenges ==> challenges[x.challenge].consumed.Some?)
    && x.epoch in accepted && x.step in accepted[x.epoch]
  }

  ghost predicate SessionsOk(t: Tables, accepted: Accepted, next: Id) {
    && (forall i | 0 <= i < |t.sessions| :: SessionOk(t.challenges, accepted, next, t.sessions[i]))
    && (forall i, j | 0 <= i < j < |t.sessions| ::
          t.sessions[i].challenge != t.sessions[j].challenge
          && (t.sessions[i].epoch == t.sessions[j].epoch ==> t.sessions[i].step < t.sessions[j].step))
    && (forall c | c in t.challenges :: c < next)
  }

  ghost predicate FlightOk(mac: Mac, enrollments: map<Id, Enrollment>, next: Id, f: Flight) {
    f.Confirm? ==>
      && f.seal < next && Validated(mac, f.secret, f.code, f.now, -1, f.step)
      && (f.user in enrollments && enrollments[f.user].seal == f.seal ==> enrollments[f.user].secret == f.secret)
  }

  ghost predicate FlightsOk(mac: Mac, enrollments: map<Id, Enrollment>, next: Id, flights: map<nat, Flight>) {
    forall f | f in flights :: FlightOk(mac, enrollments, next, flights[f])
  }

  ghost predicate Inv(mac: Mac, s: State) {
    && RowsOk(s.t.enrollments, s.accepted, s.next) && AcceptedOk(s.accepted, s.next)
    && SessionsOk(s.t, s.accepted, s.next) && FlightsOk(mac, s.t.enrollments, s.next, s.flights)
  }

  // ---- Every step keeps it --------------------------------------------------------------------------

  lemma AppendIncreases(steps: seq<nat>, step: nat)
    requires Increasing(steps) && (steps != [] ==> steps[|steps| - 1] < step)
    ensures Increasing(steps + [step]) && forall x | x in steps :: x < step
  {
    forall i | 0 <= i < |steps| ensures steps[i] < step { assert i < |steps| - 1 ==> steps[i] < steps[|steps| - 1]; }
  }

  // One more accepted step for the row of `user`.
  lemma Accepting(enrollments: map<Id, Enrollment>, accepted: Accepted, next: Id, user: Id, step: nat)
    requires RowsOk(enrollments, accepted, next) && AcceptedOk(accepted, next)
    requires user in enrollments && Later(enrollments[user], step)
    ensures var e := enrollments[user]; var accepted' := Append(accepted, e.epoch, step);
            && RowsOk(enrollments[user := Used(e, step).(enabled := true)], accepted', next) && AcceptedOk(accepted', next)
            && step in accepted'[e.epoch]
            && (e.epoch in accepted ==> forall x | x in accepted[e.epoch] :: x < step && x in accepted'[e.epoch])
  {
    var e := enrollments[user];
    assert RowOk(accepted, next, e);
    if e.epoch in accepted { AppendIncreases(accepted[e.epoch], step); }
    var accepted' := Append(accepted, e.epoch, step);
    forall u | u in enrollments && u != user ensures RowOk(accepted', next, enrollments[u]) {
      assert RowOk(accepted, next, enrollments[u]);
    }
  }

  // Sessions stay fine when an epoch accepts more.
  lemma SessionsKept(t: Tables, accepted: Accepted, next: Id, epoch: Id, step: nat)
    requires SessionsOk(t, accepted, next)
    ensures SessionsOk(t, Append(accepted, epoch, step), next)
  {
    forall i | 0 <= i < |t.sessions| ensures SessionOk(t.challenges, Append(accepted, epoch, step), next, t.sessions[i]) {
      assert SessionOk(t.challenges, accepted, next, t.sessions[i]);
    }
  }

  lemma ConfirmKeeps(mac: Mac, s: State, s': State, step: Step)
    requires Inv(mac, s) && Next(mac, s, s', step) && step.EndConfirm?
    ensures Inv(mac, s')
  {
    var c := s.flights[step.f];
    if Confirmable(s.t, c.user, c.seal) {
      var e := s.t.enrollments[c.user];
      assert RowOk(s.accepted, s.next, e);
      Accepting(s.t.enrollments, s.accepted, s.next, c.user, c.step);
      SessionsKept(s.t, s.accepted, s.next, e.epoch, c.step);
    }
  }

  // The new session differs from all before it.
  lemma OneMoreSession(t: Tables, accepted: Accepted, next: Id, x: Session, now: int)
    requires SessionsOk(t, accepted, next) && x.challenge in t.challenges && t.challenges[x.challenge].consumed.None?
    requires x.epoch in accepted && forall y | y in accepted[x.epoch] :: y < x.step
    ensures SessionsOk(Tables(t.enrollments, t.challenges[x.challenge := t.challenges[x.challenge].(consumed := Some(now))], t.sessions + [x]),
                       Append(accepted, x.epoch, x.step), next)
  {
    SessionsKept(t, accepted, next, x.epoch, x.step);
    forall i | 0 <= i < |t.sessions|
      ensures t.sessions[i].challenge != x.challenge && (t.sessions[i].epoch == x.epoch ==> t.sessions[i].step < x.step)
    {
      assert SessionOk(t.challenges, accepted, next, t.sessions[i]);
    }
  }

  lemma LoginKeeps(mac: Mac, s: State, s': State, step: Step)
    requires Inv(mac, s) && Next(mac, s, s', step) && step.EndLogin?
    ensures Inv(mac, s')
  {
    var l := s.flights[step.f];
    if Claimable(s.t, l.user, l.step) && Consumable(s.t, l.challenge, l.user, l.now) {
      var e := s.t.enrollments[l.user];
      assert RowOk(s.accepted, s.next, e);
      Accepting(s.t.enrollments, s.accepted, s.next, l.user, l.step);
      OneMoreSession(s.t, s.accepted, s.next, Session(l.challenge, l.user, e.epoch, l.step), l.now);
      FlightsKept(mac, s.t.enrollments, s'.t.enrollments, s.next, s.flights);
    }
  }

  // No row got another secret.
  lemma FlightsKept(mac: Mac, x: map<Id, Enrollment>, y: map<Id, Enrollment>, next: Id, flights: map<nat, Flight>)
    requires FlightsOk(mac, x, next, flights)
    requires forall u | u in y :: u in x && y[u].seal == x[u].seal && y[u].secret == x[u].secret
    ensures FlightsOk(mac, y, next, flights)
  {
    forall f | f in flights ensures FlightOk(mac, y, next, flights[f]) { assert FlightOk(mac, x, next, flights[f]); }
  }

  lemma StartKeeps(mac: Mac, s: State, s': State, step: Step)
    requires Inv(mac, s) && Next(mac, s, s', step) && step.Start?
    ensures Inv(mac, s')
  {
    forall u | u in s.t.enrollments ensures RowOk(s.accepted, s'.next, s.t.enrollments[u]) { assert RowOk(s.accepted, s.next, s.t.enrollments[u]); }
    forall i | 0 <= i < |s.t.sessions| ensures SessionOk(s.t.challenges, s.accepted, s'.next, s.t.sessions[i]) {
      assert SessionOk(s.t.challenges, s.accepted, s.next, s.t.sessions[i]);
    }
    forall f | f in s.flights ensures FlightOk(mac, s'.t.enrollments, s'.next, s.flights[f]) {
      assert FlightOk(mac, s.t.enrollments, s.next, s.flights[f]);
    }
  }

  // Steps that change the enrollments by no more than a failure count or a removal.
  lemma RowStepKeeps(mac: Mac, s: State, s': State, step: Step)
    requires Inv(mac, s) && Next(mac, s, s', step) && (step.Failure? || step.EndDisable?)
    ensures Inv(mac, s')
  {
    forall u | u in s'.t.enrollments ensures RowOk(s.accepted, s.next, s'.t.enrollments[u]) {
      assert RowOk(s.accepted, s.next, s.t.enrollments[u]);
    }
    FlightsKept(mac, s.t.enrollments, s'.t.enrollments, s.next, s.flights);
  }

  lemma ChallengeStepKeeps(mac: Mac, s: State, s': State, step: Step)
    requires Inv(mac, s) && Next(mac, s, s', step) && (step.Challenge_? || step.Bump? || step.CleanUp?)
    ensures Inv(mac, s')
  {
    forall u | u in s.t.enrollments ensures RowOk(s.accepted, s'.next, s.t.enrollments[u]) { assert RowOk(s.accepted, s.next, s.t.enrollments[u]); }
    forall i | 0 <= i < |s.t.sessions| ensures SessionOk(s'.t.challenges, s.accepted, s'.next, s.t.sessions[i]) {
      assert SessionOk(s.t.challenges, s.accepted, s.next, s.t.sessions[i]);
    }
    forall f | f in s.flights ensures FlightOk(mac, s.t.enrollments, s'.next, s.flights[f]) {
      assert FlightOk(mac, s.t.enrollments, s.next, s.flights[f]);
    }
  }

  lemma FlightStepKeeps(mac: Mac, s: State, s': State, step: Step)
    requires Inv(mac, s) && Next(mac, s, s', step) && (step.BeginConfirm? || step.BeginLogin? || step.BeginDisable? || step.Abandon?)
    ensures Inv(mac, s')
  {
    if step.BeginConfirm? { assert RowOk(s.accepted, s.next, s.t.enrollments[step.user]); }
  }

  lemma {:induction false} RunsKeep(mac: Mac, run: seq<State>, steps: seq<Step>)
    requires IsRun(mac, run, steps)
    ensures Inv(mac, run[|steps|])
  {
    if steps != [] {
      var n := |steps| - 1;
      RunsKeep(mac, run[..|steps|], steps[..n]);
      assert Next(mac, run[n], run[n + 1], steps[n]);
      if steps[n].EndConfirm? { ConfirmKeeps(mac, run[n], run[n + 1], steps[n]); }
      else if steps[n].EndLogin? { LoginKeeps(mac, run[n], run[n + 1], steps[n]); }
      else if steps[n].Start? { StartKeeps(mac, run[n], run[n + 1], steps[n]); }
      else if steps[n].Failure? || steps[n].EndDisable? { RowStepKeeps(mac, run[n], run[n + 1], steps[n]); }
      else if steps[n].Challenge_? || steps[n].Bump? || steps[n].CleanUp? { ChallengeStepKeeps(mac, run[n], run[n + 1], steps[n]); }
      else { FlightStepKeeps(mac, run[n], run[n + 1], steps[n]); }
    }
  }

  // ---- What it promises ----------------------------------------------------------------------------

  /** Within one enrollment the accepted steps strictly increase, the confirming one included: no code is ever accepted twice. */
  lemma AcceptedStepsIncrease(mac: Mac, run: seq<State>, steps: seq<Step>, epoch: Id)
    requires IsRun(mac, run, steps) && epoch in run[|steps|].accepted
    ensures Increasing(run[|steps|].accepted[epoch])
  {
    RunsKeep(mac, run, steps);
  }

  /** Each challenge yields at most one session, and no two sessions come from the same step of one enrollment. */
  lemma SessionsAreDistinct(mac: Mac, run: seq<State>, steps: seq<Step>, i: nat, j: nat)
    requires IsRun(mac, run, steps) && i < j < |run[|steps|].t.sessions|
    ensures var xs := run[|steps|].t.sessions;
            && xs[i].challenge != xs[j].challenge && (xs[i].epoch == xs[j].epoch ==> xs[i].step < xs[j].step)
            && xs[j].epoch in run[|steps|].accepted && xs[j].step in run[|steps|].accepted[xs[j].epoch]
  {
    RunsKeep(mac, run, steps);
    assert SessionOk(run[|steps|].t.challenges, run[|steps|].accepted, run[|steps|].next, run[|steps|].t.sessions[j]);
  }

  // The step found the challenge usable and the row unlocked, and validated the code of its time step against the row's secret.
  ghost predicate Checks(mac: Mac, t: Tables, step: Step, l: Flight)
    requires l.Login?
  {
    && step.BeginLogin? && step.challenge == l.challenge && step.step == l.step && step.now == l.now
    && l.challenge in t.challenges && var c := t.challenges[l.challenge];
    && c.user == l.user && c.consumed.None? && l.now < c.expires && c.attempts < 5
    && l.user in t.enrollments && var e := t.enrollments[l.user];
    && e.enabled && (e.locked.Some? ==> e.locked.value <= l.now)
    && InWindow(l.now, l.step) && Hotp(mac, e.secret, l.step, 6) == Tokens.Trim(step.code) && (e.last.Some? ==> e.last.value < l.step)
  }

  ghost predicate CheckedAt(mac: Mac, run: seq<State>, steps: seq<Step>, b: nat, f: nat, l: Flight)
    requires |run| == |steps| + 1 && b < |steps| && l.Login?
  { steps[b].BeginLogin? && steps[b].f == f && Checks(mac, run[b].t, steps[b], l) }

  lemma FlightStarts(mac: Mac, s: State, s': State, step: Step, f: nat)
    requires Next(mac, s, s', step) && f in s'.flights && s'.flights[f].Login?
    ensures if step.BeginLogin? && step.f == f then Checks(mac, s.t, step, s'.flights[f]) else f in s.flights && s.flights[f] == s'.flights[f]
  {
    if step.BeginLogin? && step.f == f { LoginBegins(mac, s, s', step); }
  }

  lemma LoginBegins(mac: Mac, s: State, s': State, step: Step)
    requires Next(mac, s, s', step) && step.BeginLogin?
    ensures step.f in s'.flights && s'.flights[step.f].Login? && Checks(mac, s.t, step, s'.flights[step.f])
  {}

  // Every login in flight was checked.
  lemma {:induction false} LoginChecked(mac: Mac, run: seq<State>, steps: seq<Step>, n: nat, f: nat) returns (b: nat)
    requires IsRun(mac, run, steps) && n <= |steps| && f in run[n].flights && run[n].flights[f].Login?
    ensures b < n && CheckedAt(mac, run, steps, b, f, run[n].flights[f])
    decreases n
  {
    if n == 0 {
      assert false;
    } else {
      assert Next(mac, run[n - 1], run[n], steps[n - 1]);
      FlightStarts(mac, run[n - 1], run[n], steps[n - 1], f);
      if steps[n - 1].BeginLogin? && steps[n - 1].f == f {
        b := n - 1;
      } else {
        b := LoginChecked(mac, run, steps, n - 1, f);
      }
    }
  }

  // Step j ended the login that made the session: its challenge was the user's own, unexpired and unconsumed, its step unused.
  ghost predicate MadeBy(run: seq<State>, steps: seq<Step>, j: nat, x: Session)
    requires |run| == |steps| + 1 && j < |steps|
  {
    && steps[j].EndLogin? && var f := steps[j].f;
    && f in run[j].flights && run[j].flights[f].Login? && var l := run[j].flights[f]; var t := run[j].t;
    && l.challenge == x.challenge && l.user == x.user && l.step == x.step
    && x.challenge in t.challenges && var c := t.challenges[x.challenge];
    && c.user == x.user && c.consumed.None? && l.now < c.expires
    && x.user in t.enrollments && var e := t.enrollments[x.user];
    && e.enabled && e.epoch == x.epoch && (e.last.Some? ==> e.last.value < x.step)
  }

  /** Every session was made by a login transaction on an unexpired, unconsumed challenge of its own user, with a step later than
      any used before, after a request that checked the code for that step while the row was not locked. */
  lemma {:induction false} SessionOrigin(mac: Mac, run: seq<State>, steps: seq<Step>, n: nat, i: nat) returns (b: nat, j: nat)
    requires IsRun(mac, run, steps) && n <= |steps| && i < |run[n].t.sessions|
    ensures b < j < n && MadeBy(run, steps, j, run[n].t.sessions[i])
    ensures CheckedAt(mac, run, steps, b, steps[j].f, run[j].flights[steps[j].f])
    decreases n
  {
    if n == 0 {
      assert false;
    } else {
      assert Next(mac, run[n - 1], run[n], steps[n - 1]);
      if i < |run[n - 1].t.sessions| {
        b, j := SessionOrigin(mac, run, steps, n - 1, i);
      } else {
        j := n - 1;
        b := LoginChecked(mac, run, steps, j, steps[j].f);
      }
    }
  }

  // Starting an enrollment leaves an enabled one alone and otherwise makes a pending one with the new secret.
  lemma StartMeaning(t: Tables, user: Id, secret: Bytes, seal: nat, epoch: Id)
    ensures var t' := Started(t, user, secret, seal, epoch);
            if user in t.enrollments && t.enrollments[user].enabled then t' == t
            else t' == t.(enrollments := t.enrollments[user := Enrollment(secret, seal, epoch, false, None, 0, None)])
  {}

  // The fifth failure in a row locks the row for five minutes.
  lemma FailureMeaning(t: Tables, user: Id, now: int)
    requires user in t.enrollments
    ensures var t' := FailureRecorded(t, user, now); var e := t.enrollments[user];
            && user in t'.enrollments && var e' := t'.enrollments[user];
            && e' == e.(failed := e.failed + 1, locked := e'.locked) && t' == t.(enrollments := t.enrollments[user := e'])
            && (if e.failed < 4 then e'.locked == e.locked
                else e'.locked == Some(now + 300) && forall later :: Unlocked(e', later) <==> later >= now + 300)
  {}

  /** A completed login consumes its challenge and claims its step; a refused one leaves every table as it was. */
  lemma LoginIsAllOrNothing(t: Tables, challenge: Id, user: Id, step: nat, now: int)
    ensures var t' := LoggedIn(t, challenge, user, step, now);
            || (t' == t && !(Claimable(t, user, step) && Consumable(t, challenge, user, now)))
            || (&& t'.sessions == t.sessions + [Session(challenge, user, t'.enrollments[user].epoch, step)]
                && t'.challenges[challenge].consumed == Some(now) && t.challenges[challenge].consumed.None?
                && !Claimable(t', user, step) && !Consumable(t', challenge, user, now)
                && t'.challenges - {challenge} == t.challenges - {challenge} && t'.enrollments - {user} == t.enrollments - {user})
  {}

  /** Confirmation enables exactly the pending secret its code was checked against. */
  lemma ConfirmsWhatItValidated(mac: Mac, run: seq<State>, steps: seq<Step>, s': State, f: nat)
    requires IsRun(mac, run, steps) && Next(mac, run[|steps|], s', EndConfirm(f)) && s'.t != run[|steps|].t
    ensures var s := run[|steps|]; var c := s.flights[f];
            && c.user in s.t.enrollments && !s.t.enrollments[c.user].enabled
            && c.user in s'.t.enrollments && s'.t.enrollments[c.user].enabled && s'.t.enrollments[c.user].last == Some(c.step)
            && s'.t.enrollments[c.user].secret == s.t.enrollments[c.user].secret == c.secret
            && Validated(mac, s'.t.enrollments[c.user].secret, c.code, c.now, -1, c.step)
  {
    RunsKeep(mac, run, steps);
    var s := run[|steps|];
    assert FlightOk(mac, s.t.enrollments, s.next, s.flights[f]);
  }
}
