/**
The owner's second factors: time-based codes and recovery codes, over logins, authenticator
replacement, update authorization, owner recovery and restores of older databases.

A request first reads the owner's credentials and verifies its factor, and only later, in one
transaction, consumes the factor and grants what was asked for; other requests, and a restore,
may come in between. `granted` records what every consumed factor bought.
*/
module OneTimeFactors {
  import opened Options

  type Secret = nat
  type Recovery = nat  // the digest of a recovery code
  type Pid = nat

  /** The code of a secret at a time step; the authenticator and the server compute the same function. */
  type Codes = (Secret, nat) -> string

  const PERIOD := 30

  function StepAt(now: nat): nat {
    now / PERIOD
  }

  predicate Digits(code: string) {
    |code| == 6 && forall c | c in code :: '0' <= c <= '9'
  }

  predicate InWindow(step: nat, now: nat) {
    StepAt(now) <= step + 1 && step <= StepAt(now) + 1
  }

  predicate SixDigits(code: string) {
    |code| == 6 && forall c | c in code :: c in "0123456789"
  }

  /** The present step is tried first, then the one before, then the one after. */
  function Verify(codes: Codes, secret: Secret, code: string, now: nat): (step: Option<nat>)
    ensures step.Some? ==> InWindow(step.value, now) && codes(secret, step.value) == code && SixDigits(code)
    ensures step.None? && SixDigits(code) ==> forall k | InWindow(k, now) :: codes(secret, k) != code
  {
    var current := StepAt(now);
    if !Digits(code) then None
    else if codes(secret, current) == code then Some(current)
    else if current >= 1 && codes(secret, current - 1) == code then Some(current - 1)
    else if codes(secret, current + 1) == code then Some(current + 1)
    else None
  }

  /** A secret as stored: encrypting it twice gives two different texts. */
  datatype Sealed = Sealed(secret: Secret, nonce: nat)

  datatype Mfa = Mfa(sealed: Sealed, lastStep: int)

  datatype Enrollment = Enrollment(token: nat, user: bool, password: nat, secret: Secret, recovery: set<Recovery>,
      expiresAt: nat)

  datatype Store = Store(
    owner: Option<nat>,  // the password of the owner, if there is one
    mfa: Option<Mfa>,
    recovery: set<Recovery>,
    enrollment: Option<Enrollment>,
    sessions: set<nat>,
    pending: set<string>)  // update authorizations not handed over yet

  /** What a request shows: exactly one of a code and a recovery code. */
  datatype Proof = ByCode(code: string) | ByRecovery(recovery: Recovery)

  datatype Purpose = SignIn(token: nat) | Replace(enrollment: Enrollment) | Authorize(request: string)

  /** A verified request on its way to its transaction: the credentials it read, and the step its code is for. */
  datatype Request = Request(purpose: Purpose, sealed: Sealed, proof: Proof, step: nat)

  datatype Factor = Totp(secret: Secret, step: nat) | Recovered(recovery: Recovery)

  datatype Grant = Granted(purpose: Purpose, factor: Factor) | Enrolled(factor: Factor)

  datatype World = World(
    db: Store, snapshots: set<Store>, clock: nat, requests: map<Pid, Request>,
    secrets: set<Secret>, codes: set<Recovery>, granted: seq<Grant>)

  datatype Action =
    | Tick(now: nat)
    | Look(pid: Pid, purpose: Purpose, proof: Proof)
    | Commit(pid: Pid)
    | Drop(pid: Pid)
    | BeginSetup(enrollment: Enrollment)
    | Confirm(token: nat, code: string, nonce: nat, session: nat)
    | Recover(password: nat)
    | Cancel
    | Snapshot
    | Restore(snapshot: Store)

  // ---------------------------------------------------------------- verification and consumption

  /** Of the steps of the window this is the only one whose code is shown. */
  ghost predicate OnlyStep(codes: Codes, secret: Secret, code: string, now: nat, step: nat) {
    && codes(secret, step) == code
    && forall other: nat | InWindow(other, now) && other != step :: codes(secret, other) != code
  }

  /** `secondFactor`: a code must be for a step after the last one; a recovery code is looked up only when it is consumed. */
  function SecondFactor(codes: Codes, db: Store, proof: Proof, now: nat): (step: Option<nat>)
    ensures step.Some? ==> db.mfa.Some?
    ensures step.Some? && proof.ByCode? ==>
              var mfa := db.mfa.value;
              step.value > mfa.lastStep && InWindow(step.value, now)
                  && codes(mfa.sealed.secret, step.value) == proof.code
    ensures db.mfa.Some? && proof.ByRecovery? ==> step.Some?
    ensures db.mfa.Some? && proof.ByCode? && SixDigits(proof.code) ==>
              forall k: nat | InWindow(k, now) && OnlyStep(codes, db.mfa.value.sealed.secret, proof.code, now, k) ::
                step == if k > db.mfa.value.lastStep then Some(k) else None
  {
    if db.mfa.None? then None
    else match proof
      case ByRecovery(_) => Some(0)
      case ByCode(code) =>
        var step := Verify(codes, db.mfa.value.sealed.secret, code, now);
        if step.Some? && step.value > db.mfa.value.lastStep then step else None
  }

  function FactorOf(r: Request): Factor {
    match r.proof
    case ByRecovery(recovery) => Recovered(recovery)
    case ByCode(_) => Totp(r.sealed.secret, r.step)
  }

  /** `consumeFactor`: the row it changes must still be the one that was read. */
  function Consume(db: Store, r: Request): Option<Store> {
    match r.proof
    case ByRecovery(recovery) =>
      if recovery in db.recovery then Some(db.(recovery := db.recovery - {recovery})) else None
    case ByCode(_) =>
      if db.mfa.Some? && db.mfa.value.lastStep < r.step && db.mfa.value.sealed == r.sealed
      then Some(db.(mfa := Some(db.mfa.value.(lastStep := r.step)))) else None
  }

  /** What the transaction does besides; an authorization is refused while another one waits. */
  function Bought(db: Store, purpose: Purpose): Option<Store> {
    match purpose
    case SignIn(token) => Some(db.(sessions := db.sessions + {token}))
    case Replace(enrollment) => Some(db.(enrollment := Some(enrollment)))
    case Authorize(request) => if db.pending == {} then Some(db.(pending := {request})) else None
  }

  function Redeem(db: Store, r: Request): Option<Store> {
    match Consume(db, r)
    case None => None
    case Some(after) => Bought(after, r.purpose)
  }

  /** New secrets and recovery codes have never been drawn before. */
  predicate Drawn(w: World, e: Enrollment) {
    e.secret !in w.secrets && e.recovery !! w.codes && e.expiresAt == w.clock + 600
  }

  predicate MayConfirm(codes: Codes, w: World, token: nat, code: string) {
    && w.db.enrollment.Some?
    && var e := w.db.enrollment.value;
       && e.token == token && e.expiresAt > w.clock
       && Verify(codes, e.secret, code, w.clock).Some?
       && (if e.user then w.db.owner == Some(e.password) else w.db.owner.None?)
  }

  function Confirmed(db: Store, e: Enrollment, step: nat, nonce: nat, session: nat): Store {
    Store(Some(e.password), Some(Mfa(Sealed(e.secret, nonce), step)), e.recovery, None, {session}, {})
  }

  /** `RecoverOwner`: a new password, and nothing that was issued under the old one. */
  function Reset(db: Store, password: nat): Store {
    Store(Some(password), None, {}, None, {}, {})
  }

  /** A restored database keeps the authenticator, with every step fenced that a code could be for by now. */
  function Revoked(db: Store, now: nat): Store {
    var mfa := match db.mfa
               case None => None
               case Some(m) => Some(m.(lastStep := if m.lastStep < StepAt(now) + 1 then StepAt(now) + 1
                   else m.lastStep));
    Store(db.owner, mfa, {}, None, {}, {})
  }

  // ---------------------------------------------------------------- the steps

  predicate Enabled(codes: Codes, w: World, a: Action) {
    match a
    case Tick(now) => now >= w.clock
    case Look(pid, purpose, proof) =>
      && pid !in w.requests && SecondFactor(codes, w.db, proof, w.clock).Some?
      && (purpose.Replace? ==> purpose.enrollment.user && w.db.owner == Some(purpose.enrollment.password))
    case Commit(pid) =>
      && pid in w.requests
      && (w.requests[pid].purpose.Replace? ==> Drawn(w, w.requests[pid].purpose.enrollment))
    case Drop(pid) => true
    case BeginSetup(e) => w.db.mfa.None? && Drawn(w, e)  // owner and password may have changed since they were read
    case Confirm(token, code, _, _) => MayConfirm(codes, w, token, code)
    case Recover(_) => w.db.owner.Some?
    case Cancel => true
    case Snapshot => true
    case Restore(s) => s in w.snapshots
  }

  function Issue(w: World, e: Enrollment): World {
    w.(secrets := w.secrets + {e.secret}, codes := w.codes + e.recovery)
  }

  function Next(codes: Codes, w: World, a: Action): World
    requires Enabled(codes, w, a)
  {
    match a
    case Tick(now) => w.(clock := now)
    case Look(pid, purpose, proof) =>
      w.(requests := w.requests[pid := Request(purpose, w.db.mfa.value.sealed, proof,
          SecondFactor(codes, w.db, proof, w.clock).value)])
    case Commit(pid) =>
      var r := w.requests[pid];
      var w' := w.(requests := w.requests - {pid});
      var w'' := if r.purpose.Replace? then Issue(w', r.purpose.enrollment) else w';
      (match Redeem(w.db, r)
       case None => w''
       case Some(db) => w''.(db := db, granted := w.granted + [Granted(r.purpose, FactorOf(r))]))
    case Drop(pid) => w.(requests := w.requests - {pid})
    case BeginSetup(e) => Issue(w.(db := w.db.(enrollment := Some(e))), e)
    case Confirm(token, code, nonce, session) =>
      var e := w.db.enrollment.value;
      var step := Verify(codes, e.secret, code, w.clock).value;
      w.(db := Confirmed(w.db, e, step, nonce, session), granted := w.granted + [Enrolled(Totp(e.secret, step))])
    case Recover(password) => w.(db := Reset(w.db, password))
    case Cancel => w.(db := w.db.(pending := {}))
    case Snapshot => w.(snapshots := w.snapshots + {w.db})
    case Restore(s) => w.(db := Revoked(s, w.clock), requests := map[])
  }

  predicate Initial(w: World) {
    && w.db == Store(None, None, {}, None, {}, {}) && w.snapshots == {} && w.requests == map[]
    && w.secrets == {} && w.codes == {} && w.granted == []
  }

  predicate StepFits(codes: Codes, worlds: seq<World>, actions: seq<Action>, i: nat)
    requires i < |actions| < |worlds|
  {
    Enabled(codes, worlds[i], actions[i]) && worlds[i + 1] == Next(codes, worlds[i], actions[i])
  }

  predicate IsRun(codes: Codes, worlds: seq<World>, actions: seq<Action>) {
    && |worlds| == |actions| + 1
    && Initial(worlds[0])
    && forall i | 0 <= i < |actions| :: StepFits(codes, worlds, actions, i)
  }

  // ---------------------------------------------------------------- the invariant

  /** A factor that was used can no longer be redeemed. */
  predicate Spent(w: World, f: Factor) {
    match f
    case Totp(secret, step) =>
      && secret in w.secrets && step <= StepAt(w.clock) + 1
      && (w.db.mfa.Some? && w.db.mfa.value.sealed.secret == secret ==> step <= w.db.mfa.value.lastStep)
      && (w.db.enrollment.Some? ==> w.db.enrollment.value.secret != secret)
    case Recovered(recovery) =>
      && recovery in w.codes && recovery !in w.db.recovery
      && (w.db.enrollment.Some? ==> recovery !in w.db.enrollment.value.recovery)
  }

  predicate Timely(w: World, r: Request) {
    r.proof.ByCode? ==> r.step <= StepAt(w.clock) + 1
  }

  /** The authenticator being enrolled has nothing in common with the one in use. */
  predicate Apart(db: Store) {
    db.enrollment.Some? ==>
      && (db.mfa.Some? ==> db.enrollment.value.secret != db.mfa.value.sealed.secret)
      && db.enrollment.value.recovery !! db.recovery
  }

  predicate Known(w: World, db: Store) {
    && (db.mfa.Some? ==> db.mfa.value.sealed.secret in w.secrets)
    && (db.enrollment.Some? ==> db.enrollment.value.secret in w.secrets && db.enrollment.value.recovery <= w.codes)
    && db.recovery <= w.codes
  }

  predicate Later(earlier: Factor, later: Factor) {
    match earlier
    case Recovered(_) => earlier != later
    case Totp(secret, step) => later.Totp? && later.secret == secret ==> step < later.step
  }

  predicate InOrder(granted: seq<Grant>) {
    forall i, j | 0 <= i < j < |granted| :: Later(granted[i].factor, granted[j].factor)
  }

  predicate Inv(w: World) {
    && (forall g | g in w.granted :: Spent(w, g.factor))
    && (forall pid | pid in w.requests :: Timely(w, w.requests[pid]))
    && Apart(w.db) && Known(w, w.db)
    && (forall s | s in w.snapshots :: Known(w, s))
    && InOrder(w.granted)
  }

  lemma StepsGrow(before: nat, after: nat)
    requires before <= after
    ensures StepAt(before) <= StepAt(after)
  {
  }

  lemma OneMore(granted: seq<Grant>, g: Grant)
    requires InOrder(granted) && forall e | e in granted :: Later(e.factor, g.factor)
    ensures InOrder(granted + [g])
  {
    assert forall i | 0 <= i < |granted| :: granted[i] in granted;
  }

  /** What was spent stays spent, and what this commit consumes is spent after it. */
  lemma CommitSpends(codes: Codes, w: World, pid: Pid)
    requires Inv(w) && Enabled(codes, w, Commit(pid))
    ensures forall g | g in Next(codes, w, Commit(pid)).granted :: Spent(Next(codes, w, Commit(pid)), g.factor)
  {
    hide InOrder, Verify, SecondFactor, OnlyStep, StepAt, Confirmed, Reset, Revoked;
    assert Timely(w, w.requests[pid]);
  }

  lemma CommitKeepsInv(codes: Codes, w: World, pid: Pid)
    requires Inv(w) && Enabled(codes, w, Commit(pid))
    ensures Inv(Next(codes, w, Commit(pid)))
  {
    hide InOrder, Verify, SecondFactor, OnlyStep, StepAt, Confirmed, Reset, Revoked;
    var r := w.requests[pid];
    CommitSpends(codes, w, pid);
    if Redeem(w.db, r).Some? {
      forall e | e in w.granted ensures Later(e.factor, FactorOf(r)) { assert Spent(w, e.factor); }
      OneMore(w.granted, Granted(r.purpose, FactorOf(r)));
    }
  }

  lemma ConfirmKeepsInv(codes: Codes, w: World, a: Action)
    requires Inv(w) && Enabled(codes, w, a) && a.Confirm?
    ensures Inv(Next(codes, w, a))
  {
    hide InOrder;
    var e := w.db.enrollment.value;
    var f := Totp(e.secret, Verify(codes, e.secret, a.code, w.clock).value);
    forall g | g in w.granted ensures Later(g.factor, f) { assert Spent(w, g.factor); }
    OneMore(w.granted, Enrolled(f));
  }

  lemma NextKeepsInv(codes: Codes, w: World, a: Action)
    requires Inv(w) && Enabled(codes, w, a)
    ensures Inv(Next(codes, w, a))
  {
    hide InOrder;
    if a.Commit? { CommitKeepsInv(codes, w, a.pid); }
    else if a.Confirm? { ConfirmKeepsInv(codes, w, a); }
    else if a.Tick? { StepsGrow(w.clock, a.now); }
  }

  lemma {:induction false} EveryStateFits(codes: Codes, worlds: seq<World>, actions: seq<Action>, n: nat)
    requires IsRun(codes, worlds, actions) && n < |worlds|
    ensures Inv(worlds[n])
  {
    hide Next, Enabled;
    if n > 0 {
      EveryStateFits(codes, worlds, actions, n - 1);
      assert StepFits(codes, worlds, actions, n - 1);
      NextKeepsInv(codes, worlds[n - 1], actions[n - 1]);
    }
  }

  // ---------------------------------------------------------------- the theorems

  /**
  Over every run, no factor ever buys two things: whatever requests raced and whichever snapshots
  were restored, two grants never rest on the same time step of the same secret or on the same
  recovery code, and the steps consumed of one secret strictly increase.
  */
  lemma EveryFactorOnce(codes: Codes, worlds: seq<World>, actions: seq<Action>, n: nat, i: nat, j: nat)
    requires IsRun(codes, worlds, actions) && n < |worlds| && i < j < |worlds[n].granted|
    ensures var a, b := worlds[n].granted[i].factor, worlds[n].granted[j].factor;
            a != b && (a.Totp? && b.Totp? && a.secret == b.secret ==> a.step < b.step)
  {
    hide IsRun;
    EveryStateFits(codes, worlds, actions, n);
    assert Later(worlds[n].granted[i].factor, worlds[n].granted[j].factor);
  }

  /** A code shown at any time after it was used, in any later state of the run, no longer verifies as a second factor. */
  lemma UsedStepIsRefused(codes: Codes, worlds: seq<World>, actions: seq<Action>, n: nat, g: Grant, code: string)
    requires IsRun(codes, worlds, actions) && n < |worlds| && g in worlds[n].granted && g.factor.Totp?
    requires worlds[n].db.mfa.Some? && worlds[n].db.mfa.value.sealed.secret == g.factor.secret
    ensures SecondFactor(codes, worlds[n].db, ByCode(code), worlds[n].clock) != Some(g.factor.step)
  {
    hide IsRun, InOrder;
    EveryStateFits(codes, worlds, actions, n);
    assert Spent(worlds[n], g.factor);
  }

  /** In seconds: a code is good from thirty before its half minute begins to thirty after it has ended. */
  lemma WindowInSeconds(step: nat, now: nat)
    ensures InWindow(step, now) <==> 30 * step <= now + 30 && now < 30 * step + 60
  {
  }

  // ---------------------------------------------------------------- what is left after a cut

  /** Owner recovery, a restore and a new authenticator put an end to everything issued before. */
  predicate Cuts(a: Action) {
    a.Recover? || a.Restore? || a.Confirm?
  }

  predicate SignsIn(w: World, a: Action, session: nat) {
    || (a.Commit? && a.pid in w.requests && w.requests[a.pid].purpose == SignIn(session))
    || (a.Confirm? && a.session == session)
  }

  predicate Issues(w: World, a: Action, recovery: Recovery) {
    a.Confirm? && w.db.enrollment.Some? && recovery in w.db.enrollment.value.recovery
  }

  predicate Asks(w: World, a: Action, request: string) {
    a.Commit? && a.pid in w.requests && w.requests[a.pid].purpose == Purpose.Authorize(request)
  }

  predicate Enrolls(w: World, a: Action, e: Enrollment) {
    || (a.BeginSetup? && a.enrollment == e)
    || (a.Commit? && a.pid in w.requests && w.requests[a.pid].purpose == Replace(e))
  }

  /** Whatever is in the database after a step was there before, and was not cut off, or comes from the step. */
  lemma NothingFromNowhere(codes: Codes, w: World, a: Action)
    requires Enabled(codes, w, a)
    ensures var db := Next(codes, w, a).db;
            && (forall s | s in db.sessions :: SignsIn(w, a, s) || (s in w.db.sessions && !Cuts(a)))
            && (forall c | c in db.recovery :: Issues(w, a, c) || (c in w.db.recovery && !Cuts(a)))
            && (forall q | q in db.pending :: Asks(w, a, q) || (q in w.db.pending && !Cuts(a)))
            && (db.enrollment.Some? ==>
                Enrolls(w, a, db.enrollment.value) || (db.enrollment == w.db.enrollment && !Cuts(a)))
  {
    hide Verify, Drawn;
  }

  /** Since step `i` one of the steps up to `k` signed the session in; and so on. */
  ghost predicate SignedInSince(worlds: seq<World>, actions: seq<Action>, i: nat, k: nat, session: nat)
    requires k <= |actions| < |worlds|
  {
    exists j :: i <= j < k && SignsIn(worlds[j], actions[j], session)
  }

  ghost predicate IssuedSince(worlds: seq<World>, actions: seq<Action>, i: nat, k: nat, recovery: Recovery)
    requires k <= |actions| < |worlds|
  {
    exists j :: i <= j < k && Issues(worlds[j], actions[j], recovery)
  }

  ghost predicate AskedSince(worlds: seq<World>, actions: seq<Action>, i: nat, k: nat, request: string)
    requires k <= |actions| < |worlds|
  {
    exists j :: i <= j < k && Asks(worlds[j], actions[j], request)
  }

  ghost predicate EnrolledSince(worlds: seq<World>, actions: seq<Action>, i: nat, k: nat, e: Enrollment)
    requires k <= |actions| < |worlds|
  {
    exists j :: i <= j < k && Enrolls(worlds[j], actions[j], e)
  }

  ghost predicate AllSince(worlds: seq<World>, actions: seq<Action>, i: nat, k: nat)
    requires k <= |actions| < |worlds|
  {
    var db := worlds[k].db;
    && (forall s | s in db.sessions :: SignedInSince(worlds, actions, i, k, s))
    && (forall c | c in db.recovery :: IssuedSince(worlds, actions, i, k, c))
    && (forall q | q in db.pending :: AskedSince(worlds, actions, i, k, q))
    && (db.enrollment.Some? ==> EnrolledSince(worlds, actions, i, k, db.enrollment.value))
  }

  /**
  After the owner was recovered, a backup restored or an authenticator confirmed, every session,
  recovery code, waiting authorization and enrollment in the database comes from a step at or after
  that one, whatever requests were under way at the time.
  */
  lemma {:induction false} NothingSurvivesTheCut(codes: Codes, worlds: seq<World>, actions: seq<Action>, i: nat, k: nat)
    requires IsRun(codes, worlds, actions) && i < k <= |actions| && Cuts(actions[i])
    ensures AllSince(worlds, actions, i, k)
  {
    hide Next, Enabled, Initial, SignsIn, Issues, Asks, Enrolls, Cuts;
    assert StepFits(codes, worlds, actions, k - 1);
    NothingFromNowhere(codes, worlds[k - 1], actions[k - 1]);
    if i + 1 < k { NothingSurvivesTheCut(codes, worlds, actions, i, k - 1); }
  }

  /** After owner recovery no factor is good until a new authenticator has been confirmed. */
  lemma {:induction false} NoFactorAfterRecovery(codes: Codes, worlds: seq<World>, actions: seq<Action>, i: nat, k: nat)
    requires IsRun(codes, worlds, actions) && i < k <= |actions| && actions[i].Recover?
    requires forall j | i < j < k :: !actions[j].Confirm? && !actions[j].Restore?
    ensures worlds[k].db.mfa.None? && worlds[k].db.recovery == {} && worlds[k].db.sessions == {}
  {
    hide Verify, Drawn, Initial;
    assert StepFits(codes, worlds, actions, k - 1);
    if i + 1 < k { NoFactorAfterRecovery(codes, worlds, actions, i, k - 1); }
  }
}
