/**
The transactions on the owner's credentials: they change one table after the other, and nothing
at all when one of the statements finds nothing to change.
*/
module OwnerAccounts {
  import opened Options
  import opened OneTimeFactors

  class Accounts {
    var owner: Option<nat>
    var mfa: Option<Mfa>
    var recovery: set<Recovery>
    var enrollment: Option<Enrollment>
    var sessions: set<nat>
    var pending: set<string>

    function View(): Store
      reads this
    {
      Store(owner, mfa, recovery, enrollment, sessions, pending)
    }

    constructor ()
      ensures View() == Store(None, None, {}, None, {}, {})
    {
      owner, mfa, recovery, enrollment, sessions, pending := None, None, {}, None, {}, {};
    }

    /** The factor is still there: an unused code, or an authenticator nobody changed, at an earlier step. */
    static predicate Redeemable(mfa: Option<Mfa>, recovery: set<Recovery>, r: Request) {
      match r.proof
      case ByRecovery(code) => code in recovery
      case ByCode(_) => mfa.Some? && mfa.value.sealed == r.sealed && mfa.value.lastStep < r.step
    }

    /** The two statements that consume a factor; each tells by the rows it changed whether there was one. */
    method ConsumeFactor(r: Request) returns (consumed: bool)
      modifies this`recovery, this`mfa
      ensures consumed <==> Consume(old(View()), r).Some?
      ensures View() == if consumed then Consume(old(View()), r).value else old(View())
      ensures consumed <==> Redeemable(old(mfa), old(recovery), r)
      ensures recovery == if consumed && r.proof.ByRecovery? then old(recovery) - {r.proof.recovery} else old(recovery)
      ensures mfa == if consumed && r.proof.ByCode? then Some(Mfa(r.sealed, r.step)) else old(mfa)
    {
      match r.proof
      case ByRecovery(code) =>
        consumed := code in recovery;
        recovery := recovery - {code};
      case ByCode(_) =>
        consumed := mfa.Some? && mfa.value.lastStep < r.step && mfa.value.sealed == r.sealed;
        if consumed { mfa := Some(mfa.value.(lastStep := r.step)); }
    }

    /** One transaction: what is granted and the factor it costs commit together or not at all. */
    method Grant(r: Request) returns (granted: bool)
      modifies this
      ensures granted <==> Redeem(old(View()), r).Some?
      ensures View() == if granted then Redeem(old(View()), r).value else old(View())
      ensures granted <==> Redeemable(old(mfa), old(recovery), r) && (r.purpose.Authorize? ==> old(pending) == {})
      ensures recovery == if granted && r.proof.ByRecovery? then old(recovery) - {r.proof.recovery} else old(recovery)
      ensures mfa == if granted && r.proof.ByCode? then Some(Mfa(r.sealed, r.step)) else old(mfa)
      ensures sessions == if granted && r.purpose.SignIn? then old(sessions) + {r.purpose.token} else old(sessions)
      ensures enrollment == if granted && r.purpose.Replace? then Some(r.purpose.enrollment) else old(enrollment)
      ensures pending == if granted && r.purpose.Authorize? then {r.purpose.request} else old(pending)
      ensures owner == old(owner)
    {
      if r.purpose.Authorize? && pending != {} { return false; }
      granted := ConsumeFactor(r);
      if !granted { return; }
      match r.purpose
      case SignIn(token) => sessions := sessions + {token};
      case Replace(e) => enrollment := Some(e);
      case Authorize(request) => pending := pending + {request};
    }

    /** A first authenticator may be enrolled as long as there is none; a later enrollment takes the place of an earlier one. */
    method BeginSetup(e: Enrollment) returns (begun: bool)
      modifies this`enrollment
      ensures begun <==> mfa.None?
      ensures enrollment == if begun then Some(e) else old(enrollment)
    {
      if mfa.Some? { return false; }
      enrollment := Some(e);
      begun := true;
    }

    /** Confirming an enrollment replaces the authenticator and everything issued under the old one. */
    method ConfirmEnrollment(codes: Codes, token: nat, code: string, now: nat, nonce: nat, session: nat)
        returns (confirmed: bool)
      modifies this
      ensures confirmed <==>
                && old(enrollment).Some?
                && var e := old(enrollment).value;
                   && e.token == token && e.expiresAt > now && Verify(codes, e.secret, code, now).Some?
                   && (if e.user then old(owner) == Some(e.password) else old(owner).None?)
      ensures View() == if confirmed
                        then Confirmed(old(View()), old(enrollment).value,
                            Verify(codes, old(enrollment).value.secret, code, now).value, nonce, session)
                        else old(View())
      ensures confirmed ==>
                var e := old(enrollment).value;
                && owner == Some(e.password) && recovery == e.recovery && sessions == {session}
                && pending == {} && enrollment.None?
                && mfa.Some? && mfa.value.sealed == Sealed(e.secret, nonce)
                && mfa.value.lastStep >= 0 && InWindow(mfa.value.lastStep, now)
                && codes(e.secret, mfa.value.lastStep) == code
    {
      if enrollment.None? || enrollment.value.token != token || enrollment.value.expiresAt <= now { return false; }
      var e := enrollment.value;
      var step := Verify(codes, e.secret, code, now);
      if step.None? { return false; }
      if !e.user {
        if owner.Some? { return false; }
        owner := Some(e.password);
      } else if owner != Some(e.password) {
        return false;
      }
      mfa := Some(Mfa(Sealed(e.secret, nonce), step.value));
      recovery := {};
      recovery := recovery + e.recovery;
      sessions, pending, enrollment := {}, {}, None;
      sessions := sessions + {session};
      confirmed := true;
    }

    method RecoverOwner(password: nat) returns (recovered: bool)
      modifies this
      ensures recovered <==> old(owner).Some?
      ensures View() == if recovered then Reset(old(View()), password) else old(View())
      ensures recovered ==>
                && owner == Some(password) && mfa.None? && enrollment.None?
                && recovery == {} && sessions == {} && pending == {}
    {
      if owner.None? { return false; }
      owner := Some(password);
      pending, sessions, enrollment, recovery, mfa := {}, {}, None, {}, None;
      recovered := true;
    }

    method RevokeRestoredAuth(now: nat)
      modifies this
      ensures View() == Revoked(old(View()), now)
      ensures enrollment.None? && recovery == {} && sessions == {} && pending == {} && owner == old(owner)
      ensures mfa.Some? == old(mfa).Some?
      ensures mfa.Some? ==>
                && mfa.value.sealed == old(mfa).value.sealed
                && mfa.value.lastStep >= old(mfa).value.lastStep
                && (forall step: nat | InWindow(step, now) :: step <= mfa.value.lastStep)
                && (mfa.value.lastStep == old(mfa).value.lastStep
                    || (mfa.value.lastStep >= 0 && InWindow(mfa.value.lastStep, now)))
    {
      sessions, enrollment, recovery, pending := {}, None, {}, {};
      if mfa.Some? && mfa.value.lastStep < StepAt(now) + 1 { mfa := Some(mfa.value.(lastStep := StepAt(now) + 1)); }
    }
  }
}
