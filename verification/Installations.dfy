/**
The installer's journal: which phase an installation is in, how often it may still be run, and
what has been done when it says that it succeeded.

The journal is one file that is replaced as a whole. The process may die at each replacement
and in the middle of each operation; what was started and what has returned is kept beside the
journal, for the proofs alone.
*/
module Installations {
  import opened Options

  /** `At(n)` is the n-th of the phases. */
  datatype Phase = Pending | At(n: nat) | Succeeded | Failed

  datatype State = State(job: string, phase: Phase, resume: Phase, attempts: nat, deadline: int, address: string,
      digest: string)

  datatype Result = Done | Refused | Raised | Died

  const BUDGET := 3
  const MINUTES_45 := 2700

  /** What an accepted request makes of the journal: a new job, a failed one renewed at its failed phase, or the very same. */
  function Begun(journal: Option<State>, address: string, digest: string, drawn: string, now: int): State {
    match journal
    case None => State(drawn, Pending, Pending, 0, now + MINUTES_45, address, digest)
    case Some(s) => if s.phase.Failed? then s.(phase := s.resume, attempts := 0, deadline := now + MINUTES_45) else s
  }

  /** The index of the phase that a run begins with. */
  function Next(p: Phase): nat {
    if p.At? then p.n else 0
  }

  predicate Climbs(s: seq<nat>) {
    forall i, j | 0 <= i < j < |s| :: s[i] <= s[j]
  }

  lemma OneMoreStep(s: seq<nat>, n: nat)
    requires Climbs(s) && (s != [] ==> s[|s| - 1] <= n)
    ensures Climbs(s + [n])
  {
  }

  class Installation {
    const phases: nat  // how many there are
    var journal: Option<State>
    var trust: Option<string>  // the digest of the distribution that the host trusts
    ghost var started: seq<nat>   // the operations started, over all runs
    ghost var returned: seq<nat>  // the operations that have returned
    ghost var runs: nat           // the runs since the last accepted request
    ghost var deaths: nat         // how often the process has died

    /** Everything before the present phase has returned, everything started has climbed, and three runs are the most. */
    ghost predicate Valid()
      reads this
    {
      && Climbs(started) && Climbs(returned)
      && (journal.None? ==> started == [] && returned == [] && runs == 0)
      && (journal.Some? ==>
            var s := journal.value;
            && trust == Some(s.digest)
            && runs <= s.attempts <= BUDGET
            && (s.phase.Pending? || s.phase.At? ==> s.resume == s.phase)
            && (s.resume.Pending? || s.resume.At?)
            && Next(s.resume) < phases
            && ReturnedBelow(Next(s.resume))
            && (started != [] ==> started[|started| - 1] <= Next(s.resume))
            && (returned != [] ==> returned[|returned| - 1] <= Next(s.resume))
            && (s.phase.Succeeded? ==> ReturnedBelow(phases)))
    }

    constructor (phases: nat)
      requires phases > 0
      ensures Valid() && journal.None? && this.phases == phases
    {
      this.phases := phases;
      journal, trust, started, returned, runs, deaths := None, None, [], [], 0, 0;
    }

    /**
    A request is accepted once; the same request again finds the same job, and renews it only where
    it failed. What is trusted is written first, and the process may die before each of the two writes.
    */
    method Begin(address: string, digest: string, drawn: string, now: int, conflicts: bool) returns (result: Result)
      requires Valid() && phases > 0
      modifies this
      ensures Valid() && started == old(started) && returned == old(returned)
      ensures !result.Raised?
      ensures result.Refused? <==>
                if old(journal).Some? then old(journal).value.address != address
                || old(journal).value.digest != digest else conflicts
      ensures journal == if result.Done? then Some(Begun(old(journal), address, digest, drawn, now)) else old(journal)
      ensures trust == old(trust) || (trust == Some(digest) && !result.Refused?)
      ensures result.Done? ==> trust == Some(digest)
      ensures result.Done? && old(journal).None? ==>
                journal == Some(State(drawn, Pending, Pending, 0, now + 2700, address, digest)) && runs == 0
      ensures result.Done? && old(journal).Some? && old(journal).value.phase.Failed? ==>
                && journal == Some(old(journal).value.(phase := old(journal).value.resume, attempts := 0,
                    deadline := now + 2700))
                && runs == 0
      ensures old(journal).Some? && !old(journal).value.phase.Failed? ==>
                (result.Done? || result.Refused?) && journal == old(journal) && trust == old(trust) && runs == old(runs)
      ensures deaths == if result.Died? then old(deaths) + 1 else old(deaths)
    {
      if journal.Some? {
        if journal.value.address != address || journal.value.digest != digest { return Refused; }
        if !journal.value.phase.Failed? { return Done; }
      } else if conflicts {
        return Refused;
      }
      var alive := Lives();
      if !alive { return Died; }
      trust := Some(digest);
      alive := Lives();
      if !alive { return Died; }
      journal, runs := Some(Begun(journal, address, digest, drawn, now)), 0;
      result := Done;
    }

    /** The process may die before the next write. */
    method Lives() returns (alive: bool)
      modifies this`deaths
      ensures deaths == if alive then old(deaths) else old(deaths) + 1
    {
      alive := *;
      if !alive { deaths := deaths + 1; }
    }

    predicate Running()
      reads this
    {
      journal.Some? && (journal.value.phase.Pending? || journal.value.phase.At?)
    }

    /** Every operation before this one has returned. */
    ghost predicate ReturnedBelow(n: nat)
      reads this
    {
      forall k | 0 <= k < n :: k in returned
    }

    /** The journal is replaced by one with another phase; the process may die before it. */
    method Fail() returns (alive: bool)
      requires Valid() && journal.Some?
      modifies this`journal, this`deaths
      ensures Valid() && journal == if alive then Some(old(journal).value.(phase := Failed)) else old(journal)
      ensures deaths == if alive then old(deaths) else old(deaths) + 1
    {
      alive := Lives();
      if alive { journal := Some(journal.value.(phase := Failed)); }
    }

    /** The run is counted before anything is done. */
    method Charge() returns (alive: bool)
      requires Valid() && Running() && journal.value.attempts < BUDGET
      modifies this`journal, this`runs, this`deaths
      ensures Valid() && journal.Some? && Running()
      ensures journal == if alive then Some(old(journal).value.(attempts := old(journal).value.attempts + 1))
                else old(journal)
      ensures runs == if alive then old(runs) + 1 else old(runs)
      ensures deaths == if alive then old(deaths) else old(deaths) + 1
    {
      alive := Lives();
      if alive {
        journal := Some(journal.value.(attempts := journal.value.attempts + 1));
        runs := runs + 1;
      }
    }

    method Enter(n: nat) returns (alive: bool)
      requires Valid() && Running() && Next(journal.value.phase) <= n < phases && ReturnedBelow(n)
      modifies this`journal, this`deaths
      ensures Valid() && Running()
      ensures journal == if alive then Some(old(journal).value.(phase := At(n), resume := At(n))) else old(journal)
      ensures deaths == if alive then old(deaths) else old(deaths) + 1
    {
      alive := Lives();
      if alive { journal := Some(journal.value.(phase := At(n), resume := At(n))); }
    }

    method Succeed() returns (alive: bool)
      requires Valid() && Running() && ReturnedBelow(phases)
      modifies this`journal, this`deaths
      ensures Valid() && journal == if alive then Some(old(journal).value.(phase := Succeeded)) else old(journal)
      ensures deaths == if alive then old(deaths) else old(deaths) + 1
    {
      alive := Lives();
      if alive { journal := Some(journal.value.(phase := Succeeded)); }
    }

    /** An operation is started; it returns, fails, or takes the process with it. */
    method Operate(n: nat) returns (result: Result)
      requires Valid() && Running() && journal.value.phase == At(n)
      modifies this`started, this`returned, this`deaths
      ensures Valid() && started == old(started) + [n]
      ensures !result.Refused?
      ensures returned == if result.Done? then old(returned) + [n] else old(returned)
      ensures deaths == if result.Died? then old(deaths) + 1 else old(deaths)
    {
      OneMoreStep(started, n);
      OneMoreStep(returned, n);
      started := started + [n];
      var comesBack: bool, dies: bool := *, *;
      if comesBack { returned := returned + [n]; }
      result := if comesBack then Done else if dies then Died else Raised;
      if result.Died? { deaths := deaths + 1; }
    }

    /**
    One run: it goes on from the durable phase, and if it comes to the end every operation of every
    phase has returned, in order. A run that is cut short leaves the phase to go on from. `clock`
    gives the time read at the beginning of the run, and then before each operation.
    */
    method Run(trusted: bool, clock: nat -> int) returns (result: Result)
      requires Valid() && journal.Some?
      modifies this
      ensures Valid() && journal.Some? && journal.value.job == old(journal).value.job
      ensures old(started) <= started && old(returned) <= returned
      ensures !old(Running()) ==> journal == old(journal) && started == old(started)
      ensures !result.Refused?
      ensures result.Raised? ==>
                runs == old(runs) + 1 && (journal.value.attempts >= BUDGET ==> journal.value.phase.Failed?)
      ensures result.Done? && old(Running()) ==>
                journal.value.phase.Succeeded? || (journal.value.phase.Failed? && started == old(started))
      ensures runs == old(runs) || (runs == old(runs) + 1 && old(journal).value.attempts < BUDGET)
      ensures deaths == if result.Died? then old(deaths) + 1 else old(deaths)
      ensures old(Running()) && !result.Died?
                && (old(journal).value.attempts >= 3 || clock(0) >= old(journal).value.deadline) ==>
                journal == Some(old(journal).value.(phase := Failed)) && started == old(started)
      ensures old(Running()) && !result.Died? && old(journal).value.attempts < 3
                && clock(0) < old(journal).value.deadline ==>
                && runs == old(runs) + 1 && journal.value.attempts == old(journal).value.attempts + 1
                && (journal.value.phase.Failed? ==> journal.value.attempts >= 3)
                && (if trusted then clock(1) < old(journal).value.deadline ==> old(started) < started
                    else result.Raised? && started == old(started))
      ensures forall i | 0 < i <= |started| - |old(started)| :: trusted && clock(i) < old(journal).value.deadline
      ensures result.Raised? && trusted ==> LateOrLost(old(started), old(returned), clock, old(journal).value.deadline)
    {
      hide Valid, ReturnedBelow;
      if !Running() { result := Done; return; }
      var alive;
      if journal.value.attempts >= BUDGET || clock(0) >= journal.value.deadline {
        alive := Fail();
        result := if alive then Done else Died;
        return;
      }
      alive := Charge();
      if !alive { result := Died; return; }
      result := Raised;
      if trusted { result := GoOn(clock); }
      if result.Raised? && journal.value.attempts >= BUDGET {
        alive := Fail();
        if !alive { result := Died; }
      }
    }

    /** The last operation started did not return, or all did and the time before the next one was past the deadline. */
    ghost predicate LateOrLost(before: seq<nat>, backBefore: seq<nat>, clock: nat -> int, deadline: int)
      requires before <= started && backBefore <= returned
      reads this
    {
      var begun, back := |started| - |before|, |returned| - |backBefore|;
      begun == back + 1 || (begun == back && clock(begun + 1) >= deadline)
    }

    /** The phase is written, and then its operation is started. */
    method Perform(n: nat) returns (result: Result)
      requires Valid() && Running() && Next(journal.value.phase) <= n < phases && ReturnedBelow(n)
      modifies this`journal, this`started, this`returned, this`deaths
      ensures Valid() && Running() && (result.Done? ==> ReturnedBelow(n + 1))
      ensures journal == old(journal)
                || journal == Some(old(journal).value.(phase := At(n), resume := At(n)))
      ensures result.Done? ==> journal.value.phase == At(n) && returned == old(returned) + [n]
      ensures !result.Done? ==> returned == old(returned)
      ensures started == old(started) + [n] || (result.Died? && started == old(started))
      ensures !result.Refused? && deaths == if result.Died? then old(deaths) + 1 else old(deaths)
    {
      ghost var before := returned;
      assert forall k | 0 <= k < n :: k in before;
      hide Valid, ReturnedBelow;
      var alive := Enter(n);
      if !alive { return Died; }
      result := Operate(n);
      if result.Done? { OneMoreReturned(before, n); }
    }

    method GoOn(clock: nat -> int) returns (result: Result)
      requires Valid() && Running()
      modifies this`journal, this`started, this`returned, this`deaths
      ensures Valid() && journal.Some? && journal.value.job == old(journal).value.job
                && journal.value.attempts == old(journal).value.attempts
      ensures old(started) <= started && old(returned) <= returned
      ensures result.Done? ==> journal.value.phase.Succeeded?
      ensures !result.Refused? && !journal.value.phase.Failed?
      ensures clock(1) < old(journal).value.deadline && !result.Died? ==> old(started) < started
      ensures forall i | 0 < i <= |started| - |old(started)| :: clock(i) < old(journal).value.deadline
      ensures result.Raised? ==> LateOrLost(old(started), old(returned), clock, old(journal).value.deadline)
      ensures deaths == if result.Died? then old(deaths) + 1 else old(deaths)
    {
      var n := Next(journal.value.phase);
      var first := n;
      assert ReturnedBelow(n) && n < phases;
      hide Valid, ReturnedBelow;
      while n < phases
        invariant Valid() && Running() && Next(journal.value.phase) <= n <= phases && ReturnedBelow(n)
        invariant journal.value.job == old(journal).value.job && journal.value.attempts == old(journal).value.attempts
        invariant journal.value.deadline == old(journal).value.deadline
        invariant |started| - |old(started)| == |returned| - |old(returned)| == n - first
        invariant forall i | 0 < i <= n - first :: clock(i) < journal.value.deadline
        invariant old(started) <= started && old(returned) <= returned && deaths == old(deaths)
      {
        if clock(n - first + 1) >= journal.value.deadline { result := Raised; return; }
        result := Perform(n);
        if !result.Done? { return; }
        n := n + 1;
      }
      var alive := Succeed();
      result := if alive then Done else Died;
    }

    lemma OneMoreReturned(before: seq<nat>, n: nat)
      requires returned == before + [n] && forall k | 0 <= k < n :: k in before
      ensures ReturnedBelow(n + 1)
    {
    }
  }
}
