/**
The hand-off over whole runs: what a dispatched authorization is worth, that nothing is ever
rebound or repeated, and, where no administrator queues updates by hand, that one request at a
time is unfinished and only what the owner authorized becomes a job.
*/
module HandOffTheorems {
  import opened UpdateHandOff
  import opened HandOffSafety

  lemma {:induction false} EveryStateFits(worlds: seq<World>, actions: seq<Action>, n: nat)
    requires IsRun(worlds, actions) && n < |worlds|
    ensures Inv(worlds[n])
  {
    hide Next, Enabled;
    if n > 0 {
      EveryStateFits(worlds, actions, n - 1);
      assert StepAt(worlds, actions, n - 1);
      NextKeepsInv(worlds[n - 1], actions[n - 1]);
    }
  }

  /** Whatever was restored or lost in between: an authorization marked as handed over is on the host. */
  lemma DispatchedIsHeld(worlds: seq<World>, actions: seq<Action>, n: nat, id: Id)
    requires IsRun(worlds, actions) && n < |worlds|
    requires id in worlds[n].outbox && worlds[n].outbox[id].state.Dispatched?
    ensures Backed(worlds[n].host, Request(id, worlds[n].outbox[id].digest))
  {
    hide IsRun, HostFits, HolderFits, Backed;
    EveryStateFits(worlds, actions, n);
  }

  lemma AtMostOnePending(worlds: seq<World>, actions: seq<Action>, n: nat, a: Id, b: Id)
    requires IsRun(worlds, actions) && n < |worlds| && a in worlds[n].outbox && b in worlds[n].outbox
    requires worlds[n].outbox[a].state.Pending? && worlds[n].outbox[b].state.Pending?
    ensures a == b
  {
    hide IsRun, HostFits, HolderFits, Backed, Sound;
    EveryStateFits(worlds, actions, n);
  }

  lemma GrowthAdds(a: Host, b: Host, c: Host)
    requires Grows(a, b) && Grows(b, c)
    ensures Grows(a, c)
  {
  }

  /** A request id is never bound to a second digest, and no receipt or job ever disappears. */
  lemma {:induction false} BindingsLast(worlds: seq<World>, actions: seq<Action>, i: nat, k: nat)
    requires IsRun(worlds, actions) && i <= k < |worlds|
    ensures Grows(worlds[i].host, worlds[k].host)
  {
    if i < k {
      hide Next, Enabled, Inv, Initial, Grows;
      BindingsLast(worlds, actions, i, k - 1);
      EveryStateFits(worlds, actions, k - 1);
      assert StepAt(worlds, actions, k - 1);
      NextKeepsInv(worlds[k - 1], actions[k - 1]);
      GrowthAdds(worlds[i].host, worlds[k - 1].host, worlds[k].host);
    }
  }

  // ---------------------------------------------------------------- wake attempts

  /** A wake bears the number under which its receipt counted it; only a job nobody requested is woken without one. */
  predicate CountedWaker(h: Host, k: Waker) {
    if k.attempt > 0 then k.id in h.receipts && k.attempt <= h.receipts[k.id].attempts
    else k.id in h.jobs && k.id !in h.receipts
  }

  predicate SameAttempt(a: Waker, b: Waker) {
    a.attempt > 0 && a.id == b.id && a.attempt == b.attempt
  }

  predicate Counted(w: World) {
    && (forall id | id in w.host.receipts :: w.host.receipts[id].attempts <= WAKE_ATTEMPTS)
    && (forall k | k in w.wakers :: CountedWaker(w.host, k))
    && (forall k | k in w.woken :: CountedWaker(w.host, k))
    && (forall k, l | k in w.wakers && l in w.wakers && SameAttempt(k, l) :: k == l)
    && (forall k, l | k in w.wakers && l in w.woken :: !SameAttempt(k, l))
    && (forall i, j | 0 <= i < j < |w.woken| :: !SameAttempt(w.woken[i], w.woken[j]))
  }

  /** Apart from the counting step, no wake is asked for and no counter moves. */
  predicate NothingCounted(before: World, after: World) {
    && after.wakers == before.wakers && after.woken == before.woken
    && (forall id | id in before.host.receipts ::
        id in after.host.receipts && after.host.receipts[id].attempts == before.host.receipts[id].attempts)
    && (forall id | id in after.host.receipts && id !in before.host.receipts ::
        after.host.receipts[id].attempts == 0 && id !in before.host.jobs)
    && before.host.jobs.Keys <= after.host.jobs.Keys
  }

  lemma OtherStepsCountNothing(w: World, answer: Answer)
    requires Enabled(w, HostStep(answer)) && !w.holder.Counting?
    ensures NothingCounted(w, Next(w, HostStep(answer)))
  {
    hide Done, Idle;
  }

  lemma NothingCountedKeeps(before: World, after: World)
    requires Counted(before) && NothingCounted(before, after)
    ensures Counted(after)
  {
    hide SameAttempt;
  }

  lemma CountingKeepsCounted(w: World, answer: Answer)
    requires Counted(w) && Enabled(w, HostStep(answer)) && w.holder.Counting?
    ensures Counted(Next(w, HostStep(answer)))
  {
    hide Done, Idle, ResumeStep;
  }

  lemma WokenKeepsCounted(w: World, waker: Waker, ok: bool)
    requires Counted(w) && waker in w.wakers
    ensures Counted(Next(w, Woken(waker, ok)))
  {
    hide StartStep, ResumeStep;
    assert forall i | 0 <= i < |w.woken| :: w.woken[i] in w.woken;
  }

  lemma NextKeepsCounted(w: World, a: Action)
    requires Counted(w) && Enabled(w, a)
    ensures Counted(Next(w, a))
  {
    hide StartStep, ResumeStep, Done, NothingCounted, SameAttempt, CountedWaker;
    if a.HostStep? {
      if w.holder.Counting? {
        CountingKeepsCounted(w, a.answer);
      } else {
        OtherStepsCountNothing(w, a.answer);
        NothingCountedKeeps(w, Next(w, a));
      }
    } else if a.Woken? {
      WokenKeepsCounted(w, a.waker, a.ok);
    }
  }

  lemma {:induction false} EveryWakeIsCounted(worlds: seq<World>, actions: seq<Action>, n: nat)
    requires IsRun(worlds, actions) && n < |worlds|
    ensures Counted(worlds[n])
  {
    hide Next, Enabled;
    if n > 0 {
      EveryWakeIsCounted(worlds, actions, n - 1);
      assert StepAt(worlds, actions, n - 1);
      NextKeepsCounted(worlds[n - 1], actions[n - 1]);
    }
  }

  /** The wakes made for `id`, by their place in the run. */
  function WakesOf(w: World, id: Id): set<nat> {
    set k: nat | k < |w.woken| && w.woken[k].id == id
  }

  /** Wakes with different numbers from one to `bound`. */
  lemma {:induction false} FewNumbers(w: World, wakes: set<nat>, bound: nat)
    requires forall k | k in wakes :: k < |w.woken| && 0 < w.woken[k].attempt <= bound
    requires forall k, l | k in wakes && l in wakes && w.woken[k].attempt == w.woken[l].attempt :: k == l
    ensures |wakes| <= bound
  {
    if bound == 0 {
      assert wakes == {};
    } else if k :| k in wakes && w.woken[k].attempt == bound {
      FewNumbers(w, wakes - {k}, bound - 1);
    } else {
      FewNumbers(w, wakes, bound - 1);
    }
  }

  /** Over the whole run a receipt makes at most eight wakes, each under a number of its own from one to eight. */
  lemma EightWakes(worlds: seq<World>, actions: seq<Action>, n: nat, id: Id)
    requires IsRun(worlds, actions) && n < |worlds| && id in worlds[n].host.receipts
    ensures forall k | k in WakesOf(worlds[n], id) :: 1 <= worlds[n].woken[k].attempt <= 8
    ensures forall k, l | k in WakesOf(worlds[n], id) && l in WakesOf(worlds[n], id) && k != l ::
              worlds[n].woken[k].attempt != worlds[n].woken[l].attempt
    ensures |WakesOf(worlds[n], id)| <= 8
  {
    hide IsRun;
    EveryWakeIsCounted(worlds, actions, n);
    var w := worlds[n];
    forall k | k in WakesOf(w, id) ensures 1 <= w.woken[k].attempt <= WAKE_ATTEMPTS {
      assert w.woken[k] in w.woken && CountedWaker(w.host, w.woken[k]);
    }
    forall k, l | k in WakesOf(w, id) && l in WakesOf(w, id)
        && k != l ensures w.woken[k].attempt != w.woken[l].attempt {
      assert if k < l then !SameAttempt(w.woken[k], w.woken[l]) else !SameAttempt(w.woken[l], w.woken[k]);
    }
    FewNumbers(w, WakesOf(w, id), WAKE_ATTEMPTS);
  }

  // ---------------------------------------------------------------- without an administrator

  predicate OwnHolder(w: World) {
    match w.holder
    case Accepting(r) => r in w.authorized
    case Publishing(r) => r.id in w.host.receipts
    case Counting(r) => r.id in w.host.receipts
    case Refusing(id) => Requested(w.host, id)
    case Queueing(id, digest, owner) => owner && Requested(w.host, id) && w.host.receipts[id].digest == digest
    case Making(id, digest, owner) => owner && Requested(w.host, id) && w.host.receipts[id].digest == digest
    case Pointing(id, owner) => owner
    case _ => true
  }

  predicate Entitled(authorized: set<Request>, outbox: map<Id, Authorization>) {
    forall id | id in outbox :: Request(id, outbox[id].digest) in authorized
  }

  predicate Owned(w: World) {
    && OwnHolder(w)
    && Entitled(w.authorized, w.outbox) && (forall b | b in w.backups :: Entitled(w.authorized, b))
    && w.posted <= w.authorized
    && (forall id | id in w.host.receipts :: Request(id, w.host.receipts[id].digest) in w.authorized)
    && (forall id | id in w.host.jobs :: id in w.host.receipts && w.host.jobs[id].digest == w.host.receipts[id].digest)
  }

  predicate OneUnfinished(h: Host) {
    forall a, b | a in h.receipts && b in h.receipts && !Done(h, a) && !Done(h, b) :: a == b
  }

  lemma AcceptingKeepsOwned(w: World, answer: Answer)
    requires Owned(w) && OneUnfinished(w.host) && InPlace(w) && w.holder.Accepting?
    ensures Owned(StartStep(w, answer)) && OneUnfinished(StartStep(w, answer).host)
  {
    hide Entitled;
  }

  lemma PublishingKeepsOwned(w: World, answer: Answer)
    requires Owned(w) && OneUnfinished(w.host) && InPlace(w) && w.holder.Publishing?
    ensures Owned(StartStep(w, answer)) && OneUnfinished(StartStep(w, answer).host)
  {
    hide Entitled;
  }

  /** The same requests and jobs; a receipt may only have counted a wake, or failed. */
  predicate OnlyMarked(before: Host, after: Host) {
    && after == before.(receipts := after.receipts) && after.receipts.Keys == before.receipts.Keys
    && forall id | id in before.receipts ::
         after.receipts[id].digest == before.receipts[id].digest
             && (before.receipts[id].failed ==> after.receipts[id].failed)
  }

  lemma MarkingKeepsOwned(before: World, after: World)
    requires Owned(before) && OneUnfinished(before.host) && OnlyMarked(before.host, after.host) && after.holder.Nobody?
    requires after == before.(host := after.host, holder := Nobody, wakers := after.wakers, replies := after.replies)
    ensures Owned(after) && OneUnfinished(after.host)
  {
    hide Entitled;
  }

  lemma CountingOnlyMarks(w: World, answer: Answer)
    requires w.holder.Counting? && InPlace(w)
    ensures var after := StartStep(w, answer);
            OnlyMarked(w.host, after.host)
                && after == w.(host := after.host, holder := Nobody, wakers := after.wakers, replies := after.replies)
  {
  }

  lemma CountingKeepsOwned(w: World, answer: Answer)
    requires Owned(w) && OneUnfinished(w.host) && InPlace(w) && w.holder.Counting?
    ensures Owned(StartStep(w, answer)) && OneUnfinished(StartStep(w, answer).host)
  {
    hide Owned, OneUnfinished, StartStep, OnlyMarked, InPlace;
    CountingOnlyMarks(w, answer);
    MarkingKeepsOwned(w, StartStep(w, answer));
  }

  lemma ResumingKeepsOwned(w: World, answer: Answer)
    requires Owned(w) && OneUnfinished(w.host) && InPlace(w) && w.holder.Resuming?
    ensures Owned(ResumeStep(w, answer)) && OneUnfinished(ResumeStep(w, answer).host)
  {
    hide Entitled;
  }

  lemma QueueingKeepsOwned(w: World, answer: Answer)
    requires Owned(w) && OneUnfinished(w.host) && InPlace(w) && w.holder.Queueing?
    ensures Owned(ResumeStep(w, answer)) && OneUnfinished(ResumeStep(w, answer).host)
  {
    hide Entitled;
  }

  lemma MakingKeepsOwned(w: World, answer: Answer)
    requires Owned(w) && OneUnfinished(w.host) && InPlace(w) && w.holder.Making?
    ensures Owned(ResumeStep(w, answer)) && OneUnfinished(ResumeStep(w, answer).host)
  {
    hide Entitled;
  }

  lemma PointingKeepsOwned(w: World, answer: Answer)
    requires Owned(w) && OneUnfinished(w.host) && InPlace(w) && w.holder.Pointing?
    ensures Owned(ResumeStep(w, answer)) && OneUnfinished(ResumeStep(w, answer).host)
  {
    hide Entitled;
  }

  lemma RefusingKeepsOwned(w: World, answer: Answer)
    requires Owned(w) && OneUnfinished(w.host) && InPlace(w) && w.holder.Refusing?
    ensures Owned(ResumeStep(w, answer)) && OneUnfinished(ResumeStep(w, answer).host)
  {
    hide Entitled;
  }

  /** The engine moves the job on, and a finished job stays where it is. */
  lemma WorkingStep(w: World, answer: Answer)
    requires InPlace(w) && w.holder.Working?
    ensures var id := w.holder.id;
            ResumeStep(w, answer) == if w.host.jobs[id].phase.Finished? || answer.phase.Queued? then Hold(w, Nobody)
                                     else w.(host := w.host.(jobs := w.host.jobs[id := w.host.jobs[id].(phase := answer.phase)]))
  {
  }

  lemma WorkingKeepsOwned(w: World, answer: Answer)
    requires Owned(w) && OneUnfinished(w.host) && InPlace(w) && w.holder.Working?
    ensures Owned(ResumeStep(w, answer)) && OneUnfinished(ResumeStep(w, answer).host)
  {
    hide Entitled, ResumeStep, OneUnfinished;
    WorkingStep(w, answer);
    if !w.host.jobs[w.holder.id].phase.Finished? { MovingOn(w.host, w.holder.id, answer.phase); }
  }

  lemma MovingOn(h: Host, id: Id, phase: JobPhase)
    requires OneUnfinished(h) && id in h.jobs && !h.jobs[id].phase.Finished?
    ensures OneUnfinished(h.(jobs := h.jobs[id := h.jobs[id].(phase := phase)]))
  {
  }

  lemma NextKeepsOwned(w: World, a: Action)
    requires Owned(w) && OneUnfinished(w.host) && Enabled(w, a) && !a.Administer?
    ensures Owned(Next(w, a)) && OneUnfinished(Next(w, a).host)
  {
    hide StartStep, ResumeStep, InPlace, OneUnfinished;
    if a.HostStep? {
      hide Owned;
      match w.holder
      case Accepting(_) => AcceptingKeepsOwned(w, a.answer);
      case Publishing(_) => PublishingKeepsOwned(w, a.answer);
      case Counting(_) => CountingKeepsOwned(w, a.answer);
      case Resuming => ResumingKeepsOwned(w, a.answer);
      case Queueing(_, _, _) => QueueingKeepsOwned(w, a.answer);
      case Making(_, _, _) => MakingKeepsOwned(w, a.answer);
      case Pointing(_, _) => PointingKeepsOwned(w, a.answer);
      case Refusing(_) => RefusingKeepsOwned(w, a.answer);
      case Working(_) => WorkingKeepsOwned(w, a.answer);
    }
  }

  /** No administrator queues an update by hand. */
  predicate OwnersOnly(actions: seq<Action>, n: nat) {
    n <= |actions| && forall i | 0 <= i < n :: !actions[i].Administer?
  }

  lemma {:induction false} OwnersRun(worlds: seq<World>, actions: seq<Action>, n: nat)
    requires IsRun(worlds, actions) && n < |worlds| && OwnersOnly(actions, n)
    ensures Owned(worlds[n]) && OneUnfinished(worlds[n].host)
  {
    if n > 0 {
      hide Next, Enabled, Initial, Owned, OneUnfinished;
      OwnersRun(worlds, actions, n - 1);
      assert StepAt(worlds, actions, n - 1);
      NextKeepsOwned(worlds[n - 1], actions[n - 1]);
    }
  }

  /** The request has a job that is not at its end, or has neither a job nor a refusal yet. */
  predicate Unfinished(h: Host, id: Id) {
    if id in h.jobs then h.jobs[id].phase != Finished else id in h.receipts && !h.receipts[id].failed
  }

  /** At most one owner's request is unfinished, even if the host died between its receipt and the pointer to it. */
  lemma OneUnfinishedRequest(worlds: seq<World>, actions: seq<Action>, n: nat, a: Id, b: Id)
    requires IsRun(worlds, actions) && n < |worlds| && OwnersOnly(actions, n)
    requires a in worlds[n].host.receipts && b in worlds[n].host.receipts
    requires Unfinished(worlds[n].host, a) && Unfinished(worlds[n].host, b)
    ensures a == b
  {
    hide IsRun, Owned;
    OwnersRun(worlds, actions, n);
  }

  /** Every job carries out what the owner authorized under the very same id and digest. */
  lemma OnlyAuthorizedJobs(worlds: seq<World>, actions: seq<Action>, n: nat, id: Id)
    requires IsRun(worlds, actions) && n < |worlds| && OwnersOnly(actions, n) && id in worlds[n].host.jobs
    ensures Request(id, worlds[n].host.jobs[id].digest) in worlds[n].authorized
  {
    hide IsRun, OneUnfinished;
    OwnersRun(worlds, actions, n);
  }
}
