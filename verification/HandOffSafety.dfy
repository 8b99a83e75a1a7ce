/**
What the hand-off of an authorized update guarantees over every run.
*/
module HandOffSafety {
  import opened UpdateHandOff

  /** The host durably holds a receipt or a job of exactly this id and digest. */
  predicate Backed(h: Host, r: Request) {
    || (r.id in h.receipts && h.receipts[r.id].digest == r.digest)
    || (r.id in h.jobs && h.jobs[r.id].digest == r.digest)
  }

  /** Nothing durable on the host is ever taken back: ids keep their digests, and what is done stays done. */
  predicate Grows(before: Host, after: Host) {
    && (forall id | id in before.receipts ::
          && id in after.receipts && after.receipts[id].digest == before.receipts[id].digest
          && after.receipts[id].attempts >= before.receipts[id].attempts)
    && (forall id | id in before.jobs :: id in after.jobs && after.jobs[id].digest == before.jobs[id].digest)
  }

  predicate Sound(w: World, outbox: map<Id, Authorization>) {
    forall id | id in outbox && outbox[id].state.Dispatched? :: Backed(w.host, Request(id, outbox[id].digest))
  }

  predicate OnePending(outbox: map<Id, Authorization>) {
    forall a, b | a in outbox && b in outbox && outbox[a].state.Pending? && outbox[b].state.Pending? :: a == b
  }

  predicate HolderFits(w: World) {
    match w.holder
    case Publishing(r) => r.id in w.host.receipts
    case Making(id, _, _) => id in w.host.folders && id !in w.host.jobs
    case Pointing(id, _) => id in w.host.jobs
    case _ => true
  }

  predicate HostFits(h: Host) {
    && h.jobs.Keys <= h.folders
    && (h.pointer.Some? ==> h.pointer.value in h.receipts)
    && (h.current.Some? ==> h.current.value in h.jobs)
  }

  predicate Inv(w: World) {
    && Sound(w, w.outbox) && OnePending(w.outbox)
    && (forall b | b in w.backups :: Sound(w, b))
    && (forall r | r in w.replies :: Backed(w.host, r))
    && (forall k | k in w.wakers :: Backed(w.host, Request(k.id, k.reported)))
    && (w.api.Calling? ==> w.api.request.id in w.outbox && w.outbox[w.api.request.id].digest == w.api.request.digest)
    && HostFits(w.host) && HolderFits(w)
  }

  /** What one step of the host does: nothing is taken back, and every answer it prepares is backed. */
  ghost predicate HostStepIsWell(before: World, after: World) {
    && Grows(before.host, after.host) && HostFits(after.host) && HolderFits(after)
    && after == before.(host := after.host, holder := after.holder, wakers := after.wakers, replies := after.replies)
    && (forall k | k in after.wakers - before.wakers :: Backed(after.host, Request(k.id, k.reported)))
    && (forall r | r in after.replies - before.replies :: Backed(after.host, r))
  }

  lemma AcceptingIsWell(w: World, answer: Answer)
    requires HostFits(w.host) && HolderFits(w) && w.holder.Accepting?
    ensures HostStepIsWell(w, StartStep(w, answer))
  {
    hide Idle, Done;
  }

  lemma StartIsWell(w: World, answer: Answer)
    requires HostFits(w.host) && HolderFits(w) && Starts(w.holder) && InPlace(w)
    ensures HostStepIsWell(w, StartStep(w, answer))
  {
    hide Idle, Done;
    if w.holder.Accepting? { AcceptingIsWell(w, answer); }
  }

  lemma ResumingIsWell(w: World, answer: Answer)
    requires HostFits(w.host) && HolderFits(w) && InPlace(w) && w.holder.Resuming?
    ensures HostStepIsWell(w, ResumeStep(w, answer))
  {
    hide Backed, Done;
  }

  lemma QueueingIsWell(w: World, answer: Answer)
    requires HostFits(w.host) && HolderFits(w) && InPlace(w) && w.holder.Queueing?
    ensures HostStepIsWell(w, ResumeStep(w, answer))
  {
    hide Backed, Done;
  }

  lemma MakingIsWell(w: World, answer: Answer)
    requires HostFits(w.host) && HolderFits(w) && InPlace(w) && w.holder.Making?
    ensures HostStepIsWell(w, ResumeStep(w, answer))
  {
    hide Backed, Done;
  }

  lemma PointingIsWell(w: World, answer: Answer)
    requires HostFits(w.host) && HolderFits(w) && InPlace(w) && w.holder.Pointing?
    ensures HostStepIsWell(w, ResumeStep(w, answer))
  {
    hide Backed, Done;
  }

  lemma WorkIsWell(w: World, answer: Answer)
    requires HostFits(w.host) && HolderFits(w) && InPlace(w) && (w.holder.Refusing? || w.holder.Working?)
    ensures HostStepIsWell(w, ResumeStep(w, answer))
  {
    hide Backed, Done;
  }

  lemma WorkOrNothing(w: World, answer: Answer)
    requires HostFits(w.host) && HolderFits(w) && InPlace(w)
    requires !Starts(w.holder) && !w.holder.Resuming? && !w.holder.Queueing? && !w.holder.Making? && !w.holder.Pointing?
    ensures HostStepIsWell(w, ResumeStep(w, answer))
  {
    if !w.holder.Nobody? { WorkIsWell(w, answer); }
  }

  lemma ResumeIsWell(w: World, answer: Answer)
    requires HostFits(w.host) && HolderFits(w) && !Starts(w.holder) && InPlace(w)
    ensures HostStepIsWell(w, ResumeStep(w, answer))
  {
    hide ResumeStep, HostStepIsWell, HostFits, HolderFits, InPlace;
    if w.holder.Resuming? { ResumingIsWell(w, answer); } else if w.holder.Queueing? { QueueingIsWell(w, answer); }
    else if w.holder.Making? { MakingIsWell(w, answer); } else if w.holder.Pointing? { PointingIsWell(w, answer); }
    else { WorkOrNothing(w, answer); }
  }

  lemma GrowthKeepsBacked(before: Host, after: Host, r: Request)
    requires Grows(before, after) && Backed(before, r)
    ensures Backed(after, r)
  {
  }

  lemma HostStepKeepsInv(w: World, answer: Answer)
    requires Inv(w) && Enabled(w, HostStep(answer))
    ensures Inv(Next(w, HostStep(answer))) && Grows(w.host, Next(w, HostStep(answer)).host)
  {
    hide StartStep, ResumeStep, Grows, HostFits, HolderFits, OnePending, Backed, InPlace;
    if Starts(w.holder) { StartIsWell(w, answer); } else { ResumeIsWell(w, answer); }
    var after := Next(w, HostStep(answer));
    forall r | Backed(w.host, r) ensures Backed(after.host, r) { GrowthKeepsBacked(w.host, after.host, r); }
  }

  lemma NextKeepsInv(w: World, a: Action)
    requires Inv(w) && Enabled(w, a)
    ensures Inv(Next(w, a)) && Grows(w.host, Next(w, a).host)
  {
    hide StartStep, ResumeStep, HostFits, InPlace, Backed;
    if a.HostStep? { HostStepKeepsInv(w, a.answer); }
  }
}
