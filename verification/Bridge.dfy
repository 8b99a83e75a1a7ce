/**
The host side of the hand-off: the bridge that accepts requests into the inbox, and the
coordinator's queue. A method holds the exclusive lock while it runs, so between its
durable writes nothing else touches the inbox; but it may die at each of them.
*/
module UpdateBridge {
  import opened Options
  import opened UpdateHandOff
  import opened HandOffSafety
  import opened HandOffTheorems

  /** How a request ends: with what `status` reports, with a protocol error, or with the process. */
  datatype Ending = Answered(digest: Digest) | Refused | Died

  /** The job, if there is one, is finished, and else the request was refused. */
  predicate AtEnd(h: Host, id: Id) {
    if id in h.jobs then h.jobs[id].phase == Finished else id in h.receipts && h.receipts[id].failed
  }

  /** All is idle, there is room, and the catalog offers exactly what is asked for. */
  predicate MayAccept(h: Host, r: Request, candidate: Option<Digest>) {
    && (h.pointer.Some? ==> AtEnd(h, h.pointer.value)) && (h.current.Some? ==> AtEnd(h, h.current.value))
    && (forall id | id in h.receipts :: AtEnd(h, id))
    && |h.receipts| < 4096 && candidate == Some(r.digest)
  }

  /**
  Nothing else is under way, and the release verifies; where the job's directory is there already,
  the job in it is of this digest and only its publication may have to wait for others.
  */
  predicate Queueable(h: Host, id: Id, digest: Digest, verified: bool) {
    var free := h.current.Some? ==> AtEnd(h, h.current.value);
    if id !in h.folders then verified && free
    else
      && id in h.jobs && h.jobs[id].digest == digest
      && (h.jobs[id].phase == Queued && h.current != Some(id) ==> free)
  }

  lemma FinishedIsAtEnd(h: Host, id: Id)
    ensures AtEnd(h, id) <==> Done(h, id)
  {
  }

  lemma AcceptableIsIdle(h: Host, r: Request, candidate: Option<Digest>)
    ensures MayAccept(h, r, candidate) <==> Idle(h) && |h.receipts| < MAX_RECEIPTS && candidate == Some(r.digest)
  {
  }

  lemma NewReceiptKeepsDone(h: Host, id: Id, receipt: Receipt)
    requires id !in h.receipts && id !in h.jobs && h.pointer.Some? && Done(h, h.pointer.value)
    ensures h.pointer.value != id && Done(h.(receipts := h.receipts[id := receipt]), h.pointer.value)
  {
  }

  class Bridge {
    var receipts: map<Id, Receipt>
    var pointer: Option<Id>
    var current: Option<Id>
    var jobs: map<Id, Job>
    var folders: set<Id>
    ghost var rest: World  // the application, the lock and the wakes; its inbox is not used
    ghost var worlds: seq<World>
    ghost var actions: seq<Action>

    function Inbox(): Host
      reads this
    {
      Host(receipts, pointer, current, jobs, folders)
    }

    ghost function View(): World
      reads this
    {
      rest.(host := Inbox())
    }

    ghost predicate Valid()
      reads this
    {
      IsRun(worlds, actions) && worlds[|worlds| - 1] == View()
    }

    /** The latest thing that happened is the death of the host process. */
    ghost predicate Dead()
      reads this
    {
      |actions| > 0 && actions[|actions| - 1].HostDies?
    }

    constructor ()
      ensures Valid() && receipts == map[] && jobs == map[] && pointer.None? && current.None?
    {
      receipts, pointer, current, jobs, folders := map[], None, None, map[], {};
      rest := World(map[], {}, Resting, {}, {}, Host(map[], None, None, map[], {}), Nobody, {}, {}, []);
      new;
      worlds, actions := [View()], [];
    }

    /** Appends the step just taken to the run. */
    ghost method Took(a: Action)
      requires IsRun(worlds, actions)
      requires Enabled(worlds[|worlds| - 1], a) && View() == Next(worlds[|worlds| - 1], a)
      modifies this`worlds, this`actions
      ensures Valid() && old(worlds) < worlds && actions == old(actions) + [a]
    {
      hide Next, Enabled, Initial;
      var before, did := worlds, actions;
      worlds, actions := worlds + [View()], actions + [a];
      forall i | 0 <= i < |actions| ensures StepAt(worlds, actions, i) {
        if i < |did| { assert StepAt(before, did, i); }
      }
    }

    /** The process may die before the next durable write. */
    method Lives() returns (alive: bool)
      requires Valid()
      modifies this`rest, this`worlds, this`actions
      ensures Valid() && old(worlds) <= worlds && old(actions) <= actions
      ensures !alive ==> |old(actions)| < |actions| && Dead()
      ensures if alive then rest == old(rest) else rest.holder.Nobody?
    {
      hide IsRun, Initial;
      alive := *;
      if !alive {
        rest := rest.(holder := Nobody, wakers := {});
        Took(HostDies);
      }
    }

    /** What the scan of all receipts finds: whether every one of them is done. */
    method AllDone() returns (done: bool)
      ensures done <==> forall id | id in receipts :: Done(Inbox(), id)
    {
      var left := receipts.Keys;
      while left != {}
        invariant left <= receipts.Keys && forall id | id in receipts && id !in left :: Done(Inbox(), id)
      {
        var id :| id in left;
        if !Done(Inbox(), id) { return false; }
        left := left - {id};
      }
      done := true;
    }

    /** The lock is released with nothing further written. */
    method Refuse(ghost answer: Answer)
      requires Valid() && Enabled(View(), HostStep(answer)) && Next(View(), HostStep(answer)) == Hold(View(), Nobody)
      modifies this`rest, this`worlds, this`actions
      ensures Valid() && old(worlds) <= worlds && old(actions) <= actions && rest == old(rest).(holder := Nobody)
    {
      hide IsRun, Initial, Next, Enabled;
      rest := rest.(holder := Nobody);
      Took(HostStep(answer));
    }

    /** One more wake was counted and made; or all were used up and nothing was woken. */
    static predicate Woken(was: Receipt, now: Receipt, before: seq<Waker>, woken: seq<Waker>, id: Id) {
      if was.attempts < 8 then
        && now == was.(attempts := was.attempts + 1)
        && |woken| == |before| + 1 && woken[|before|].id == id && woken[|before|].attempt == now.attempts
      else woken == before && now.attempts == was.attempts
    }

    /** The bounded, durably counted attempt to wake the coordinator; the wake itself comes after the lock is released. */
    method Count(r: Request, ghost answer: Answer) returns (end: Ending)
      requires Valid() && rest.holder == Counting(r) && Held(Inbox(), r.id)
      modifies this`receipts, this`rest, this`worlds, this`actions
      ensures Valid() && old(worlds) <= worlds && old(actions) <= actions && rest.holder.Nobody?
      ensures end.Died? ==> |old(actions)| < |actions| && Dead()
      ensures OnlyMarked(old(Inbox()), Inbox())
      ensures r.id in receipts ==> receipts[r.id].attempts <= Larger(WAKE_ATTEMPTS, old(receipts)[r.id].attempts)
      ensures end.Answered? ==> end.digest == Reported(Inbox(), r.id)
      ensures !end.Died? && r.id in old(receipts) ==>
                Woken(old(receipts)[r.id], receipts[r.id], old(rest).woken, rest.woken, r.id)
    {
      hide IsRun, Initial, Done, ResumeStep, StartStep, Idle;
      var attempt := 0;
      if r.id in receipts {
        if receipts[r.id].attempts >= WAKE_ATTEMPTS {
          end := TooMany(r, answer);
          return;
        }
        var alive := Lives();
        if !alive { return Died; }
        attempt := receipts[r.id].attempts + 1;
      }
      var reported := if r.id in jobs then jobs[r.id].digest else receipts[r.id].digest;
      SendWaker(r, attempt, answer);
      end := WakeUp(Waker(r.id, reported, attempt));
    }

    /** All attempts are used up: without a job the request fails, with one only the engine may decide. */
    method TooMany(r: Request, ghost answer: Answer) returns (end: Ending)
      requires Valid() && rest.holder == Counting(r) && r.id in receipts && receipts[r.id].attempts >= WAKE_ATTEMPTS
      modifies this`receipts, this`rest, this`worlds, this`actions
      ensures Valid() && old(worlds) <= worlds && old(actions) <= actions && rest.holder.Nobody?
      ensures end.Died? ==> |old(actions)| < |actions| && Dead()
      ensures end.Answered? ==>
                r.id !in jobs && receipts == old(receipts)[r.id := old(receipts)[r.id].(failed := true)]
                && end.digest == receipts[r.id].digest
      ensures !end.Answered? ==> receipts == old(receipts)
      ensures !end.Died? ==> (end.Answered? <==> r.id !in jobs) && rest.woken == old(rest).woken
    {
      hide IsRun, Initial, Done, ResumeStep, Idle;
      if r.id in jobs { Refuse(answer); return Refused; }
      var alive := Lives();
      if !alive { return Died; }
      receipts := receipts[r.id := receipts[r.id].(failed := true)];
      rest := rest.(holder := Nobody, replies := rest.replies + {Request(r.id, receipts[r.id].digest)});
      Took(HostStep(answer));
      end := Answered(receipts[r.id].digest);
    }

    /** Counts the attempt in the receipt, if there is one, and releases the lock. */
    method SendWaker(r: Request, attempt: nat, ghost answer: Answer)
      requires Valid() && rest.holder == Counting(r) && Held(Inbox(), r.id)
      requires if r.id in receipts then receipts[r.id].attempts < WAKE_ATTEMPTS
                && attempt == receipts[r.id].attempts + 1 else attempt == 0
      modifies this`receipts, this`rest, this`worlds, this`actions
      ensures Valid() && old(worlds) <= worlds && old(actions) <= actions && rest.holder.Nobody?
      ensures Held(Inbox(), r.id) && Waker(r.id, Reported(Inbox(), r.id), attempt) in rest.wakers
      ensures receipts == if r.id in old(receipts)
                then old(receipts)[r.id := old(receipts)[r.id].(attempts := attempt)] else old(receipts)
      ensures rest.woken == old(rest).woken
    {
      hide IsRun, Initial, Done, ResumeStep, Idle;
      if r.id in receipts { receipts := receipts[r.id := receipts[r.id].(attempts := attempt)]; }
      rest := rest.(holder := Nobody, wakers := rest.wakers + {Waker(r.id, Reported(Inbox(), r.id), attempt)});
      Took(HostStep(answer));
    }

    function Larger(a: nat, b: nat): nat {
      if a < b then b else a
    }

    method WakeUp(k: Waker) returns (end: Ending)
      requires Valid() && rest.holder.Nobody? && k in rest.wakers
      modifies this`rest, this`worlds, this`actions
      ensures Valid() && old(worlds) <= worlds && old(actions) <= actions && rest.holder.Nobody?
      ensures end.Died? ==> |old(actions)| < |actions| && Dead()
      ensures end.Answered? ==> end.digest == k.reported
      ensures !end.Died? ==> rest.woken == old(rest).woken + [k]
    {
      hide IsRun, Initial, StartStep, ResumeStep;
      var alive := Lives();
      if !alive { return Died; }
      var ok: bool := *;
      rest := rest.(wakers := rest.wakers - {k}, woken := rest.woken + [k],
                    replies := if ok then rest.replies + {Request(k.id, k.reported)} else rest.replies);
      Took(Action.Woken(k, ok));
      end := if ok then Answered(k.reported) else Refused;
    }

    /** The pointer is published after the receipt; an exact retry repairs a publication cut short. */
    method Publish(r: Request, ghost answer: Answer) returns (end: Ending)
      requires Valid() && rest.holder == Publishing(r) && r.id in receipts
      modifies this`receipts, this`pointer, this`rest, this`worlds, this`actions
      ensures Valid() && old(worlds) <= worlds && old(actions) <= actions && rest.holder.Nobody?
      ensures end.Died? ==> |old(actions)| < |actions| && Dead()
      ensures receipts.Keys == old(receipts.Keys) && receipts[r.id].digest == old(receipts)[r.id].digest
      ensures end.Answered? ==> end.digest == Reported(Inbox(), r.id) && pointer == Some(r.id)
      ensures !end.Died? ==>
                if pointer == Some(r.id) then Woken(old(receipts)[r.id], receipts[r.id], old(rest).woken, rest.woken, r.id)
                else end.Refused? && Inbox() == old(Inbox()) && old(pointer).Some? && !Done(Inbox(), old(pointer).value)
    {
      hide IsRun, Initial, Done, ResumeStep;
      if pointer.Some? && pointer.value != r.id && !Done(Inbox(), pointer.value) { Refuse(answer); return Refused; }
      var alive := Lives();
      if !alive { return Died; }
      SetPointer(r, answer);
      hide StartStep;
      end := Count(r, answer);
    }

    method SetPointer(r: Request, ghost answer: Answer)
      requires Valid() && rest.holder == Publishing(r) && r.id in receipts
      requires pointer.Some? && pointer.value != r.id ==> Done(Inbox(), pointer.value)
      modifies this`pointer, this`rest, this`worlds, this`actions
      ensures Valid() && old(worlds) <= worlds && old(actions) <= actions
      ensures pointer == Some(r.id) && rest == old(rest).(holder := Counting(r))
    {
      hide IsRun, Initial, ResumeStep, Idle;
      pointer := Some(r.id);
      rest := rest.(holder := Counting(r));
      Took(HostStep(answer));
    }

    /** A request that has nothing to wait for is told what is known of it. */
    method LookUp(r: Request, ghost answer: Answer) returns (end: Ending)
      requires Valid() && rest.holder == Accepting(r) && Held(Inbox(), r.id)
      requires BoundTo(Inbox(), r.id) == r.digest && !AwaitsStart(Inbox(), r.id)
      modifies this`rest, this`worlds, this`actions
      ensures Valid() && old(worlds) <= worlds && old(actions) <= actions && rest.holder.Nobody?
      ensures end == Answered(Reported(Inbox(), r.id))
    {
      hide IsRun, Initial, ResumeStep, Idle;
      var reported := if r.id in jobs then jobs[r.id].digest else receipts[r.id].digest;
      rest := rest.(holder := Nobody, replies := rest.replies + {Request(r.id, reported)});
      Took(HostStep(answer));
      end := Answered(reported);
    }

    /** A request for an id the host knows: another digest is a conflict, the same one a receipt lookup. */
    method Repeat(r: Request, ghost answer: Answer) returns (end: Ending)
      requires Valid() && rest.holder == Accepting(r) && Held(Inbox(), r.id)
      modifies this`receipts, this`pointer, this`rest, this`worlds, this`actions
      ensures Valid() && old(worlds) <= worlds && old(actions) <= actions && rest.holder.Nobody?
      ensures end.Died? ==> |old(actions)| < |actions| && Dead()
      ensures receipts.Keys == old(receipts.Keys)
      ensures old(BoundTo(Inbox(), r.id)) != r.digest ==> end.Refused? && Inbox() == old(Inbox())
      ensures end.Answered? ==> end.digest == Reported(Inbox(), r.id)
      ensures old(BoundTo(Inbox(), r.id) == r.digest && !AwaitsStart(Inbox(), r.id)) ==>
                end == Answered(Reported(Inbox(), r.id)) && Inbox() == old(Inbox())
    {
      hide IsRun, Initial, ResumeStep, Idle, Done;
      var bound := if r.id in receipts then receipts[r.id].digest else jobs[r.id].digest;
      if bound != r.digest { Refuse(answer); return Refused; }
      if !AwaitsStart(Inbox(), r.id) { end := LookUp(r, answer); return; }
      rest := rest.(holder := if r.id in jobs then Counting(r) else Publishing(r));
      Took(HostStep(answer));
      if r.id in jobs { end := Count(r, answer); } else { end := Publish(r, answer); }
    }

    /** A new request is written down only when nothing is unfinished and the catalog offers exactly it. */
    method Admit(r: Request, candidate: Option<Digest>, ghost answer: Answer) returns (end: Ending)
      requires Valid() && rest.holder == Accepting(r) && !Held(Inbox(), r.id) && answer.candidate == candidate
      modifies this`receipts, this`pointer, this`rest, this`worlds, this`actions
      ensures Valid() && old(worlds) <= worlds && old(actions) <= actions && rest.holder.Nobody?
      ensures end.Died? ==> |old(actions)| < |actions| && Dead()
      ensures receipts.Keys <= old(receipts.Keys) + {r.id}
      ensures r.id in receipts ==> old(MayAccept(Inbox(), r, candidate))
      ensures old(MayAccept(Inbox(), r, candidate)) && !end.Died? ==>
                r.id in receipts && receipts[r.id].digest == r.digest
      ensures end.Answered? ==> Held(Inbox(), r.id) && end.digest == Reported(Inbox(), r.id)
      ensures old(MayAccept(Inbox(), r, candidate)) && !end.Died? ==>
                && pointer == Some(r.id) && receipts[r.id].attempts == 1
                && |rest.woken| == |old(rest).woken| + 1 && rest.woken[|rest.woken| - 1].id == r.id
    {
      hide IsRun, Initial, Done, ResumeStep, MayAccept;
      AcceptableIsIdle(Inbox(), r, candidate);
      var idle := AllDone();
      if !idle || (pointer.Some? && !Done(Inbox(), pointer.value)) || (current.Some? && !Done(Inbox(), current.value))
         || |receipts| >= MAX_RECEIPTS || candidate != Some(r.digest) {
        Refuse(answer);
        return Refused;
      }
      end := TakeIn(r, answer);
    }

    /** Receipt, pointer, wake: each is durable before the next. */
    method TakeIn(r: Request, ghost answer: Answer) returns (end: Ending)
      requires Valid() && rest.holder == Accepting(r) && !Held(Inbox(), r.id)
      requires Idle(Inbox()) && |receipts| < MAX_RECEIPTS && answer.candidate == Some(r.digest)
      modifies this`receipts, this`pointer, this`rest, this`worlds, this`actions
      ensures Valid() && old(worlds) <= worlds && old(actions) <= actions && rest.holder.Nobody?
      ensures end.Died? ==> |old(actions)| < |actions| && Dead()
      ensures receipts.Keys <= old(receipts.Keys) + {r.id}
      ensures !end.Died? ==>
                && pointer == Some(r.id) && r.id in receipts
                && receipts[r.id].digest == r.digest && receipts[r.id].attempts == 1
                && |rest.woken| == |old(rest).woken| + 1 && rest.woken[|rest.woken| - 1].id == r.id
      ensures end.Answered? ==> end.digest == Reported(Inbox(), r.id)
    {
      hide IsRun, Initial, Done, ResumeStep, StartStep;
      var alive := Lives();
      if !alive { return Died; }
      if pointer.Some? { NewReceiptKeepsDone(Inbox(), r.id, Receipt(r.digest, false, 0)); }
      WriteReceipt(r, answer);
      end := Publish(r, answer);
    }

    method WriteReceipt(r: Request, ghost answer: Answer)
      requires Valid() && rest.holder == Accepting(r) && !Held(Inbox(), r.id)
      requires Idle(Inbox()) && |receipts| < MAX_RECEIPTS && answer.candidate == Some(r.digest)
      modifies this`receipts, this`rest, this`worlds, this`actions
      ensures Valid() && old(worlds) <= worlds && old(actions) <= actions
      ensures receipts == old(receipts)[r.id := Receipt(r.digest, false, 0)]
                && rest == old(rest).(holder := Publishing(r))
    {
      hide IsRun, Initial, Done, ResumeStep, Idle;
      receipts := receipts[r.id := Receipt(r.digest, false, 0)];
      rest := rest.(holder := Publishing(r));
      Took(HostStep(answer));
    }

    /** Accepts a request into the inbox, once: an id that is there already is only looked up. */
    method Start(r: Request, candidate: Option<Digest>) returns (end: Ending)
      requires Valid() && rest.holder.Nobody? && r in rest.posted
      modifies this`receipts, this`pointer, this`rest, this`worlds, this`actions
      ensures Valid() && old(worlds) <= worlds && old(actions) <= actions && rest.holder.Nobody?
      ensures end.Died? ==> |old(actions)| < |actions| && Dead()
      ensures receipts.Keys <= old(receipts.Keys) + {r.id}
      ensures r.id !in old(receipts) && r.id in receipts ==>
                old(!Held(Inbox(), r.id) && MayAccept(Inbox(), r, candidate))
      ensures old(!Held(Inbox(), r.id) && MayAccept(Inbox(), r, candidate)) && !end.Died? ==>
                r.id in receipts && receipts[r.id].digest == r.digest
      ensures end.Answered? ==> Held(Inbox(), r.id) && end.digest == Reported(Inbox(), r.id)
      ensures old(Held(Inbox(), r.id) && BoundTo(Inbox(), r.id) != r.digest) ==> end.Refused? && Inbox() == old(Inbox())
      ensures old(!Held(Inbox(), r.id) && MayAccept(Inbox(), r, candidate)) && !end.Died? ==>
                && pointer == Some(r.id) && receipts[r.id].attempts == 1
                && |rest.woken| == |old(rest).woken| + 1 && rest.woken[|rest.woken| - 1].id == r.id
    {
      hide IsRun, Initial, Idle, StartStep, ResumeStep, MayAccept, Done;
      ghost var answer := Answer(candidate, true, Queued);
      rest := rest.(holder := Accepting(r));
      Took(Arrive(r));
      if r.id in receipts || r.id in jobs { end := Repeat(r, answer); } else { end := Admit(r, candidate, answer); }
    }

    // -------------------------------------------------------------- the coordinator

    /** How `queue` ends: with the id of a durable job, with an exception, or with the process. */
    method Queue(id: Id, digest: Digest, owner: bool, verified: bool, ghost answer: Answer)
        returns (alive: bool, queued: bool)
      requires Valid() && rest.holder == Queueing(id, digest, owner) && HostFits(Inbox())
      modifies this`current, this`jobs, this`folders, this`rest, this`worlds, this`actions
      ensures Valid() && old(worlds) <= worlds && old(actions) <= actions
      ensures !alive ==> |old(actions)| < |actions| && Dead()
      ensures !alive ==> rest.holder.Nobody?
      ensures alive && queued ==>
                id in jobs && jobs[id].digest == digest && rest.holder == (if owner then Working(id) else Nobody)
      ensures alive && !queued ==> rest.holder == CouldNotQueue(View(), id, owner).holder && jobs == old(jobs)
      ensures forall other | other in old(jobs) :: other in jobs && jobs[other] == old(jobs)[other]
      ensures forall other | other in jobs && other !in old(jobs) :: other == id && jobs[other].digest == digest
      ensures alive ==> (queued <==> old(Queueable(Inbox(), id, digest, verified)))
      ensures alive && queued ==>
                if id in old(folders) then
                  jobs == old(jobs) && current == if jobs[id].phase == Queued then Some(id) else old(current)
                else jobs == old(jobs)[id := Job(digest, Queued)] && current == Some(id)
    {
      hide IsRun, Initial, StartStep, ResumeStep, Done;
      if id in folders {
        var publish;
        queued, publish := FindJob(id, digest, owner, answer);
        alive := true;
        if !queued || !publish { return; }
      } else {
        alive, queued := MakeJob(id, digest, owner, verified, answer);
        if !alive || !queued { return; }
      }
      alive := PublishJob(id, owner, answer);
      queued := true;
    }

    /** The directory is there: a job of the same digest goes on, to be published first if its pointer is missing. */
    method FindJob(id: Id, digest: Digest, owner: bool, ghost answer: Answer) returns (found: bool, publish: bool)
      requires Valid() && rest.holder == Queueing(id, digest, owner) && id in folders
      modifies this`rest, this`worlds, this`actions
      ensures Valid() && old(worlds) <= worlds && old(actions) <= actions
      ensures found ==> id in jobs && jobs[id].digest == digest
      ensures found ==> rest.holder == if publish then Pointing(id, owner) else if owner then Working(id) else Nobody
      ensures !found ==> rest.holder == CouldNotQueue(View(), id, owner).holder
      ensures found <==> Queueable(Inbox(), id, digest, true)
      ensures found ==> (publish <==> jobs[id].phase == Queued && current != Some(id))
    {
      hide IsRun, Initial, StartStep, Done;
      if current.Some? { FinishedIsAtEnd(Inbox(), current.value); }
      if id !in jobs || jobs[id].digest != digest { Fail(id, owner, answer); return false, false; }
      publish := jobs[id].phase.Queued? && current != Some(id);
      if publish && current.Some? && !Done(Inbox(), current.value) { Fail(id, owner, answer); return false, false; }
      rest := rest.(holder := if publish then Pointing(id, owner) else if owner then Working(id) else Nobody);
      Took(HostStep(answer));
      found := true;
    }

    method Fail(id: Id, owner: bool, ghost answer: Answer)
      requires Valid() && Enabled(View(), HostStep(answer))
                && Next(View(), HostStep(answer)) == CouldNotQueue(View(), id, owner)
      modifies this`rest, this`worlds, this`actions
      ensures Valid() && old(worlds) <= worlds && old(actions) <= actions
      ensures rest == old(CouldNotQueue(View(), id, owner)).(host := old(rest.host))
    {
      hide IsRun, Initial, Next, Enabled;
      rest := CouldNotQueue(View(), id, owner).(host := rest.host);
      Took(HostStep(answer));
    }

    /** The directory comes first and the journal last; a crash between them leaves the directory alone. */
    method MakeJob(id: Id, digest: Digest, owner: bool, verified: bool, ghost answer: Answer)
        returns (alive: bool, queued: bool)
      requires Valid() && rest.holder == Queueing(id, digest, owner) && HostFits(Inbox())
      requires id !in folders
      modifies this`jobs, this`folders, this`rest, this`worlds, this`actions
      ensures Valid() && old(worlds) <= worlds && old(actions) <= actions
      ensures !alive ==> |old(actions)| < |actions| && Dead()
      ensures !alive ==> rest.holder.Nobody? && jobs == old(jobs)
      ensures alive && queued ==> rest.holder == Pointing(id, owner) && jobs == old(jobs)[id := Job(digest, Queued)]
      ensures alive && !queued ==> rest.holder == CouldNotQueue(View(), id, owner).holder && Inbox() == old(Inbox())
      ensures alive ==> (queued <==> old(Queueable(Inbox(), id, digest, verified)))
    {
      hide IsRun, Initial, StartStep, Done;
      queued := false;
      if current.Some? { FinishedIsAtEnd(Inbox(), current.value); }
      if current.Some? && !Done(Inbox(), current.value) { Fail(id, owner, answer); return true, false; }
      alive := Lives();
      if !alive { return; }
      folders := folders + {id};
      rest := rest.(holder := Making(id, digest, owner));
      Took(HostStep(answer));
      alive, queued := FillJob(id, digest, owner, verified, answer);
    }

    /** Verification decides; when it fails the directory goes again. */
    method FillJob(id: Id, digest: Digest, owner: bool, verified: bool, ghost answer: Answer)
        returns (alive: bool, queued: bool)
      requires Valid() && rest.holder == Making(id, digest, owner) && id in folders && id !in jobs
      modifies this`jobs, this`folders, this`rest, this`worlds, this`actions
      ensures Valid() && old(worlds) <= worlds && old(actions) <= actions
      ensures !alive ==> |old(actions)| < |actions| && Dead()
      ensures !alive ==> rest.holder.Nobody? && jobs == old(jobs)
      ensures alive && queued ==> rest.holder == Pointing(id, owner) && jobs == old(jobs)[id := Job(digest, Queued)]
      ensures alive && !queued ==>
                rest.holder == CouldNotQueue(View(), id, owner).holder && jobs == old(jobs)
                && folders == old(folders) - {id}
      ensures alive ==> queued == verified
    {
      hide IsRun, Initial, StartStep, Done;
      queued := false;
      alive := Lives();
      if !alive { return; }
      queued := verified;
      if queued {
        jobs := jobs[id := Job(digest, Queued)];
        rest := rest.(holder := Pointing(id, owner));
        Took(HostStep(Answer(answer.candidate, true, answer.phase)));
      } else {
        folders := folders - {id};
        rest := CouldNotQueue(View(), id, owner).(host := rest.host);
        Took(HostStep(Answer(answer.candidate, false, answer.phase)));
      }
    }

    method PublishJob(id: Id, owner: bool, ghost answer: Answer) returns (alive: bool)
      requires Valid() && rest.holder == Pointing(id, owner) && id in jobs
      modifies this`current, this`rest, this`worlds, this`actions
      ensures Valid() && old(worlds) <= worlds && old(actions) <= actions
      ensures !alive ==> |old(actions)| < |actions| && Dead()
      ensures if alive then current == Some(id) && rest.holder == (if owner then Working(id) else Nobody)
                else rest.holder.Nobody?
    {
      hide IsRun, Initial, StartStep, Done;
      alive := Lives();
      if !alive { return; }
      current := Some(id);
      rest := rest.(holder := if owner then Working(id) else Nobody);
      Took(HostStep(answer));
    }

    /** The coordinator goes on with the published request, or else with the current job; a request that cannot be queued fails. */
    method ResumeRequested(candidate: Option<Digest>, expired: bool, verified: bool) returns (job: Option<Id>)
      requires Valid() && rest.holder.Nobody?
      modifies this`receipts, this`current, this`jobs, this`folders, this`rest, this`worlds, this`actions
      ensures Valid() && old(worlds) <= worlds && old(actions) <= actions
      ensures job.Some? ==> job.value in jobs && rest.holder == Working(job.value)
      ensures job.None? ==> rest.holder.Nobody?
      ensures receipts.Keys == old(receipts.Keys)
      ensures forall id | id in jobs && id !in old(jobs) ::
                old(Requested(Inbox(), id)) && !expired && candidate == Some(jobs[id].digest)
                    && jobs[id].digest == old(receipts)[id].digest
      ensures pointer.None? ==> job == current
      ensures pointer.Some? && pointer.value in old(jobs) ==>
                job == if old(jobs)[pointer.value].phase == Finished then current
                       else if current.Some? && current.value != pointer.value && current.value in old(jobs)
                               && old(jobs)[current.value].phase != Finished
                       then None else pointer
      ensures pointer.Some? && old(Requested(Inbox(), pointer.value)) ==>
                var id := pointer.value;
                if expired || candidate != Some(old(receipts)[id].digest) then (receipts[id].failed && job == current)
                    || (|old(actions)| < |actions| && Dead())
                else (job == Some(id) && old(Queueable(Inbox(), id, receipts[id].digest, verified)))
                     || (receipts[id].failed && !old(Queueable(Inbox(), id, receipts[id].digest, verified)))
                     || (|old(actions)| < |actions| && Dead())
    {
      hide IsRun, Initial, StartStep, Idle, Done;
      ghost var answer := Answer(candidate, !expired, Busy);
      InboxFits();
      rest := rest.(holder := Resuming);
      Took(Wake);
      if pointer.None? { job := GoOn(answer); return; }
      var id := pointer.value;
      if id in jobs { job := ResumeJob(id, answer); return; }
      job := ResumeReceipt(id, candidate, expired, verified, answer);
    }

    /** There is no job yet: the request is queued if it may be, and fails if it may not. */
    method ResumeReceipt(id: Id, candidate: Option<Digest>, expired: bool, verified: bool, ghost answer: Answer)
        returns (job: Option<Id>)
      requires Valid() && HostFits(Inbox()) && rest.holder.Resuming? && pointer == Some(id) && id !in jobs
      requires answer.candidate == candidate && answer.ok == !expired
      modifies this`receipts, this`current, this`jobs, this`folders, this`rest, this`worlds, this`actions
      ensures Valid() && old(worlds) <= worlds && old(actions) <= actions
      ensures job.Some? ==> job.value in jobs && rest.holder == Working(job.value)
      ensures job.None? ==> rest.holder.Nobody?
      ensures receipts.Keys == old(receipts.Keys)
      ensures forall other | other in jobs && other !in old(jobs) ::
                other == id && old(Requested(Inbox(), id)) && !expired && candidate == Some(jobs[id].digest)
                    && jobs[id].digest == old(receipts)[id].digest
      ensures old(receipts)[id].failed ==> job == current
      ensures !old(receipts)[id].failed ==>
                if expired || candidate != Some(old(receipts)[id].digest) then (receipts[id].failed && job == current)
                    || (|old(actions)| < |actions| && Dead())
                else (job == Some(id) && old(Queueable(Inbox(), id, receipts[id].digest, verified)))
                     || (receipts[id].failed && !old(Queueable(Inbox(), id, receipts[id].digest, verified)))
                     || (|old(actions)| < |actions| && Dead())
    {
      hide IsRun, Initial, StartStep, Idle, Done;
      if receipts[id].failed { job := GoOn(answer); return; }
      var refuse := expired || candidate != Some(receipts[id].digest);
      TakeUp(id, refuse, answer);
      hide ResumeStep;
      if refuse { job := FailRequest(id, answer); } else { job := QueueRequested(id, verified, answer); }
    }

    method TakeUp(id: Id, refuse: bool, ghost answer: Answer)
      requires Valid() && rest.holder.Resuming? && pointer == Some(id) && Requested(Inbox(), id)
      requires refuse == (!answer.ok || answer.candidate != Some(receipts[id].digest))
      modifies this`rest, this`worlds, this`actions
      ensures Valid() && old(worlds) <= worlds && old(actions) <= actions
      ensures rest == old(rest).(holder := if refuse then Refusing(id) else Queueing(id, receipts[id].digest, true))
    {
      hide IsRun, Initial, StartStep, Idle, Done;
      rest := rest.(holder := if refuse then Refusing(id) else Queueing(id, receipts[id].digest, true));
      Took(HostStep(answer));
    }

    /** A job of the request exists: it is resumed unless it is finished, or another one is under way. */
    method ResumeJob(id: Id, ghost answer: Answer) returns (job: Option<Id>)
      requires Valid() && HostFits(Inbox()) && rest.holder.Resuming? && pointer == Some(id) && id in jobs
      modifies this`rest, this`worlds, this`actions
      ensures Valid() && old(worlds) <= worlds && old(actions) <= actions
      ensures job == if jobs[id].phase.Finished? then current
                     else if current.Some? && current.value != id && !jobs[current.value].phase.Finished? then None
                         else Some(id)
      ensures rest == old(rest).(holder := if job.Some? then Working(job.value) else Nobody)
    {
      hide IsRun, Initial, StartStep;
      if jobs[id].phase.Finished? { job := GoOn(answer); return; }
      if current.Some? && current.value != id && !jobs[current.value].phase.Finished? { Refuse(answer); return None; }
      rest := rest.(holder := Working(id));
      Took(HostStep(answer));
      job := Some(id);
    }

    method QueueRequested(id: Id, verified: bool, ghost answer: Answer) returns (job: Option<Id>)
      requires Valid() && Requested(Inbox(), id) && rest.holder == Queueing(id, receipts[id].digest, true)
      modifies this`receipts, this`current, this`jobs, this`folders, this`rest, this`worlds, this`actions
      ensures Valid() && old(worlds) <= worlds && old(actions) <= actions
      ensures job.Some? ==> job.value in jobs && rest.holder == Working(job.value)
      ensures job.None? ==> rest.holder.Nobody?
      ensures receipts.Keys == old(receipts.Keys)
      ensures forall other | other in jobs && other !in old(jobs) ::
                other == id && jobs[other].digest == old(receipts)[id].digest
      ensures (job == Some(id) && old(Queueable(Inbox(), id, receipts[id].digest, verified)))
                || (receipts[id].failed && !old(Queueable(Inbox(), id, receipts[id].digest, verified)))
                || (|old(actions)| < |actions| && Dead())
    {
      hide IsRun, Initial, StartStep, ResumeStep;
      InboxFits();
      var alive, queued := Queue(id, receipts[id].digest, true, verified, answer);
      if !alive { return None; }
      if queued { return Some(id); }
      if id in jobs { return None; }
      InboxFits();
      job := FailRequest(id, answer);
    }

    lemma InboxFits()
      requires Valid()
      ensures HostFits(Inbox())
    {
      hide StepAt, Initial;
      EveryStateFits(worlds, actions, |worlds| - 1);
    }

    /** On to the current job, if there is one. */
    method GoOn(ghost answer: Answer) returns (job: Option<Id>)
      requires Valid() && HostFits(Inbox()) && Enabled(View(), HostStep(answer))
                && Next(View(), HostStep(answer)) == ToCurrent(View())
      modifies this`rest, this`worlds, this`actions
      ensures Valid() && old(worlds) <= worlds && old(actions) <= actions
      ensures job == current && (job.Some? ==> job.value in jobs)
      ensures rest == old(rest).(holder := if job.Some? then Working(job.value) else Nobody)
    {
      hide IsRun, Initial, Next, Enabled;
      rest := rest.(holder := if current.Some? then Working(current.value) else Nobody);
      Took(HostStep(answer));
      job := current;
    }

    method FailRequest(id: Id, ghost answer: Answer) returns (job: Option<Id>)
      requires Valid() && HostFits(Inbox()) && rest.holder == Refusing(id) && id in receipts
      modifies this`receipts, this`rest, this`worlds, this`actions
      ensures Valid() && old(worlds) <= worlds && old(actions) <= actions
      ensures receipts.Keys == old(receipts.Keys)
      ensures job.Some? ==>
                job.value in jobs && rest.holder == Working(job.value)
                && receipts == old(receipts)[id := old(receipts)[id].(failed := true)]
      ensures job.None? ==> rest.holder.Nobody?
      ensures (id in receipts && receipts[id].failed && job == current) || (|old(actions)| < |actions| && Dead())
    {
      hide IsRun, Initial, StartStep;
      var alive := Lives();
      if !alive { return None; }
      receipts := receipts[id := receipts[id].(failed := true)];
      rest := rest.(holder := if current.Some? then Working(current.value) else Nobody);
      Took(HostStep(answer));
      job := current;
    }
  }
}
