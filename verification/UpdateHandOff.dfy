/**
How an update the owner authorized reaches the host: an outbox in the application's database,
requests over a local socket, and an inbox of receipts and job journals on the host.

The application may die while a request is under way, a reply may be lost, a request may arrive
more than once or late, the host process may die between any two of its durable writes, and an
older database may be restored under an inbox that has moved on.
*/
module UpdateHandOff {
  import opened Options

  type Id = string
  type Digest = string

  const WAKE_ATTEMPTS := 8
  const MAX_RECEIPTS := 4096

  datatype AuthState = Pending | Dispatched | Cancelled

  datatype Authorization = Authorization(digest: Digest, state: AuthState)

  datatype Receipt = Receipt(digest: Digest, failed: bool, attempts: nat)

  /** `Busy` stands for every phase between, and for a recovery that still needs someone. */
  datatype JobPhase = Queued | Busy | Finished

  datatype Job = Job(digest: Digest, phase: JobPhase)

  datatype Request = Request(id: Id, digest: Digest)

  /** The durable inbox. `folders` are the job directories; one without a journal is left by a crash. */
  datatype Host = Host(
    receipts: map<Id, Receipt>, pointer: Option<Id>, current: Option<Id>,
    jobs: map<Id, Job>, folders: set<Id>)

  /** What the process that holds the coordinator lock will do next. */
  datatype Holder =
    | Nobody
    | Accepting(request: Request)
    | Publishing(request: Request)
    | Counting(request: Request)
    | Resuming
    | Refusing(id: Id)
    | Queueing(id: Id, digest: Digest, owner: bool)
    | Making(id: Id, digest: Digest, owner: bool)
    | Pointing(id: Id, owner: bool)
    | Working(id: Id)

  datatype Api = Resting | Calling(request: Request)

  /** A call that is about to wake the coordinator, after the lock is released; `attempt` is 0 where none is counted. */
  datatype Waker = Waker(id: Id, reported: Digest, attempt: nat)

  datatype World = World(
    outbox: map<Id, Authorization>, backups: set<map<Id, Authorization>>, api: Api,
    posted: set<Request>, replies: set<Request>,
    host: Host, holder: Holder, wakers: set<Waker>,
    authorized: set<Request>, woken: seq<Waker>)

  /** What the catalog offers, and whether what is tried succeeds. */
  datatype Answer = Answer(candidate: Option<Digest>, ok: bool, phase: JobPhase)

  datatype Action =
    | Authorize(id: Id, digest: Digest)
    | Cancel(id: Id)
    | Call(id: Id)
    | Record
    | ApiDies
    | TakeBackup
    | Restore(backup: map<Id, Authorization>)
    | Arrive(request: Request)
    | Wake
    | Administer(id: Id, digest: Digest)
    | HostStep(answer: Answer)
    | Woken(waker: Waker, ok: bool)
    | HostDies

  // ---------------------------------------------------------------- the host's view of a request

  predicate Held(h: Host, id: Id) {
    id in h.receipts || id in h.jobs
  }

  /** The digest a request id is bound to: the receipt's if there is one. */
  function BoundTo(h: Host, id: Id): Digest
    requires Held(h, id)
  {
    if id in h.receipts then h.receipts[id].digest else h.jobs[id].digest
  }

  /** `status(id)` is a terminal phase other than a recovery that needs someone; the job speaks before the receipt. */
  predicate Done(h: Host, id: Id) {
    if id in h.jobs then h.jobs[id].phase.Finished? else id in h.receipts && h.receipts[id].failed
  }

  predicate Requested(h: Host, id: Id) {
    id !in h.jobs && id in h.receipts && !h.receipts[id].failed
  }

  predicate AwaitsStart(h: Host, id: Id) {
    Requested(h, id) || (id in h.jobs && h.jobs[id].phase.Queued?)
  }

  predicate Idle(h: Host) {
    && (h.pointer.Some? ==> Done(h, h.pointer.value))
    && (h.current.Some? ==> Done(h, h.current.value))
    && forall id | id in h.receipts :: Done(h, id)
  }

  /** The digest `status` reports. */
  function Reported(h: Host, id: Id): Digest
    requires Held(h, id)
  {
    if id in h.jobs then h.jobs[id].digest else h.receipts[id].digest
  }

  // ---------------------------------------------------------------- the steps of the lock holder

  function Hold(w: World, h: Holder): World {
    w.(holder := h)
  }

  function Reply(w: World, r: Request): World
    requires Held(w.host, r.id)
  {
    w.(holder := Nobody, replies := w.replies + {Request(r.id, Reported(w.host, r.id))})
  }

  /** The lock is released first; the answer is what `status` said under it. */
  function Wakes(w: World, r: Request, attempt: nat): World
    requires Held(w.host, r.id)
  {
    w.(holder := Nobody, wakers := w.wakers + {Waker(r.id, Reported(w.host, r.id), attempt)})
  }

  predicate Starts(h: Holder) {
    h.Accepting? || h.Publishing? || h.Counting?
  }

  predicate InPlace(w: World) {
    match w.holder
    case Publishing(r) => Held(w.host, r.id)
    case Counting(r) => Held(w.host, r.id)
    case Refusing(id) => id in w.host.receipts
    case Working(id) => id in w.host.jobs
    case _ => true
  }

  /** `Bridge.start`, from one durable write to the next. */
  function StartStep(w: World, a: Answer): World
    requires Starts(w.holder) && InPlace(w)
  {
    var h, r := w.host, w.holder.request;
    match w.holder
    case Accepting(_) =>
      if Held(h, r.id) then
        if BoundTo(h, r.id) != r.digest then Hold(w, Nobody)
        else if Requested(h, r.id) then Hold(w, Publishing(r))
        else if AwaitsStart(h, r.id) then Hold(w, Counting(r))
        else Reply(w, r)
      else if !Idle(h) || |h.receipts| >= MAX_RECEIPTS || a.candidate != Some(r.digest) then Hold(w, Nobody)
      else Hold(w, Publishing(r)).(host := h.(receipts := h.receipts[r.id := Receipt(r.digest, false, 0)]))
    case Publishing(_) =>
      if h.pointer.Some? && h.pointer.value != r.id && !Done(h, h.pointer.value) then Hold(w, Nobody)
      else Hold(w, Counting(r)).(host := h.(pointer := Some(r.id)))
    case Counting(_) =>
      if r.id !in h.receipts then Wakes(w, r, 0)
      else if h.receipts[r.id].attempts >= WAKE_ATTEMPTS then
        if r.id in h.jobs then Hold(w, Nobody)
        else Reply(w.(host := h.(receipts := h.receipts[r.id := h.receipts[r.id].(failed := true)])), r)
      else
        var attempts := h.receipts[r.id].attempts + 1;
        Wakes(w.(host := h.(receipts := h.receipts[r.id := h.receipts[r.id].(attempts := attempts)])), r, attempts)
  }

  function ToCurrent(w: World): World {
    if w.host.current.Some? && w.host.current.value in w.host.jobs then Hold(w, Working(w.host.current.value))
        else Hold(w, Nobody)
  }

  /** An owner's request that could not be queued fails, unless its job exists already. */
  function CouldNotQueue(w: World, id: Id, owner: bool): World {
    if owner && id !in w.host.jobs && id in w.host.receipts then Hold(w, Refusing(id)) else Hold(w, Nobody)
  }

  /** `resume_requested`, `queue` and the engine, from one durable write to the next. */
  function ResumeStep(w: World, a: Answer): World
    requires !Starts(w.holder) && InPlace(w)
  {
    var h := w.host;
    match w.holder
    case Resuming =>
      if h.pointer.None? then ToCurrent(w)
      else if !Held(h, h.pointer.value) then Hold(w, Nobody)
      else
        var id := h.pointer.value;
        if id in h.jobs then
          if h.jobs[id].phase.Finished? then ToCurrent(w)
          else if h.current.Some? && h.current.value != id && h.current.value in h.jobs
              && !h.jobs[h.current.value].phase.Finished? then Hold(w, Nobody)
          else Hold(w, Working(id))
        else if h.receipts[id].failed then ToCurrent(w)
        else if !a.ok || a.candidate != Some(h.receipts[id].digest) then Hold(w, Refusing(id))
        else Hold(w, Queueing(id, h.receipts[id].digest, true))
    case Refusing(id) => ToCurrent(w.(host := h.(receipts := h.receipts[id := h.receipts[id].(failed := true)])))
    case Queueing(id, digest, owner) =>
      if id in h.folders then
        if id !in h.jobs || h.jobs[id].digest != digest then CouldNotQueue(w, id, owner)
        else if h.jobs[id].phase.Queued? && h.current != Some(id) then
          if h.current.Some? && !Done(h, h.current.value) then CouldNotQueue(w, id, owner)
          else Hold(w, Pointing(id, owner))
        else Hold(w, if owner then Working(id) else Nobody)
      else if h.current.Some? && !Done(h, h.current.value) then CouldNotQueue(w, id, owner)
      else Hold(w, Making(id, digest, owner)).(host := h.(folders := h.folders + {id}))
    case Making(id, digest, owner) =>
      if !a.ok then CouldNotQueue(w.(host := h.(folders := h.folders - {id})), id, owner)
      else Hold(w, Pointing(id, owner)).(host := h.(jobs := h.jobs[id := Job(digest, Queued)]))
    case Pointing(id, owner) =>
      Hold(w, if owner && id in h.jobs then Working(id) else Nobody).(host := h.(current := Some(id)))
    case Working(id) =>
      if h.jobs[id].phase.Finished? || a.phase.Queued? then Hold(w, Nobody)
      else w.(host := h.(jobs := h.jobs[id := h.jobs[id].(phase := a.phase)]))
    case _ => w
  }

  predicate Enabled(w: World, a: Action) {
    match a
    case Authorize(id, _) => w.api.Resting? && id !in w.outbox && forall other | other in w.outbox ::
        !w.outbox[other].state.Pending?
    case Cancel(id) => id in w.outbox && w.outbox[id].state.Pending?
    case Call(id) => w.api.Resting? && id in w.outbox && w.outbox[id].state.Pending?
    case Record => w.api.Calling? && w.api.request in w.replies && w.api.request.id in w.outbox
    case ApiDies => true
    case TakeBackup => true
    case Restore(b) => b in w.backups && w.api.Resting?
    case Arrive(r) => r in w.posted && w.holder.Nobody?
    case Wake => w.holder.Nobody?
    case Administer(id, _) => w.holder.Nobody?
        && (w.host.pointer.Some? && w.host.pointer.value != id ==> Done(w.host, w.host.pointer.value))
    case HostStep(_) => !w.holder.Nobody? && InPlace(w)
    case Woken(waker, _) => waker in w.wakers
    case HostDies => true
  }

  function Settled(outbox: map<Id, Authorization>): map<Id, Authorization> {
    map id | id in outbox :: if outbox[id].state.Pending? then outbox[id].(state := Cancelled) else outbox[id]
  }

  function Next(w: World, a: Action): World
    requires Enabled(w, a)
  {
    match a
    case Authorize(id, digest) =>
      w.(outbox := w.outbox[id := Authorization(digest, Pending)], authorized := w.authorized + {Request(id, digest)})
    case Cancel(id) => w.(outbox := w.outbox[id := w.outbox[id].(state := Cancelled)], api := Resting)
    case Call(id) =>
      var r := Request(id, w.outbox[id].digest);
      w.(api := Calling(r), posted := w.posted + {r})
    case Record =>
      var id := w.api.request.id;
      w.(outbox := if w.outbox[id].state.Pending? then w.outbox[id := w.outbox[id].(state := Dispatched)]
          else w.outbox, api := Resting)
    case ApiDies => w.(api := Resting)
    case TakeBackup => w.(backups := w.backups + {w.outbox})
    case Restore(b) => w.(outbox := Settled(b))
    case Arrive(r) => Hold(w, Accepting(r))
    case Wake => Hold(w, Resuming)
    case Administer(id, digest) => Hold(w, Queueing(id, digest, false))
    case HostStep(answer) => if Starts(w.holder) then StartStep(w, answer) else ResumeStep(w, answer)
    case Woken(waker, ok) =>
      w.(wakers := w.wakers - {waker}, woken := w.woken + [waker],
         replies := if ok then w.replies + {Request(waker.id, waker.reported)} else w.replies)
    case HostDies => w.(holder := Nobody, wakers := {})
  }

  predicate Initial(w: World) {
    && w.outbox == map[] && w.backups == {} && w.api.Resting? && w.posted == {} && w.replies == {}
    && w.host == Host(map[], None, None, map[], {}) && w.holder.Nobody? && w.wakers == {} && w.authorized == {}
        && w.woken == []
  }

  predicate StepAt(worlds: seq<World>, actions: seq<Action>, i: nat)
    requires i < |actions| < |worlds|
  {
    Enabled(worlds[i], actions[i]) && worlds[i + 1] == Next(worlds[i], actions[i])
  }

  predicate IsRun(worlds: seq<World>, actions: seq<Action>) {
    && |worlds| == |actions| + 1
    && Initial(worlds[0])
    && forall i | 0 <= i < |actions| :: StepAt(worlds, actions, i)
  }
}
