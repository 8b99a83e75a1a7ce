/**
The controller, its database, the Agent and the requests between them, as one state machine.

A pass of the controller takes a fencing token, asks the Agent for its own, tells it whether
the node drains, reconciles every session and then removes workers that nobody wants. The
controller may die between any two steps, any request may be lost, repeated or arrive long
after its pass, the Agent may restart, the host may lose power, and an older database may be
restored. The rest of the application adds and changes sessions at any time, and deletes none.
*/
module ControlLoop {
  import opened Options
  import opened Resources
  import opened Agents

  const RESTARTS := 5

  datatype RowState = Pending | Starting | Running | Stopping | Stopped | Failed

  /** A row of `worker_allocations`; `wanted` is the column `desired`. */
  datatype Row = Row(
    session: string, node: string, wanted: bool, state: RowState, generation: nat, token: nat,
    hash: nat, restarts: nat, resources: Vector) {
    predicate Live() {
      !state.Stopped? && !state.Failed?
    }
  }

  datatype Session = Session(wanted: bool, ended: bool)

  datatype Database = Database(counter: nat, rows: map<string, Row>, sessions: map<string, Session>)

  datatype Backup = Backup(database: Database, fence: nat)

  datatype Order =
    | StartWorker(spec: Spec)
    | StopWorker
    | Redirect(resources: Vector)
    | Reslate
    | Drain(on: bool)

  datatype Message = Message(pass: nat, command: Command, order: Order)

  datatype Progress = Deciding | Gone(id: string) | Started(spec: Spec)

  /** How far a pass has come. `Working` holds the session being reconciled and what was read of it. */
  datatype Stage =
    | Fresh
    | Heard(seen: nat)
    | Settled
    | Opened
    | Reconciling
    | Working(session: string, wanted: bool, progress: Progress)
    | Sweeping(left: set<string>)

  datatype Pass = Pass(no: nat, token: nat, draining: bool, todo: map<string, bool>, stage: Stage)

  /** `epoch` is the number of the last pass before the last moment at which no request was under way. */
  datatype World = World(
    db: Database, backups: set<Backup>, agent: AgentState, slots: int,
    inflight: set<Message>, pass: Option<Pass>, passes: nat, epoch: nat, accepted: seq<Message>)

  datatype Action =
    // a pass
    | Begin
    | Hear
    | Settle
    | Send(command: Command, order: Order)
    | ListSessions
    | Take(session: string)
    | Leave
    | ListWorkers
    | Keep(worker: string)
    | Finish
    | Abandon
    // its writes
    | CloseSession
    | CloseRow
    | FailRow
    | InsertRow(id: string, hash: nat, resources: Vector)
    | Reserve(id: string, resources: Vector)
    | Observe(id: string, steady: bool)
    | Rehash(id: string, hash: nat)
    | Launch(id: string, hash: nat, image: string, replace: bool)
    // everything else
    | Deliver(message: Message, now: int, fate: Fate, replied: bool)
    | AgentRestarts
    | PowerLoss
    | TakeBackup
    | Restore(backup: Backup)
    | Outside(sessions: map<string, Session>)
    | WorkerExits(worker: string)
    | WorkerRemoved(worker: string)

  // ---------------------------------------------------------------- the database

  predicate LiveRowOf(db: Database, session: string, id: string) {
    id in db.rows && db.rows[id].session == session && db.rows[id].Live()
  }

  /** A live row of the session that this node serves. */
  predicate OwnRow(w: World, session: string, id: string) {
    LiveRowOf(w.db, session, id) && w.db.rows[id].node == w.agent.node
  }

  predicate NoLiveRow(db: Database, session: string) {
    forall id | id in db.rows :: !(db.rows[id].session == session && db.rows[id].Live())
  }

  /** The question the sweep asks about a worker. */
  predicate Kept(db: Database, id: string) {
    && id in db.rows && db.rows[id].wanted
    && db.rows[id].session in db.sessions && WantedSession(db.sessions, db.rows[id].session)
  }

  predicate WantedSession(sessions: map<string, Session>, s: string) {
    s in sessions && sessions[s].wanted && !sessions[s].ended
  }

  function LiveHere(rows: map<string, Row>, node: string): map<string, Vector> {
    map id | id in rows && rows[id].Live() && rows[id].node == node :: rows[id].resources
  }

  predicate FitsBesideSlots(r: Vector, available: Vector) {
    r.cpuMillis <= available.cpuMillis && r.memoryBytes <= available.memoryBytes
        && r.ingressBps <= available.ingressBps && r.egressBps <= available.egressBps
  }

  /** The two checks before an allocation is inserted: a count against the slots, a sum for the rest. */
  ghost predicate MayInsert(w: World, resources: Vector) {
    && |LiveHere(w.db.rows, w.agent.node)| < w.slots && |LiveHere(w.db.rows, w.agent.node)| < w.agent.capacity.slots
    && FitsBesideSlots(resources, w.agent.capacity.Sub(Total(LiveHere(w.db.rows, w.agent.node))))
  }

  ghost predicate MayReserve(w: World, id: string, resources: Vector) {
    FitsBesideSlots(resources, w.agent.capacity.Sub(Total(LiveHere(w.db.rows, w.agent.node) - {id})))
  }

  /** What the column checks of the table let through; an allocation takes one slot. */
  predicate Storable(r: Vector) {
    r.slots == 1 && r.NonNegative()
  }

  function Ended(rows: map<string, Row>, session: string): map<string, Row> {
    map id | id in rows ::
        if rows[id].session == session then rows[id].(wanted := false, state := Stopped) else rows[id]
  }

  // ---------------------------------------------------------------- the Agent

  ghost function Handle(a: AgentState, m: Message, now: int, fate: Fate): Outcome {
    match m.order
    case StartWorker(spec) => AfterStart(a, m.command, spec, now, fate)
    case StopWorker => AfterStop(a, m.command, now, fate)
    case Redirect(resources) => AfterDestinations(a, m.command, resources, now, fate)
    case Reslate => AfterSlate(a, m.command, now, fate)
    case Drain(on) => AfterDraining(a, m.command, on, now, fate)
  }

  /** What an answer that reaches the pass it belongs to lets that pass do. */
  function Answered(p: Pass, m: Message): (r: Pass)
    ensures r == p.(stage := r.stage, draining := r.draining)
              && (p.stage.Working? || p.stage.Sweeping? ==> r.draining == p.draining)
  {
    if m.pass != p.no then p
    else if m.order.Drain? && p.stage.Settled? then p.(stage := Opened, draining := m.order.on)
    else if m.order.StopWorker? && p.stage.Working? && p.stage.progress.Deciding? then
      p.(stage := p.stage.(progress := Gone(m.command.resource)))
    else if m.order.StopWorker? && p.stage.Sweeping? then p.(stage := Sweeping(p.stage.left - {m.command.resource}))
    else p
  }

  // ---------------------------------------------------------------- the steps

  predicate Listed(s: Stage) {
    s.Reconciling? || s.Working? || s.Sweeping?
  }

  predicate Open(s: Stage) {
    s.Opened? || Listed(s)
  }

  predicate Bound(s: Stage) {
    s.Settled? || Open(s)
  }

  predicate Busy(p: Pass, wanted: bool) {
    p.stage.Working? && p.stage.wanted == wanted
  }

  /** The requests a pass may send where it stands. */
  predicate Sendable(w: World, p: Pass, c: Command, o: Order) {
    && c.token == p.token
    && match o
       case Drain(_) => p.stage.Settled?
       case StopWorker => p.stage.Working? || p.stage.Sweeping?
       case Redirect(resources) => Busy(p, true) && OwnRow(w, p.stage.session, c.resource)
           && resources == w.db.rows[c.resource].resources
       case Reslate => Busy(p, true)
       case StartWorker(spec) =>
         p.stage.Working? && p.stage.progress == Started(spec) && c.resource == spec.allocation
             && c.generation == spec.generation
  }

  predicate Passing(a: Action) {
    a.Begin? || a.Hear? || a.Settle? || a.Send? || a.ListSessions? || a.Take? || a.Leave? || a.ListWorkers? || a.Keep?
        || a.Finish? || a.Abandon?
  }

  predicate Writing(a: Action) {
    a.CloseSession? || a.CloseRow? || a.FailRow? || a.InsertRow? || a.Reserve? || a.Observe? || a.Rehash? || a.Launch?
  }

  predicate MayPass(w: World, a: Action) {
    match a
    case Begin => w.pass.None?
    case Hear => w.pass.Some? && w.pass.value.stage.Fresh?
    case Settle => w.pass.Some? && w.pass.value.stage.Heard?
    case Send(c, o) => w.pass.Some? && Sendable(w, w.pass.value, c, o)
    case ListSessions => w.pass.Some? && w.pass.value.stage.Opened?
    case Take(s) => w.pass.Some? && w.pass.value.stage.Reconciling? && s in w.pass.value.todo
    case Leave => w.pass.Some? && w.pass.value.stage.Working?
    case ListWorkers => w.pass.Some? && w.pass.value.stage.Reconciling? && w.pass.value.todo == map[]
    case Keep(id) => w.pass.Some? && w.pass.value.stage.Sweeping? && Kept(w.db, id)
    case Finish => w.pass.Some? && w.pass.value.stage == Sweeping({})
    case Abandon => true
    case _ => false
  }

  function ToStage(w: World, s: Stage): World
    requires w.pass.Some?
  {
    w.(pass := Some(w.pass.value.(stage := s)))
  }

  function PassStep(w: World, a: Action): World
    requires MayPass(w, a)
  {
    match a
    case Begin =>
      w.(db := w.db.(counter := w.db.counter + 1), passes := w.passes + 1,
         pass := Some(Pass(w.passes + 1, w.db.counter + 1, false, map[], Fresh)))
    case Hear =>
      var a := Read(w.agent);
      ToStage(w.(agent := a), Heard(a.fence))
    case Settle =>
      var p := w.pass.value;
      if p.stage.seen < p.token then ToStage(w, Settled)
      else
        var token := Max(w.db.counter, p.stage.seen) + 1;
        w.(db := w.db.(counter := token), pass := Some(p.(token := token, stage := Settled)))
    case Send(c, o) => w.(inflight := w.inflight + {Message(w.pass.value.no, c, o)})
    case ListSessions =>
      var todo := map s | s in w.db.sessions && !w.db.sessions[s].ended :: w.db.sessions[s].wanted;
      w.(pass := Some(w.pass.value.(todo := todo, stage := Reconciling)))
    case Take(s) =>
      var p := w.pass.value;
      w.(pass := Some(p.(todo := p.todo - {s}, stage := Working(s, p.todo[s], Deciding))))
    case Leave => ToStage(w, Reconciling)
    case ListWorkers =>
      ToStage(w, Sweeping(set id | id in w.agent.workers && w.agent.workers[id].spec.node == w.agent.node))
    case Keep(id) => ToStage(w, Sweeping(w.pass.value.stage.left - {id}))
    case Finish => w.(pass := None)
    case Abandon => w.(pass := None)
  }

  function PutRow(w: World, id: string, r: Row): World {
    w.(db := w.db.(rows := w.db.rows[id := r]))
  }

  ghost predicate MayWrite(w: World, a: Action) {
    && w.pass.Some? && w.pass.value.stage.Working?
    && var p := w.pass.value;
       var s, progress := p.stage.session, p.stage.progress;
       match a
       case CloseSession =>
         && !p.stage.wanted && s in w.db.sessions
         && ((progress.Deciding? && NoLiveRow(w.db, s)) || (progress.Gone? && OwnRow(w, s, progress.id)))
       case CloseRow => p.stage.wanted && progress.Gone? && OwnRow(w, s, progress.id)
       case FailRow => p.stage.wanted && progress.Gone? && OwnRow(w, s, progress.id) && s in w.db.sessions
           && w.db.rows[progress.id].restarts >= RESTARTS
       case InsertRow(id, _, resources) =>
         p.stage.wanted && progress.Deciding? && !p.draining && id !in w.db.rows && NoLiveRow(w.db, s)
             && Storable(resources) && MayInsert(w, resources)
       case Reserve(id, resources) =>
         p.stage.wanted && progress.Deciding? && OwnRow(w, s, id) && Storable(resources) && MayReserve(w, id, resources)
       case Observe(id, _) => p.stage.wanted && progress.Deciding? && OwnRow(w, s, id)
       case Rehash(id, _) => p.stage.wanted && progress.Deciding? && OwnRow(w, s, id)
       case Launch(id, hash, _, _) =>
         p.stage.wanted && progress.Deciding? && OwnRow(w, s, id)
             && (w.db.rows[id].restarts < RESTARTS || w.db.rows[id].hash != hash)
       case _ => false
  }

  ghost function WriteStep(w: World, a: Action): World
    requires MayWrite(w, a)
  {
    var p := w.pass.value;
    var s := p.stage.session;
    match a
    case CloseSession =>
      ToStage(w.(db := w.db.(rows := Ended(w.db.rows, s),
          sessions := w.db.sessions[s := w.db.sessions[s].(ended := true)])), Reconciling)
    case CloseRow =>
      var id := p.stage.progress.id;
      ToStage(PutRow(w, id, w.db.rows[id].(wanted := false, state := Stopped)), Reconciling)
    case FailRow =>
      var id := p.stage.progress.id;
      var w' := PutRow(w, id, w.db.rows[id].(wanted := false, state := Failed));
      ToStage(w'.(db := w'.db.(sessions := w'.db.sessions[s := Session(false, true)])), Reconciling)
    case InsertRow(id, hash, resources) =>
      PutRow(w, id, Row(s, w.agent.node, true, Pending, 1, p.token, hash, 0, resources))
    case Reserve(id, resources) => PutRow(w, id, w.db.rows[id].(resources := resources))
    case Observe(id, steady) =>
      var r := w.db.rows[id];
      PutRow(w, id, r.(state := Running, restarts := if steady then 0 else r.restarts))
    case Rehash(id, hash) => PutRow(w, id, w.db.rows[id].(hash := hash))
    case Launch(id, hash, image, replace) =>
      var r := w.db.rows[id];
      var generation := if replace then r.generation + 1 else r.generation;
      ToStage(PutRow(w, id, r.(generation := generation, hash := hash, token := p.token, state := Starting, restarts := r.restarts + 1)),
              p.stage.(progress := Started(Spec(id, s, r.node, image, generation, p.token, r.resources))))
  }

  /** A restored database brings no broadcast back. */
  function Closed(db: Database): Database {
    db.(rows := map id | id in db.rows ::
        if db.rows[id].Live() then db.rows[id].(wanted := false, state := Stopped) else db.rows[id],
        sessions := map s | s in db.sessions :: if db.sessions[s].ended then db.sessions[s] else Session(false, true))
  }

  predicate MayHappen(w: World, a: Action) {
    match a
    case Deliver(m, _, _, _) => m in w.inflight
    case AgentRestarts => true
    case PowerLoss => true
    case TakeBackup => true
    case Restore(b) => b in w.backups && w.pass.None? && w.agent.workers == map[]
    case Outside(sessions) => w.db.sessions.Keys <= sessions.Keys
    case WorkerExits(id) => id in w.agent.workers
    case WorkerRemoved(id) => id in w.agent.workers
    case _ => false
  }

  ghost function Happen(w: World, a: Action): World
    requires MayHappen(w, a)
  {
    match a
    case Deliver(m, now, fate, replied) =>
      var r := Handle(w.agent, m, now, fate);
      w.(agent := r.agent,
         accepted := if r.accepted then w.accepted + [m] else w.accepted,
         pass := if r.ok && replied && w.pass.Some? then Some(Answered(w.pass.value, m)) else w.pass)
    case AgentRestarts => w.(agent := Restarted(w.agent))
    case PowerLoss => w.(agent := Restarted(w.agent).(file := w.agent.disk), inflight := {}, pass := None,
        epoch := w.passes)
    case TakeBackup => w.(backups := w.backups + {Backup(w.db, w.agent.file)})
    case Restore(b) =>
      var file := Max(w.agent.file, b.fence);
      w.(db := Closed(b.database), agent := Restarted(w.agent).(disk := file, file := file), inflight := {},
          epoch := w.passes)
    case Outside(sessions) => w.(db := w.db.(sessions := sessions))
    case WorkerExits(id) => w.(agent := w.agent.(workers := Halted(w.agent.workers, id)))
    case WorkerRemoved(id) => w.(agent := w.agent.(workers := w.agent.workers - {id}))
  }

  ghost predicate Enabled(w: World, a: Action) {
    if Passing(a) then MayPass(w, a) else if Writing(a) then MayWrite(w, a) else MayHappen(w, a)
  }

  ghost function Next(w: World, a: Action): World
    requires Enabled(w, a)
  {
    if Passing(a) then PassStep(w, a) else if Writing(a) then WriteStep(w, a) else Happen(w, a)
  }

  /** A new installation: nothing allocated, nothing running, nothing asked. */
  predicate Initial(w: World) {
    && w.db.rows == map[] && w.backups == {} && w.agent.workers == map[] && w.agent.fence == 0
    && w.inflight == {} && w.pass.None? && w.passes == w.epoch == 0 && w.accepted == []
  }

  ghost predicate StepAt(worlds: seq<World>, actions: seq<Action>, i: nat)
    requires i < |actions| < |worlds|
  {
    Enabled(worlds[i], actions[i]) && worlds[i + 1] == Next(worlds[i], actions[i])
  }

  /** A run records each action beside the state it leads to. */
  ghost predicate IsRun(worlds: seq<World>, actions: seq<Action>) {
    && |worlds| == |actions| + 1
    && Initial(worlds[0])
    && forall i | 0 <= i < |actions| :: StepAt(worlds, actions, i)
  }
}
