/**
The host update transaction as a state machine over its durable and volatile state.

Durable state survives process death: the job journal, the admission marker, the
application database and the recovery snapshots. Volatile state does not: the place the
coordinator has reached, the exclusive lock it holds there, and the shared locks of the
processes that have entered the gate. Every journal write, marker write and driver call is a
separate step, and the coordinator may die before or after any of them.
*/
module UpdateTransaction {
  import opened Options

  type JobId = string
  type Pid = nat
  type Mutation = nat

  /** The application database, as the changes that led to it, the latest outermost. */
  datatype Database = Fresh | After(change: Mutation, before: Database)

  datatype Phase =
    | Queued | Preparing | Installing | Verifying
    | RollingBack | RollbackVerifying | Aborting
    | Committed | Recovered | Aborted
    | Succeeded | RolledBack | Failed | RecoveryRequired

  const MAX_ROLLBACKS := 8

  predicate Terminal(p: Phase) {
    p.Succeeded? || p.RolledBack? || p.Failed? || p.RecoveryRequired?
  }

  /** A durable decision: health was verified while admission was closed. */
  predicate Decided(p: Phase) {
    p.Committed? || p.Recovered? || p.Aborted?
  }

  /** The phases in which the installation may be half changed. */
  predicate Unsafe(p: Phase) {
    p.Preparing? || p.Installing? || p.Verifying? || p.RollingBack? || p.RollbackVerifying? || p.Aborting?
        || p.RecoveryRequired?
  }

  /** The phases whose interruption is answered by restoring the snapshot. */
  predicate Uncertain(p: Phase) {
    p.Installing? || p.Verifying? || p.RollingBack? || p.RollbackVerifying?
  }

  /** The phases in which the database may differ from what was admitted. */
  predicate MayBeDamaged(p: Phase) {
    p.Installing? || p.RollingBack? || p.RecoveryRequired?
  }

  function OutcomeOf(decision: Phase): Phase {
    match decision
    case Committed => Succeeded
    case Recovered => RolledBack
    case _ => Failed
  }

  datatype Job = Job(phase: Phase, rollbackResumes: nat, recoveryDeadline: int, credentialsRevoked: bool)

  /** What the coordinator does to the host. */
  datatype Event = PrepareStarted | InstallStarted | RestoreStarted | NewHealthy | OldHealthy

  /** What has been done for a job: how often each driver operation started, which health check passed last. */
  datatype History = History(prepares: nat, installs: nat, restores: nat, newHealthySinceInstall: bool,
      oldHealthySinceRestore: bool)

  const NOTHING_DONE := History(0, 0, 0, false, false)

  function Record(h: History, e: Event): History {
    match e
    case PrepareStarted => h.(prepares := h.prepares + 1)
    case InstallStarted => h.(installs := h.installs + 1, newHealthySinceInstall := false)
    case RestoreStarted => h.(restores := h.restores + 1, oldHealthySinceRestore := false)
    case NewHealthy => h.(newHealthySinceInstall := true)
    case OldHealthy => h.(oldHealthySinceRestore := true)
  }

  /**
  The place the coordinator has reached: the next write, lock operation or driver call.
  `InstallRunning` remembers the rows the installation found, `Restoring` whether the database
  file has been replaced yet.
  */
  datatype Point =
    | AcquireLock | TakeMarker | RecordOutcome(decision: Phase)
    | CheckDecided | CommitDecision(decision: Phase) | OpenAdmission(decision: Phase) | RecordTerminal(decision: Phase)
    | CheckDeadline | CheckIdle
    | WritePreparing | StartPrepare | PrepareRunning | WritePreparationFailed
    | WriteInstalling | StartInstall | InstallRunning(found: Database) | WriteVerifying | CheckNew | WriteInstallFailed
    | BeginRollback | StartRestore | Restoring(replaced: bool) | WriteRollbackVerifying | CheckRestored
    | BeginAbort | AbortRunning | CheckAborted
    | WriteRecoveryRequired

  datatype Engine = Idle | Running(job: JobId, at: Point)

  /** A process inside `Enter`: it holds the shared lock, and has or has not examined the marker. */
  datatype Reader = Knocking | Inside

  datatype World = World(
    journal: map<JobId, Job>,
    marker: Option<JobId>,
    rows: Database,
    snapshots: map<JobId, Database>,
    clock: int,
    engine: Engine,
    gate: map<Pid, Reader>,
    admitted: Database,
    history: map<JobId, History>)

  /** How a driver call, or part of one, turns out. */
  datatype Outcome = Ok | Raise | Effect(rows: Database)

  datatype Action =
    | Queue(id: JobId, deadline: int)
    | Begin(id: JobId)
    | Proceed(outcome: Outcome)
    | Die
    | Tick(time: int)
    | Knock(pid: Pid)
    | Look(pid: Pid)
    | Mutate(pid: Pid, mutation: Mutation)
    | Leave(pid: Pid)

  /** The exclusive lock is held from the moment it is granted until `resume` returns. */
  predicate HoldsLock(e: Engine) {
    e.Running? && !e.at.AcquireLock? && !e.at.RecordOutcome?
  }

  function Move(w: World, p: Point): World
    requires w.engine.Running?
  {
    w.(engine := Running(w.engine.job, p))
  }

  function WritePhase(w: World, phase: Phase, e: Engine): World
    requires w.engine.Running? && w.engine.job in w.journal
  {
    w.(journal := w.journal[w.engine.job := w.journal[w.engine.job].(phase := phase)], engine := e)
  }

  function Note(w: World, event: Event, p: Point): World
    requires w.engine.Running? && w.engine.job in w.history
  {
    Move(w.(history := w.history[w.engine.job := Record(w.history[w.engine.job], event)]), p)
  }

  /** Where `resume` goes once it holds the fence. */
  function EntryPoint(phase: Phase): Point {
    if Decided(phase) then CheckDecided
    else if Uncertain(phase) then BeginRollback
    else if phase.Preparing? || phase.Aborting? then BeginAbort
    else CheckDeadline
  }

  predicate BudgetExhausted(job: Job, clock: int) {
    job.rollbackResumes >= MAX_ROLLBACKS || clock > job.recoveryDeadline
  }

  predicate InJournal(w: World) {
    w.engine.Running? && w.engine.job in w.journal && w.engine.job in w.history
  }

  predicate Entering(p: Point) {
    p.AcquireLock? || p.TakeMarker? || p.RecordOutcome?
  }

  /** `Fence.hold`: the exclusive lock first, the marker under it; and the write of a known outcome. */
  function Enter(w: World, o: Outcome): World
    requires InJournal(w) && Entering(w.engine.at)
  {
    var id := w.engine.job;
    match w.engine.at
    case AcquireLock =>
      if o.Ok? && w.gate == map[] then Move(w, TakeMarker) else w.(engine := Idle)
    case TakeMarker =>
      if w.marker.Some? && w.marker.value != id then w.(engine := Idle)
      else Move(w.(marker := Some(id)), EntryPoint(w.journal[id].phase))
    case RecordOutcome(d) => WritePhase(w, OutcomeOf(d), Idle)
  }

  predicate Deciding(p: Point) {
    p.CheckDecided? || p.CommitDecision? || p.OpenAdmission? || p.RecordTerminal?
  }

  /** `finish`: the decision is durable before admission opens, the outcome is written after. */
  function Decide(w: World, o: Outcome): World
    requires InJournal(w) && Deciding(w.engine.at)
  {
    var id := w.engine.job;
    var job := w.journal[id];
    match w.engine.at
    case CheckDecided =>
      if o.Ok? then Note(w, if job.phase.Committed? then NewHealthy else OldHealthy, CommitDecision(job.phase))
      else Move(w, WriteRecoveryRequired)
    case CommitDecision(d) =>
      var revoked := job.credentialsRevoked || d.Recovered?;
      w.(journal := w.journal[id := job.(phase := d, credentialsRevoked := revoked)],
          engine := Running(id, OpenAdmission(d)))
    case OpenAdmission(d) =>
      if w.marker.Some? && w.marker.value != id then w.(engine := Idle)
      else Move(w.(marker := None), RecordTerminal(d))
    case RecordTerminal(d) => WritePhase(w, OutcomeOf(d), Idle)
  }

  predicate GoingForward(p: Point) {
    || p.CheckDeadline? || p.CheckIdle? || p.WritePreparing? || p.StartPrepare? || p.PrepareRunning?
    || p.WritePreparationFailed? || p.WriteInstalling?
  }

  /** A queued job: deadline, final idle check, snapshot. */
  function Forward(w: World, o: Outcome): World
    requires InJournal(w) && GoingForward(w.engine.at)
  {
    var id := w.engine.job;
    match w.engine.at
    case CheckDeadline =>
      if w.clock > w.journal[id].recoveryDeadline then Move(w, CommitDecision(Aborted)) else Move(w, CheckIdle)
    case CheckIdle =>
      if o.Ok? then Move(w, WritePreparing) else Move(w, CommitDecision(Aborted))
    case WritePreparing => WritePhase(w, Preparing, Running(id, StartPrepare))
    case StartPrepare => Note(w, PrepareStarted, PrepareRunning)
    case PrepareRunning =>
      if o.Effect? then w.(snapshots := w.snapshots[id := w.rows])
      else if o.Ok? && id in w.snapshots then Move(w, WriteInstalling)
      else Move(w, WritePreparationFailed)
    case WritePreparationFailed => WritePhase(w, Aborting, Running(id, BeginAbort))
    case WriteInstalling => WritePhase(w, Installing, Running(id, StartInstall))
  }

  predicate Changing(p: Point) {
    p.StartInstall? || p.InstallRunning? || p.WriteVerifying? || p.CheckNew? || p.WriteInstallFailed?
  }

  /** The installation: unfinished it may leave any rows behind, finished it leaves those it found. */
  function Change(w: World, o: Outcome): World
    requires InJournal(w) && Changing(w.engine.at)
  {
    var id := w.engine.job;
    match w.engine.at
    case StartInstall => Note(w, InstallStarted, InstallRunning(w.rows))
    case InstallRunning(found) =>
      if o.Effect? then w.(rows := o.rows)
      else if o.Ok? then Move(w.(rows := found), WriteVerifying)
      else Move(w, WriteInstallFailed)
    case WriteVerifying => WritePhase(w, Verifying, Running(id, CheckNew))
    case CheckNew =>
      if o.Ok? then Note(w, NewHealthy, CommitDecision(Committed)) else Move(w, WriteInstallFailed)
    case WriteInstallFailed => WritePhase(w, RollingBack, Running(id, BeginRollback))
  }

  predicate GoingBack(p: Point) {
    p.BeginRollback? || p.StartRestore?
  }

  /** `rollback`, first part: the budget is charged durably before each restoration. */
  function GoBack(w: World, o: Outcome): World
    requires InJournal(w) && GoingBack(w.engine.at)
  {
    var id := w.engine.job;
    var job := w.journal[id];
    match w.engine.at
    case BeginRollback =>
      if BudgetExhausted(job, w.clock) then WritePhase(w, RecoveryRequired, Idle)
      else
        w.(journal := w.journal[id := job.(phase := RollingBack, rollbackResumes := job.rollbackResumes + 1)],
           engine := Running(id, StartRestore))
    case StartRestore => Note(w, RestoreStarted, Restoring(false))
  }

  predicate Returning(p: Point) {
    p.Restoring? || p.WriteRollbackVerifying? || p.CheckRestored?
  }

  /** `rollback`, second part: the database file is replaced as a whole, then the old health is checked. */
  function Return(w: World, o: Outcome): World
    requires InJournal(w) && Returning(w.engine.at)
  {
    var id := w.engine.job;
    match w.engine.at
    case Restoring(replaced) =>
      if o.Effect? && id in w.snapshots then Move(w.(rows := w.snapshots[id]), Restoring(true))
      else if o.Ok? && replaced then Move(w, WriteRollbackVerifying)
      else Move(w, WriteRecoveryRequired)
    case WriteRollbackVerifying => WritePhase(w, RollbackVerifying, Running(id, CheckRestored))
    case CheckRestored =>
      if o.Ok? then Note(w, OldHealthy, CommitDecision(Recovered)) else Move(w, WriteRecoveryRequired)
  }

  predicate GivingUp(p: Point) {
    p.BeginAbort? || p.AbortRunning? || p.CheckAborted? || p.WriteRecoveryRequired?
  }

  /** `abort`, and the write of the phase that asks for an administrator. */
  function GiveUp(w: World, o: Outcome): World
    requires InJournal(w) && GivingUp(w.engine.at)
  {
    var id := w.engine.job;
    match w.engine.at
    case BeginAbort => WritePhase(w, Aborting, Running(id, AbortRunning))
    case AbortRunning => if o.Ok? then Move(w, CheckAborted) else Move(w, WriteRecoveryRequired)
    case CheckAborted =>
      if o.Ok? then Note(w, OldHealthy, CommitDecision(Aborted)) else Move(w, WriteRecoveryRequired)
    case WriteRecoveryRequired => WritePhase(w, RecoveryRequired, Idle)
  }

  /** One step of the coordinator. */
  function Advance(w: World, o: Outcome): World
    requires InJournal(w)
  {
    var p := w.engine.at;
    if Entering(p) then Enter(w, o)
    else if Deciding(p) then Decide(w, o)
    else if GoingForward(p) then Forward(w, o)
    else if Changing(p) then Change(w, o)
    else if GoingBack(p) then GoBack(w, o)
    else if Returning(p) then Return(w, o)
    else GiveUp(w, o)
  }

  predicate Enabled(w: World, a: Action) {
    match a
    case Queue(id, _) => w.engine.Idle? && id !in w.journal
    case Begin(id) => w.engine.Idle? && id in w.journal && !Terminal(w.journal[id].phase)
    case Proceed(_) => InJournal(w)
    case Die => true
    case Tick(_) => true
    case Knock(pid) => pid !in w.gate && !HoldsLock(w.engine)
    case Look(pid) => pid in w.gate && w.gate[pid] == Knocking
    case Mutate(pid, m) => pid in w.gate && w.gate[pid] == Inside
    case Leave(pid) => pid in w.gate
  }

  function Next(w: World, a: Action): World
    requires Enabled(w, a)
  {
    match a
    case Queue(id, deadline) =>
      w.(journal := w.journal[id := Job(Queued, 0, deadline, false)], snapshots := w.snapshots - {id},
          history := w.history[id := NOTHING_DONE])
    case Begin(id) =>
      var phase := w.journal[id].phase;
      if Decided(phase) && w.marker != Some(id) then w.(engine := Running(id, RecordOutcome(phase)))
      else w.(engine := Running(id, AcquireLock))
    case Proceed(o) => Advance(w, o)
    case Die => w.(engine := Idle)
    case Tick(time) => w.(clock := time)
    case Knock(pid) => w.(gate := w.gate[pid := Knocking])
    case Look(pid) =>
      if w.marker.None? then w.(gate := w.gate[pid := Inside]) else w.(gate := w.gate - {pid})
    case Mutate(pid, m) => w.(rows := After(m, w.rows), admitted := After(m, w.admitted))
    case Leave(pid) => w.(gate := w.gate - {pid})
  }

  predicate Initial(w: World) {
    && w.journal == map[] && w.marker.None? && w.engine.Idle? && w.gate == map[]
    && w.rows == w.admitted && w.history == map[]
  }

  predicate StepAt(worlds: seq<World>, actions: seq<Action>, i: nat)
    requires i < |actions| < |worlds|
  {
    Enabled(worlds[i], actions[i]) && worlds[i + 1] == Next(worlds[i], actions[i])
  }

  /** A run records each action beside the state it leads to. */
  predicate IsRun(worlds: seq<World>, actions: seq<Action>) {
    && |worlds| == |actions| + 1
    && Initial(worlds[0])
    && forall i | 0 <= i < |actions| :: StepAt(worlds, actions, i)
  }
}
