/**
The coordinator: an object whose methods rewrite the journal, take and drop the marker and
call the driver. Each method is proved to move only along steps of
the transaction's state machine, so every theorem about runs holds of what it does; between
any two of its statements other processes may act and the coordinator itself may die.
*/
module UpdateCoordinator {
  import opened Options
  import opened UpdateTransaction
  import opened UpdateSafety
  import opened UpdateTheorems
  import UpdateProgress

  /** How a call ended: normally, by an exception that is caught, or by the death of the process. */
  datatype Fate = Done | Raised | Died

  /** How `resume` ended; `Refused` when the fence could not be held. */
  datatype Resumption = Finished | Refused | Interrupted

  /** The outcomes a resumption can have that starts in `phase`. */
  predicate MayEndAs(phase: Phase, outcome: Phase) {
    if Terminal(phase) then outcome == phase
    else if Decided(phase) then outcome == OutcomeOf(phase) || outcome.RecoveryRequired?
    else if Uncertain(phase) then outcome.RolledBack? || outcome.RecoveryRequired?
    else if phase.Preparing? || phase.Aborting? then outcome.Failed? || outcome.RecoveryRequired?
    else Terminal(outcome)
  }

  /** What becomes of a job when nothing goes wrong while it is resumed, at this time. */
  predicate ReachedBy(job: Job, clock: int, outcome: Phase) {
    match job.phase
    case Queued => outcome == if clock > job.recoveryDeadline then Failed else Succeeded
    case Preparing => outcome == Failed
    case Aborting => outcome == Failed
    case Aborted => outcome == Failed
    case Committed => outcome == Succeeded
    case Recovered => outcome == RolledBack
    case Succeeded => outcome == Succeeded
    case Failed => outcome == Failed
    case RolledBack => outcome == RolledBack
    case RecoveryRequired => outcome == RecoveryRequired
    case _ => outcome == if job.rollbackResumes >= 8 || clock > job.recoveryDeadline then RecoveryRequired else RolledBack
  }

  /** Only an outcome, or a decision whose admission is open again, goes without the fence. */
  predicate NeedsFence(phase: Phase, marker: Option<JobId>, id: JobId) {
    !Terminal(phase) && (Decided(phase) ==> marker == Some(id))
  }

  // What the machine does at the places of the coordinator, sorted by what the coordinator does there.

  /** Writes of a phase. */
  predicate Writes(p: Point, phase: Phase, next: Point) {
    match p
    case WritePreparing => phase.Preparing? && next.StartPrepare?
    case WritePreparationFailed => phase.Aborting? && next.BeginAbort?
    case WriteInstalling => phase.Installing? && next.StartInstall?
    case WriteVerifying => phase.Verifying? && next.CheckNew?
    case WriteInstallFailed => phase.RollingBack? && next.BeginRollback?
    case WriteRollbackVerifying => phase.RollbackVerifying? && next.CheckRestored?
    case BeginAbort => phase.Aborting? && next.AbortRunning?
    case _ => false
  }

  lemma WriteStep(w: World, p: Point, phase: Phase, next: Point)
    requires InJournal(w) && w.engine.at == p && Writes(p, phase, next)
    ensures Advance(w, Ok) == WritePhase(w, phase, Running(w.engine.job, next))
    ensures !next.AcquireLock? && !next.RecordOutcome?
  {
  }

  /** Calls that pass or fail and touch nothing. */
  predicate Checks(p: Point, passed: Option<Event>, ok: Point, failed: Point) {
    match p
    case CheckIdle => passed.None? && ok.WritePreparing? && failed == CommitDecision(Aborted)
    case CheckNew => passed == Some(NewHealthy) && ok == CommitDecision(Committed) && failed.WriteInstallFailed?
    case CheckRestored => passed == Some(OldHealthy) && ok == CommitDecision(Recovered) && failed.WriteRecoveryRequired?
    case AbortRunning => passed.None? && ok.CheckAborted? && failed.WriteRecoveryRequired?
    case CheckAborted => passed == Some(OldHealthy) && ok == CommitDecision(Aborted) && failed.WriteRecoveryRequired?
    case _ => false
  }

  function Passed(w: World, passed: Option<Event>, ok: Point): World
    requires InJournal(w)
  {
    match passed
    case Some(e) => Note(w, e, ok)
    case None => Move(w, ok)
  }

  lemma CheckStep(w: World, p: Point, passed: Option<Event>, ok: Point, failed: Point)
    requires InJournal(w) && w.engine.at == p && Checks(p, passed, ok, failed)
    ensures Advance(w, Ok) == Passed(w, passed, ok) && Advance(w, Raise) == Move(w, failed)
    ensures !ok.AcquireLock? && !ok.RecordOutcome? && !failed.AcquireLock? && !failed.RecordOutcome?
  {
  }

  /** Operations that start, and then run on their own. */
  predicate Launches(w: World, p: Point, event: Event, running: Point) {
    match p
    case StartPrepare => event.PrepareStarted? && running.PrepareRunning?
    case StartInstall => event.InstallStarted? && running == InstallRunning(w.rows)
    case StartRestore => event.RestoreStarted? && running == Restoring(false)
    case _ => false
  }

  lemma LaunchStep(w: World, p: Point, event: Event, running: Point)
    requires InJournal(w) && w.engine.at == p && Launches(w, p, event, running)
    ensures Advance(w, Ok) == Note(w, event, running) && !running.AcquireLock? && !running.RecordOutcome?
  {
  }

  lemma PrepareStep(w: World)
    requires InJournal(w) && w.engine.at.PrepareRunning?
    ensures var id := w.engine.job;
            && Advance(w, Effect(w.rows)) == w.(snapshots := w.snapshots[id := w.rows])
            && (id in w.snapshots ==> Advance(w, Ok) == Move(w, WriteInstalling))
            && Advance(w, Raise) == Move(w, WritePreparationFailed)
  {
  }

  lemma InstallStep(w: World, found: Database, rows: Database)
    requires InJournal(w) && w.engine.at == InstallRunning(found)
    ensures Advance(w, Effect(rows)) == w.(rows := rows)
    ensures Advance(w, Ok) == Move(w.(rows := found), WriteVerifying)
    ensures Advance(w, Raise) == Move(w, WriteInstallFailed)
  {
  }

  lemma RestoreStep(w: World, replaced: bool)
    requires InJournal(w) && w.engine.at == Restoring(replaced)
    ensures var id := w.engine.job;
            && (id in w.snapshots ==>
                Advance(w, Effect(w.snapshots[id])) == Move(w.(rows := w.snapshots[id]), Restoring(true)))
            && (replaced ==> Advance(w, Ok) == Move(w, WriteRollbackVerifying))
            && Advance(w, Raise) == Move(w, WriteRecoveryRequired)
  {
  }

  lemma RollbackStep(w: World)
    requires InJournal(w) && w.engine.at.BeginRollback?
    ensures var id := w.engine.job;
            var job := w.journal[id];
            Advance(w, Ok) == if BudgetExhausted(job, w.clock) then WritePhase(w, RecoveryRequired, Idle)
                              else w.(journal := w.journal[id := job.(phase := RollingBack,
                                  rollbackResumes := job.rollbackResumes + 1)],
                                      engine := Running(id, StartRestore))
  {
  }

  class Coordinator {
    var journal: map<JobId, Job>
    var marker: Option<JobId>
    var database: Database
    var recovery: map<JobId, Database>
    var clock: int
    var locked: bool  // the exclusive side of the admission lock
    var gate: map<Pid, Reader>
    ghost var engine: Engine
    ghost var admitted: Database
    ghost var history: map<JobId, History>
    ghost var worlds: seq<World>
    ghost var actions: seq<Action>

    ghost function View(): World
      reads this
    {
      World(journal, marker, database, recovery, clock, engine, gate, admitted, history)
    }

    /** The run so far leads to the present state. */
    ghost predicate Valid()
      reads this
    {
      IsRun(worlds, actions) && worlds[|worlds| - 1] == View() && locked == HoldsLock(engine)
    }

    ghost predicate At(id: JobId, p: Point)
      reads this
    {
      engine == Running(id, p) && id in journal && id in history
    }

    /** The latest thing that happened is the death of the coordinator. */
    ghost predicate Dead()
      reads this
    {
      |actions| > 0 && actions[|actions| - 1].Die?
    }

    /** What keeps a job from the fence: a process inside the gate, or the marker of another job. */
    predicate Contended(id: JobId)
      reads this
    {
      gate != map[] || (marker.Some? && marker.value != id)
    }

    constructor ()
      ensures Valid() && journal == map[] && marker.None?
    {
      journal, marker, database, recovery, clock, locked, gate := map[], None, Fresh, map[], 0, false, map[];
      engine, admitted, history := Idle, Fresh, map[];
      new;
      worlds, actions := [View()], [];
    }

    /** Appends the step just taken to the run. */
    ghost method Took(a: Action)
      requires IsRun(worlds, actions)
      requires locked == HoldsLock(engine)
      requires Enabled(worlds[|worlds| - 1], a) && View() == Next(worlds[|worlds| - 1], a)
      modifies this`worlds, this`actions
      ensures Valid() && old(worlds) < worlds && actions == old(actions) + [a]
    {
      var before, did := worlds, actions;
      worlds, actions := worlds + [View()], actions + [a];
      hide Next, Enabled;
      forall i | 0 <= i < |actions| ensures StepAt(worlds, actions, i) {
        if i < |did| {
          assert StepAt(before, did, i);
        }
      }
    }

    /** Any number of steps of the processes at the gate, and of the clock. */
    method Others()
      requires Valid()
      modifies this
      ensures Valid() && old(worlds) <= worlds && old(actions) <= actions
      ensures journal == old(journal) && marker == old(marker) && recovery == old(recovery)
      ensures engine == old(engine) && history == old(history)
    {
      hide IsRun, Advance;
      var steps: nat := *;
      while steps > 0
        invariant Valid() && old(worlds) <= worlds && old(actions) <= actions
        invariant journal == old(journal) && marker == old(marker) && recovery == old(recovery)
        invariant engine == old(engine) && history == old(history)
      {
        var pid: Pid := *;
        if * {
          clock := *;
          Took(Tick(clock));
        } else if pid !in gate {
          if !locked {
            gate := gate[pid := Knocking];
            Took(Knock(pid));
          }
        } else if * {
          gate := gate - {pid};
          Took(Action.Leave(pid));
        } else if gate[pid] == Knocking {
          gate := if marker.None? then gate[pid := Inside] else gate - {pid};
          Took(Look(pid));
        } else {
          var change: Mutation := *;
          database, admitted := After(change, database), After(change, admitted);
          Took(Mutate(pid, change));
        }
        steps := steps - 1;
      }
    }

    /** The admission side of the gate: the shared lock, which is refused at once, and then the marker. */
    method EnterGate(pid: Pid) returns (inside: bool)
      requires Valid() && pid !in gate
      modifies this`gate, this`worlds, this`actions
      ensures Valid() && old(worlds) <= worlds && old(actions) <= actions
      ensures inside <==> !locked && marker.None?
      ensures gate == if inside then old(gate)[pid := Inside] else old(gate)
    {
      hide IsRun, Advance;
      if locked { return false; }
      gate := gate[pid := Knocking];
      Took(Knock(pid));
      inside := marker.None?;
      gate := if inside then gate[pid := Inside] else gate - {pid};
      Took(Look(pid));
    }

    /** A change made between `EnterGate` and `LeaveGate` is in the database and counts as admitted. */
    method Apply(pid: Pid, change: Mutation)
      requires Valid() && pid in gate && gate[pid] == Inside
      modifies this`database, this`admitted, this`worlds, this`actions
      ensures Valid() && old(worlds) <= worlds && old(actions) <= actions
      ensures database == After(change, old(database)) && admitted == After(change, old(admitted))
    {
      hide IsRun, Advance;
      database, admitted := After(change, database), After(change, admitted);
      Took(Mutate(pid, change));
    }

    method LeaveGate(pid: Pid)
      requires Valid() && pid in gate
      modifies this`gate, this`worlds, this`actions
      ensures Valid() && old(worlds) <= worlds && old(actions) <= actions && gate == old(gate) - {pid}
    {
      hide IsRun, Advance;
      gate := gate - {pid};
      Took(Action.Leave(pid));
    }

    /** A durable write of the journal; after the last one `resume` returns and drops the lock. */
    method Persist(id: JobId, smooth: bool, job: Job, ghost next: Point, last: bool) returns (alive: bool)
      requires Valid() && engine.Running? && engine.job == id && id in journal && id in history
      requires Advance(View(), Ok)
               == View().(journal := journal[id := job], engine := if last then Idle else Running(id, next))
      requires !last ==> locked && HoldsLock(Running(id, next))
      modifies this
      ensures Valid() && old(worlds) <= worlds && old(actions) <= actions
      ensures !alive ==> |old(actions)| < |actions| && Dead()
      ensures marker == old(marker) && recovery == old(recovery) && history == old(history)
      ensures alive ==> journal == old(journal)[id := job] && engine == if last then Idle else Running(id, next)
      ensures smooth ==> alive
    {
      hide Advance;
      alive := *;
      if smooth { alive := true; }
      if alive {
        journal, locked := journal[id := job], !last;
        engine := if last then Idle else Running(id, next);
        Took(Proceed(Ok));
        Others();
      } else {
        engine, locked := Idle, false;
        Took(Die);
      }
    }

    /** A driver call that touches neither the journal nor the database: a health check, an idle check, a restart. */
    method Call(id: JobId, smooth: bool, ghost passed: Option<Event>, ghost ok: Point, ghost failed: Point) returns (fate: Fate)
      requires Valid() && engine.Running? && engine.job == id && id in journal && id in history && locked
      requires HoldsLock(Running(id, ok)) && HoldsLock(Running(id, failed))
      requires Advance(View(), Ok)
               == match passed case Some(e) => Note(View(), e, ok) case None => Move(View(), ok)
      requires Advance(View(), Raise) == Move(View(), failed)
      modifies this
      ensures Valid() && old(worlds) <= worlds && old(actions) <= actions
      ensures fate.Died? ==> |old(actions)| < |actions| && Dead()
      ensures journal == old(journal) && marker == old(marker) && recovery == old(recovery)
      ensures fate.Done? ==> At(id, ok)
      ensures fate.Raised? ==> At(id, failed)
      ensures smooth ==> fate.Done?
    {
      hide Advance;
      fate := *;
      if smooth { fate := Done; }
      match fate
      case Done =>
        history := match passed case Some(e) => history[id := Record(history[id], e)] case None => history;
        engine := Running(id, ok);
        Took(Proceed(Ok));
        Others();
      case Raised =>
        engine := Running(id, failed);
        Took(Proceed(Raise));
        Others();
      case Died =>
        engine, locked := Idle, false;
        Took(Die);
    }

    /** `Fence.release`: the marker of another job is an error, which never occurs. */
    method Release(id: JobId, smooth: bool, ghost decision: Phase) returns (fate: Fate)
      requires Valid() && At(id, OpenAdmission(decision)) && journal[id].phase == decision
      modifies this
      ensures Valid() && old(worlds) <= worlds && old(actions) <= actions
      ensures fate.Died? ==> |old(actions)| < |actions| && Dead()
      ensures !fate.Raised?
      ensures fate.Done? ==> At(id, RecordTerminal(decision)) && journal == old(journal) && marker.None?
      ensures smooth ==> fate.Done?
    {
      ReleaseNeverMismatches(worlds, actions, |worlds| - 1);
      if marker.Some? && marker.value != id { return Raised; }
      fate := *;
      if smooth || fate.Done? {
        fate := Done;
        marker, engine := None, Running(id, RecordTerminal(decision));
        Took(Proceed(Ok));
        Others();
      } else {
        fate := Died;
        engine, locked := Idle, false;
        Took(Die);
      }
    }

    /** `finish`: decide durably, open admission, record the outcome. */
    method Finish(id: JobId, smooth: bool, decision: Phase, terminal: Phase) returns (fate: Fate)
      requires Valid() && At(id, CommitDecision(decision)) && terminal == OutcomeOf(decision) && Decided(decision)
      modifies this
      ensures Valid() && old(worlds) <= worlds && old(actions) <= actions
      ensures fate.Died? ==> |old(actions)| < |actions| && Dead()
      ensures !fate.Raised?
      ensures fate.Done? ==> engine.Idle? && id in journal && journal[id].phase == terminal
      ensures fate.Done? ==>
                var was := old(journal)[id];
                var revoked := was.credentialsRevoked || decision.Recovered?;
                journal == old(journal)[id := was.(phase := terminal, credentialsRevoked := revoked)] && marker.None?
      ensures smooth ==> fate.Done?
    {
      hide IsRun;
      var job := journal[id].(phase := decision, credentialsRevoked := journal[id].credentialsRevoked
          || decision.Recovered?);
      var alive := Persist(id, smooth, job, OpenAdmission(decision), false);
      if !alive { return Died; }
      fate := Release(id, smooth, decision);
      if !fate.Done? { return; }
      alive := Persist(id, smooth, journal[id].(phase := terminal), RecordTerminal(decision), true);
      fate := if alive then Done else Died;
    }

    /** The driver starts an operation that may be cut short at any moment. */
    method Start(id: JobId, smooth: bool, ghost from: Point, ghost started: Event, ghost running: Point) returns (alive: bool)
      requires Valid() && At(id, from) && locked && HoldsLock(Running(id, running))
      requires Advance(View(), Ok) == Note(View(), started, running)
      modifies this
      ensures Valid() && old(worlds) <= worlds && old(actions) <= actions
      ensures !alive ==> |old(actions)| < |actions| && Dead()
      ensures journal == old(journal) && recovery == old(recovery)
      ensures alive ==> At(id, running)
      ensures smooth ==> alive
    {
      hide Advance;
      alive := *;
      if smooth { alive := true; }
      if alive {
        history, engine := history[id := Record(history[id], started)], Running(id, running);
        Took(Proceed(Ok));
        Others();
      } else {
        engine, locked := Idle, false;
        Took(Die);
      }
    }

    /** The running operation ends: with success if it may, with an exception, or with the process. */
    method End(id: JobId, smooth: bool, mayFinish: bool, ghost ok: Point, ghost failed: Point) returns (fate: Fate)
      requires Valid() && engine.Running? && engine.job == id && id in journal && id in history && locked
      requires HoldsLock(Running(id, ok)) && HoldsLock(Running(id, failed))
      requires mayFinish ==> Advance(View(), Ok) == Move(View(), ok)
      requires Advance(View(), Raise) == Move(View(), failed)
      modifies this
      ensures Valid() && old(worlds) <= worlds && old(actions) <= actions
      ensures fate.Died? ==> |old(actions)| < |actions| && Dead()
      ensures journal == old(journal) && recovery == old(recovery)
      ensures fate.Done? ==> mayFinish && At(id, ok)
      ensures fate.Raised? ==> At(id, failed)
      ensures smooth && mayFinish ==> fate.Done?
    {
      hide Advance;
      fate := *;
      if smooth { fate := Done; }
      if fate.Done? && !mayFinish { fate := Raised; }
      match fate
      case Done =>
        engine := Running(id, ok);
        Took(Proceed(Ok));
        Others();
      case Raised =>
        engine := Running(id, failed);
        Took(Proceed(Raise));
        Others();
      case Died =>
        engine, locked := Idle, false;
        Took(Die);
    }

    /** A durable write of a phase. */
    method Write(id: JobId, smooth: bool, phase: Phase, ghost p: Point, ghost next: Point) returns (alive: bool)
      requires Valid() && At(id, p) && locked && Writes(p, phase, next)
      modifies this
      ensures Valid() && old(worlds) <= worlds && old(actions) <= actions
      ensures !alive ==> |old(actions)| < |actions| && Dead()
      ensures recovery == old(recovery)
      ensures alive ==> At(id, next) && locked && journal == old(journal)[id := old(journal)[id].(phase := phase)]
      ensures smooth ==> alive
    {
      hide IsRun, Advance, Writes;
      WriteStep(View(), p, phase, next);
      alive := Persist(id, smooth, journal[id].(phase := phase), next, false);
    }

    /** A call that passes or fails and touches nothing. */
    method Check(id: JobId, smooth: bool, ghost p: Point, ghost passed: Option<Event>, ghost ok: Point, ghost failed: Point)
        returns (fate: Fate)
      requires Valid() && At(id, p) && locked && Checks(p, passed, ok, failed)
      modifies this
      ensures Valid() && old(worlds) <= worlds && old(actions) <= actions
      ensures fate.Died? ==> |old(actions)| < |actions| && Dead()
      ensures journal == old(journal)
      ensures fate.Done? ==> At(id, ok) && locked
      ensures fate.Raised? ==> At(id, failed) && locked
      ensures smooth ==> fate.Done?
    {
      hide IsRun, Advance, Checks;
      CheckStep(View(), p, passed, ok, failed);
      fate := Call(id, smooth, passed, ok, failed);
    }

    /** The driver starts an operation. */
    method Launch(id: JobId, smooth: bool, ghost p: Point, ghost event: Event, ghost running: Point) returns (alive: bool)
      requires Valid() && At(id, p) && locked && Launches(View(), p, event, running)
      modifies this
      ensures Valid() && old(worlds) <= worlds && old(actions) <= actions
      ensures !alive ==> |old(actions)| < |actions| && Dead()
      ensures journal == old(journal) && recovery == old(recovery)
      ensures alive ==> At(id, running) && locked
      ensures smooth ==> alive
    {
      hide IsRun, Advance, Launches;
      LaunchStep(View(), p, event, running);
      alive := Start(id, smooth, p, event, running);
    }

    /** The driver's `prepare`: the snapshot may or may not have been taken when it ends badly. */
    method Prepare(id: JobId, smooth: bool) returns (fate: Fate)
      requires Valid() && At(id, StartPrepare) && locked
      modifies this
      ensures Valid() && old(worlds) <= worlds && old(actions) <= actions
      ensures fate.Died? ==> |old(actions)| < |actions| && Dead()
      ensures journal == old(journal)
      ensures fate.Done? ==> At(id, WriteInstalling) && locked
      ensures fate.Raised? ==> At(id, WritePreparationFailed) && locked
      ensures smooth ==> fate.Done?
    {
      hide IsRun, Advance;
      var alive := Launch(id, smooth, StartPrepare, PrepareStarted, PrepareRunning);
      if !alive { return Died; }
      var saved: bool := *;
      if smooth || saved { TakeSnapshot(id); }
      PrepareStep(View());
      fate := End(id, smooth, id in recovery, WriteInstalling, WritePreparationFailed);
    }

    method TakeSnapshot(id: JobId)
      requires Valid() && At(id, PrepareRunning) && locked
      modifies this
      ensures Valid() && old(worlds) <= worlds && old(actions) <= actions
      ensures journal == old(journal) && At(id, PrepareRunning) && locked && id in recovery
    {
      hide IsRun, Advance;
      PrepareStep(View());
      recovery := recovery[id := database];
      Took(Proceed(Effect(database)));
      Others();
    }

    /** The driver's `install`: unfinished, it leaves the database in any state. */
    method Install(id: JobId, smooth: bool) returns (fate: Fate)
      requires Valid() && At(id, StartInstall) && locked
      modifies this
      ensures Valid() && old(worlds) <= worlds && old(actions) <= actions
      ensures fate.Died? ==> |old(actions)| < |actions| && Dead()
      ensures journal == old(journal)
      ensures fate.Done? ==> At(id, WriteVerifying) && locked
      ensures fate.Raised? ==> At(id, WriteInstallFailed) && locked
      ensures smooth ==> fate.Done?
    {
      hide IsRun, Advance;
      var found := database;
      var alive := Launch(id, smooth, StartInstall, InstallStarted, InstallRunning(found));
      if !alive { return Died; }
      var touched: bool, finished: bool := *, *;
      if touched { Disturb(id, found); }
      if smooth || finished {
        Settle(id, found);
        return Done;
      }
      InstallStep(View(), found, database);
      fate := End(id, smooth, false, WriteVerifying, WriteInstallFailed);
    }

    method Disturb(id: JobId, found: Database)
      requires Valid() && At(id, InstallRunning(found)) && locked
      modifies this
      ensures Valid() && old(worlds) <= worlds && old(actions) <= actions
      ensures journal == old(journal) && At(id, InstallRunning(found)) && locked
    {
      hide IsRun, Advance;
      var rows: Database := *;
      InstallStep(View(), found, rows);
      database := rows;
      Took(Proceed(Effect(rows)));
      Others();
    }

    method Settle(id: JobId, found: Database)
      requires Valid() && At(id, InstallRunning(found)) && locked
      modifies this
      ensures Valid() && old(worlds) <= worlds && old(actions) <= actions
      ensures journal == old(journal) && At(id, WriteVerifying) && locked
    {
      hide IsRun, Advance;
      InstallStep(View(), found, database);
      database, engine := found, Running(id, WriteVerifying);
      Took(Proceed(Ok));
      Others();
    }

    /** The driver's `restore`: the database file is replaced as a whole or not at all. */
    method Restore(id: JobId, smooth: bool) returns (fate: Fate)
      requires Valid() && At(id, StartRestore) && locked
      modifies this
      ensures Valid() && old(worlds) <= worlds && old(actions) <= actions
      ensures fate.Died? ==> |old(actions)| < |actions| && Dead()
      ensures journal == old(journal)
      ensures fate.Done? ==> At(id, WriteRollbackVerifying) && locked
      ensures fate.Raised? ==> At(id, WriteRecoveryRequired) && locked
      ensures smooth ==> fate.Done?
    {
      hide IsRun, Advance;
      var alive := Launch(id, smooth, StartRestore, RestoreStarted, Restoring(false));
      if !alive { return Died; }
      fate := PutBack(id, smooth);
    }

    method PutBack(id: JobId, smooth: bool) returns (fate: Fate)
      requires Valid() && At(id, Restoring(false)) && locked
      modifies this
      ensures Valid() && old(worlds) <= worlds && old(actions) <= actions
      ensures fate.Died? ==> |old(actions)| < |actions| && Dead()
      ensures journal == old(journal)
      ensures fate.Done? ==> At(id, WriteRollbackVerifying) && locked
      ensures fate.Raised? ==> At(id, WriteRecoveryRequired) && locked
      ensures smooth ==> fate.Done?
    {
      hide IsRun, Advance;
      SnapshotIsThere(id);
      var replaced: bool := *;
      if smooth { replaced := true; }
      if replaced { ReplaceDatabase(id); }
      RestoreStep(View(), replaced);
      fate := End(id, smooth, replaced, WriteRollbackVerifying, WriteRecoveryRequired);
    }

    /** Whoever restores has taken a snapshot before. */
    lemma SnapshotIsThere(id: JobId)
      requires Valid() && At(id, Restoring(false))
      ensures id in recovery
    {
      hide StepAt, Initial, Inv;
      EveryStateFits(worlds, actions, |worlds| - 1);
      UpdateProgress.RestoringHasSnapshot(View());
    }

    method ReplaceDatabase(id: JobId)
      requires Valid() && At(id, Restoring(false)) && locked && id in recovery
      modifies this
      ensures Valid() && old(worlds) <= worlds && old(actions) <= actions
      ensures journal == old(journal) && At(id, Restoring(true)) && locked
    {
      hide IsRun, Advance;
      RestoreStep(View(), false);
      database, engine := recovery[id], Running(id, Restoring(true));
      Took(Proceed(Effect(database)));
      Others();
    }

    method RequireRecovery(id: JobId, smooth: bool) returns (fate: Fate)
      requires Valid() && At(id, WriteRecoveryRequired)
      modifies this
      ensures Valid() && old(worlds) <= worlds && old(actions) <= actions
      ensures fate.Died? ==> |old(actions)| < |actions| && Dead()
      ensures !fate.Raised?
      ensures fate.Done? ==> engine.Idle? && id in journal && journal[id].phase == RecoveryRequired
      ensures fate.Done? ==> journal == old(journal)[id := old(journal)[id].(phase := RecoveryRequired)]
      ensures smooth ==> fate.Done?
    {
      hide IsRun;
      var alive := Persist(id, smooth, journal[id].(phase := RecoveryRequired), WriteRecoveryRequired, true);
      fate := if alive then Done else Died;
    }

    /** The end of a way back: the outcome if the old release was healthy, and else an administrator is asked for. */
    method Conclude(id: JobId, smooth: bool, checked: Fate, decision: Phase, terminal: Phase) returns (fate: Fate)
      requires Valid() && !checked.Died?
                && At(id, if checked.Done? then CommitDecision(decision) else WriteRecoveryRequired)
      requires terminal == OutcomeOf(decision) && Decided(decision)
      modifies this
      ensures Valid() && old(worlds) <= worlds && old(actions) <= actions
      ensures fate.Died? ==> |old(actions)| < |actions| && Dead()
      ensures !fate.Raised?
      ensures fate.Done? ==>
                engine.Idle? && id in journal && journal[id].phase == if checked.Done? then terminal
                else RecoveryRequired
      ensures fate.Done? ==> journal[id].rollbackResumes == old(journal)[id].rollbackResumes
      ensures smooth ==> fate.Done?
    {
      hide IsRun;
      if checked.Done? { fate := Finish(id, smooth, decision, terminal); } else { fate := RequireRecovery(id, smooth); }
    }

    /** `rollback` */
    method Rollback(id: JobId, smooth: bool) returns (fate: Fate)
      requires Valid() && At(id, BeginRollback) && locked
      modifies this
      ensures Valid() && old(worlds) <= worlds && old(actions) <= actions
      ensures fate.Died? ==> |old(actions)| < |actions| && Dead()
      ensures !fate.Raised?
      ensures fate.Done? ==>
                engine.Idle? && id in journal && (journal[id].phase.RolledBack? || journal[id].phase.RecoveryRequired?)
      ensures fate.Done? ==>
                var was := old(journal)[id];
                if was.rollbackResumes >= 8 || old(clock) > was.recoveryDeadline
                then journal[id].phase.RecoveryRequired? && journal[id].rollbackResumes == was.rollbackResumes
                else journal[id].rollbackResumes == was.rollbackResumes + 1 && (smooth ==> journal[id].phase.RolledBack?)
      ensures smooth ==> fate.Done?
    {
      hide IsRun;
      fate := Charge(id, smooth);
      if !fate.Done? { return if fate.Raised? then Done else Died; }
      fate := RestoreOld(id, smooth);
      if !fate.Died? { fate := Conclude(id, smooth, fate, Recovered, RolledBack); }
    }

    method RestoreOld(id: JobId, smooth: bool) returns (fate: Fate)
      requires Valid() && At(id, StartRestore) && locked
      modifies this
      ensures Valid() && old(worlds) <= worlds && old(actions) <= actions
      ensures fate.Died? ==> |old(actions)| < |actions| && Dead()
      ensures fate.Done? ==> At(id, CommitDecision(Recovered))
      ensures fate.Raised? ==> At(id, WriteRecoveryRequired)
      ensures !fate.Died? ==> journal[id].rollbackResumes == old(journal)[id].rollbackResumes
      ensures smooth ==> fate.Done?
    {
      hide IsRun;
      fate := Restore(id, smooth);
      if fate.Done? { fate := VerifyOld(id, smooth); }
    }

    method VerifyOld(id: JobId, smooth: bool) returns (fate: Fate)
      requires Valid() && At(id, WriteRollbackVerifying) && locked
      modifies this
      ensures Valid() && old(worlds) <= worlds && old(actions) <= actions
      ensures fate.Died? ==> |old(actions)| < |actions| && Dead()
      ensures fate.Done? ==> At(id, CommitDecision(Recovered))
      ensures fate.Raised? ==> At(id, WriteRecoveryRequired)
      ensures !fate.Died? ==> journal[id].rollbackResumes == old(journal)[id].rollbackResumes
      ensures smooth ==> fate.Done?
    {
      hide IsRun;
      var alive := Write(id, smooth, RollbackVerifying, WriteRollbackVerifying, CheckRestored);
      if !alive { return Died; }
      fate := Check(id, smooth, CheckRestored, Some(OldHealthy), CommitDecision(Recovered), WriteRecoveryRequired);
    }

    /** Charges one restoration to the budget, durably; `Raised` when the budget is used up and an administrator is asked for. */
    method Charge(id: JobId, smooth: bool) returns (fate: Fate)
      requires Valid() && At(id, BeginRollback) && locked
      modifies this
      ensures Valid() && old(worlds) <= worlds && old(actions) <= actions
      ensures fate.Died? ==> |old(actions)| < |actions| && Dead()
      ensures fate.Done? ==>
                At(id, StartRestore) && locked
                && journal[id].rollbackResumes == old(journal)[id].rollbackResumes + 1 <= MAX_ROLLBACKS
      ensures fate.Raised? ==> engine.Idle? && id in journal && journal[id].phase == RecoveryRequired
      ensures fate.Done? ==> old(journal)[id].rollbackResumes < 8 && old(clock) <= old(journal)[id].recoveryDeadline
      ensures fate.Raised? ==> old(journal)[id].rollbackResumes >= 8 || old(clock) > old(journal)[id].recoveryDeadline
      ensures fate.Raised? ==> journal[id].rollbackResumes == old(journal)[id].rollbackResumes
      ensures smooth ==> !fate.Died?
    {
      hide IsRun, Advance;
      var job := journal[id];
      RollbackStep(View());
      if BudgetExhausted(job, clock) {
        var alive := Persist(id, smooth, job.(phase := RecoveryRequired), WriteRecoveryRequired, true);
        return if alive then Raised else Died;
      }
      var alive := Persist(id, smooth, job.(phase := RollingBack, rollbackResumes := job.rollbackResumes + 1),
          StartRestore, false);
      fate := if alive then Done else Died;
    }

    /** `abort` */
    method Abort(id: JobId, smooth: bool) returns (fate: Fate)
      requires Valid() && At(id, BeginAbort) && locked
      modifies this
      ensures Valid() && old(worlds) <= worlds && old(actions) <= actions
      ensures fate.Died? ==> |old(actions)| < |actions| && Dead()
      ensures !fate.Raised?
      ensures fate.Done? ==>
                engine.Idle? && id in journal && (journal[id].phase.Failed? || journal[id].phase.RecoveryRequired?)
      ensures smooth ==> fate.Done? && journal[id].phase.Failed?
    {
      hide IsRun;
      var alive := Write(id, smooth, Aborting, BeginAbort, AbortRunning);
      if !alive { return Died; }
      fate := CheckOld(id, smooth);
      if !fate.Died? { fate := Conclude(id, smooth, fate, Aborted, Failed); }
    }

    method CheckOld(id: JobId, smooth: bool) returns (fate: Fate)
      requires Valid() && At(id, AbortRunning) && locked
      modifies this
      ensures Valid() && old(worlds) <= worlds && old(actions) <= actions
      ensures fate.Died? ==> |old(actions)| < |actions| && Dead()
      ensures fate.Done? ==> At(id, CommitDecision(Aborted))
      ensures fate.Raised? ==> At(id, WriteRecoveryRequired)
      ensures smooth ==> fate.Done?
    {
      hide IsRun;
      fate := Check(id, smooth, AbortRunning, None, CheckAborted, WriteRecoveryRequired);
      if fate.Done? {
        fate := Check(id, smooth, CheckAborted, Some(OldHealthy), CommitDecision(Aborted), WriteRecoveryRequired);
      }
    }

    /** `Fence.hold`: the exclusive lock, which is refused while any process is inside the gate, then the marker. */
    method Hold(id: JobId, smooth: bool) returns (fate: Fate)
      requires Valid() && At(id, AcquireLock)
      modifies this
      ensures Valid() && old(worlds) <= worlds && old(actions) <= actions
      ensures fate.Died? ==> |old(actions)| < |actions| && Dead()
      ensures journal == old(journal)
      ensures fate.Done? ==> At(id, EntryPoint(journal[id].phase)) && locked
      ensures fate.Raised? ==> engine.Idle? && Contended(id)
      ensures smooth ==> !fate.Died?
    {
      hide IsRun, Decide, Forward, Change, GoBack, Return, GiveUp;
      Others();
      if gate != map[] {
        engine := Idle;
        Took(Proceed(Raise));
        return Raised;
      }
      engine, locked := Running(id, TakeMarker), true;
      Took(Proceed(Ok));
      Others();
      fate := Mark(id, smooth);
    }

    method Mark(id: JobId, smooth: bool) returns (fate: Fate)
      requires Valid() && At(id, TakeMarker) && locked
      modifies this
      ensures Valid() && old(worlds) <= worlds && old(actions) <= actions
      ensures fate.Died? ==> |old(actions)| < |actions| && Dead()
      ensures journal == old(journal)
      ensures fate.Done? ==> At(id, EntryPoint(journal[id].phase)) && locked && (marker == Some(id))
      ensures fate.Raised? ==> engine.Idle? && Contended(id)
      ensures smooth ==> !fate.Died?
    {
      hide IsRun, Decide, Forward, Change, GoBack, Return, GiveUp;
      if marker.Some? && marker.value != id {
        engine, locked := Idle, false;
        Took(Proceed(Raise));
        return Raised;
      }
      var alive: bool := *;
      if !smooth && !alive {
        engine, locked := Idle, false;
        Took(Die);
        return Died;
      }
      marker, engine := Some(id), Running(id, EntryPoint(journal[id].phase));
      Took(Proceed(Ok));
      Others();
      fate := Done;
    }

    /** The branch of `resume` for a decision whose admission is still closed. */
    method Confirm(id: JobId, smooth: bool, phase: Phase) returns (fate: Fate)
      requires Valid() && At(id, CheckDecided) && locked && journal[id].phase == phase && Decided(phase)
      modifies this
      ensures Valid() && old(worlds) <= worlds && old(actions) <= actions
      ensures fate.Died? ==> |old(actions)| < |actions| && Dead()
      ensures !fate.Raised?
      ensures fate.Done? ==> engine.Idle? && id in journal && MayEndAs(phase, journal[id].phase)
      ensures smooth ==> fate.Done? && journal[id].phase == OutcomeOf(phase)
    {
      hide IsRun;
      fate := Call(id, smooth, Some(if phase.Committed? then NewHealthy else OldHealthy), CommitDecision(phase),
          WriteRecoveryRequired);
      match fate
      case Done => fate := Finish(id, smooth, phase, OutcomeOf(phase));
      case Raised => fate := RequireRecovery(id, smooth);
      case Died =>
    }

    /** A queued job up to the durable phase PREPARING; `Raised` when it has been refused and recorded as FAILED. */
    method Admit(id: JobId, smooth: bool) returns (fate: Fate)
      requires Valid() && At(id, CheckDeadline) && locked
      modifies this
      ensures Valid() && old(worlds) <= worlds && old(actions) <= actions
      ensures fate.Died? ==> |old(actions)| < |actions| && Dead()
      ensures fate.Done? ==> At(id, StartPrepare) && locked
      ensures fate.Raised? ==> engine.Idle? && id in journal && journal[id].phase == Failed
      ensures old(clock) > old(journal)[id].recoveryDeadline ==> !fate.Done?
      ensures smooth ==> if old(clock) > old(journal)[id].recoveryDeadline then fate.Raised? else fate.Done?
    {
      hide IsRun;
      var late := MeetDeadline(id);
      fate := Raised;
      if !late { fate := Check(id, smooth, CheckIdle, None, WritePreparing, CommitDecision(Aborted)); }
      match fate
      case Raised =>
        fate := Finish(id, smooth, Aborted, Failed);
        return if fate.Done? then Raised else Died;
      case Died =>
      case Done =>
        var alive := Write(id, smooth, Preparing, WritePreparing, StartPrepare);
        return if alive then Done else Died;
    }

    method MeetDeadline(id: JobId) returns (late: bool)
      requires Valid() && At(id, CheckDeadline) && locked
      modifies this
      ensures Valid() && old(worlds) <= worlds && old(actions) <= actions
      ensures late == (old(clock) > old(journal)[id].recoveryDeadline) && locked
      ensures At(id, if late then CommitDecision(Aborted) else CheckIdle)
    {
      hide IsRun, Enter, Decide, Change, GoBack, Return, GiveUp;
      late := clock > journal[id].recoveryDeadline;
      engine := Running(id, if late then CommitDecision(Aborted) else CheckIdle);
      Took(Proceed(Ok));
      if !late { Others(); }
    }

    /** From the durable phase INSTALLING to the outcome. */
    method Replace(id: JobId, smooth: bool) returns (fate: Fate)
      requires Valid() && At(id, StartInstall) && locked
      modifies this
      ensures Valid() && old(worlds) <= worlds && old(actions) <= actions
      ensures fate.Died? ==> |old(actions)| < |actions| && Dead()
      ensures !fate.Raised?
      ensures fate.Done? ==> engine.Idle? && id in journal && !journal[id].phase.Failed? && Terminal(journal[id].phase)
      ensures smooth ==> fate.Done? && journal[id].phase.Succeeded?
    {
      hide IsRun;
      fate := InstallNew(id, smooth);
      if fate.Done? { fate := Finish(id, smooth, Committed, Succeeded); return; }
      if fate.Died? { return; }
      var alive := Write(id, smooth, RollingBack, WriteInstallFailed, BeginRollback);
      if !alive { return Died; }
      fate := Rollback(id, smooth);
    }

    method InstallNew(id: JobId, smooth: bool) returns (fate: Fate)
      requires Valid() && At(id, StartInstall) && locked
      modifies this
      ensures Valid() && old(worlds) <= worlds && old(actions) <= actions
      ensures fate.Died? ==> |old(actions)| < |actions| && Dead()
      ensures fate.Done? ==> At(id, CommitDecision(Committed)) && locked
      ensures fate.Raised? ==> At(id, WriteInstallFailed) && locked
      ensures smooth ==> fate.Done?
    {
      hide IsRun;
      fate := Install(id, smooth);
      if fate.Done? { fate := VerifyNew(id, smooth); }
    }

    method VerifyNew(id: JobId, smooth: bool) returns (fate: Fate)
      requires Valid() && At(id, WriteVerifying) && locked
      modifies this
      ensures Valid() && old(worlds) <= worlds && old(actions) <= actions
      ensures fate.Died? ==> |old(actions)| < |actions| && Dead()
      ensures fate.Done? ==> At(id, CommitDecision(Committed)) && locked
      ensures fate.Raised? ==> At(id, WriteInstallFailed) && locked
      ensures smooth ==> fate.Done?
    {
      hide IsRun;
      var alive := Write(id, smooth, Verifying, WriteVerifying, CheckNew);
      if !alive { return Died; }
      fate := Check(id, smooth, CheckNew, Some(NewHealthy), CommitDecision(Committed), WriteInstallFailed);
    }

    /** The branch of `resume` that installs a queued release. */
    method Update(id: JobId, smooth: bool) returns (fate: Fate)
      requires Valid() && At(id, CheckDeadline) && locked
      modifies this
      ensures Valid() && old(worlds) <= worlds && old(actions) <= actions
      ensures fate.Died? ==> |old(actions)| < |actions| && Dead()
      ensures !fate.Raised?
      ensures fate.Done? ==> engine.Idle? && id in journal && Terminal(journal[id].phase)
      ensures smooth ==>
                fate.Done? && journal[id].phase == if old(clock) > old(journal)[id].recoveryDeadline then Failed
                else Succeeded
    {
      hide IsRun;
      fate := Admit(id, smooth);
      if !fate.Done? { return if fate.Raised? then Done else Died; }
      fate := Prepare(id, smooth);
      if fate.Died? { return; }
      if fate.Raised? {
        var alive := Write(id, smooth, Aborting, WritePreparationFailed, BeginAbort);
        if !alive { return Died; }
        fate := Abort(id, smooth);
        return;
      }
      var alive := Write(id, smooth, Installing, WriteInstalling, StartInstall);
      if !alive { return Died; }
      fate := Replace(id, smooth);
    }

    /** The branch of `resume` for a decision whose admission is open again: only the outcome is left to write. */
    method RecordKnown(id: JobId, smooth: bool, phase: Phase) returns (fate: Fate)
      requires Valid() && engine.Idle? && id in journal && id in history && journal[id].phase == phase
                && Decided(phase) && marker != Some(id)
      modifies this
      ensures Valid() && old(worlds) <= worlds && old(actions) <= actions
      ensures fate.Died? ==> |old(actions)| < |actions| && Dead()
      ensures !fate.Raised?
      ensures fate.Done? ==> engine.Idle? && id in journal && journal[id].phase == OutcomeOf(phase)
      ensures smooth ==> fate.Done?
    {
      hide IsRun, Decide, Forward, Change, GoBack, Return, GiveUp;
      engine := Running(id, RecordOutcome(phase));
      Took(Begin(id));
      var alive := Persist(id, smooth, journal[id].(phase := OutcomeOf(phase)), RecordOutcome(phase), true);
      fate := if alive then Done else Died;
    }

    /** What `resume` does once it holds the fence. */
    method GoOn(id: JobId, smooth: bool, phase: Phase) returns (fate: Fate)
      requires Valid() && At(id, EntryPoint(phase)) && locked && journal[id].phase == phase && !Terminal(phase)
      modifies this
      ensures Valid() && old(worlds) <= worlds && old(actions) <= actions
      ensures fate.Died? ==> |old(actions)| < |actions| && Dead()
      ensures !fate.Raised?
      ensures fate.Done? ==> engine.Idle? && id in journal && MayEndAs(phase, journal[id].phase)
      ensures smooth ==> fate.Done? && ReachedBy(old(journal)[id], old(clock), journal[id].phase)
    {
      hide IsRun, Advance;
      if Decided(phase) {
        fate := Confirm(id, smooth, phase);
      } else if Uncertain(phase) {
        fate := Rollback(id, smooth);
      } else if phase.Preparing? || phase.Aborting? {
        fate := Abort(id, smooth);
      } else {
        fate := Update(id, smooth);
      }
    }

    /**
    `resume`: it ends in a terminal phase, the one its beginning leads to, unless the coordinator
    dies meanwhile or the fence it needs is held against it; refused, it has written nothing. It
    goes `smooth` when the process lives on and all calls of the driver succeed; `held` is the time
    at which it holds the fence.
    */
    method Resume(id: JobId, smooth: bool) returns (end: Resumption, ghost held: int)
      requires Valid() && engine.Idle? && id in journal
      modifies this
      ensures Valid() && old(worlds) <= worlds && old(actions) <= actions
      ensures end.Finished? ==> engine.Idle? && id in journal && MayEndAs(old(journal)[id].phase, journal[id].phase)
      ensures end.Refused? ==>
                engine.Idle? && journal == old(journal) && Contended(id)
                && NeedsFence(old(journal)[id].phase, old(marker), id)
      ensures end.Interrupted? ==> |old(actions)| < |actions| && Dead()
      ensures smooth ==> !end.Interrupted? && (end.Finished? ==> ReachedBy(old(journal)[id], held, journal[id].phase))
      ensures end.Finished? ==> exists i | |old(worlds)| <= i + 1 && i < |worlds| :: worlds[i].clock == held
    {
      assert id in history by { EveryStateFits(worlds, actions, |worlds| - 1); }
      hide IsRun;
      var phase := journal[id].phase;
      held := clock;
      LatestIsNow();
      if Terminal(phase) { return Finished, held; }
      var fate: Fate;
      if Decided(phase) && marker != Some(id) {
        fate := RecordKnown(id, smooth, phase);
        end := if fate.Done? then Finished else Interrupted;
        return;
      }
      hide Advance;
      engine := Running(id, AcquireLock);
      Took(Begin(id));
      end, held := HoldAndGoOn(id, smooth, phase);
    }

    method HoldAndGoOn(id: JobId, smooth: bool, phase: Phase) returns (end: Resumption, ghost held: int)
      requires Valid() && At(id, AcquireLock) && journal[id].phase == phase && !Terminal(phase)
      modifies this
      ensures Valid() && old(worlds) <= worlds && old(actions) <= actions
      ensures end.Finished? ==> engine.Idle? && id in journal && MayEndAs(phase, journal[id].phase)
      ensures end.Refused? ==> engine.Idle? && journal == old(journal) && Contended(id)
      ensures end.Interrupted? ==> |old(actions)| < |actions| && Dead()
      ensures smooth ==> !end.Interrupted? && (end.Finished? ==> ReachedBy(old(journal)[id], held, journal[id].phase))
      ensures end.Finished? ==> exists i | |old(worlds)| <= i + 1 && i < |worlds| :: worlds[i].clock == held
    {
      hide IsRun, Advance, MayEndAs, ReachedBy;
      var fate := Hold(id, smooth);
      held := clock;
      LatestIsNow();
      if !fate.Done? { return if fate.Raised? then Refused else Interrupted, held; }
      fate := GoOn(id, smooth, phase);
      end := if fate.Done? then Finished else Interrupted;
    }

    lemma LatestIsNow()
      requires Valid()
      ensures |worlds| > 0 && worlds[|worlds| - 1].clock == clock
    {
      hide StepAt, Initial;
    }
  }
}
