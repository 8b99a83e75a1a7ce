/**
Safety of the host update transaction over every run: the inductive invariant, and the
theorems it yields about admission, the snapshot and the life of a job.
*/
module UpdateSafety {
  import opened Options
  import opened UpdateTransaction

  // ---------------------------------------------------------------- the invariant

  predicate NeverInstalled(h: History) {
    h.installs == 0 && h.restores == 0
  }

  /** What the history must hold before a decision may be written. */
  predicate Supports(h: History, decision: Phase) {
    match decision
    case Committed => h.newHealthySinceInstall && h.installs == 1 && h.restores == 0
    case Recovered => h.oldHealthySinceRestore && h.restores > 0
    case _ => NeverInstalled(h)
  }

  /** The durable phase tells which driver operations can have been started. */
  predicate PhaseFits(job: Job, h: History) {
    && job.rollbackResumes <= MAX_ROLLBACKS
    && h.prepares <= 1
    && h.installs <= 1
    && h.restores <= job.rollbackResumes
    && match job.phase
       case Queued => NeverInstalled(h) && h.prepares == 0
       case Preparing => NeverInstalled(h)
       case Aborting => NeverInstalled(h)
       case Installing => h.restores == 0
       case Verifying => h.restores == 0 && h.installs == 1
       case RollbackVerifying => h.restores > 0
       case Committed => Supports(h, Committed)
       case Succeeded => Supports(h, Committed)
       case Recovered => Supports(h, Recovered) && job.credentialsRevoked
       case RolledBack => Supports(h, Recovered) && job.credentialsRevoked
       case Aborted => Supports(h, Aborted)
       case Failed => Supports(h, Aborted)
       case _ => true
  }

  // What holds of the running job at each place of the coordinator, beyond `PhaseFits`.

  predicate EnteringFits(w: World)
    requires InJournal(w) && Entering(w.engine.at)
  {
    var job := w.journal[w.engine.job];
    match w.engine.at
    case RecordOutcome(d) => job.phase == d && Decided(d) && w.marker != Some(w.engine.job)
    case _ => true
  }

  predicate DecidingFits(w: World)
    requires InJournal(w) && Deciding(w.engine.at)
  {
    var job := w.journal[w.engine.job];
    match w.engine.at
    case CheckDecided => w.marker == Some(w.engine.job) && Decided(job.phase)
    case CommitDecision(d) =>
      w.marker == Some(w.engine.job) && Decided(d) && Supports(w.history[w.engine.job], d) && !MayBeDamaged(job.phase)
    case OpenAdmission(d) => w.marker == Some(w.engine.job) && job.phase == d && Decided(d)
    case RecordTerminal(d) => w.marker.None? && job.phase == d && Decided(d)
  }

  predicate ForwardFits(w: World)
    requires InJournal(w) && GoingForward(w.engine.at)
  {
    var id := w.engine.job;
    var phase := w.journal[id].phase;
    && w.marker == Some(id)
    && match w.engine.at
       case StartPrepare => phase.Preparing? && w.history[id].prepares == 0 && id !in w.snapshots
       case PrepareRunning => phase.Preparing?
       case WritePreparationFailed => phase.Preparing?
       case WriteInstalling => phase.Preparing? && id in w.snapshots
       case _ => phase.Queued?
  }

  predicate ChangingFits(w: World)
    requires InJournal(w) && Changing(w.engine.at)
  {
    var id := w.engine.job;
    var phase := w.journal[id].phase;
    && w.marker == Some(id)
    && match w.engine.at
       case StartInstall => phase.Installing? && w.history[id].installs == 0 && w.rows == w.admitted
       case InstallRunning(found) => phase.Installing? && w.history[id].installs == 1 && found == w.admitted
       case WriteVerifying => phase.Installing? && w.history[id].installs == 1 && w.rows == w.admitted
       case CheckNew => phase.Verifying?
       case WriteInstallFailed => phase.Installing? || phase.Verifying?
  }

  predicate GoingBackFits(w: World)
    requires InJournal(w) && GoingBack(w.engine.at)
  {
    var id := w.engine.job;
    var job := w.journal[id];
    && w.marker == Some(id)
    && match w.engine.at
       case BeginRollback => Uncertain(job.phase)
       case StartRestore => job.phase.RollingBack? && w.history[id].restores < job.rollbackResumes
  }

  predicate ReturningFits(w: World)
    requires InJournal(w) && Returning(w.engine.at)
  {
    var id := w.engine.job;
    var phase := w.journal[id].phase;
    && w.marker == Some(id)
    && match w.engine.at
       case Restoring(replaced) => phase.RollingBack? && w.history[id].restores > 0
           && (replaced ==> w.rows == w.admitted)
       case WriteRollbackVerifying => phase.RollingBack? && w.history[id].restores > 0 && w.rows == w.admitted
       case CheckRestored => phase.RollbackVerifying?
  }

  predicate GivingUpFits(w: World)
    requires InJournal(w) && GivingUp(w.engine.at)
  {
    var phase := w.journal[w.engine.job].phase;
    && w.marker == Some(w.engine.job)
    && match w.engine.at
       case BeginAbort => phase.Preparing? || phase.Aborting?
       case WriteRecoveryRequired => true
       case _ => phase.Aborting?
  }

  predicate PointFits(w: World)
    requires InJournal(w)
  {
    var p := w.engine.at;
    !Terminal(w.journal[w.engine.job].phase) &&
    if Entering(p) then EnteringFits(w)
    else if Deciding(p) then DecidingFits(w)
    else if GoingForward(p) then ForwardFits(w)
    else if Changing(p) then ChangingFits(w)
    else if GoingBack(p) then GoingBackFits(w)
    else if Returning(p) then ReturningFits(w)
    else GivingUpFits(w)
  }

  /** An unsafe job owns the marker, and its snapshot holds exactly what has been admitted. */
  predicate JobFits(w: World, id: JobId)
    requires id in w.journal && id in w.history
  {
    var job := w.journal[id];
    && PhaseFits(job, w.history[id])
    && (Unsafe(job.phase) ==> w.marker == Some(id))
    && (job.phase.Queued? ==> id !in w.snapshots)
    && (Uncertain(job.phase) ==> id in w.snapshots)
    && ((job.phase.Preparing? || Uncertain(job.phase)) && id in w.snapshots ==> w.snapshots[id] == w.admitted)
  }

  /** Only an unfinished installation or restoration may leave the database damaged. */
  predicate DatabaseFits(w: World) {
    w.rows != w.admitted ==>
      w.marker.Some? && w.marker.value in w.journal && MayBeDamaged(w.journal[w.marker.value].phase)
  }

  predicate GateFits(w: World) {
    && (w.marker.Some? ==> forall pid | pid in w.gate :: w.gate[pid] == Knocking)
    && (HoldsLock(w.engine) ==> w.gate == map[])
  }

  ghost predicate Inv(w: World) {
    && w.history.Keys == w.journal.Keys
    && (forall id | id in w.journal :: JobFits(w, id))
    && DatabaseFits(w)
    && GateFits(w)
    && (w.engine.Running? ==> w.engine.job in w.journal && PointFits(w))
  }

  // ---------------------------------------------------------------- preservation

  /** Everything the invariant says, except about the jobs other than `id`. */
  predicate FitsLocally(w: World, id: JobId) {
    && id in w.journal && id in w.history && JobFits(w, id)
    && PlaceFits(w, id)
  }

  predicate PlaceFits(w: World, id: JobId)
    requires id in w.journal && id in w.history
  {
    && DatabaseFits(w)
    && GateFits(w)
    && (w.engine.Running? ==> w.engine.job == id && PointFits(w))
  }

  /** A step may touch the running job, the marker and the rows, and nothing of another job. */
  predicate TouchesOnly(w: World, w': World, id: JobId) {
    && id in w.journal && id in w'.journal && w'.journal == w.journal[id := w'.journal[id]]
    && id in w.history && id in w'.history && w'.history == w.history[id := w'.history[id]]
    && (w'.snapshots == w.snapshots || (id in w'.snapshots && w'.snapshots == w.snapshots[id := w'.snapshots[id]]))
    && w'.admitted == w.admitted
    && (w'.marker == w.marker || w.marker == Some(id) || w.marker.None?)
  }

  lemma OthersStillFit(w: World, w': World, id: JobId)
    requires Inv(w) && TouchesOnly(w, w', id) && FitsLocally(w', id)
    ensures Inv(w')
  {
    forall other | other in w'.journal ensures JobFits(w', other) {
      if other != id { assert JobFits(w, other); }
    }
  }

  lemma EnterKeepsJob(w: World, o: Outcome)
    requires w.engine.Running? && FitsLocally(w, w.engine.job) && Entering(w.engine.at)
    ensures TouchesOnly(w, Enter(w, o), w.engine.job) && JobFits(Enter(w, o), w.engine.job)
  {
  }

  lemma EnterKeepsPlace(w: World, o: Outcome)
    requires w.engine.Running? && FitsLocally(w, w.engine.job) && Entering(w.engine.at)
    ensures w.engine.job in Enter(w, o).journal && w.engine.job in Enter(w, o).history
              && PlaceFits(Enter(w, o), w.engine.job)
  {
    hide ChangingFits, ReturningFits;
  }

  lemma DecideKeepsJob(w: World, o: Outcome)
    requires w.engine.Running? && FitsLocally(w, w.engine.job) && Deciding(w.engine.at)
    ensures TouchesOnly(w, Decide(w, o), w.engine.job) && JobFits(Decide(w, o), w.engine.job)
  {
  }

  lemma DecideKeepsPlace(w: World, o: Outcome)
    requires w.engine.Running? && FitsLocally(w, w.engine.job) && Deciding(w.engine.at)
    ensures w.engine.job in Decide(w, o).journal && w.engine.job in Decide(w, o).history
              && PlaceFits(Decide(w, o), w.engine.job)
  {
    hide EnteringFits, ForwardFits, ChangingFits, GoingBackFits, ReturningFits;
  }

  lemma ForwardKeepsJob(w: World, o: Outcome)
    requires w.engine.Running? && FitsLocally(w, w.engine.job) && GoingForward(w.engine.at)
    ensures TouchesOnly(w, Forward(w, o), w.engine.job) && JobFits(Forward(w, o), w.engine.job)
  {
  }

  lemma ForwardKeepsPointEarly(w: World, o: Outcome)
    requires w.engine.Running? && FitsLocally(w, w.engine.job) && GoingForward(w.engine.at)
    requires w.engine.at.CheckDeadline? || w.engine.at.CheckIdle? || w.engine.at.WritePreparing?
              || w.engine.at.StartPrepare?
    ensures Forward(w, o).engine.Running? ==>
              Forward(w, o).engine.job == w.engine.job && InJournal(Forward(w, o)) && PointFits(Forward(w, o))
  {
    hide EnteringFits, ChangingFits, GoingBackFits, ReturningFits, GivingUpFits, DatabaseFits, GateFits;
  }

  lemma ForwardKeepsPointLate(w: World, o: Outcome)
    requires w.engine.Running? && FitsLocally(w, w.engine.job) && GoingForward(w.engine.at)
    requires !(w.engine.at.CheckDeadline? || w.engine.at.CheckIdle? || w.engine.at.WritePreparing?
              || w.engine.at.StartPrepare?)
    ensures Forward(w, o).engine.Running? ==>
              Forward(w, o).engine.job == w.engine.job && InJournal(Forward(w, o)) && PointFits(Forward(w, o))
  {
    hide EnteringFits, DecidingFits, GoingBackFits, ReturningFits, GateFits;
  }

  lemma ForwardKeepsPoint(w: World, o: Outcome)
    requires w.engine.Running? && FitsLocally(w, w.engine.job) && GoingForward(w.engine.at)
    ensures Forward(w, o).engine.Running? ==>
              Forward(w, o).engine.job == w.engine.job && InJournal(Forward(w, o)) && PointFits(Forward(w, o))
  {
    hide FitsLocally, Forward, PointFits;
    if w.engine.at.CheckDeadline? || w.engine.at.CheckIdle? || w.engine.at.WritePreparing?
        || w.engine.at.StartPrepare? {
      ForwardKeepsPointEarly(w, o);
    } else {
      ForwardKeepsPointLate(w, o);
    }
  }

  lemma ForwardKeepsRows(w: World, o: Outcome)
    requires w.engine.Running? && FitsLocally(w, w.engine.job) && GoingForward(w.engine.at)
    ensures w.engine.job in Forward(w, o).journal && w.engine.job in Forward(w, o).history
    ensures DatabaseFits(Forward(w, o)) && GateFits(Forward(w, o))
  {
    hide EnteringFits, DecidingFits, ChangingFits, GoingBackFits, ReturningFits, GivingUpFits, PhaseFits;
  }

  lemma ForwardKeepsPlace(w: World, o: Outcome)
    requires w.engine.Running? && FitsLocally(w, w.engine.job) && GoingForward(w.engine.at)
    ensures w.engine.job in Forward(w, o).journal && w.engine.job in Forward(w, o).history
              && PlaceFits(Forward(w, o), w.engine.job)
  {
    hide FitsLocally, Forward, PointFits, DatabaseFits, GateFits;
    ForwardKeepsPoint(w, o);
    ForwardKeepsRows(w, o);
  }

  lemma ChangeKeepsJob(w: World, o: Outcome)
    requires w.engine.Running? && FitsLocally(w, w.engine.job) && Changing(w.engine.at)
    ensures TouchesOnly(w, Change(w, o), w.engine.job) && JobFits(Change(w, o), w.engine.job)
  {
  }

  lemma ChangeKeepsPointEarly(w: World, o: Outcome)
    requires w.engine.Running? && FitsLocally(w, w.engine.job) && Changing(w.engine.at)
    requires w.engine.at.StartInstall? || w.engine.at.InstallRunning? || w.engine.at.WriteInstallFailed?
    ensures Change(w, o).engine.Running? ==>
              Change(w, o).engine.job == w.engine.job && InJournal(Change(w, o)) && PointFits(Change(w, o))
  {
    hide JobFits, EnteringFits, DecidingFits, ForwardFits, ReturningFits, GivingUpFits, DatabaseFits, GateFits,
        PhaseFits;
  }

  lemma ChangeKeepsPointLate(w: World, o: Outcome)
    requires w.engine.Running? && FitsLocally(w, w.engine.job) && Changing(w.engine.at)
    requires !(w.engine.at.StartInstall? || w.engine.at.InstallRunning? || w.engine.at.WriteInstallFailed?)
    ensures Change(w, o).engine.Running? ==>
              Change(w, o).engine.job == w.engine.job && InJournal(Change(w, o)) && PointFits(Change(w, o))
  {
    hide EnteringFits, ForwardFits, GoingBackFits, ReturningFits, GivingUpFits, DatabaseFits, GateFits;
  }

  lemma ChangeKeepsPoint(w: World, o: Outcome)
    requires w.engine.Running? && FitsLocally(w, w.engine.job) && Changing(w.engine.at)
    ensures Change(w, o).engine.Running? ==>
              Change(w, o).engine.job == w.engine.job && InJournal(Change(w, o)) && PointFits(Change(w, o))
  {
    hide FitsLocally, Change, PointFits;
    if w.engine.at.StartInstall? || w.engine.at.InstallRunning? || w.engine.at.WriteInstallFailed? {
      ChangeKeepsPointEarly(w, o);
    } else {
      ChangeKeepsPointLate(w, o);
    }
  }

  lemma ChangeKeepsRows(w: World, o: Outcome)
    requires w.engine.Running? && FitsLocally(w, w.engine.job) && Changing(w.engine.at)
    ensures w.engine.job in Change(w, o).journal && w.engine.job in Change(w, o).history
    ensures DatabaseFits(Change(w, o)) && GateFits(Change(w, o))
  {
    hide EnteringFits, DecidingFits, ForwardFits, GoingBackFits, ReturningFits, GivingUpFits, PhaseFits;
  }

  lemma ChangeKeepsPlace(w: World, o: Outcome)
    requires w.engine.Running? && FitsLocally(w, w.engine.job) && Changing(w.engine.at)
    ensures w.engine.job in Change(w, o).journal && w.engine.job in Change(w, o).history
              && PlaceFits(Change(w, o), w.engine.job)
  {
    hide FitsLocally, Change, PointFits, DatabaseFits, GateFits;
    ChangeKeepsPoint(w, o);
    ChangeKeepsRows(w, o);
  }

  lemma GoBackKeepsJob(w: World, o: Outcome)
    requires w.engine.Running? && FitsLocally(w, w.engine.job) && GoingBack(w.engine.at)
    ensures TouchesOnly(w, GoBack(w, o), w.engine.job) && JobFits(GoBack(w, o), w.engine.job)
  {
    hide EnteringFits, DecidingFits, ForwardFits, ChangingFits, ReturningFits, GivingUpFits, DatabaseFits, GateFits;
  }

  lemma ReturnKeepsJob(w: World, o: Outcome)
    requires w.engine.Running? && FitsLocally(w, w.engine.job) && Returning(w.engine.at)
    ensures TouchesOnly(w, Return(w, o), w.engine.job) && JobFits(Return(w, o), w.engine.job)
  {
  }

  lemma ChargeKeepsPlace(w: World, o: Outcome)
    requires w.engine.Running? && FitsLocally(w, w.engine.job) && w.engine.at.BeginRollback?
    ensures w.engine.job in GoBack(w, o).journal && w.engine.job in GoBack(w, o).history
    ensures PlaceFits(GoBack(w, o), w.engine.job)
  {
    hide EnteringFits, DecidingFits, ForwardFits, ChangingFits, ReturningFits, GivingUpFits;
  }

  lemma RestoreKeepsPlace(w: World, o: Outcome)
    requires w.engine.Running? && FitsLocally(w, w.engine.job) && w.engine.at.StartRestore?
    ensures w.engine.job in GoBack(w, o).journal && w.engine.job in GoBack(w, o).history
    ensures PlaceFits(GoBack(w, o), w.engine.job)
  {
    hide EnteringFits, DecidingFits, ForwardFits, ChangingFits, GivingUpFits, PhaseFits, BudgetExhausted;
  }

  lemma GoBackKeepsPlace(w: World, o: Outcome)
    requires w.engine.Running? && FitsLocally(w, w.engine.job) && GoingBack(w.engine.at)
    ensures w.engine.job in GoBack(w, o).journal && w.engine.job in GoBack(w, o).history
    ensures PlaceFits(GoBack(w, o), w.engine.job)
  {
    hide FitsLocally, GoBack, PlaceFits;
    if w.engine.at.BeginRollback? { ChargeKeepsPlace(w, o); } else { RestoreKeepsPlace(w, o); }
  }

  lemma ReturnKeepsPointEarly(w: World, o: Outcome)
    requires w.engine.Running? && FitsLocally(w, w.engine.job) && Returning(w.engine.at)
    requires w.engine.at.Restoring?
    ensures Return(w, o).engine.Running? ==>
              Return(w, o).engine.job == w.engine.job && InJournal(Return(w, o)) && PointFits(Return(w, o))
  {
    hide EnteringFits, DecidingFits, ForwardFits, ChangingFits, GoingBackFits, GateFits, PhaseFits, DatabaseFits;
  }

  lemma ReturnKeepsPointWritten(w: World, o: Outcome)
    requires w.engine.Running? && FitsLocally(w, w.engine.job) && w.engine.at.WriteRollbackVerifying?
    ensures Return(w, o).engine.Running? ==>
              Return(w, o).engine.job == w.engine.job && InJournal(Return(w, o)) && PointFits(Return(w, o))
  {
    hide JobFits, EnteringFits, DecidingFits, ForwardFits, ChangingFits, GoingBackFits, GivingUpFits, DatabaseFits,
        GateFits;
  }

  lemma ReturnKeepsPointLate(w: World, o: Outcome)
    requires w.engine.Running? && FitsLocally(w, w.engine.job) && w.engine.at.CheckRestored?
    ensures Return(w, o).engine.Running? ==>
              Return(w, o).engine.job == w.engine.job && InJournal(Return(w, o)) && PointFits(Return(w, o))
  {
    hide EnteringFits, ForwardFits, ChangingFits, GoingBackFits, DatabaseFits, GateFits;
  }

  lemma ReturnKeepsPoint(w: World, o: Outcome)
    requires w.engine.Running? && FitsLocally(w, w.engine.job) && Returning(w.engine.at)
    ensures Return(w, o).engine.Running? ==>
              Return(w, o).engine.job == w.engine.job && InJournal(Return(w, o)) && PointFits(Return(w, o))
  {
    hide FitsLocally, Return, PointFits;
    if w.engine.at.Restoring? {
      ReturnKeepsPointEarly(w, o);
    } else if w.engine.at.WriteRollbackVerifying? {
      ReturnKeepsPointWritten(w, o);
    } else {
      ReturnKeepsPointLate(w, o);
    }
  }

  lemma ReturnKeepsRows(w: World, o: Outcome)
    requires w.engine.Running? && FitsLocally(w, w.engine.job) && Returning(w.engine.at)
    ensures w.engine.job in Return(w, o).journal && w.engine.job in Return(w, o).history
    ensures DatabaseFits(Return(w, o)) && GateFits(Return(w, o))
  {
    hide EnteringFits, DecidingFits, ForwardFits, ChangingFits, GoingBackFits, GivingUpFits, PhaseFits;
  }

  lemma ReturnKeepsPlace(w: World, o: Outcome)
    requires w.engine.Running? && FitsLocally(w, w.engine.job) && Returning(w.engine.at)
    ensures w.engine.job in Return(w, o).journal && w.engine.job in Return(w, o).history
              && PlaceFits(Return(w, o), w.engine.job)
  {
    hide FitsLocally, Return, PointFits, DatabaseFits, GateFits;
    ReturnKeepsPoint(w, o);
    ReturnKeepsRows(w, o);
  }

  lemma GiveUpKeepsJob(w: World, o: Outcome)
    requires w.engine.Running? && FitsLocally(w, w.engine.job) && GivingUp(w.engine.at)
    ensures TouchesOnly(w, GiveUp(w, o), w.engine.job) && JobFits(GiveUp(w, o), w.engine.job)
  {
  }

  lemma GiveUpKeepsPointEarly(w: World, o: Outcome)
    requires w.engine.Running? && FitsLocally(w, w.engine.job) && GivingUp(w.engine.at)
    requires w.engine.at.BeginAbort? || w.engine.at.AbortRunning?
    ensures GiveUp(w, o).engine.Running? ==>
              GiveUp(w, o).engine.job == w.engine.job && InJournal(GiveUp(w, o)) && PointFits(GiveUp(w, o))
  {
    hide JobFits, EnteringFits, DecidingFits, ForwardFits, ChangingFits, GoingBackFits, ReturningFits, DatabaseFits,
        GateFits, PhaseFits;
    assert GivingUpFits(GiveUp(w, o));
  }

  lemma GiveUpKeepsPointLate(w: World, o: Outcome)
    requires w.engine.Running? && FitsLocally(w, w.engine.job) && GivingUp(w.engine.at)
    requires !(w.engine.at.BeginAbort? || w.engine.at.AbortRunning?)
    ensures GiveUp(w, o).engine.Running? ==>
              GiveUp(w, o).engine.job == w.engine.job && InJournal(GiveUp(w, o)) && PointFits(GiveUp(w, o))
  {
    hide EnteringFits, ForwardFits, ChangingFits, GoingBackFits, ReturningFits, DatabaseFits, GateFits;
  }

  lemma GiveUpKeepsPoint(w: World, o: Outcome)
    requires w.engine.Running? && FitsLocally(w, w.engine.job) && GivingUp(w.engine.at)
    ensures GiveUp(w, o).engine.Running? ==>
              GiveUp(w, o).engine.job == w.engine.job && InJournal(GiveUp(w, o)) && PointFits(GiveUp(w, o))
  {
    hide FitsLocally, GiveUp, PointFits;
    if w.engine.at.BeginAbort? || w.engine.at.AbortRunning? {
      GiveUpKeepsPointEarly(w, o);
    } else {
      GiveUpKeepsPointLate(w, o);
    }
  }

  lemma GiveUpKeepsRows(w: World, o: Outcome)
    requires w.engine.Running? && FitsLocally(w, w.engine.job) && GivingUp(w.engine.at)
    ensures w.engine.job in GiveUp(w, o).journal && w.engine.job in GiveUp(w, o).history
    ensures DatabaseFits(GiveUp(w, o)) && GateFits(GiveUp(w, o))
  {
    hide EnteringFits, DecidingFits, ForwardFits, ChangingFits, GoingBackFits, ReturningFits, PhaseFits;
  }

  lemma GiveUpKeepsPlace(w: World, o: Outcome)
    requires w.engine.Running? && FitsLocally(w, w.engine.job) && GivingUp(w.engine.at)
    ensures w.engine.job in GiveUp(w, o).journal && w.engine.job in GiveUp(w, o).history
              && PlaceFits(GiveUp(w, o), w.engine.job)
  {
    hide FitsLocally, GiveUp, PointFits, DatabaseFits, GateFits;
    GiveUpKeepsPoint(w, o);
    GiveUpKeepsRows(w, o);
  }

  lemma QueueKeepsInv(w: World, a: Action)
    requires Inv(w) && Enabled(w, a) && a.Queue?
    ensures Inv(Next(w, a))
  {
    var w' := Next(w, a);
    forall id | id in w'.journal ensures JobFits(w', id) {
      if id != a.id { assert JobFits(w, id); }
    }
  }

  /** A job's facts depend on the journal, its snapshot, the marker and what has been admitted. */
  lemma JobsUntouched(w: World, w': World)
    requires Inv(w)
    requires w'.journal == w.journal && w'.history == w.history && w'.snapshots == w.snapshots
    requires w'.marker == w.marker && (w'.admitted == w.admitted || w.marker.None?)
    ensures forall id | id in w'.journal :: JobFits(w', id)
  {
    forall id | id in w'.journal ensures JobFits(w', id) {
      assert JobFits(w, id);
    }
  }

  lemma BeginKeepsInv(w: World, a: Action)
    requires Inv(w) && Enabled(w, a) && a.Begin?
    ensures Inv(Next(w, a))
  {
    JobsUntouched(w, Next(w, a));
  }

  lemma EngineKeepsInv(w: World, a: Action)
    requires Inv(w) && Enabled(w, a) && (a.Die? || a.Tick?)
    ensures Inv(Next(w, a))
  {
    JobsUntouched(w, Next(w, a));
  }

  /** A change is made with the marker absent, so no snapshot is waiting to be restored over it. */
  lemma ReadersKeepInv(w: World, a: Action)
    requires Inv(w) && Enabled(w, a) && (a.Knock? || a.Look? || a.Leave? || a.Mutate?)
    ensures Inv(Next(w, a))
  {
    JobsUntouched(w, Next(w, a));
  }

  lemma EnterKeepsInv(w: World, o: Outcome)
    requires Inv(w) && w.engine.Running? && Entering(w.engine.at)
    ensures TouchesOnly(w, Enter(w, o), w.engine.job) && Inv(Enter(w, o))
  {
    assert JobFits(w, w.engine.job);
    EnterKeepsJob(w, o);
    EnterKeepsPlace(w, o);
    OthersStillFit(w, Enter(w, o), w.engine.job);
  }

  lemma DecideKeepsInv(w: World, o: Outcome)
    requires Inv(w) && w.engine.Running? && Deciding(w.engine.at)
    ensures TouchesOnly(w, Decide(w, o), w.engine.job) && Inv(Decide(w, o))
  {
    assert JobFits(w, w.engine.job);
    DecideKeepsJob(w, o);
    DecideKeepsPlace(w, o);
    OthersStillFit(w, Decide(w, o), w.engine.job);
  }

  lemma ForwardKeepsInv(w: World, o: Outcome)
    requires Inv(w) && w.engine.Running? && GoingForward(w.engine.at)
    ensures TouchesOnly(w, Forward(w, o), w.engine.job) && Inv(Forward(w, o))
  {
    assert JobFits(w, w.engine.job);
    ForwardKeepsJob(w, o);
    ForwardKeepsPlace(w, o);
    OthersStillFit(w, Forward(w, o), w.engine.job);
  }

  lemma ChangeKeepsInv(w: World, o: Outcome)
    requires Inv(w) && w.engine.Running? && Changing(w.engine.at)
    ensures TouchesOnly(w, Change(w, o), w.engine.job) && Inv(Change(w, o))
  {
    assert JobFits(w, w.engine.job);
    ChangeKeepsJob(w, o);
    ChangeKeepsPlace(w, o);
    OthersStillFit(w, Change(w, o), w.engine.job);
  }

  lemma GoBackKeepsInv(w: World, o: Outcome)
    requires Inv(w) && w.engine.Running? && GoingBack(w.engine.at)
    ensures TouchesOnly(w, GoBack(w, o), w.engine.job) && Inv(GoBack(w, o))
  {
    assert JobFits(w, w.engine.job);
    GoBackKeepsJob(w, o);
    GoBackKeepsPlace(w, o);
    OthersStillFit(w, GoBack(w, o), w.engine.job);
  }

  lemma ReturnKeepsInv(w: World, o: Outcome)
    requires Inv(w) && w.engine.Running? && Returning(w.engine.at)
    ensures TouchesOnly(w, Return(w, o), w.engine.job) && Inv(Return(w, o))
  {
    assert JobFits(w, w.engine.job);
    ReturnKeepsJob(w, o);
    ReturnKeepsPlace(w, o);
    OthersStillFit(w, Return(w, o), w.engine.job);
  }

  lemma GiveUpKeepsInv(w: World, o: Outcome)
    requires Inv(w) && w.engine.Running? && GivingUp(w.engine.at)
    ensures TouchesOnly(w, GiveUp(w, o), w.engine.job) && Inv(GiveUp(w, o))
  {
    assert JobFits(w, w.engine.job);
    GiveUpKeepsJob(w, o);
    GiveUpKeepsPlace(w, o);
    OthersStillFit(w, GiveUp(w, o), w.engine.job);
  }

  lemma AdvanceKeepsInv(w: World, o: Outcome)
    requires Inv(w) && w.engine.Running?
    ensures TouchesOnly(w, Advance(w, o), w.engine.job) && Inv(Advance(w, o))
  {
    var p := w.engine.at;
    if Entering(p) { EnterKeepsInv(w, o); }
    else if Deciding(p) { DecideKeepsInv(w, o); }
    else if GoingForward(p) { ForwardKeepsInv(w, o); }
    else if Changing(p) { ChangeKeepsInv(w, o); }
    else if GoingBack(p) { GoBackKeepsInv(w, o); }
    else if Returning(p) { ReturnKeepsInv(w, o); }
    else { GiveUpKeepsInv(w, o); }
  }

  lemma NextKeepsInv(w: World, a: Action)
    requires Inv(w) && Enabled(w, a)
    ensures Inv(Next(w, a))
  {
    match a
    case Proceed(o) => AdvanceKeepsInv(w, o);
    case Queue(_, _) => QueueKeepsInv(w, a);
    case Begin(_) => BeginKeepsInv(w, a);
    case Die => EngineKeepsInv(w, a);
    case Tick(_) => EngineKeepsInv(w, a);
    case _ => ReadersKeepInv(w, a);
  }
}
