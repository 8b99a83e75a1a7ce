/**
What a resumption of the host update reaches when it is left alone: if the calls it makes succeed
and nobody holds the fence against it, a queued job succeeds, an uncertain one is rolled back, an
unfinished preparation fails, and a decision gets its outcome.
*/
module UpdateProgress {
  import opened Options
  import opened UpdateTransaction
  import opened UpdateSafety
  import opened UpdateTheorems

  /** The outcome that a resumption in this phase is for. */
  function Goal(phase: Phase): Phase {
    match phase
    case Queued => Succeeded
    case Committed => Succeeded
    case Installing => RolledBack
    case Verifying => RolledBack
    case RollingBack => RolledBack
    case RollbackVerifying => RolledBack
    case Recovered => RolledBack
    case Preparing => Failed
    case Aborting => Failed
    case Aborted => Failed
    case _ => phase
  }

  /** The coordinator stands where a resumption with this goal passes. */
  predicate OnTheWay(w: World, id: JobId, goal: Phase) {
    && w.engine.Running? && w.engine.job == id && InJournal(w)
    && var phase := w.journal[id].phase;
       match w.engine.at
       case AcquireLock => Goal(phase) == goal
       case TakeMarker => Goal(phase) == goal
       case RecordOutcome(d) => Goal(d) == goal
       case CheckDecided => Goal(phase) == goal
       case CommitDecision(d) => Goal(d) == goal
       case OpenAdmission(d) => Goal(d) == goal
       case RecordTerminal(d) => Goal(d) == goal
       case WritePreparationFailed => false
       case WriteInstallFailed => false
       case WriteRecoveryRequired => false
       case p =>
         if GoingForward(p) || Changing(p) then goal.Succeeded?
         else if GoingBack(p) || Returning(p) then goal.RolledBack?
         else goal.Failed?
  }

  /** The step succeeds: a call returns with its work done, the fence is free, and there is time. */
  predicate Succeeds(w: World, a: Action) {
    match a
    case Die => false
    case Proceed(o) =>
      InJournal(w) ==>
        var id := w.engine.job;
        var job := w.journal[id];
        (match w.engine.at
         case AcquireLock => o.Ok? && w.gate == map[]
         case TakeMarker => w.marker.None? || w.marker.value == id
         case CheckDeadline => w.clock <= job.recoveryDeadline
         case BeginRollback => w.clock <= job.recoveryDeadline && job.rollbackResumes < 8
         case PrepareRunning => o.Effect? || (o.Ok? && id in w.snapshots)
         case InstallRunning(_) => !o.Raise?
         case Restoring(replaced) => o.Effect? || (o.Ok? && replaced)
         case _ => o.Ok?)
    case _ => true
  }

  /** After the step the goal is reached and admission open, or the coordinator is still on the way. */
  predicate Advanced(after: World, id: JobId, goal: Phase) {
    if after.engine.Idle? then id in after.journal && after.journal[id].phase == goal && after.marker != Some(id)
    else OnTheWay(after, id, goal)
  }

  lemma WayIn(w: World, o: Outcome, goal: Phase)
    requires Inv(w) && w.engine.Running? && OnTheWay(w, w.engine.job, goal) && Succeeds(w, Proceed(o))
    requires Entering(w.engine.at)
    ensures Advanced(Enter(w, o), w.engine.job, goal)
  {
    hide JobFits, DatabaseFits, GateFits;
  }

  lemma WayThroughDecision(w: World, o: Outcome, goal: Phase)
    requires Inv(w) && w.engine.Running? && OnTheWay(w, w.engine.job, goal) && Succeeds(w, Proceed(o))
    requires Deciding(w.engine.at)
    ensures Advanced(Decide(w, o), w.engine.job, goal)
  {
    hide JobFits, DatabaseFits, GateFits;
  }

  lemma WayForward(w: World, o: Outcome, goal: Phase)
    requires Inv(w) && w.engine.Running? && OnTheWay(w, w.engine.job, goal) && Succeeds(w, Proceed(o))
    requires GoingForward(w.engine.at)
    ensures Advanced(Forward(w, o), w.engine.job, goal)
  {
    hide JobFits, DatabaseFits, GateFits;
  }

  lemma WayOfChange(w: World, o: Outcome, goal: Phase)
    requires Inv(w) && w.engine.Running? && OnTheWay(w, w.engine.job, goal) && Succeeds(w, Proceed(o))
    requires Changing(w.engine.at)
    ensures Advanced(Change(w, o), w.engine.job, goal)
  {
    hide JobFits, DatabaseFits, GateFits;
  }

  lemma WayBack(w: World, o: Outcome, goal: Phase)
    requires Inv(w) && w.engine.Running? && OnTheWay(w, w.engine.job, goal) && Succeeds(w, Proceed(o))
    requires GoingBack(w.engine.at)
    ensures Advanced(GoBack(w, o), w.engine.job, goal)
  {
    hide JobFits, DatabaseFits, GateFits;
  }

  lemma RestoringHasSnapshot(w: World)
    requires Inv(w) && w.engine.Running? && w.engine.at.Restoring?
    ensures w.engine.job in w.snapshots
  {
    hide DatabaseFits, GateFits, EnteringFits, DecidingFits, ForwardFits, ChangingFits, GoingBackFits, GivingUpFits,
        PhaseFits;
    assert JobFits(w, w.engine.job);
  }

  lemma WayOfReturn(w: World, o: Outcome, goal: Phase)
    requires Inv(w) && w.engine.Running? && OnTheWay(w, w.engine.job, goal) && Succeeds(w, Proceed(o))
    requires Returning(w.engine.at)
    ensures Advanced(Return(w, o), w.engine.job, goal)
  {
    hide JobFits, DatabaseFits, GateFits, EnteringFits, DecidingFits, ForwardFits, ChangingFits, GoingBackFits,
        GivingUpFits;
    if w.engine.at.Restoring? { RestoringHasSnapshot(w); }
  }

  lemma WayOut(w: World, o: Outcome, goal: Phase)
    requires Inv(w) && w.engine.Running? && OnTheWay(w, w.engine.job, goal) && Succeeds(w, Proceed(o))
    requires GivingUp(w.engine.at)
    ensures Advanced(GiveUp(w, o), w.engine.job, goal)
  {
    hide Inv, EntryPoint;
  }

  lemma CoordinatorAdvances(w: World, o: Outcome, goal: Phase)
    requires Inv(w) && w.engine.Running? && OnTheWay(w, w.engine.job, goal) && Succeeds(w, Proceed(o))
    ensures Advanced(Advance(w, o), w.engine.job, goal)
  {
    hide Inv, OnTheWay, Succeeds, Advanced, Enter, Decide, Forward, Change, GoBack, Return, GiveUp;
    var p := w.engine.at;
    if Entering(p) { WayIn(w, o, goal); }
    else if Deciding(p) { WayThroughDecision(w, o, goal); }
    else if GoingForward(p) { WayForward(w, o, goal); }
    else if Changing(p) { WayOfChange(w, o, goal); }
    else if GoingBack(p) { WayBack(w, o, goal); }
    else if Returning(p) { WayOfReturn(w, o, goal); }
    else { WayOut(w, o, goal); }
  }

  lemma NextAdvances(w: World, a: Action, id: JobId, goal: Phase)
    requires Inv(w) && Enabled(w, a) && OnTheWay(w, id, goal) && Succeeds(w, a)
    ensures Advanced(Next(w, a), id, goal)
  {
    hide Inv, Advance;
    if a.Proceed? { CoordinatorAdvances(w, a.outcome, goal); }
  }

  lemma BeginIsOnTheWay(w: World, id: JobId)
    requires Inv(w) && Enabled(w, Begin(id))
    ensures OnTheWay(Next(w, Begin(id)), id, Goal(w.journal[id].phase))
  {
    hide JobFits, DatabaseFits, GateFits;
  }

  /** From its beginning at `i` up to `k` every step of the resumption succeeds. */
  predicate Undisturbed(worlds: seq<World>, actions: seq<Action>, i: nat, k: nat)
    requires k <= |actions| < |worlds|
  {
    forall j | i < j < k :: worlds[j].engine.Running? && Succeeds(worlds[j], actions[j])
  }

  lemma {:induction false} StaysOnTheWay(worlds: seq<World>, actions: seq<Action>, i: nat, k: nat, id: JobId)
    requires IsRun(worlds, actions) && i < k <= |actions| && actions[i] == Begin(id)
              && Undisturbed(worlds, actions, i, k)
    ensures id in worlds[i].journal && Advanced(worlds[k], id, Goal(worlds[i].journal[id].phase))
  {
    hide Inv, OnTheWay, Succeeds, Next;
    assert StepAt(worlds, actions, i) && StepAt(worlds, actions, k - 1);
    EveryStateFits(worlds, actions, k - 1);
    if i + 1 < k {
      StaysOnTheWay(worlds, actions, i, k - 1, id);
      NextAdvances(worlds[k - 1], actions[k - 1], id, Goal(worlds[i].journal[id].phase));
    } else {
      BeginIsOnTheWay(worlds[i], id);
      RunsAfterBegin(worlds[i], id);
    }
  }

  lemma RunsAfterBegin(w: World, id: JobId)
    requires Enabled(w, Begin(id))
    ensures Next(w, Begin(id)).engine.Running?
  {
  }

  /**
  A resumption all of whose steps succeed, whatever others do meanwhile, ends in the outcome it is
  for, and with admission open again: a queued job succeeds, one whose installation was cut short
  is rolled back, one whose preparation was cut short fails.
  */
  lemma ResumptionReachesItsGoal(worlds: seq<World>, actions: seq<Action>, i: nat, k: nat, id: JobId)
    requires IsRun(worlds, actions) && i < k <= |actions| && actions[i] == Begin(id)
              && Undisturbed(worlds, actions, i, k)
    requires worlds[k].engine.Idle?
    ensures id in worlds[i].journal && id in worlds[k].journal
    ensures var phase := worlds[i].journal[id].phase;
            worlds[k].journal[id].phase == if phase.Queued? || phase.Committed? then Succeeded
                                           else if phase.Installing? || phase.Verifying? || phase.RollingBack?
                                               || phase.RollbackVerifying? || phase.Recovered? then RolledBack
                                           else Failed
    ensures worlds[k].marker != Some(id)
  {
    StaysOnTheWay(worlds, actions, i, k, id);
    assert StepAt(worlds, actions, i);
    EveryStateFits(worlds, actions, i);
  }
}
