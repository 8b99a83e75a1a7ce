/**
What every run of the host update transaction guarantees, stated over the states and actions
of the run itself.
*/
module UpdateTheorems {
  import opened Options
  import opened UpdateTransaction
  import opened UpdateSafety

  lemma {:induction false} EveryStateFits(worlds: seq<World>, actions: seq<Action>, n: nat)
    requires IsRun(worlds, actions) && n < |worlds|
    ensures Inv(worlds[n])
  {
    hide Next;
    if n > 0 {
      EveryStateFits(worlds, actions, n - 1);
      assert StepAt(worlds, actions, n - 1);
      NextKeepsInv(worlds[n - 1], actions[n - 1]);
    }
  }

  // ---------------------------------------------------------------- admitted changes survive

  /** The changes in `earlier` are the oldest changes in `later`, in the same order. */
  predicate ContinuesFrom(later: Database, earlier: Database) {
    later == earlier || (later.After? && ContinuesFrom(later.before, earlier))
  }

  lemma WayForwardAdmitsNothing(w: World, o: Outcome)
    requires InJournal(w) && (Entering(w.engine.at) || Deciding(w.engine.at) || GoingForward(w.engine.at))
    ensures Advance(w, o).admitted == w.admitted
  {
    hide EntryPoint, OutcomeOf, BudgetExhausted, Record, Change, GoBack, Return, GiveUp;
  }

  lemma CoordinatorAdmitsNothing(w: World, o: Outcome)
    requires InJournal(w)
    ensures Advance(w, o).admitted == w.admitted
  {
    hide EntryPoint, OutcomeOf, BudgetExhausted, Record, Enter, Decide, Forward;
    if Entering(w.engine.at) || Deciding(w.engine.at) || GoingForward(w.engine.at) { WayForwardAdmitsNothing(w, o); }
  }

  lemma AdmittedByOneStep(w: World, a: Action)
    requires Enabled(w, a)
    ensures Next(w, a).admitted == if a.Mutate? then After(a.mutation, w.admitted) else w.admitted
  {
    hide Advance;
    if a.Proceed? { CoordinatorAdmitsNothing(w, a.outcome); }
  }

  lemma {:induction false} AdmittedOnlyGrows(worlds: seq<World>, actions: seq<Action>, i: nat, k: nat)
    requires IsRun(worlds, actions) && i <= k < |worlds|
    ensures ContinuesFrom(worlds[k].admitted, worlds[i].admitted)
  {
    hide Next;
    if i < k {
      AdmittedOnlyGrows(worlds, actions, i, k - 1);
      assert StepAt(worlds, actions, k - 1);
      AdmittedByOneStep(worlds[k - 1], actions[k - 1]);
    }
  }

  /**
  Whenever admission is open, after any interleaving of readers, resumptions and deaths, the
  database is exactly the changes admitted so far: whatever was admitted at any earlier point
  of the run is still there, and a restoration in between has brought nothing else back.
  */
  lemma AdmittedChangesSurvive(worlds: seq<World>, actions: seq<Action>, i: nat, k: nat)
    requires IsRun(worlds, actions) && i <= k < |worlds|
    requires worlds[k].marker.None?
    ensures worlds[k].rows == worlds[k].admitted
    ensures ContinuesFrom(worlds[k].rows, worlds[i].admitted)
  {
    EveryStateFits(worlds, actions, k);
    AdmittedOnlyGrows(worlds, actions, i, k);
  }

  /** Replacing the database file during rollback never discards, and never invents, an admitted change. */
  lemma RestorationIsExact(worlds: seq<World>, actions: seq<Action>, k: nat)
    requires IsRun(worlds, actions) && k < |actions|
    requires worlds[k].engine.Running? && worlds[k].engine.at.Restoring?
    requires actions[k].Proceed? && actions[k].outcome.Effect?
    ensures worlds[k].engine.job in worlds[k].snapshots
    ensures worlds[k + 1].rows == worlds[k + 1].admitted == worlds[k].admitted
  {
    EveryStateFits(worlds, actions, k);
    assert StepAt(worlds, actions, k);
    assert JobFits(worlds[k], worlds[k].engine.job);
  }

  // ---------------------------------------------------------------- the marker

  /**
  In every state of every run an unsafe job owns the marker; so no two jobs are unsafe, no
  process is inside the gate, and a process at the marker check is turned away.
  */
  lemma UnsafeJobOwnsTheMarker(worlds: seq<World>, actions: seq<Action>, n: nat, id: JobId)
    requires IsRun(worlds, actions) && n < |worlds|
    requires id in worlds[n].journal && Unsafe(worlds[n].journal[id].phase)
    ensures worlds[n].marker == Some(id)
    ensures forall other | other in worlds[n].journal :: Unsafe(worlds[n].journal[other].phase) ==> other == id
    ensures forall pid | pid in worlds[n].gate ::
              worlds[n].gate[pid] == Knocking && pid !in Next(worlds[n], Look(pid)).gate
  {
    EveryStateFits(worlds, actions, n);
    var w := worlds[n];
    assert JobFits(w, id);
    forall other | other in w.journal && Unsafe(w.journal[other].phase) ensures other == id {
      assert JobFits(w, other);
    }
  }

  /** The coordinator never finds the marker of another job when it opens admission. */
  lemma ReleaseNeverMismatches(worlds: seq<World>, actions: seq<Action>, n: nat)
    requires IsRun(worlds, actions) && n < |worlds|
    requires worlds[n].engine.Running? && worlds[n].engine.at.OpenAdmission?
    ensures worlds[n].marker == Some(worlds[n].engine.job)
  {
    EveryStateFits(worlds, actions, n);
  }

  lemma FinalPhasesStay(w: World, a: Action, id: JobId)
    requires Inv(w) && Enabled(w, a) && id in w.journal && Terminal(w.journal[id].phase)
    ensures id in Next(w, a).journal && Next(w, a).journal[id] == w.journal[id]
  {
    if a.Proceed? {
      hide Advance;
      AdvanceKeepsInv(w, a.outcome);
      assert w.engine.job != id;
    }
  }

  /** An outcome, once written, is never rewritten. */
  lemma {:induction false} OutcomesAreFinal(worlds: seq<World>, actions: seq<Action>, i: nat, k: nat, id: JobId)
    requires IsRun(worlds, actions) && i <= k < |worlds|
    requires id in worlds[i].journal && Terminal(worlds[i].journal[id].phase)
    ensures id in worlds[k].journal && worlds[k].journal[id] == worlds[i].journal[id]
  {
    hide Next;
    if i < k {
      OutcomesAreFinal(worlds, actions, i, k - 1, id);
      EveryStateFits(worlds, actions, k - 1);
      assert StepAt(worlds, actions, k - 1);
      FinalPhasesStay(worlds[k - 1], actions[k - 1], id);
    }
  }

  /** After failed recovery no process ever enters again and the admitted changes stand still. */
  lemma FailedRecoveryStaysClosed(worlds: seq<World>, actions: seq<Action>, i: nat, k: nat, id: JobId)
    requires IsRun(worlds, actions) && i <= k < |worlds|
    requires id in worlds[i].journal && worlds[i].journal[id].phase == RecoveryRequired
    ensures worlds[k].marker == Some(id)
    ensures forall pid | pid in worlds[k].gate :: worlds[k].gate[pid] == Knocking
  {
    OutcomesAreFinal(worlds, actions, i, k, id);
    UnsafeJobOwnsTheMarker(worlds, actions, k, id);
  }

  // ---------------------------------------------------------------- the life of a job

  /** The coordinator leaves `p` for the job `id` in this step. */
  predicate Takes(w: World, a: Action, id: JobId, p: Point) {
    w.engine == Running(id, p) && a.Proceed?
  }

  /** How often the coordinator has left `p` for the job in the first `n` steps. */
  function Times(worlds: seq<World>, actions: seq<Action>, id: JobId, p: Point, n: nat): nat
    requires n <= |actions| < |worlds|
  {
    if n == 0 then 0
    else Times(worlds, actions, id, p, n - 1) + if Takes(worlds[n - 1], actions[n - 1], id, p) then 1 else 0
  }

  predicate TargetPassed(w: World, a: Action, id: JobId) {
    && w.engine.Running? && w.engine.job == id && id in w.journal && a == Proceed(Ok)
    && (w.engine.at.CheckNew? || (w.engine.at.CheckDecided? && w.journal[id].phase.Committed?))
  }

  predicate OldPassed(w: World, a: Action, id: JobId) {
    && w.engine.Running? && w.engine.job == id && id in w.journal && a == Proceed(Ok)
    && (w.engine.at.CheckRestored? || w.engine.at.CheckAborted?
        || (w.engine.at.CheckDecided? && !w.journal[id].phase.Committed?))
  }

  function EventOf(w: World, a: Action, id: JobId): Option<Event> {
    if Takes(w, a, id, StartPrepare) then Some(PrepareStarted)
    else if Takes(w, a, id, StartInstall) then Some(InstallStarted)
    else if Takes(w, a, id, StartRestore) then Some(RestoreStarted)
    else if TargetPassed(w, a, id) then Some(NewHealthy)
    else if OldPassed(w, a, id) then Some(OldHealthy)
    else None
  }

  lemma ForwardRecordsEvents(w: World, o: Outcome)
    requires InJournal(w) && GoingForward(w.engine.at)
    ensures Advance(w, o).history
            == match EventOf(w, Proceed(o), w.engine.job)
               case None => w.history
               case Some(e) => w.history[w.engine.job := Record(w.history[w.engine.job], e)]
  {
    hide Enter, Decide, Change, GoBack, Return, GiveUp, Record;
  }

  lemma ChangeRecordsEvents(w: World, o: Outcome)
    requires InJournal(w) && Changing(w.engine.at)
    ensures Advance(w, o).history
            == match EventOf(w, Proceed(o), w.engine.job)
               case None => w.history
               case Some(e) => w.history[w.engine.job := Record(w.history[w.engine.job], e)]
  {
    hide Enter, Decide, Forward, GoBack, Return, GiveUp, Record;
  }

  lemma GoBackRecordsEvents(w: World, o: Outcome)
    requires InJournal(w) && GoingBack(w.engine.at)
    ensures Advance(w, o).history
            == match EventOf(w, Proceed(o), w.engine.job)
               case None => w.history
               case Some(e) => w.history[w.engine.job := Record(w.history[w.engine.job], e)]
  {
    hide Enter, Decide, Forward, Change, Return, GiveUp, Record;
  }

  lemma ReturnRecordsEvents(w: World, o: Outcome)
    requires InJournal(w) && Returning(w.engine.at)
    ensures Advance(w, o).history
            == match EventOf(w, Proceed(o), w.engine.job)
               case None => w.history
               case Some(e) => w.history[w.engine.job := Record(w.history[w.engine.job], e)]
  {
    hide Enter, Decide, Forward, Change, GoBack, GiveUp, Record;
  }

  lemma GiveUpRecordsEvents(w: World, o: Outcome)
    requires InJournal(w) && GivingUp(w.engine.at)
    ensures Advance(w, o).history
            == match EventOf(w, Proceed(o), w.engine.job)
               case None => w.history
               case Some(e) => w.history[w.engine.job := Record(w.history[w.engine.job], e)]
  {
    hide Enter, Decide, Forward, Change, GoBack, Return, Record;
  }

  lemma CoordinatorRecordsEvents(w: World, o: Outcome)
    requires InJournal(w)
    ensures Advance(w, o).history
            == match EventOf(w, Proceed(o), w.engine.job)
               case None => w.history
               case Some(e) => w.history[w.engine.job := Record(w.history[w.engine.job], e)]
  {
    hide Forward, Change, GoBack, Return, GiveUp, Record;
    var p := w.engine.at;
    if GoingForward(p) { ForwardRecordsEvents(w, o); }
    else if Changing(p) { ChangeRecordsEvents(w, o); }
    else if GoingBack(p) { GoBackRecordsEvents(w, o); }
    else if Returning(p) { ReturnRecordsEvents(w, o); }
    else if GivingUp(p) { GiveUpRecordsEvents(w, o); }
  }

  /** The history of a job, before it is queued the empty one. */
  function HistoryOf(w: World, id: JobId): History {
    if id in w.history then w.history[id] else NOTHING_DONE
  }

  lemma HistoryFollowsEvents(w: World, a: Action, id: JobId)
    requires Inv(w) && Enabled(w, a)
    ensures HistoryOf(Next(w, a), id)
            == match EventOf(w, a, id) case None => HistoryOf(w, id) case Some(e) => Record(HistoryOf(w, id), e)
  {
    hide Advance, Record, JobFits, PointFits, DatabaseFits, GateFits;
    if a.Proceed? { CoordinatorRecordsEvents(w, a.outcome); }
  }

  ghost predicate TargetPassedAfterLastInstall(worlds: seq<World>, actions: seq<Action>, id: JobId, n: nat)
    requires n <= |actions| < |worlds|
  {
    exists i :: 0 <= i < n && TargetPassed(worlds[i], actions[i], id)
                && forall k :: i < k < n ==> !Takes(worlds[k], actions[k], id, StartInstall)
  }

  ghost predicate OldPassedAfterLastRestore(worlds: seq<World>, actions: seq<Action>, id: JobId, n: nat)
    requires n <= |actions| < |worlds|
  {
    exists i :: 0 <= i < n && OldPassed(worlds[i], actions[i], id)
                && forall k :: i < k < n ==> !Takes(worlds[k], actions[k], id, StartRestore)
  }

  predicate Counted(h: History, worlds: seq<World>, actions: seq<Action>, id: JobId, n: nat)
    requires n <= |actions| < |worlds|
  {
    && h.prepares == Times(worlds, actions, id, StartPrepare, n)
    && h.installs == Times(worlds, actions, id, StartInstall, n)
    && h.restores == Times(worlds, actions, id, StartRestore, n)
  }

  lemma CountsCarryOver(worlds: seq<World>, actions: seq<Action>, id: JobId, n: nat, h: History)
    requires 0 < n <= |actions| < |worlds|
    requires Counted(h, worlds, actions, id, n - 1)
    ensures match EventOf(worlds[n - 1], actions[n - 1], id)
            case None => Counted(h, worlds, actions, id, n)
            case Some(e) => Counted(Record(h, e), worlds, actions, id, n)
  {
  }

  /** The counters kept with a job count the steps of the run. */
  lemma {:induction false} CountersCountTheRun(worlds: seq<World>, actions: seq<Action>, id: JobId, n: nat)
    requires IsRun(worlds, actions) && n <= |actions|
    ensures Counted(HistoryOf(worlds[n], id), worlds, actions, id, n)
  {
    hide Next, EventOf;
    if n > 0 {
      CountersCountTheRun(worlds, actions, id, n - 1);
      EveryStateFits(worlds, actions, n - 1);
      assert StepAt(worlds, actions, n - 1);
      HistoryFollowsEvents(worlds[n - 1], actions[n - 1], id);
      CountsCarryOver(worlds, actions, id, n, HistoryOf(worlds[n - 1], id));
    }
  }

  lemma TargetPassesCarryOver(worlds: seq<World>, actions: seq<Action>, id: JobId, n: nat)
    requires 0 < n <= |actions| < |worlds|
    ensures TargetPassed(worlds[n - 1], actions[n - 1], id) ==> TargetPassedAfterLastInstall(worlds, actions, id, n)
    ensures TargetPassedAfterLastInstall(worlds, actions, id, n - 1)
              && !Takes(worlds[n - 1], actions[n - 1], id, StartInstall)
            ==> TargetPassedAfterLastInstall(worlds, actions, id, n)
  {
    hide TargetPassed;
    if TargetPassedAfterLastInstall(worlds, actions, id, n - 1)
        && !Takes(worlds[n - 1], actions[n - 1], id, StartInstall) {
      var i :| 0 <= i < n - 1 && TargetPassed(worlds[i], actions[i], id)
               && forall k :: i < k < n - 1 ==> !Takes(worlds[k], actions[k], id, StartInstall);
      assert forall k :: i < k < n ==> !Takes(worlds[k], actions[k], id, StartInstall);
    }
  }

  lemma OldPassesCarryOver(worlds: seq<World>, actions: seq<Action>, id: JobId, n: nat)
    requires 0 < n <= |actions| < |worlds|
    ensures OldPassed(worlds[n - 1], actions[n - 1], id) ==> OldPassedAfterLastRestore(worlds, actions, id, n)
    ensures OldPassedAfterLastRestore(worlds, actions, id, n - 1)
              && !Takes(worlds[n - 1], actions[n - 1], id, StartRestore)
            ==> OldPassedAfterLastRestore(worlds, actions, id, n)
  {
    hide OldPassed;
    if OldPassedAfterLastRestore(worlds, actions, id, n - 1)
        && !Takes(worlds[n - 1], actions[n - 1], id, StartRestore) {
      var i :| 0 <= i < n - 1 && OldPassed(worlds[i], actions[i], id)
               && forall k :: i < k < n - 1 ==> !Takes(worlds[k], actions[k], id, StartRestore);
      assert forall k :: i < k < n ==> !Takes(worlds[k], actions[k], id, StartRestore);
    }
  }

  ghost predicate Carried(h: History, worlds: seq<World>, actions: seq<Action>, id: JobId, n: nat)
    requires n <= |actions| < |worlds|
  {
    && (h.newHealthySinceInstall ==> TargetPassedAfterLastInstall(worlds, actions, id, n))
    && (h.oldHealthySinceRestore ==> OldPassedAfterLastRestore(worlds, actions, id, n))
  }

  lemma HealthCarriesOver(worlds: seq<World>, actions: seq<Action>, id: JobId, n: nat, h: History)
    requires 0 < n <= |actions| < |worlds|
    requires Carried(h, worlds, actions, id, n - 1)
    ensures match EventOf(worlds[n - 1], actions[n - 1], id)
            case None => Carried(h, worlds, actions, id, n)
            case Some(e) => Carried(Record(h, e), worlds, actions, id, n)
  {
    hide TargetPassedAfterLastInstall, OldPassedAfterLastRestore;
    TargetPassesCarryOver(worlds, actions, id, n);
    OldPassesCarryOver(worlds, actions, id, n);
  }

  /** The health flags kept with a job were set by checks of the run. */
  lemma {:induction false} HealthComesFromTheRun(worlds: seq<World>, actions: seq<Action>, id: JobId, n: nat)
    requires IsRun(worlds, actions) && n <= |actions|
    ensures Carried(HistoryOf(worlds[n], id), worlds, actions, id, n)
  {
    hide Next, EventOf, TargetPassedAfterLastInstall, OldPassedAfterLastRestore;
    if n > 0 {
      hide Carried, Record, Initial, Inv;
      HealthComesFromTheRun(worlds, actions, id, n - 1);
      EveryStateFits(worlds, actions, n - 1);
      assert StepAt(worlds, actions, n - 1);
      HistoryFollowsEvents(worlds[n - 1], actions[n - 1], id);
      HealthCarriesOver(worlds, actions, id, n, HistoryOf(worlds[n - 1], id));
    }
  }

  // ---------------------------------------------------------------- the budget of restorations

  /** How often a restoration has been charged to the job in the first `n` steps. */
  function Charges(worlds: seq<World>, actions: seq<Action>, id: JobId, n: nat): nat
    requires n <= |actions| < |worlds|
  {
    if n == 0 then 0
    else Charges(worlds, actions, id, n - 1)
         + if IsCharged(worlds[n - 1], actions[n - 1], worlds[n], id) then 1 else 0
  }

  function ResumesOf(w: World, id: JobId): nat {
    if id in w.journal then w.journal[id].rollbackResumes else 0
  }

  lemma WayForwardKeepsBudget(w: World, o: Outcome, id: JobId)
    requires InJournal(w) && (Entering(w.engine.at) || Deciding(w.engine.at) || GoingForward(w.engine.at))
    ensures ResumesOf(Advance(w, o), id) == ResumesOf(w, id)
  {
    hide EntryPoint, OutcomeOf, BudgetExhausted, Record, Change, GoBack, Return, GiveUp;
  }

  /** Apart from a rollback's first step, nothing changes the budget. */
  lemma CoordinatorKeepsBudget(w: World, o: Outcome, id: JobId)
    requires InJournal(w) && !w.engine.at.BeginRollback?
    ensures ResumesOf(Advance(w, o), id) == ResumesOf(w, id)
  {
    hide EntryPoint, OutcomeOf, BudgetExhausted, Record, Enter, Decide, Forward;
    if Entering(w.engine.at) || Deciding(w.engine.at) || GoingForward(w.engine.at) { WayForwardKeepsBudget(w, o, id); }
  }

  /** The step charges a restoration to the job. */
  predicate IsCharged(w: World, a: Action, after: World, id: JobId) {
    Takes(w, a, id, BeginRollback) && after.engine == Running(id, StartRestore)
  }

  lemma BudgetOfOneStep(w: World, a: Action, id: JobId)
    requires Enabled(w, a)
    ensures ResumesOf(Next(w, a), id) == ResumesOf(w, id) + if IsCharged(w, a, Next(w, a), id) then 1 else 0
  {
    hide Advance;
    if a.Proceed? {
      if w.engine.at.BeginRollback? { BeginRollbackStep(w, a.outcome, id); }
          else { CoordinatorKeepsBudget(w, a.outcome, id); }
    }
  }

  lemma {:induction false} BudgetCountsCharges(worlds: seq<World>, actions: seq<Action>, id: JobId, n: nat)
    requires IsRun(worlds, actions) && n <= |actions|
    ensures ResumesOf(worlds[n], id) == Charges(worlds, actions, id, n)
  {
    if n > 0 {
      hide Next, Enabled, IsCharged, ResumesOf, Initial;
      BudgetCountsCharges(worlds, actions, id, n - 1);
      assert StepAt(worlds, actions, n - 1);
      BudgetOfOneStep(worlds[n - 1], actions[n - 1], id);
    }
  }

  lemma BeginRollbackStep(w: World, o: Outcome, id: JobId)
    requires InJournal(w) && w.engine.at.BeginRollback?
    ensures var after := Advance(w, o);
            ResumesOf(after, id) == ResumesOf(w, id) + if w.engine.job == id
                && after.engine == Running(id, StartRestore) then 1 else 0
  {
  }

  /**
  A rollback begins its next restoration unless eight have been charged over the whole run or the
  recovery deadline has passed; exactly then an administrator is asked for.
  */
  lemma RestorationIsTried(worlds: seq<World>, actions: seq<Action>, n: nat, id: JobId)
    requires IsRun(worlds, actions) && n < |actions| && Takes(worlds[n], actions[n], id, BeginRollback)
    ensures id in worlds[n].journal && id in worlds[n + 1].journal
    ensures worlds[n + 1].journal[id].phase == RecoveryRequired <==>
              Charges(worlds, actions, id, n) >= 8 || worlds[n].clock > worlds[n].journal[id].recoveryDeadline
    ensures worlds[n + 1].journal[id].phase != RecoveryRequired ==> worlds[n + 1].engine == Running(id, StartRestore)
  {
    EveryStateFits(worlds, actions, n);
    BudgetCountsCharges(worlds, actions, id, n);
    assert StepAt(worlds, actions, n);
  }

  /**
  However often a job is interrupted and resumed, its preparation and its installation start
  at most once each and its restoration at most eight times; and its outcome tells the truth
  about what was done and what was checked.
  */
  lemma LifeOfAJob(worlds: seq<World>, actions: seq<Action>, n: nat, id: JobId)
    requires IsRun(worlds, actions) && n <= |actions| && id in worlds[n].journal
    ensures Times(worlds, actions, id, StartPrepare, n) <= 1
    ensures Times(worlds, actions, id, StartInstall, n) <= 1
    ensures Times(worlds, actions, id, StartRestore, n) <= 8
    ensures worlds[n].journal[id].phase == Failed ==>
              Times(worlds, actions, id, StartInstall, n) == 0 && Times(worlds, actions, id, StartRestore, n) == 0
    ensures worlds[n].journal[id].phase == Succeeded ==>
              && Times(worlds, actions, id, StartInstall, n) == 1 && Times(worlds, actions, id, StartRestore, n) == 0
              && TargetPassedAfterLastInstall(worlds, actions, id, n)
    ensures worlds[n].journal[id].phase == RolledBack ==>
              && Times(worlds, actions, id, StartRestore, n) > 0
              && OldPassedAfterLastRestore(worlds, actions, id, n) && worlds[n].journal[id].credentialsRevoked
  {
    EveryStateFits(worlds, actions, n);
    CountersCountTheRun(worlds, actions, id, n);
    HealthComesFromTheRun(worlds, actions, id, n);
    assert JobFits(worlds[n], id);
  }
}
