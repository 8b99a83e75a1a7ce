/**
What every run of the control loop guarantees, stated over the states and actions of the run.
*/
module ControlTheorems {
  import opened Options
  import opened Resources
  import opened Agents
  import opened ControlLoop
  import opened ControlSafety

  lemma InitialFits(w: World)
    requires Initial(w)
    ensures Inv(w)
  {
  }

  lemma {:induction false} EveryStateFits(worlds: seq<World>, actions: seq<Action>, n: nat)
    requires IsRun(worlds, actions) && n < |worlds|
    ensures Inv(worlds[n])
  {
    hide Inv, Next, Enabled, Initial;
    if n > 0 {
      EveryStateFits(worlds, actions, n - 1);
      assert StepAt(worlds, actions, n - 1);
      NextKeepsInv(worlds[n - 1], actions[n - 1]);
    } else {
      InitialFits(worlds[0]);
    }
  }

  // ---------------------------------------------------------------- fencing

  /** The Agent accepts the commands of passes in the order of the passes, through every restart, power loss and restore. */
  lemma AcceptedInPassOrder(worlds: seq<World>, actions: seq<Action>, n: nat, i: nat, j: nat)
    requires IsRun(worlds, actions) && n < |worlds| && i <= j < |worlds[n].accepted|
    ensures worlds[n].accepted[i].pass <= worlds[n].accepted[j].pass
  {
    hide Rows, Staffed, Room, IsRun, PassTokens;
    EveryStateFits(worlds, actions, n);
  }

  /** Once a command of a newer pass was accepted, a delayed one of an older pass does nothing, however often it arrives. */
  lemma DelayedCommandIsRefused(worlds: seq<World>, actions: seq<Action>, n: nat, newer: Message)
    requires IsRun(worlds, actions) && n < |actions| && actions[n].Deliver?
    requires newer in worlds[n].accepted && actions[n].message.pass < newer.pass
    ensures worlds[n + 1].accepted == worlds[n].accepted && worlds[n + 1].agent.workers == worlds[n].agent.workers
  {
    hide Handle, Rows, Staffed, Room, PassTokens;
    EveryStateFits(worlds, actions, n);
    assert StepAt(worlds, actions, n);
    var w, m := worlds[n], actions[n].message;
    HandleIsWell(w.agent, m, actions[n].now, actions[n].fate);
    assert FromItsPass(w, m) && StillKnown(w, newer) && Ordered(m, newer);
  }

  predicate ByToken(accepted: seq<Message>) {
    forall i, j | 0 <= i < j < |accepted| :: accepted[i].command.token <= accepted[j].command.token
  }

  /** The largest token that a controller can still know of after this backup was restored. */
  function Reach(a: AgentState, b: Backup): nat {
    Max(b.database.counter, Max(a.file, b.fence))
  }

  /** No accepted token is more than `slack` beyond what the restored backup and the Agent's file know. */
  predicate WithinReach(w: World, b: Backup, slack: nat) {
    forall m | m in w.accepted :: m.command.token <= Reach(w.agent, b) + slack
  }

  predicate RestoresReach(worlds: seq<World>, actions: seq<Action>, n: nat, slack: nat)
    requires n <= |actions| < |worlds|
  {
    forall i | 0 <= i < n && actions[i].Restore? :: WithinReach(worlds[i], actions[i].backup, slack)
  }

  /** A token is known to the durable counter, or to the watermark both in the file and on the disk. */
  predicate Known(w: World, m: Message, slack: nat) {
    || m.command.token <= w.db.counter + slack
    || (m.command.token <= w.agent.disk + slack && m.command.token <= w.agent.file + slack)
  }

  /** How a pass comes to exceed a token of an earlier epoch: by its own token, or by what it heard. */
  predicate Exceeds(w: World, p: Pass, m: Message, slack: nat) {
    || m.command.token < p.token + slack
    || (p.stage.Fresh? && m.command.token <= w.agent.file + slack)
    || (p.stage.Heard? && m.command.token <= p.stage.seen + slack)
  }

  /** Requests under way and passes stand above everything accepted in earlier epochs. */
  predicate Above(w: World, slack: nat) {
    && (forall m | m in w.accepted :: Known(w, m, slack))
    && (forall m, n | m in w.accepted && n in w.inflight && m.pass <= w.epoch ::
        m.command.token < n.command.token + slack)
    && (w.pass.Some? ==> forall m | m in w.accepted && m.pass <= w.epoch :: Exceeds(w, w.pass.value, m, slack))
  }

  lemma PassKeepsAbove(w: World, a: Action, slack: nat)
    requires Tokens(w) && MayPass(w, a) && Above(w, slack)
    ensures Above(PassStep(w, a), slack)
  {
    hide ByPass, Ordered, Kept, OwnRow, StillKnown, FromItsPass, BelowPass;
  }

  lemma DeliverKeepsAbove(w: World, m: Message, now: int, fate: Fate, replied: bool, slack: nat)
    requires Tokens(w) && m in w.inflight && Above(w, slack)
    ensures Above(Happen(w, Deliver(m, now, fate, replied)), slack)
  {
    hide Handle, ByPass, Ordered, StillKnown, BelowPass;
    HandleIsWell(w.agent, m, now, fate);
    WatermarkHandles(w.agent, m, now, fate);
    assert FromItsPass(w, m);
  }

  /** A handler leaves the disk alone or puts a token on it that the file had not reached. */
  lemma WatermarkHandles(a: AgentState, m: Message, now: int, fate: Fate)
    requires a.fence <= a.file
    ensures var r := Handle(a, m, now, fate).agent; r.disk == a.disk || r.disk == r.file >= a.file
  {
    hide Admits, Agrees, Total, WholeLoad, Positive, Vector.Fits, Launched, Resized, Halted;
  }

  lemma WriteKeepsAbove(w: World, a: Action, slack: nat)
    requires MayWrite(w, a) && Above(w, slack)
    ensures Above(WriteStep(w, a), slack)
  {
    hide MayInsert, MayReserve, OwnRow, NoLiveRow, Storable;
  }

  lemma HappenKeepsAbove(w: World, a: Action, slack: nat)
    requires Tokens(w) && MayHappen(w, a) && !a.Deliver? && Above(w, slack)
    requires a.Restore? ==> WithinReach(w, a.backup, slack)
    ensures Above(Happen(w, a), slack)
  {
    hide ByPass, Ordered, FromItsPass, BelowPass, PassTokens, Handle;
  }

  lemma NextKeepsAbove(w: World, a: Action, slack: nat)
    requires Tokens(w) && Enabled(w, a) && Above(w, slack)
    requires a.Restore? ==> WithinReach(w, a.backup, slack)
    ensures Above(Next(w, a), slack)
  {
    hide Above, PassStep, WriteStep, Happen, MayPass, MayWrite, Tokens;
    if Passing(a) {
      PassKeepsAbove(w, a, slack);
    } else if Writing(a) {
      WriteKeepsAbove(w, a, slack);
    } else if a.Deliver? {
      DeliverKeepsAbove(w, a.message, a.now, a.fate, a.replied, slack);
    } else {
      HappenKeepsAbove(w, a, slack);
    }
  }

  lemma {:induction false} StaysAbove(worlds: seq<World>, actions: seq<Action>, n: nat, slack: nat)
    requires IsRun(worlds, actions) && n < |worlds| && RestoresReach(worlds, actions, n, slack)
    ensures Above(worlds[n], slack)
  {
    hide Next, Enabled, Tokens, Rows, Staffed, Room, WithinReach;
    if n > 0 {
      hide Above;
      StaysAbove(worlds, actions, n - 1, slack);
      EveryStateFits(worlds, actions, n - 1);
      assert StepAt(worlds, actions, n - 1);
      NextKeepsAbove(worlds[n - 1], actions[n - 1], slack);
    }
  }

  lemma NextKeepsOrder(w: World, a: Action)
    requires Tokens(w) && Enabled(w, a) && Above(w, 1) && ByToken(w.accepted)
    ensures ByToken(Next(w, a).accepted)
  {
    hide Handle, MayWrite, MayPass, ByPass, PassTokens, FromItsPass, Ordered, Closed, Answered, Known, Exceeds;
    if a.Deliver? {
      HandleIsWell(w.agent, a.message, a.now, a.fate);
      assert forall i | 0 <= i < |w.accepted| :: w.accepted[i] in w.accepted && StillKnown(w, w.accepted[i]);
    }
  }

  /**
  Accepted tokens never decrease, over passes, restarts, power losses and restores, if at every
  restore no accepted token is more than one past what backup and file still know.
  */
  lemma {:induction false} AcceptedTokensNeverDecrease(worlds: seq<World>, actions: seq<Action>, n: nat)
    requires IsRun(worlds, actions) && n < |worlds| && RestoresReach(worlds, actions, n, 1)
    ensures ByToken(worlds[n].accepted)
  {
    hide Next, Enabled, Tokens, Rows, Staffed, Room, Above, WithinReach;
    if n > 0 {
      AcceptedTokensNeverDecrease(worlds, actions, n - 1);
      EveryStateFits(worlds, actions, n - 1);
      StaysAbove(worlds, actions, n - 1, 1);
      assert StepAt(worlds, actions, n - 1);
      NextKeepsOrder(worlds[n - 1], actions[n - 1]);
    }
  }

  /** When a pass has its token, no command the Agent ever accepted carries one as large, if restores reach every accepted token. */
  lemma PassTokenIsNewest(worlds: seq<World>, actions: seq<Action>, n: nat, m: Message)
    requires IsRun(worlds, actions) && n < |actions| && actions[n].Settle? && RestoresReach(worlds, actions, n, 0)
    requires m in worlds[n].accepted
    ensures worlds[n + 1].pass.Some? && m.command.token < worlds[n + 1].pass.value.token
  {
    hide Rows, Staffed, Room, ByPass, FromItsPass, Ordered, BelowPass, Known, WithinReach;
    StaysAbove(worlds, actions, n, 0);
    EveryStateFits(worlds, actions, n);
    assert StepAt(worlds, actions, n);
    assert StillKnown(worlds[n], m);
  }

  // ---------------------------------------------------------------- how a token can be forgotten

  /** The watermark is at least every token accepted so far. */
  predicate Remembers(w: World, watermark: nat) {
    forall m | m in w.accepted :: m.command.token <= watermark
  }

  /** No power loss comes while an accepted token is not yet on the disk. */
  predicate NothingForgotten(worlds: seq<World>, actions: seq<Action>, n: nat)
    requires n <= |actions| < |worlds|
  {
    forall i | 0 <= i < n && actions[i].PowerLoss? :: Remembers(worlds[i], worlds[i].agent.disk)
  }

  /** An accepted token is on the disk exactly when it was there before, or this very command made the Agent write it. */
  lemma AcceptedIsOnDisk(a: AgentState, c: Command, now: int, fate: Fate)
    requires a.fence <= a.file && Accept(a, c, now, fate).accepted
    ensures Accept(a, c, now, fate).agent.disk >= c.token <==> a.disk >= c.token || a.file < c.token
  {
  }

  lemma NextRemembers(w: World, a: Action)
    requires Tokens(w) && Enabled(w, a) && Remembers(w, w.agent.file)
    requires a.PowerLoss? ==> Remembers(w, w.agent.disk)
    ensures Remembers(Next(w, a), Next(w, a).agent.file)
  {
    hide Handle, MayWrite, MayPass, ByPass, PassTokens, StillKnown, FromItsPass, Ordered, Closed, Answered;
    if a.Deliver? { HandleIsWell(w.agent, a.message, a.now, a.fate); }
  }

  lemma {:induction false} FileRemembers(worlds: seq<World>, actions: seq<Action>, n: nat)
    requires IsRun(worlds, actions) && n < |worlds| && NothingForgotten(worlds, actions, n)
    ensures Remembers(worlds[n], worlds[n].agent.file)
  {
    hide Next, Enabled, Tokens, Rows, Staffed, Room, Remembers;
    if n > 0 {
      FileRemembers(worlds, actions, n - 1);
      EveryStateFits(worlds, actions, n - 1);
      assert StepAt(worlds, actions, n - 1);
      NextRemembers(worlds[n - 1], actions[n - 1]);
    } else {
      NothingAccepted(worlds[0]);
    }
  }

  lemma NothingAccepted(w: World)
    requires Initial(w)
    ensures Remembers(w, w.agent.file)
  {
  }

  /** Restores of any backups are within reach as long as no power loss ever made the Agent forget. */
  lemma DurableTokensAreReached(worlds: seq<World>, actions: seq<Action>, n: nat)
    requires IsRun(worlds, actions) && n < |worlds| && NothingForgotten(worlds, actions, n)
    ensures RestoresReach(worlds, actions, n, 0)
  {
    hide Initial, StepAt;
    forall i | 0 <= i < n && actions[i].Restore? ensures WithinReach(worlds[i], actions[i].backup, 0) {
      FileRemembers(worlds, actions, i);
    }
  }

  lemma Extended(worlds: seq<World>, actions: seq<Action>, a: Action)
    requires IsRun(worlds, actions) && Enabled(worlds[|worlds| - 1], a)
    ensures IsRun(worlds + [Next(worlds[|worlds| - 1], a)], actions + [a])
  {
    hide Next, Enabled, Initial;
    var longer, more := worlds + [Next(worlds[|worlds| - 1], a)], actions + [a];
    forall i | 0 <= i < |more| ensures StepAt(longer, more, i) {
      if i < |actions| { assert StepAt(worlds, actions, i); }
    }
  }

  /** One more step of a run that is being built. */
  lemma Step(worlds: seq<World>, actions: seq<Action>, a: Action) returns (longer: seq<World>, more: seq<Action>)
    requires IsRun(worlds, actions) && Enabled(worlds[|worlds| - 1], a)
    ensures IsRun(longer, more) && worlds <= longer && more == actions + [a]
    ensures longer[|longer| - 1] == Next(worlds[|worlds| - 1], a)
  {
    hide Next, Enabled;
    Extended(worlds, actions, a);
    longer, more := worlds + [Next(worlds[|worlds| - 1], a)], actions + [a];
  }

  /** A longer run in which nothing is restored after the shorter one. */
  ghost predicate Continues(worlds: seq<World>, actions: seq<Action>, longer: seq<World>, more: seq<Action>) {
    && IsRun(longer, more) && worlds <= longer && actions <= more
    && forall i | |actions| <= i < |more| :: !more[i].Restore?
  }

  function NextToken(w: World): nat {
    Max(w.db.counter, w.agent.file) + 1
  }

  /** A pass as far as its token. */
  lemma TakesToken(worlds: seq<World>, actions: seq<Action>) returns (longer: seq<World>, more: seq<Action>)
    requires IsRun(worlds, actions)
    requires var w := worlds[|worlds| - 1]; w.pass.None? && w.agent.fence <= w.agent.file
    ensures Continues(worlds, actions, longer, more) && |more| > 0 && more[|more| - 1] == Settle
    ensures var w, w' := worlds[|worlds| - 1], longer[|longer| - 1]; var token := NextToken(w);
            w' == w.(db := w.db.(counter := token), passes := w.passes + 1, agent := Read(w.agent),
                     pass := Some(Pass(w.passes + 1, token, false, map[], Settled)))
  {
    hide StepAt, Initial;
    longer, more := Step(worlds, actions, Begin);
    longer, more := Step(longer, more, Hear);
    longer, more := Step(longer, more, Settle);
  }

  function Telling(token: nat): Command {
    Command("node", 1, token, 1)
  }

  /** A pass that tells the Agent its first command, as far as the sending of it. */
  lemma Announces(worlds: seq<World>, actions: seq<Action>) returns (longer: seq<World>, more: seq<Action>)
    requires IsRun(worlds, actions)
    requires var w := worlds[|worlds| - 1]; w.pass.None? && w.agent.fence <= w.agent.file
    ensures Continues(worlds, actions, longer, more)
    ensures var w, w' := worlds[|worlds| - 1], longer[|longer| - 1]; var token := NextToken(w);
            var m := Message(w.passes + 1, Telling(token), Drain(false));
            w' == w.(db := w.db.(counter := token), passes := w.passes + 1, agent := Read(w.agent),
                inflight := w.inflight + {m},
                     pass := Some(Pass(w.passes + 1, token, false, map[], Settled)))
  {
    hide StepAt, Initial;
    longer, more := TakesToken(worlds, actions);
    longer, more := Step(longer, more, Send(Telling(NextToken(worlds[|worlds| - 1])), Drain(false)));
  }

  /** The next pass's first command is accepted, with the smallest token the controller can take. */
  lemma AcceptsNext(worlds: seq<World>, actions: seq<Action>) returns (longer: seq<World>, more: seq<Action>)
    requires IsRun(worlds, actions)
    requires var w := worlds[|worlds| - 1]; w.pass.None? && w.agent.fence <= w.agent.file
    ensures Continues(worlds, actions, longer, more)
    ensures var w := worlds[|worlds| - 1];
            longer[|longer| - 1].accepted == w.accepted + [Message(w.passes + 1, Telling(NextToken(w)), Drain(false))]
  {
    hide StepAt, Initial;
    longer, more := Announces(worlds, actions);
    var w := worlds[|worlds| - 1];
    var telling := Message(w.passes + 1, Telling(NextToken(w)), Drain(false));
    longer, more := Step(longer, more, Deliver(telling, 0, Fate(true, true, Synced, true), false));
  }

  /** A run with a restore at its end, and how it goes on without another one. */
  lemma ContinuedWithinReach(worlds: seq<World>, actions: seq<Action>, b: Backup, slack: nat, longer: seq<World>,
      more: seq<Action>)
    requires IsRun(worlds, actions) && RestoresReach(worlds, actions, |actions|, slack)
              && WithinReach(worlds[|worlds| - 1], b, slack)
    requires Continues(worlds, actions + [Restore(b)], longer, more)
    ensures RestoresReach(longer, more, |more|, slack)
  {
    hide StepAt, Initial, WithinReach;
    forall i | 0 <= i < |more| && more[i].Restore? ensures WithinReach(longer[i], more[i].backup, slack) {
      assert i < |actions| + 1;
      assert longer[i] == worlds[i] && more[i] == (actions + [Restore(b)])[i];
    }
  }

  /**
  The condition is exact. After a run whose restores were within reach, a backup may be restored
  without accepted tokens ever decreasing, however the run goes on, just when that restore is
  within reach too.
  */
  lemma TokensNeverDecreaseJustWithinReach(worlds: seq<World>, actions: seq<Action>, b: Backup)
    requires IsRun(worlds, actions) && RestoresReach(worlds, actions, |actions|, 1)
    requires Enabled(worlds[|worlds| - 1], Restore(b))
    ensures WithinReach(worlds[|worlds| - 1], b, 1) <==>
              forall longer: seq<World>, more: seq<Action> | Continues(worlds, actions + [Restore(b)], longer, more) ::
                ByToken(longer[|longer| - 1].accepted)
  {
    hide StepAt, Initial, Enabled, Next;
    var w := worlds[|worlds| - 1];
    if WithinReach(w, b, 1) {
      forall longer: seq<World>, more: seq<Action> | Continues(worlds, actions + [Restore(b)], longer, more)
        ensures ByToken(longer[|longer| - 1].accepted)
      {
        ContinuedWithinReach(worlds, actions, b, 1, longer, more);
        AcceptedTokensNeverDecrease(longer, more, |longer| - 1);
      }
    } else {
      var longer, more := Step(worlds, actions, Restore(b));
      RestoredState(w, b);
      longer, more := AcceptsNext(longer, more);
      var accepted := longer[|longer| - 1].accepted;
      var m :| m in w.accepted && m.command.token > Reach(w.agent, b) + 1;
      var i :| 0 <= i < |w.accepted| && w.accepted[i] == m;
      assert accepted[i].command.token > accepted[|w.accepted|].command.token;
      assert Continues(worlds, actions + [Restore(b)], longer, more);
    }
  }

  lemma RestoredState(w: World, b: Backup)
    requires Enabled(w, Restore(b))
    ensures var w' := Next(w, Restore(b));
            w'.pass.None? && w'.agent.fence == 0 && w'.accepted == w.accepted && NextToken(w') == Reach(w.agent, b) + 1
  {
  }

  /** The same for passes: they all take tokens above everything accepted before just when the restore reaches every accepted token. */
  lemma PassTokensAreNewestJustWithinReach(worlds: seq<World>, actions: seq<Action>, b: Backup)
    requires IsRun(worlds, actions) && RestoresReach(worlds, actions, |actions|, 0)
    requires Enabled(worlds[|worlds| - 1], Restore(b))
    ensures WithinReach(worlds[|worlds| - 1], b, 0) <==>
              forall longer: seq<World>, more: seq<Action> | Continues(worlds, actions + [Restore(b)], longer, more)
                  && more[|more| - 1].Settle? ::
                TokenIsNewest(longer[|longer| - 1])
  {
    hide StepAt, Initial, Enabled, Next;
    var w := worlds[|worlds| - 1];
    if WithinReach(w, b, 0) {
      forall longer: seq<World>, more: seq<Action> | Continues(worlds, actions + [Restore(b)], longer, more)
          && more[|more| - 1].Settle?
        ensures TokenIsNewest(longer[|longer| - 1])
      {
        ContinuedWithinReach(worlds, actions, b, 0, longer, more);
        SettledIsNewest(longer, more);
      }
    } else {
      var longer, more := Step(worlds, actions, Restore(b));
      RestoredState(w, b);
      longer, more := TakesToken(longer, more);
      var m :| m in w.accepted && m.command.token > Reach(w.agent, b);
      assert Continues(worlds, actions + [Restore(b)], longer, more) && !TokenIsNewest(longer[|longer| - 1]);
    }
  }

  predicate TokenIsNewest(w: World) {
    w.pass.Some? && forall m | m in w.accepted :: m.command.token < w.pass.value.token
  }

  lemma SettledIsNewest(worlds: seq<World>, actions: seq<Action>)
    requires IsRun(worlds, actions) && |actions| > 0 && actions[|actions| - 1].Settle?
              && RestoresReach(worlds, actions, |actions|, 0)
    ensures TokenIsNewest(worlds[|worlds| - 1])
  {
    hide Initial;
    var n := |actions| - 1;
    assert StepAt(worlds, actions, n);
    forall m | m in worlds[n].accepted ensures m.command.token < worlds[n + 1].pass.value.token {
      PassTokenIsNewest(worlds, actions, n, m);
    }
    SettleSettles(worlds[n]);
  }

  lemma SettleSettles(w: World)
    requires Enabled(w, Settle)
    ensures Next(w, Settle).accepted == w.accepted && Next(w, Settle).pass.Some?
  {
  }

  const NODE := AgentState("node", "", ZERO, 0, 0, 0, false, map[])
  const START := World(Database(0, map[], map[]), {}, NODE, 1, {}, None, 0, 0, [])
  const SECOND := Message(2, Telling(2), Drain(false))
  const THIRD := Message(3, Telling(1), Drain(false))

  lemma SecondPassAnnounces() returns (worlds: seq<World>, actions: seq<Action>)
    ensures IsRun(worlds, actions) && |worlds| > 0
    ensures var w := worlds[|worlds| - 1];
            && w.accepted == [] && w.passes == 2 && w.epoch == 0 && w.agent == NODE
            && w.inflight == {SECOND} && Backup(START.db, 0) in w.backups
  {
    hide IsRun, MayWrite, WriteStep;
    worlds, actions := Alone(START);
    worlds, actions := Step(worlds, actions, TakeBackup);
    worlds, actions := Step(worlds, actions, Begin);
    worlds, actions := Step(worlds, actions, Abandon);
    worlds, actions := Announces(worlds, actions);
  }

  /** The second pass's command is accepted although the directory that names it was never synced. */
  lemma AcceptedUnsynced() returns (worlds: seq<World>, actions: seq<Action>)
    ensures IsRun(worlds, actions) && |worlds| > 0
    ensures var w := worlds[|worlds| - 1];
            && w.accepted == [SECOND] && w.passes == 2 && Backup(START.db, 0) in w.backups
            && w.agent.disk == 0 && w.agent.workers == map[]
  {
    hide IsRun, MayWrite, WriteStep;
    worlds, actions := SecondPassAnnounces();
    worlds, actions := Step(worlds, actions, Deliver(SECOND, 0, Fate(true, true, Unsynced, true), false));
    worlds, actions := Step(worlds, actions, Deliver(SECOND, 0, Fate(true, true, Unsynced, true), false));
  }

  /**
  A restore beyond reach, and how it comes about. A backup is taken; the second pass's command is
  renamed into place but the directory is not synced, and the same request, arriving again, is
  accepted because the token is read back; the power fails, and the old backup is restored.
  */
  lemma TokensCanDecrease() returns (worlds: seq<World>, actions: seq<Action>)
    ensures IsRun(worlds, actions) && |worlds| > 0 && !ByToken(worlds[|worlds| - 1].accepted)
  {
    hide IsRun, MayWrite, WriteStep;
    worlds, actions := AcceptedUnsynced();
    worlds, actions := Step(worlds, actions, PowerLoss);
    worlds, actions := Step(worlds, actions, Restore(Backup(START.db, 0)));
    worlds, actions := Announces(worlds, actions);
    worlds, actions := Step(worlds, actions, Deliver(THIRD, 0, Fate(true, true, Synced, true), false));
    var accepted := worlds[|worlds| - 1].accepted;
    assert accepted == [SECOND, THIRD] && accepted[0].command.token > accepted[1].command.token;
  }

  lemma Alone(w: World) returns (worlds: seq<World>, actions: seq<Action>)
    requires Initial(w)
    ensures IsRun(worlds, actions) && worlds == [w]
  {
    worlds, actions := [w], [];
  }

  // ---------------------------------------------------------------- allocations and workers

  /**
  However requests were lost or repeated and wherever controllers died: a running worker has a
  committed allocation that is still live and at least as new as the worker itself.
  */
  lemma EveryWorkerHasItsRow(worlds: seq<World>, actions: seq<Action>, n: nat, id: string)
    requires IsRun(worlds, actions) && n < |worlds|
    requires id in worlds[n].agent.workers && worlds[n].agent.workers[id].running
    ensures var rows := worlds[n].db.rows;
            id in rows && rows[id].Live() && rows[id].wanted
                && worlds[n].agent.workers[id].spec.generation <= rows[id].generation
  {
    hide Tokens, Room, PassStaffed, Committed, TableRoom, OneEach, IsRun;
    EveryStateFits(worlds, actions, n);
    assert HasRow(worlds[n].db, id, worlds[n].agent.workers[id]) && RowFits(worlds[n].db.rows[id]);
  }

  lemma OneLiveRowPerSession(worlds: seq<World>, actions: seq<Action>, n: nat, session: string, a: string, b: string)
    requires IsRun(worlds, actions) && n < |worlds|
    requires LiveRowOf(worlds[n].db, session, a) && LiveRowOf(worlds[n].db, session, b)
    ensures a == b
  {
    hide Tokens, Room, Staffed, TableRoom, IsRun;
    EveryStateFits(worlds, actions, n);
  }

  /** Neither the live allocations nor the running workers of the node ever need more than it has. */
  lemma NodeIsNeverOverloaded(worlds: seq<World>, actions: seq<Action>, n: nat)
    requires IsRun(worlds, actions) && n < |worlds|
    ensures var agent := worlds[n].agent;
            && (LiveHere(worlds[n].db.rows, agent.node) == map[]
                || Total(LiveHere(worlds[n].db.rows, agent.node)).Fits(agent.capacity))
            && (Load(agent.workers, agent.node) == map[] || Total(Load(agent.workers, agent.node)).Fits(agent.capacity))
  {
    hide Tokens, Staffed, Table, OneEach, Total, Vector.Fits, WellFormed, IsRun;
    EveryStateFits(worlds, actions, n);
  }

  // ---------------------------------------------------------------- what a finished pass leaves

  /** Neither another part of the application nor anyone else stops a session in this step. */
  ghost predicate Harmless(w: World, a: Action) {
    a.Outside? ==> forall s | WantedSession(w.db.sessions, s) :: WantedSession(a.sessions, s)
  }

  /** The start is for an allocation the sweep would keep. */
  predicate StartIsWanted(w: World, p: Pass, m: Message) {
    m.order.StartWorker? && m.pass == p.no ==> Kept(w.db, m.order.spec.allocation)
  }

  predicate WorkerIsWanted(w: World, left: set<string>, id: string)
    requires id in w.agent.workers
  {
    w.agent.workers[id].running && w.agent.workers[id].spec.node == w.agent.node ==> id in left || Kept(w.db, id)
  }

  /** From the moment a pass lists the sessions until it ends. */
  predicate Calm(w: World) {
    w.pass.Some? && Listed(w.pass.value.stage) ==>
      var p := w.pass.value;
      && (forall m | m in w.inflight :: StartIsWanted(w, p, m))
      && (forall s | s in p.todo && p.todo[s] :: WantedSession(w.db.sessions, s))
      && (p.stage.Working? && p.stage.wanted ==> WantedSession(w.db.sessions, p.stage.session))
      && (p.stage.Sweeping? ==> forall id | id in w.agent.workers :: WorkerIsWanted(w, p.stage.left, id))
  }

  lemma ListingIsCalm(w: World)
    requires Inv(w) && MayPass(w, ListSessions)
    ensures Calm(PassStep(w, ListSessions))
  {
    hide Tokens, Rows, Room;
  }

  lemma PassKeepsCalm(w: World, a: Action)
    requires Inv(w) && Calm(w) && MayPass(w, a)
    ensures Calm(PassStep(w, a))
  {
    hide TableRoom, OneEach, Room, Tokens;
    if a.ListSessions? { ListingIsCalm(w); }
  }

  lemma WriteKeepsCalm(w: World, a: Action)
    requires Inv(w) && Calm(w) && MayWrite(w, a)
    ensures Calm(WriteStep(w, a))
  {
    hide TableRoom, OneEach, Room, Tokens, MayInsert, MayReserve, Storable;
    var after, p := WriteStep(w, a), w.pass.value;
    forall m | m in after.inflight ensures StartIsWanted(after, after.pass.value, m) {
      assert StartIsWanted(w, p, m) && DoneWith(w, p, m);
    }
  }

  lemma DeliverKeepsCalm(w: World, m: Message, now: int, fate: Fate, replied: bool)
    requires Inv(w) && Calm(w) && m in w.inflight
    ensures Calm(Happen(w, Deliver(m, now, fate, replied)))
  {
    hide Handle, Rows, Room, ByPass, StillKnown, Ordered;
    HandleIsWell(w.agent, m, now, fate);
    var after := Happen(w, Deliver(m, now, fate, replied));
    if after.pass.Some? && after.pass.value.stage.Sweeping? {
      var p := w.pass.value;
      assert StartIsWanted(w, p, m) && BelowPass(p, m) && FromItsPass(w, m);
      forall id | id in after.agent.workers ensures WorkerIsWanted(after, after.pass.value.stage.left, id) {
        if id in w.agent.workers { assert WorkerIsWanted(w, p.stage.left, id); }
      }
    }
  }

  lemma HappenKeepsCalm(w: World, a: Action)
    requires Inv(w) && Calm(w) && MayHappen(w, a) && Harmless(w, a)
    ensures Calm(Happen(w, a))
  {
    hide Handle, Inv;
    if a.Deliver? { DeliverKeepsCalm(w, a.message, a.now, a.fate, a.replied); }
  }

  lemma NextKeepsCalm(w: World, a: Action)
    requires Inv(w) && Calm(w) && Enabled(w, a) && Harmless(w, a)
    ensures Calm(Next(w, a))
  {
    hide Inv, Calm, PassStep, WriteStep, Happen, MayPass, MayWrite, MayHappen, Harmless;
    if Passing(a) { PassKeepsCalm(w, a); } else if Writing(a) { WriteKeepsCalm(w, a); } else { HappenKeepsCalm(w, a); }
  }

  lemma {:induction false} StaysCalm(worlds: seq<World>, actions: seq<Action>, i: nat, k: nat)
    requires IsRun(worlds, actions) && i < k < |worlds| && actions[i].ListSessions?
    requires forall j | i < j < k :: Harmless(worlds[j], actions[j])
    ensures Calm(worlds[k])
  {
    hide Inv, Calm, Next, Enabled, Initial, Harmless;
    EveryStateFits(worlds, actions, k - 1);
    assert StepAt(worlds, actions, k - 1);
    if i + 1 < k {
      StaysCalm(worlds, actions, i, k - 1);
      NextKeepsCalm(worlds[k - 1], actions[k - 1]);
    } else {
      StepLists(worlds[i]);
      ListingIsCalm(worlds[i]);
    }
  }

  lemma StepLists(w: World)
    requires Enabled(w, ListSessions)
    ensures MayPass(w, ListSessions) && Next(w, ListSessions) == PassStep(w, ListSessions)
  {
  }

  /**
  A pass that comes to its end leaves running only workers whose allocation and session are both
  wanted, if nobody stopped a session since the pass listed them; requests of this and earlier
  passes may have been delayed into its sweep.
  */
  lemma FinishedPassLeavesOnlyWanted(worlds: seq<World>, actions: seq<Action>, i: nat, k: nat, id: string)
    requires IsRun(worlds, actions) && i < k < |actions| && actions[i].ListSessions? && actions[k].Finish?
    requires forall j | i < j < k :: Harmless(worlds[j], actions[j])
    requires var agent := worlds[k + 1].agent; id in agent.workers && agent.workers[id].running && agent.workers[id].spec.node == agent.node
    ensures var db := worlds[k + 1].db;
            && id in db.rows && db.rows[id].wanted && db.rows[id].session in db.sessions
            && db.sessions[db.rows[id].session].wanted && !db.sessions[db.rows[id].session].ended
  {
    hide Initial, WriteStep, Happen;
    StaysCalm(worlds, actions, i, k);
    assert StepAt(worlds, actions, k);
    assert WorkerIsWanted(worlds[k], {}, id);
  }

  // ---------------------------------------------------------------- what is ended stays ended

  lemma EndedForAStep(w: World, a: Action, s: string)
    requires Enabled(w, a) && !a.Outside? && !a.Restore? && s in w.db.sessions && w.db.sessions[s].ended
    ensures s in Next(w, a).db.sessions && Next(w, a).db.sessions[s].ended
  {
    hide MayInsert, MayReserve, Handle, Ended, OwnRow, NoLiveRow;
  }

  /** As long as nobody else changes the sessions, a session that a pass has ended stays ended. */
  lemma {:induction false} EndedStaysEnded(worlds: seq<World>, actions: seq<Action>, i: nat, k: nat, s: string)
    requires IsRun(worlds, actions) && i <= k < |worlds|
    requires forall j | i <= j < k :: !actions[j].Outside? && !actions[j].Restore?
    requires s in worlds[i].db.sessions && worlds[i].db.sessions[s].ended
    ensures s in worlds[k].db.sessions && worlds[k].db.sessions[s].ended
  {
    hide Next, Enabled, Initial;
    if i < k {
      EndedStaysEnded(worlds, actions, i, k - 1, s);
      assert StepAt(worlds, actions, k - 1);
      EndedForAStep(worlds[k - 1], actions[k - 1], s);
    }
  }
}
