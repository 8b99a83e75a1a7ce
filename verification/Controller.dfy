/**
The controller: one pass over the sessions and the workers of its
node, written against the database and an `Agent` that it can only send requests to. Every
method is proved to move along steps of the control loop, so the theorems about runs hold of
what it does, whatever the Agent, the network and the rest of the application do in between.
*/
module Controlling {
  import opened Options
  import opened Resources
  import opened Agents
  import opened AgentHandlers
  import opened ControlLoop
  import opened ControlSafety
  import opened ControlTheorems

  const DEADLINE := 45

  /**
  What a pass reads of a stream and of the clock: how many destinations it has and the bandwidth
  of its profile, the digest of its configuration, the id a new allocation would get, and whether the worker answers its status, may
  be inspected at all, has been up for a minute, is still in its grace, or may be tried again yet.
  */
  datatype Reading = Reading(
    outputs: nat, kilobits: nat, hash: nat, image: string, drawn: string,
    inspectable: bool, reporting: bool, steady: bool, graced: bool, due: bool)

  /** The worker runs under the generation its allocation asks for. */
  predicate Current(row: Row, worker: Option<Worker>) {
    worker.Some? && worker.value.running && worker.value.spec.generation == row.generation
  }

  /** What one look at a worker makes of its allocation; `done` tells whether the requests it takes were answered. */
  function Adjusted(row: Row, worker: Option<Worker>, r: Reading, token: nat, done: bool): (after: Row)
    ensures after.session == row.session && after.node == row.node && after.resources == row.resources
  {
    var current, changed := Current(row, worker), row.hash != r.hash;
    if !r.inspectable then row
    else if current && r.reporting then
      if changed then (if done then row.(hash := r.hash) else row)
      else row.(state := Running, restarts := if r.steady then 0 else row.restarts)
    else if !r.due || (current && !changed && r.graced) then row
    else if row.restarts >= RESTARTS && !changed then (if done then row.(wanted := false, state := Failed) else row)
    else row.(generation := if worker.Some? || changed then row.generation + 1 else row.generation,
              hash := r.hash, token := token, state := Starting, restarts := row.restarts + 1)
  }

  /**
  A live process of the expected generation and configuration is adopted, never replaced; whatever
  replaces a process or changes what it runs has a generation no process had before.
  */
  lemma AdoptedOrFresh(row: Row, worker: Option<Worker>, r: Reading, token: nat, done: bool)
    requires row.Live() && (worker.Some? ==> worker.value.spec.generation <= row.generation)
    ensures var after := Adjusted(row, worker, r, token, done);
            && after.generation >= row.generation
            && (r.inspectable && Current(row, worker) && row.hash == r.hash && r.reporting ==>
                after.generation == row.generation && after.state.Running?)
            && (after.restarts > row.restarts && worker.Some? ==> after.generation > worker.value.spec.generation)
            && (!after.Live() ==>
                after.state.Failed? && !after.wanted && row.restarts >= RESTARTS && row.hash == r.hash && done)
  {
  }

  /** In each of its cases: what makes an allocation run on, wait, start again or fail. */
  lemma AdjustedByCase(row: Row, worker: Option<Worker>, r: Reading, token: nat, done: bool)
    ensures var after := Adjusted(row, worker, r, token, done);
            && (!r.inspectable || Waits(row, worker, r) ==> after == row)
            && (r.inspectable && Healthy(row, worker, r) && row.hash == r.hash ==>
                  after == row.(state := Running, restarts := if r.steady then 0 else row.restarts))
            && (r.inspectable && Healthy(row, worker, r) && row.hash != r.hash ==>
                  after == if done then row.(hash := r.hash) else row)
            && (r.inspectable && Spent(row, worker, r) ==>
                  after == if done then row.(wanted := false, state := Failed) else row)
            && (r.inspectable && ToStart(row, worker, r) ==>
                  after == row.(generation := NewGeneration(row, worker, r), hash := r.hash, token := token,
                                state := Starting, restarts := row.restarts + 1))
  {
  }

  // What there is to do for an allocation, in plain terms; exactly one of the four holds.

  /** A process of the right generation runs and answers. */
  predicate Healthy(row: Row, worker: Option<Worker>, r: Reading) {
    worker.Some? && worker.value.running && worker.value.spec.generation == row.generation && r.reporting
  }

  /** It is too early: for another try at all, or to judge a process that has the right configuration. */
  predicate Waits(row: Row, worker: Option<Worker>, r: Reading) {
    && !Healthy(row, worker, r)
    && (!r.due || (worker.Some? && worker.value.running && worker.value.spec.generation == row.generation
                   && row.hash == r.hash && r.graced))
  }

  /** It has been started five times over with this configuration. */
  predicate Spent(row: Row, worker: Option<Worker>, r: Reading) {
    !Healthy(row, worker, r) && !Waits(row, worker, r) && row.restarts >= 5 && row.hash == r.hash
  }

  predicate ToStart(row: Row, worker: Option<Worker>, r: Reading) {
    !Healthy(row, worker, r) && !Waits(row, worker, r) && (row.restarts < 5 || row.hash != r.hash)
  }

  function NewGeneration(row: Row, worker: Option<Worker>, r: Reading): nat {
    if worker.Some? || row.hash != r.hash then row.generation + 1 else row.generation
  }

  /** The pass has sent this request. */
  ghost predicate Sent(network: set<Message>, no: nat, id: string, generation: nat, token: nat,
      order: ControlLoop.Order) {
    exists m | m in network :: m.pass == no && m.order == order
      && m.command.resource == id && m.command.generation == generation && m.command.token == token
  }

  /** From step `from` on, the Agent carried the request out and its answer came. */
  ghost predicate CarriedOut(worlds: seq<World>, actions: seq<Action>, from: nat, m: Message) {
    exists i | from <= i < |actions| && i < |worlds| ::
      && actions[i].Deliver? && actions[i].message == m && actions[i].replied
      && Handle(worlds[i].agent, m, actions[i].now, actions[i].fate).ok
  }

  lemma JustCarriedOut(before: seq<World>, was: seq<Action>, worlds: seq<World>, actions: seq<Action>, m: Message,
      now: int, fate: Fate)
    requires IsRun(before, was) && before <= worlds && actions == was + [Deliver(m, now, fate, true)]
    requires Handle(before[|before| - 1].agent, m, now, fate).ok
    ensures CarriedOut(worlds, actions, |was|, m)
  {
    hide Handle, StepAt, Initial;
    assert actions[|was|] == Deliver(m, now, fate, true) && worlds[|was|] == before[|before| - 1];
  }

  lemma StaysCarriedOut(worlds: seq<World>, actions: seq<Action>, from: nat, m: Message, longer: seq<World>,
      more: seq<Action>, earlier: nat)
    requires CarriedOut(worlds, actions, from, m) && worlds <= longer && actions <= more && earlier <= from
    ensures CarriedOut(longer, more, earlier, m)
  {
    hide Handle;
    var i :| from <= i < |actions| && i < |worlds| && actions[i].Deliver? && actions[i].message == m
             && actions[i].replied && Handle(worlds[i].agent, m, actions[i].now, actions[i].fate).ok;
    assert more[i] == actions[i] && longer[i] == worlds[i];
  }

  /** The same for some request of the pass with this order. */
  ghost predicate Obeyed(worlds: seq<World>, actions: seq<Action>, from: nat, no: nat, id: string, generation: nat,
      token: nat, order: ControlLoop.Order) {
    exists m | CarriedOut(worlds, actions, from, m) :: m.pass == no && m.order == order
      && m.command.resource == id && m.command.generation == generation && m.command.token == token
  }

  lemma StaysObeyed(worlds: seq<World>, actions: seq<Action>, from: nat, no: nat, id: string, generation: nat,
      token: nat, order: ControlLoop.Order, longer: seq<World>, more: seq<Action>, earlier: nat)
    requires Obeyed(worlds, actions, from, no, id, generation, token, order)
    requires worlds <= longer && actions <= more && earlier <= from
    ensures Obeyed(longer, more, earlier, no, id, generation, token, order)
  {
    hide CarriedOut;
    var m :| CarriedOut(worlds, actions, from, m) && m.pass == no && m.order == order
      && m.command.resource == id && m.command.generation == generation && m.command.token == token;
    StaysCarriedOut(worlds, actions, from, m, longer, more, earlier);
  }

  /** Of the worker `id`, and of no other, nothing but these orders has been asked since. */
  ghost predicate OnlyAsked(before: set<Message>, network: set<Message>, no: nat, id: string, token: nat,
      orders: set<ControlLoop.Order>) {
    forall m | m in network && m !in before ::
      m.pass == no && m.command.resource == id && m.command.token == token && m.order in orders
  }

  /** The orders that an allocation may call for, as far as they are answered. */
  function Orders(s: string, id: string, row: Row, worker: Option<Worker>, r: Reading,
      token: nat): set<ControlLoop.Order> {
    if !r.inspectable || Waits(row, worker, r) then {}
    else if Healthy(row, worker, r) then (if row.hash == r.hash then {} else {Redirect(row.resources), Reslate})
    else if Spent(row, worker, r) then {StopWorker}
    else
      var generation := NewGeneration(row, worker, r);
      {StartWorker(Spec(id, s, row.node, r.image, generation, token, row.resources))}
  }

  /** What was asked of the Agent for an allocation that is there and paid for, as far as answers came. */
  ghost predicate Attended(network: set<Message>, no: nat, s: string, id: string, row: Row, worker: Option<Worker>,
      r: Reading, token: nat, done: bool) {
    && (!r.inspectable ==> !done)
    && (r.inspectable && Waits(row, worker, r) ==> done)
    && (r.inspectable && Healthy(row, worker, r) && row.hash == r.hash ==> done)
    && (r.inspectable && Healthy(row, worker, r) && row.hash != r.hash ==>
          && Sent(network, no, id, row.generation, token, Redirect(row.resources))
          && (done ==> Sent(network, no, id, row.generation, token, Reslate)))
    && (r.inspectable && Spent(row, worker, r) ==> Sent(network, no, id, row.generation, token, StopWorker))
    && (r.inspectable && ToStart(row, worker, r) ==>
          var generation := NewGeneration(row, worker, r);
          Sent(network, no, id, generation, token,
               StartWorker(Spec(id, s, row.node, r.image, generation, token, row.resources))))
  }

  /** The allocation is wanted and belongs to a wanted session that has not ended. */
  predicate WantedWorker(db: Database, id: string) {
    && id in db.rows && db.rows[id].wanted && db.rows[id].session in db.sessions
    && db.sessions[db.rows[id].session].wanted && !db.sessions[db.rows[id].session].ended
  }

  /** Since state `from` of the run only workers were asked to stop that were not wanted at the time. */
  ghost predicate StopsUnwanted(worlds: seq<World>, from: nat, before: set<Message>, network: set<Message>) {
    forall m | m in network && m !in before ::
      m.order.StopWorker? && exists j :: from <= j < |worlds| && !WantedWorker(worlds[j].db, m.command.resource)
  }

  lemma NothingStopped(worlds: seq<World>, from: nat, network: set<Message>)
    ensures StopsUnwanted(worlds, from, network, network)
  {
  }

  lemma OneMoreUnwanted(before: seq<World>, worlds: seq<World>, from: nat, start: set<Message>, sent: set<Message>,
      network: set<Message>, j: nat)
    requires StopsUnwanted(before, from, start, sent) && before <= worlds
    requires network == sent || (exists m :: network == sent + {m} && m.order.StopWorker? && from <= j < |worlds|
                                    && !WantedWorker(worlds[j].db, m.command.resource))
    ensures StopsUnwanted(worlds, from, start, network)
  {
    hide WantedWorker;
    forall m | m in network && m !in start
      ensures m.order.StopWorker? && exists j :: from <= j < |worlds| && !WantedWorker(worlds[j].db, m.command.resource)
    {
      if m in sent {
        var k :| from <= k < |before| && !WantedWorker(before[k].db, m.command.resource);
        assert worlds[k] == before[k];
      }
    }
  }

  // What a pass does for one session, in plain terms.

  function AllocatedHere(rows: map<string, Row>, node: string): map<string, Vector> {
    map id | id in rows && rows[id].node == node && rows[id].state != Stopped && rows[id].state != RowState.Failed ::
      rows[id].resources
  }

  predicate FitTheRest(needs: Vector, others: Vector, capacity: Vector) {
    && needs.cpuMillis + others.cpuMillis <= capacity.cpuMillis
    && needs.memoryBytes + others.memoryBytes <= capacity.memoryBytes
    && needs.ingressBps + others.ingressBps <= capacity.ingressBps
    && needs.egressBps + others.egressBps <= capacity.egressBps
  }

  /** The node has a slot, and of everything else what is needed, beside all its live allocations. */
  ghost predicate RoomForNew(w: World, needs: Vector) {
    var here := AllocatedHere(w.db.rows, w.agent.node);
    && |here| < w.slots && |here| < w.agent.capacity.slots
    && FitTheRest(needs, Total(here), w.agent.capacity)
  }

  ghost predicate RoomForOwn(w: World, id: string, needs: Vector) {
    FitTheRest(needs, Total(AllocatedHere(w.db.rows, w.agent.node) - {id}), w.agent.capacity)
  }

  function RowsOf(rows: map<string, Row>, s: string): map<string, Row> {
    map id | id in rows && rows[id].session == s :: rows[id]
  }

  /** The session's live allocation belongs to another node, which this controller leaves alone. */
  ghost predicate Foreign(w: World, s: string) {
    exists id :: LiveRowOf(w.db, s, id) && w.db.rows[id].node != w.agent.node
  }

  /** The worker of the session was asked to stop, which was not answered, and nothing was written. */
  ghost predicate LeftForLater(w: World, after: World, no: nat, s: string, token: nat) {
    && after.db.rows == w.db.rows
    && exists id :: OwnRow(w, s, id) && Sent(after.inflight, no, id, w.db.rows[id].generation, token, StopWorker)
  }

  /** The row is there and paid for: it and its worker are what `Adjusted` and `Attended` say. */
  ghost predicate Tended(w: World, after: World, no: nat, s: string, id: string, row: Row, worker: Option<Worker>,
      r: Reading, token: nat, done: bool) {
    && after.db.rows == w.db.rows[id := Adjusted(row, worker, r, token, done)]
    && OnlyAsked(w.inflight, after.inflight, no, id, token, Orders(s, id, row, worker, r, token))
    && Attended(after.inflight, no, s, id, row, worker, r, token, done)
  }

  function NewRow(s: string, node: string, token: nat, r: Reading, needs: Vector): Row {
    Row(s, node, true, Pending, 1, token, r.hash, 0, needs)
  }

  /** Nothing is asked but that the session's own workers stop. */
  ghost predicate OnlyStops(w: World, after: World, p: Pass, s: string) {
    forall m | m in after.inflight && m !in w.inflight ::
      m.pass == p.no && m.order.StopWorker? && m.command.token == p.token && OwnRow(w, s, m.command.resource)
  }

  /** What becomes of one session, with `w` before and `after` after. */
  ghost predicate Reconciled(w: World, after: World, p: Pass, s: string, wanted: bool, needs: Vector, r: Reading,
      done: bool, worker: Option<Worker>) {
    && (forall other | other != s :: RowsOf(after.db.rows, other) == RowsOf(w.db.rows, other))
    && (Foreign(w, s) ==> done && after.db.rows == w.db.rows && after.inflight == w.inflight)
    && (!wanted || r.outputs == 0 ==> OnlyStops(w, after, p, s))
    && (!Foreign(w, s) && !wanted ==>
          if done then s in after.db.sessions && after.db.sessions[s].ended && NoLiveRow(after.db, s)
          else LeftForLater(w, after, p.no, s, p.token))
    && (!Foreign(w, s) && wanted && r.outputs == 0 ==>
          if done then NoLiveRow(after.db, s) else LeftForLater(w, after, p.no, s, p.token))
    && (wanted && r.outputs > 0 && NoLiveRow(w.db, s) ==>
          if p.draining || !RoomForNew(w, needs) || r.drawn in w.db.rows
          then done && after.db.rows == w.db.rows && after.inflight == w.inflight
          else Tended(w, after, p.no, s, r.drawn, NewRow(s, w.agent.node, p.token, r, needs), worker, r, p.token, done))
    && (forall id | wanted && r.outputs > 0 && OwnRow(w, s, id) ::
          if !RoomForOwn(w, id, needs) then done && after.db.rows == w.db.rows && after.inflight == w.inflight
          else Tended(w, after, p.no, s, id, w.db.rows[id].(resources := needs), worker, r, p.token, done))
  }

  /** The course of one session in a pass: from which to which state of the run, what was read, and how it ended. */
  datatype Report = Report(from: nat, to: nat, wanted: bool, reading: Reading, done: bool, worker: Option<Worker>)

  ghost predicate Reported(worlds: seq<World>, p: Pass, base: Vector, s: string, report: Report) {
    && report.from <= report.to < |worlds|
    && Reconciled(worlds[report.from], worlds[report.to], p, s, report.wanted,
                  Needed(base, report.reading.kilobits, report.reading.outputs), report.reading, report.done,
                      report.worker)
  }

  /** Every session that was listed has been reconciled since, as it was listed. */
  ghost predicate AllReported(worlds: seq<World>, listed: nat, reports: map<string, Report>, p: Pass, base: Vector) {
    && listed < |worlds|
    && (forall s :: s in reports <==> s in worlds[listed].db.sessions && !worlds[listed].db.sessions[s].ended)
    && forall s | s in reports ::
         && listed < reports[s].from && reports[s].wanted == worlds[listed].db.sessions[s].wanted
         && Reported(worlds, p, base, s, reports[s])
  }

  /** Nobody has touched the session's allocations since, and what was sent is still on record. */
  ghost predicate Lasting(worlds: seq<World>, to: nat, rows: map<string, Row>, network: set<Message>, s: string) {
    to < |worlds| && RowsOf(rows, s) == RowsOf(worlds[to].db.rows, s) && worlds[to].inflight <= network
  }

  /** The sessions that were listed and are not to be done any more have been reconciled. */
  ghost predicate SoFar(worlds: seq<World>, listed: nat, todo: map<string, bool>, reports: map<string, Report>, p: Pass,
      base: Vector, rows: map<string, Row>, network: set<Message>) {
    && listed < |worlds|
    && var sessions := worlds[listed].db.sessions;
       && (forall s :: s in reports || s in todo <==> s in sessions && !sessions[s].ended)
       && (forall s | s in todo :: s !in reports && todo[s] == sessions[s].wanted)
       && forall s | s in reports ::
            && listed < reports[s].from && reports[s].wanted == sessions[s].wanted
            && Reported(worlds, p, base, s, reports[s]) && Lasting(worlds, reports[s].to, rows, network, s)
  }

  lemma NothingSoFar(worlds: seq<World>, listed: nat, todo: map<string, bool>, p: Pass, base: Vector,
      rows: map<string, Row>, network: set<Message>)
    requires listed < |worlds|
    requires var sessions := worlds[listed].db.sessions;
             todo == map s | s in sessions && !sessions[s].ended :: sessions[s].wanted
    ensures SoFar(worlds, listed, todo, map[], p, base, rows, network)
  {
  }

  lemma OneMore(before: seq<World>, worlds: seq<World>, listed: nat, todo: map<string, bool>,
      reports: map<string, Report>,
      p: Pass, base: Vector, rows: map<string, Row>, after: map<string, Row>,
      sent: set<Message>, network: set<Message>, s: string, report: Report)
    requires SoFar(before, listed, todo, reports, p, base, rows, sent) && before <= worlds && sent <= network
              && s in todo
    requires forall other | other != s :: RowsOf(after, other) == RowsOf(rows, other)
    requires |before| <= report.from && report.wanted == todo[s]
    requires Reported(worlds, p, base, s, report)
    requires Lasting(worlds, report.to, after, network, s)
    ensures SoFar(worlds, listed, todo - {s}, reports[s := report], p, base, after, network)
  {
    hide Reported, Lasting, RowsOf;
    assert worlds[listed] == before[listed];
    forall other | other in reports
      ensures Reported(worlds, p, base, other, reports[other])
                && Lasting(worlds, reports[other].to, after, network, other)
    {
      ReportedLater(before, worlds, p, base, other, reports[other]);
      LastingLater(before, worlds, reports[other].to, rows, after, sent, network, other);
    }
  }

  lemma AllTold(worlds: seq<World>, listed: nat, reports: map<string, Report>, p: Pass, base: Vector,
      rows: map<string, Row>, network: set<Message>)
    requires SoFar(worlds, listed, map[], reports, p, base, rows, network)
    ensures AllReported(worlds, listed, reports, p, base)
    ensures forall s | s in reports :: Lasting(worlds, reports[s].to, rows, network, s)
  {
    hide Reported, Lasting;
  }

  /** The session was to stop, its allocation was this node's, if it had one, and it was dealt with. */
  ghost predicate ToBeClosed(worlds: seq<World>, s: string, report: Report) {
    report.done && !report.wanted && report.from < |worlds| && !Foreign(worlds[report.from], s)
  }

  /** The allocation is live and its worker was adopted, started, or sent its new configuration. */
  ghost predicate CaredFor(rows: map<string, Row>, network: set<Message>, node: string, p: Pass, s: string,
      id: string) {
    && id in rows && rows[id].session == s && rows[id].node == node
    && rows[id].state != Stopped && rows[id].state != RowState.Failed
    && (|| rows[id].state == RowState.Running
        || (exists m | m in network :: m.pass == p.no && m.order.StartWorker? && m.order.spec.allocation == id
              && m.command.generation == rows[id].generation && m.command.token == rows[id].token)
        || (exists m | m in network :: m.pass == p.no && m.order.Redirect? && m.command.resource == id))
  }

  /** Nothing keeps the pass from seeing to an allocation: it may look, it need not wait, and it has tries left. */
  predicate MayActNow(r: Reading, row: Row) {
    r.inspectable && r.due && !r.graced && (row.restarts < 5 || row.hash != r.hash)
  }

  /** At the end of the pass: what was to stop has no live allocation, what is wanted and has room is cared for. */
  ghost predicate LeftWell(worlds: seq<World>, db: Database, network: set<Message>, p: Pass, base: Vector, s: string,
      report: Report) {
    report.from < |worlds| ==>
      var w, r := worlds[report.from], report.reading;
      var needs := Needed(base, r.kilobits, r.outputs);
      && (ToBeClosed(worlds, s, report) ==> NoLiveRow(db, s))
      && (report.wanted && r.outputs > 0 && !p.draining && NoLiveRow(w.db, s) && RoomForNew(w, needs)
          && r.drawn !in w.db.rows && r.inspectable && r.due && !r.graced ==>
            CaredFor(db.rows, network, w.agent.node, p, s, r.drawn))
      && (forall id | report.wanted && r.outputs > 0 && OwnRow(w, s, id) && RoomForOwn(w, id, needs)
                      && MayActNow(r, w.db.rows[id]) ::
            CaredFor(db.rows, network, w.agent.node, p, s, id))
  }

  lemma TendedIsCaredFor(w: World, after: World, p: Pass, s: string, id: string, row: Row, worker: Option<Worker>,
      r: Reading, done: bool, rows: map<string, Row>, network: set<Message>)
    requires Tended(w, after, p.no, s, id, row, worker, r, p.token, done)
    requires row.session == s && row.node == w.agent.node && row.Live() && MayActNow(r, row)
    requires RowsOf(rows, s) == RowsOf(after.db.rows, s) && after.inflight <= network
    ensures CaredFor(rows, network, w.agent.node, p, s, id)
  {
    hide Adjusted, Attended;
    AdjustedByCase(row, worker, r, p.token, done);
    AttendedLater(after.inflight, network, p.no, s, id, row, worker, r, p.token, done);
    assert id in RowsOf(after.db.rows, s) && rows[id] == RowsOf(rows, s)[id];
    AttendedIsCare(rows, network, w.agent.node, p, s, id, row, worker, r, done);
  }

  lemma AttendedIsCare(rows: map<string, Row>, network: set<Message>, node: string, p: Pass, s: string, id: string,
      row: Row, worker: Option<Worker>, r: Reading, done: bool)
    requires Attended(network, p.no, s, id, row, worker, r, p.token, done) && MayActNow(r, row)
    requires id in rows && rows[id] == Adjusted(row, worker, r, p.token, done)
    requires row.session == s && row.node == node && row.Live()
    ensures CaredFor(rows, network, node, p, s, id)
  {
    hide Adjusted;
    AdjustedByCase(row, worker, r, p.token, done);
    if Healthy(row, worker, r) {
      if row.hash != r.hash {
        assert Sent(network, p.no, id, row.generation, p.token, Redirect(row.resources));
      }
    } else {
      assert ToStart(row, worker, r);
      var generation := NewGeneration(row, worker, r);
      assert Sent(network, p.no, id, generation, p.token,
                  StartWorker(Spec(id, s, row.node, r.image, generation, p.token, row.resources)));
    }
  }

  lemma ReportedIsWell(worlds: seq<World>, db: Database, network: set<Message>, p: Pass, base: Vector, s: string,
      report: Report)
    requires Reported(worlds, p, base, s, report) && Lasting(worlds, report.to, db.rows, network, s)
    ensures LeftWell(worlds, db, network, p, base, s, report)
  {
    hide RoomForNew, RoomForOwn, CaredFor, Tended, RowsOf, LeftForLater;
    var w, after, r := worlds[report.from], worlds[report.to], report.reading;
    var needs := Needed(base, r.kilobits, r.outputs);
    if ToBeClosed(worlds, s, report) { NoneLeft(db.rows, after.db.rows, s); }
    if report.wanted && r.outputs > 0 && !p.draining && NoLiveRow(w.db, s) && RoomForNew(w, needs)
       && r.drawn !in w.db.rows && r.inspectable && r.due && !r.graced {
      TendedIsCaredFor(w, after, p, s, r.drawn, NewRow(s, w.agent.node, p.token, r, needs), report.worker, r,
          report.done,
                       db.rows, network);
    }
    forall id | report.wanted && r.outputs > 0 && OwnRow(w, s, id) && RoomForOwn(w, id, needs)
                && MayActNow(r, w.db.rows[id])
      ensures CaredFor(db.rows, network, w.agent.node, p, s, id)
    {
      TendedIsCaredFor(w, after, p, s, id, w.db.rows[id].(resources := needs), report.worker, r, report.done,
                       db.rows, network);
    }
  }

  lemma AllWell(before: seq<World>, worlds: seq<World>, listed: nat, reports: map<string, Report>, p: Pass,
      base: Vector,
      db: Database, sent: set<Message>, network: set<Message>)
    requires AllReported(before, listed, reports, p, base) && before <= worlds && sent <= network
    requires forall s | s in reports :: Lasting(before, reports[s].to, db.rows, sent, s)
    ensures AllReported(worlds, listed, reports, p, base)
    ensures forall s | s in reports :: LeftWell(worlds, db, network, p, base, s, reports[s])
  {
    hide Reported, Lasting, LeftWell;
    assert worlds[listed] == before[listed];
    forall s | s in reports
      ensures Reported(worlds, p, base, s, reports[s]) && LeftWell(worlds, db, network, p, base, s, reports[s])
    {
      ReportedLater(before, worlds, p, base, s, reports[s]);
      LastingLater(before, worlds, reports[s].to, db.rows, db.rows, sent, network, s);
      ReportedIsWell(worlds, db, network, p, base, s, reports[s]);
    }
  }

  lemma NoneLeft(rows: map<string, Row>, before: map<string, Row>, s: string)
    requires RowsOf(rows, s) == RowsOf(before, s)
    ensures (forall id | id in before :: !(before[id].session == s && before[id].Live())) ==>
              forall id | id in rows :: !(rows[id].session == s && rows[id].Live())
  {
    forall id | id in rows && rows[id].session == s ensures id in before && before[id] == rows[id] {
      assert id in RowsOf(rows, s);
    }
  }

  lemma LastingNow(worlds: seq<World>, to: nat, rows: map<string, Row>, network: set<Message>, s: string)
    requires to < |worlds| && worlds[to].db.rows == rows && worlds[to].inflight == network
    ensures Lasting(worlds, to, rows, network, s)
  {
  }

  lemma LastingLater(before: seq<World>, worlds: seq<World>, to: nat, rows: map<string, Row>, after: map<string, Row>,
      sent: set<Message>, network: set<Message>, s: string)
    requires Lasting(before, to, rows, sent, s) && before <= worlds && sent <= network
    requires RowsOf(after, s) == RowsOf(rows, s)
    ensures Lasting(worlds, to, after, network, s)
  {
    hide RowsOf;
    assert worlds[to] == before[to];
  }

  lemma ReportedLater(before: seq<World>, worlds: seq<World>, p: Pass, base: Vector, s: string, report: Report)
    requires Reported(before, p, base, s, report) && before <= worlds
    ensures Reported(worlds, p, base, s, report)
  {
    hide Reconciled;
    assert worlds[report.from] == before[report.from] && worlds[report.to] == before[report.to];
  }

  /** Of the pass only its number, its token and whether the node drains matter. */
  lemma SamePass(w: World, after: World, p: Pass, q: Pass, s: string, wanted: bool, needs: Vector, r: Reading,
      done: bool, worker: Option<Worker>)
    requires Reconciled(w, after, p, s, wanted, needs, r, done, worker)
    requires p.no == q.no && p.token == q.token && p.draining == q.draining
    ensures Reconciled(w, after, q, s, wanted, needs, r, done, worker)
  {
    hide RowsOf, RoomForNew, RoomForOwn, Adjusted, Attended, Sent;
  }

  lemma SameReport(worlds: seq<World>, p: Pass, q: Pass, base: Vector, s: string, report: Report)
    requires Reported(worlds, p, base, s, report) && p.no == q.no && p.token == q.token && p.draining == q.draining
    ensures Reported(worlds, q, base, s, report)
  {
    hide Reconciled;
    SamePass(worlds[report.from], worlds[report.to], p, q, s, report.wanted,
             Needed(base, report.reading.kilobits, report.reading.outputs), report.reading, report.done, report.worker);
  }

  lemma OthersKept(w: World, after: World, p: Pass, s: string, wanted: bool, needs: Vector, r: Reading, done: bool,
      worker: Option<Worker>)
    requires Reconciled(w, after, p, s, wanted, needs, r, done, worker)
    ensures forall other | other != s :: RowsOf(after.db.rows, other) == RowsOf(w.db.rows, other)
  {
  }

  lemma RoomIsChecked(w: World, id: string, needs: Vector)
    ensures MayInsert(w, needs) <==> RoomForNew(w, needs)
    ensures MayReserve(w, id, needs) <==> RoomForOwn(w, id, needs)
  {
    hide Total;
    assert AllocatedHere(w.db.rows, w.agent.node) == LiveHere(w.db.rows, w.agent.node);
  }

  /** What fits as a new allocation fits once it is there. */
  lemma InsertedFits(w: World, after: World, id: string, row: Row)
    requires MayInsert(w, row.resources) && id !in w.db.rows && after.db.rows == w.db.rows[id := row]
    requires after.agent.node == w.agent.node && after.agent.capacity == w.agent.capacity
    ensures MayReserve(after, id, row.resources)
  {
    hide Total;
    assert LiveHere(after.db.rows, w.agent.node) - {id} == LiveHere(w.db.rows, w.agent.node);
  }

  lemma ChangedRow(rows: map<string, Row>, s: string, id: string, row: Row)
    requires row.session == s && (id in rows ==> rows[id].session == s)
    ensures forall other | other != s :: RowsOf(rows[id := row], other) == RowsOf(rows, other)
  {
  }

  lemma ChangedSession(rows: map<string, Row>, s: string)
    ensures forall other | other != s :: RowsOf(Ended(rows, s), other) == RowsOf(rows, other)
  {
  }

  lemma AttendedLater(network: set<Message>, more: set<Message>, no: nat, s: string, id: string, row: Row,
      worker: Option<Worker>, r: Reading, token: nat, done: bool)
    requires network <= more && Attended(network, no, s, id, row, worker, r, token, done)
    ensures Attended(more, no, s, id, row, worker, r, token, done)
  {
    hide Healthy, Waits, Spent, ToStart, NewGeneration;
  }

  lemma EndedIsOver(db: Database, s: string)
    ensures NoLiveRow(db.(rows := Ended(db.rows, s)), s)
  {
  }

  class Controller {
    const agent: Agent
    const slots: int
    const workerResources: Vector
    var db: Database
    var network: set<Message>  // requests that may still reach the Agent
    var passes: nat  // tells the requests of different passes apart
    ghost var backups: set<Backup>
    ghost var pass: Option<Pass>
    ghost var epoch: nat
    ghost var accepted: seq<Message>
    ghost var worlds: seq<World>
    ghost var actions: seq<Action>

    ghost function View(): World
      reads this, agent
    {
      World(db, backups, agent.View(), slots, network, pass, passes, epoch, accepted)
    }

    /** The run so far leads to the present state. */
    ghost predicate Valid()
      reads this, agent
    {
      && IsRun(worlds, actions) && worlds[|worlds| - 1] == View() && agent.Valid()
      && (pass.Some? ==> pass.value.no == passes)
    }

    ghost predicate In(p: Pass, stage: Stage)
      reads this
    {
      pass == Some(p.(stage := stage))
    }

    constructor (agent: Agent, slots: int, workerResources: Vector)
      requires agent.Valid() && agent.workers == map[] && agent.fence == 0
      ensures Valid() && this.agent == agent && pass.None?
    {
      this.agent, this.slots, this.workerResources := agent, slots, workerResources;
      db, network := Database(0, map[], map[]), {};
      backups, pass, passes, epoch, accepted := {}, None, 0, 0, [];
      new;
      worlds, actions := [View()], [];
    }

    /** Appends the step just taken to the run. */
    ghost method Took(a: Action)
      requires IsRun(worlds, actions) && agent.Valid() && (pass.Some? ==> pass.value.no == passes)
      requires Enabled(worlds[|worlds| - 1], a) && View() == Next(worlds[|worlds| - 1], a)
      modifies this`worlds, this`actions
      ensures Valid() && old(worlds) < worlds && actions == old(actions) + [a]
    {
      hide Next, Enabled, Initial;
      Extended(worlds, actions, a);
      worlds, actions := worlds + [View()], actions + [a];
    }

    // -------------------------------------------------------------- the other side

    /** A request reaches the Agent, which does what its handler does. */
    method Reach(m: Message, now: int, fate: Fate) returns (ok: bool)
      requires agent.Valid()
      modifies agent
      ensures agent.Valid()
      ensures var r := Handle(old(agent.View()), m, now, fate); agent.View() == r.agent && ok == r.ok
    {
      hide Accept, AfterStart, AfterStop, AfterDestinations, AfterSlate, AfterDraining, Room, IsRun;
      match m.order {
        case StartWorker(spec) => ok := agent.Start(m.command, spec, now, fate);
        case StopWorker => ok := agent.Delete(m.command, now, fate);
        case Redirect(resources) => ok := agent.Destinations(m.command, resources, now, fate);
        case Reslate => ok := agent.Slate(m.command, now, fate);
        case Drain(on) => ok := agent.SetDraining(m.command, on, now, fate);
      }
    }

    method Deliver(m: Message, now: int, fate: Fate, replied: bool) returns (ok: bool)
      requires Valid() && m in network
      modifies this`pass, this`accepted, this`worlds, this`actions, agent
      ensures Valid() && old(worlds) <= worlds && old(actions) <= actions
      ensures pass == if ok && replied && old(pass).Some? then Some(Answered(old(pass).value, m)) else old(pass)
      ensures ok && replied ==> CarriedOut(worlds, actions, |old(actions)|, m)
    {
      hide IsRun, Initial, Handle, Answered, Room;
      ghost var r := Handle(agent.View(), m, now, fate);
      ok := Reach(m, now, fate);
      accepted := if r.accepted then accepted + [m] else accepted;
      pass := if ok && replied && pass.Some? then Some(Answered(pass.value, m)) else pass;
      ghost var before, was := worlds, actions;
      Took(ControlLoop.Deliver(m, now, fate, replied));
      if ok && replied { JustCarriedOut(before, was, worlds, actions, m, now, fate); }
    }

    /** Any number of steps of everybody else; only they change the sessions, and none of them changes an allocation. */
    method Others()
      requires Valid()
      modifies this`db, this`backups, this`pass, this`accepted, this`worlds, this`actions, agent
      ensures Valid() && old(worlds) <= worlds && old(actions) <= actions
      ensures db.rows == old(db.rows) && db.counter == old(db.counter) && old(db.sessions.Keys) <= db.sessions.Keys
      ensures pass == old(pass)
    {
      hide IsRun, Initial, Answered, MayWrite, Handle, Room;
      var steps: nat := *;
      while steps > 0
        invariant Valid() && old(worlds) <= worlds && old(actions) <= actions
        invariant db.rows == old(db.rows) && db.counter == old(db.counter) && old(db.sessions.Keys) <= db.sessions.Keys
        invariant pass == old(pass)
      {
        var arrives: bool := *;
        if network != {} && arrives {
          var m :| m in network;
          var now: int := *;
          var fate: Fate := *;
          var ok := Deliver(m, now, fate, false);
        } else if arrives {
          ChangeSessions();
        } else {
          DisturbAgent();
        }
        steps := steps - 1;
      }
    }

    method ChangeSessions()
      requires Valid()
      modifies this`db, this`backups, this`worlds, this`actions
      ensures Valid() && old(worlds) <= worlds && old(actions) <= actions
      ensures db.rows == old(db.rows) && db.counter == old(db.counter) && old(db.sessions.Keys) <= db.sessions.Keys
    {
      hide IsRun, Initial, Room, WriteStep, MayWrite, PassStep, MayPass;
      var sessions: map<string, Session> := *;
      if db.sessions.Keys <= sessions.Keys {
        db := db.(sessions := sessions);
        Took(Outside(sessions));
      } else {
        backups := backups + {Backup(db, agent.file)};
        Took(TakeBackup);
      }
    }

    method DisturbAgent()
      requires Valid()
      modifies this`worlds, this`actions, agent
      ensures Valid() && old(worlds) <= worlds && old(actions) <= actions
    {
      hide IsRun, Initial, Room, WriteStep, MayWrite, PassStep, MayPass, Halted;
      var id: string := *;
      if id in agent.workers {
        agent.Exit(id);
        Took(WorkerExits(id));
      } else {
        agent.Restart();
        Took(AgentRestarts);
      }
    }

    // -------------------------------------------------------------- requests and reads

    /** Sends a request of this pass. Only an answer tells that it was done; without one it may still come to be done. */
    method Call(ghost p: Pass, c: Command, order: Order) returns (ok: bool)
      requires Valid() && pass == Some(p) && Sendable(View(), p, c, order)
      modifies this`db, this`network, this`backups, this`pass, this`accepted, this`worlds, this`actions, agent
      ensures Valid() && old(worlds) <= worlds && old(actions) <= actions
      ensures db.rows == old(db.rows) && db.counter == old(db.counter) && old(db.sessions.Keys) <= db.sessions.Keys
      ensures pass == if ok then Some(Answered(p, Message(p.no, c, order))) else Some(p)
      ensures network == old(network) + {Message(p.no, c, order)}
      ensures ok ==> CarriedOut(worlds, actions, |old(actions)|, Message(p.no, c, order))
    {
      hide IsRun, Initial, Answered, Room, Handle, Sendable, CarriedOut;
      var m := Message(passes, c, order);
      network := network + {m};
      Took(Send(c, order));
      Others();
      ghost var from := |actions|;
      ok := Await(p, m);
      if ok { StaysCarriedOut(worlds, actions, from, m, worlds, actions, |old(actions)|); }
    }

    /** The request may arrive, and then be answered. */
    method Await(ghost p: Pass, m: Message) returns (ok: bool)
      requires Valid() && pass == Some(p) && m in network
      modifies this`db, this`backups, this`pass, this`accepted, this`worlds, this`actions, agent
      ensures Valid() && old(worlds) <= worlds && old(actions) <= actions
      ensures db.rows == old(db.rows) && db.counter == old(db.counter) && old(db.sessions.Keys) <= db.sessions.Keys
      ensures pass == if ok then Some(Answered(p, m)) else Some(p)
      ensures ok ==> CarriedOut(worlds, actions, |old(actions)|, m)
    {
      hide IsRun, Initial, Answered, Room, Handle, CarriedOut;
      var now: int, fate: Fate, arrives: bool := *, *, *;
      ok := false;
      if arrives {
        ok := Deliver(m, now, fate, true);
        ghost var reached, taken := worlds, actions;
        Others();
        if ok { StaysCarriedOut(reached, taken, |old(actions)|, m, worlds, actions, |old(actions)|); }
      }
    }

    /** The pass is over, by an error or by the death of the process. */
    method GiveUp()
      requires Valid()
      modifies this`pass, this`worlds, this`actions
      ensures Valid() && old(worlds) <= worlds && old(actions) <= actions && pass.None?
    {
      hide IsRun, Initial, Room, WriteStep, MayWrite, Happen, MayHappen, Kept;
      pass := None;
      Took(Abandon);
    }

    /** What the query for a session's allocation returns. */
    method FindRow(session: string) returns (id: Option<string>)
      ensures id.None? ==> NoLiveRow(db, session)
      ensures id.Some? ==> LiveRowOf(db, session, id.value)
    {
      var left := db.rows.Keys;
      while left != {}
        invariant left <= db.rows.Keys
        invariant forall id | id in db.rows && id !in left :: !(db.rows[id].session == session && db.rows[id].Live())
      {
        var k :| k in left;
        if db.rows[k].session == session && db.rows[k].Live() { return Some(k); }
        left := left - {k};
      }
      id := None;
    }

    /** The sum the capacity checks ask for: the live allocations of the node, but for one. */
    method SumLive(but: set<string>) returns (sum: Vector)
      ensures sum == Total(LiveHere(db.rows, agent.nodeId) - but)
    {
      hide Total;
      var live := LiveHere(db.rows, agent.nodeId) - but;
      var left := live.Keys;
      sum := ZERO;
      NothingSums();
      assert live - left == map[];
      while left != {}
        invariant left <= live.Keys && sum == Total(live - left)
      {
        var k :| k in left;
        assert k !in live - left && live - (left - {k}) == (live - left)[k := live[k]];
        assert (live - left) - {k} == live - left;
        TotalPut(live - left, k, live[k]);
        sum := sum.Add(live[k]);
        left := left - {k};
      }
      assert live - left == live;
    }

    lemma NothingSums()
      ensures Total<string>(map[]) == ZERO
    {
    }

    // -------------------------------------------------------------- one session

    lemma OnlyOneLiveRow(s: string, a: string, b: string)
      requires Valid() && LiveRowOf(db, s, a) && LiveRowOf(db, s, b)
      ensures a == b
    {
      hide StepAt, Room;
      OneLiveRowPerSession(worlds, actions, |worlds| - 1, s, a, b);
    }

    /** The session being reconciled, before anything is done for it. */
    ghost predicate AtWork(p: Pass, s: string, wanted: bool)
      reads this
    {
      pass == Some(p) && p.stage == Working(s, wanted, Deciding) && s in db.sessions
    }

    function Order(id: string, generation: nat, token: nat, now: int): Command {
      Command(id, generation, token, now + DEADLINE)
    }

    method Back(ghost p: Pass)
      requires Valid() && pass.Some? && pass.value.stage.Working? && pass.value == p.(stage := pass.value.stage)
      modifies this`pass, this`worlds, this`actions
      ensures Valid() && old(worlds) <= worlds && old(actions) <= actions && old(db.sessions.Keys) <= db.sessions.Keys
                && In(p, Reconciling)
    {
      hide IsRun, Initial, Room, WriteStep, MayWrite, Happen, MayHappen, Kept;
      pass := Some(p.(stage := Reconciling));
      Took(Leave);
    }

    /** Asks for the session's worker to be stopped; with no answer, the session is left for the next pass. */
    method StopWorkerOf(ghost p: Pass, s: string, wanted: bool, id: string, token: nat) returns (ok: bool)
      requires Valid() && AtWork(p, s, wanted) && p.token == token && OwnRow(View(), s, id)
      modifies this`db, this`network, this`backups, this`pass, this`accepted, this`worlds, this`actions, agent
      ensures Valid() && old(worlds) <= worlds && old(actions) <= actions && old(db.sessions.Keys) <= db.sessions.Keys
      ensures db.rows == old(db.rows) && s in db.sessions
      ensures if ok then In(p, Working(s, wanted, Gone(id))) else In(p, Reconciling)
      ensures old(network) <= network
      ensures Sent(network, p.no, id, old(db.rows)[id].generation, token, StopWorker)
      ensures OnlyAsked(old(network), network, p.no, id, token, {StopWorker})
    {
      hide IsRun, Initial, Room;
      var now: int := *;
      ok := Call(p, Order(id, db.rows[id].generation, token, now), StopWorker);
      if !ok { Back(p); }
    }

    method StopSession(ghost p: Pass, s: string, row: Option<string>, token: nat) returns (done: bool)
      requires Valid() && AtWork(p, s, false) && p.token == token
      requires if row.Some? then OwnRow(View(), s, row.value) else NoLiveRow(db, s)
      modifies this`db, this`network, this`backups, this`pass, this`accepted, this`worlds, this`actions, agent
      ensures Valid() && old(worlds) <= worlds && old(actions) <= actions && old(db.sessions.Keys) <= db.sessions.Keys
                && In(p, Reconciling)
      ensures done ==> NoLiveRow(db, s)
      ensures if done then db.rows == Ended(old(db.rows), s) && s in db.sessions && db.sessions[s].ended
                else db.rows == old(db.rows)
      ensures old(network) <= network
      ensures row.None? ==> done
      ensures !done ==> Sent(network, p.no, row.value, db.rows[row.value].generation, token, StopWorker)
      ensures if row.Some? then OnlyAsked(old(network), network, p.no, row.value, token, {StopWorker})
                else network == old(network)
    {
      hide IsRun, Initial, Room, PassStep, MayPass, Happen, MayHappen, Ended, MayInsert, MayReserve;
      if row.Some? {
        done := StopWorkerOf(p, s, false, row.value, token);
        if !done { return; }
      }
      EndedIsOver(db, s);
      db := db.(rows := Ended(db.rows, s), sessions := db.sessions[s := db.sessions[s].(ended := true)]);
      pass := Some(p.(stage := Reconciling));
      Took(CloseSession);
      done := true;
    }

    /** The stream has no destination left: its worker goes, its session stays. */
    method StopOutput(ghost p: Pass, s: string, id: string, token: nat) returns (done: bool)
      requires Valid() && AtWork(p, s, true) && p.token == token && OwnRow(View(), s, id)
      modifies this`db, this`network, this`backups, this`pass, this`accepted, this`worlds, this`actions, agent
      ensures Valid() && old(worlds) <= worlds && old(actions) <= actions && old(db.sessions.Keys) <= db.sessions.Keys
                && In(p, Reconciling)
      ensures done ==> NoLiveRow(db, s)
      ensures db.rows == if done then old(db.rows)[id := old(db.rows)[id].(wanted := false, state := Stopped)]
                else old(db.rows)
      ensures old(network) <= network
      ensures Sent(network, p.no, id, old(db.rows)[id].generation, token, StopWorker)
      ensures OnlyAsked(old(network), network, p.no, id, token, {StopWorker})
    {
      hide IsRun, Initial, Room, PassStep, MayPass, Happen, MayHappen, MayInsert, MayReserve;
      forall other | other in db.rows && db.rows[other].session == s && db.rows[other].Live() ensures other == id {
        OnlyOneLiveRow(s, other, id);
      }
      done := StopWorkerOf(p, s, true, id, token);
      if !done { return; }
      db := db.(rows := db.rows[id := db.rows[id].(wanted := false, state := Stopped)]);
      pass := Some(p.(stage := Reconciling));
      Took(CloseRow);
    }

    method Exhausted(ghost p: Pass, s: string, id: string, token: nat) returns (done: bool)
      requires Valid() && AtWork(p, s, true) && p.token == token && OwnRow(View(), s, id)
                && db.rows[id].restarts >= RESTARTS
      modifies this`db, this`network, this`backups, this`pass, this`accepted, this`worlds, this`actions, agent
      ensures Valid() && old(worlds) <= worlds && old(actions) <= actions && old(db.sessions.Keys) <= db.sessions.Keys
                && In(p, Reconciling)
      ensures db.rows == if done then old(db.rows)[id := old(db.rows)[id].(wanted := false, state := Failed)]
                else old(db.rows)
      ensures done ==> s in db.sessions && db.sessions[s] == Session(false, true)
      ensures old(network) <= network
      ensures Sent(network, p.no, id, old(db.rows)[id].generation, token, StopWorker)
      ensures OnlyAsked(old(network), network, p.no, id, token, {StopWorker})
    {
      hide IsRun, Initial, Room, PassStep, MayPass, Happen, MayHappen, MayInsert, MayReserve, NoLiveRow;
      done := StopWorkerOf(p, s, true, id, token);
      if !done { return; }
      db := db.(rows := db.rows[id := db.rows[id].(wanted := false, state := Failed)],
          sessions := db.sessions[s := Session(false, true)]);
      pass := Some(p.(stage := Reconciling));
      Took(FailRow);
    }

    /** Inserts an allocation if the node has a slot and the rest of what it needs. */
    method Insert(ghost p: Pass, s: string, token: nat, hash: nat, resources: Vector, drawn: string)
        returns (inserted: bool)
      requires Valid() && AtWork(p, s, true) && p.token == token && !p.draining && NoLiveRow(db, s)
                && Storable(resources)
      modifies this`db, this`backups, this`pass, this`accepted, this`worlds, this`actions, agent
      ensures Valid() && old(worlds) <= worlds && old(actions) <= actions && old(db.sessions.Keys) <= db.sessions.Keys
                && AtWork(p, s, true)
      ensures inserted <==> MayInsert(old(View()), resources) && drawn !in old(db.rows)
      ensures db.rows == if inserted
                         then old(db.rows)[drawn := Row(s, agent.nodeId, true, Pending, 1, token, hash, 0, resources)]
                         else old(db.rows)
    {
      hide IsRun, Initial, Room, PassStep, MayPass, Happen, MayHappen, Total, MayReserve;
      inserted := false;
      var count := |LiveHere(db.rows, agent.nodeId)|;
      if count >= slots || count >= agent.capacity.slots { return; }
      var sum := SumLive({});
      assert LiveHere(db.rows, agent.nodeId) - {} == LiveHere(db.rows, agent.nodeId);
      if !FitsBesideSlots(resources, agent.capacity.Sub(sum)) { return; }
      if drawn in db.rows { return; }
      db := db.(rows := db.rows[drawn := Row(s, agent.nodeId, true, Pending, 1, token, hash, 0, resources)]);
      Took(InsertRow(drawn, hash, resources));
      Others();
      inserted := true;
    }

    /** `reserveBudget`: the allocation's resources change only if the node has them beside all others. */
    method ReserveBudget(ghost p: Pass, s: string, id: string, resources: Vector) returns (ok: bool)
      requires Valid() && AtWork(p, s, true) && OwnRow(View(), s, id) && Storable(resources)
      modifies this`db, this`backups, this`pass, this`accepted, this`worlds, this`actions, agent
      ensures Valid() && old(worlds) <= worlds && old(actions) <= actions && old(db.sessions.Keys) <= db.sessions.Keys
                && AtWork(p, s, true)
      ensures ok <==> MayReserve(old(View()), id, resources)
      ensures db.rows == if ok then old(db.rows)[id := old(db.rows)[id].(resources := resources)] else old(db.rows)
    {
      hide IsRun, Initial, Room, PassStep, MayPass, Happen, MayHappen, Total, MayInsert, NoLiveRow;
      var sum := SumLive({id});
      ok := FitsBesideSlots(resources, agent.capacity.Sub(sum));
      if ok {
        db := db.(rows := db.rows[id := db.rows[id].(resources := resources)]);
        Took(Reserve(id, resources));
        Others();
      }
    }

    /** The worker is what it should be: the row says so. */
    method Observed(ghost p: Pass, s: string, id: string, steady: bool)
      requires Valid() && AtWork(p, s, true) && OwnRow(View(), s, id)
      modifies this`db, this`backups, this`pass, this`accepted, this`worlds, this`actions, agent
      ensures Valid() && old(worlds) <= worlds && old(actions) <= actions && old(db.sessions.Keys) <= db.sessions.Keys
                && In(p, Reconciling)
      ensures db.rows == old(db.rows)[id := old(db.rows)[id].(state := Running, restarts := if steady then 0
                else old(db.rows)[id].restarts)]
    {
      hide IsRun, Initial, Room, PassStep, MayPass, Happen, MayHappen, MayInsert, MayReserve, NoLiveRow;
      var r := db.rows[id];
      db := db.(rows := db.rows[id := r.(state := Running, restarts := if steady then 0 else r.restarts)]);
      Took(Observe(id, steady));
      Back(p);
    }

    /** New destinations for a healthy worker; the row takes the new digest only when both requests were answered. */
    method ApplyConfiguration(ghost p: Pass, s: string, id: string, token: nat, hash: nat) returns (done: bool)
      requires Valid() && AtWork(p, s, true) && p.token == token && OwnRow(View(), s, id)
      modifies this`db, this`network, this`backups, this`pass, this`accepted, this`worlds, this`actions, agent
      ensures Valid() && old(worlds) <= worlds && old(actions) <= actions && old(db.sessions.Keys) <= db.sessions.Keys
                && In(p, Reconciling)
      ensures db.rows == if done then old(db.rows)[id := old(db.rows)[id].(hash := hash)] else old(db.rows)
      ensures old(network) <= network
      ensures var row := old(db.rows)[id];
              && Sent(network, p.no, id, row.generation, token, Redirect(row.resources))
              && (done ==> Sent(network, p.no, id, row.generation, token, Reslate))
              && (done ==> Obeyed(worlds, actions, |old(actions)|, p.no, id, row.generation, token,
                      Redirect(row.resources)))
              && (done ==> Obeyed(worlds, actions, |old(actions)|, p.no, id, row.generation, token, Reslate))
      ensures OnlyAsked(old(network), network, p.no, id, token, {Redirect(old(db.rows)[id].resources), Reslate})
    {
      hide IsRun, Initial, Room, CarriedOut;
      var now: int := *;
      var command := Order(id, db.rows[id].generation, token, now);
      ghost var first, second := Message(p.no, command, Redirect(db.rows[id].resources)),
          Message(p.no, command, Reslate);
      done := Call(p, command, Redirect(db.rows[id].resources));
      assert first in network;
      ghost var redirected, taken, from := worlds, actions, |actions|;
      if done {
        done := Call(p, command, Reslate);
        assert second in network;
      }
      ghost var answered, given := worlds, actions;
      if done { TakeDigest(p, s, id, hash); } else { Back(p); }
      if done {
        StaysCarriedOut(redirected, taken, |old(actions)|, first, worlds, actions, |old(actions)|);
        StaysCarriedOut(answered, given, from, second, worlds, actions, |old(actions)|);
      }
    }

    method TakeDigest(ghost p: Pass, s: string, id: string, hash: nat)
      requires Valid() && AtWork(p, s, true) && OwnRow(View(), s, id)
      modifies this`db, this`pass, this`worlds, this`actions
      ensures Valid() && old(worlds) <= worlds && old(actions) <= actions && db.sessions == old(db.sessions)
                && In(p, Reconciling)
      ensures db.rows == old(db.rows)[id := old(db.rows)[id].(hash := hash)]
    {
      hide IsRun, Initial, Room, PassStep, MayPass, Happen, MayHappen, MayInsert, MayReserve, NoLiveRow;
      db := db.(rows := db.rows[id := db.rows[id].(hash := hash)]);
      Took(Rehash(id, hash));
      Back(p);
    }

    /** Commits the new generation, before anything is asked of the Agent. */
    method CommitLaunch(ghost p: Pass, s: string, id: string, token: nat, hash: nat, image: string, replace: bool)
        returns (spec: Spec)
      requires Valid() && AtWork(p, s, true) && p.token == token && OwnRow(View(), s, id)
      requires db.rows[id].restarts < RESTARTS || db.rows[id].hash != hash
      modifies this`db, this`pass, this`worlds, this`actions
      ensures Valid() && old(worlds) <= worlds && old(actions) <= actions && db.sessions == old(db.sessions)
                && In(p, Working(s, true, Started(spec)))
      ensures var r := old(db.rows)[id];
              && spec == Spec(id, s, r.node, image, if replace then r.generation + 1
                  else r.generation, token, r.resources)
              && db.rows == old(db.rows)[id := r.(generation := spec.generation, hash := hash, token := token,
                  state := Starting, restarts := r.restarts + 1)]
    {
      hide IsRun, Initial, Room, PassStep, MayPass, Happen, MayHappen, MayInsert, MayReserve, NoLiveRow;
      var r := db.rows[id];
      spec := Spec(id, s, r.node, image, if replace then r.generation + 1 else r.generation, token, r.resources);
      db := db.(rows := db.rows[id := r.(generation := spec.generation, hash := hash, token := token,
          state := Starting, restarts := r.restarts + 1)]);
      pass := Some(p.(stage := Working(s, true, Started(spec))));
      Took(Launch(id, hash, image, replace));
    }

    /** Starts the worker of a committed generation; the answer may never come, and the row stays. */
    method LaunchWorker(ghost p: Pass, s: string, id: string, token: nat, hash: nat, image: string, replace: bool)
        returns (done: bool)
      requires Valid() && AtWork(p, s, true) && p.token == token && OwnRow(View(), s, id)
      requires db.rows[id].restarts < RESTARTS || db.rows[id].hash != hash
      modifies this`db, this`network, this`backups, this`pass, this`accepted, this`worlds, this`actions, agent
      ensures Valid() && old(worlds) <= worlds && old(actions) <= actions && old(db.sessions.Keys) <= db.sessions.Keys
                && In(p, Reconciling)
      ensures var r := old(db.rows)[id];
              db.rows == old(db.rows)[id := r.(generation := if replace then r.generation + 1 else r.generation,
                                               hash := hash, token := token, state := Starting,
                                                   restarts := r.restarts + 1)]
      ensures old(network) <= network
      ensures var row := old(db.rows)[id];
              var generation := if replace then row.generation + 1 else row.generation;
              Sent(network, p.no, id, generation, token,
                   StartWorker(Spec(id, s, row.node, image, generation, token, row.resources)))
      ensures var row := old(db.rows)[id];
              var generation := if replace then row.generation + 1 else row.generation;
              OnlyAsked(old(network), network, p.no, id, token,
                        {StartWorker(Spec(id, s, row.node, image, generation, token, row.resources))})
    {
      hide IsRun, Initial, Room, OwnRow;
      var spec := CommitLaunch(p, s, id, token, hash, image, replace);
      Others();
      var now: int := *;
      done := Call(p.(stage := Working(s, true, Started(spec))), Order(id, spec.generation, token, now),
          StartWorker(spec));
      Back(p);
    }

    /** The allocation of a wanted session is there and paid for: adopt the worker, change it, restart it, or give it up. */
    method Adjust(ghost p: Pass, s: string, id: string, token: nat, r: Reading)
        returns (done: bool, ghost worker: Option<Worker>)
      requires Valid() && AtWork(p, s, true) && p.token == token && OwnRow(View(), s, id)
      modifies this`db, this`network, this`backups, this`pass, this`accepted, this`worlds, this`actions, agent
      ensures Valid() && old(worlds) <= worlds && old(actions) <= actions && old(db.sessions.Keys) <= db.sessions.Keys
                && In(p, Reconciling)
      ensures worker == if id in old(agent.workers) then Some(old(agent.workers)[id]) else None
      ensures db.rows == old(db.rows)[id := Adjusted(old(db.rows)[id], worker, r, token, done)]
      ensures old(network) <= network
      ensures Attended(network, p.no, s, id, old(db.rows)[id], worker, r, token, done)
      ensures OnlyAsked(old(network), network, p.no, id, token, Orders(s, id, old(db.rows)[id], worker, r, token))
    {
      hide IsRun, Initial, Room;
      var row := db.rows[id];
      worker := if id in agent.workers then Some(agent.workers[id]) else None;
      if !r.inspectable { Back(p); done := false; return; }
      var current := if id in agent.workers then Some(agent.workers[id]) else None;
      var running := current.Some? && current.value.running && current.value.spec.generation == row.generation;
      var changed := row.hash != r.hash;
      if running && r.reporting {
        if changed {
          done := ApplyConfiguration(p, s, id, token, r.hash);
        } else {
          Observed(p, s, id, r.steady);
          done := true;
        }
        return;
      }
      done := Revive(p, s, id, token, r, current);
    }

    /** There is no healthy worker: wait, give up, or start one. */
    method Revive(ghost p: Pass, s: string, id: string, token: nat, r: Reading, worker: Option<Worker>)
        returns (done: bool)
      requires Valid() && AtWork(p, s, true) && p.token == token && OwnRow(View(), s, id)
      requires r.inspectable && !Healthy(db.rows[id], worker, r)
      modifies this`db, this`network, this`backups, this`pass, this`accepted, this`worlds, this`actions, agent
      ensures Valid() && old(worlds) <= worlds && old(actions) <= actions && old(db.sessions.Keys) <= db.sessions.Keys
                && In(p, Reconciling) && old(network) <= network
      ensures db.rows == old(db.rows)[id := Adjusted(old(db.rows)[id], worker, r, token, done)]
      ensures Attended(network, p.no, s, id, old(db.rows)[id], worker, r, token, done)
      ensures OnlyAsked(old(network), network, p.no, id, token, Orders(s, id, old(db.rows)[id], worker, r, token))
    {
      hide IsRun, Initial, Room, Sent;
      var row := db.rows[id];
      var changed := row.hash != r.hash;
      var running := worker.Some? && worker.value.running && worker.value.spec.generation == row.generation;
      if !r.due || (running && !changed && r.graced) { Back(p); done := true; return; }
      if row.restarts >= RESTARTS && !changed {
        done := Exhausted(p, s, id, token);
      } else {
        done := LaunchWorker(p, s, id, token, r.hash, r.image, worker.Some? || changed);
      }
    }

    /** Reserves what the session's own row needs and, if that fits, adjusts the row and its worker. */
    method Provide(ghost p: Pass, s: string, id: string, token: nat, r: Reading, resources: Vector)
        returns (done: bool, ghost worker: Option<Worker>)
      requires Valid() && AtWork(p, s, true) && p.token == token && OwnRow(View(), s, id) && Storable(resources)
      modifies this`db, this`network, this`backups, this`pass, this`accepted, this`worlds, this`actions, agent
      ensures Valid() && old(worlds) <= worlds && old(actions) <= actions && old(db.sessions.Keys) <= db.sessions.Keys
                && In(p, Reconciling)
      ensures db.rows == if old(MayReserve(View(), id, resources))
                         then old(db.rows)[id := Adjusted(old(db.rows)[id].(resources := resources), worker, r,
                             token, done)]
                         else old(db.rows)
      ensures old(network) <= network
      ensures if old(MayReserve(View(), id, resources))
              then Attended(network, p.no, s, id, old(db.rows)[id].(resources := resources), worker, r, token, done)
              else done
      ensures if old(MayReserve(View(), id, resources))
              then OnlyAsked(old(network), network, p.no, id, token,
                             Orders(s, id, old(db.rows)[id].(resources := resources), worker, r, token))
              else network == old(network)
    {
      hide IsRun, Initial, Room, MayReserve, MayInsert, Vector.NonNegative, Needed, Ended, Adjusted, StepAt;
      worker := None;
      var reserved := ReserveBudget(p, s, id, resources);
      if !reserved { Back(p); done := true; return; }
      done, worker := Adjust(p, s, id, token, r);
    }

    /**
    One session. A session that is to stop has ended with no live allocation left here, and one without
    destinations has no live allocation here, whenever this reports success.
    */
    method Reconcile(ghost p: Pass, s: string, wanted: bool, token: nat, draining: bool, r: Reading)
        returns (done: bool, ghost worker: Option<Worker>)
      requires Valid() && AtWork(p, s, wanted) && p.token == token && p.draining == draining
                && workerResources.NonNegative()
      modifies this`db, this`network, this`backups, this`pass, this`accepted, this`worlds, this`actions, agent
      ensures Valid() && old(worlds) <= worlds && old(actions) <= actions && old(db.sessions.Keys) <= db.sessions.Keys
                && In(p, Reconciling)
      ensures old(network) <= network
      ensures Reconciled(old(View()), View(), p, s, wanted, Needed(workerResources, r.kilobits, r.outputs), r,
                done, worker)
    {
      hide IsRun, Initial, Room, MayReserve, MayInsert, Vector.NonNegative, Needed, Ended, Adjusted, StepAt;
      hide RowsOf, RoomForNew, RoomForOwn, Attended, Sent;
      worker := None;
      ghost var w := View();
      var row := FindRow(s);
      forall a, b | LiveRowOf(db, s, a) && LiveRowOf(db, s, b) ensures a == b { OnlyOneLiveRow(s, a, b); }
      if row.Some? && db.rows[row.value].node != agent.nodeId { Back(p); done := true; return; }
      if !wanted {
        done := StopSession(p, s, row, token);
        ChangedSession(w.db.rows, s);
        return;
      }
      if r.outputs == 0 {
        if row.None? { Back(p); done := true; return; }
        done := StopOutput(p, s, row.value, token);
        ChangedRow(w.db.rows, s, row.value, db.rows[row.value]);
        return;
      }
      var needs := Needed(workerResources, r.kilobits, r.outputs);
      if row.Some? {
        RoomIsChecked(w, row.value, needs);
        done, worker := Provide(p, s, row.value, token, r, needs);
        ChangedRow(w.db.rows, s, row.value, db.rows[row.value]);
      } else if draining {
        Back(p);
        done := true;
      } else {
        done, worker := Allocate(p, s, token, r, needs);
      }
    }

    /** A new allocation for a session that has none, if there is room for it. */
    method Allocate(ghost p: Pass, s: string, token: nat, r: Reading, needs: Vector)
        returns (done: bool, ghost worker: Option<Worker>)
      requires Valid() && AtWork(p, s, true) && p.token == token && !p.draining && NoLiveRow(db, s) && Storable(needs)
      modifies this`db, this`network, this`backups, this`pass, this`accepted, this`worlds, this`actions, agent
      ensures Valid() && old(worlds) <= worlds && old(actions) <= actions && old(db.sessions.Keys) <= db.sessions.Keys
                && In(p, Reconciling) && old(network) <= network
      ensures forall other | other != s :: RowsOf(db.rows, other) == RowsOf(old(db.rows), other)
      ensures if !RoomForNew(old(View()), needs) || r.drawn in old(db.rows)
              then done && db.rows == old(db.rows) && network == old(network)
              else Tended(old(View()), View(), p.no, s, r.drawn, NewRow(s, agent.nodeId, token, r, needs), worker, r,
                  token, done)
    {
      hide IsRun, Initial, Room, MayReserve, MayInsert, Vector.NonNegative, Adjusted, StepAt, RowsOf, RoomForNew,
          Attended;
      worker := None;
      ghost var w := View();
      RoomIsChecked(w, r.drawn, needs);
      var inserted := Insert(p, s, token, r.hash, needs, r.drawn);
      if !inserted { Back(p); done := true; return; }
      ghost var row := db.rows[r.drawn];
      InsertedFits(w, View(), r.drawn, row);
      done, worker := Provide(p, s, r.drawn, token, r, needs);
      assert w.db.rows[r.drawn := row][r.drawn := db.rows[r.drawn]] == w.db.rows[r.drawn := db.rows[r.drawn]];
      ChangedRow(w.db.rows, s, r.drawn, db.rows[r.drawn]);
    }

    // -------------------------------------------------------------- the pass

    method NextFence() returns (token: nat)
      requires Valid() && pass.None?
      modifies this, agent
      ensures Valid() && old(worlds) <= worlds && old(actions) <= actions
      ensures db.rows == old(db.rows) && db.counter == token == old(db.counter) + 1
      ensures pass == Some(Pass(passes, token, false, map[], Fresh))
    {
      hide IsRun, Initial, Room, WriteStep, MayWrite, Happen, MayHappen, Kept;
      token := db.counter + 1;
      db, passes := db.(counter := token), passes + 1;
      pass := Some(Pass(passes, token, false, map[], Fresh));
      Took(Begin);
      Others();
    }

    method ReadHeartbeat(ghost p: Pass) returns (seen: nat)
      requires Valid() && pass == Some(p) && p.stage.Fresh?
      modifies this, agent
      ensures Valid() && old(worlds) <= worlds && old(actions) <= actions
      ensures db.rows == old(db.rows) && db.counter == old(db.counter) && passes == old(passes)
      ensures In(p, Heard(seen))
    {
      hide IsRun, Initial, Room, WriteStep, MayWrite, Happen, MayHappen, Kept;
      seen := agent.Heartbeat();
      pass := Some(p.(stage := Heard(seen)));
      Took(Hear);
      Others();
    }

    /**
    The token of a pass: the next one, or if the Agent has seen as much, one past whatever it has
    seen. An Agent that cannot be reached ends the pass.
    */
    method TakeToken(reached: bool) returns (alive: bool, token: nat)
      requires Valid() && pass.None?
      modifies this, agent
      ensures Valid() && old(worlds) <= worlds && old(actions) <= actions && db.rows == old(db.rows)
      ensures alive == reached && (!alive ==> pass.None?)
      ensures alive ==>
                pass == Some(Pass(passes, token, false, map[], Settled)) && db.counter == token > old(db.counter)
    {
      hide IsRun, Initial, Room, WriteStep, MayWrite, Happen, MayHappen, Kept;
      token := NextFence();
      alive := reached;
      if !alive { GiveUp(); return; }
      var seen := ReadHeartbeat(pass.value);
      if seen >= token {
        token := Max(db.counter, seen) + 1;
        db := db.(counter := token);
      }
      pass := Some(Pass(passes, token, false, map[], Settled));
      Took(Settle);
    }

    /** Removes the workers nobody wants; the pass ends with the first request that is not answered. */
    method Sweep(ghost p: Pass, token: nat) returns (done: bool)
      requires Valid() && pass == Some(p) && p.stage.Reconciling? && p.todo == map[] && p.token == token
      modifies this`db, this`network, this`backups, this`pass, this`accepted, this`worlds, this`actions, agent
      ensures Valid() && old(worlds) <= worlds && old(actions) <= actions && pass.None? && db.rows == old(db.rows)
      ensures done ==> |actions| > 0 && actions[|actions| - 1].Finish?
      ensures old(network) <= network
      ensures !done ==> exists m | m in network :: m.pass == p.no && m.order.StopWorker? && m.command.token == token
      ensures StopsUnwanted(worlds, |old(worlds)| - 1, old(network), network)
    {
      hide IsRun, Initial, Room, StepAt, Next, Enabled, StopsUnwanted, WantedWorker;
      ghost var from := |worlds| - 1;
      LastIsNow();
      NothingStopped(worlds, from, network);
      var listed := ReadWorkers(p);
      OneMoreUnwanted(old(worlds), worlds, from, old(network), network, network, from);
      var left := listed.Keys;
      while left != {}
        invariant Valid() && old(worlds) <= worlds && old(actions) <= actions && db.rows == old(db.rows)
        invariant left <= listed.Keys && In(p, Sweeping(left)) && old(network) <= network
        invariant from < |worlds| && StopsUnwanted(worlds, from, old(network), network)
      {
        var id :| id in left;
        ghost var before, sent := worlds, network;
        LastIsNow();
        done := SweepOne(p, left, id, listed[id], token);
        assert worlds[|before| - 1] == before[|before| - 1];
        OneMoreUnwanted(before, worlds, from, old(network), sent, network, |before| - 1);
        if !done { return; }
        left := left - {id};
      }
      ghost var before := worlds;
      EndPass(p);
      OneMoreUnwanted(before, worlds, from, old(network), network, network, from);
      done := true;
    }

    lemma LastIsNow()
      requires Valid()
      ensures |worlds| == |actions| + 1 && worlds[|worlds| - 1].db == db
    {
      hide StepAt, Initial, Room;
    }

    /** The workers of the node, with their generations. */
    method ReadWorkers(ghost p: Pass) returns (listed: map<string, nat>)
      requires Valid() && pass == Some(p) && p.stage.Reconciling? && p.todo == map[]
      modifies this`db, this`backups, this`pass, this`accepted, this`worlds, this`actions, agent
      ensures Valid() && old(worlds) <= worlds && old(actions) <= actions && db.rows == old(db.rows)
      ensures In(p, Sweeping(listed.Keys))
      ensures forall id | id in old(agent.workers) && old(agent.workers)[id].spec.node == agent.nodeId :: id in listed
    {
      hide IsRun, Initial, Room, WriteStep, MayWrite, Happen, MayHappen;
      listed := map id | id in agent.workers && agent.workers[id].spec.node == agent.nodeId ::
          agent.workers[id].spec.generation;
      pass := Some(p.(stage := Sweeping(listed.Keys)));
      assert listed.Keys == set id | id in agent.workers && agent.workers[id].spec.node == agent.nodeId;
      Took(ListWorkers);
      Others();
    }

    method EndPass(ghost p: Pass)
      requires Valid() && In(p, Sweeping({}))
      modifies this`pass, this`worlds, this`actions
      ensures Valid() && old(worlds) <= worlds && old(actions) <= actions && pass.None?
      ensures |actions| > 0 && actions[|actions| - 1].Finish?
    {
      hide IsRun, Initial, Room, WriteStep, MayWrite, Happen, MayHappen;
      pass := None;
      Took(Finish);
    }

    method SweepOne(ghost p: Pass, ghost left: set<string>, id: string, generation: nat, token: nat)
        returns (done: bool)
      requires Valid() && In(p, Sweeping(left)) && id in left && p.token == token
      modifies this`db, this`network, this`backups, this`pass, this`accepted, this`worlds, this`actions, agent
      ensures Valid() && old(worlds) <= worlds && old(actions) <= actions && db.rows == old(db.rows)
      ensures if done then In(p, Sweeping(left - {id})) else pass.None?
      ensures old(network) <= network
      ensures !done ==> Sent(network, p.no, id, generation, token, StopWorker)
      ensures WantedWorker(old(db), id) ==> done && network == old(network)
      ensures !WantedWorker(old(db), id) ==>
                exists m :: network == old(network) + {m} && m.order.StopWorker? && m.command.resource == id
    {
      hide IsRun, Initial, Room, WriteStep, MayWrite, Happen, MayHappen;
      if Kept(db, id) {
        pass := Some(p.(stage := Sweeping(left - {id})));
        Took(Keep(id));
        Others();
        return true;
      }
      var now: int := *;
      done := Call(p.(stage := Sweeping(left)), Order(id, generation, token, now), StopWorker);
      if !done { GiveUp(); }
    }

    /** Takes one of the listed sessions and reconciles it. */
    method ReconcileNext(ghost p: Pass, s: string, wanted: bool, token: nat, draining: bool)
        returns (ghost after: Pass, ghost report: Report)
      requires Valid() && pass == Some(p) && p.stage.Reconciling? && s in p.todo && p.todo[s] == wanted
                && s in db.sessions
      requires p.token == token && p.draining == draining && workerResources.NonNegative()
      modifies this`db, this`network, this`backups, this`pass, this`accepted, this`worlds, this`actions, agent
      ensures Valid() && old(worlds) <= worlds && old(actions) <= actions && old(db.sessions.Keys) <= db.sessions.Keys
      ensures after == p.(todo := p.todo - {s}) && pass == Some(after)
      ensures old(network) <= network
      ensures |old(worlds)| <= report.from && report.to == |worlds| - 1
      ensures report.wanted == wanted
      ensures Reported(worlds, p, workerResources, s, report)
      ensures forall other | other != s :: RowsOf(db.rows, other) == RowsOf(old(db.rows), other)
    {
      hide IsRun, Initial, Room, WriteStep, MayWrite, Happen, MayHappen, Kept, Reconciled, RowsOf;
      after := p.(todo := p.todo - {s});
      ghost var at := after.(stage := Working(s, wanted, Deciding));
      pass := Some(at);
      Took(Take(s));
      var r: Reading := *;
      ghost var from, w := |worlds| - 1, View();
      ghost var worker;
      var done;
      done, worker := Reconcile(at, s, wanted, token, draining, r);
      report := Report(from, |worlds| - 1, wanted, r, done, worker);
      OthersKept(w, View(), at, s, wanted, Needed(workerResources, r.kilobits, r.outputs), r, done, worker);
      SamePass(w, View(), at, p, s, wanted, Needed(workerResources, r.kilobits, r.outputs), r, done, worker);
    }

    /** The sessions that have not ended, and whether they are wanted. */
    method ReadSessions(ghost p: Pass) returns (ghost listed: nat, todo: map<string, bool>)
      requires Valid() && pass == Some(p) && p.stage.Opened?
      modifies this`pass, this`worlds, this`actions
      ensures Valid() && old(worlds) <= worlds && old(actions) <= actions
      ensures listed == |old(actions)| < |actions| && actions[listed].ListSessions?
      ensures pass == Some(p.(todo := todo, stage := Reconciling)) && todo.Keys <= db.sessions.Keys
      ensures SoFar(worlds, listed, todo, map[], p, workerResources, db.rows, network)
    {
      hide StepAt, Initial, Room, WriteStep, MayWrite, Happen, MayHappen, Kept, SoFar;
      todo := map s | s in db.sessions && !db.sessions[s].ended :: db.sessions[s].wanted;
      listed := |actions|;
      pass := Some(p.(todo := todo, stage := Reconciling));
      Took(ListSessions);
      NothingSoFar(worlds, listed, todo, p, workerResources, db.rows, network);
    }

    /** Reads the sessions, then reconciles them one by one; one that fails is left for the next pass. */
    method ReconcileAll(ghost p: Pass, token: nat, draining: bool)
        returns (ghost listed: nat, ghost after: Pass, ghost reports: map<string, Report>)
      requires Valid() && pass == Some(p) && p.stage.Opened? && p.token == token && p.draining == draining
                && workerResources.NonNegative()
      modifies this`db, this`network, this`backups, this`pass, this`accepted, this`worlds, this`actions, agent
      ensures Valid() && old(worlds) <= worlds && old(actions) <= actions
      ensures |old(actions)| <= listed < |actions| && actions[listed].ListSessions?
      ensures pass == Some(after) && after.stage.Reconciling? && after.todo == map[] && after.token == token
                && after.no == p.no
      ensures old(network) <= network
      ensures AllReported(worlds, listed, reports, p, workerResources)
      ensures forall s | s in reports :: Lasting(worlds, reports[s].to, db.rows, network, s)
      {
      hide IsRun, Initial, Room, WriteStep, MayWrite, Happen, MayHappen, Kept, Reported, RowsOf, Lasting, SoFar,
          AllReported;
      var todo;
      listed, todo := ReadSessions(p);
      after, reports := p.(todo := todo, stage := Reconciling), map[];
      while todo != map[]
        invariant Valid() && old(worlds) <= worlds && old(actions) <= actions
        invariant |old(actions)| <= listed < |actions| && actions[listed].ListSessions?
        invariant after == p.(todo := todo, stage := Reconciling) && pass == Some(after)
        invariant todo.Keys <= db.sessions.Keys && old(network) <= network
        invariant SoFar(worlds, listed, todo, reports, p, workerResources, db.rows, network)
        decreases |todo|
      {
        var s :| s in todo;
        assert todo.Keys == (todo - {s}).Keys + {s};
        ghost var at, before, rows, sent := after, worlds, db.rows, network;
        ghost var report;
        after, report := ReconcileNext(after, s, todo[s], token, draining);
        SameReport(worlds, at, p, workerResources, s, report);
        LastingNow(worlds, report.to, db.rows, network, s);
        OneMore(before, worlds, listed, todo, reports, p, workerResources, rows, db.rows, sent, network, s, report);
        todo, reports := todo - {s}, reports[s := report];
      }
      AllTold(worlds, listed, reports, p, workerResources, db.rows, network);
    }

    /** Tells the Agent whether its node drains; without an answer the pass is over. */
    method Announce(token: nat, draining: bool) returns (done: bool)
      requires Valid() && pass == Some(Pass(passes, token, false, map[], Settled))
      modifies this`db, this`network, this`backups, this`pass, this`accepted, this`worlds, this`actions, agent
      ensures Valid() && old(worlds) <= worlds && old(actions) <= actions
      ensures done ==>
                pass.Some? && pass.value.stage.Opened? && pass.value.no == passes
                && pass.value.token == token && pass.value.draining == draining
      ensures done ==> Obeyed(worlds, actions, |old(actions)|, passes, agent.nodeId, 1, token, Drain(draining))
      ensures !done ==> pass.None? && Sent(network, passes, agent.nodeId, 1, token, Drain(draining))
    {
      hide IsRun, Initial, Room, Kept, CarriedOut;
      var now: int := *;
      ghost var m := Message(passes, Order(agent.nodeId, 1, token, now), Drain(draining));
      done := Call(pass.value, Order(agent.nodeId, 1, token, now), Drain(draining));
      assert m in network;
      if !done { GiveUp(); }
    }

    /**
    A whole pass, if admission is open and the Agent can be reached and told whether it drains.
    Every session it listed has been reconciled and is left as `LeftWell` says. If the pass reports
    success and nobody stopped a session after it listed them, every worker still running on the
    node has a wanted allocation of a wanted session.
    */
    method Once(open: bool, reached: bool, draining: bool)
        returns (done: bool, ghost looked: bool, ghost listed: nat, ghost p: Pass, ghost reports: map<string, Report>,
                 ghost swept: nat, ghost sent: set<Message>)
      requires Valid() && pass.None? && workerResources.NonNegative()
      modifies this, agent
      ensures Valid() && old(worlds) <= worlds && old(actions) <= actions && pass.None?
      ensures !open ==> !done && !looked && actions == old(actions) && View() == old(View())
      ensures looked ==> open && reached
      ensures looked ==> Obeyed(worlds, actions, |old(actions)|, passes, agent.nodeId, 1, p.token, Drain(draining))
      ensures open && reached && !looked ==>
                exists token: nat :: Sent(network, passes, agent.nodeId, 1, token, Drain(draining))
      ensures looked ==> |old(actions)| <= listed < |actions| && actions[listed].ListSessions?
      ensures looked ==> p.draining == draining && AllReported(worlds, listed, reports, p, workerResources)
      ensures looked ==> forall s | s in reports :: LeftWell(worlds, db, network, p, workerResources, s, reports[s])
      ensures looked && (forall j | listed < j < |actions| :: !actions[j].Outside? && !actions[j].Restore?) ==>
                forall s | s in reports && ToBeClosed(worlds, s, reports[s]) :: s in db.sessions && db.sessions[s].ended
      ensures done ==> looked && actions[|actions| - 1].Finish?
      ensures looked ==> StopsUnwanted(worlds, swept, sent, network) && listed < swept && sent <= network
      ensures looked && !done ==> exists m | m in network :: m.pass == p.no && m.order.StopWorker?
      ensures done && (forall j | listed < j < |actions| - 1 :: Harmless(worlds[j], actions[j])) ==>
                forall id | id in agent.workers && agent.workers[id].running
                    && agent.workers[id].spec.node == agent.nodeId :: WantedWorker(db, id)
    {
      hide IsRun, Initial, Room, Kept, Harmless, Reported, Reconciled, LeftWell, ToBeClosed, AllReported, StopsUnwanted,
          CarriedOut, Obeyed, Sent;
      listed, looked, reports, swept, sent := 0, false, map[], 0, {};
      p := Pass(0, 0, draining, map[], Fresh);
      if !open { done := false; return; }
      var token;
      done, token := TakeToken(reached);
      if !done { return; }
      ghost var from := |actions|;
      done := Announce(token, draining);
      if !done { return; }
      ghost var announced, taken := worlds, actions;
      p := pass.value;
      looked := true;
      done, listed, reports, swept, sent := Tour(p, token, draining);
      StaysObeyed(announced, taken, from, passes, agent.nodeId, 1, token, Drain(draining), worlds, actions,
        |old(actions)|);
      if done { OnlyWantedLeft(listed); }
    }

    /** The sessions, and then the workers. */
    method Tour(ghost p: Pass, token: nat, draining: bool)
        returns (done: bool, ghost listed: nat, ghost reports: map<string, Report>, ghost swept: nat,
            ghost sent: set<Message>)
      requires Valid() && pass == Some(p) && p.stage.Opened? && p.token == token && p.draining == draining
                && workerResources.NonNegative()
      modifies this`db, this`network, this`backups, this`pass, this`accepted, this`worlds, this`actions, agent
      ensures Valid() && old(worlds) <= worlds && old(actions) <= actions && pass.None?
      ensures |old(actions)| <= listed < |actions| && actions[listed].ListSessions?
      ensures AllReported(worlds, listed, reports, p, workerResources)
        ensures forall s | s in reports :: LeftWell(worlds, db, network, p, workerResources, s, reports[s])
      ensures (forall j | listed < j < |actions| :: !actions[j].Outside? && !actions[j].Restore?) ==>
                forall s | s in reports && ToBeClosed(worlds, s, reports[s]) :: s in db.sessions && db.sessions[s].ended
      ensures StopsUnwanted(worlds, swept, sent, network) && listed < swept && sent <= network
      ensures if done then actions[|actions| - 1].Finish? else exists m | m in network ::
                m.pass == p.no && m.order.StopWorker?
    {
      hide IsRun, Initial, Room, Kept, Reported, Reconciled, LeftWell, ToBeClosed, Lasting, Needed, AllReported,
          StopsUnwanted;
      ghost var after;
      listed, after, reports := ReconcileAll(p, token, draining);
      ghost var before := worlds;
      swept, sent := |worlds| - 1, network;
      LastIsNow();
      done := Sweep(after, token);
      AllWell(before, worlds, listed, reports, p, workerResources, db, sent, network);
      ClosedAreEnded(listed, p, reports);
    }

    lemma ClosedAreEnded(listed: nat, p: Pass, reports: map<string, Report>)
      requires Valid() && listed < |actions|
      requires AllReported(worlds, listed, reports, p, workerResources)
      ensures (forall j | listed < j < |actions| :: !actions[j].Outside? && !actions[j].Restore?) ==>
                forall s | s in reports && ToBeClosed(worlds, s, reports[s]) :: s in db.sessions && db.sessions[s].ended
    {
      hide Initial, StepAt, Room, Tended, LeftForLater, RowsOf, RoomForNew, RoomForOwn;
      if forall j | listed < j < |actions| :: !actions[j].Outside? && !actions[j].Restore? {
        forall s | s in reports && ToBeClosed(worlds, s, reports[s]) ensures s in db.sessions && db.sessions[s].ended {
          assert Reported(worlds, p, workerResources, s, reports[s]);
          EndedStaysEnded(worlds, actions, reports[s].to, |worlds| - 1, s);
        }
      }
    }

    lemma OnlyWantedLeft(listed: nat)
      requires Valid() && listed < |actions| - 1 && actions[listed].ListSessions? && actions[|actions| - 1].Finish?
      ensures (forall j | listed < j < |actions| - 1 :: Harmless(worlds[j], actions[j])) ==>
                forall id | id in agent.workers && agent.workers[id].running
                    && agent.workers[id].spec.node == agent.nodeId :: WantedWorker(db, id)
    {
      hide StepAt, Initial, Room, Kept, Harmless;
      if forall j | listed < j < |actions| - 1 :: Harmless(worlds[j], actions[j]) {
        forall id | id in agent.workers && agent.workers[id].running
            && agent.workers[id].spec.node == agent.nodeId ensures WantedWorker(db, id) {
          FinishedPassLeavesOnlyWanted(worlds, actions, listed, |actions| - 1, id);
        }
      }
    }
  }
}
