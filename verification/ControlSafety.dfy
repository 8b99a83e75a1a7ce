/**
The invariants of the control loop, and the proof that every step keeps them.

`Tokens` is about fencing, `Rows` about the allocation table, `Staffed` about the workers and
the starts that may still reach the Agent; `Room`, from the Agent, is about its own capacity.
*/
module ControlSafety {
  import opened Resources
  import opened Agents
  import opened ControlLoop

  // ---------------------------------------------------------------- what the Agent may do to a message

  predicate SameWorker(was: Worker, now: Worker) {
    now == was.(running := now.running, spec := was.spec.(resources := now.spec.resources))
        && (now.running ==> was.running)
  }

  /** A handler touches workers only when it accepted the command; a worker is then new only if this command starts it. */
  ghost predicate HandledWell(a: AgentState, m: Message, r: Outcome) {
    && r.agent.node == a.node && r.agent.capacity == a.capacity
    && r.agent.file >= a.file && (a.fence <= a.file ==> r.agent.fence <= r.agent.file)
    && (r.agent.file == a.file || r.agent.file == m.command.token)
    && (r.accepted ==> a.file <= m.command.token <= r.agent.file)
    && (!r.accepted ==> r.agent.workers == a.workers && !r.ok)
    && (r.ok && m.order.StopWorker? && m.command.resource in r.agent.workers ==>
        !r.agent.workers[m.command.resource].running)
    && forall id | id in r.agent.workers ::
         || (id in a.workers && SameWorker(a.workers[id], r.agent.workers[id]))
         || (m.order.StartWorker? && m.order.spec.allocation == id
             && r.agent.workers[id] == Worker(id, m.order.spec, true))
  }

  lemma AcceptHandles(a: AgentState, m: Message, now: int, fate: Fate)
    ensures var r := Accept(a, m.command, now, fate);
            && (r.agent.file == a.file || r.agent.file == m.command.token)
            && (a.fence <= a.file ==> r.agent.fence <= r.agent.file)
            && (r.accepted ==> a.file <= m.command.token && (a.fence <= a.file ==> m.command.token <= r.agent.file))
  {
  }

  lemma HandleIsWell(a: AgentState, m: Message, now: int, fate: Fate)
    requires a.fence <= a.file
    ensures HandledWell(a, m, Handle(a, m, now, fate))
  {
    hide Accept, Admits, Agrees, Total, WholeLoad, Positive, Vector.Fits;
    AcceptHandles(a, m, now, fate);
  }

  lemma HandleKeepsRoom(a: AgentState, m: Message, now: int, fate: Fate)
    requires Room(a)
    ensures Room(Handle(a, m, now, fate).agent)
  {
    hide AfterStart, AfterStop, AfterDestinations, Accept, Roomy;
    match m.order
    case StartWorker(spec) => StartKeepsRoom(a, m.command, spec, now, fate);
    case StopWorker => StopKeepsRoom(a, m.command, now, fate);
    case Redirect(resources) => DestinationsKeepRoom(a, m.command, resources, now, fate);
    case Reslate =>
    case Drain(_) =>
  }

  // ---------------------------------------------------------------- tokens

  predicate Ordered(m: Message, n: Message) {
    && (m.pass < n.pass ==> m.command.token < n.command.token)
    && (m.pass == n.pass ==> m.command.token == n.command.token)
  }

  predicate ByPass(accepted: seq<Message>) {
    forall i, j | 0 <= i < j < |accepted| :: accepted[i].pass <= accepted[j].pass
  }

  predicate FromItsPass(w: World, m: Message) {
    w.epoch < m.pass <= w.passes && m.command.token <= w.db.counter
  }

  predicate StillKnown(w: World, m: Message) {
    m.pass <= w.passes && (m.pass > w.epoch ==> m in w.inflight && m.command.token <= w.agent.file)
  }

  predicate BelowPass(p: Pass, m: Message) {
    && (m.pass < p.no ==> m.command.token < p.token)
    && (m.pass == p.no ==> m.command.token == p.token && Bound(p.stage))
  }

  predicate PassTokens(w: World, p: Pass) {
    && w.epoch < p.no == w.passes && p.token <= w.db.counter
    && (forall m | m in w.inflight :: BelowPass(p, m))
    && (p.stage.Heard? ==> w.agent.file <= p.stage.seen || w.agent.file < p.token)
    && (Bound(p.stage) ==> w.agent.file <= p.token)
    && (Open(p.stage) ==> p.token <= w.agent.file)
  }

  predicate Tokens(w: World) {
    && w.agent.fence <= w.agent.file && w.epoch <= w.passes
    && (forall m | m in w.inflight :: FromItsPass(w, m))
    && (forall m, n | m in w.inflight && n in w.inflight :: Ordered(m, n))
    && (forall m | m in w.accepted :: StillKnown(w, m))
    && ByPass(w.accepted)
    && (w.pass.Some? ==> PassTokens(w, w.pass.value))
  }

  lemma SendKeepsTokens(w: World, a: Action)
    requires Tokens(w) && MayPass(w, a) && a.Send?
    ensures Tokens(PassStep(w, a))
  {
    hide ByPass, Kept, OwnRow;
  }

  lemma FencesKeepTokens(w: World, a: Action)
    requires Tokens(w) && MayPass(w, a) && (a.Begin? || a.Hear? || a.Settle?)
    ensures Tokens(PassStep(w, a))
  {
    hide ByPass, Ordered, Sendable, Kept;
  }

  lemma PassKeepsTokens(w: World, a: Action)
    requires Tokens(w) && MayPass(w, a)
    ensures Tokens(PassStep(w, a))
  {
    hide ByPass, Ordered, Sendable, Kept;
    if a.Send? { SendKeepsTokens(w, a); } else if a.Begin? || a.Hear? || a.Settle? { FencesKeepTokens(w, a); }
  }

  lemma WriteKeepsTokens(w: World, a: Action)
    requires Tokens(w) && MayWrite(w, a)
    ensures Tokens(WriteStep(w, a))
  {
    hide MayInsert, MayReserve, Total, ByPass, Ordered;
  }

  lemma AcceptedInOrder(w: World, m: Message)
    requires Tokens(w) && m in w.inflight && w.agent.file <= m.command.token
    ensures ByPass(w.accepted + [m])
  {
    forall i | 0 <= i < |w.accepted| ensures w.accepted[i].pass <= m.pass {
      assert w.accepted[i] in w.accepted;
      assert StillKnown(w, w.accepted[i]) && FromItsPass(w, m);
      if w.accepted[i].pass > w.epoch { assert Ordered(m, w.accepted[i]); }
    }
  }

  lemma DeliverKeepsTokens(w: World, m: Message, now: int, fate: Fate, replied: bool)
    requires Tokens(w) && m in w.inflight
    ensures Tokens(Happen(w, Deliver(m, now, fate, replied)))
  {
    hide Handle, ByPass;
    HandleIsWell(w.agent, m, now, fate);
    var r := Handle(w.agent, m, now, fate);
    if r.accepted { AcceptedInOrder(w, m); }
  }

  lemma HappenKeepsTokens(w: World, a: Action)
    requires Tokens(w) && MayHappen(w, a)
    ensures Tokens(Happen(w, a))
  {
    hide Handle, ByPass;
    if a.Deliver? { DeliverKeepsTokens(w, a.message, a.now, a.fate, a.replied); }
  }

  lemma NextKeepsTokens(w: World, a: Action)
    requires Tokens(w) && Enabled(w, a)
    ensures Tokens(Next(w, a))
  {
    hide Tokens, PassStep, WriteStep, Happen, MayPass, MayWrite, MayHappen;
    if Passing(a) { PassKeepsTokens(w, a); } else if Writing(a) { WriteKeepsTokens(w, a); }
        else { HappenKeepsTokens(w, a); }
  }

  // ---------------------------------------------------------------- the allocation table

  predicate RowFits(r: Row) {
    r.wanted == r.Live() && Storable(r.resources)
  }

  predicate Table(rows: map<string, Row>) {
    forall id | id in rows :: RowFits(rows[id])
  }

  predicate OneEach(rows: map<string, Row>) {
    forall a, b | a in rows && b in rows && rows[a].Live() && rows[b].Live()
        && rows[a].session == rows[b].session :: a == b
  }

  /** The live allocations of the node never need more than the node has, in any dimension. */
  ghost predicate TableRoom(rows: map<string, Row>, node: string, capacity: Vector) {
    LiveHere(rows, node) == map[] || Total(LiveHere(rows, node)).Fits(capacity)
  }

  ghost predicate Rows(w: World) {
    && Table(w.db.rows) && OneEach(w.db.rows) && TableRoom(w.db.rows, w.agent.node, w.agent.capacity)
    && forall b | b in w.backups :: Table(b.database.rows)
  }

  lemma {:induction false} OneSlotEach<K(!new)>(m: map<K, Vector>)
    requires forall k | k in m :: m[k].slots == 1
    ensures Total(m).slots == |m|
    decreases |m|
  {
    if m != map[] {
      var k :| k in m;
      assert m.Keys == (m - {k}).Keys + {k};
      assert |m - {k}| == |m| - 1;
      OneSlotEach(m - {k});
      TotalOf(m, k);
    }
  }

  lemma FewerKeepTableRoom(before: map<string, Row>, after: map<string, Row>, node: string, capacity: Vector)
    requires Table(before) && TableRoom(before, node, capacity)
    requires forall id | id in LiveHere(after, node) ::
              id in LiveHere(before, node) && after[id].resources == before[id].resources
    ensures TableRoom(after, node, capacity)
  {
    hide Total;
    TotalGrows(LiveHere(after, node), LiveHere(before, node));
  }

  lemma InsertKeepsTableRoom(rows: map<string, Row>, node: string, capacity: Vector, id: string, r: Row)
    requires Table(rows) && TableRoom(rows, node, capacity) && id !in rows && r.Live() && r.node == node
              && Storable(r.resources)
    requires |LiveHere(rows, node)| < capacity.slots
    requires FitsBesideSlots(r.resources, capacity.Sub(Total(LiveHere(rows, node))))
    ensures TableRoom(rows[id := r], node, capacity)
  {
    hide Total, TableRoom;
    var here := LiveHere(rows, node);
    assert forall k | k in here :: RowFits(rows[k]);
    OneSlotEach(here);
    assert here - {id} == here;
    PutFits(here, id, r.resources, capacity);
    assert LiveHere(rows[id := r], node) == here[id := r.resources];
    assert TableRoom(rows[id := r], node, capacity) by { RoomIs(rows[id := r], node, capacity); }
  }

  lemma RoomIs(rows: map<string, Row>, node: string, capacity: Vector)
    requires Total(LiveHere(rows, node)).Fits(capacity)
    ensures TableRoom(rows, node, capacity)
  {
  }

  lemma InsertKeepsRows(w: World, a: Action)
    requires Rows(w) && MayWrite(w, a) && a.InsertRow?
    ensures Rows(WriteStep(w, a))
  {
    hide Total, TableRoom, LiveHere, FitsBesideSlots;
    InsertKeepsTableRoom(w.db.rows, w.agent.node, w.agent.capacity, a.id, WriteStep(w, a).db.rows[a.id]);
  }

  lemma ReserveKeepsRows(w: World, a: Action)
    requires Rows(w) && MayWrite(w, a) && a.Reserve?
    ensures Rows(WriteStep(w, a))
  {
    hide Total;
    var here := LiveHere(w.db.rows, w.agent.node);
    assert RowFits(w.db.rows[a.id]);
    var rest := here - {a.id};
    assert forall id | id in here :: RowFits(w.db.rows[id]);
    TotalOf(here, a.id);
    PutFits(here, a.id, a.resources, w.agent.capacity) by {
      assert Total(here).slots == Total(rest).slots + 1;
    }
    assert LiveHere(WriteStep(w, a).db.rows, w.agent.node) == here[a.id := a.resources];
  }

  lemma WriteKeepsRows(w: World, a: Action)
    requires Rows(w) && MayWrite(w, a)
    ensures Rows(WriteStep(w, a))
  {
    hide Total, Vector.Fits, Vector.NonNegative, MayInsert, MayReserve, TableRoom, NoLiveRow;
    if a.InsertRow? {
      InsertKeepsRows(w, a);
    } else if a.Reserve? {
      ReserveKeepsRows(w, a);
    } else {
      FewerKeepTableRoom(w.db.rows, WriteStep(w, a).db.rows, w.agent.node, w.agent.capacity);
    }
  }

  lemma NextKeepsRows(w: World, a: Action)
    requires Tokens(w) && Rows(w) && Enabled(w, a)
    ensures Rows(Next(w, a))
  {
    hide Total, Vector.Fits, MayWrite, WriteStep, Handle, Tokens;
    if Passing(a) {
    } else if Writing(a) {
      WriteKeepsRows(w, a);
    } else if a.Deliver? {
      assert w.agent.fence <= w.agent.file by { TokensFence(w); }
      HandleIsWell(w.agent, a.message, a.now, a.fate);
    } else if a.Restore? {
      assert LiveHere(Closed(a.backup.database).rows, w.agent.node) == map[];
    }
  }

  lemma TokensFence(w: World)
    requires Tokens(w)
    ensures w.agent.fence <= w.agent.file
  {
  }

  // ---------------------------------------------------------------- workers and starts

  /** A worker has its row, no older than itself, and while it runs the row is live. */
  predicate HasRow(db: Database, id: string, worker: Worker) {
    && id in db.rows && worker.spec.generation <= db.rows[id].generation
    && worker.spec.allocation == id && (worker.running ==> db.rows[id].Live())
  }

  /** A start under way was committed before, and as long as the Agent would still accept it its row is live. */
  predicate Committed(w: World, m: Message) {
    m.order.StartWorker? ==>
      var spec := m.order.spec;
      && spec.allocation in w.db.rows && spec.generation <= w.db.rows[spec.allocation].generation
      && (m.command.token >= w.agent.file ==> w.db.rows[spec.allocation].Live())
  }

  /** A start of this very pass is for a session the pass has dealt with already, or is starting now. */
  predicate DoneWith(w: World, p: Pass, m: Message) {
    m.order.StartWorker? && m.pass == p.no && m.order.spec.allocation in w.db.rows ==>
      var s := w.db.rows[m.order.spec.allocation].session;
      && s !in p.todo
      && (p.stage.Working? && p.stage.session == s ==> p.stage.progress.Started?)
  }

  predicate PassStaffed(w: World, p: Pass) {
    && (Listed(p.stage) || forall m | m in w.inflight :: m.pass == p.no ==> !m.order.StartWorker?)
    && (forall m | m in w.inflight :: DoneWith(w, p, m))
    && (p.stage.Working? ==> p.stage.session !in p.todo)
    && (p.stage.Working? && p.stage.progress.Gone? ==> NotRunning(w, p.stage.session, p.stage.progress.id))
    && (p.stage.Working? && p.stage.progress.Started? ==>
          var spec := p.stage.progress.spec;
          && LiveRowOf(w.db, p.stage.session, spec.allocation)
              && spec.generation <= w.db.rows[spec.allocation].generation
          && p.stage.wanted)
  }

  predicate NotRunning(w: World, session: string, id: string) {
    id in w.db.rows && w.db.rows[id].session == session && id in w.agent.workers ==> !w.agent.workers[id].running
  }

  predicate Staffed(w: World) {
    && (forall id | id in w.agent.workers :: HasRow(w.db, id, w.agent.workers[id]))
    && (forall m | m in w.inflight :: Committed(w, m))
    && (w.pass.Some? ==> PassStaffed(w, w.pass.value))
  }

  lemma SendKeepsStaffed(w: World, a: Action)
    requires Tokens(w) && Staffed(w) && MayPass(w, a) && a.Send?
    ensures Staffed(PassStep(w, a))
  {
    hide ByPass, Ordered;
  }

  lemma PassKeepsStaffed(w: World, a: Action)
    requires Tokens(w) && Staffed(w) && MayPass(w, a)
    ensures Staffed(PassStep(w, a))
  {
    hide ByPass, Ordered, Sendable, StillKnown;
    if a.Send? { SendKeepsStaffed(w, a); }
  }

  /** While a pass closes a session, every start under way for it is one the Agent would refuse. */
  lemma StartsAreFenced(w: World, m: Message)
    requires Tokens(w) && Staffed(w) && w.pass.Some? && w.pass.value.stage.Working?
              && !w.pass.value.stage.progress.Started?
    requires m in w.inflight && m.order.StartWorker? && m.order.spec.allocation in w.db.rows
    requires w.db.rows[m.order.spec.allocation].session == w.pass.value.stage.session
    ensures m.command.token < w.agent.file
  {
    var p := w.pass.value;
    assert FromItsPass(w, m) && BelowPass(p, m) && DoneWith(w, p, m);
  }

  lemma CloseKeepsStaffed(w: World, a: Action)
    requires Tokens(w) && Rows(w) && Staffed(w) && MayWrite(w, a) && (a.CloseSession? || a.CloseRow? || a.FailRow?)
    ensures Staffed(WriteStep(w, a))
  {
    hide Tokens, TableRoom;
    var after, s := WriteStep(w, a), w.pass.value.stage.session;
    forall id | id in w.agent.workers ensures HasRow(after.db, id, w.agent.workers[id]) {
      assert HasRow(w.db, id, w.agent.workers[id]);
    }
    forall m | m in after.inflight ensures Committed(after, m) && DoneWith(after, after.pass.value, m) {
      assert Committed(w, m) && DoneWith(w, w.pass.value, m);
      if m.order.StartWorker? && w.db.rows[m.order.spec.allocation].session == s { StartsAreFenced(w, m); }
    }
  }

  lemma LaunchKeepsStaffed(w: World, a: Action)
    requires Staffed(w) && MayWrite(w, a) && a.Launch?
    ensures Staffed(WriteStep(w, a))
  {
    hide Ended;
  }

  lemma WriteKeepsStaffed(w: World, a: Action)
    requires Tokens(w) && Rows(w) && Staffed(w) && MayWrite(w, a)
    ensures Staffed(WriteStep(w, a))
  {
    hide Tokens, Rows, MayInsert, MayReserve, Storable;
    if a.CloseSession? || a.CloseRow? || a.FailRow? { CloseKeepsStaffed(w, a); }
        else if a.Launch? { LaunchKeepsStaffed(w, a); }
  }

  lemma DeliverKeepsStaffed(w: World, m: Message, now: int, fate: Fate, replied: bool)
    requires Tokens(w) && Staffed(w) && m in w.inflight
    ensures Staffed(Happen(w, Deliver(m, now, fate, replied)))
  {
    hide Handle, ByPass, Ordered;
    HandleIsWell(w.agent, m, now, fate);
    var after := Happen(w, Deliver(m, now, fate, replied));
    forall id | id in after.agent.workers ensures HasRow(after.db, id, after.agent.workers[id]) {
      assert Committed(w, m);
      if id in w.agent.workers { assert HasRow(w.db, id, w.agent.workers[id]); }
    }
  }

  lemma HappenKeepsStaffed(w: World, a: Action)
    requires Tokens(w) && Staffed(w) && MayHappen(w, a)
    ensures Staffed(Happen(w, a))
  {
    hide Handle, Tokens;
    if a.Deliver? { DeliverKeepsStaffed(w, a.message, a.now, a.fate, a.replied); }
  }

  // ---------------------------------------------------------------- all together

  ghost predicate Inv(w: World) {
    Tokens(w) && Rows(w) && Staffed(w) && Room(w.agent)
  }

  lemma NextKeepsStaffed(w: World, a: Action)
    requires Tokens(w) && Rows(w) && Staffed(w) && Enabled(w, a)
    ensures Staffed(Next(w, a))
  {
    hide Tokens, Rows, Staffed, PassStep, WriteStep, Happen, MayPass, MayWrite, MayHappen;
    if Passing(a) { PassKeepsStaffed(w, a); } else if Writing(a) { WriteKeepsStaffed(w, a); }
        else { HappenKeepsStaffed(w, a); }
  }

  lemma ExitKeepsRoom(a: AgentState, id: string)
    requires Room(a) && id in a.workers
    ensures Room(a.(workers := Halted(a.workers, id))) && Room(a.(workers := a.workers - {id}))
  {
    hide Total;
    TotalGrows(Load(Halted(a.workers, id), a.node), Load(a.workers, a.node));
    TotalGrows(Load(a.workers - {id}, a.node), Load(a.workers, a.node));
  }

  lemma NextKeepsRoom(w: World, a: Action)
    requires Room(w.agent) && Enabled(w, a)
    ensures Room(Next(w, a).agent)
  {
    hide Handle, Total, MayWrite, MayPass, Roomy;
    if a.Deliver? {
      HandleKeepsRoom(w.agent, a.message, a.now, a.fate);
    } else if a.WorkerExits? || a.WorkerRemoved? {
      ExitKeepsRoom(w.agent, a.worker);
    }
  }

  lemma NextKeepsInv(w: World, a: Action)
    requires Inv(w) && Enabled(w, a)
    ensures Inv(Next(w, a))
  {
    hide Tokens, Rows, Staffed, Room, Enabled, Next;
    NextKeepsTokens(w, a);
    NextKeepsRows(w, a);
    NextKeepsStaffed(w, a);
    NextKeepsRoom(w, a);
  }
}
