/**
The node Agent: a file that remembers the highest fencing token, and the workers it runs.

`AgentState` is the state of one Agent together with its runtime. The functions say what each
handler does to it; what the disk and the runtime answer is the `Fate` of the call. The class
`Agent` has the handlers that change it in place, each proved to do what its function says.
*/
module Agents {
  import opened Options
  import opened Resources

  datatype Command = Command(resource: string, generation: nat, token: nat, deadline: int) {
    predicate Valid(now: int) {
      resource != "" && generation > 0 && token > 0 && deadline > now
    }
  }

  datatype Spec = Spec(allocation: string, session: string, node: string, image: string, generation: nat, token: nat,
      resources: Vector)

  datatype Worker = Worker(id: string, spec: Spec, running: bool)

  /** `file` is the watermark as the file system shows it; `disk` is what a power loss leaves of it. */
  datatype AgentState = AgentState(
    node: string, image: string, capacity: Vector,
    disk: nat, file: nat, fence: nat, draining: bool, workers: map<string, Worker>)

  /** How far a write of the watermark gets: not to the rename, not to the directory's own sync, or all the way. */
  datatype Write = Unwritten | Unsynced | Synced

  /** What a handler meets: whether admission is open, the disk, and the runtime. */
  datatype Fate = Fate(open: bool, readable: bool, write: Write, works: bool)

  datatype Outcome = Outcome(agent: AgentState, accepted: bool, ok: bool)

  function Max(a: nat, b: nat): nat {
    if a < b then b else a
  }

  // ---------------------------------------------------------------- the watermark

  function Read(a: AgentState): AgentState {
    a.(fence := Max(a.fence, a.file))
  }

  /** A complete command in time, no older than what is remembered, and remembered itself if it is newer. */
  predicate Acceptable(a: AgentState, c: Command, now: int, fate: Fate) {
    && c.resource != "" && c.generation > 0 && c.token > 0 && now < c.deadline && fate.readable
    && a.fence <= c.token && a.file <= c.token
    && (c.token == a.fence || c.token == a.file || fate.write.Synced?)
  }

  /** Only the watermark changes, and it never goes back. */
  function Accept(a: AgentState, c: Command, now: int, fate: Fate): (r: Outcome)
    ensures r.accepted <==> Acceptable(a, c, now, fate)
    ensures r.accepted && a.fence < c.token && a.file < c.token ==> r.agent.file == r.agent.disk == c.token
    ensures r.agent == a.(disk := r.agent.disk, file := r.agent.file, fence := r.agent.fence)
    ensures r.agent.file >= a.file && r.agent.fence >= a.fence
    ensures r.ok == r.accepted
    ensures r.accepted ==> r.agent.fence == c.token >= Max(a.fence, a.file)
  {
    if !c.Valid(now) || !fate.readable then Outcome(a, false, false)
    else
      var b := Read(a);
      if c.token < b.fence then Outcome(b, false, false)
      else if c.token == b.fence then Outcome(b, true, true)
      else match fate.write
        case Unwritten => Outcome(b, false, false)
        case Unsynced => Outcome(b.(file := c.token), false, false)
        case Synced => Outcome(b.(disk := c.token, file := c.token, fence := c.token), true, true)
  }

  // ---------------------------------------------------------------- the load of the node

  predicate Here(w: Worker, node: string) {
    w.spec.node == "" || w.spec.node == node
  }

  /** The resources of the running workers of the node. */
  function Load(workers: map<string, Worker>, node: string): map<string, Vector> {
    map id | id in workers && workers[id].running && Here(workers[id], node) :: workers[id].spec.resources
  }

  function WholeLoad(workers: map<string, Worker>): map<string, Vector> {
    map id | id in workers && workers[id].running :: workers[id].spec.resources
  }

  predicate WellFormed(workers: map<string, Worker>) {
    forall id | id in workers ::
      workers[id].id == id == workers[id].spec.allocation && workers[id].spec.resources.NonNegative()
  }

  /** The workers that run on the node never need more than the node has, in any dimension. */
  ghost predicate Roomy(workers: map<string, Worker>, node: string, capacity: Vector) {
    && WellFormed(workers)
    && (Load(workers, node) == map[] || Total(Load(workers, node)).Fits(capacity))
  }

  ghost predicate Room(a: AgentState) {
    Roomy(a.workers, a.node, a.capacity)
  }

  // ---------------------------------------------------------------- the handlers

  predicate Letter(c: char) {
    'a' <= c <= 'z' || 'A' <= c <= 'Z' || '0' <= c <= '9'
  }

  predicate ValidId(id: string) {
    && 1 <= |id| <= 80 && Letter(id[0])
    && forall i | 1 <= i < |id| :: Letter(id[i]) || id[i] == '_' || id[i] == '-'
  }

  predicate ValidStart(spec: Spec) {
    && ValidId(spec.allocation)
    && spec.resources.slots > 0 && spec.resources.NonNegative()
    && spec.session != "" && spec.image != "" && spec.generation > 0 && spec.token > 0
  }

  predicate Agrees(a: AgentState, c: Command, spec: Spec) {
    && c.resource == spec.allocation && c.generation == spec.generation && c.token == spec.token
    && (spec.node == "" || spec.node == a.node)
    && (a.image == "" || spec.image == a.image)
    && ValidStart(spec)
  }

  /** What the runtime does with a start: refuse an older token, keep the very same worker, or replace. */
  function Launched(workers: map<string, Worker>, spec: Spec): Option<map<string, Worker>> {
    if spec.allocation in workers && spec.token < workers[spec.allocation].spec.token then None
    else if spec.allocation in workers && workers[spec.allocation].running
         && spec.generation == workers[spec.allocation].spec.generation
             && spec.token == workers[spec.allocation].spec.token then Some(workers)
    else Some(workers[spec.allocation := Worker(spec.allocation, spec, true)])
  }

  ghost predicate Admits(a: AgentState, spec: Spec) {
    && (a.draining ==>
        spec.allocation in a.workers && Here(a.workers[spec.allocation], a.node) && a.workers[spec.allocation].running)
    && spec.resources.Fits(a.capacity.Sub(Total(Load(a.workers, a.node) - {spec.allocation})))
  }

  /** The resources fit into the capacity beside those of others, dimension by dimension. */
  predicate FitBeside(r: Vector, others: Vector, capacity: Vector) {
    && r.slots + others.slots <= capacity.slots && r.cpuMillis + others.cpuMillis <= capacity.cpuMillis
    && r.memoryBytes + others.memoryBytes <= capacity.memoryBytes
    && r.ingressBps + others.ingressBps <= capacity.ingressBps && r.egressBps + others.egressBps <= capacity.egressBps
  }

  lemma FitsTheRest(r: Vector, others: Vector, capacity: Vector)
    ensures r.Fits(capacity.Sub(others)) <==> FitBeside(r, others, capacity)
  {
  }

  /** One to eighty letters, digits, underscores and hyphens, the first a letter or digit. */
  predicate PlainName(id: string) {
    && 0 < |id| < 81 && id[0] != '_' && id[0] != '-'
    && forall i | 0 <= i < |id| ::
         var c := id[i];
         'a' <= c <= 'z' || 'A' <= c <= 'Z' || '0' <= c <= '9' || c == '_' || c == '-'
  }

  lemma ValidIsPlain(id: string)
    ensures ValidId(id) <==> PlainName(id)
  {
  }

  predicate RunsHere(a: AgentState, id: string) {
    id in a.workers && a.workers[id].running && (a.workers[id].spec.node == "" || a.workers[id].spec.node == a.node)
  }

  /** When a start succeeds. */
  ghost predicate Startable(a: AgentState, c: Command, spec: Spec, now: int, fate: Fate) {
    && fate.open && fate.works && Acceptable(a, c, now, fate)
    && c.resource == spec.allocation && c.generation == spec.generation && c.token == spec.token
    && (spec.node == "" || spec.node == a.node) && (a.image == "" || spec.image == a.image)
    && PlainName(spec.allocation) && spec.session != "" && spec.image != "" && spec.resources.slots >= 1
    && spec.resources.cpuMillis >= 0 && spec.resources.memoryBytes >= 0
    && spec.resources.ingressBps >= 0 && spec.resources.egressBps >= 0
    && (a.draining ==> RunsHere(a, spec.allocation))
    && FitBeside(spec.resources, Total(Load(a.workers, a.node) - {spec.allocation}), a.capacity)
    && (spec.allocation in a.workers ==> spec.token >= a.workers[spec.allocation].spec.token)
  }

  ghost function AfterStart(a: AgentState, c: Command, spec: Spec, now: int, fate: Fate): Outcome {
    if !fate.open || !Agrees(a, c, spec) then Outcome(a, false, false)
    else
      var heard := Accept(a, c, now, fate);
      if !heard.accepted || !fate.works || !Admits(heard.agent, spec) then heard.(ok := false)
      else match Launched(heard.agent.workers, spec)
        case None => heard.(ok := false)
        case Some(workers) => Outcome(heard.agent.(workers := workers), true, true)
  }

  function Halted(workers: map<string, Worker>, id: string): map<string, Worker> {
    if id in workers then workers[id := workers[id].(running := false)] else workers
  }

  /** Stopping a worker that is not there is a success. */
  function AfterStop(a: AgentState, c: Command, now: int, fate: Fate): Outcome {
    var heard := Accept(a, c, now, fate);
    if !heard.accepted || !fate.works then heard.(ok := false)
    else Outcome(heard.agent.(workers := Halted(heard.agent.workers, c.resource)), true, true)
  }

  predicate Positive(r: Vector) {
    r.slots == 1 && r.cpuMillis > 0 && r.memoryBytes > 0 && r.ingressBps > 0 && r.egressBps > 0
  }

  function Resized(workers: map<string, Worker>, id: string, resources: Vector): map<string, Worker>
    requires id in workers
  {
    workers[id := workers[id].(spec := workers[id].spec.(resources := resources))]
  }

  /** New destinations bring new resources with them; unlike a start, they are weighed against every node's workers. */
  ghost function AfterDestinations(a: AgentState, c: Command, resources: Vector, now: int, fate: Fate): Outcome {
    var heard := Accept(a, c, now, fate);
    if !heard.accepted || !fate.works || !Positive(resources) || c.resource !in a.workers
       || !resources.Fits(a.capacity.Sub(Total(WholeLoad(a.workers) - {c.resource}))) then heard.(ok := false)
    else Outcome(heard.agent.(workers := Resized(a.workers, c.resource, resources)), true, true)
  }

  function AfterSlate(a: AgentState, c: Command, now: int, fate: Fate): Outcome {
    var heard := Accept(a, c, now, fate);
    heard.(ok := heard.accepted && fate.works && c.resource in a.workers)
  }

  function AfterDraining(a: AgentState, c: Command, on: bool, now: int, fate: Fate): Outcome {
    var heard := Accept(a, c, now, fate);
    if !heard.accepted then heard else heard.(agent := heard.agent.(draining := on))
  }

  function Restarted(a: AgentState): AgentState {
    a.(fence := 0, draining := false)
  }

  // ---------------------------------------------------------------- what the load promises

  lemma {:induction false} TotalGrows<K(!new)>(small: map<K, Vector>, large: map<K, Vector>)
    requires forall k | k in small :: k in large && small[k] == large[k]
    requires forall k | k in large :: large[k].NonNegative()
    ensures Total(small).Fits(Total(large))
    decreases |large|
  {
    hide Total;
    if k :| k in large && k !in small {
      assert |large - {k}| < |large| by { assert large.Keys == (large - {k}).Keys + {k}; }
      TotalGrows(small, large - {k});
      TotalOf(large, k);
    } else {
      assert small == large;
    }
  }

  lemma PutFits<K(!new)>(m: map<K, Vector>, k: K, v: Vector, capacity: Vector)
    requires v.Fits(capacity.Sub(Total(m - {k})))
    ensures Total(m[k := v]).Fits(capacity)
  {
    hide Total;
    TotalPut(m, k, v);
  }

  lemma LaunchKeepsRoom(a: AgentState, spec: Spec)
    requires Room(a) && Admits(a, spec) && spec.resources.NonNegative() && Here(Worker("", spec, true), a.node)
    requires Launched(a.workers, spec).Some?
    ensures Roomy(Launched(a.workers, spec).value, a.node, a.capacity)
  {
    hide Total, Vector.Fits;
    var workers := Launched(a.workers, spec).value;
    if workers != a.workers {
      PutFits(Load(a.workers, a.node), spec.allocation, spec.resources, a.capacity);
      assert Load(workers, a.node) == Load(a.workers, a.node)[spec.allocation := spec.resources];
    }
  }

  lemma StartKeepsRoom(a: AgentState, c: Command, spec: Spec, now: int, fate: Fate)
    requires Room(a)
    ensures Room(AfterStart(a, c, spec, now, fate).agent)
  {
    hide Roomy, Launched, ValidId, Admits, Accept, Vector.Fits;
    var heard := Accept(a, c, now, fate);
    if AfterStart(a, c, spec, now, fate).ok { LaunchKeepsRoom(heard.agent, spec); }
  }

  /**
  A start succeeds exactly when it may; then the allocation runs under the command's generation and
  token, and nothing else changes.
  */
  lemma StartIsExact(a: AgentState, c: Command, spec: Spec, now: int, fate: Fate)
    ensures var r := AfterStart(a, c, spec, now, fate);
            && (r.ok <==> Startable(a, c, spec, now, fate))
            && (!r.ok ==> r.agent.workers == a.workers)
            && (r.ok ==>
                  && r.agent.workers - {spec.allocation} == a.workers - {spec.allocation}
                  && spec.allocation in r.agent.workers
                  && var worker := r.agent.workers[spec.allocation];
                     && worker.running && worker.spec.generation == c.generation && worker.spec.token == c.token
                     && (worker == Worker(spec.allocation, spec, true) || a.workers == r.agent.workers))
  {
    hide Accept, Total, ValidId, PlainName;
    AcceptedExactly(a, c, now, fate);
    ValidIsPlain(spec.allocation);
  }

  lemma AcceptedExactly(a: AgentState, c: Command, now: int, fate: Fate)
    ensures var r := Accept(a, c, now, fate);
            && (r.accepted <==> Acceptable(a, c, now, fate))
            && r.agent == a.(disk := r.agent.disk, file := r.agent.file, fence := r.agent.fence)
  {
  }

  lemma StopKeepsRoom(a: AgentState, c: Command, now: int, fate: Fate)
    requires Room(a)
    ensures Room(AfterStop(a, c, now, fate).agent)
  {
    hide Total, Accept;
    var workers := Halted(a.workers, c.resource);
    TotalGrows(Load(workers, a.node), Load(a.workers, a.node));
  }

  lemma ResizeKeepsRoom(a: AgentState, id: string, resources: Vector)
    requires Room(a) && id in a.workers && resources.NonNegative()
    requires resources.Fits(a.capacity.Sub(Total(WholeLoad(a.workers) - {id})))
    ensures Roomy(Resized(a.workers, id, resources), a.node, a.capacity)
  {
    hide Total;
    var workers, here, every := Resized(a.workers, id, resources), Load(a.workers, a.node), WholeLoad(a.workers);
    if id in here {
      TotalGrows(here - {id}, every - {id});
      PutFits(here, id, resources, a.capacity);
      assert Load(workers, a.node) == here[id := resources];
    } else {
      assert Load(workers, a.node) == here;
    }
  }

  lemma DestinationsKeepRoom(a: AgentState, c: Command, resources: Vector, now: int, fate: Fate)
    requires Room(a)
    ensures Room(AfterDestinations(a, c, resources, now, fate).agent)
  {
    hide Roomy, Total, Accept, Resized;
    if AfterDestinations(a, c, resources, now, fate).ok { ResizeKeepsRoom(a, c.resource, resources); }
  }
}
