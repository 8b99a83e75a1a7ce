/**
The Agent's handlers, which change its fields, its state file and the runtime's table in place.

The state file and the runtime are fields too: `file` is what a read of the state file returns,
`disk` is what would be left of it after a power loss. Reads, writes and runtime calls that may
fail take their answers from `fate`, the parameter that stands for the disk and the runtime.
*/
module AgentHandlers {
  import opened Options
  import opened Resources
  import opened Agents

  class Agent {
    const nodeId: string
    const allowedImage: string
    const capacity: Vector
    var disk: nat
    var file: nat
    var fence: nat
    var draining: bool
    var workers: map<string, Worker>

    ghost function View(): AgentState
      reads this
    {
      AgentState(nodeId, allowedImage, capacity, disk, file, fence, draining, workers)
    }

    /** Nothing the handlers do, in any order and with any failures, overloads the node. */
    ghost predicate Valid()
      reads this
    {
      Room(View())
    }

    constructor (nodeId: string, allowedImage: string, capacity: Vector, file: nat)
      ensures Valid() && View() == AgentState(nodeId, allowedImage, capacity, file, file, 0, false, map[])
    {
      this.nodeId, this.allowedImage, this.capacity := nodeId, allowedImage, capacity;
      this.disk, this.file, this.fence, this.draining, this.workers := file, file, 0, false, map[];
    }

    method ReadFence(readable: bool)
      modifies this`fence
      ensures View() == if readable then Read(old(View())) else old(View())
    {
      if readable && file > fence { fence := file; }
    }

    method AcceptCommand(c: Command, now: int, fate: Fate) returns (accepted: bool)
      modifies this`disk, this`file, this`fence
      ensures var r := Accept(old(View()), c, now, fate); View() == r.agent && accepted == r.accepted
      ensures accepted <==> Acceptable(old(View()), c, now, fate)
    {
      if !c.Valid(now) { return false; }
      ReadFence(fate.readable);
      if !fate.readable { return false; }
      if c.token < fence { return false; }
      if c.token > fence {
        if fate.write == Unwritten { return false; }
        file := c.token;
        if fate.write == Unsynced { return false; }
        disk := file;
      }
      fence := c.token;
      accepted := true;
    }

    /** One turn of a loop over the listed workers: the load counted so far grows by one worker. */
    lemma CountOne(workers: map<string, Worker>, left: set<string>, id: string, skip: string)
      requires id in left && id in workers
      ensures var before, after := Load(workers - left, nodeId) - {skip},
                Load(workers - (left - {id}), nodeId) - {skip};
              if Here(workers[id], nodeId) && id != skip && workers[id].running
              then id !in before && after == before[id := workers[id].spec.resources] else after == before
    {
    }

    lemma CountOneAnywhere(workers: map<string, Worker>, left: set<string>, id: string, skip: string)
      requires id in left && id in workers
      ensures var before, after := WholeLoad(workers - left) - {skip}, WholeLoad(workers - (left - {id})) - {skip};
              if id != skip && workers[id].running
              then id !in before && after == before[id := workers[id].spec.resources] else after == before
    {
    }

    lemma AddOne(before: map<string, Vector>, id: string, r: Vector, available: Vector)
      requires id !in before && available == capacity.Sub(Total(before))
      ensures available.Sub(r) == capacity.Sub(Total(before[id := r]))
    {
      hide Total;
      assert before - {id} == before;
      TotalPut(before, id, r);
    }

    /** The loop of `Start`: what the node has left, not counting the allocation itself. */
    method AvailableHere(allocation: string) returns (available: Vector, existing: bool)
      requires WellFormed(workers)
      ensures available == capacity.Sub(Total(Load(workers, nodeId) - {allocation}))
      ensures existing <==> allocation in workers && Here(workers[allocation], nodeId) && workers[allocation].running
    {
      hide Total, Load, Here;
      available, existing := capacity, false;
      var left := workers.Keys;
      NothingLoads(allocation);
      assert workers - left == map[];
      while left != {}
        invariant left <= workers.Keys
        invariant available == capacity.Sub(Total(Load(workers - left, nodeId) - {allocation}))
        invariant existing <==>
                  allocation in workers && allocation !in left && Here(workers[allocation], nodeId)
                  && workers[allocation].running
      {
        var id :| id in left;
        var w := workers[id];
        CountOne(workers, left, id, allocation);
        if Here(w, nodeId) {
          if w.spec.allocation == allocation {
            existing := w.running;
          } else if w.running {
            AddOne(Load(workers - left, nodeId) - {allocation}, id, w.spec.resources, available);
            available := available.Sub(w.spec.resources);
          }
        }
        left := left - {id};
      }
      assert workers - left == workers;
    }

    /** The loop of the destinations handler: it counts the workers of every node. */
    method AvailableAnywhere(resource: string) returns (available: Vector)
      requires WellFormed(workers)
      ensures available == capacity.Sub(Total(WholeLoad(workers) - {resource}))
    {
      hide Total, WholeLoad;
      available := capacity;
      var left := workers.Keys;
      NothingLoads(resource);
      assert workers - left == map[];
      while left != {}
        invariant left <= workers.Keys
        invariant available == capacity.Sub(Total(WholeLoad(workers - left) - {resource}))
      {
        var id :| id in left;
        var w := workers[id];
        CountOneAnywhere(workers, left, id, resource);
        if w.id != resource && w.running {
          AddOne(WholeLoad(workers - left) - {resource}, id, w.spec.resources, available);
          available := available.Sub(w.spec.resources);
        }
        left := left - {id};
      }
      assert workers - left == workers;
    }

    lemma NothingLoads(skip: string)
      ensures Load(map[], nodeId) - {skip} == map[] && WholeLoad(map[]) - {skip} == map[]
      ensures capacity == capacity.Sub(Total<string>(map[]))
    {
    }

    /** The runtime's own start: it keeps the very same worker, refuses an older token, and else replaces. */
    method Launch(spec: Spec) returns (started: bool)
      modifies this`workers
      ensures Launched(old(workers), spec) == if started then Some(workers) else None
      ensures !started ==> workers == old(workers)
    {
      if spec.allocation in workers {
        var current := workers[spec.allocation].spec;
        if spec.token < current.token { return false; }
        if spec.generation == current.generation && spec.token == current.token
            && workers[spec.allocation].running { return true; }
      }
      workers := workers[spec.allocation := Worker(spec.allocation, spec, true)];
      started := true;
    }

    /** Of the handlers only this one passes the admission gate first. */
    method Start(c: Command, spec: Spec, now: int, fate: Fate) returns (ok: bool)
      requires Valid()
      modifies this
      ensures Valid()
      ensures var r := AfterStart(old(View()), c, spec, now, fate); View() == r.agent && ok == r.ok
      ensures ok <==> Startable(old(View()), c, spec, now, fate)
      ensures !ok ==> workers == old(workers)
      ensures ok ==>
                && workers - {spec.allocation} == old(workers) - {spec.allocation}
                && spec.allocation in workers && workers[spec.allocation].running
                && workers[spec.allocation].spec.generation == c.generation
                && workers[spec.allocation].spec.token == c.token
    {
      StartIsExact(View(), c, spec, now, fate);
      hide Total, Load, ValidId, Here, Launched, Accept, Vector.Fits, Roomy;
      if !fate.open { return false; }
      if c.resource != spec.allocation || c.generation != spec.generation || c.token != spec.token { return false; }
      if spec.node != "" && spec.node != nodeId { return false; }
      if allowedImage != "" && spec.image != allowedImage { return false; }
      if !ValidStart(spec) { return false; }
      ghost var before := View();
      var accepted := AcceptCommand(c, now, fate);
      if !accepted { return false; }
      if !fate.works { return false; }
      WellFormedHere();
      var available, existing := AvailableHere(spec.allocation);
      if draining && !existing { return false; }
      if !spec.resources.Fits(available) { return false; }
      StartKeepsRoom(before, c, spec, now, fate);
      ok := Launch(spec);
    }

    lemma WellFormedHere()
      requires Valid()
      ensures WellFormed(workers)
    {
    }

    method Delete(c: Command, now: int, fate: Fate) returns (ok: bool)
      requires Valid()
      modifies this
      ensures Valid()
      ensures var r := AfterStop(old(View()), c, now, fate); View() == r.agent && ok == r.ok
      ensures ok <==> fate.works && Acceptable(old(View()), c, now, fate)
      ensures workers == if ok && c.resource in old(workers)
                         then old(workers)[c.resource := old(workers)[c.resource].(running := false)]
                         else old(workers)
    {
      hide Accept, Roomy;
      ghost var before := View();
      var accepted := AcceptCommand(c, now, fate);
      if !accepted { return false; }
      if !fate.works { return false; }
      StopKeepsRoom(before, c, now, fate);
      if c.resource in workers { workers := workers[c.resource := workers[c.resource].(running := false)]; }
      ok := true;
    }

    method Destinations(c: Command, resources: Vector, now: int, fate: Fate) returns (ok: bool)
      requires Valid()
      modifies this
      ensures Valid()
      ensures var r := AfterDestinations(old(View()), c, resources, now, fate); View() == r.agent && ok == r.ok
      ensures ok <==>
                && fate.works && Acceptable(old(View()), c, now, fate) && c.resource in old(workers)
                && resources.slots == 1 && resources.cpuMillis > 0 && resources.memoryBytes > 0
                && resources.ingressBps > 0 && resources.egressBps > 0
                && FitBeside(resources, Total(WholeLoad(old(workers)) - {c.resource}), capacity)
      ensures workers == if !ok then old(workers)
                         else var w := old(workers)[c.resource];
                              old(workers)[c.resource := w.(spec := w.spec.(resources := resources))]
    {
      hide Total, WholeLoad, Accept, Vector.Fits, Roomy;
      ghost var before := View();
      var accepted := AcceptCommand(c, now, fate);
      if !accepted { return false; }
      if resources.slots != 1 || resources.cpuMillis <= 0 || resources.memoryBytes <= 0 || resources.ingressBps <= 0
          || resources.egressBps <= 0 { return false; }
      if !fate.works { return false; }
      WellFormedHere();
      var available := AvailableAnywhere(c.resource);
      FitsTheRest(resources, Total(WholeLoad(workers) - {c.resource}), capacity);
      if !resources.Fits(available) { return false; }
      if c.resource !in workers { return false; }
      DestinationsKeepRoom(before, c, resources, now, fate);
      var w := workers[c.resource];
      workers := workers[c.resource := w.(spec := w.spec.(resources := resources))];
      ok := true;
    }

    method Slate(c: Command, now: int, fate: Fate) returns (ok: bool)
      requires Valid()
      modifies this
      ensures Valid()
      ensures var r := AfterSlate(old(View()), c, now, fate); View() == r.agent && ok == r.ok
      ensures workers == old(workers)
      ensures ok <==> fate.works && Acceptable(old(View()), c, now, fate) && c.resource in workers
    {
      hide Accept, Roomy;
      var accepted := AcceptCommand(c, now, fate);
      ok := accepted && fate.works && c.resource in workers;
    }

    method SetDraining(c: Command, on: bool, now: int, fate: Fate) returns (ok: bool)
      requires Valid()
      modifies this
      ensures Valid()
      ensures var r := AfterDraining(old(View()), c, on, now, fate); View() == r.agent && ok == r.ok
      ensures ok <==> Acceptable(old(View()), c, now, fate)
      ensures draining == (if ok then on else old(draining)) && workers == old(workers)
    {
      hide Accept, Roomy;
      var accepted := AcceptCommand(c, now, fate);
      if !accepted { return false; }
      draining := on;
      ok := true;
    }

    /** The part of the heartbeat the controller builds on: the watermark, file and memory together. */
    method Heartbeat() returns (seen: nat)
      requires Valid()
      modifies this`fence
      ensures Valid() && View() == Read(old(View())) && seen == fence
    {
      ReadFence(true);
      seen := fence;
    }

    /** The process starts again: only what is in the file and in the runtime is left. */
    method Restart()
      requires Valid()
      modifies this`fence, this`draining
      ensures Valid() && View() == Restarted(old(View()))
    {
      fence, draining := 0, false;
    }

    /** A worker's process ends by itself. */
    method Exit(id: string)
      requires Valid() && id in workers
      modifies this`workers
      ensures Valid() && View() == old(View()).(workers := Halted(old(workers), id))
    {
      hide Total;
      TotalGrows(Load(Halted(workers, id), nodeId), Load(workers, nodeId));
      workers := workers[id := workers[id].(running := false)];
    }
  }
}
