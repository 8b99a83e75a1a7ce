/**
The in-memory reservation store: nodes, reservations and leases changed in place.

A reservation is held when it is placed, and later either committed or expired. The store
keeps running totals on each node; the invariant says what those totals are the totals of.
*/
module Scheduler {
  import opened Options
  import opened Resources

  const FRESHNESS := 30  // seconds a node may stay silent

  datatype Node = Node(id: string, region: string, capacity: Vector, committed: Vector, reserved: Vector,
      draining: bool, lastSeen: int) {
    /** As a node joins: nothing reserved, nothing committed. */
    predicate Unused() {
      committed == ZERO && reserved == ZERO && ZERO.Fits(capacity)
    }
  }

  datatype Status = Held | Committed | Expired

  datatype Reservation = Reservation(id: string, allocation: string, node: string, resources: Vector, expiresAt: int,
      state: Status) {
    predicate Live() {
      state.Held? || state.Committed?
    }
  }

  datatype Lease = Lease(resource: string, owner: string, fencingToken: nat, expiresAt: int)

  function ReservationId(allocation: string): string {
    allocation + "-reservation"
  }

  lemma ReservationIdsDiffer(a: string, b: string)
    requires ReservationId(a) == ReservationId(b)
    ensures a == b
  {
    assert a == ReservationId(a)[..|a|] && b == ReservationId(b)[..|b|];
  }

  /** The resources of the reservations of one node that are in the given state. */
  function In(reservations: map<string, Reservation>, node: string, state: Status): map<string, Vector> {
    map id | id in reservations && reservations[id].node == node && reservations[id].state == state ::
        reservations[id].resources
  }

  /** The running totals of a node are the sums of its reservations, and they fit. */
  ghost predicate Balanced(n: Node, reservations: map<string, Reservation>) {
    && n.reserved == Total(In(reservations, n.id, Held))
    && n.committed == Total(In(reservations, n.id, Committed))
    && n.committed.Add(n.reserved).Fits(n.capacity)
  }

  predicate WellNamed(nodes: map<string, Node>, reservations: map<string, Reservation>) {
    && (forall id | id in nodes :: nodes[id].id == id)
    && (forall id | id in reservations ::
          && reservations[id].id == id == ReservationId(reservations[id].allocation)
          && reservations[id].node in nodes
          && reservations[id].resources.NonNegative())
  }

  ghost predicate Consistent(nodes: map<string, Node>, reservations: map<string, Reservation>) {
    && WellNamed(nodes, reservations)
    && forall id | id in nodes :: Balanced(nodes[id], reservations)
  }

  /** An allocation never has two live reservations. */
  lemma OneLiveReservation(nodes: map<string, Node>, reservations: map<string, Reservation>, a: string, b: string)
    requires Consistent(nodes, reservations)
    requires a in reservations && b in reservations && reservations[a].allocation == reservations[b].allocation
    ensures a == b
  {
  }

  // ---------------------------------------------------------------- one reservation changes state

  /** What a change of one reservation does to the sums of a node. */
  lemma ChangeMovesSums(reservations: map<string, Reservation>, r: Reservation, node: string, state: Status)
    requires r.id in reservations && reservations[r.id].node == r.node && reservations[r.id].resources == r.resources
    requires reservations[r.id].state != r.state
    ensures var before, after := Total(In(reservations, node, state)), Total(In(reservations[r.id := r], node, state));
            after == if node == r.node && state == r.state then before.Add(r.resources)
                     else if node == r.node && state == reservations[r.id].state then before.Sub(r.resources)
                     else before
  {
    hide Total;
    var before, after := In(reservations, node, state), In(reservations[r.id := r], node, state);
    if node == r.node && state == r.state {
      assert r.id !in before && after == before[r.id := r.resources];
      assert before - {r.id} == before;
      TotalPut(before, r.id, r.resources);
    } else if node == r.node && state == reservations[r.id].state {
      TotalOf(before, r.id);
      assert after == before - {r.id};
    } else {
      assert after == before;
    }
  }

  /** What a new reservation under a free or expired name does to the sums of a node. */
  lemma PlacementMovesSums(reservations: map<string, Reservation>, r: Reservation, node: string, state: Status)
    requires r.state.Held? && !state.Expired?
    requires r.id in reservations ==> reservations[r.id].state.Expired?
    ensures Total(In(reservations[r.id := r], node, state))
            == if node == r.node && state.Held? then Total(In(reservations, node, state)).Add(r.resources)
               else Total(In(reservations, node, state))
  {
    hide Total;
    var before, after := In(reservations, node, state), In(reservations[r.id := r], node, state);
    if node == r.node && state.Held? {
      assert r.id !in before && after == before[r.id := r.resources];
      assert before - {r.id} == before;
      TotalPut(before, r.id, r.resources);
    } else {
      assert after == before;
    }
  }

  function WithoutHold(n: Node, r: Reservation): Node {
    n.(reserved := n.reserved.Sub(r.resources))
  }

  lemma ExpiryKeepsConsistent(nodes: map<string, Node>, reservations: map<string, Reservation>, id: string)
    requires Consistent(nodes, reservations) && id in reservations && reservations[id].state.Held?
    ensures var r := reservations[id].(state := Expired);
            Consistent(nodes[r.node := WithoutHold(nodes[r.node], r)], reservations[id := r])
  {
    hide Total, In;
    var r := reservations[id].(state := Expired);
    var nodes' := nodes[r.node := WithoutHold(nodes[r.node], r)];
    forall n | n in nodes' ensures Balanced(nodes'[n], reservations[id := r]) {
      assert Balanced(nodes[n], reservations);
      ChangeMovesSums(reservations, r, n, Held);
      ChangeMovesSums(reservations, r, n, Committed);
    }
  }

  lemma CommitKeepsConsistent(nodes: map<string, Node>, reservations: map<string, Reservation>, id: string)
    requires Consistent(nodes, reservations) && id in reservations && reservations[id].state.Held?
    ensures var r := reservations[id].(state := Committed);
            var n := WithoutHold(nodes[r.node], r);
            Consistent(nodes[r.node := n.(committed := n.committed.Add(r.resources))], reservations[id := r])
  {
    hide Total, In;
    var r := reservations[id].(state := Committed);
    var n := WithoutHold(nodes[r.node], r);
    var nodes' := nodes[r.node := n.(committed := n.committed.Add(r.resources))];
    forall n | n in nodes' ensures Balanced(nodes'[n], reservations[id := r]) {
      assert Balanced(nodes[n], reservations);
      ChangeMovesSums(reservations, r, n, Held);
      ChangeMovesSums(reservations, r, n, Committed);
    }
  }

  lemma PlacementKeepsConsistent(nodes: map<string, Node>, reservations: map<string, Reservation>, r: Reservation)
    requires Consistent(nodes, reservations)
    requires r.id == ReservationId(r.allocation) && r.node in nodes && r.state.Held? && r.resources.NonNegative()
    requires r.id in reservations ==> reservations[r.id].state.Expired?
    requires r.resources.Fits(Available(nodes[r.node]))
    ensures Consistent(nodes[r.node := WithHold(nodes[r.node], r.resources)], reservations[r.id := r])
  {
    hide Total, In;
    var nodes' := nodes[r.node := WithHold(nodes[r.node], r.resources)];
    forall n | n in nodes' ensures Balanced(nodes'[n], reservations[r.id := r]) {
      assert Balanced(nodes[n], reservations);
      PlacementMovesSums(reservations, r, n, Held);
      PlacementMovesSums(reservations, r, n, Committed);
    }
  }

  function Available(n: Node): Vector {
    n.capacity.Sub(n.committed).Sub(n.reserved)
  }

  function WithHold(n: Node, resources: Vector): Node {
    n.(reserved := n.reserved.Add(resources))
  }

  // ---------------------------------------------------------------- the order of candidates

  predicate Earlier(a: string, b: string) {
    b != [] && (a == [] || a[0] < b[0] || (a[0] == b[0] && Earlier(a[1..], b[1..])))
  }

  lemma {:induction false} EarlierIsTransitive(a: string, b: string, c: string)
    requires Earlier(a, b) && Earlier(b, c)
    ensures Earlier(a, c)
  {
    if a != [] && a[0] == b[0] && b[0] == c[0] { EarlierIsTransitive(a[1..], b[1..], c[1..]); }
  }

  lemma {:induction false} EarlierIsStrict(a: string)
    ensures !Earlier(a, a)
  {
    if a != [] { EarlierIsStrict(a[1..]); }
  }

  /** Fewer slots in use first, then the smaller name. */
  predicate Preferred(a: Node, b: Node) {
    var left, right := a.committed.slots + a.reserved.slots, b.committed.slots + b.reserved.slots;
    left < right || (left == right && Earlier(a.id, b.id))
  }

  lemma PreferredIsTransitive(a: Node, b: Node, c: Node)
    requires Preferred(a, b) && Preferred(b, c)
    ensures Preferred(a, c)
  {
    if Earlier(a.id, b.id) && Earlier(b.id, c.id) { EarlierIsTransitive(a.id, b.id, c.id); }
  }

  predicate Eligible(n: Node, region: string, resources: Vector, now: int) {
    n.region == region && !n.draining && now - n.lastSeen <= FRESHNESS && resources.Fits(Available(n))
  }

  // What a caller may count on, said in plain terms.

  function InUse(n: Node): int {
    n.committed.slots + n.reserved.slots
  }

  /** The node serves the region, takes new work, was heard of lately, and has room in every dimension. */
  predicate MayTake(n: Node, region: string, r: Vector, now: int) {
    && n.region == region && !n.draining && n.lastSeen >= now - 30
    && r.slots + n.committed.slots + n.reserved.slots <= n.capacity.slots
    && r.cpuMillis + n.committed.cpuMillis + n.reserved.cpuMillis <= n.capacity.cpuMillis
    && r.memoryBytes + n.committed.memoryBytes + n.reserved.memoryBytes <= n.capacity.memoryBytes
    && r.ingressBps + n.committed.ingressBps + n.reserved.ingressBps <= n.capacity.ingressBps
    && r.egressBps + n.committed.egressBps + n.reserved.egressBps <= n.capacity.egressBps
  }

  /** `a` is not behind `b` in the order of names: up to some place they agree, and there `a` ends or is smaller. */
  ghost predicate NotBehind(a: string, b: string) {
    exists n | 0 <= n <= |a| && n <= |b| :: a[..n] == b[..n] && (n == |a| || (n < |b| && a[n] < b[n]))
  }

  lemma {:induction false} EarlierIsInOrder(a: string, b: string)
    requires !Earlier(b, a)
    ensures NotBehind(a, b)
  {
    if a == [] {
      assert a[..0] == b[..0];
    } else if a[0] == b[0] {
      EarlierIsInOrder(a[1..], b[1..]);
      var n :| 0 <= n <= |a| - 1 && n <= |b| - 1 && a[1..][..n] == b[1..][..n]
               && (n == |a| - 1 || (n < |b| - 1 && a[1..][n] < b[1..][n]));
      assert a[..n + 1] == [a[0]] + a[1..][..n] && b[..n + 1] == [b[0]] + b[1..][..n];
    } else {
      assert a[..0] == b[..0];
    }
  }

  /** Fewest slots in use first, and among those the first name. */
  ghost predicate NotBefore(other: Node, chosen: Node) {
    InUse(chosen) < InUse(other) || (InUse(chosen) == InUse(other) && NotBehind(chosen.id, other.id))
  }

  lemma ChosenIsFirst(chosen: Node, other: Node)
    requires !Preferred(other, chosen)
    ensures NotBefore(other, chosen)
  {
    if InUse(chosen) == InUse(other) { EarlierIsInOrder(chosen.id, other.id); }
  }

  lemma EligibleMayTake(n: Node, region: string, resources: Vector, now: int)
    ensures Eligible(n, region, resources, now) <==> MayTake(n, region, resources, now)
  {
  }

  /** The allocation has a reservation that was committed, or is held and has time left. */
  predicate Reserved(reservations: map<string, Reservation>, allocation: string, now: int) {
    exists id | id in reservations :: reservations[id].allocation == allocation
      && (reservations[id].state.Committed? || (reservations[id].state.Held? && now < reservations[id].expiresAt))
  }

  lemma ReservedIsLive(nodes: map<string, Node>, reservations: map<string, Reservation>, allocation: string, now: int)
    requires Consistent(nodes, reservations)
    ensures Reserved(reservations, allocation, now) <==> LiveInTime(reservations, allocation, now)
    ensures var name := ReservationId(allocation);
            LiveInTime(reservations, allocation, now) ==>
              name in reservations && reservations[name].id == name && reservations[name].allocation == allocation
  {
    if LiveInTime(reservations, allocation, now) {
      ReservationIdsDiffer(reservations[ReservationId(allocation)].allocation, allocation);
    }
  }

  /** Every reservation is as before, or was held past its time and is now expired. */
  predicate OnlyExpired(before: map<string, Reservation>, after: map<string, Reservation>, now: int) {
    && before.Keys == after.Keys
    && forall id | id in before ::
         after[id] == before[id]
         || (before[id].state.Held? && before[id].expiresAt <= now && after[id] == before[id].(state := Expired))
  }

  predicate Overdue(r: Reservation, now: int) {
    r.state.Held? && r.expiresAt <= now
  }

  predicate NoneOverdue(reservations: map<string, Reservation>, now: int) {
    forall id | id in reservations :: !Overdue(reservations[id], now)
  }

  /** The nodes are the same but for their running totals, which `Consistent` ties to the reservations. */
  predicate SameNodes(before: map<string, Node>, after: map<string, Node>) {
    && before.Keys == after.Keys
    && forall id | id in before ::
         after[id] == before[id].(committed := after[id].committed, reserved := after[id].reserved)
  }

  /** The allocation still has a live reservation, at its own name, whose time has not run out. */
  predicate LiveInTime(reservations: map<string, Reservation>, allocation: string, now: int) {
    var name := ReservationId(allocation);
    name in reservations && reservations[name].Live() && !Overdue(reservations[name], now)
  }

  /** The expiry loop has looked at every reservation but those in `todo`, and met no live one of the allocation. */
  predicate Swept(before: map<string, Reservation>, after: map<string, Reservation>, todo: set<string>,
      allocation: string, now: int) {
    && OnlyExpired(before, after, now)
    && (forall id | id in todo :: id in before && id in after && after[id] == before[id])
    && (forall id | id in after && id !in todo ::
          !Overdue(after[id], now) && !(after[id].allocation == allocation && after[id].Live()))
  }

  lemma SweepStarts(reservations: map<string, Reservation>, allocation: string, now: int)
    ensures Swept(reservations, reservations, reservations.Keys, allocation, now)
  {
  }

  lemma SweepExpires(before: map<string, Reservation>, after: map<string, Reservation>, todo: set<string>,
      allocation: string, now: int, id: string)
    requires Swept(before, after, todo, allocation, now) && id in todo && id in after && Overdue(after[id], now)
    ensures Swept(before, after[id := Expiry(after[id])], todo - {id}, allocation, now)
  {
  }

  lemma SweepPasses(before: map<string, Reservation>, after: map<string, Reservation>, todo: set<string>,
      allocation: string, now: int, id: string)
    requires Swept(before, after, todo, allocation, now) && id in todo && id in after && !Overdue(after[id], now)
    ensures id in before && after[id] == before[id] && OnlyExpired(before, after, now)
    ensures !(after[id].allocation == allocation && after[id].Live()) ==>
              Swept(before, after, todo - {id}, allocation, now)
  {
  }

  lemma SweepEnds(nodes: map<string, Node>, before: map<string, Reservation>, after: map<string, Reservation>,
      allocation: string, now: int)
    requires Swept(before, after, {}, allocation, now) && Consistent(nodes, after)
    ensures OnlyExpired(before, after, now) && NoneOverdue(after, now)
    ensures ReservationId(allocation) in after ==> after[ReservationId(allocation)].state.Expired?
    ensures !LiveInTime(before, allocation, now)
  {
    var name := ReservationId(allocation);
    if name in after { ReservationIdsDiffer(after[name].allocation, allocation); }
  }

  lemma LiveUnderItsName(nodes: map<string, Node>, reservations: map<string, Reservation>, id: string, now: int)
    requires Consistent(nodes, reservations) && id in reservations
    requires reservations[id].Live() && !Overdue(reservations[id], now)
    ensures LiveInTime(reservations, reservations[id].allocation, now)
    ensures id == ReservationId(reservations[id].allocation)
  {
  }

  lemma ExpiryKeepsNodes(before: map<string, Node>, nodes: map<string, Node>, reservations: map<string, Reservation>,
      id: string)
    requires SameNodes(before, nodes) && Consistent(nodes, reservations) && id in reservations
    ensures var r := reservations[id].(state := Expired);
            r.node in nodes && SameNodes(before, nodes[r.node := WithoutHold(nodes[r.node], r)])
  {
    hide Balanced;
  }

  function Expiry(r: Reservation): Reservation {
    r.(state := Expired)
  }

  function NodesAfterExpiry(nodes: map<string, Node>, r: Reservation): map<string, Node>
    requires r.node in nodes
  {
    nodes[r.node := WithoutHold(nodes[r.node], r)]
  }

  lemma ExpiryIsSound(before: map<string, Node>, nodes: map<string, Node>, reservations: map<string, Reservation>,
      id: string)
    requires SameNodes(before, nodes) && Consistent(nodes, reservations) && id in reservations
              && reservations[id].state.Held?
    ensures reservations[id].node in nodes
    ensures SameNodes(before, NodesAfterExpiry(nodes, Expiry(reservations[id])))
    ensures Consistent(NodesAfterExpiry(nodes, Expiry(reservations[id])), reservations[id := Expiry(reservations[id])])
  {
    hide Balanced;
    ExpiryKeepsConsistent(nodes, reservations, id);
    ExpiryKeepsNodes(before, nodes, reservations, id);
  }

  lemma PlacementKeepsNodes(before: map<string, Node>, nodes: map<string, Node>, n: Node, resources: Vector)
    requires SameNodes(before, nodes) && n.id in nodes && nodes[n.id] == n
    ensures SameNodes(before, nodes[n.id := WithHold(n, resources)])
  {
  }

  lemma PlacementLeavesOthers(before: map<string, Reservation>, after: map<string, Reservation>, r: Reservation,
      now: int)
    requires OnlyExpired(before, after, now) && NoneOverdue(after, now)
    ensures after[r.id := r].Keys == before.Keys + {r.id}
    ensures OnlyExpired(before - {r.id}, after[r.id := r] - {r.id}, now) && NoneOverdue(after[r.id := r] - {r.id}, now)
  {
  }

  class Store {
    var nodes: map<string, Node>
    var reservations: map<string, Reservation>
    var leases: map<string, Lease>

    ghost predicate Valid()
      reads this
    {
      Consistent(nodes, reservations)
    }

    /** A store over nodes on which nothing is reserved yet. */
    constructor (nodes: map<string, Node>)
      requires forall id | id in nodes :: nodes[id].id == id && nodes[id].Unused()
      ensures Valid() && this.nodes == nodes && reservations == map[] && leases == map[]
    {
      this.nodes, reservations, leases := nodes, map[], map[];
      new;
      assert forall id, state | id in nodes :: In(reservations, nodes[id].id, state) == map[];
    }

    /** The first of the candidates in order: none of them is preferred to it. */
    method First(candidates: seq<Node>) returns (best: Node)
      requires candidates != []
      ensures best in candidates
      ensures forall n | n in candidates :: !Preferred(n, best)
    {
      best := candidates[0];
      EarlierIsStrict(best.id);
      for i := 1 to |candidates|
        invariant best in candidates[..i]
        invariant forall n | n in candidates[..i] :: !Preferred(n, best)
      {
        var n := candidates[i];
        EarlierIsStrict(n.id);
        if Preferred(n, best) {
          forall other | other in candidates[..i] ensures !Preferred(other, n) {
            if Preferred(other, n) { PreferredIsTransitive(other, n, best); }
          }
          best := n;
        }
      }
    }

    method ExpireOne(id: string, ghost before: map<string, Node>)
      requires Valid() && id in reservations && reservations[id].state.Held? && SameNodes(before, nodes)
      modifies this`nodes, this`reservations
      ensures Valid() && SameNodes(before, nodes)
      ensures reservations == old(reservations)[id := Expiry(old(reservations)[id])]
    {
      hide Consistent, SameNodes;
      ExpiryIsSound(before, nodes, reservations, id);
      var r := reservations[id].(state := Expired);
      reservations := reservations[id := r];
      nodes := nodes[r.node := WithoutHold(nodes[r.node], r)];
    }

    /** One turn of the expiry loop: `live` is the reservation at which the loop stops. */
    method Visit(id: string, allocation: string, now: int, ghost n0: map<string, Node>, ghost r0: map<string,
        Reservation>, ghost todo: set<string>)
      returns (live: Option<Reservation>)
      requires Valid() && Consistent(n0, r0) && SameNodes(n0, nodes)
      requires id in todo && todo <= reservations.Keys && Swept(r0, reservations, todo, allocation, now)
      modifies this`nodes, this`reservations
      ensures Valid() && SameNodes(n0, nodes) && reservations.Keys == old(reservations.Keys)
      ensures live.None? ==> Swept(r0, reservations, todo - {id}, allocation, now)
      ensures live.Some? ==>
                && OnlyExpired(r0, reservations, now) && LiveInTime(r0, allocation, now)
                && live.value == r0[ReservationId(allocation)]
    {
      hide Swept, OnlyExpired, Consistent, SameNodes, LiveInTime, ReservationId;
      var r := reservations[id];
      if r.state.Held? && r.expiresAt <= now {
        SweepExpires(r0, reservations, todo, allocation, now, id);
        ExpireOne(id, n0);
        return None;
      }
      SweepPasses(r0, reservations, todo, allocation, now, id);
      if r.allocation == allocation && r.Live() {
        LiveUnderItsName(n0, r0, id, now);
        return Some(r);
      }
      live := None;
    }

    /** The first loop of `Place`, in any order; it stops at a live reservation of the allocation. */
    method Expire(allocation: string, now: int) returns (live: Option<Reservation>)
      requires Valid()
      modifies this`nodes, this`reservations
      ensures Valid() && SameNodes(old(nodes), nodes)
      ensures OnlyExpired(old(reservations), reservations, now)
      ensures live.Some? ==>
                LiveInTime(old(reservations), allocation, now)
                    && live.value == old(reservations)[ReservationId(allocation)]
      ensures live.None? ==>
                && !LiveInTime(old(reservations), allocation, now)
                && NoneOverdue(reservations, now)
                && (ReservationId(allocation) in reservations ==>
                    reservations[ReservationId(allocation)].state.Expired?)
    {
      assert SameNodes(old(nodes), nodes);
      hide Swept, OnlyExpired, Consistent, SameNodes, LiveInTime, NoneOverdue, ReservationId;
      var todo := reservations.Keys;
      SweepStarts(reservations, allocation, now);
      live := None;
      while todo != {}
        invariant Valid() && SameNodes(old(nodes), nodes)
        invariant todo <= reservations.Keys
        invariant Swept(old(reservations), reservations, todo, allocation, now)
      {
        var id :| id in todo;
        live := Visit(id, allocation, now, old(nodes), old(reservations), todo);
        if live.Some? { return; }
        todo := todo - {id};
      }
      SweepEnds(nodes, old(reservations), reservations, allocation, now);
      live := None;
    }

    /**
    Places an allocation. An allocation that still has a live reservation gets it back, and some
    overdue ones may stay held; otherwise every overdue reservation has expired, and the new one
    is on the preferred eligible node, or there is no eligible node.
    */
    method Place(allocation: string, region: string, resources: Vector, now: int, ttl: int)
        returns (placed: Option<Reservation>)
      requires Valid() && resources.NonNegative()
      modifies this
      ensures Valid() && leases == old(leases) && SameNodes(old(nodes), nodes)
      ensures var name := ReservationId(allocation);
              if LiveInTime(old(reservations), allocation, now) then
                placed == Some(old(reservations)[name]) && OnlyExpired(old(reservations), reservations, now)
              else if placed.None? then
                && OnlyExpired(old(reservations), reservations, now)
                && NoneOverdue(reservations, now)
                && forall id | id in nodes :: !Eligible(nodes[id], region, resources, now)
              else
                var r := placed.value;
                && reservations.Keys == old(reservations).Keys + {name}
                && reservations[name] == r == Reservation(name, allocation, r.node, resources, now + ttl, Held)
                && OnlyExpired(old(reservations) - {name}, reservations - {name}, now)
                && NoneOverdue(reservations - {name}, now)
                && r.node in nodes
                && var chosen := WithoutHold(nodes[r.node], r);
                   && Eligible(chosen, region, resources, now)
                   && forall id | id in nodes && id != r.node && Eligible(nodes[id], region, resources, now) ::
                       !Preferred(nodes[id], chosen)
      ensures Reserved(old(reservations), allocation, now) ==>
                placed.Some? && placed.value.allocation == allocation && placed.value.id in old(reservations)
                && placed.value == old(reservations)[placed.value.id]
      ensures !Reserved(old(reservations), allocation, now) && placed.None? ==>
                forall id | id in nodes :: !MayTake(nodes[id], region, resources, now)
      ensures !Reserved(old(reservations), allocation, now) && placed.Some? ==>
                && placed.value.state.Held? && placed.value.resources == resources && placed.value.node in nodes
                && var n := nodes[placed.value.node];
                   var chosen := n.(reserved := n.reserved.Sub(resources));
                   && MayTake(chosen, region, resources, now)
                   && forall id | id in nodes && id != n.id && MayTake(nodes[id], region, resources, now) ::
                        NotBefore(nodes[id], chosen)
    {
      hide Balanced, Preferred, ReservationId, OnlyExpired, NoneOverdue, SameNodes, Vector.Fits;
      hide Reserved, LiveInTime, MayTake, NotBefore;
      ReservedIsLive(nodes, reservations, allocation, now);
      var live := Expire(allocation, now);
      if live.Some? { return live; }
      var chosen := Choose(region, resources, now);
      if chosen.None? { return None; }
      var n := chosen.value;
      var r := Reservation(ReservationId(allocation), allocation, n.id, resources, now + ttl, Held);
      PlacementKeepsConsistent(nodes, reservations, r);
      PlacementKeepsNodes(old(nodes), nodes, n, resources);
      PlacementLeavesOthers(old(reservations), reservations, r, now);
      nodes := nodes[n.id := WithHold(n, resources)];
      reservations := reservations[r.id := r];
      placed := Some(r);
    }

    method Choose(region: string, resources: Vector, now: int) returns (chosen: Option<Node>)
      requires Valid()
      ensures chosen.None? ==> forall id | id in nodes :: !Eligible(nodes[id], region, resources, now)
      ensures chosen.Some? ==>
                && chosen.value.id in nodes && nodes[chosen.value.id] == chosen.value
                && Eligible(chosen.value, region, resources, now)
                && forall id | id in nodes && Eligible(nodes[id], region, resources, now) ::
                    !Preferred(nodes[id], chosen.value)
      ensures chosen.None? ==> forall id | id in nodes :: !MayTake(nodes[id], region, resources, now)
      ensures chosen.Some? ==>
                && MayTake(chosen.value, region, resources, now)
                && forall id | id in nodes && MayTake(nodes[id], region, resources, now) ::
                    NotBefore(nodes[id], chosen.value)
    {
      hide Balanced, Preferred, Vector.Fits;
      hide Eligible, MayTake, NotBefore;
      var candidates: seq<Node> := Candidates(region, resources, now);
      forall id | id in nodes
        ensures Eligible(nodes[id], region, resources, now) <==> MayTake(nodes[id], region, resources, now)
      {
        EligibleMayTake(nodes[id], region, resources, now);
      }
      if candidates == [] { return None; }
      var best := First(candidates);
      forall id | id in nodes && MayTake(nodes[id], region, resources, now) ensures NotBefore(nodes[id], best) {
        ChosenIsFirst(best, nodes[id]);
      }
      chosen := Some(best);
    }

    method Candidates(region: string, resources: Vector, now: int) returns (candidates: seq<Node>)
      requires Valid()
      ensures forall n | n in candidates :: n.id in nodes && nodes[n.id] == n && Eligible(n, region, resources, now)
      ensures forall id | id in nodes && Eligible(nodes[id], region, resources, now) :: nodes[id] in candidates
    {
      hide Balanced, Preferred, Vector.Fits;
      candidates := [];
      var names := nodes.Keys;
      while names != {}
        invariant names <= nodes.Keys
        invariant forall n | n in candidates :: n.id in nodes && nodes[n.id] == n && Eligible(n, region, resources, now)
        invariant forall id | id in nodes && id !in names && Eligible(nodes[id], region, resources, now) ::
                  nodes[id] in candidates
      {
        var id :| id in names;
        names := names - {id};
        if Eligible(nodes[id], region, resources, now) { candidates := candidates + [nodes[id]]; }
      }
    }

    /** A reservation that is still held in time is committed exactly once; anything else changes nothing. */
    method Commit(id: string, now: int) returns (ok: bool)
      requires Valid()
      modifies this
      ensures Valid() && leases == old(leases) && SameNodes(old(nodes), nodes)
      ensures ok <==>
                id in old(reservations) && old(reservations)[id].state.Held? && now < old(reservations)[id].expiresAt
      ensures reservations == if ok then old(reservations)[id := old(reservations)[id].(state := Committed)]
                else old(reservations)
      ensures !ok ==> nodes == old(nodes)
    {
      hide Balanced;
      if id !in reservations || !reservations[id].state.Held? || reservations[id].expiresAt <= now { return false; }
      CommitKeepsConsistent(nodes, reservations, id);
      var r := reservations[id].(state := Committed);
      reservations := reservations[id := r];
      var n := WithoutHold(nodes[r.node], r);
      nodes := nodes[r.node := n.(committed := n.committed.Add(r.resources))];
      ok := true;
    }

    /** A lease in time is never taken from its owner, and every grant carries a larger token than the one before. */
    method AcquireLease(resource: string, owner: string, now: int, ttl: int) returns (lease: Option<Lease>)
      requires Valid()
      modifies this`leases
      ensures Valid()
      ensures lease.None? <==>
                resource in old(leases) && old(leases)[resource].expiresAt > now && old(leases)[resource].owner != owner
      ensures lease.None? ==> leases == old(leases)
      ensures lease.Some? ==>
                leases == old(leases)[resource := lease.value] && lease.value.owner == owner
                && lease.value.expiresAt == now + ttl
      ensures lease.Some? && resource in old(leases) ==> lease.value.fencingToken > old(leases)[resource].fencingToken
    {
      var token := 0;
      if resource in leases {
        var held := leases[resource];
        if held.expiresAt > now && held.owner != owner { return None; }
        token := held.fencingToken;
      }
      lease := Some(Lease(resource, owner, token + 1, now + ttl));
      leases := leases[resource := lease.value];
    }
  }
}
