/**
Resource vectors of the domain model, and their sum over a table.
*/
module Resources {
  datatype Vector = Vector(slots: int, cpuMillis: int, memoryBytes: int, ingressBps: int, egressBps: int) {
    predicate Fits(capacity: Vector) {
      && slots <= capacity.slots && cpuMillis <= capacity.cpuMillis && memoryBytes <= capacity.memoryBytes
      && ingressBps <= capacity.ingressBps && egressBps <= capacity.egressBps
    }

    function Add(b: Vector): Vector {
      Vector(slots + b.slots, cpuMillis + b.cpuMillis, memoryBytes + b.memoryBytes, ingressBps + b.ingressBps,
          egressBps + b.egressBps)
    }

    function Sub(b: Vector): Vector {
      Vector(slots - b.slots, cpuMillis - b.cpuMillis, memoryBytes - b.memoryBytes, ingressBps - b.ingressBps,
          egressBps - b.egressBps)
    }

    predicate NonNegative() {
      ZERO.Fits(this)
    }
  }

  /** To fit is an order in which every dimension counts, and what fits into the rest fits beside the others. */
  lemma FitsIsAnOrder(a: Vector, b: Vector, c: Vector)
    ensures a.Fits(a)
    ensures a.Fits(b) && b.Fits(a) ==> a == b
    ensures a.Fits(b) && b.Fits(c) ==> a.Fits(c)
    ensures a.Fits(c.Sub(b)) <==> a.Add(b).Fits(c)
    ensures a.Add(b).Sub(b) == a
    ensures a.NonNegative() <==> b.Fits(b.Add(a))
  {
  }

  const ZERO := Vector(0, 0, 0, 0, 0)

  const CPU := 2000
  const MEMORY := 0x4000_0000
  const INGRESS := 20_000_000
  const EGRESS := 10_000_000

  function OrElse(configured: int, usual: int): int {
    if configured == 0 then usual else configured
  }

  /** What a worker with so many outputs needs, given what the installation configured for one. */
  function Needed(configured: Vector, kilobits: int, outputs: int): (r: Vector)
    ensures r.slots == 1
    ensures configured.NonNegative() ==>
              r.NonNegative() && r.cpuMillis > 0 && r.memoryBytes > 0 && r.ingressBps > 0
              && r.egressBps >= kilobits * 1200 * outputs
    ensures r.cpuMillis == if configured.cpuMillis != 0 then configured.cpuMillis else 2000
    ensures r.memoryBytes == if configured.memoryBytes != 0 then configured.memoryBytes else 1_073_741_824
    ensures r.ingressBps == if configured.ingressBps != 0 then configured.ingressBps else 20_000_000
    ensures var least := if configured.egressBps != 0 then configured.egressBps else 10_000_000;
            r.egressBps >= least && (r.egressBps == least || r.egressBps == kilobits * 1200 * outputs)
  {
    var egress := OrElse(configured.egressBps, EGRESS);
    Vector(1, OrElse(configured.cpuMillis, CPU), OrElse(configured.memoryBytes, MEMORY),
        OrElse(configured.ingressBps, INGRESS),
           if egress < kilobits * 1200 * outputs then kilobits * 1200 * outputs else egress)
  }

  /** The sum of a table of vectors; by `TotalOf` it does not matter in which order they are added. */
  ghost function Total<K(!new)>(m: map<K, Vector>): Vector
    decreases |m|
  {
    if m == map[] then ZERO
    else
      var k :| k in m;
      assert |m - {k}| < |m| by { assert m.Keys == (m - {k}).Keys + {k}; }
      Total(m - {k}).Add(m[k])
  }

  lemma PickedFirst<K(!new)>(m: map<K, Vector>) returns (picked: K)
    requires m != map[]
    ensures picked in m && Total(m) == Total(m - {picked}).Add(m[picked])
  {
    picked :| picked in m && Total(m) == Total(m - {picked}).Add(m[picked]);
  }

  lemma AddSwaps(a: Vector, b: Vector, c: Vector)
    ensures a.Add(b).Add(c) == a.Add(c).Add(b)
  {
  }

  lemma {:induction false} TotalOf<K(!new)>(m: map<K, Vector>, k: K)
    requires k in m
    ensures Total(m) == Total(m - {k}).Add(m[k])
    decreases |m|
  {
    hide Total;
    var picked := PickedFirst(m);
    if picked != k {
      assert |m - {picked}| < |m| by { assert m.Keys == (m - {picked}).Keys + {picked}; }
      assert |m - {k}| < |m| by { assert m.Keys == (m - {k}).Keys + {k}; }
      assert m - {picked} - {k} == m - {k} - {picked};
      TotalOf(m - {picked}, k);
      TotalOf(m - {k}, picked);
      AddSwaps(Total(m - {picked} - {k}), m[k], m[picked]);
    }
  }

  lemma TotalPut<K(!new)>(m: map<K, Vector>, k: K, v: Vector)
    ensures Total(m[k := v]) == Total(m - {k}).Add(v)
  {
    TotalOf(m[k := v], k);
    assert m[k := v] - {k} == m - {k};
  }
}
