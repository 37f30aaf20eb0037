/** Local ports of a supervisor: handed out one after the other, recycled after a cooldown
    (packages/agent/src/controller-supervisor.ts, packages/agent/src/android-supervisor.ts). */
module PortPool {
  import opened Common

  /** `cooling` lists the ports whose return timer is still running. */
  datatype Pool = Pool(basePort: nat, nextPortOffset: nat, freePorts: seq<nat>, cooling: seq<nat>)

  function NextPort(p: Pool): nat {
    if p.freePorts != [] then p.freePorts[0] else p.basePort + p.nextPortOffset
  }

  function Allocate(p: Pool): Pool {
    if p.freePorts != [] then p.(freePorts := p.freePorts[1..]) else p.(nextPortOffset := p.nextPortOffset + 1)
  }

  function Cool(p: Pool, port: nat): Pool {
    p.(cooling := p.cooling + [port])
  }

  function Recycle(p: Pool, i: nat): Pool
    requires i < |p.cooling|
  {
    p.(cooling := p.cooling[..i] + p.cooling[i + 1..], freePorts := p.freePorts + [p.cooling[i]])
  }

  /** Held, cooling and free ports are pairwise disjoint, free of duplicates, and together exactly those handed out. */
  ghost predicate PoolInv(p: Pool, held: set<nat>) {
    && Distinct(p.freePorts) && Distinct(p.cooling)
    && (forall x :: x in p.freePorts ==> x !in p.cooling && x !in held)
    && (forall x :: x in p.cooling ==> x !in held)
    && (forall x: nat :: p.basePort <= x < p.basePort + p.nextPortOffset <==> x in held || x in p.cooling || x in p.freePorts)
  }

  lemma AllocateKeepsInv(p: Pool, held: set<nat>)
    requires PoolInv(p, held)
    ensures NextPort(p) !in held && PoolInv(Allocate(p), held + {NextPort(p)})
  {
    var port, after := NextPort(p), Allocate(p);
    if p.freePorts != [] {
      assert p.freePorts == [port] + after.freePorts;
      assert port in p.freePorts;
      assert port !in after.freePorts;
    } else {
      assert !(p.basePort <= port < p.basePort + p.nextPortOffset);
    }
  }

  lemma CoolKeepsInv(p: Pool, held: set<nat>, port: nat)
    requires PoolInv(p, held) && port in held
    ensures PoolInv(Cool(p, port), held - {port})
  {
  }

  lemma RecycleKeepsInv(p: Pool, held: set<nat>, i: nat)
    requires PoolInv(p, held) && i < |p.cooling|
    ensures PoolInv(Recycle(p, i), held)
  {
    var after, port := Recycle(p, i), p.cooling[i];
    assert p.cooling == p.cooling[..i] + [port] + p.cooling[i + 1..];
    assert port in p.cooling && port !in after.cooling;
    assert forall x :: x in p.cooling <==> x in after.cooling || x == port;
  }
}
