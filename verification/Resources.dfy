/**
 The shared capacity ledger: what is reserved on which node, what is left, and what a plan may take.

 RAM, CPU and each GPU are the quantities of a node; a claim about `q` is a claim about all of them.
 */
module Resources {
  import opened Outcomes
  import opened Planner

  datatype Allocation = Allocation(node: Id, ramMiB: int, cpuCores: int, gpu: seq<GpuOffer>)

  datatype Quantity = Ram | Cores | Memory(gpu: nat)

  /** A node's reserved amounts; GPUs are listed once each. */
  datatype Entry = Entry(ramMiB: int, cpuCores: int, gpu: map<nat, int>)

  type Ledger = map<Id, Entry>

  // ---------- amounts ----------

  /** All memory listed for one GPU. */
  function GpuTotal(gpu: seq<GpuOffer>, id: nat): int {
    if gpu == [] then 0 else GpuTotal(gpu[..|gpu| - 1], id) + if gpu[|gpu| - 1].id == id then gpu[|gpu| - 1].memMiB else 0
  }

  function Amount(a: Allocation, q: Quantity): int {
    match q
    case Ram => a.ramMiB
    case Cores => a.cpuCores
    case Memory(g) => GpuTotal(a.gpu, g)
  }

  /** What a list of allocations takes on a node. */
  function Total(values: seq<Allocation>, n: Id, q: Quantity): int {
    if values == [] then 0
    else Total(values[..|values| - 1], n, q) + if values[|values| - 1].node == n then Amount(values[|values| - 1], q) else 0
  }

  function Held(l: Ledger, n: Id, q: Quantity): int {
    if n !in l then 0
    else
      match q
      case Ram => l[n].ramMiB
      case Cores => l[n].cpuCores
      case Memory(g) => if g in l[n].gpu then l[n].gpu[g] else 0
  }

  /** The later ledger holds just that much more. */
  ghost predicate Grown(before: Ledger, after: Ledger, values: seq<Allocation>) {
    forall n, q :: Held(after, n, q) == Held(before, n, q) + Total(values, n, q)
  }

  function Offered(n: Node): Allocation {
    if n.offer.Some? then Allocation(n.id, n.offer.value.ramMiB, n.offer.value.cpuCores, n.offer.value.gpu) else Allocation(n.id, 0, 0, [])
  }

  lemma {:induction false} TotalJoin(a: seq<Allocation>, b: seq<Allocation>, n: Id, q: Quantity)
    ensures Total(a + b, n, q) == Total(a, n, q) + Total(b, n, q)
    decreases |b|
  {
    if b == [] {
      assert a + b == a;
    } else {
      assert (a + b)[..|a + b| - 1] == a + b[..|b| - 1];
      TotalJoin(a, b[..|b| - 1], n, q);
    }
  }

  lemma TotalOne(a: Allocation, n: Id, q: Quantity)
    ensures Total([a], n, q) == if a.node == n then Amount(a, q) else 0
  {
    assert [a][..0] == [];
  }

  // ---------- adding ----------

  /** The ledger that admissions mutate. */
  class ResourceLedger {
    var entries: Ledger

    constructor (initial: Ledger)
      ensures entries == initial
    {
      entries := initial;
    }

    /** Charges every allocation to its node, GPU by GPU. */
    method Add(values: seq<Allocation>)
      modifies this
      ensures Grown(old(entries), entries, values)
    {
      ghost var start := entries;
      for i := 0 to |values|
        invariant Grown(start, entries, values[..i])
      {
        ghost var before := entries;
        var value := values[i];
        var current := if value.node in entries then entries[value.node] else Entry(0, 0, map[]);
        var gpu := AddGpus(current.gpu, value.gpu);
        entries := entries[value.node := Entry(current.ramMiB + value.ramMiB, current.cpuCores + value.cpuCores, gpu)];
        assert values[..i + 1][..i] == values[..i];
        forall n, q ensures Held(entries, n, q) == Held(start, n, q) + Total(values[..i + 1], n, q) {
          assert Held(before, n, q) == Held(start, n, q) + Total(values[..i], n, q);
          assert Held(entries, n, q) == Held(before, n, q) + if value.node == n then Amount(value, q) else 0;
        }
      }
      assert values[..|values|] == values;
    }
  }

  function GpuHeld(gpu: map<nat, int>, id: nat): int {
    if id in gpu then gpu[id] else 0
  }

  method AddGpus(gpu: map<nat, int>, values: seq<GpuOffer>) returns (sum: map<nat, int>)
    ensures forall g :: GpuHeld(sum, g) == GpuHeld(gpu, g) + GpuTotal(values, g)
  {
    sum := gpu;
    for i := 0 to |values|
      invariant forall g :: GpuHeld(sum, g) == GpuHeld(gpu, g) + GpuTotal(values[..i], g)
    {
      ghost var before := sum;
      var v := values[i];
      sum := sum[v.id := (if v.id in sum then sum[v.id] else 0) + v.memMiB];
      assert values[..i + 1][..i] == values[..i];
      forall g ensures GpuHeld(sum, g) == GpuHeld(gpu, g) + GpuTotal(values[..i + 1], g) {
        assert GpuHeld(before, g) == GpuHeld(gpu, g) + GpuTotal(values[..i], g);
      }
    }
    assert values[..|values|] == values;
  }

  // ---------- what is left ----------

  /** A node offers nothing negative. */
  predicate GoodNode(n: Node) {
    n.offer.Some? ==> forall i :: 0 <= i < |n.offer.value.gpu| ==> n.offer.value.gpu[i].memMiB >= 0
  }

  /** Nothing reserved is negative. */
  ghost predicate GoodLedger(l: Ledger) {
    forall n, q :: Held(l, n, q) >= 0
  }

  /** The offered GPUs less what is reserved on them, those used up left out. */
  function FreeGpus(gpu: seq<GpuOffer>, l: Ledger, n: Id): seq<GpuOffer> {
    if gpu == [] then []
    else
      var last := gpu[|gpu| - 1];
      var free := Max(0, last.memMiB - Held(l, n, Memory(last.id)));
      FreeGpus(gpu[..|gpu| - 1], l, n) + if free > 0 then [GpuOffer(last.id, free)] else []
  }

  function Offers(gpu: seq<GpuOffer>, id: nat): bool {
    exists i :: 0 <= i < |gpu| && gpu[i].id == id
  }

  function KeepDevices(gpus: seq<GpuDevice>, offers: seq<GpuOffer>): seq<GpuDevice> {
    if gpus == [] then []
    else KeepDevices(gpus[..|gpus| - 1], offers) + if Offers(offers, gpus[|gpus| - 1].id) then [gpus[|gpus| - 1]] else []
  }

  /** The node as the planner may use it. */
  function Available(n: Node, l: Ledger): Node {
    if n.offer.None? then n
    else
      var o := n.offer.value;
      var ram, cpu, gpu := Max(0, o.ramMiB - Held(l, n.id, Ram)), Max(0, o.cpuCores - Held(l, n.id, Cores)), FreeGpus(o.gpu, l, n.id);
      n.(offer := Some(o.(ramMiB := ram, cpuCores := cpu, gpu := gpu, enabled := o.enabled && ram > 0 && cpu >= 1)),
         gpus := KeepDevices(n.gpus, gpu))
  }

  /** Nothing is left to lend on a node. */
  predicate Spent(n: Node) {
    n.offer.None? || (!n.offer.value.enabled && n.offer.value.ramMiB == 0 && n.offer.value.gpu == [])
  }

  /** Free GPU memory with what is reserved stays within the offer, when any is free. */
  lemma {:induction false} FreeWithin(gpu: seq<GpuOffer>, l: Ledger, n: Id, g: nat)
    requires Held(l, n, Memory(g)) >= 0 && forall i :: 0 <= i < |gpu| ==> gpu[i].memMiB >= 0
    ensures 0 <= GpuTotal(FreeGpus(gpu, l, n), g) <= GpuTotal(gpu, g)
    ensures GpuTotal(FreeGpus(gpu, l, n), g) > 0 ==> Held(l, n, Memory(g)) + GpuTotal(FreeGpus(gpu, l, n), g) <= GpuTotal(gpu, g)
  {
    if gpu != [] {
      var init, last := gpu[..|gpu| - 1], gpu[|gpu| - 1];
      FreeWithin(init, l, n, g);
      var free := Max(0, last.memMiB - Held(l, n, Memory(last.id)));
      var rest := FreeGpus(init, l, n);
      if free > 0 {
        assert (rest + [GpuOffer(last.id, free)])[..|rest|] == rest;
      } else {
        assert rest + [] == rest;
      }
    }
  }

  /** A free GPU entry is backed by an offered one of the same GPU. */
  lemma {:induction false} FreeEntry(gpu: seq<GpuOffer>, l: Ledger, n: Id, i: nat)
    requires i < |FreeGpus(gpu, l, n)| && forall j :: 0 <= j < |gpu| ==> gpu[j].memMiB >= 0
    ensures
      var f := FreeGpus(gpu, l, n)[i];
      f.memMiB > 0 && f.memMiB + Held(l, n, Memory(f.id)) <= GpuTotal(gpu, f.id)
  {
    var init, last := gpu[..|gpu| - 1], gpu[|gpu| - 1];
    var rest := FreeGpus(init, l, n);
    if i < |rest| {
      FreeEntry(init, l, n, i);
      assert FreeGpus(gpu, l, n)[i] == rest[i];
    } else {
      GpuTotalNonneg(init, last.id);
    }
  }

  lemma {:induction false} GpuTotalNonneg(gpu: seq<GpuOffer>, g: nat)
    requires forall i :: 0 <= i < |gpu| ==> gpu[i].memMiB >= 0
    ensures GpuTotal(gpu, g) >= 0
  {
    if gpu != [] {
      GpuTotalNonneg(gpu[..|gpu| - 1], g);
    }
  }
}
