/**
 Placement of a model split over nodes: which nodes, how many layers each, which ports.

 Memory is counted in MiB. Hostnames are numbered in their order; a pattern match on a node's files is a
 flag of the node. The human-readable reasons and errors of a plan are not modelled, only whether there
 are errors.
 */
module Planner {
  import opened Outcomes
  import opened Sorting

  const WORKER_PORT_BASE := 50200
  const WORKER_PORT_STEP := 10
  const MAX_WORKER_THREADS := 10

  type Id = nat

  datatype GpuOffer = GpuOffer(id: nat, memMiB: int)

  datatype GpuDevice = GpuDevice(id: nat, engine: nat, usable: bool)

  datatype Offer = Offer(
    enabled: bool, ramMiB: int, cpuCores: int, gpu: seq<GpuOffer>, coordinator: bool, worker: bool, replica: bool)

  datatype Node = Node(
    id: Id, host: nat, darwin: bool, online: bool, offer: Option<Offer>, gpus: seq<GpuDevice>,
    model: bool, draft: bool, direct: bool, rtt: Option<nat>)

  datatype Row = Row(workerLayers: int, maxCtx: int, maxParallel: int, maxChain: int, maxFit: bool)

  datatype Profile = Profile(layers: int, layerMiB: int, hostMiB: int, marginMiB: int, envelope: seq<Row>, hasDraft: bool)

  datatype Spec = Spec(
    coordinator: Option<Id>, workers: Option<seq<Id>>, workerLayers: Option<seq<int>>, forwarding: bool,
    ctx: int, parallel: int, chain: int)

  datatype Gpu = Gpu(engine: nat, memMiB: int)

  datatype Slot = Slot(node: Node, gpu: Gpu)

  datatype Device = Cpu | Engine(name: nat)

  datatype PlanWorker = PlanWorker(node: Id, device: nat, layers: int, port: int, peer: Option<int>, threads: int, memCapMiB: int)

  datatype Plan = Plan(coordinator: Id, device: Device, workers: seq<PlanWorker>, tensorSplit: seq<int>, engineSplit: Option<seq<int>>)

  /** What loading a profile checks. */
  predicate GoodProfile(p: Profile) {
    && p.layers >= 1 && p.layerMiB >= 1 && p.hostMiB >= 0 && p.marginMiB >= 0
    && forall i :: 0 <= i < |p.envelope| ==> 1 <= p.envelope[i].workerLayers < p.layers
  }

  ghost predicate UniqueIds(nodes: seq<Node>) {
    forall i, j :: 0 <= i < j < |nodes| ==> nodes[i].id != nodes[j].id
  }

  // ---------- memory ----------

  function FindDevice(gpus: seq<GpuDevice>, id: nat): Option<GpuDevice> {
    if gpus == [] then None else if gpus[0].id == id then Some(gpus[0]) else FindDevice(gpus[1..], id)
  }

  /** The first offered GPU the node also reports, with the offered memory. */
  function FirstGpu(offers: seq<GpuOffer>, gpus: seq<GpuDevice>): Option<Gpu> {
    if offers == [] then None
    else
      var d := FindDevice(gpus, offers[0].id);
      if d.Some? && offers[0].memMiB > 0 then Some(Gpu(d.value.engine, offers[0].memMiB)) else FirstGpu(offers[1..], gpus)
  }

  function OfferedGpu(n: Node): Option<Gpu> {
    if n.offer.Some? then FirstGpu(n.offer.value.gpu, n.gpus) else None
  }

  function Max(a: int, b: int): int {
    if a >= b then a else b
  }

  function Min(a: int, b: int): int {
    if a <= b then a else b
  }

  function Need(p: Profile, layers: int): int {
    layers * p.layerMiB + p.marginMiB
  }

  /** On darwin a worker's memory is also its RAM offer. */
  predicate RamShort(n: Node, need: int) {
    n.darwin && n.offer.Some? && need > n.offer.value.ramMiB
  }

  predicate WorkerFits(p: Profile, s: Slot, layers: int) {
    Need(p, layers) <= s.gpu.memMiB && !RamShort(s.node, Need(p, layers))
  }

  predicate GoodSlot(s: Slot, nodes: seq<Node>) {
    s.node in nodes && s.node.online && s.node.offer.Some? && s.node.offer.value.enabled && s.node.offer.value.worker
    && OfferedGpu(s.node) == Some(s.gpu)
  }

  function MaxFitLayers(p: Profile, s: Slot): int
    requires p.layerMiB >= 1 && s.node.offer.Some?
  {
    var byGpu := (s.gpu.memMiB - p.marginMiB) / p.layerMiB;
    var byRam := (s.node.offer.value.ramMiB - p.marginMiB) / p.layerMiB;
    Max(0, Min(byGpu, byRam))
  }

  lemma FloorFits(room: int, unit: int, n: int)
    requires unit >= 1 && 0 <= n <= room / unit
    ensures n * unit <= room
  {
    assert unit * (room / unit) <= room;
    assert n * unit <= (room / unit) * unit;
  }

  /** Nothing larger fits, and everything up to it does when a layer fits at all. */
  lemma MaxFitIsMax(p: Profile, s: Slot, n: int)
    requires p.layerMiB >= 1 && s.node.offer.Some? && 1 <= n
    ensures n <= MaxFitLayers(p, s) <==> Need(p, n) <= s.gpu.memMiB && Need(p, n) <= s.node.offer.value.ramMiB
  {
    var gpu, ram := s.gpu.memMiB - p.marginMiB, s.node.offer.value.ramMiB - p.marginMiB;
    if n <= MaxFitLayers(p, s) {
      FloorFits(gpu, p.layerMiB, n);
      FloorFits(ram, p.layerMiB, n);
    } else if Need(p, n) <= s.gpu.memMiB && Need(p, n) <= s.node.offer.value.ramMiB {
      FloorReaches(gpu, p.layerMiB, n);
      FloorReaches(ram, p.layerMiB, n);
      assert false;
    }
  }

  lemma FloorReaches(room: int, unit: int, n: int)
    requires unit >= 1 && n * unit <= room
    ensures n <= room / unit
  {
    var q := room / unit;
    assert room < q * unit + unit;
    MulGap(n, q, unit);
  }

  lemma MulGap(n: int, q: int, unit: int)
    requires unit >= 1 && n * unit < q * unit + unit
    ensures n <= q
  {
    var d := n - q;
    assert d * unit == n * unit - q * unit;
    if d >= 1 {
      Nonnegative(d - 1, unit);
    }
  }

  lemma Nonnegative(a: int, b: int)
    requires a >= 0 && b >= 0
    ensures a * b >= 0
  {
  }

  // ---------- ports ----------

  predicate PortFree(used: set<int>, p: int) {
    p !in used && p + 1 !in used
  }

  predicate PortStep(p: int) {
    p >= WORKER_PORT_BASE && (p - WORKER_PORT_BASE) % WORKER_PORT_STEP == 0 && p + 1 < 65536
  }

  /** The first free rpc port with its peer port. */
  method PickPort(used: set<int>) returns (r: Result<int>)
    ensures r.Ok? ==> PortStep(r.value) && PortFree(used, r.value) && forall q :: PortStep(q) && q < r.value ==> !PortFree(used, q)
    ensures r.Err? ==> forall q :: PortStep(q) ==> !PortFree(used, q)
  {
    var p := WORKER_PORT_BASE;
    while p + 1 < 65536
      invariant p >= WORKER_PORT_BASE && (p - WORKER_PORT_BASE) % WORKER_PORT_STEP == 0
      invariant forall q :: PortStep(q) && q < p ==> !PortFree(used, q)
    {
      if p !in used && p + 1 !in used {
        return Ok(p);
      }
      p := p + WORKER_PORT_STEP;
    }
    return Err;
  }

  // ---------- shaving ----------

  function Sum(xs: seq<int>): int {
    if xs == [] then 0 else Sum(xs[..|xs| - 1]) + xs[|xs| - 1]
  }

  lemma {:induction false} SumUpdate(xs: seq<int>, i: nat, v: int)
    requires i < |xs|
    ensures Sum(xs[i := v]) == Sum(xs) - xs[i] + v
  {
    var n := |xs| - 1;
    if i == n {
      assert xs[i := v][..n] == xs[..n];
    } else {
      assert xs[i := v][..n] == xs[..n][i := v];
      SumUpdate(xs[..n], i, v);
    }
  }

  lemma {:induction false} SumBounds(xs: seq<int>, ys: seq<int>)
    requires |xs| == |ys| && forall i :: 0 <= i < |xs| ==> xs[i] <= ys[i]
    ensures Sum(xs) <= Sum(ys)
  {
    if xs != [] {
      var n := |xs| - 1;
      assert forall i :: 0 <= i < n ==> xs[..n][i] <= ys[..n][i];
      SumBounds(xs[..n], ys[..n]);
    }
  }

  lemma {:induction false} SumLess(xs: seq<int>, ys: seq<int>, k: nat)
    requires |xs| == |ys| && k < |xs| && xs[k] < ys[k] && forall i :: 0 <= i < |xs| ==> xs[i] <= ys[i]
    ensures Sum(xs) < Sum(ys)
  {
    var n := |xs| - 1;
    assert forall i :: 0 <= i < n ==> xs[..n][i] <= ys[..n][i];
    if k == n {
      SumBounds(xs[..n], ys[..n]);
    } else {
      SumLess(xs[..n], ys[..n], k);
    }
  }

  /** No worker holds more than it fits. */
  predicate Within(layers: seq<int>, fits: seq<int>) {
    |layers| == |fits| && forall i :: 0 <= i < |fits| ==> 0 <= layers[i] <= fits[i]
  }

  predicate AtMost(layers: seq<int>, top: int) {
    forall i :: 0 <= i < |layers| ==> layers[i] <= top
  }

  /** A worker below the largest share holds all it fits, or is at most one short of the largest. */
  predicate Level(layers: seq<int>, fits: seq<int>, top: int)
    requires |layers| == |fits|
  {
    forall i :: 0 <= i < |fits| ==> layers[i] == fits[i] || layers[i] >= top - 1
  }

  /** The largest share cannot be smaller in any allocation with the same total. */
  lemma LevelIsOptimal(layers: seq<int>, fits: seq<int>, top: int, other: seq<int>, bound: int)
    requires Within(layers, fits) && Within(other, fits) && Sum(other) == Sum(layers) && AtMost(other, bound)
    requires Level(layers, fits, top) && AtMost(layers, top) && exists i :: 0 <= i < |layers| && layers[i] == top
    ensures top <= bound
  {
    if bound < top {
      var k :| 0 <= k < |layers| && layers[k] == top;
      forall i | 0 <= i < |fits| ensures other[i] <= layers[i] {
        if layers[i] != fits[i] {
          assert layers[i] >= top - 1;
        }
      }
      SumLess(other, layers, k);
    }
  }

  /** One layer off the largest share, the first of the largest. */
  method ShaveOnce(layers: seq<int>, ghost fits: seq<int>, ghost top: int) returns (shaved: seq<int>, ghost next: int)
    requires layers != [] && Within(layers, fits) && Level(layers, fits, top) && AtMost(layers, top) && Sum(layers) > 0
    requires exists i :: 0 <= i < |layers| && layers[i] == top
    ensures Within(shaved, fits) && Sum(shaved) == Sum(layers) - 1
    ensures Level(shaved, fits, next) && AtMost(shaved, next) && exists i :: 0 <= i < |shaved| && shaved[i] == next
  {
    var i := 0;
    for j := 1 to |layers|
      invariant 0 <= i < |layers| && forall k :: 0 <= k < j ==> layers[k] <= layers[i]
    {
      if layers[j] > layers[i] {
        i := j;
      }
    }
    assert layers[i] == top;
    assert top > 0 by {
      if top <= 0 {
        SumBounds(layers, seq(|layers|, k => 0));
        ZeroSum(|layers|);
      }
    }
    SumUpdate(layers, i, layers[i] - 1);
    shaved := layers[i := layers[i] - 1];
    if exists k :: 0 <= k < |shaved| && shaved[k] == top {
      next := top;
    } else {
      next := top - 1;
      assert shaved[i] == next;
    }
  }

  lemma {:induction false} ZeroSum(n: nat)
    ensures Sum(seq(n, k => 0)) == 0
  {
    if n > 0 {
      assert seq(n, k => 0)[..n - 1] == seq(n - 1, k => 0);
      ZeroSum(n - 1);
    }
  }

  /** The largest element of a non-empty list. */
  lemma {:induction false} Largest(xs: seq<int>) returns (top: int)
    requires xs != []
    ensures AtMost(xs, top) && exists i :: 0 <= i < |xs| && xs[i] == top
  {
    if |xs| == 1 {
      top := xs[0];
    } else {
      var n := |xs| - 1;
      var t := Largest(xs[..n]);
      var i :| 0 <= i < n && xs[..n][i] == t;
      assert xs[i] == t;
      top := Max(t, xs[n]);
      forall k | 0 <= k < |xs| ensures xs[k] <= top {
        assert k < n ==> xs[k] == xs[..n][k];
      }
    }
  }

  /** As many layers as fit and leave one over, with the smallest possible largest share. */
  ghost predicate Levelled(fits: seq<int>, layers: int, shares: seq<int>) {
    && Within(shares, fits) && Sum(shares) == Min(Sum(fits), layers - 1)
    && forall other, bound :: Within(other, fits) && Sum(other) == Sum(shares) && AtMost(other, bound) ==> AtMost(shares, bound)
  }

  /** Shave the largest worker until the coordinator keeps a layer: as even as the fits allow. */
  method Shave(fits: seq<int>, layers: int) returns (shares: seq<int>)
    requires fits != [] && layers >= 1 && forall i :: 0 <= i < |fits| ==> fits[i] >= 1
    ensures Levelled(fits, layers, shares)
    ensures |fits| <= layers - 1 ==> forall i :: 0 <= i < |fits| ==> shares[i] >= 1
  {
    shares := fits;
    ghost var top := Largest(fits);
    while Sum(shares) > layers - 1
      invariant Within(shares, fits) && Sum(shares) >= Min(Sum(fits), layers - 1) && Sum(shares) <= Sum(fits)
      invariant Level(shares, fits, top) && AtMost(shares, top) && exists i :: 0 <= i < |shares| && shares[i] == top
      decreases Sum(shares)
    {
      shares, top := ShaveOnce(shares, fits, top);
    }
    forall other, bound | Within(other, fits) && Sum(other) == Sum(shares) && AtMost(other, bound) ensures AtMost(shares, bound) {
      LevelIsOptimal(shares, fits, top, other, bound);
    }
    if |fits| <= layers - 1 {
      EveryoneServed(shares, fits, top, layers);
    }
  }

  /** With fewer workers than layers nobody is shaved to nothing. */
  lemma EveryoneServed(shares: seq<int>, fits: seq<int>, top: int, layers: int)
    requires Within(shares, fits) && Level(shares, fits, top) && AtMost(shares, top) && |fits| <= layers - 1
    requires Sum(shares) == Min(Sum(fits), layers - 1) && forall i :: 0 <= i < |fits| ==> fits[i] >= 1
    ensures forall i :: 0 <= i < |fits| ==> shares[i] >= 1
  {
    var ones := seq(|fits|, k => 1);
    OnesSum(|fits|);
    forall i | 0 <= i < |fits| ensures shares[i] >= 1 {
      if shares[i] < 1 {
        SumBounds(ones, fits);
        assert top <= 1;
        SumLess(shares, ones, i);
      }
    }
  }

  lemma {:induction false} OnesSum(n: nat)
    ensures Sum(seq(n, k => 1)) == n
  {
    if n > 0 {
      assert seq(n, k => 1)[..n - 1] == seq(n - 1, k => 1);
      OnesSum(n - 1);
    }
  }

  // ---------- envelope rows ----------

  datatype Request = Request(ctx: int, parallel: int, chain: int)

  predicate RowAllows(row: Row, q: Request) {
    q.ctx <= row.maxCtx && q.parallel <= row.maxParallel && q.chain <= row.maxChain
  }

  /** The row suits the request and every worker, and leaves the coordinator a layer. */
  predicate Admits(p: Profile, row: Row, q: Request, slots: seq<Slot>)
    requires GoodProfile(p) && forall i :: 0 <= i < |slots| ==> slots[i].node.offer.Some?
  {
    && RowAllows(row, q)
    && if row.maxFit then
         forall i :: 0 <= i < |slots| ==>
           MaxFitLayers(p, slots[i]) >= 1 && !RamShort(slots[i].node, Need(p, MaxFitLayers(p, slots[i])))
       else
         row.workerLayers * |slots| <= p.layers - 1 && forall i :: 0 <= i < |slots| ==> WorkerFits(p, slots[i], row.workerLayers)
  }

  datatype Ranked = Ranked(row: Row, at: nat)

  /** Most layers first, profile order on ties. */
  predicate RowBefore(a: Ranked, b: Ranked) {
    a.row.workerLayers > b.row.workerLayers || (a.row.workerLayers == b.row.workerLayers && a.at < b.at)
  }

  /** The first admissible row in order of layers, in profile order on ties. */
  method ChooseRow(p: Profile, q: Request, slots: seq<Slot>) returns (row: Option<Row>)
    requires GoodProfile(p) && forall i :: 0 <= i < |slots| ==> slots[i].node.offer.Some?
    ensures row.None? <==> forall i :: 0 <= i < |p.envelope| ==> !Admits(p, p.envelope[i], q, slots)
    ensures row.Some? ==> exists k :: 0 <= k < |p.envelope| && Best(p, q, slots, k) && p.envelope[k] == row.value
  {
    var rows := seq(|p.envelope|, i requires 0 <= i < |p.envelope| => Ranked(p.envelope[i], i));
    var sorted := Sort(rows, RowBefore);
    SortSorted(rows, RowBefore);
    SortMembers(rows, RowBefore);
    for j := 0 to |sorted|
      invariant forall i :: 0 <= i < j ==> !Admits(p, sorted[i].row, q, slots)
    {
      if Admits(p, sorted[j].row, q, slots) {
        assert sorted[j] in rows;
        RankedBest(p, q, slots, rows, sorted, j);
        return Some(sorted[j].row);
      }
    }
    forall i | 0 <= i < |p.envelope| ensures !Admits(p, p.envelope[i], q, slots) {
      assert rows[i] in sorted;
    }
    return None;
  }

  /** Admissible, with the most layers of the admissible rows and the earliest of those. */
  ghost predicate Best(p: Profile, q: Request, slots: seq<Slot>, k: int)
    requires GoodProfile(p) && 0 <= k < |p.envelope| && forall i :: 0 <= i < |slots| ==> slots[i].node.offer.Some?
  {
    && Admits(p, p.envelope[k], q, slots)
    && forall i :: 0 <= i < |p.envelope| && Admits(p, p.envelope[i], q, slots) ==>
         p.envelope[i].workerLayers < p.envelope[k].workerLayers
         || (p.envelope[i].workerLayers == p.envelope[k].workerLayers && k <= i)
  }

  lemma RankedBest(p: Profile, q: Request, slots: seq<Slot>, rows: seq<Ranked>, sorted: seq<Ranked>, j: nat)
    requires GoodProfile(p) && forall i :: 0 <= i < |slots| ==> slots[i].node.offer.Some?
    requires |rows| == |p.envelope| && forall i :: 0 <= i < |rows| ==> rows[i] == Ranked(p.envelope[i], i)
    requires Sorted(sorted, RowBefore) && (forall r :: r in sorted <==> r in rows)
    requires j < |sorted| && Admits(p, sorted[j].row, q, slots) && forall i :: 0 <= i < j ==> !Admits(p, sorted[i].row, q, slots)
    ensures sorted[j].at < |p.envelope| && Best(p, q, slots, sorted[j].at) && p.envelope[sorted[j].at] == sorted[j].row
  {
    assert sorted[j] in rows;
    var k := sorted[j].at;
    forall i | 0 <= i < |p.envelope| && Admits(p, p.envelope[i], q, slots)
      ensures p.envelope[i].workerLayers < p.envelope[k].workerLayers || (p.envelope[i].workerLayers == p.envelope[k].workerLayers && k <= i)
    {
      assert rows[i] in sorted;
      var m :| 0 <= m < |sorted| && sorted[m] == rows[i];
      assert m >= j;
      if m > j {
        assert !RowBefore(sorted[m], sorted[j]);
      }
    }
  }

  /** An admitted row of either kind gives shares that fit every worker and leave the coordinator a layer. */
  predicate GoodShares(p: Profile, slots: seq<Slot>, shares: seq<int>) {
    && |shares| == |slots| && (forall i :: 0 <= i < |slots| ==> shares[i] >= 0)
    && (forall i :: 0 <= i < |slots| ==> WorkerFits(p, slots[i], shares[i]))
    && Sum(shares) <= p.layers - 1
  }

  function Fits(p: Profile, slots: seq<Slot>): (fits: seq<int>)
    requires GoodProfile(p) && forall i :: 0 <= i < |slots| ==> slots[i].node.offer.Some?
    ensures |fits| == |slots| && forall i :: 0 <= i < |slots| ==> fits[i] == MaxFitLayers(p, slots[i])
  {
    seq(|slots|, i requires 0 <= i < |slots| => MaxFitLayers(p, slots[i]))
  }

  /** What a row gives every worker: its own count, or the most each can hold, levelled. */
  ghost predicate SharesOf(p: Profile, row: Row, slots: seq<Slot>, shares: seq<int>)
    requires GoodProfile(p) && forall i :: 0 <= i < |slots| ==> slots[i].node.offer.Some?
  {
    && |shares| == |slots|
    && if row.maxFit then Levelled(Fits(p, slots), p.layers, shares) else forall i :: 0 <= i < |slots| ==> shares[i] == row.workerLayers
  }

  /** The shares are those of the best row for the request. */
  ghost predicate BestShares(p: Profile, q: Request, slots: seq<Slot>, shares: seq<int>) {
    && GoodProfile(p) && (forall i :: 0 <= i < |slots| ==> slots[i].node.offer.Some?)
    && exists k :: 0 <= k < |p.envelope| && Best(p, q, slots, k) && SharesOf(p, p.envelope[k], slots, shares)
  }

  lemma {:induction false} EqualShares(shares: seq<int>, v: int)
    requires forall i :: 0 <= i < |shares| ==> shares[i] == v
    ensures Sum(shares) == v * |shares|
  {
    if shares != [] {
      EqualShares(shares[..|shares| - 1], v);
    }
  }

  lemma ShareFits(p: Profile, s: Slot, n: int)
    requires GoodProfile(p) && s.node.offer.Some? && 0 <= n <= MaxFitLayers(p, s) && 1 <= MaxFitLayers(p, s)
    ensures WorkerFits(p, s, n)
  {
    MaxFitIsMax(p, s, Max(n, 1));
  }

  /** The layers of an automatic placement. */
  method AutomaticLayers(p: Profile, q: Request, slots: seq<Slot>) returns (r: Result<seq<int>>)
    requires GoodProfile(p) && slots != [] && forall i :: 0 <= i < |slots| ==> slots[i].node.offer.Some?
    ensures r.Ok? <==> exists i :: 0 <= i < |p.envelope| && Admits(p, p.envelope[i], q, slots)
    ensures r.Ok? ==> BestShares(p, q, slots, r.value)
    ensures r.Ok? ==> GoodShares(p, slots, r.value) && (|slots| <= p.layers - 1 ==> forall i :: 0 <= i < |slots| ==> r.value[i] >= 1)
  {
    var row := ChooseRow(p, q, slots);
    if row.None? {
      return Err;
    }
    ghost var k :| 0 <= k < |p.envelope| && Best(p, q, slots, k) && p.envelope[k] == row.value;
    if row.value.maxFit {
      var fits := Fits(p, slots);
      var shares := Shave(fits, p.layers);
      forall i | 0 <= i < |slots| ensures WorkerFits(p, slots[i], shares[i]) {
        ShareFits(p, slots[i], shares[i]);
      }
      assert SharesOf(p, p.envelope[k], slots, shares);
      return Ok(shares);
    }
    var same := seq(|slots|, i => row.value.workerLayers);
    EqualShares(same, row.value.workerLayers);
    assert SharesOf(p, p.envelope[k], slots, same);
    return Ok(same);
  }

  // ---------- requested layers ----------

  ghost predicate RowFor(p: Profile, q: Request, layers: int) {
    exists i :: 0 <= i < |p.envelope| && p.envelope[i].workerLayers == layers && RowAllows(p.envelope[i], q)
  }

  ghost predicate Requestable(p: Profile, q: Request, slots: seq<Slot>, layers: seq<int>)
    requires |layers| == |slots|
  {
    (forall i :: 0 <= i < |slots| ==> RowFor(p, q, layers[i]) && WorkerFits(p, slots[i], layers[i])) && Sum(layers) < p.layers
  }

  method FindRow(p: Profile, q: Request, layers: int) returns (found: bool)
    ensures found <==> RowFor(p, q, layers)
  {
    for i := 0 to |p.envelope|
      invariant forall j :: 0 <= j < i ==> !(p.envelope[j].workerLayers == layers && RowAllows(p.envelope[j], q))
    {
      if p.envelope[i].workerLayers == layers && RowAllows(p.envelope[i], q) {
        return true;
      }
    }
    return false;
  }

  /** Explicit counts are kept exactly when each suits a row and its own node, and the coordinator keeps a layer. */
  method RequestedLayers(p: Profile, q: Request, slots: seq<Slot>, layers: seq<int>) returns (ok: bool)
    requires |layers| == |slots|
    ensures ok <==> Requestable(p, q, slots, layers)
  {
    ok := true;
    for i := 0 to |slots|
      invariant ok <==> forall j :: 0 <= j < i ==> RowFor(p, q, layers[j]) && WorkerFits(p, slots[j], layers[j])
    {
      var row := FindRow(p, q, layers[i]);
      if !row {
        ok := false;
      }
      if Need(p, layers[i]) > slots[i].gpu.memMiB {
        ok := false;
      }
      if RamShort(slots[i].node, Need(p, layers[i])) {
        ok := false;
      }
    }
    var total := 0;
    for i := 0 to |layers|
      invariant total == Sum(layers[..i])
    {
      assert layers[..i + 1][..i] == layers[..i];
      total := total + layers[i];
    }
    assert layers[..|layers|] == layers;
    if total >= p.layers {
      ok := false;
    }
  }

  // ---------- the coordinator's share ----------

  predicate HasUsableGpu(n: Node) {
    exists i :: 0 <= i < |n.gpus| && n.gpus[i].usable
  }

  /** The share and the host part fit what the node offers, on the device the node would use. */
  predicate ResidentFits(p: Profile, n: Node, layers: int) {
    n.offer.Some? &&
    var mib, ram := layers * p.layerMiB, n.offer.value.ramMiB;
    if n.darwin then mib + p.hostMiB <= ram
    else if OfferedGpu(n).Some? then mib <= OfferedGpu(n).value.memMiB && p.hostMiB <= ram
    else !HasUsableGpu(n) && mib + p.hostMiB <= ram
  }

  method PlaceResident(p: Profile, n: Node, layers: int) returns (device: Device, ok: bool)
    requires n.offer.Some?
    ensures ok <==> ResidentFits(p, n, layers)
    ensures ok && !n.darwin && device.Cpu? ==> OfferedGpu(n).None? && !HasUsableGpu(n)
  {
    ok := true;
    var offer := n.offer.value;
    if n.darwin {
      device := if n.gpus != [] then Engine(n.gpus[0].engine) else Cpu;
      if layers * p.layerMiB + p.hostMiB > offer.ramMiB {
        ok := false;
      }
      return;
    }
    var gpu := OfferedGpu(n);
    if gpu.Some? {
      device := Engine(gpu.value.engine);
      if layers * p.layerMiB > gpu.value.memMiB {
        ok := false;
      }
      if p.hostMiB > offer.ramMiB {
        ok := false;
      }
      return;
    }
    device := Cpu;
    if HasUsableGpu(n) {
      return device, false;
    }
    if layers * p.layerMiB + p.hostMiB > offer.ramMiB {
      ok := false;
    }
  }
}
