/** The whole split plan: coordinator, workers, layers, residency and ports. */
module PlanSplit {
  import opened Outcomes
  import opened Sorting
  import opened Planner

  predicate Role(o: Offer, worker: bool) {
    if worker then o.worker else o.coordinator
  }

  /** Enrolled, online, offering the role, with the model when one is needed. */
  predicate Usable(n: Node, worker: bool, needModel: bool) {
    n.online && n.offer.Some? && n.offer.value.enabled && Role(n.offer.value, worker) && (needModel ==> n.model)
  }

  predicate Eligible(n: Node) {
    n.online && n.offer.Some? && n.offer.value.enabled
  }

  /** A node named by the spec. */
  method RequireNode(nodes: seq<Node>, id: Id, worker: bool, needModel: bool) returns (r: Option<Node>)
    requires UniqueIds(nodes)
    ensures r.Some? ==> r.value in nodes && r.value.id == id && Usable(r.value, worker, needModel)
    ensures r.None? ==> forall n :: n in nodes && n.id == id ==> !Usable(n, worker, needModel)
  {
    for i := 0 to |nodes|
      invariant forall j :: 0 <= j < i ==> nodes[j].id != id
    {
      if nodes[i].id == id {
        if Usable(nodes[i], worker, needModel) {
          return Some(nodes[i]);
        }
        return None;
      }
    }
    return None;
  }

  predicate HostBefore(a: Node, b: Node) {
    a.host < b.host || (a.host == b.host && a.id < b.id)
  }

  predicate RamBefore(a: Node, b: Node) {
    if a.offer.Some? && b.offer.Some? then
      a.offer.value.ramMiB > b.offer.value.ramMiB || (a.offer.value.ramMiB == b.offer.value.ramMiB && HostBefore(a, b))
    else a.offer.Some? && b.offer.None?
  }

  /** Unmeasured round trips come last. */
  predicate RttBefore(a: Node, b: Node) {
    if a.rtt == b.rtt then HostBefore(a, b)
    else a.rtt.Some? && (b.rtt.None? || a.rtt.value < b.rtt.value)
  }

  function Keep(nodes: seq<Node>, f: Node -> bool): (r: seq<Node>)
    ensures forall n :: n in r <==> n in nodes && f(n)
  {
    if nodes == [] then []
    else
      var rest := Keep(nodes[..|nodes| - 1], f);
      var last := nodes[|nodes| - 1];
      assert nodes == nodes[..|nodes| - 1] + [last];
      if f(last) then rest + [last] else rest
  }

  lemma {:induction false} KeepUnique(nodes: seq<Node>, f: Node -> bool)
    requires UniqueIds(nodes)
    ensures UniqueIds(Keep(nodes, f))
  {
    if nodes != [] {
      var init, last := nodes[..|nodes| - 1], nodes[|nodes| - 1];
      KeepUnique(init, f);
      forall n | n in Keep(init, f) ensures n.id != last.id {
        assert n in init;
      }
    }
  }

  lemma SortUnique(nodes: seq<Node>, lt: (Node, Node) -> bool)
    requires UniqueIds(nodes)
    ensures UniqueIds(Sort(nodes, lt))
  {
    SortDistinct(nodes, lt);
    SortMembers(nodes, lt);
    var ys := Sort(nodes, lt);
    forall i, j | 0 <= i < j < |ys| ensures ys[i].id != ys[j].id {
      assert ys[i] in nodes && ys[j] in nodes && ys[i] != ys[j];
    }
  }

  /** The named coordinator, or the candidate with the largest RAM offer, first by host among equals. */
  ghost predicate GoodCoordinator(nodes: seq<Node>, wanted: Option<Id>, n: Node) {
    && n in nodes && Usable(n, false, true)
    && (wanted.Some? ==> n.id == wanted.value)
    && (wanted.None? ==> forall m :: m in nodes && Usable(m, false, true) && m != n ==> RamBefore(n, m))
  }

  lemma SameNode(nodes: seq<Node>, m: Node, n: Node)
    requires UniqueIds(nodes) && m in nodes && n in nodes && m.id == n.id
    ensures m == n
  {
    var i :| 0 <= i < |nodes| && nodes[i] == m;
    var j :| 0 <= j < |nodes| && nodes[j] == n;
    assert i == j;
  }

  lemma OneCoordinator(nodes: seq<Node>, wanted: Option<Id>, m: Node, n: Node)
    requires UniqueIds(nodes) && GoodCoordinator(nodes, wanted, m) && GoodCoordinator(nodes, wanted, n)
    ensures m == n
  {
    if wanted.Some? {
      SameNode(nodes, m, n);
    }
  }

  lemma DistinctIds(nodes: seq<Node>, m: Node, n: Node)
    requires UniqueIds(nodes) && m in nodes && n in nodes && m != n
    ensures m.id != n.id
  {
    if m.id == n.id {
      SameNode(nodes, m, n);
    }
  }

  method ChooseCoordinator(nodes: seq<Node>, wanted: Option<Id>) returns (r: Option<Node>)
    requires UniqueIds(nodes)
    ensures r.Some? ==> GoodCoordinator(nodes, wanted, r.value)
    ensures r.None? ==> forall n :: n in nodes && (wanted.Some? ==> n.id == wanted.value) ==> !Usable(n, false, true)
  {
    if wanted.Some? {
      r := RequireNode(nodes, wanted.value, false, true);
      return;
    }
    var cands := Keep(nodes, (n: Node) => Usable(n, false, true));
    var sorted := Sort(cands, RamBefore);
    SortSorted(cands, RamBefore);
    SortMembers(cands, RamBefore);
    if sorted == [] {
      return None;
    }
    assert sorted[0] in cands;
    forall m | m in nodes && Usable(m, false, true) && m != sorted[0] ensures RamBefore(sorted[0], m) {
      assert m in cands;
      assert m in sorted;
      var k :| 0 <= k < |sorted| && sorted[k] == m;
      assert !RamBefore(sorted[k], sorted[0]);
      DistinctIds(nodes, m, sorted[0]);
    }
    return Some(sorted[0]);
  }

  ghost predicate UniqueSlots(slots: seq<Slot>) {
    forall i, j :: 0 <= i < j < |slots| ==> slots[i].node.id != slots[j].node.id
  }

  /** Distinct workers other than the coordinator, each with a GPU it offers. */
  ghost predicate GoodSlots(nodes: seq<Node>, coord: Node, slots: seq<Slot>) {
    && slots != [] && UniqueSlots(slots)
    && forall i :: 0 <= i < |slots| ==> GoodSlot(slots[i], nodes) && slots[i].node.id != coord.id
  }

  /** Distinct workers as the request names them, or all that can work in ring order. */
  ghost predicate ChosenSlots(nodes: seq<Node>, coord: Node, wanted: Option<seq<Id>>, slots: seq<Slot>) {
    && GoodSlots(nodes, coord, slots)
    && (wanted.Some? ==> |slots| == |wanted.value| && forall i :: 0 <= i < |slots| ==> slots[i].node.id == wanted.value[i])
    && (wanted.None? ==> InRingOrder(NodesOf(slots)) && forall n :: n in nodes && CanWork(n, coord.id) ==> n in NodesOf(slots))
  }

  /** A listed worker that cannot serve, is the coordinator, or is listed before. */
  ghost predicate BadWorker(nodes: seq<Node>, coord: Node, ids: seq<Id>, i: int)
    requires 0 <= i < |ids|
  {
    || ids[i] in ids[..i] || ids[i] == coord.id
    || forall n :: n in nodes && n.id == ids[i] ==> !Usable(n, true, false) || OfferedGpu(n).None?
  }

  lemma ChosenServes(nodes: seq<Node>, coord: Node, ids: seq<Id>, slots: seq<Slot>, i: nat)
    requires ChosenSlots(nodes, coord, Some(ids), slots) && i < |ids|
    ensures !BadWorker(nodes, coord, ids, i)
  {
    assert slots[i].node.id == ids[i] && GoodSlot(slots[i], nodes);
    forall j | 0 <= j < i ensures ids[j] != ids[i] {
      assert slots[j].node.id == ids[j];
    }
  }

  /** The named workers in the order listed; any one that cannot serve is an error. */
  method NamedWorkers(nodes: seq<Node>, coord: Node, ids: seq<Id>) returns (r: Result<seq<Slot>>)
    requires UniqueIds(nodes)
    ensures r.Ok? ==> ChosenSlots(nodes, coord, Some(ids), r.value)
    ensures r.Err? ==> ids == [] || exists i :: 0 <= i < |ids| && BadWorker(nodes, coord, ids, i)
  {
    var slots: seq<Slot> := [];
    for i := 0 to |ids|
      invariant |slots| == i && UniqueSlots(slots)
      invariant forall j :: 0 <= j < i ==> slots[j].node.id == ids[j] && GoodSlot(slots[j], nodes) && ids[j] != coord.id
    {
      if ids[i] in ids[..i] || ids[i] == coord.id {
        assert BadWorker(nodes, coord, ids, i);
        return Err;
      }
      var n := RequireNode(nodes, ids[i], true, false);
      if n.None? {
        assert BadWorker(nodes, coord, ids, i);
        return Err;
      }
      var gpu := OfferedGpu(n.value);
      if gpu.None? {
        OnlyNode(nodes, n.value);
        assert BadWorker(nodes, coord, ids, i);
        return Err;
      }
      assert forall j :: 0 <= j < i ==> slots[j].node.id != ids[i] by {
        forall j | 0 <= j < i ensures slots[j].node.id != ids[i] {
          assert ids[j] in ids[..i];
        }
      }
      slots := slots + [Slot(n.value, gpu.value)];
    }
    if slots == [] {
      return Err;
    }
    return Ok(slots);
  }

  lemma OnlyNode(nodes: seq<Node>, m: Node)
    requires UniqueIds(nodes) && m in nodes
    ensures forall n :: n in nodes && n.id == m.id ==> n == m
  {
    forall n | n in nodes && n.id == m.id ensures n == m {
      SameNode(nodes, m, n);
    }
  }

  predicate CanWork(n: Node, coord: Id) {
    n.id != coord && Eligible(n) && n.offer.value.worker && OfferedGpu(n).Some?
  }

  /** Direct paths first, each group by round trip then host. */
  ghost predicate InRingOrder(all: seq<Node>) {
    forall i, j :: 0 <= i < j < |all| ==>
      (all[j].direct ==> all[i].direct) && (all[i].direct == all[j].direct ==> !RttBefore(all[j], all[i]))
  }

  method OrderWorkers(able: seq<Node>) returns (all: seq<Node>)
    requires UniqueIds(able)
    ensures UniqueIds(all) && InRingOrder(all) && forall n :: n in all <==> n in able
  {
    var dialable, relayOnly := (n: Node) => n.direct, (n: Node) => !n.direct;
    var near, far := Keep(able, dialable), Keep(able, relayOnly);
    KeepUnique(able, dialable);
    KeepUnique(able, relayOnly);
    var direct, relayed := ByRtt(near), ByRtt(far);
    all := direct + relayed;
    JoinedInOrder(direct, relayed);
  }

  function ByRtt(nodes: seq<Node>): (sorted: seq<Node>)
    requires UniqueIds(nodes)
    ensures UniqueIds(sorted) && (forall n :: n in sorted <==> n in nodes)
    ensures forall i, j :: 0 <= i < j < |sorted| ==> !RttBefore(sorted[j], sorted[i])
  {
    SortUnique(nodes, RttBefore);
    SortMembers(nodes, RttBefore);
    SortSorted(nodes, RttBefore);
    Sort(nodes, RttBefore)
  }

  lemma JoinedInOrder(a: seq<Node>, b: seq<Node>)
    requires UniqueIds(a) && UniqueIds(b) && (forall n :: n in a ==> n.direct) && (forall n :: n in b ==> !n.direct)
    requires forall m, n :: m in a && n in b ==> m.id != n.id
    requires forall i, j :: 0 <= i < j < |a| ==> !RttBefore(a[j], a[i])
    requires forall i, j :: 0 <= i < j < |b| ==> !RttBefore(b[j], b[i])
    ensures UniqueIds(a + b) && InRingOrder(a + b) && forall n :: n in a + b <==> n in a || n in b
  {
    var all := a + b;
    forall i, j | 0 <= i < j < |all|
      ensures all[i].id != all[j].id && (all[j].direct ==> all[i].direct) && (all[i].direct == all[j].direct ==> !RttBefore(all[j], all[i]))
    {
      assert i < |a| ==> all[i] in a;
      assert i >= |a| ==> all[i] in b;
      assert j < |a| ==> all[j] in a;
      assert j >= |a| ==> all[j] in b;
    }
  }

  /** Every other node that can work. */
  method AllWorkers(nodes: seq<Node>, coord: Node) returns (r: Result<seq<Slot>>)
    requires UniqueIds(nodes)
    ensures r.Ok? <==> exists n :: n in nodes && CanWork(n, coord.id)
    ensures r.Ok? ==> ChosenSlots(nodes, coord, None, r.value)
  {
    var works := (n: Node) => CanWork(n, coord.id);
    var able := Keep(nodes, works);
    KeepUnique(nodes, works);
    var all := OrderWorkers(able);
    if all == [] {
      return Err;
    }
    forall i | 0 <= i < |all| ensures CanWork(all[i], coord.id) && all[i] in nodes {
      assert all[i] in all;
      assert all[i] in able;
    }
    assert CanWork(all[0], coord.id) && all[0] in nodes;
    var slots := SlotsOf(all);
    return Ok(slots);
  }

  function NodesOf(slots: seq<Slot>): (nodes: seq<Node>)
    ensures |nodes| == |slots| && forall i :: 0 <= i < |slots| ==> nodes[i] == slots[i].node
  {
    seq(|slots|, i requires 0 <= i < |slots| => slots[i].node)
  }

  function SlotsOf(all: seq<Node>): (slots: seq<Slot>)
    requires forall i :: 0 <= i < |all| ==> OfferedGpu(all[i]).Some?
    ensures NodesOf(slots) == all && forall i :: 0 <= i < |slots| ==> OfferedGpu(slots[i].node) == Some(slots[i].gpu)
  {
    seq(|all|, i requires 0 <= i < |all| => Slot(all[i], OfferedGpu(all[i]).value))
  }

  // ---------- one choice of workers ----------

  /** Before in the ring: direct paths first, then round trip and host. */
  predicate RingBefore(a: Node, b: Node) {
    (a.direct && !b.direct) || (a.direct == b.direct && RttBefore(a, b))
  }

  lemma RingStrict(all: seq<Node>, i: nat, j: nat)
    requires UniqueIds(all) && InRingOrder(all) && i < j < |all|
    ensures RingBefore(all[i], all[j]) && !RingBefore(all[j], all[i])
  {
  }

  /** Two rings with the same members begin with the same node. */
  lemma SameHead(a: seq<Node>, b: seq<Node>)
    requires UniqueIds(a) && UniqueIds(b) && InRingOrder(a) && InRingOrder(b) && a != [] && b != []
    requires forall n :: n in a <==> n in b
    ensures a[0] == b[0]
  {
    assert a[0] in b && b[0] in a;
    var i :| 0 <= i < |b| && b[i] == a[0];
    var j :| 0 <= j < |a| && a[j] == b[0];
    if i > 0 {
      RingStrict(b, 0, i);
    }
  }

  lemma SomebodyIn(b: seq<Node>)
    requires b != []
    ensures exists n :: n in b
  {
    assert b[0] in b;
  }

  lemma {:induction false} SameRing(a: seq<Node>, b: seq<Node>)
    requires UniqueIds(a) && UniqueIds(b) && InRingOrder(a) && InRingOrder(b) && forall n :: n in a <==> n in b
    ensures a == b
  {
    if a == [] {
      if b != [] {
        SomebodyIn(b);
      }
    } else {
      assert a[0] in b;
      SameHead(a, b);
      forall n ensures n in a[1..] <==> n in b[1..] {
        TailHas(a, n);
        TailHas(b, n);
      }
      SameRing(a[1..], b[1..]);
    }
  }

  lemma TailHas(a: seq<Node>, n: Node)
    requires UniqueIds(a) && a != []
    ensures n in a[1..] <==> n in a && n != a[0]
  {
    if n in a && n != a[0] {
      var i :| 0 <= i < |a| && a[i] == n;
      assert a[1..][i - 1] == n;
    }
    if n in a[1..] {
      var i :| 0 <= i < |a[1..]| && a[1..][i] == n;
      assert a[i + 1] == n;
    }
  }

  lemma SlotNode(nodes: seq<Node>, coord: Node, slots: seq<Slot>, n: Node)
    requires ChosenSlots(nodes, coord, None, slots)
    ensures n in NodesOf(slots) <==> n in nodes && CanWork(n, coord.id)
  {
    if n in NodesOf(slots) {
      var i :| 0 <= i < |NodesOf(slots)| && NodesOf(slots)[i] == n;
      assert GoodSlot(slots[i], nodes);
    }
  }

  lemma SameNodesSameSlots(nodes: seq<Node>, coord: Node, a: seq<Slot>, b: seq<Slot>)
    requires GoodSlots(nodes, coord, a) && GoodSlots(nodes, coord, b) && NodesOf(a) == NodesOf(b)
    ensures a == b
  {
    assert |a| == |NodesOf(a)| == |b|;
    forall i | 0 <= i < |a| ensures a[i] == b[i] {
      assert NodesOf(a)[i] == NodesOf(b)[i];
      assert GoodSlot(a[i], nodes) && GoodSlot(b[i], nodes);
    }
  }

  lemma OneChoice(nodes: seq<Node>, coord: Node, wanted: Option<seq<Id>>, a: seq<Slot>, b: seq<Slot>)
    requires UniqueIds(nodes) && ChosenSlots(nodes, coord, wanted, a) && ChosenSlots(nodes, coord, wanted, b)
    ensures a == b
  {
    if wanted.Some? {
      forall i | 0 <= i < |a| ensures a[i].node == b[i].node {
        assert GoodSlot(a[i], nodes) && GoodSlot(b[i], nodes);
        SameNode(nodes, a[i].node, b[i].node);
      }
      assert NodesOf(a) == NodesOf(b);
    } else {
      forall n ensures n in NodesOf(a) <==> n in NodesOf(b) {
        SlotNode(nodes, coord, a, n);
        SlotNode(nodes, coord, b, n);
      }
      SameRing(NodesOf(a), NodesOf(b));
    }
    SameNodesSameSlots(nodes, coord, a, b);
  }

  // ---------- the plan ----------

  function Used(ports: map<Id, set<int>>, id: Id): set<int> {
    if id in ports then ports[id] else {}
  }

  /** A worker of the plan stands for a slot: its node, device, cap, layers and free ports. */
  predicate WorkerOf(w: PlanWorker, s: Slot, layers: int, used: set<int>, forwarding: bool) {
    && w.node == s.node.id && w.device == s.gpu.engine && w.memCapMiB == s.gpu.memMiB && w.layers == layers
    && PortStep(w.port) && PortFree(used, w.port)
    && w.peer == (if forwarding then Some(w.port + 1) else None)
    && w.threads >= 1 && w.threads <= Max(1, MAX_WORKER_THREADS)
  }

  ghost predicate HasPort(used: set<int>) {
    exists p :: PortStep(p) && PortFree(used, p)
  }

  ghost predicate PortsLeft(slots: seq<Slot>, ports: map<Id, set<int>>) {
    forall i :: 0 <= i < |slots| ==> HasPort(Used(ports, slots[i].node.id))
  }

  ghost predicate WorkersOf(workers: seq<PlanWorker>, slots: seq<Slot>, layers: seq<int>, ports: map<Id, set<int>>, forwarding: bool) {
    && |workers| == |slots| == |layers|
    && forall i :: 0 <= i < |slots| ==> WorkerOf(workers[i], slots[i], layers[i], Used(ports, slots[i].node.id), forwarding)
  }

  method AssignPorts(slots: seq<Slot>, layers: seq<int>, ports: map<Id, set<int>>, forwarding: bool) returns (r: Result<seq<PlanWorker>>)
    requires |layers| == |slots| && forall i :: 0 <= i < |slots| ==> slots[i].node.offer.Some?
    ensures r.Ok? ==> WorkersOf(r.value, slots, layers, ports, forwarding)
    ensures r.Ok? <==> PortsLeft(slots, ports)
  {
    var workers: seq<PlanWorker> := [];
    for i := 0 to |slots|
      invariant |workers| == i
      invariant forall j :: 0 <= j < i ==> WorkerOf(workers[j], slots[j], layers[j], Used(ports, slots[j].node.id), forwarding)
      invariant forall j :: 0 <= j < i ==> HasPort(Used(ports, slots[j].node.id))
    {
      var port := PickPort(Used(ports, slots[i].node.id));
      if port.Err? {
        assert !HasPort(Used(ports, slots[i].node.id));
        return Err;
      }
      var threads := Max(1, Min(slots[i].node.offer.value.cpuCores, MAX_WORKER_THREADS));
      var peer := if forwarding then Some(port.value + 1) else None;
      workers := workers + [PlanWorker(slots[i].node.id, slots[i].gpu.engine, layers[i], port.value, peer, threads, slots[i].gpu.memMiB)];
    }
    return Ok(workers);
  }

  /** Shares that fit: the counts asked for, or those of the best row. */
  ghost predicate ChosenLayers(p: Profile, spec: Spec, slots: seq<Slot>, layers: seq<int>) {
    && GoodShares(p, slots, layers)
    && (spec.workerLayers.Some? ==> layers == spec.workerLayers.value)
    && (spec.workerLayers.None? ==> BestShares(p, Request(spec.ctx, spec.parallel, spec.chain), slots, layers))
  }

  /** The plan places every layer, each where it fits, on distinct nodes with free ports. */
  ghost predicate Sound(p: Profile, nodes: seq<Node>, ports: map<Id, set<int>>, spec: Spec, plan: Plan, coord: Node, slots: seq<Slot>, layers: seq<int>) {
    && GoodCoordinator(nodes, spec.coordinator, coord) && plan.coordinator == coord.id
    && ChosenSlots(nodes, coord, spec.workers, slots) && ChosenLayers(p, spec, slots, layers)
    && WorkersOf(plan.workers, slots, layers, ports, spec.forwarding && |slots| > 1)
    && plan.tensorSplit == layers + [p.layers - Sum(layers)] && ResidentFits(p, coord, p.layers - Sum(layers))
    && plan.engineSplit == (if spec.workerLayers.Some? then Some(layers + [p.layers - Sum(layers) + 1]) else None)
  }

  ghost predicate GoodPlan(p: Profile, nodes: seq<Node>, ports: map<Id, set<int>>, spec: Spec, plan: Plan) {
    exists coord, slots, layers :: Sound(p, nodes, ports, spec, plan, coord, slots, layers)
  }

  lemma {:induction false} SumSnoc(xs: seq<int>, x: int)
    ensures Sum(xs + [x]) == Sum(xs) + x
  {
    assert (xs + [x])[..|xs|] == xs;
  }

  /** A good plan covers exactly the model, leaves the coordinator a layer and repeats no node. */
  lemma PlanCovers(p: Profile, nodes: seq<Node>, ports: map<Id, set<int>>, spec: Spec, plan: Plan)
    requires GoodPlan(p, nodes, ports, spec, plan)
    ensures Sum(plan.tensorSplit) == p.layers && |plan.tensorSplit| == |plan.workers| + 1 && plan.tensorSplit[|plan.workers|] >= 1
    ensures forall i :: 0 <= i < |plan.workers| ==> plan.workers[i].layers == plan.tensorSplit[i] && plan.workers[i].node != plan.coordinator
    ensures forall i, j :: 0 <= i < j < |plan.workers| ==> plan.workers[i].node != plan.workers[j].node
  {
    var coord, slots, layers :| Sound(p, nodes, ports, spec, plan, coord, slots, layers);
    SumSnoc(layers, p.layers - Sum(layers));
  }

  /** What the request must satisfy before anything is placed. */
  predicate ValidSpec(spec: Spec) {
    && spec.ctx >= 1 && spec.parallel >= 1 && spec.chain >= 0
    && (spec.workerLayers.Some? ==>
          && spec.chain == 0 && spec.workerLayers.value != [] && (forall i :: 0 <= i < |spec.workerLayers.value| ==> spec.workerLayers.value[i] >= 1)
          && spec.workers.Some? && |spec.workers.value| == |spec.workerLayers.value|)
  }

  // ---------- when there is a plan ----------

  /** The layers a row takes off the coordinator. */
  function RowTotal(p: Profile, row: Row, slots: seq<Slot>): int
    requires GoodProfile(p) && forall i :: 0 <= i < |slots| ==> slots[i].node.offer.Some?
  {
    if row.maxFit then Min(Sum(Fits(p, slots)), p.layers - 1) else row.workerLayers * |slots|
  }

  /** The counts asked for, or those of the best admissible row, take this many layers off the coordinator. */
  ghost predicate Takes(p: Profile, spec: Spec, slots: seq<Slot>, total: int) {
    && GoodProfile(p) && (forall i :: 0 <= i < |slots| ==> slots[i].node.offer.Some?)
    && var q := Request(spec.ctx, spec.parallel, spec.chain);
       if spec.workerLayers.Some? then
         |spec.workerLayers.value| == |slots| && Requestable(p, q, slots, spec.workerLayers.value) && total == Sum(spec.workerLayers.value)
       else exists k :: 0 <= k < |p.envelope| && Best(p, q, slots, k) && total == RowTotal(p, p.envelope[k], slots)
  }

  predicate DraftReady(p: Profile, spec: Spec, coord: Node) {
    spec.chain > 0 ==> p.hasDraft && coord.draft
  }

  ghost predicate PlaceableAt(p: Profile, nodes: seq<Node>, ports: map<Id, set<int>>, spec: Spec, coord: Node, slots: seq<Slot>, total: int) {
    && ValidSpec(spec) && GoodCoordinator(nodes, spec.coordinator, coord) && ChosenSlots(nodes, coord, spec.workers, slots)
    && DraftReady(p, spec, coord) && Takes(p, spec, slots, total) && ResidentFits(p, coord, p.layers - total) && PortsLeft(slots, ports)
  }

  /** The coordinator, the workers and the layers the request asks for exist, the rest fits the coordinator, and ports are free. */
  ghost predicate Placeable(p: Profile, nodes: seq<Node>, ports: map<Id, set<int>>, spec: Spec) {
    exists coord, slots, total :: PlaceableAt(p, nodes, ports, spec, coord, slots, total)
  }

  lemma OneTotal(p: Profile, spec: Spec, slots: seq<Slot>, a: int, b: int)
    requires Takes(p, spec, slots, a) && Takes(p, spec, slots, b)
    ensures a == b
  {
    if spec.workerLayers.None? {
      var q := Request(spec.ctx, spec.parallel, spec.chain);
      var j :| 0 <= j < |p.envelope| && Best(p, q, slots, j) && a == RowTotal(p, p.envelope[j], slots);
      var k :| 0 <= k < |p.envelope| && Best(p, q, slots, k) && b == RowTotal(p, p.envelope[k], slots);
      assert j == k;
    }
  }

  /** What does not work for the one choice there is does not work at all. */
  lemma NoOtherCoordinator(p: Profile, nodes: seq<Node>, ports: map<Id, set<int>>, spec: Spec, coord: Node)
    requires UniqueIds(nodes) && GoodCoordinator(nodes, spec.coordinator, coord)
    requires !DraftReady(p, spec, coord) || forall slots :: !ChosenSlots(nodes, coord, spec.workers, slots)
    ensures !Placeable(p, nodes, ports, spec)
  {
    forall c, slots, total ensures !PlaceableAt(p, nodes, ports, spec, c, slots, total) {
      if PlaceableAt(p, nodes, ports, spec, c, slots, total) {
        OneCoordinator(nodes, spec.coordinator, c, coord);
      }
    }
  }

  lemma NoOtherSlots(p: Profile, nodes: seq<Node>, ports: map<Id, set<int>>, spec: Spec, coord: Node, slots: seq<Slot>)
    requires UniqueIds(nodes) && GoodCoordinator(nodes, spec.coordinator, coord) && ChosenSlots(nodes, coord, spec.workers, slots)
    requires !PortsLeft(slots, ports) || forall total :: !Takes(p, spec, slots, total)
    ensures !Placeable(p, nodes, ports, spec)
  {
    forall c, other, total ensures !PlaceableAt(p, nodes, ports, spec, c, other, total) {
      if PlaceableAt(p, nodes, ports, spec, c, other, total) {
        OneCoordinator(nodes, spec.coordinator, c, coord);
        OneChoice(nodes, coord, spec.workers, other, slots);
      }
    }
  }

  lemma NoOtherTotal(p: Profile, nodes: seq<Node>, ports: map<Id, set<int>>, spec: Spec, coord: Node, slots: seq<Slot>, total: int)
    requires UniqueIds(nodes) && GoodCoordinator(nodes, spec.coordinator, coord) && ChosenSlots(nodes, coord, spec.workers, slots)
    requires Takes(p, spec, slots, total) && !ResidentFits(p, coord, p.layers - total)
    ensures !Placeable(p, nodes, ports, spec)
  {
    forall c, other, t ensures !PlaceableAt(p, nodes, ports, spec, c, other, t) {
      if PlaceableAt(p, nodes, ports, spec, c, other, t) {
        OneCoordinator(nodes, spec.coordinator, c, coord);
        OneChoice(nodes, coord, spec.workers, other, slots);
        OneTotal(p, spec, slots, t, total);
      }
    }
  }

  lemma BestTakes(p: Profile, spec: Spec, slots: seq<Slot>, shares: seq<int>)
    requires spec.workerLayers.None? && BestShares(p, Request(spec.ctx, spec.parallel, spec.chain), slots, shares)
    ensures Takes(p, spec, slots, Sum(shares))
  {
    var q := Request(spec.ctx, spec.parallel, spec.chain);
    var k :| 0 <= k < |p.envelope| && Best(p, q, slots, k) && SharesOf(p, p.envelope[k], slots, shares);
    if !p.envelope[k].maxFit {
      EqualShares(shares, p.envelope[k].workerLayers);
    }
    assert Sum(shares) == RowTotal(p, p.envelope[k], slots);
  }

  method ChooseWorkers(nodes: seq<Node>, coord: Node, spec: Spec) returns (r: Result<seq<Slot>>)
    requires UniqueIds(nodes)
    ensures r.Ok? ==> ChosenSlots(nodes, coord, spec.workers, r.value)
    ensures r.Err? ==> forall slots :: !ChosenSlots(nodes, coord, spec.workers, slots)
  {
    if spec.workers.Some? {
      r := NamedWorkers(nodes, coord, spec.workers.value);
      if r.Err? {
        forall slots ensures !ChosenSlots(nodes, coord, spec.workers, slots) {
          if ChosenSlots(nodes, coord, spec.workers, slots) && spec.workers.value != [] {
            var i :| 0 <= i < |spec.workers.value| && BadWorker(nodes, coord, spec.workers.value, i);
            ChosenServes(nodes, coord, spec.workers.value, slots, i);
          }
        }
      }
    } else {
      r := AllWorkers(nodes, coord);
      if r.Err? {
        forall slots ensures !ChosenSlots(nodes, coord, spec.workers, slots) {
          NobodyWorks(nodes, coord, slots);
        }
      }
    }
  }

  lemma NobodyWorks(nodes: seq<Node>, coord: Node, slots: seq<Slot>)
    requires forall n :: n in nodes ==> !CanWork(n, coord.id)
    ensures !ChosenSlots(nodes, coord, None, slots)
  {
    if ChosenSlots(nodes, coord, None, slots) {
      assert GoodSlot(slots[0], nodes) && CanWork(slots[0].node, coord.id);
    }
  }

  method ChooseLayers(p: Profile, spec: Spec, slots: seq<Slot>) returns (r: Result<seq<int>>)
    requires GoodProfile(p) && slots != [] && (forall i :: 0 <= i < |slots| ==> slots[i].node.offer.Some?)
    requires ValidSpec(spec) && (spec.workerLayers.Some? ==> |spec.workerLayers.value| == |slots|)
    ensures r.Ok? ==> ChosenLayers(p, spec, slots, r.value) && Takes(p, spec, slots, Sum(r.value))
    ensures r.Err? ==> forall total :: !Takes(p, spec, slots, total)
  {
    var q := Request(spec.ctx, spec.parallel, spec.chain);
    if spec.workerLayers.Some? {
      var ok := RequestedLayers(p, q, slots, spec.workerLayers.value);
      return if ok then Ok(spec.workerLayers.value) else Err;
    }
    r := AutomaticLayers(p, q, slots);
    if r.Ok? {
      BestTakes(p, spec, slots, r.value);
    }
  }

  function PlanOf(p: Profile, spec: Spec, coord: Node, device: Device, workers: seq<PlanWorker>, layers: seq<int>): Plan {
    var remaining := p.layers - Sum(layers);
    var engine := if spec.workerLayers.Some? then Some(layers + [remaining + 1]) else None;
    Plan(coord.id, device, workers, layers + [remaining], engine)
  }

  lemma PlanIsSound(p: Profile, nodes: seq<Node>, ports: map<Id, set<int>>, spec: Spec, coord: Node, slots: seq<Slot>, device: Device, workers: seq<PlanWorker>, layers: seq<int>)
    requires GoodCoordinator(nodes, spec.coordinator, coord) && ChosenSlots(nodes, coord, spec.workers, slots)
    requires ChosenLayers(p, spec, slots, layers) && ResidentFits(p, coord, p.layers - Sum(layers))
    requires WorkersOf(workers, slots, layers, ports, spec.forwarding && |slots| > 1)
    ensures GoodPlan(p, nodes, ports, spec, PlanOf(p, spec, coord, device, workers, layers))
  {
    assert Sound(p, nodes, ports, spec, PlanOf(p, spec, coord, device, workers, layers), coord, slots, layers);
  }

  /** The split planner: a plan exactly if there is one to make. */
  method Split(p: Profile, nodes: seq<Node>, ports: map<Id, set<int>>, spec: Spec) returns (r: Result<Plan>)
    requires GoodProfile(p) && UniqueIds(nodes)
    ensures r.Ok? ==> ValidSpec(spec) && GoodPlan(p, nodes, ports, spec, r.value)
    ensures r.Ok? <==> Placeable(p, nodes, ports, spec)
  {
    if !ValidSpec(spec) {
      return Err;
    }
    var coord := ChooseCoordinator(nodes, spec.coordinator);
    if coord.None? {
      return Err;
    }
    var slots := ChooseWorkers(nodes, coord.value, spec);
    if slots.Err? || (spec.chain > 0 && !(p.hasDraft && coord.value.draft)) {
      NoOtherCoordinator(p, nodes, ports, spec, coord.value);
      return Err;
    }
    r := SplitOver(p, nodes, ports, spec, coord.value, slots.value);
  }

  /** With the coordinator and the workers chosen: the layers. */
  method SplitOver(p: Profile, nodes: seq<Node>, ports: map<Id, set<int>>, spec: Spec, coord: Node, slots: seq<Slot>) returns (r: Result<Plan>)
    requires GoodProfile(p) && UniqueIds(nodes) && ValidSpec(spec) && DraftReady(p, spec, coord)
    requires GoodCoordinator(nodes, spec.coordinator, coord) && ChosenSlots(nodes, coord, spec.workers, slots)
    ensures r.Ok? ==> GoodPlan(p, nodes, ports, spec, r.value)
    ensures r.Ok? <==> Placeable(p, nodes, ports, spec)
  {
    SlotsOffer(nodes, coord, slots);
    var layers := ChooseLayers(p, spec, slots);
    if layers.Err? {
      NoOtherSlots(p, nodes, ports, spec, coord, slots);
      return Err;
    }
    r := SplitLayers(p, nodes, ports, spec, coord, slots, layers.value);
  }

  /** With the layers chosen too: residency and ports. */
  method SplitLayers(p: Profile, nodes: seq<Node>, ports: map<Id, set<int>>, spec: Spec, coord: Node, slots: seq<Slot>, layers: seq<int>) returns (r: Result<Plan>)
    requires GoodProfile(p) && UniqueIds(nodes) && ValidSpec(spec) && DraftReady(p, spec, coord)
    requires GoodCoordinator(nodes, spec.coordinator, coord) && ChosenSlots(nodes, coord, spec.workers, slots)
    requires ChosenLayers(p, spec, slots, layers) && Takes(p, spec, slots, Sum(layers))
    ensures r.Ok? ==> GoodPlan(p, nodes, ports, spec, r.value)
    ensures r.Ok? <==> Placeable(p, nodes, ports, spec)
  {
    var device, ok := PlaceResident(p, coord, p.layers - Sum(layers));
    if !ok {
      NoOtherTotal(p, nodes, ports, spec, coord, slots, Sum(layers));
      return Err;
    }
    var workers := AssignPorts(slots, layers, ports, spec.forwarding && |slots| > 1);
    if workers.Err? {
      NoOtherSlots(p, nodes, ports, spec, coord, slots);
      return Err;
    }
    assert PlaceableAt(p, nodes, ports, spec, coord, slots, Sum(layers));
    PlanIsSound(p, nodes, ports, spec, coord, slots, device, workers.value, layers);
    return Ok(PlanOf(p, spec, coord, device, workers.value, layers));
  }

  lemma SlotsOffer(nodes: seq<Node>, coord: Node, slots: seq<Slot>)
    requires GoodSlots(nodes, coord, slots)
    ensures forall i :: 0 <= i < |slots| ==> slots[i].node.offer.Some?
  {
    forall i | 0 <= i < |slots| ensures slots[i].node.offer.Some? {
      assert GoodSlot(slots[i], nodes);
    }
  }
}
