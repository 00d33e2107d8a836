/** Admission of a plan against the ledger: no plan takes more than its nodes still have. */
module Admission {
  import opened Outcomes
  import opened Sorting
  import opened Planner
  import opened PlanSplit
  import opened Resources

  // ---------- any plan ----------

  /** Whole model on one node, or split over several. */
  datatype Kind = Replica(node: Option<Id>) | Split

  function PlanNodes(plan: Plan): (ids: seq<Id>)
    ensures |ids| == |plan.workers| + 1 && ids[0] == plan.coordinator
    ensures forall i :: 1 <= i < |ids| ==> ids[i] == plan.workers[i - 1].node
  {
    [plan.coordinator] + seq(|plan.workers|, i requires 0 <= i < |plan.workers| => plan.workers[i].node)
  }

  ghost predicate IsEligible(nodes: seq<Node>, id: Id) {
    exists n :: n in nodes && n.id == id && Eligible(n)
  }

  ghost predicate UniquePlan(plan: Plan) {
    forall i, j :: 0 <= i < j < |PlanNodes(plan)| ==> PlanNodes(plan)[i] != PlanNodes(plan)[j]
  }

  /** The plan uses different nodes, all of them among those given and eligible. */
  ghost predicate UsesEligible(nodes: seq<Node>, plan: Plan) {
    UniquePlan(plan) && forall i :: 0 <= i < |PlanNodes(plan)| ==> IsEligible(nodes, PlanNodes(plan)[i])
  }

  predicate CanHost(n: Node) {
    Eligible(n) && n.offer.value.replica && n.model
  }

  /** The node asked for, or the first by host that can take the whole model. */
  ghost predicate Hosts(nodes: seq<Node>, wanted: Option<Id>, n: Node) {
    && n in nodes && CanHost(n) && (wanted.Some? ==> n.id == wanted.value)
    && forall m :: m in nodes && CanHost(m) && (wanted.Some? ==> m.id == wanted.value) ==> !HostBefore(m, n)
  }

  lemma OneHost(nodes: seq<Node>, wanted: Option<Id>, m: Node, n: Node)
    requires UniqueIds(nodes) && Hosts(nodes, wanted, m) && Hosts(nodes, wanted, n)
    ensures m == n
  {
    SameNode(nodes, m, n);
  }

  lemma FirstHosts(nodes: seq<Node>, sorted: seq<Node>, wanted: Option<Id>, i: nat)
    requires (forall n :: n in sorted <==> n in nodes) && Sorted(sorted, HostBefore) && i < |sorted|
    requires CanHost(sorted[i]) && (wanted.Some? ==> sorted[i].id == wanted.value)
    requires forall j :: 0 <= j < i ==> !(CanHost(sorted[j]) && (wanted.Some? ==> sorted[j].id == wanted.value))
    ensures Hosts(nodes, wanted, sorted[i])
  {
    assert sorted[i] in sorted;
    forall m | m in nodes && CanHost(m) && (wanted.Some? ==> m.id == wanted.value) ensures !HostBefore(m, sorted[i]) {
      var k :| 0 <= k < |sorted| && sorted[k] == m;
      assert k >= i;
    }
  }

  method FindHost(nodes: seq<Node>, wanted: Option<Id>) returns (r: Option<Node>)
    ensures r.Some? ==> Hosts(nodes, wanted, r.value)
    ensures r.None? ==> forall n :: !Hosts(nodes, wanted, n)
  {
    var sorted := Sort(nodes, HostBefore);
    SortMembers(nodes, HostBefore);
    SortSorted(nodes, HostBefore);
    for i := 0 to |sorted|
      invariant forall j :: 0 <= j < i ==> !(CanHost(sorted[j]) && (wanted.Some? ==> sorted[j].id == wanted.value))
    {
      if CanHost(sorted[i]) && (wanted.Some? ==> sorted[i].id == wanted.value) {
        FirstHosts(nodes, sorted, wanted, i);
        return Some(sorted[i]);
      }
    }
    return None;
  }

  /** The whole model goes on that node, exactly if it fits there and no chain is asked for. */
  method PlanReplica(p: Profile, nodes: seq<Node>, wanted: Option<Id>, chain: int) returns (r: Result<Plan>)
    requires UniqueIds(nodes)
    ensures r.Ok? ==> r.value.workers == [] && exists n :: Hosts(nodes, wanted, n) && n.id == r.value.coordinator
    ensures r.Ok? <==> chain == 0 && exists n :: Hosts(nodes, wanted, n) && ResidentFits(p, n, p.layers)
  {
    var host := FindHost(nodes, wanted);
    if chain != 0 || host.None? {
      return Err;
    }
    var device, ok := PlaceResident(p, host.value, p.layers);
    if !ok {
      forall m | Hosts(nodes, wanted, m) ensures m == host.value {
        OneHost(nodes, wanted, m, host.value);
      }
      return Err;
    }
    return Ok(Plan(host.value.id, device, [], [], None));
  }

  ghost predicate Plannable(p: Profile, nodes: seq<Node>, ports: map<Id, set<int>>, kind: Kind, spec: Spec) {
    if kind.Replica? then spec.chain == 0 && exists n :: Hosts(nodes, kind.node, n) && ResidentFits(p, n, p.layers)
    else Placeable(p, nodes, ports, spec)
  }

  /** What a plan of either kind must be. */
  ghost predicate PlanFor(p: Profile, nodes: seq<Node>, ports: map<Id, set<int>>, kind: Kind, spec: Spec, plan: Plan) {
    if kind.Replica? then plan.workers == [] && exists n :: Hosts(nodes, kind.node, n) && n.id == plan.coordinator
    else GoodPlan(p, nodes, ports, spec, plan)
  }

  /** A plan of either kind, exactly if there is one to make. */
  method PlanDeployment(p: Profile, nodes: seq<Node>, ports: map<Id, set<int>>, kind: Kind, spec: Spec) returns (r: Result<Plan>)
    requires GoodProfile(p) && UniqueIds(nodes)
    ensures r.Ok? ==> UsesEligible(nodes, r.value)
    ensures r.Ok? ==> PlanFor(p, nodes, ports, kind, spec, r.value)
    ensures r.Ok? <==> Plannable(p, nodes, ports, kind, spec)
  {
    if kind.Replica? {
      r := PlanReplica(p, nodes, kind.node, spec.chain);
    } else {
      r := PlanSplit.Split(p, nodes, ports, spec);
      if r.Ok? {
        SplitEligible(p, nodes, ports, spec, r.value);
      }
    }
  }

  lemma SplitEligible(p: Profile, nodes: seq<Node>, ports: map<Id, set<int>>, spec: Spec, plan: Plan)
    requires GoodPlan(p, nodes, ports, spec, plan)
    ensures UsesEligible(nodes, plan)
  {
    NodesDiffer(p, nodes, ports, spec, plan);
    NodesEligible(p, nodes, ports, spec, plan);
  }

  lemma NodesDiffer(p: Profile, nodes: seq<Node>, ports: map<Id, set<int>>, spec: Spec, plan: Plan)
    requires GoodPlan(p, nodes, ports, spec, plan)
    ensures UniquePlan(plan)
  {
    PlanCovers(p, nodes, ports, spec, plan);
    var ids := PlanNodes(plan);
    forall i, j | 0 <= i < j < |ids| ensures ids[i] != ids[j] {
      assert ids[j] == plan.workers[j - 1].node;
      if i > 0 {
        assert ids[i] == plan.workers[i - 1].node;
      }
    }
  }

  lemma NodesEligible(p: Profile, nodes: seq<Node>, ports: map<Id, set<int>>, spec: Spec, plan: Plan)
    requires GoodPlan(p, nodes, ports, spec, plan)
    ensures forall i :: 0 <= i < |PlanNodes(plan)| ==> IsEligible(nodes, PlanNodes(plan)[i])
  {
    var coord, slots, layers :| Sound(p, nodes, ports, spec, plan, coord, slots, layers);
    var ids := PlanNodes(plan);
    forall i | 0 <= i < |ids| ensures IsEligible(nodes, ids[i]) {
      if i == 0 {
        CoordinatorEligible(nodes, spec.coordinator, coord);
      } else {
        SlotEligible(p, nodes, ports, spec, plan, coord, slots, layers, i - 1);
      }
    }
  }

  lemma CoordinatorEligible(nodes: seq<Node>, wanted: Option<Id>, coord: Node)
    requires GoodCoordinator(nodes, wanted, coord)
    ensures IsEligible(nodes, coord.id)
  {
  }

  lemma SlotEligible(p: Profile, nodes: seq<Node>, ports: map<Id, set<int>>, spec: Spec, plan: Plan, coord: Node, slots: seq<Slot>, layers: seq<int>, i: nat)
    requires Sound(p, nodes, ports, spec, plan, coord, slots, layers) && i < |plan.workers|
    ensures IsEligible(nodes, plan.workers[i].node)
  {
    assert GoodSlot(slots[i], nodes);
    assert slots[i].node in nodes && Eligible(slots[i].node);
  }

  // ---------- explicit budgets ----------

  predicate GoodGpus(gpu: seq<GpuOffer>) {
    && |gpu| <= 64 && (forall i :: 0 <= i < |gpu| ==> gpu[i].memMiB >= 1)
    && forall i, j :: 0 <= i < j < |gpu| ==> gpu[i].id != gpu[j].id
  }

  predicate GoodBudget(a: Allocation) {
    a.ramMiB >= 1 && a.cpuCores >= 1 && GoodGpus(a.gpu)
  }

  /** One to a thousand positive budgets for different nodes. */
  predicate GoodBudgets(values: seq<Allocation>) {
    && 1 <= |values| <= 1000 && (forall i :: 0 <= i < |values| ==> GoodBudget(values[i]))
    && forall i, j :: 0 <= i < j < |values| ==> values[i].node != values[j].node
  }

  method ParseAllocations(values: seq<Allocation>) returns (ok: bool)
    ensures ok <==> GoodBudgets(values)
  {
    if !(1 <= |values| <= 1000) {
      return false;
    }
    var ids: set<Id> := {};
    for i := 0 to |values|
      invariant ids == set j | 0 <= j < i :: values[j].node
      invariant forall j :: 0 <= j < i ==> GoodBudget(values[j])
      invariant forall j, k :: 0 <= j < k < i ==> values[j].node != values[k].node
    {
      if values[i].node in ids || !GoodBudget(values[i]) {
        return false;
      }
      ids := ids + {values[i].node};
    }
    return true;
  }

  function FindOffer(gpu: seq<GpuOffer>, id: nat): int {
    if gpu == [] then 0 else if gpu[0].id == id then gpu[0].memMiB else FindOffer(gpu[1..], id)
  }

  predicate Fits(a: Allocation, n: Node) {
    && n.online && n.offer.Some? && n.offer.value.enabled
    && a.ramMiB <= n.offer.value.ramMiB && a.cpuCores <= n.offer.value.cpuCores
    && forall i :: 0 <= i < |a.gpu| ==> a.gpu[i].memMiB <= FindOffer(n.offer.value.gpu, a.gpu[i].id)
  }

  lemma {:induction false} FindOfferIs(gpu: seq<GpuOffer>, id: nat)
    ensures FindOffer(gpu, id) == 0 || exists i :: 0 <= i < |gpu| && gpu[i] == GpuOffer(id, FindOffer(gpu, id))
  {
    if gpu != [] && gpu[0].id != id {
      FindOfferIs(gpu[1..], id);
      if FindOffer(gpu, id) != 0 {
        var i :| 0 <= i < |gpu[1..]| && gpu[1..][i] == GpuOffer(id, FindOffer(gpu, id));
        assert gpu[i + 1] == gpu[1..][i];
      }
    } else if gpu != [] {
      assert gpu[0] == GpuOffer(id, gpu[0].memMiB);
    }
  }

  // ---------- within the offer ----------

  /** What is reserved and what is newly taken stay within the node's offer, for every quantity taken. */
  ghost predicate Within(l: Ledger, n: Node, a: Allocation) {
    forall q :: Amount(a, q) > 0 ==> Held(l, n.id, q) + Amount(a, q) <= Amount(Offered(n), q)
  }

  lemma {:induction false} UniqueTotal(gpu: seq<GpuOffer>, g: nat)
    requires forall i, j :: 0 <= i < j < |gpu| ==> gpu[i].id != gpu[j].id
    ensures (forall i :: 0 <= i < |gpu| ==> gpu[i].id != g) ==> GpuTotal(gpu, g) == 0
    ensures forall i :: 0 <= i < |gpu| && gpu[i].id == g ==> GpuTotal(gpu, g) == gpu[i].memMiB
  {
    if gpu != [] {
      var n := |gpu| - 1;
      UniqueTotal(gpu[..n], g);
      forall i | 0 <= i < |gpu| && gpu[i].id == g ensures GpuTotal(gpu, g) == gpu[i].memMiB {
        if i < n {
          assert gpu[..n][i] == gpu[i];
        }
      }
    }
  }

  /** A budget that fits what is left fits, with what is reserved, in the offer. */
  lemma BudgetWithin(l: Ledger, n: Node, a: Allocation)
    requires GoodNode(n) && GoodBudget(a) && a.node == n.id && Fits(a, Available(n, l))
    ensures Within(l, n, a)
  {
    forall q | Amount(a, q) > 0 ensures Held(l, n.id, q) + Amount(a, q) <= Amount(Offered(n), q) {
      if q.Memory? {
        GpuWithin(l, n, a, q.gpu);
      }
    }
  }

  lemma GpuWithin(l: Ledger, n: Node, a: Allocation, g: nat)
    requires GoodNode(n) && GoodBudget(a) && Fits(a, Available(n, l)) && GpuTotal(a.gpu, g) > 0
    ensures Held(l, n.id, Memory(g)) + GpuTotal(a.gpu, g) <= GpuTotal(Offered(n).gpu, g)
  {
    UniqueTotal(a.gpu, g);
    var i :| 0 <= i < |a.gpu| && a.gpu[i].id == g;
    var free := FreeGpus(n.offer.value.gpu, l, n.id);
    assert Available(n, l).offer.value.gpu == free;
    FindOfferIs(free, g);
    var j :| 0 <= j < |free| && free[j] == GpuOffer(g, FindOffer(free, g));
    FreeEntry(n.offer.value.gpu, l, n.id, j);
  }

  /** A plan without budgets takes all that is left, and no more. */
  lemma WholeWithin(l: Ledger, n: Node)
    requires GoodNode(n) && GoodLedger(l) && n.offer.Some? && Available(n, l).offer.value.enabled
    ensures Within(l, n, Offered(Available(n, l)))
  {
    var a := Offered(Available(n, l));
    forall q | Amount(a, q) > 0 ensures Held(l, n.id, q) + Amount(a, q) <= Amount(Offered(n), q) {
      if q.Memory? {
        FreeWithin(n.offer.value.gpu, l, n.id, q.gpu);
      }
    }
  }

  // ---------- nothing left to lend ----------

  /** Once every free entry is reserved, no entry is free. */
  lemma {:induction false} NoneFree(gpu: seq<GpuOffer>, after: Ledger, n: Id)
    requires forall i :: 0 <= i < |gpu| ==> gpu[i].memMiB <= Held(after, n, Memory(gpu[i].id))
    ensures FreeGpus(gpu, after, n) == []
  {
    if gpu != [] {
      NoneFree(gpu[..|gpu| - 1], after, n);
    }
  }

  /** The free part of one more offered entry. */
  lemma FreeSnoc(gpu: seq<GpuOffer>, last: GpuOffer, l: Ledger, n: Id, g: nat)
    ensures GpuTotal(FreeGpus(gpu + [last], l, n), g)
            == GpuTotal(FreeGpus(gpu, l, n), g) + if last.id == g then Max(0, last.memMiB - Held(l, n, Memory(g))) else 0
  {
    assert (gpu + [last])[..|gpu|] == gpu;
    var rest, free := FreeGpus(gpu, l, n), Max(0, last.memMiB - Held(l, n, Memory(last.id)));
    if free > 0 {
      assert (rest + [GpuOffer(last.id, free)])[..|rest|] == rest;
    } else {
      assert rest + [] == rest;
    }
  }

  lemma {:induction false} EntryTaken(gpu: seq<GpuOffer>, l: Ledger, n: Id, i: nat)
    requires i < |gpu|
    ensures gpu[i].memMiB <= Held(l, n, Memory(gpu[i].id)) + GpuTotal(FreeGpus(gpu, l, n), gpu[i].id)
  {
    var k := |gpu| - 1;
    var init, last, g := gpu[..k], gpu[k], gpu[i].id;
    assert gpu == init + [last];
    FreeSnoc(init, last, l, n, g);
    if i < k {
      EntryTaken(init, l, n, i);
    } else {
      FreeNonneg(init, l, n, g);
    }
  }

  lemma {:induction false} FreeNonneg(gpu: seq<GpuOffer>, l: Ledger, n: Id, g: nat)
    ensures GpuTotal(FreeGpus(gpu, l, n), g) >= 0
  {
    if gpu != [] {
      var init, last := gpu[..|gpu| - 1], gpu[|gpu| - 1];
      assert gpu == init + [last];
      FreeNonneg(init, l, n, g);
      FreeSnoc(init, last, l, n, g);
    }
  }

  /** A plan without explicit budgets leaves each of its nodes with nothing to lend. */
  lemma WholeSpends(l: Ledger, after: Ledger, n: Node)
    requires GoodNode(n) && n.offer.Some? && forall q :: Held(after, n.id, q) == Held(l, n.id, q) + Amount(Offered(Available(n, l)), q)
    requires Held(l, n.id, Ram) <= n.offer.value.ramMiB
    ensures Spent(Available(n, after))
  {
    var gpu := n.offer.value.gpu;
    assert Held(after, n.id, Ram) == Held(l, n.id, Ram) + Amount(Offered(Available(n, l)), Ram);
    forall i | 0 <= i < |gpu| ensures gpu[i].memMiB <= Held(after, n.id, Memory(gpu[i].id)) {
      EntryTaken(gpu, l, n.id, i);
      assert Held(after, n.id, Memory(gpu[i].id)) == Held(l, n.id, Memory(gpu[i].id)) + Amount(Offered(Available(n, l)), Memory(gpu[i].id));
    }
    NoneFree(gpu, after, n.id);
  }

  // ---------- planning with resources ----------

  datatype Admitted = Admitted(plan: Plan, allocations: seq<Allocation>)

  function AvailableNodes(nodes: seq<Node>, l: Ledger): (r: seq<Node>)
    ensures |r| == |nodes| && forall i :: 0 <= i < |nodes| ==> r[i] == Available(nodes[i], l)
  {
    seq(|nodes|, i requires 0 <= i < |nodes| => Available(nodes[i], l))
  }

  function BudgetFor(values: seq<Allocation>, id: Id): Option<Allocation> {
    if values == [] then None else if values[0].node == id then Some(values[0]) else BudgetFor(values[1..], id)
  }

  /** The node seen through its budget; without one it is out of the question. */
  function Bounded(n: Node, values: seq<Allocation>): (b: Node)
    ensures b.id == n.id
  {
    var a := BudgetFor(values, n.id);
    if a.None? || n.offer.None? then n.(online := false)
    else
      n.(offer := Some(n.offer.value.(ramMiB := a.value.ramMiB, cpuCores := a.value.cpuCores, gpu := a.value.gpu)),
         gpus := KeepDevices(n.gpus, a.value.gpu))
  }

  function BoundedNodes(nodes: seq<Node>, values: seq<Allocation>): (r: seq<Node>)
    ensures |r| == |nodes| && forall i :: 0 <= i < |nodes| ==> r[i] == Bounded(nodes[i], values)
  {
    seq(|nodes|, i requires 0 <= i < |nodes| => Bounded(nodes[i], values))
  }

  /** The allocation is for a known node and stays, with what is reserved there, within its offer. */
  ghost predicate Backed(nodes: seq<Node>, l: Ledger, a: Allocation) {
    exists n :: n in nodes && n.id == a.node && n.offer.Some? && a.ramMiB >= 1 && a.cpuCores >= 1 && Within(l, n, a)
  }

  ghost predicate AllBacked(nodes: seq<Node>, l: Ledger, values: seq<Allocation>) {
    forall i :: 0 <= i < |values| ==> Backed(nodes, l, values[i])
  }

  ghost predicate HasBudget(values: seq<Allocation>, id: Id) {
    exists j :: 0 <= j < |values| && values[j].node == id
  }

  ghost predicate UniqueNodes(values: seq<Allocation>) {
    forall i, j :: 0 <= i < j < |values| ==> values[i].node != values[j].node
  }

  /** One allocation for each node of the plan, all within what the nodes offer. */
  ghost predicate Fair(nodes: seq<Node>, l: Ledger, m: Admitted) {
    && AllBacked(nodes, l, m.allocations) && UniqueNodes(m.allocations)
    && (forall i :: 0 <= i < |m.allocations| ==> m.allocations[i].node in PlanNodes(m.plan))
    && (forall i :: 0 <= i < |PlanNodes(m.plan)| ==> HasBudget(m.allocations, PlanNodes(m.plan)[i]))
  }

  method FindNode(nodes: seq<Node>, id: Id) returns (r: Option<nat>)
    ensures r.Some? ==> r.value < |nodes| && nodes[r.value].id == id
    ensures r.None? ==> forall i :: 0 <= i < |nodes| ==> nodes[i].id != id
  {
    for i := 0 to |nodes|
      invariant forall j :: 0 <= j < i ==> nodes[j].id != id
    {
      if nodes[i].id == id {
        return Some(i);
      }
    }
    return None;
  }

  /** A node that supports budgets still offers what the budget asks. */
  ghost predicate OnOffer(available: seq<Node>, supported: set<Id>, a: Allocation) {
    a.node in supported && exists n :: n in available && n.id == a.node && Fits(a, n)
  }

  ghost predicate AllOnOffer(available: seq<Node>, supported: set<Id>, values: seq<Allocation>) {
    forall i :: 0 <= i < |values| ==> OnOffer(available, supported, values[i])
  }

  /** Every budget is for a known node whose agent supports budgets, and fits what is left there. */
  method CheckBudgets(nodes: seq<Node>, l: Ledger, values: seq<Allocation>, supported: set<Id>) returns (ok: bool)
    requires UniqueIds(nodes) && (forall i :: 0 <= i < |nodes| ==> GoodNode(nodes[i])) && GoodBudgets(values)
    ensures ok <==> AllOnOffer(AvailableNodes(nodes, l), supported, values)
    ensures ok ==> AllBacked(nodes, l, values)
  {
    var available := AvailableNodes(nodes, l);
    for i := 0 to |values|
      invariant forall j :: 0 <= j < i ==> Backed(nodes, l, values[j]) && OnOffer(available, supported, values[j])
    {
      var at := FindNode(available, values[i].node);
      if at.None? || values[i].node !in supported || !Fits(values[i], available[at.value]) {
        assert !OnOffer(available, supported, values[i]);
        return false;
      }
      assert available[at.value] in available;
      var n := nodes[at.value];
      assert available[at.value] == Available(n, l);
      BudgetWithin(l, n, values[i]);
      assert n in nodes;
    }
    return true;
  }

  lemma {:induction false} BudgetForIs(values: seq<Allocation>, id: Id)
    ensures BudgetFor(values, id).Some? <==> HasBudget(values, id)
  {
    if values != [] && values[0].node != id {
      BudgetForIs(values[1..], id);
      if BudgetFor(values, id).Some? {
        var i :| 0 <= i < |values[1..]| && values[1..][i].node == id;
        assert values[i + 1].node == id;
      } else {
        forall i | 0 <= i < |values| ensures values[i].node != id {
          assert i > 0 ==> values[i] == values[1..][i - 1];
        }
      }
    }
  }

  /** A node that is eligible as budgeted has a budget. */
  lemma EligibleHasBudget(nodes: seq<Node>, values: seq<Allocation>, id: Id)
    requires IsEligible(BoundedNodes(nodes, values), id)
    ensures HasBudget(values, id)
  {
    var bounded := BoundedNodes(nodes, values);
    var n :| n in bounded && n.id == id && Eligible(n);
    var k :| 0 <= k < |bounded| && bounded[k] == n;
    assert n == Bounded(nodes[k], values);
    BudgetForIs(values, id);
  }

  /** The plan for the nodes as budgeted: it uses only nodes that have a budget. */
  method PlanBudgeted(p: Profile, nodes: seq<Node>, ports: map<Id, set<int>>, kind: Kind, spec: Spec, values: seq<Allocation>) returns (r: Result<Plan>)
    requires GoodProfile(p) && UniqueIds(nodes)
    ensures r.Ok? ==> forall i :: 0 <= i < |PlanNodes(r.value)| ==> HasBudget(values, PlanNodes(r.value)[i])
    ensures r.Ok? ==> UniquePlan(r.value) && PortsFree(r.value, ports)
    ensures r.Ok? ==> PlanFor(p, BoundedNodes(nodes, values), ports, kind, spec, r.value)
    ensures r.Ok? <==> Plannable(p, BoundedNodes(nodes, values), ports, kind, spec)
  {
    var bounded := BoundedNodes(nodes, values);
    r := PlanApart(p, bounded, ports, kind, spec);
    if r.Ok? {
      var ids := PlanNodes(r.value);
      forall i | 0 <= i < |ids| ensures HasBudget(values, ids[i]) {
        assert IsEligible(bounded, ids[i]);
        EligibleHasBudget(nodes, values, ids[i]);
      }
    }
  }

  /** A worker's ports: the rpc port and the peer port when it has one. */
  function PortsOf(w: PlanWorker): set<int> {
    {w.port} + if w.peer.Some? then {w.peer.value} else {}
  }

  ghost predicate PortsFree(plan: Plan, ports: map<Id, set<int>>) {
    forall i :: 0 <= i < |plan.workers| ==> PortsOf(plan.workers[i]) !! Used(ports, plan.workers[i].node)
  }

  lemma PlanPorts(p: Profile, nodes: seq<Node>, ports: map<Id, set<int>>, kind: Kind, spec: Spec, plan: Plan)
    requires PlanFor(p, nodes, ports, kind, spec, plan)
    ensures PortsFree(plan, ports)
  {
    if kind.Split? {
      var coord: Node, slots: seq<Slot>, layers: seq<int> :| Sound(p, nodes, ports, spec, plan, coord, slots, layers);
      forall i | 0 <= i < |plan.workers| ensures PortsOf(plan.workers[i]) !! Used(ports, plan.workers[i].node) {
        WorkerPorts(plan.workers[i], slots[i], layers[i], Used(ports, slots[i].node.id), spec.forwarding && |slots| > 1);
      }
    }
  }

  lemma WorkerPorts(w: PlanWorker, s: Slot, layers: int, used: set<int>, forwarding: bool)
    requires WorkerOf(w, s, layers, used, forwarding)
    ensures w.node == s.node.id && PortsOf(w) !! used
  {
  }

  /** All that is left on one of the plan's nodes. */
  method WholeAllocation(nodes: seq<Node>, l: Ledger, id: Id) returns (a: Allocation)
    requires (forall i :: 0 <= i < |nodes| ==> GoodNode(nodes[i])) && GoodLedger(l) && UniqueIds(nodes)
    requires IsEligible(AvailableNodes(nodes, l), id)
    ensures WholeOf(nodes, l, id, a)
  {
    var available := AvailableNodes(nodes, l);
    var at := FindNode(available, id);
    ghost var n :| n in available && n.id == id && Eligible(n);
    ghost var k :| 0 <= k < |available| && available[k] == n;
    assert at.Some? && at.value == k;
    ghost var m := nodes[at.value];
    WholeWithin(l, m);
    assert m in nodes && m.id == id;
    a := Offered(available[at.value]);
    assert a == Offered(Available(m, l));
  }

  /** The allocations of a plan without budgets: all that is left on each of its nodes. */
  method WholeAllocations(nodes: seq<Node>, l: Ledger, plan: Plan) returns (values: seq<Allocation>)
    requires (forall i :: 0 <= i < |nodes| ==> GoodNode(nodes[i])) && GoodLedger(l) && UniqueIds(nodes)
    requires UsesEligible(AvailableNodes(nodes, l), plan)
    ensures WholeFor(nodes, l, PlanNodes(plan), values)
  {
    var ids := PlanNodes(plan);
    values := [];
    for i := 0 to |ids|
      invariant WholeFor(nodes, l, ids[..i], values)
    {
      var a := WholeAllocation(nodes, l, ids[i]);
      WholeForNext(nodes, l, ids, i, values, a);
      values := values + [a];
    }
    assert ids[..|ids|] == ids;
  }

  /** All that is left, node by node. */
  ghost predicate WholeFor(nodes: seq<Node>, l: Ledger, ids: seq<Id>, values: seq<Allocation>) {
    |values| == |ids| && forall i :: 0 <= i < |values| ==> WholeOf(nodes, l, ids[i], values[i])
  }

  ghost predicate WholeOf(nodes: seq<Node>, l: Ledger, id: Id, a: Allocation) {
    a.node == id && Backed(nodes, l, a) && TakesAll(nodes, l, a)
  }

  lemma WholeForNext(nodes: seq<Node>, l: Ledger, ids: seq<Id>, i: nat, values: seq<Allocation>, a: Allocation)
    requires i < |ids| && WholeFor(nodes, l, ids[..i], values) && WholeOf(nodes, l, ids[i], a)
    ensures WholeFor(nodes, l, ids[..i + 1], values + [a])
  {
    forall j | 0 <= j <= i ensures WholeOf(nodes, l, ids[..i + 1][j], (values + [a])[j]) {
      assert j < i ==> WholeOf(nodes, l, ids[..i][j], values[j]);
    }
  }

  lemma WholeIsFair(nodes: seq<Node>, l: Ledger, plan: Plan, values: seq<Allocation>)
    requires UniquePlan(plan) && WholeFor(nodes, l, PlanNodes(plan), values)
    ensures forall i :: 0 <= i < |values| ==> TakesAll(nodes, l, values[i])
    ensures Fair(nodes, l, Admitted(plan, values))
  {
    var ids := PlanNodes(plan);
    forall i | 0 <= i < |ids| ensures HasBudget(values, ids[i]) && Backed(nodes, l, values[i]) && values[i].node == ids[i] {
      assert WholeOf(nodes, l, ids[i], values[i]);
    }
  }

  /** All that is left on the node. */
  ghost predicate TakesAll(nodes: seq<Node>, l: Ledger, a: Allocation) {
    exists n :: n in nodes && n.id == a.node && a == Offered(Available(n, l)) && Available(n, l).offer.Some? && Available(n, l).offer.value.enabled
  }

  /** The plan and what it takes; `enough` is the check of budgets against the model's minima. */
  method PlanWithResources(p: Profile, nodes: seq<Node>, l: Ledger, ports: map<Id, set<int>>, kind: Kind, spec: Spec,
                           budgets: Option<seq<Allocation>>, supported: set<Id>, enough: (Plan, seq<Allocation>) -> bool)
    returns (r: Result<Admitted>)
    requires GoodProfile(p) && UniqueIds(nodes) && (forall i :: 0 <= i < |nodes| ==> GoodNode(nodes[i])) && GoodLedger(l)
    ensures r.Ok? ==> Fair(nodes, l, r.value) && UniquePlan(r.value.plan) && PortsFree(r.value.plan, ports)
    ensures r.Ok? && budgets.Some? ==> r.value.allocations == budgets.value && Granted(p, nodes, l, ports, kind, spec, r.value, supported, enough)
    ensures r.Ok? && budgets.None? ==> forall i :: 0 <= i < |r.value.allocations| ==> TakesAll(nodes, l, r.value.allocations[i])
    ensures budgets.None? ==> (r.Ok? <==> Plannable(p, AvailableNodes(nodes, l), ports, kind, spec))
    ensures budgets.Some? && r.Err? ==> Refused(p, nodes, l, ports, kind, spec, budgets.value, supported, enough)
  {
    if budgets.Some? {
      r := WithBudgets(p, nodes, l, ports, kind, spec, budgets.value, supported, enough);
      return;
    }
    r := WithWholeNodes(p, nodes, l, ports, kind, spec);
  }

  /** A plan on different nodes with ports nobody there uses. */
  method PlanApart(p: Profile, nodes: seq<Node>, ports: map<Id, set<int>>, kind: Kind, spec: Spec) returns (r: Result<Plan>)
    requires GoodProfile(p) && UniqueIds(nodes)
    ensures r.Ok? ==> UsesEligible(nodes, r.value) && PortsFree(r.value, ports)
    ensures r.Ok? ==> PlanFor(p, nodes, ports, kind, spec, r.value)
    ensures r.Ok? <==> Plannable(p, nodes, ports, kind, spec)
  {
    r := PlanDeployment(p, nodes, ports, kind, spec);
    if r.Ok? {
      PlanPorts(p, nodes, ports, kind, spec, r.value);
    }
  }

  method WithWholeNodes(p: Profile, nodes: seq<Node>, l: Ledger, ports: map<Id, set<int>>, kind: Kind, spec: Spec)
    returns (r: Result<Admitted>)
    requires GoodProfile(p) && UniqueIds(nodes) && (forall i :: 0 <= i < |nodes| ==> GoodNode(nodes[i])) && GoodLedger(l)
    ensures r.Ok? ==> Fair(nodes, l, r.value) && UniquePlan(r.value.plan) && PortsFree(r.value.plan, ports)
    ensures r.Ok? ==> forall i :: 0 <= i < |r.value.allocations| ==> TakesAll(nodes, l, r.value.allocations[i])
    ensures r.Ok? <==> Plannable(p, AvailableNodes(nodes, l), ports, kind, spec)
  {
    var available := AvailableNodes(nodes, l);
    var plan :- PlanApart(p, available, ports, kind, spec);
    var m := TakeWhole(nodes, l, plan);
    return Ok(m);
  }

  method TakeWhole(nodes: seq<Node>, l: Ledger, plan: Plan) returns (m: Admitted)
    requires UniqueIds(nodes) && (forall i :: 0 <= i < |nodes| ==> GoodNode(nodes[i])) && GoodLedger(l)
    requires UsesEligible(AvailableNodes(nodes, l), plan)
    ensures m.plan == plan && Fair(nodes, l, m) && forall i :: 0 <= i < |m.allocations| ==> TakesAll(nodes, l, m.allocations[i])
  {
    var values := WholeAllocations(nodes, l, plan);
    WholeIsFair(nodes, l, plan, values);
    m := Admitted(plan, values);
  }

  /** The plan leaves a budgeted node out, or the budgets do not carry it. */
  predicate Unspent(plan: Plan, values: seq<Allocation>, enough: (Plan, seq<Allocation>) -> bool) {
    |PlanNodes(plan)| != |values| || (exists i :: 0 <= i < |values| && values[i].node !in PlanNodes(plan)) || !enough(plan, values)
  }

  /** Why budgets are not admitted: they are malformed, not on offer, allow no plan, or do not match the plan they allow. */
  ghost predicate Refused(p: Profile, nodes: seq<Node>, l: Ledger, ports: map<Id, set<int>>, kind: Kind, spec: Spec,
                          values: seq<Allocation>, supported: set<Id>, enough: (Plan, seq<Allocation>) -> bool) {
    var available := AvailableNodes(nodes, l);
    || !GoodBudgets(values) || !AllOnOffer(available, supported, values)
    || !Plannable(p, BoundedNodes(available, values), ports, kind, spec)
    || exists plan :: PlanFor(p, BoundedNodes(available, values), ports, kind, spec, plan) && Unspent(plan, values, enough)
  }

  /** Budgets are admitted with a plan on them that they match. */
  ghost predicate Granted(p: Profile, nodes: seq<Node>, l: Ledger, ports: map<Id, set<int>>, kind: Kind, spec: Spec,
                          m: Admitted, supported: set<Id>, enough: (Plan, seq<Allocation>) -> bool) {
    var available := AvailableNodes(nodes, l);
    && GoodBudgets(m.allocations) && AllOnOffer(available, supported, m.allocations)
    && Plannable(p, BoundedNodes(available, m.allocations), ports, kind, spec)
    && PlanFor(p, BoundedNodes(available, m.allocations), ports, kind, spec, m.plan) && !Unspent(m.plan, m.allocations, enough)
  }

  lemma MatchedIsFair(nodes: seq<Node>, l: Ledger, plan: Plan, values: seq<Allocation>, enough: (Plan, seq<Allocation>) -> bool)
    requires AllBacked(nodes, l, values) && GoodBudgets(values) && !Unspent(plan, values, enough)
    requires forall i :: 0 <= i < |PlanNodes(plan)| ==> HasBudget(values, PlanNodes(plan)[i])
    ensures Fair(nodes, l, Admitted(plan, values))
  {
  }

  method WithBudgets(p: Profile, nodes: seq<Node>, l: Ledger, ports: map<Id, set<int>>, kind: Kind, spec: Spec,
                     values: seq<Allocation>, supported: set<Id>, enough: (Plan, seq<Allocation>) -> bool)
    returns (r: Result<Admitted>)
    requires GoodProfile(p) && UniqueIds(nodes) && forall i :: 0 <= i < |nodes| ==> GoodNode(nodes[i])
    ensures r.Ok? ==> r.value.allocations == values && Granted(p, nodes, l, ports, kind, spec, r.value, supported, enough)
    ensures r.Ok? ==> Fair(nodes, l, r.value) && UniquePlan(r.value.plan) && PortsFree(r.value.plan, ports)
    ensures r.Err? ==> Refused(p, nodes, l, ports, kind, spec, values, supported, enough)
  {
    var parsed := ParseAllocations(values);
    if !parsed {
      return Err;
    }
    var fits := CheckBudgets(nodes, l, values, supported);
    if !fits {
      return Err;
    }
    var available := AvailableNodes(nodes, l);
    var plan :- PlanBudgeted(p, available, ports, kind, spec, values);
    if Unspent(plan, values, enough) {
      return Err;
    }
    MatchedIsFair(nodes, l, plan, values, enough);
    return Ok(Admitted(plan, values));
  }
}
