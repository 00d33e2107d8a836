/** What deployments and their assignments keep reserved, and how the ledger splits over a set of deployments. */
module Reserved {
  import opened Outcomes
  import opened Planner
  import opened Resources

  datatype Assignment = Assignment(dep: nat, node: Id, stopped: bool, watch: bool)

  datatype Placement = Placement(allocations: Option<seq<Allocation>>, nodes: seq<Id>)

  /** `active` is a deployment that is placing, loading, ready or draining. */
  datatype Deployed = Deployed(id: nat, external: bool, active: bool, plan: Option<Placement>)

  /** Running or not yet acknowledged as stopped, and not a mere health watch. */
  predicate Live(r: Assignment) {
    !r.stopped && !r.watch
  }

  function LiveNodes(rows: seq<Assignment>, d: nat): set<Id> {
    set i | 0 <= i < |rows| && Live(rows[i]) && rows[i].dep == d :: rows[i].node
  }

  function Known(nodes: seq<Node>, id: Id): Option<Node> {
    if nodes == [] then None else if nodes[0].id == id then Some(nodes[0]) else Known(nodes[1..], id)
  }

  /** A known node's whole offer. */
  function Whole(nodes: seq<Node>, n: Id, q: Quantity): int {
    var node := Known(nodes, n);
    if node.Some? then Amount(Offered(node.value), q) else 0
  }

  function Planned(values: seq<Allocation>): set<Id> {
    set i | 0 <= i < |values| :: values[i].node
  }

  // ---------- what one deployment is charged ----------

  /** Its plan's budgets, and the whole offer of every other node it still runs on; without budgets whole offers. */
  function Charge(dep: Deployed, live: set<Id>, nodes: seq<Node>, n: Id, q: Quantity): int {
    if dep.external || (!dep.active && live == {}) then 0
    else if dep.plan.Some? && dep.plan.value.allocations.Some? then
      var values := dep.plan.value.allocations.value;
      Total(values, n, q) + if n in live - Planned(values) then Whole(nodes, n, q) else 0
    else if n in Legacy(dep, live) then Whole(nodes, n, q) else 0
  }

  /** Nodes held whole by a deployment without budgets. */
  function Legacy(dep: Deployed, live: set<Id>): set<Id> {
    live + if dep.active && dep.plan.Some? then (set i | 0 <= i < |dep.plan.value.nodes| :: dep.plan.value.nodes[i]) else {}
  }

  function Charges(deps: seq<Deployed>, rows: seq<Assignment>, nodes: seq<Node>, exclude: set<nat>, n: Id, q: Quantity): int {
    if deps == [] then 0
    else
      var last := deps[|deps| - 1];
      Charges(deps[..|deps| - 1], rows, nodes, exclude, n, q)
      + if last.id in exclude then 0 else Charge(last, LiveNodes(rows, last.id), nodes, n, q)
  }

  function Ids(deps: seq<Deployed>): set<nat> {
    set i | 0 <= i < |deps| :: deps[i].id
  }

  /** Deployments that only their assignments remember, in order of first appearance. */
  function Orphans(rows: seq<Assignment>, known: set<nat>, exclude: set<nat>): seq<nat> {
    if rows == [] then []
    else
      var last, init := rows[|rows| - 1], Orphans(rows[..|rows| - 1], known, exclude);
      if Live(last) && last.dep !in known && last.dep !in exclude && last.dep !in init then init + [last.dep] else init
  }

  function OrphanCharges(ids: seq<nat>, rows: seq<Assignment>, nodes: seq<Node>, n: Id, q: Quantity): int {
    if ids == [] then 0
    else
      OrphanCharges(ids[..|ids| - 1], rows, nodes, n, q)
      + if n in LiveNodes(rows, ids[|ids| - 1]) then Whole(nodes, n, q) else 0
  }

  /** What is reserved on a node, deployments in `exclude` left out. */
  function Reservation(deps: seq<Deployed>, rows: seq<Assignment>, nodes: seq<Node>, exclude: set<nat>, n: Id, q: Quantity): int {
    Charges(deps, rows, nodes, exclude, n, q) + OrphanCharges(Orphans(rows, Ids(deps), exclude), rows, nodes, n, q)
  }

  // ---------- the loops that build it ----------

  /** One whole offer for each known node of a set. */
  method WholeOffers(ids: set<Id>, nodes: seq<Node>) returns (values: seq<Allocation>)
    ensures forall n, q :: Total(values, n, q) == if n in ids then Whole(nodes, n, q) else 0
  {
    values := [];
    var left := ids;
    while left != {}
      invariant left <= ids
      invariant forall n, q :: Total(values, n, q) == if n in ids - left then Whole(nodes, n, q) else 0
      decreases |left|
    {
      var id :| id in left;
      var node := Known(nodes, id);
      ghost var before := values;
      if node.Some? {
        values := values + [Offered(node.value)];
        KnownId(nodes, id);
      }
      forall n, q ensures Total(values, n, q) == if n in ids - (left - {id}) then Whole(nodes, n, q) else 0 {
        assert Total(before, n, q) == if n in ids - left then Whole(nodes, n, q) else 0;
        if node.Some? {
          TotalJoin(before, [Offered(node.value)], n, q);
          TotalOne(Offered(node.value), n, q);
        }
      }
      left := left - {id};
    }
  }

  lemma {:induction false} KnownId(nodes: seq<Node>, id: Id)
    ensures Known(nodes, id).Some? ==> Known(nodes, id).value.id == id
  {
    if nodes != [] && nodes[0].id != id {
      KnownId(nodes[1..], id);
    }
  }

  /** What one deployment adds. */
  method ChargesOf(dep: Deployed, live: set<Id>, nodes: seq<Node>) returns (values: seq<Allocation>)
    ensures forall n, q :: Total(values, n, q) == Charge(dep, live, nodes, n, q)
  {
    if dep.external || (!dep.active && live == {}) {
      return [];
    }
    if dep.plan.Some? && dep.plan.value.allocations.Some? {
      var own := dep.plan.value.allocations.value;
      var others := WholeOffers(live - Planned(own), nodes);
      values := own + others;
      forall n, q ensures Total(values, n, q) == Charge(dep, live, nodes, n, q) {
        TotalJoin(own, others, n, q);
      }
    } else {
      values := WholeOffers(Legacy(dep, live), nodes);
    }
  }

  /** The ledger holds exactly the reservation of every node. */
  ghost predicate Holds(l: Ledger, deps: seq<Deployed>, rows: seq<Assignment>, nodes: seq<Node>, exclude: set<nat>) {
    forall n, q :: Held(l, n, q) == Reservation(deps, rows, nodes, exclude, n, q)
  }

  method ReservedResources(deps: seq<Deployed>, rows: seq<Assignment>, nodes: seq<Node>, exclude: set<nat>) returns (ledger: ResourceLedger)
    ensures fresh(ledger) && Holds(ledger.entries, deps, rows, nodes, exclude)
  {
    ledger := new ResourceLedger(map[]);
    for i := 0 to |deps|
      invariant fresh(ledger)
      invariant forall n, q :: Held(ledger.entries, n, q) == Charges(deps[..i], rows, nodes, exclude, n, q)
    {
      ghost var before := ledger.entries;
      assert deps[..i + 1][..i] == deps[..i];
      if deps[i].id !in exclude {
        var values := ChargesOf(deps[i], LiveNodes(rows, deps[i].id), nodes);
        ledger.Add(values);
        forall n, q ensures Held(ledger.entries, n, q) == Charges(deps[..i + 1], rows, nodes, exclude, n, q) {
          assert Held(ledger.entries, n, q) == Held(before, n, q) + Total(values, n, q);
        }
      }
    }
    assert deps[..|deps|] == deps;
    var orphans := Orphans(rows, Ids(deps), exclude);
    AddOrphans(ledger, orphans, rows, nodes);
  }

  method AddOrphans(ledger: ResourceLedger, orphans: seq<nat>, rows: seq<Assignment>, nodes: seq<Node>)
    modifies ledger
    ensures forall n, q :: Held(ledger.entries, n, q) == old(Held(ledger.entries, n, q)) + OrphanCharges(orphans, rows, nodes, n, q)
  {
    ghost var start := ledger.entries;
    for i := 0 to |orphans|
      invariant forall n, q :: Held(ledger.entries, n, q) == Held(start, n, q) + OrphanCharges(orphans[..i], rows, nodes, n, q)
    {
      ghost var before := ledger.entries;
      assert orphans[..i + 1][..i] == orphans[..i];
      var values := WholeOffers(LiveNodes(rows, orphans[i]), nodes);
      ledger.Add(values);
      forall n, q ensures Held(ledger.entries, n, q) == Held(start, n, q) + OrphanCharges(orphans[..i + 1], rows, nodes, n, q) {
        assert Held(ledger.entries, n, q) == Held(before, n, q) + Total(values, n, q);
        assert Held(before, n, q) == Held(start, n, q) + OrphanCharges(orphans[..i], rows, nodes, n, q);
      }
    }
    assert orphans[..|orphans|] == orphans;
  }

  // ---------- the ledger splits ----------

  function KeepDeps(deps: seq<Deployed>, s: set<nat>): seq<Deployed> {
    if deps == [] then []
    else KeepDeps(deps[..|deps| - 1], s) + if deps[|deps| - 1].id in s then [deps[|deps| - 1]] else []
  }

  function KeepRows(rows: seq<Assignment>, s: set<nat>): seq<Assignment> {
    if rows == [] then []
    else KeepRows(rows[..|rows| - 1], s) + if rows[|rows| - 1].dep in s then [rows[|rows| - 1]] else []
  }

  lemma {:induction false} KeepRowsHas(rows: seq<Assignment>, s: set<nat>)
    ensures forall r :: r in KeepRows(rows, s) <==> r in rows && r.dep in s
  {
    if rows != [] {
      KeepRowsHas(rows[..|rows| - 1], s);
      assert rows == rows[..|rows| - 1] + [rows[|rows| - 1]];
    }
  }

  /** Where a selected deployment is live does not depend on the other deployments' rows. */
  lemma LiveNodesKept(rows: seq<Assignment>, s: set<nat>, d: nat)
    requires d in s
    ensures LiveNodes(KeepRows(rows, s), d) == LiveNodes(rows, d)
  {
    KeepRowsHas(rows, s);
    var kept := KeepRows(rows, s);
    forall n | n in LiveNodes(kept, d) ensures n in LiveNodes(rows, d) {
      var i :| 0 <= i < |kept| && Live(kept[i]) && kept[i].dep == d && kept[i].node == n;
      assert kept[i] in rows;
      var j :| 0 <= j < |rows| && rows[j] == kept[i];
    }
    forall n | n in LiveNodes(rows, d) ensures n in LiveNodes(kept, d) {
      var i :| 0 <= i < |rows| && Live(rows[i]) && rows[i].dep == d && rows[i].node == n;
      assert rows[i] in kept;
      var j :| 0 <= j < |kept| && kept[j] == rows[i];
    }
  }

  lemma {:induction false} ChargesSplit(deps: seq<Deployed>, rows: seq<Assignment>, nodes: seq<Node>, s: set<nat>, n: Id, q: Quantity)
    ensures Charges(deps, rows, nodes, s, n, q) + Charges(KeepDeps(deps, s), KeepRows(rows, s), nodes, {}, n, q)
            == Charges(deps, rows, nodes, {}, n, q)
  {
    if deps != [] {
      var init, last := deps[..|deps| - 1], deps[|deps| - 1];
      ChargesSplit(init, rows, nodes, s, n, q);
      if last.id in s {
        LiveNodesKept(rows, s, last.id);
        assert KeepDeps(deps, s)[..|KeepDeps(deps, s)| - 1] == KeepDeps(init, s);
      } else {
        assert KeepDeps(deps, s) == KeepDeps(init, s);
      }
    }
  }

  function Pick(ids: seq<nat>, s: set<nat>, inside: bool): seq<nat> {
    if ids == [] then []
    else Pick(ids[..|ids| - 1], s, inside) + if (ids[|ids| - 1] in s) == inside then [ids[|ids| - 1]] else []
  }

  lemma {:induction false} PickHas(ids: seq<nat>, s: set<nat>, inside: bool)
    ensures forall d :: d in Pick(ids, s, inside) <==> d in ids && (d in s) == inside
  {
    if ids != [] {
      PickHas(ids[..|ids| - 1], s, inside);
      assert ids == ids[..|ids| - 1] + [ids[|ids| - 1]];
    }
  }

  lemma PickSnoc(ids: seq<nat>, d: nat, s: set<nat>, inside: bool)
    ensures Pick(ids + [d], s, inside) == Pick(ids, s, inside) + if (d in s) == inside then [d] else []
  {
    assert (ids + [d])[..|ids|] == ids;
  }

  lemma {:induction false} OrphansOutside(rows: seq<Assignment>, known: set<nat>, s: set<nat>)
    ensures Orphans(rows, known, s) == Pick(Orphans(rows, known, {}), s, false)
  {
    if rows != [] {
      var init, last := rows[..|rows| - 1], rows[|rows| - 1];
      OrphansOutside(init, known, s);
      PickHas(Orphans(init, known, {}), s, false);
      PickSnoc(Orphans(init, known, {}), last.dep, s, false);
    }
  }

  lemma OrphansSnoc(rows: seq<Assignment>, r: Assignment, known: set<nat>, exclude: set<nat>)
    ensures
      var init := Orphans(rows, known, exclude);
      Orphans(rows + [r], known, exclude)
      == if Live(r) && r.dep !in known && r.dep !in exclude && r.dep !in init then init + [r.dep] else init
  {
    assert (rows + [r])[..|rows|] == rows;
  }

  lemma {:induction false} OrphansInside(rows: seq<Assignment>, known: set<nat>, s: set<nat>)
    ensures Orphans(KeepRows(rows, s), known * s, {}) == Pick(Orphans(rows, known, {}), s, true)
  {
    if rows != [] {
      var init, last := rows[..|rows| - 1], rows[|rows| - 1];
      assert rows == init + [last];
      OrphansInside(init, known, s);
      PickHas(Orphans(init, known, {}), s, true);
      PickSnoc(Orphans(init, known, {}), last.dep, s, true);
      OrphansSnoc(init, last, known, {});
      OrphansSnoc(KeepRows(init, s), last, known * s, {});
      assert KeepRows(rows, s) == if last.dep in s then KeepRows(init, s) + [last] else KeepRows(init, s);
    }
  }

  lemma OrphanChargesSnoc(ids: seq<nat>, d: nat, rows: seq<Assignment>, nodes: seq<Node>, n: Id, q: Quantity)
    ensures OrphanCharges(ids + [d], rows, nodes, n, q)
            == OrphanCharges(ids, rows, nodes, n, q) + if n in LiveNodes(rows, d) then Whole(nodes, n, q) else 0
  {
    assert (ids + [d])[..|ids|] == ids;
  }

  lemma {:induction false} OrphanChargesSplit(ids: seq<nat>, rows: seq<Assignment>, nodes: seq<Node>, s: set<nat>, n: Id, q: Quantity)
    ensures OrphanCharges(Pick(ids, s, false), rows, nodes, n, q) + OrphanCharges(Pick(ids, s, true), KeepRows(rows, s), nodes, n, q)
            == OrphanCharges(ids, rows, nodes, n, q)
  {
    if ids != [] {
      var init, last := ids[..|ids| - 1], ids[|ids| - 1];
      assert ids == init + [last];
      OrphanChargesSplit(init, rows, nodes, s, n, q);
      PickSnoc(init, last, s, false);
      PickSnoc(init, last, s, true);
      OrphanChargesSnoc(init, last, rows, nodes, n, q);
      if last in s {
        LiveNodesKept(rows, s, last);
        OrphanChargesSnoc(Pick(init, s, true), last, KeepRows(rows, s), nodes, n, q);
        assert Pick(ids, s, false) == Pick(init, s, false);
      } else {
        OrphanChargesSnoc(Pick(init, s, false), last, rows, nodes, n, q);
        assert Pick(ids, s, true) == Pick(init, s, true);
      }
    }
  }

  lemma {:induction false} KeepDepsIds(deps: seq<Deployed>, s: set<nat>)
    ensures Ids(KeepDeps(deps, s)) == Ids(deps) * s
  {
    if deps != [] {
      var init, last := deps[..|deps| - 1], deps[|deps| - 1];
      KeepDepsIds(init, s);
      IdsSnoc(init, last);
      IdsSnoc(KeepDeps(init, s), last);
      assert deps == init + [last];
      assert KeepDeps(deps, s) == if last.id in s then KeepDeps(init, s) + [last] else KeepDeps(init, s);
    }
  }

  lemma IdsSnoc(deps: seq<Deployed>, d: Deployed)
    ensures Ids(deps + [d]) == Ids(deps) + {d.id}
  {
    var all := deps + [d];
    forall x | x in Ids(deps) + {d.id} ensures x in Ids(all) {
      if x == d.id {
        assert all[|deps|].id == x;
      } else {
        var i :| 0 <= i < |deps| && deps[i].id == x;
        assert all[i].id == x;
      }
    }
  }

  /** The ledger without a set of deployments and the ledger of that set alone add up to the full ledger. */
  lemma LedgerSplits(deps: seq<Deployed>, rows: seq<Assignment>, nodes: seq<Node>, s: set<nat>, n: Id, q: Quantity)
    ensures Reservation(deps, rows, nodes, s, n, q) + Reservation(KeepDeps(deps, s), KeepRows(rows, s), nodes, {}, n, q)
            == Reservation(deps, rows, nodes, {}, n, q)
  {
    ChargesSplit(deps, rows, nodes, s, n, q);
    OrphansOutside(rows, Ids(deps), s);
    OrphansInside(rows, Ids(deps), s);
    KeepDepsIds(deps, s);
    OrphanChargesSplit(Orphans(rows, Ids(deps), {}), rows, nodes, s, n, q);
  }

  // ---------- charged until stopped ----------

  /** Nobody is charged less than nothing. */
  predicate Sane(deps: seq<Deployed>, nodes: seq<Node>) {
    && (forall i :: 0 <= i < |nodes| ==> GoodNode(nodes[i]) && (nodes[i].offer.Some? ==> nodes[i].offer.value.ramMiB >= 0 && nodes[i].offer.value.cpuCores >= 0))
    && (forall i :: 0 <= i < |deps| && deps[i].plan.Some? && deps[i].plan.value.allocations.Some? ==> SaneValues(deps[i].plan.value.allocations.value))
  }

  predicate SaneValues(values: seq<Allocation>) {
    forall i :: 0 <= i < |values| ==> values[i].ramMiB >= 0 && values[i].cpuCores >= 0 && forall j :: 0 <= j < |values[i].gpu| ==> values[i].gpu[j].memMiB >= 0
  }

  lemma {:induction false} TotalNonneg(values: seq<Allocation>, n: Id, q: Quantity)
    requires SaneValues(values)
    ensures Total(values, n, q) >= 0
  {
    if values != [] {
      var init, last := values[..|values| - 1], values[|values| - 1];
      assert forall i :: 0 <= i < |init| ==> init[i] == values[i];
      TotalNonneg(init, n, q);
      if q.Memory? {
        GpuTotalNonneg(last.gpu, q.gpu);
      }
    }
  }

  lemma {:induction false} WholeNonneg(nodes: seq<Node>, n: Id, q: Quantity)
    requires forall i :: 0 <= i < |nodes| ==> GoodNode(nodes[i]) && (nodes[i].offer.Some? ==> nodes[i].offer.value.ramMiB >= 0 && nodes[i].offer.value.cpuCores >= 0)
    ensures Whole(nodes, n, q) >= 0
  {
    if nodes != [] {
      if nodes[0].id == n {
        if q.Memory? {
          GpuTotalNonneg(Offered(nodes[0]).gpu, q.gpu);
        }
      } else {
        assert forall i :: 0 <= i < |nodes[1..]| ==> nodes[1..][i] == nodes[i + 1];
        WholeNonneg(nodes[1..], n, q);
      }
    }
  }

  lemma ChargeNonneg(dep: Deployed, live: set<Id>, nodes: seq<Node>, n: Id, q: Quantity)
    requires Sane([dep], nodes)
    ensures Charge(dep, live, nodes, n, q) >= 0
  {
    WholeNonneg(nodes, n, q);
    assert [dep][0] == dep;
    if dep.plan.Some? && dep.plan.value.allocations.Some? {
      TotalNonneg(dep.plan.value.allocations.value, n, q);
    }
  }

  /** The charges of all deployments are at least those of any one that counts. */
  lemma {:induction false} ChargesCover(deps: seq<Deployed>, rows: seq<Assignment>, nodes: seq<Node>, exclude: set<nat>, n: Id, q: Quantity, k: nat)
    requires Sane(deps, nodes) && k < |deps|
    ensures Charges(deps, rows, nodes, exclude, n, q) >= if deps[k].id in exclude then 0 else Charge(deps[k], LiveNodes(rows, deps[k].id), nodes, n, q)
  {
    var m := |deps| - 1;
    var init, last := deps[..m], deps[m];
    assert Sane(init, nodes) by {
      assert forall i :: 0 <= i < m ==> init[i] == deps[i];
    }
    ChargeNonneg(last, LiveNodes(rows, last.id), nodes, n, q);
    if k < m {
      ChargesCover(init, rows, nodes, exclude, n, q, k);
    } else if m > 0 {
      ChargesCover(init, rows, nodes, exclude, n, q, 0);
      ChargeNonneg(init[0], LiveNodes(rows, init[0].id), nodes, n, q);
    }
  }

  lemma {:induction false} OrphansNonneg(ids: seq<nat>, rows: seq<Assignment>, nodes: seq<Node>, n: Id, q: Quantity)
    requires Sane([], nodes)
    ensures OrphanCharges(ids, rows, nodes, n, q) >= 0
  {
    if ids != [] {
      OrphansNonneg(ids[..|ids| - 1], rows, nodes, n, q);
      WholeNonneg(nodes, n, q);
    }
  }

  /** While an assignment is not stopped its node stays charged, by the plan's budget for it or by the whole offer. */
  lemma ChargedUntilStopped(deps: seq<Deployed>, rows: seq<Assignment>, nodes: seq<Node>, exclude: set<nat>, k: nat, i: nat, q: Quantity)
    requires Sane(deps, nodes) && k < |deps| && i < |rows| && Live(rows[i]) && rows[i].dep == deps[k].id
    requires deps[k].id !in exclude && !deps[k].external
    ensures
      var n, plan := rows[i].node, deps[k].plan;
      if plan.Some? && plan.value.allocations.Some? && n in Planned(plan.value.allocations.value) then
        Reservation(deps, rows, nodes, exclude, n, q) >= Total(plan.value.allocations.value, n, q)
      else Reservation(deps, rows, nodes, exclude, n, q) >= Whole(nodes, n, q)
  {
    var n, live := rows[i].node, LiveNodes(rows, deps[k].id);
    assert n in live;
    ChargesCover(deps, rows, nodes, exclude, n, q, k);
    OrphansNonneg(Orphans(rows, Ids(deps), exclude), rows, nodes, n, q);
    if deps[k].plan.Some? && deps[k].plan.value.allocations.Some? {
      TotalNonneg(deps[k].plan.value.allocations.value, n, q);
    }
  }

  lemma {:induction false} ChargesNonneg(deps: seq<Deployed>, rows: seq<Assignment>, nodes: seq<Node>, exclude: set<nat>, n: Id, q: Quantity)
    requires Sane(deps, nodes)
    ensures Charges(deps, rows, nodes, exclude, n, q) >= 0
  {
    if deps != [] {
      ChargesCover(deps, rows, nodes, exclude, n, q, 0);
      ChargeNonneg(deps[0], LiveNodes(rows, deps[0].id), nodes, n, q);
    }
  }

  /** What the loops reserve is a ledger that admission can work with. */
  lemma ReservedIsGood(l: Ledger, deps: seq<Deployed>, rows: seq<Assignment>, nodes: seq<Node>, exclude: set<nat>)
    requires Sane(deps, nodes) && Holds(l, deps, rows, nodes, exclude)
    ensures GoodLedger(l)
  {
    forall n, q ensures Held(l, n, q) >= 0 {
      ChargesNonneg(deps, rows, nodes, exclude, n, q);
      OrphansNonneg(Orphans(rows, Ids(deps), exclude), rows, nodes, n, q);
      assert Held(l, n, q) == Reservation(deps, rows, nodes, exclude, n, q);
    }
  }
}
