/**
 The fleet preview: entries are placed one after the other against one ledger and one port map.

 Which placements are tried for an entry, with which budgets, how they score and whether the hosts' measured
 memory allows them are inputs; what is proved holds for all of them.
 */
module Fleet {
  import opened Outcomes
  import opened Planner
  import opened PlanSplit
  import opened Resources
  import opened Admission
  import Reserved

  datatype Candidate = Candidate(kind: Kind, spec: Spec, budgets: seq<Allocation>)

  /** An entry's plan, or none if nothing fitted. */
  type Entry = Option<Admitted>

  datatype Inputs = Inputs(
    nodes: seq<Node>, profiles: nat -> Profile, supported: set<Id>, enough: (Plan, seq<Allocation>) -> bool,
    candidates: (nat, nat, Ledger) -> seq<Candidate>, score: Admitted -> real, roomy: (seq<Entry>, Admitted) -> bool)

  ghost predicate GoodInputs(f: Inputs) {
    UniqueIds(f.nodes) && (forall i :: 0 <= i < |f.nodes| ==> GoodNode(f.nodes[i])) && forall i :: GoodProfile(f.profiles(i))
  }

  // ---------- what the entries take ----------

  /** All allocations of the placed entries. */
  function Taken(entries: seq<Entry>): seq<Allocation> {
    if entries == [] then []
    else Taken(entries[..|entries| - 1]) + if entries[|entries| - 1].Some? then entries[|entries| - 1].value.allocations else []
  }

  /** All workers of the placed entries. */
  function Workers(entries: seq<Entry>): seq<PlanWorker> {
    if entries == [] then []
    else Workers(entries[..|entries| - 1]) + if entries[|entries| - 1].Some? then entries[|entries| - 1].value.plan.workers else []
  }

  lemma TakenSnoc(entries: seq<Entry>, e: Entry)
    ensures Taken(entries + [e]) == if e.Some? then Taken(entries) + e.value.allocations else Taken(entries)
    ensures Workers(entries + [e]) == if e.Some? then Workers(entries) + e.value.plan.workers else Workers(entries)
  {
    assert (entries + [e])[..|entries|] == entries;
  }

  /** On the node of this allocation nothing it takes is overcommitted. */
  ghost predicate Covered(nodes: seq<Node>, l: Ledger, a: Allocation) {
    exists n :: n in nodes && n.id == a.node && n.offer.Some? && forall q :: Amount(a, q) > 0 ==> Held(l, n.id, q) <= Amount(Offered(n), q)
  }

  ghost predicate AllCovered(nodes: seq<Node>, l: Ledger, values: seq<Allocation>) {
    forall i :: 0 <= i < |values| ==> Covered(nodes, l, values[i])
  }

  // ---------- one more plan on the ledger ----------

  lemma AmountNonneg(a: Allocation, q: Quantity)
    requires GoodBudget(a)
    ensures Amount(a, q) >= 0
  {
    if q.Memory? {
      GpuTotalNonneg(a.gpu, q.gpu);
    }
  }

  lemma {:induction false} TotalOfOne(values: seq<Allocation>, n: Id, q: Quantity)
    requires UniqueNodes(values)
    ensures forall i :: 0 <= i < |values| && values[i].node == n ==> Total(values, n, q) == Amount(values[i], q)
    ensures (forall i :: 0 <= i < |values| ==> values[i].node != n) ==> Total(values, n, q) == 0
  {
    if values != [] {
      var m := |values| - 1;
      assert UniqueNodes(values[..m]);
      TotalOfOne(values[..m], n, q);
      forall i | 0 <= i < |values| && values[i].node == n ensures Total(values, n, q) == Amount(values[i], q) {
        if i < m {
          assert values[..m][i] == values[i];
        } else {
          assert forall j :: 0 <= j < m ==> values[..m][j].node != n;
        }
      }
    }
  }

  /** What a plan adds on a node and quantity keeps within the offer, or adds nothing. */
  lemma AddedWithin(nodes: seq<Node>, l: Ledger, after: Ledger, values: seq<Allocation>, n: Node, q: Quantity)
    requires UniqueIds(nodes) && n in nodes && UniqueNodes(values) && AllBacked(nodes, l, values) && Grown(l, after, values)
    requires forall i :: 0 <= i < |values| ==> GoodBudget(values[i])
    ensures Held(after, n.id, q) == Held(l, n.id, q) || (Held(after, n.id, q) > Held(l, n.id, q) && Held(after, n.id, q) <= Amount(Offered(n), q))
  {
    TotalOfOne(values, n.id, q);
    assert Held(after, n.id, q) == Held(l, n.id, q) + Total(values, n.id, q);
    if Total(values, n.id, q) != 0 {
      var i :| 0 <= i < |values| && values[i].node == n.id;
      AmountNonneg(values[i], q);
      assert Backed(nodes, l, values[i]);
      var m :| m in nodes && m.id == values[i].node && m.offer.Some? && Admission.Within(l, m, values[i]);
      SameNode(nodes, m, n);
    }
  }


  lemma StillCovered(nodes: seq<Node>, l: Ledger, after: Ledger, values: seq<Allocation>, a: Allocation)
    requires UniqueIds(nodes) && UniqueNodes(values) && AllBacked(nodes, l, values) && Grown(l, after, values)
    requires (forall i :: 0 <= i < |values| ==> GoodBudget(values[i])) && Covered(nodes, l, a)
    ensures Covered(nodes, after, a)
  {
    var n :| n in nodes && n.id == a.node && n.offer.Some? && forall q :: Amount(a, q) > 0 ==> Held(l, n.id, q) <= Amount(Offered(n), q);
    forall q | Amount(a, q) > 0 ensures Held(after, n.id, q) <= Amount(Offered(n), q) {
      AddedWithin(nodes, l, after, values, n, q);
    }
  }

  lemma NewlyCovered(nodes: seq<Node>, l: Ledger, after: Ledger, values: seq<Allocation>, k: nat)
    requires UniqueIds(nodes) && UniqueNodes(values) && AllBacked(nodes, l, values) && Grown(l, after, values) && k < |values|
    requires forall i :: 0 <= i < |values| ==> GoodBudget(values[i])
    ensures Covered(nodes, after, values[k])
  {
    var a := values[k];
    assert Backed(nodes, l, a);
    var n :| n in nodes && n.id == a.node && n.offer.Some? && Admission.Within(l, n, a);
    forall q | Amount(a, q) > 0 ensures Held(after, n.id, q) <= Amount(Offered(n), q) {
      TotalOfOne(values, n.id, q);
      assert Held(after, n.id, q) == Held(l, n.id, q) + Amount(a, q);
    }
  }

  /** Admitting a fair plan keeps every earlier allocation and its own within the offers. */
  lemma AdmitCovers(nodes: seq<Node>, l: Ledger, after: Ledger, taken: seq<Allocation>, values: seq<Allocation>)
    requires UniqueIds(nodes) && UniqueNodes(values) && AllBacked(nodes, l, values) && Grown(l, after, values)
    requires (forall i :: 0 <= i < |values| ==> GoodBudget(values[i])) && AllCovered(nodes, l, taken)
    ensures AllCovered(nodes, after, taken + values)
  {
    var all := taken + values;
    forall i | 0 <= i < |all| ensures Covered(nodes, after, all[i]) {
      if i < |taken| {
        assert Covered(nodes, l, taken[i]);
        StillCovered(nodes, l, after, values, taken[i]);
      } else {
        NewlyCovered(nodes, l, after, values, i - |taken|);
      }
    }
  }

  lemma GrownGood(l: Ledger, after: Ledger, values: seq<Allocation>)
    requires GoodLedger(l) && Grown(l, after, values) && UniqueNodes(values) && forall i :: 0 <= i < |values| ==> GoodBudget(values[i])
    ensures GoodLedger(after)
  {
    forall n, q ensures Held(after, n, q) >= 0 {
      TotalOfOne(values, n, q);
      assert Held(l, n, q) >= 0 && Held(after, n, q) == Held(l, n, q) + Total(values, n, q);
      if i :| 0 <= i < |values| && values[i].node == n {
        AmountNonneg(values[i], q);
      }
    }
  }

  lemma GrownTogether(base: Ledger, l: Ledger, after: Ledger, taken: seq<Allocation>, values: seq<Allocation>)
    requires Grown(base, l, taken) && Grown(l, after, values)
    ensures Grown(base, after, taken + values)
  {
    forall n, q ensures Held(after, n, q) == Held(base, n, q) + Total(taken + values, n, q) {
      TotalJoin(taken, values, n, q);
      assert Held(l, n, q) == Held(base, n, q) + Total(taken, n, q);
      assert Held(after, n, q) == Held(l, n, q) + Total(values, n, q);
    }
  }

  /** Once all that was left on a node is on the ledger, the node has nothing left to lend. */
  lemma WholePlanSpends(nodes: seq<Node>, l: Ledger, after: Ledger, values: seq<Allocation>, i: nat, n: Node)
    requires UniqueIds(nodes) && UniqueNodes(values) && Grown(l, after, values) && n in nodes && GoodNode(n)
    requires i < |values| && TakesAll(nodes, l, values[i]) && n.id == values[i].node
    ensures Spent(Available(n, after))
  {
    var m :| m in nodes && m.id == values[i].node && values[i] == Offered(Available(m, l)) && Available(m, l).offer.Some? && Available(m, l).offer.value.enabled;
    SameNode(nodes, m, n);
    forall q ensures Held(after, n.id, q) == Held(l, n.id, q) + Amount(Offered(Available(n, l)), q) {
      TotalOfOne(values, n.id, q);
      assert Held(after, n.id, q) == Held(l, n.id, q) + Total(values, n.id, q);
    }
    WholeSpends(l, after, n);
  }

  /** A plan is admitted and charged; without budgets its nodes have nothing left to lend. */
  method Admit(p: Profile, nodes: seq<Node>, ledger: ResourceLedger, ports: map<Id, set<int>>, kind: Kind, spec: Spec,
               budgets: Option<seq<Allocation>>, supported: set<Id>, enough: (Plan, seq<Allocation>) -> bool)
    returns (r: Result<Admitted>)
    requires GoodProfile(p) && UniqueIds(nodes) && (forall i :: 0 <= i < |nodes| ==> GoodNode(nodes[i])) && GoodLedger(ledger.entries)
    modifies ledger
    ensures r.Err? ==> ledger.entries == old(ledger.entries)
    ensures r.Ok? ==> Fair(nodes, old(ledger.entries), r.value) && Grown(old(ledger.entries), ledger.entries, r.value.allocations)
    ensures r.Ok? && budgets.None? ==>
              forall n :: n in nodes && n.id in PlanNodes(r.value.plan) ==> Spent(Available(n, ledger.entries))
  {
    ghost var l := ledger.entries;
    r := PlanWithResources(p, nodes, ledger.entries, ports, kind, spec, budgets, supported, enough);
    if r.Err? {
      return;
    }
    var m := r.value;
    ledger.Add(m.allocations);
    if budgets.None? {
      forall n | n in nodes && n.id in PlanNodes(m.plan) ensures Spent(Available(n, ledger.entries)) {
        var k :| 0 <= k < |PlanNodes(m.plan)| && PlanNodes(m.plan)[k] == n.id;
        assert HasBudget(m.allocations, PlanNodes(m.plan)[k]);
        var i :| 0 <= i < |m.allocations| && m.allocations[i].node == n.id;
        WholePlanSpends(nodes, l, ledger.entries, m.allocations, i, n);
      }
    }
  }

  // ---------- ports ----------

  method OccupyPorts(ports: map<Id, set<int>>, plan: Plan) returns (after: map<Id, set<int>>)
    ensures forall id :: Used(ports, id) <= Used(after, id)
    ensures forall i :: 0 <= i < |plan.workers| ==> PortsOf(plan.workers[i]) <= Used(after, plan.workers[i].node)
  {
    after := ports;
    for k := 0 to |plan.workers|
      invariant forall id :: Used(ports, id) <= Used(after, id)
      invariant forall i :: 0 <= i < k ==> PortsOf(plan.workers[i]) <= Used(after, plan.workers[i].node)
    {
      var w := plan.workers[k];
      var p := Used(after, w.node) + {w.port};
      if w.peer.Some? {
        p := p + {w.peer.value};
      }
      after := after[w.node := p];
    }
  }

  /** No two workers share a port of one node, and none takes a port in use before. */
  ghost predicate PortsApart(ws: seq<PlanWorker>, before: map<Id, set<int>>) {
    && (forall i :: 0 <= i < |ws| ==> PortsOf(ws[i]) !! Used(before, ws[i].node))
    && forall i, j :: 0 <= i < j < |ws| && ws[i].node == ws[j].node ==> PortsOf(ws[i]) !! PortsOf(ws[j])
  }

  /** The port map holds what was in use and what the workers take. */
  ghost predicate Occupied(ws: seq<PlanWorker>, before: map<Id, set<int>>, ports: map<Id, set<int>>) {
    && (forall id :: Used(before, id) <= Used(ports, id))
    && forall i :: 0 <= i < |ws| ==> PortsOf(ws[i]) <= Used(ports, ws[i].node)
  }

  lemma PortsStayApart(ws: seq<PlanWorker>, before: map<Id, set<int>>, ports: map<Id, set<int>>, plan: Plan)
    requires PortsApart(ws, before) && Occupied(ws, before, ports) && UniquePlan(plan) && PortsFree(plan, ports)
    ensures PortsApart(ws + plan.workers, before)
  {
    var all := ws + plan.workers;
    forall i | 0 <= i < |all| ensures PortsOf(all[i]) !! Used(before, all[i].node) {
      if i >= |ws| {
        assert PortsOf(plan.workers[i - |ws|]) !! Used(ports, plan.workers[i - |ws|].node);
      }
    }
    forall i, j | 0 <= i < j < |all| && all[i].node == all[j].node ensures PortsOf(all[i]) !! PortsOf(all[j]) {
      if j >= |ws| {
        var w := plan.workers[j - |ws|];
        assert PortsOf(w) !! Used(ports, w.node);
        if i >= |ws| {
          WorkersDiffer(plan, i - |ws|, j - |ws|);
        }
      }
    }
  }

  lemma WorkersDiffer(plan: Plan, i: nat, j: nat)
    requires UniquePlan(plan) && i < j < |plan.workers|
    ensures plan.workers[i].node != plan.workers[j].node
  {
    assert PlanNodes(plan)[i + 1] != PlanNodes(plan)[j + 1];
  }

  // ---------- the admission loop ----------

  /** What admission made of a candidate: sound against the ledger and the ports in use, with the budgets asked for. */
  ghost predicate Sound(f: Inputs, l: Ledger, ports: map<Id, set<int>>, budgets: seq<Allocation>, m: Admitted) {
    && Fair(f.nodes, l, m) && UniquePlan(m.plan) && PortsFree(m.plan, ports)
    && m.allocations == budgets && GoodBudgets(m.allocations)
  }

  /** What admission answered: a sound plan, or nothing and then it had a reason. */
  ghost predicate Answers(f: Inputs, item: nat, l: Ledger, ports: map<Id, set<int>>, k: Candidate, e: Entry) {
    if e.Some? then Sound(f, l, ports, k.budgets, e.value)
    else Refused(f.profiles(item), f.nodes, l, ports, k.kind, k.spec, k.budgets, f.supported, f.enough)
  }

  ghost predicate AllTried(f: Inputs, item: nat, l: Ledger, ports: map<Id, set<int>>, candidates: seq<Candidate>, tried: seq<Entry>) {
    |tried| <= |candidates| && forall c :: 0 <= c < |tried| ==> Answers(f, item, l, ports, candidates[c], tried[c])
  }

  lemma TriedNext(f: Inputs, item: nat, l: Ledger, ports: map<Id, set<int>>, candidates: seq<Candidate>, tried: seq<Entry>, e: Entry)
    requires AllTried(f, item, l, ports, candidates, tried) && |tried| < |candidates|
    requires Answers(f, item, l, ports, candidates[|tried|], e)
    ensures AllTried(f, item, l, ports, candidates, tried + [e])
  {
    var all := tried + [e];
    forall c | 0 <= c < |all| ensures Answers(f, item, l, ports, candidates[c], all[c]) {
      if c < |tried| {
        assert all[c] == tried[c] && Answers(f, item, l, ports, candidates[c], tried[c]);
      }
    }
  }

  predicate Roomy(f: Inputs, entries: seq<Entry>, e: Entry) {
    e.Some? && f.roomy(entries, e.value)
  }

  /** The first of those with the lowest score among the admitted candidates the hosts have room for; none if there is none. */
  ghost predicate IsBest(f: Inputs, entries: seq<Entry>, tried: seq<Entry>, winner: Entry) {
    && (winner.None? <==> forall c :: 0 <= c < |tried| ==> !Roomy(f, entries, tried[c]))
    && (winner.Some? ==> exists b :: 0 <= b < |tried| && tried[b] == winner && FirstBest(f, entries, tried, b))
  }

  ghost predicate FirstBest(f: Inputs, entries: seq<Entry>, tried: seq<Entry>, b: int)
    requires 0 <= b < |tried|
  {
    && Roomy(f, entries, tried[b])
    && forall c :: 0 <= c < |tried| && Roomy(f, entries, tried[c]) ==>
         f.score(tried[b].value) <= f.score(tried[c].value) && (c < b ==> f.score(tried[b].value) < f.score(tried[c].value))
  }

  lemma BestNext(f: Inputs, entries: seq<Entry>, tried: seq<Entry>, winner: Entry, e: Entry, next: Entry)
    requires IsBest(f, entries, tried, winner)
    requires next == if Roomy(f, entries, e) && (winner.None? || f.score(e.value) < f.score(winner.value)) then e else winner
    ensures IsBest(f, entries, tried + [e], next)
  {
    var all := tried + [e];
    if Roomy(f, entries, e) && (winner.None? || f.score(e.value) < f.score(winner.value)) {
      if winner.Some? {
        var b :| 0 <= b < |tried| && tried[b] == winner && FirstBest(f, entries, tried, b);
      }
      assert FirstBest(f, entries, all, |tried|);
    } else if winner.Some? {
      var b :| 0 <= b < |tried| && tried[b] == winner && FirstBest(f, entries, tried, b);
      assert all[b] == winner && FirstBest(f, entries, all, b);
    }
    if next.None? {
      assert forall c :: 0 <= c < |tried| ==> all[c] == tried[c];
    }
  }

  /** The best candidate that is admitted and that the hosts have room for; `tried` is what admission made of each. */
  method BestPlan(f: Inputs, item: nat, candidates: seq<Candidate>, l: Ledger, ports: map<Id, set<int>>, entries: seq<Entry>)
    returns (winner: Entry, ghost tried: seq<Entry>)
    requires GoodInputs(f) && GoodLedger(l)
    ensures |tried| == |candidates| && AllTried(f, item, l, ports, candidates, tried) && IsBest(f, entries, tried, winner)
  {
    winner, tried := None, [];
    for c := 0 to |candidates|
      invariant |tried| == c && AllTried(f, item, l, ports, candidates, tried) && IsBest(f, entries, tried, winner)
    {
      var e := Try(f, item, candidates[c], l, ports);
      ghost var before := winner;
      if e.Some? && (winner.None? || f.score(e.value) < f.score(winner.value)) && f.roomy(entries, e.value) {
        winner := e;
      }
      BestNext(f, entries, tried, before, e, winner);
      TriedNext(f, item, l, ports, candidates, tried, e);
      tried := tried + [e];
    }
  }

  method Try(f: Inputs, item: nat, k: Candidate, l: Ledger, ports: map<Id, set<int>>) returns (e: Entry)
    requires GoodInputs(f) && GoodLedger(l)
    ensures Answers(f, item, l, ports, k, e)
  {
    var r := PlanWithResources(f.profiles(item), f.nodes, l, ports, k.kind, k.spec, Some(k.budgets), f.supported, f.enough);
    e := if r.Ok? then Some(r.value) else None;
  }

  /** The winner is one of those tried. */
  lemma BestIsSound(f: Inputs, item: nat, l: Ledger, ports: map<Id, set<int>>, candidates: seq<Candidate>, entries: seq<Entry>, tried: seq<Entry>, winner: Entry)
    requires AllTried(f, item, l, ports, candidates, tried) && IsBest(f, entries, tried, winner) && winner.Some?
    ensures Fair(f.nodes, l, winner.value) && UniquePlan(winner.value.plan) && PortsFree(winner.value.plan, ports)
    ensures GoodBudgets(winner.value.allocations) && f.roomy(entries, winner.value)
  {
    var b :| 0 <= b < |tried| && tried[b] == winner && FirstBest(f, entries, tried, b);
    assert Answers(f, item, l, ports, candidates[b], tried[b]);
  }

  /** What a round of placements guarantees. */
  ghost predicate RoundOk(nodes: seq<Node>, base: Ledger, before: map<Id, set<int>>, entries: seq<Entry>, l: Ledger) {
    && Grown(base, l, Taken(entries)) && AllCovered(nodes, l, Taken(entries)) && PortsApart(Workers(entries), before)
  }

  /** The entry is the best of what admission made of every candidate. */
  ghost predicate Chosen(f: Inputs, round: nat, item: nat, l: Ledger, ports: map<Id, set<int>>, entries: seq<Entry>, tried: seq<Entry>, entry: Entry) {
    var candidates := f.candidates(round, item, l);
    |tried| == |candidates| && AllTried(f, item, l, ports, candidates, tried) && IsBest(f, entries, tried, entry)
  }

  /** An entry is chosen against the reservations and the ports of the entries before it. */
  ghost predicate ChosenAfter(f: Inputs, round: nat, item: nat, base: Ledger, before: map<Id, set<int>>, entries: seq<Entry>, entry: Entry) {
    exists l, ports, tried ::
      Grown(base, l, Taken(entries)) && Occupied(Workers(entries), before, ports) && Chosen(f, round, item, l, ports, entries, tried, entry)
  }

  /** Every entry of a round is so chosen, in the order given. */
  ghost predicate Greedy(f: Inputs, round: nat, order: seq<nat>, base: Ledger, before: map<Id, set<int>>, entries: seq<Entry>) {
    |entries| <= |order| && forall i :: 0 <= i < |entries| ==> ChosenAfter(f, round, order[i], base, before, entries[..i], entries[i])
  }

  lemma GreedyNext(f: Inputs, round: nat, order: seq<nat>, base: Ledger, before: map<Id, set<int>>, entries: seq<Entry>, entry: Entry)
    requires |entries| < |order| && Greedy(f, round, order, base, before, entries)
    requires ChosenAfter(f, round, order[|entries|], base, before, entries, entry)
    ensures Greedy(f, round, order, base, before, entries + [entry])
  {
    var all := entries + [entry];
    forall i | 0 <= i < |all| ensures ChosenAfter(f, round, order[i], base, before, all[..i], all[i]) {
      assert all[..i] == entries[..i];
      if i == |entries| {
        assert entries[..i] == entries;
      }
    }
  }

  /** One entry is placed, or not. */
  method PlaceEntry(f: Inputs, round: nat, item: nat, ledger: ResourceLedger, ghost base: Ledger, before: map<Id, set<int>>,
                    ports: map<Id, set<int>>, entries: seq<Entry>)
    returns (entry: Entry, after: map<Id, set<int>>, ghost tried: seq<Entry>)
    requires GoodInputs(f) && GoodLedger(ledger.entries)
    requires RoundOk(f.nodes, base, before, entries, ledger.entries) && Occupied(Workers(entries), before, ports)
    modifies ledger
    ensures Chosen(f, round, item, old(ledger.entries), ports, entries, tried, entry)
    ensures GoodLedger(ledger.entries)
    ensures RoundOk(f.nodes, base, before, entries + [entry], ledger.entries) && Occupied(Workers(entries + [entry]), before, after)
  {
    ghost var l := ledger.entries;
    var candidates := f.candidates(round, item, ledger.entries);
    entry, tried := BestPlan(f, item, candidates, ledger.entries, ports, entries);
    after := ports;
    TakenSnoc(entries, entry);
    if entry.Some? {
      var m := entry.value;
      BestIsSound(f, item, l, ports, candidates, entries, tried, entry);
      PortsStayApart(Workers(entries), before, ports, m.plan);
      ledger.Add(m.allocations);
      after := OccupyPorts(ports, m.plan);
      GrownGood(l, ledger.entries, m.allocations);
      GrownTogether(base, l, ledger.entries, Taken(entries), m.allocations);
      AdmitCovers(f.nodes, l, ledger.entries, Taken(entries), m.allocations);
    }
  }

  method Round(f: Inputs, round: nat, order: seq<nat>, base: Ledger, before: map<Id, set<int>>) returns (entries: seq<Entry>, l: Ledger)
    requires GoodInputs(f) && GoodLedger(base)
    ensures |entries| == |order| && RoundOk(f.nodes, base, before, entries, l)
    ensures Greedy(f, round, order, base, before, entries)
  {
    var ledger := new ResourceLedger(base);
    var ports := before;
    entries := [];
    for i := 0 to |order|
      invariant |entries| == i && GoodLedger(ledger.entries) && fresh(ledger)
      invariant RoundOk(f.nodes, base, before, entries, ledger.entries) && Occupied(Workers(entries), before, ports)
      invariant Greedy(f, round, order, base, before, entries)
    {
      ghost var held := ledger.entries;
      var entry, after, tried := PlaceEntry(f, round, order[i], ledger, base, before, ports, entries);
      assert ChosenAfter(f, round, order[i], base, before, entries, entry) by {
        assert Chosen(f, round, order[i], held, ports, entries, tried, entry);
      }
      GreedyNext(f, round, order, base, before, entries, entry);
      entries, ports := entries + [entry], after;
    }
    l := ledger.entries;
  }

  function Placed(entries: seq<Entry>): nat {
    if entries == [] then 0 else Placed(entries[..|entries| - 1]) + if entries[|entries| - 1].Some? then 1 else 0
  }

  function Cost(entries: seq<Entry>, score: Admitted -> real): real {
    if entries == [] then 0.0
    else Cost(entries[..|entries| - 1], score) + if entries[|entries| - 1].Some? then score(entries[|entries| - 1].value) else 0.0
  }

  /** More entries placed, or as many at a lower cost. */
  predicate Better(f: Inputs, a: seq<Entry>, b: seq<Entry>) {
    Placed(a) > Placed(b) || (Placed(a) == Placed(b) && Cost(a, f.score) < Cost(b, f.score))
  }

  /** The first of the best rounds. */
  ghost predicate IsBestRound(f: Inputs, rounds: seq<seq<Entry>>, entries: seq<Entry>) {
    exists b :: 0 <= b < |rounds| && rounds[b] == entries && NoneBetter(f, rounds, b)
  }

  ghost predicate NoneBetter(f: Inputs, rounds: seq<seq<Entry>>, b: int)
    requires 0 <= b < |rounds|
  {
    forall k :: 0 <= k < |rounds| ==> !Better(f, rounds[k], rounds[b]) && (k < b ==> Better(f, rounds[b], rounds[k]))
  }

  lemma BestRoundNext(f: Inputs, rounds: seq<seq<Entry>>, entries: seq<Entry>, more: seq<Entry>)
    requires IsBestRound(f, rounds, entries)
    ensures IsBestRound(f, rounds + [more], if Better(f, more, entries) then more else entries)
  {
    var b :| 0 <= b < |rounds| && rounds[b] == entries && NoneBetter(f, rounds, b);
    var all := rounds + [more];
    if Better(f, more, entries) {
      assert all[|rounds|] == more && NoneBetter(f, all, |rounds|);
    } else {
      assert all[b] == entries && NoneBetter(f, all, b);
    }
  }

  ghost predicate AllGreedy(f: Inputs, order: seq<nat>, base: Ledger, before: map<Id, set<int>>, rounds: seq<seq<Entry>>) {
    forall k :: 0 <= k < |rounds| ==> |rounds[k]| == |order| && Greedy(f, k, order, base, before, rounds[k])
  }

  lemma GreedyRoundsNext(f: Inputs, order: seq<nat>, base: Ledger, before: map<Id, set<int>>, rounds: seq<seq<Entry>>, more: seq<Entry>)
    requires AllGreedy(f, order, base, before, rounds) && |more| == |order| && Greedy(f, |rounds|, order, base, before, more)
    ensures AllGreedy(f, order, base, before, rounds + [more])
  {
    var all := rounds + [more];
    forall k | 0 <= k < |all| ensures |all[k]| == |order| && Greedy(f, k, order, base, before, all[k]) {
      assert k < |rounds| ==> all[k] == rounds[k];
    }
  }

  /** The round with the most entries placed, then the lowest cost, of all rounds tried. */
  method PreviewFleet(f: Inputs, rounds: nat, order: seq<nat>, base: Ledger, before: map<Id, set<int>>)
    returns (entries: seq<Entry>, l: Ledger, ghost tried: seq<seq<Entry>>)
    requires GoodInputs(f) && GoodLedger(base) && rounds >= 1
    ensures |entries| == |order| && RoundOk(f.nodes, base, before, entries, l)
    ensures |tried| == rounds && AllGreedy(f, order, base, before, tried) && IsBestRound(f, tried, entries)
  {
    entries, l := Round(f, 0, order, base, before);
    tried := [entries];
    assert NoneBetter(f, tried, 0);
    for k := 1 to rounds
      invariant |entries| == |order| && RoundOk(f.nodes, base, before, entries, l)
      invariant |tried| == k && AllGreedy(f, order, base, before, tried) && IsBestRound(f, tried, entries)
    {
      var next, ledger := Round(f, k, order, base, before);
      BestRoundNext(f, tried, entries, next);
      GreedyRoundsNext(f, order, base, before, tried, next);
      tried := tried + [next];
      if Better(f, next, entries) {
        entries, l := next, ledger;
      }
    }
  }

  /** The preview of a fleet: what other deployments keep reserved is the ledger every round starts from. */
  method Preview(f: Inputs, rounds: nat, order: seq<nat>, deps: seq<Reserved.Deployed>, rows: seq<Reserved.Assignment>, selected: set<nat>,
                 before: map<Id, set<int>>) returns (entries: seq<Entry>, l: Ledger, base: Ledger, ghost tried: seq<seq<Entry>>)
    requires GoodInputs(f) && Reserved.Sane(deps, f.nodes) && rounds >= 1
    ensures Reserved.Holds(base, deps, rows, f.nodes, selected)
    ensures |entries| == |order| && RoundOk(f.nodes, base, before, entries, l)
    ensures |tried| == rounds && AllGreedy(f, order, base, before, tried) && IsBestRound(f, tried, entries)
  {
    var ledger := Reserved.ReservedResources(deps, rows, f.nodes, selected);
    base := ledger.entries;
    Reserved.ReservedIsGood(base, deps, rows, f.nodes, selected);
    entries, l, tried := PreviewFleet(f, rounds, order, base, before);
  }
}
