/**
 The deployment manager's synchronous entry points as they update its fields, each refining the events of
 the transition system.
 */
module DeploymentManager {
  import opened Outcomes
  import opened Deployments
  import opened DeploymentRuns
  import opened DeploymentEffects

  /** One node-loss event for every deployment listed. */
  function Losses(ids: seq<Id>, node: Node): seq<Event> {
    seq(|ids|, i requires 0 <= i < |ids| => On(ids[i], LosingNode(node)))
  }

  lemma LossesSnoc(s: Control, ids: seq<Id>, k: nat, node: Node)
    requires k < |ids|
    ensures After(s, Losses(ids[..k + 1], node)) == Next(After(s, Losses(ids[..k], node)), On(ids[k], LosingNode(node)))
  {
    assert Losses(ids[..k + 1], node)[..k] == Losses(ids[..k], node);
  }

  lemma LosingKeepsBetween(s: Control, d: Id, node: Node)
    requires Between(s)
    ensures Between(Next(s, On(d, LosingNode(node))))
  {
    if d in s.deps {
      var p := s.deps[d];
      assert !Due(p) && !Due(Offline(p, EnvOf(s, d), node));
    }
  }

  lemma NotDue(p: Dep, env: Env, r: RowId, have: Option<RowState>, duplicate: bool)
    requires r in p.rows && !Due(p)
    ensures !Due(Greet(p, env, r, have, duplicate))
  {
    var q := if have.Some? then SetRow(p, r, have.value) else p;
    assert !Due(q) && !Due(Fail(q, env));
  }

  lemma GreetingKeepsBetween(s: Control, d: Id, r: RowId, have: Option<RowState>, duplicate: bool)
    requires Between(s)
    ensures Between(Next(s, On(d, Greeting(r, have, duplicate))))
  {
    if d in s.deps && r in s.deps[d].rows {
      NotDue(s.deps[d], EnvOf(s, d), r, have, duplicate);
    }
  }

  /** The row is a health watch that its deployment still wants. */
  predicate Hailed(s: Control, d: Id, r: RowId) {
    d in s.deps && r in s.deps[d].rows && s.deps[d].external.Some? && Wants(s.deps[d], r)
  }

  /** Before the k-th row of a hello, a watch of this deployment was wanted. */
  ghost predicate Seen(s: Control, es: seq<Event>, rows: seq<(Id, RowId)>, k: nat, d: Id)
    requires k <= |es| <= |rows|
  {
    exists j :: 0 <= j < k && rows[j].0 == d && Hailed(After(s, es[..j]), rows[j].0, rows[j].1)
  }

  /** The k-th event greets the k-th row with what the node said of it, as a duplicate exactly if one was seen. */
  ghost predicate Greets(s: Control, es: seq<Event>, rows: seq<(Id, RowId)>, have: map<RowId, RowState>, k: nat)
    requires k < |es| <= |rows|
  {
    && es[k].On? && es[k].id == rows[k].0 && es[k].action.Greeting? && es[k].action.row == rows[k].1
    && es[k].action.have == (if rows[k].1 in have then Some(have[rows[k].1]) else None)
    && (es[k].action.duplicate <==> Seen(s, es, rows, k, rows[k].0))
  }

  lemma SeenSnoc(s: Control, es: seq<Event>, e: Event, rows: seq<(Id, RowId)>, k: nat, d: Id)
    requires k <= |es| < |rows|
    ensures Seen(s, es + [e], rows, k, d) <==> Seen(s, es, rows, k, d)
  {
    assert forall j :: 0 <= j <= |es| ==> (es + [e])[..j] == es[..j];
  }

  lemma SeenNext(s: Control, es: seq<Event>, e: Event, rows: seq<(Id, RowId)>, d: Id)
    requires |es| < |rows|
    ensures Seen(s, es + [e], rows, |es| + 1, d) <==>
            Seen(s, es, rows, |es|, d) || (rows[|es|].0 == d && Hailed(After(s, es), d, rows[|es|].1))
  {
    var k := |es|;
    SeenSnoc(s, es, e, rows, k, d);
    assert (es + [e])[..k] == es;
    if Seen(s, es + [e], rows, k, d) {
      var j :| 0 <= j < k && rows[j].0 == d && Hailed(After(s, (es + [e])[..j]), rows[j].0, rows[j].1);
    }
  }

  lemma GreetsSnoc(s: Control, es: seq<Event>, e: Event, rows: seq<(Id, RowId)>, have: map<RowId, RowState>, k: nat)
    requires k < |es| < |rows| && Greets(s, es, rows, have, k)
    ensures Greets(s, es + [e], rows, have, k)
  {
    SeenSnoc(s, es, e, rows, k, rows[k].0);
  }

  /** The rows greeted so far, and the deployments with a wanted watch among them. */
  ghost predicate SoFar(s: Control, es: seq<Event>, rows: seq<(Id, RowId)>, have: map<RowId, RowState>, seen: set<Id>) {
    && |es| <= |rows|
    && (forall d :: d in seen <==> Seen(s, es, rows, |es|, d))
    && (forall i :: 0 <= i < |es| ==> Greets(s, es, rows, have, i))
  }

  lemma SoFarNext(s: Control, es: seq<Event>, rows: seq<(Id, RowId)>, have: map<RowId, RowState>, seen: set<Id>, e: Event, more: set<Id>)
    requires |es| < |rows| && SoFar(s, es, rows, have, seen)
    requires
      var (d, r) := rows[|es|];
      && e == On(d, Greeting(r, if r in have then Some(have[r]) else None, d in seen))
      && more == if Hailed(After(s, es), d, r) then seen + {d} else seen
    ensures SoFar(s, es + [e], rows, have, more) && After(s, es + [e]) == Next(After(s, es), e)
  {
    var k := |es|;
    assert (es + [e])[..k] == es;
    forall i | 0 <= i < k ensures Greets(s, es + [e], rows, have, i) {
      GreetsSnoc(s, es, e, rows, have, i);
    }
    SeenSnoc(s, es, e, rows, k, rows[k].0);
    forall c ensures c in more <==> Seen(s, es + [e], rows, k + 1, c) {
      SeenNext(s, es, e, rows, c);
    }
  }

  /** The deployments listed so far have lost the node, the others are as they were. */
  ghost predicate LostSoFar(before: map<Id, Dep>, now: map<Id, Dep>, ids: seq<Id>, node: Node) {
    && now.Keys == before.Keys
    && (forall d :: d in now && d in ids ==> Lost(before[d], now[d], node))
    && (forall d :: d in now && d !in ids ==> now[d] == before[d])
  }

  lemma LostNext(before: map<Id, Dep>, now: map<Id, Dep>, next: map<Id, Dep>, ids: seq<Id>, id: Id, node: Node)
    requires LostSoFar(before, now, ids, node) && next.Keys == now.Keys
    requires (forall d :: d in next && d != id ==> next[d] == now[d]) && (id in next ==> Lost(now[id], next[id], node))
    ensures LostSoFar(before, next, ids + [id], node)
  {
    if id in next && id in ids {
      LostAgain(before[id], now[id], node, next[id]);
    }
  }

  class Manager {
    var deps: map<Id, Dep>
    var online: set<Node>
    var clock: int
    var updateLease: Option<Lease>
    var updateRecovery: set<Id>
    var closed: bool
    var busy: bool
    var granted: nat
    var open: map<Req, Id>

    ghost function View(): Control
      reads this
    {
      Control(deps, online, clock, updateLease, updateRecovery, closed, busy, granted, open)
    }

    constructor ()
      ensures Initial(View())
    {
      deps, online, clock, updateLease, updateRecovery := map[], {}, 0, None, {};
      closed, busy, granted, open := false, false, 0, map[];
    }

    function UpdatingNode(): Option<Node>
      reads this`updateLease, this`clock
    {
      if updateLease.Some? && updateLease.value.expiresAt > clock then Some(updateLease.value.node) else None
    }

    // ---------- start, stop, failure ----------

    method Start(id: Id, recovering: bool, fromReady: bool, abandon: bool) returns (ok: bool)
      modifies this`deps
      ensures View() == Next(old(View()), On(id, Starting(recovering, fromReady, abandon)))
      ensures ok <==> id in old(deps) && MayStart(old(deps)[id], EnvOf(old(View()), id), recovering, fromReady)
      ensures ok ==> id in deps && deps[id].status.Placing? && deps[id].running && deps[id].generation == old(deps)[id].generation
      ensures ok ==> deps[id].endpoint.None? && deps[id].ops == [Op(StartOp(deps[id].generation, abandon), Queued)]
      ensures !ok ==> deps == old(deps)
    {
      if id !in deps || closed || UpdatingNode().Some? || deps[id].ops != [] {
        assert id in deps ==> deps[id := deps[id]] == deps;
        return false;
      }
      if deps[id].external.Some? && Taken(deps, id) {
        assert deps[id := deps[id]] == deps;
        return false;
      }
      var p := deps[id];
      if !Restartable(p, recovering, fromReady) {
        assert deps[id := p] == deps;
        return false;
      }
      p := p.(reconnecting := false);
      p := p.(running := true);
      var generation := p.generation;
      p := p.(status := Placing, endpoint := None);
      p := p.(ops := p.ops + [Op(StartOp(generation, abandon), Queued)]);
      deps := deps[id := p];
      return true;
    }

    method Stop(id: Id)
      modifies this`deps
      ensures View() == Next(old(View()), On(id, Stopping))
      ensures !Routable(View(), id)
      ensures id in deps ==>
                && !deps[id].running && deps[id].status.Draining? && deps[id].generation == old(deps)[id].generation + 1
                && deps[id].ops == old(deps)[id].ops + [Op(StopOp, Queued)]
    {
      if id in deps {
        var p := deps[id];
        p := p.(reconnecting := false);
        p := p.(running := false);
        p := p.(generation := p.generation + 1);
        p := p.(status := Draining, endpoint := None);
        p := p.(ops := p.ops + [Op(StopOp, Queued)]);
        deps := deps[id := p];
      }
    }

    method Fail(id: Id)
      modifies this`deps
      ensures View() == Next(old(View()), On(id, Failing))
      ensures id in deps && !closed && (old(deps)[id].status.Ready? || old(deps)[id].status.Placing? || old(deps)[id].status.Loading?) ==>
                deps[id].status.Failed? && Withdrawn(old(deps)[id], deps[id])
    {
      if id in deps {
        var p := deps[id];
        if p.status.Failed? || p.status.Stopped? || p.status.Draining? || closed {
          assert deps[id := p] == deps;
          return;
        }
        p := p.(generation := p.generation + 1);
        p := p.(reconnecting := false);
        p := p.(status := Failed, endpoint := None);
        p := p.(ops := p.ops + [Op(TeardownOp, Queued)]);
        deps := deps[id := p];
      }
    }

    method FinishDraining(id: Id)
      modifies this`deps
      ensures View() == Next(old(View()), On(id, CheckingDrain))
      ensures id in deps && old(deps)[id].status.Draining? && !old(deps)[id].running ==> (deps[id].status.Stopped? <==> AllStopped(deps[id].rows))
    {
      if id in deps {
        var p := deps[id];
        if p.status.Draining? && !p.running && AllStopped(p.rows) {
          p := p.(status := Stopped, endpoint := None);
        }
        deps := deps[id := p];
      }
    }

    // ---------- nodes and reports ----------

    /** A node left: every deployment it touches loses its route. */
    method OnOffline(node: Node, ids: seq<Id>)
      requires Between(View()) && forall d :: d in deps ==> d in ids
      modifies this`deps
      ensures View() == After(old(View()), Losses(ids, node))
      ensures !closed ==> deps.Keys == old(deps).Keys && forall d :: d in deps ==> Lost(old(deps)[d], deps[d], node)
      ensures !closed && Inv(old(View())) ==> forall d :: d in deps && Touches(old(deps)[d], node) ==> !Routable(View(), d)
    {
      ghost var s := View();
      for k := 0 to |ids|
        invariant Between(View()) && View() == After(s, Losses(ids[..k], node))
        invariant !closed ==> LostSoFar(s.deps, deps, ids[..k], node)
      {
        LossesSnoc(s, ids, k, node);
        LosingKeepsBetween(View(), ids[k], node);
        ghost var before := deps;
        LoseNode(ids[k], node);
        assert ids[..k + 1] == ids[..k] + [ids[k]];
        if !closed {
          LostNext(s.deps, before, deps, ids[..k], ids[k], node);
        }
      }
      assert ids[..|ids|] == ids;
      if !closed && Inv(s) {
        forall d | d in deps && Touches(s.deps[d], node) ensures !Routable(View(), d) {
          assert Good(s.deps[d], s.online);
          LostHasNoRoute(s.deps[d], deps[d], node, s.online);
        }
      }
    }

    method LoseNode(id: Id, node: Node)
      requires Between(View())
      modifies this`deps
      ensures View() == Next(old(View()), On(id, LosingNode(node)))
      ensures deps.Keys == old(deps).Keys && forall d :: d in deps && d != id ==> deps[d] == old(deps)[d]
      ensures !closed && id in deps ==> Lost(old(deps)[id], deps[id], node)
    {
      if id !in deps {
        return;
      }
      var p := deps[id];
      assert deps[id := p] == deps;
      if !closed {
        LossLoses(p, EnvOf(View(), id), node);
      }
      if closed || !p.running || p.status.Stopped? || p.status.Failed? || p.status.Planned? || p.status.Draining? || p.reconnecting {
        return;
      }
      var live := exists r :: r in p.rows && p.rows[r].node == node && p.rows[r].state != RowStopped;
      var planned := p.plan.Some? && node in p.plan.value;
      if !live && !planned {
        return;
      }
      if live && p.external.Some? {
        p := p.(status := Loading, endpoint := None);
      } else {
        p := p.(generation := p.generation + 1);
        p := p.(reconnecting := true);
        p := p.(status := Loading, endpoint := None);
        p := p.(ops := p.ops + [Op(TeardownOp, Queued)]);
      }
      deps := deps[id := p];
    }

    /** An agent's report: the row is recorded, waiting routes follow it, a dead engine fails the deployment. */
    method OnAssignmentState(node: Node, id: Id, row: RowId, state: RowState, leaving: bool)
      requires Between(View())
      modifies this`deps
      ensures id in old(deps) && row in old(deps)[id].rows && old(deps)[id].rows[row].node == node ==>
                View() == Next(old(View()), On(id, Reporting(row, state, leaving)))
      ensures !(id in old(deps) && row in old(deps)[id].rows && old(deps)[id].rows[row].node == node) ==> deps == old(deps)
      ensures id in old(deps) && Depends(old(deps)[id], row) && old(deps)[id].rows[row].node == node && Dead(state) && !leaving && !closed ==>
                id in deps && deps[id].status.Failed? && Withdrawn(old(deps)[id], deps[id]) && !Routable(View(), id)
    {
      if id !in deps || row !in deps[id].rows || deps[id].rows[row].node != node {
        return;
      }
      if Depends(deps[id], row) && Dead(state) && !leaving && !closed {
        DeadEngineWithdraws(View(), id, row, state);
      }
      Record(id, row, state, leaving);
    }

    method Record(id: Id, row: RowId, state: RowState, leaving: bool)
      requires Between(View()) && id in deps && row in deps[id].rows
      modifies this`deps
      ensures View() == Next(old(View()), On(id, Reporting(row, state, leaving)))
    {
      var env := Env(online, closed, UpdatingNode().Some?, Taken(deps, id));
      var p := React(SetRow(deps[id], row, state), env, row, state, leaving);
      assert p == Act(deps[id], EnvOf(View(), id), Reporting(row, state, leaving));
      deps := deps[id := p];
    }

    /** What a report means for the deployment, once its row is recorded. */
    method React(recorded: Dep, env: Env, row: RowId, state: RowState, leaving: bool) returns (p: Dep)
      requires row in recorded.rows
      ensures p == Deployments.OnAssignmentState(recorded, env, row, state, leaving)
    {
      p := recorded;
      if p.rows[row].retired || p.reconnecting {
        return;
      }
      if p.external.Some? && p.running && (p.status.Ready? || p.status.Loading?) {
        if (state == RowFailed || state == RowStopped) && p.status.Ready? {
          p := p.(status := Loading, endpoint := None);
        } else if state == RowReady && p.status.Loading? {
          p := p.(status := Ready, endpoint := Some(p.rows[row].node));
        }
        return;
      }
      if (state == RowFailed || state == RowStopped) && !leaving {
        p := Deployments.Fail(p, env);
      }
    }

    /** A node came back: one greeting for each of its rows, in the order listed, and only the first wanted watch
        of a deployment is not a duplicate. */
    method OnHello(node: Node, rows: seq<(Id, RowId)>, have: map<RowId, RowState>) returns (ghost es: seq<Event>)
      requires Between(View())
      requires forall d, r :: (d, r) in rows <==> d in deps && r in deps[d].rows && deps[d].rows[r].node == node
      modifies this`deps
      ensures View() == After(old(View()), es)
      ensures |es| == |rows| && forall k :: 0 <= k < |rows| ==> Greets(old(View()), es, rows, have, k)
    {
      es := [];
      ghost var s := View();
      var externalSeen: set<Id> := {};
      for k := 0 to |rows|
        invariant Between(View()) && View() == After(s, es) && |es| == k && SoFar(s, es, rows, have, externalSeen)
      {
        var (d, r) := rows[k];
        var reported := if r in have then Some(have[r]) else None;
        ghost var e := On(d, Greeting(r, reported, d in externalSeen));
        ghost var seen := externalSeen;
        externalSeen := GreetNext(d, r, reported, externalSeen);
        SoFarNext(s, es, rows, have, seen, e, externalSeen);
        es := es + [e];
      }
    }

    method GreetNext(id: Id, row: RowId, reported: Option<RowState>, seen: set<Id>) returns (more: set<Id>)
      requires Between(View())
      modifies this`deps
      ensures Between(View()) && View() == Next(old(View()), On(id, Greeting(row, reported, id in seen)))
      ensures more == if Hailed(old(View()), id, row) then seen + {id} else seen
    {
      more := seen;
      if id in deps && row in deps[id].rows && deps[id].external.Some? && Wants(deps[id], row) {
        more := more + {id};
      }
      GreetingKeepsBetween(View(), id, row, reported, id in seen);
      Greet(id, row, reported, id in seen);
    }

    method Greet(id: Id, row: RowId, reported: Option<RowState>, duplicate: bool)
      requires Between(View())
      modifies this`deps
      ensures View() == Next(old(View()), On(id, Greeting(row, reported, duplicate)))
    {
      if id in deps && row in deps[id].rows {
        var env := Env(online, closed, UpdatingNode().Some?, Taken(deps, id));
        var p := Deployments.Greet(deps[id], env, row, reported, duplicate);
        assert p == Act(deps[id], EnvOf(View(), id), Greeting(row, reported, duplicate));
        deps := deps[id := p];
      } else if id in deps {
        assert deps[id := deps[id]] == deps;
      }
    }

    // ---------- routing and leases ----------

    /** The deployments a request may go to. */
    method Routing(ids: seq<Id>) returns (table: seq<Id>)
      requires forall d :: d in deps ==> d in ids
      ensures forall d :: d in table <==> Routable(View(), d)
    {
      table := [];
      for k := 0 to |ids|
        invariant forall d :: d in table <==> d in ids[..k] && Routable(View(), d)
      {
        var d := ids[k];
        assert ids[..k + 1] == ids[..k] + [d];
        if d in deps && deps[d].status.Ready? && deps[d].endpoint.Some? {
          var nodes := Nodes(deps[d]);
          if !(UpdatingNode().Some? && UpdatingNode().value in nodes) {
            table := table + [d];
          }
        }
      }
      assert ids[..|ids|] == ids;
    }

    /** Admission: the choice from the table and the count are one step. */
    method Admit(req: Req, id: Id) returns (ok: bool)
      modifies this`deps, this`open
      ensures View() == Next(old(View()), DeploymentRuns.Admit(req, id))
      ensures ok <==> Routable(old(View()), id) && req !in old(open)
      ensures ok ==> open == old(open)[req := id] && id in deps && deps[id].inflight == old(deps)[id].inflight + 1
    {
      ok := id in deps && deps[id].status.Ready? && deps[id].endpoint.Some? && req !in open
            && !(UpdatingNode().Some? && UpdatingNode().value in Nodes(deps[id]));
      if ok {
        deps := deps[id := deps[id].(inflight := deps[id].inflight + 1)];
        open := open[req := id];
      }
    }

    method ReleaseUpdate(node: Node, token: nat) returns (ok: bool)
      modifies this`updateLease
      ensures View() == Next(old(View()), Release(node, token))
      ensures ok <==> old(updateLease).Some? && old(updateLease).value.node == node && old(updateLease).value.token == token
      ensures updateLease == if ok then None else old(updateLease)
    {
      ok := updateLease.Some? && updateLease.value.node == node && updateLease.value.token == token;
      if ok {
        updateLease := None;
      }
    }

    /** Grants a lease on a node when nothing is under way, the last one's routes are back and its own are idle. */
    method AcquireUpdate(node: Node, ids: seq<Id>) returns (lease: Option<Lease>)
      requires forall d :: d in deps <==> d in ids
      modifies this`updateLease, this`updateRecovery, this`granted
      ensures View() == Next(old(View()), Acquire(node))
      ensures lease.Some? <==> Grants(old(View()), node)
      ensures lease.Some? ==> updateLease == lease && lease.value.node == node && lease.value.expiresAt == clock + LEASE_MS
      ensures lease.None? ==> updateLease == old(updateLease)
    {
      ghost var s := View();
      if closed || node !in online || UpdatingNode().Some? {
        return None;
      }
      var quiet := CheckQuiet(ids);
      if !quiet {
        return None;
      }
      PruneRecovery();
      ghost var unsettled := set c | c in s.recovery && !Settled(s, c);
      assert updateRecovery == unsettled;
      if updateRecovery != {} {
        assert !Grants(s, node) by {
          var d :| d in unsettled;
          assert d in s.recovery && !Settled(s, d);
        }
        return None;
      }
      assert forall d :: d in s.recovery ==> Settled(s, d) by {
        forall d | d in s.recovery ensures Settled(s, d) {
          assert d !in unsettled;
        }
      }
      var free, affected := Affected(node, ids);
      if !free {
        return None;
      }
      updateRecovery := affected;
      updateLease := Some(Lease(node, granted, clock + LEASE_MS));
      granted := granted + 1;
      return updateLease;
    }

    method CheckQuiet(ids: seq<Id>) returns (quiet: bool)
      requires forall d :: d in deps <==> d in ids
      ensures quiet <==> Quiet(View())
    {
      quiet := !busy;
      for k := 0 to |ids|
        invariant quiet <==> !busy && forall j :: 0 <= j < k ==> deps[ids[j]].ops == [] && !deps[ids[j]].reconnecting
      {
        if deps[ids[k]].ops != [] || deps[ids[k]].reconnecting {
          quiet := false;
        }
      }
      assert quiet ==> Quiet(View()) by {
        forall d | quiet && d in deps ensures deps[d].ops == [] && !deps[d].reconnecting {
          var j :| 0 <= j < |ids| && ids[j] == d;
        }
      }
    }

    /** Deployments that have recovered, or need not, no longer hold up a lease. */
    method PruneRecovery()
      modifies this`updateRecovery
      ensures updateRecovery == set d | d in old(updateRecovery) && !Settled(old(View()), d)
    {
      var left, kept := updateRecovery, {};
      ghost var s := View();
      while left != {}
        invariant left <= s.recovery
        invariant kept == set d | d in s.recovery - left && !Settled(s, d)
        decreases |left|
      {
        var id :| id in left;
        left := left - {id};
        if id in deps && !deps[id].status.Ready? && deps[id].running {
          kept := kept + {id};
        }
      }
      updateRecovery := kept;
    }

    /** Whether the node is idle, and the routes its update withdraws. */
    method Affected(node: Node, ids: seq<Id>) returns (free: bool, affected: set<Id>)
      requires forall d :: d in deps <==> d in ids
      ensures free <==> forall d :: d in deps && node in Nodes(deps[d]) ==> deps[d].inflight == 0
      ensures free ==> affected == set d | d in deps && node in Nodes(deps[d]) && deps[d].status.Ready? && deps[d].running
    {
      free, affected := true, {};
      for k := 0 to |ids|
        invariant free <==> forall j :: 0 <= j < k && node in Nodes(deps[ids[j]]) ==> deps[ids[j]].inflight == 0
        invariant affected == set d | d in ids[..k] && node in Nodes(deps[d]) && deps[d].status.Ready? && deps[d].running
      {
        var d := ids[k];
        assert ids[..k + 1] == ids[..k] + [d];
        if node in Nodes(deps[d]) && deps[d].inflight > 0 {
          free := false;
        }
        if node in Nodes(deps[d]) && deps[d].status.Ready? && deps[d].running {
          affected := affected + {d};
        }
      }
      assert ids[..|ids|] == ids;
      assert free ==> forall d :: d in deps && node in Nodes(deps[d]) ==> deps[d].inflight == 0 by {
        forall d | free && d in deps && node in Nodes(deps[d]) ensures deps[d].inflight == 0 {
          var j :| 0 <= j < |ids| && ids[j] == d;
        }
      }
    }
  }
}
