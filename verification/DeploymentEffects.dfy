/** What the events of a deployment do to its fields: a lost node, a report, a node's return, a restart of control. */
module DeploymentEffects {
  import opened Outcomes
  import opened Deployments
  import opened DeploymentRuns

  // ---------- a node is lost ----------

  predicate HasLive(p: Dep, node: Node) {
    exists r :: r in p.rows && p.rows[r].node == node && p.rows[r].state != RowStopped
  }

  /** The deployment is placed on the node, or still has an assignment there. */
  predicate Touches(p: Dep, node: Node) {
    HasLive(p, node) || (p.plan.Some? && node in p.plan.value)
  }

  predicate AtRest(p: Dep) {
    p.status.Stopped? || p.status.Failed? || p.status.Planned? || p.status.Draining?
  }

  /** Earlier starts are void, the route is gone and a teardown waits in the queue. */
  predicate Withdrawn(p: Dep, q: Dep) {
    q.generation == p.generation + 1 && q.endpoint.None? && q.ops == p.ops + [Op(TeardownOp, Queued)]
  }

  /** What becomes of p when the node is lost. */
  ghost predicate Lost(p: Dep, q: Dep, node: Node) {
    if !p.running || AtRest(p) || p.reconnecting || !Touches(p, node) then q == p
    else if p.external.Some? && HasLive(p, node) then q == p.(status := Loading, endpoint := None)
    else
      && q.reconnecting && q.status.Loading? && Withdrawn(p, q)
      && q.running && q.rows == p.rows && q.plan == p.plan && q.external == p.external
      && q.inflight == p.inflight && q.revived == p.revived
  }

  lemma LossLoses(p: Dep, env: Env, node: Node)
    requires !env.closed && !Due(p)
    ensures Lost(p, Act(p, env, LosingNode(node)), node)
  {
  }

  /** To lose a node again changes nothing more. */
  lemma LostAgain(p: Dep, q: Dep, node: Node, r: Dep)
    requires Lost(p, q, node) && Lost(q, r, node)
    ensures Lost(p, r, node)
  {
    assert HasLive(q, node) <==> HasLive(p, node);
  }

  /** Whatever is placed on a lost node, or has an assignment there, has no route any more. */
  lemma LostHasNoRoute(p: Dep, q: Dep, node: Node, online: set<Node>)
    requires Good(p, online) && Lost(p, q, node) && Touches(p, node)
    ensures q.endpoint.None? && !q.status.Ready?
  {
  }

  // ---------- a report ----------

  predicate Dead(state: RowState) {
    state == RowFailed || state == RowStopped
  }

  /** The deployment would be hurt by the death of this engine. */
  predicate Depends(p: Dep, r: RowId) {
    r in p.rows && !p.rows[r].retired && !p.reconnecting && p.external.None?
    && !p.status.Failed? && !p.status.Stopped? && !p.status.Draining?
  }

  /** An engine that dies on its own takes its deployment out of routing for good. */
  lemma DeadEngineFails(p: Dep, env: Env, r: RowId, state: RowState)
    requires Depends(p, r) && !Due(p) && !env.closed && Dead(state)
    ensures
      var q := Act(p, env, Reporting(r, state, false));
      q.status.Failed? && Withdrawn(p, q) && q.running == p.running && q.plan == p.plan
  {
  }

  /** The same in control as a whole. */
  lemma DeadEngineWithdraws(s: Control, d: Id, r: RowId, state: RowState)
    requires d in s.deps && Depends(s.deps[d], r) && !Due(s.deps[d]) && !s.closed && Dead(state)
    ensures
      var t := Next(s, On(d, Reporting(r, state, false)));
      d in t.deps && t.deps[d].status.Failed? && Withdrawn(s.deps[d], t.deps[d]) && !Routable(t, d)
  {
    DeadEngineFails(s.deps[d], EnvOf(s, d), r, state);
  }

  /** A watched server leaves routing with its health and returns with it. */
  lemma WatchFollowsHealth(p: Dep, env: Env, r: RowId, state: RowState, leaving: bool)
    requires r in p.rows && !Due(p) && !p.rows[r].retired && !p.reconnecting && p.external.Some? && p.running
    ensures
      var q := Act(p, env, Reporting(r, state, leaving));
      && (p.status.Ready? && Dead(state) ==> q.status.Loading? && q.endpoint.None?)
      && (p.status.Loading? && state == RowReady ==> q.status.Ready? && q.endpoint == Some(p.rows[r].node))
      && (p.status.Ready? || p.status.Loading? ==> q.generation == p.generation && q.ops == p.ops && q.running)
  {
  }

  // ---------- a node's return ----------

  /** A row its node does not run is stopped for control too, unless it is a watch to be sent again. */
  lemma AbsentIsStopped(p: Dep, env: Env, r: RowId, duplicate: bool)
    requires r in p.rows && !Due(p)
    ensures
      var q := Act(p, env, Greeting(r, None, duplicate));
      var expected := Wants(p, r) && p.rows[r].state != RowStopped;
      && r in q.rows
      && (if expected && p.external.Some? && !duplicate then !q.rows[r].retired && q.rows[r].state == Sent
          else q.rows[r].retired && q.rows[r].state == RowStopped)
      && (expected && p.external.None? && !env.closed ==> q.status.Failed? && Withdrawn(p, q))
  {
  }

  /** A row nobody wants is told to stop. */
  lemma UnwantedIsRetired(p: Dep, env: Env, r: RowId, state: RowState, duplicate: bool)
    requires r in p.rows && !Due(p) && state != RowStopped && (!Wants(p, r) || duplicate)
    ensures Act(p, env, Greeting(r, Some(state), duplicate)).rows == p.rows[r := p.rows[r].(retired := true, state := state)]
  {
    var q := SetRow(p, r, state);
    assert Wants(q, r) == Wants(p, r);
  }

  lemma FailedOnReturn(p: Dep, env: Env, r: RowId)
    requires r in p.rows && !Due(p) && Wants(p, r) && p.external.None? && !env.closed
    ensures
      var q := Act(p, env, Greeting(r, Some(RowFailed), false));
      q.status.Failed? && Withdrawn(p, q)
  {
    var q := SetRow(p, r, RowFailed);
    assert Wants(q, r);
  }

  // ---------- a restart of control ----------

  /** After a restart nothing is routed; a watched server meant to run waits for its health, other deployments meant to
      run have failed and wait to be started again, and the rest goes on draining. */
  lemma RestartWithdraws(p: Dep, running: bool, duplicate: bool)
    requires Routes(p)
    ensures
      var q := Restored(p, running, duplicate);
      && q.endpoint.None? && !q.status.Ready? && q.rows == p.rows
      && (running && p.external.None? ==> q.status.Failed? && q.running)
      && (running && p.external.Some? && !duplicate ==>
            q.running && if exists w :: w in p.rows && !p.rows[w].retired then q.status.Loading? else q.status.Failed?)
      && (running && p.external.Some? && duplicate ==> q.status.Stopped? && !q.running)
      && (!running ==> !q.running && if AtRest(p) && !p.status.Draining? then q.status == p.status else q.status.Draining?)
  {
  }
}
