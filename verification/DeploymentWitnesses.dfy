/** Runs that show where the lease's isolation does not hold, and what the endpoint law asks of agents. */
module DeploymentWitnesses {
  import opened Outcomes
  import opened Deployments
  import opened DeploymentRuns
  import opened DeploymentSafety
  import opened DeploymentLease

  // ---------- runs of one external deployment ----------

  /** An external deployment on node 7 with these rows, whose only operation is a start at this point. */
  function Ext(status: Status, running: bool, generation: nat, pc: Option<Pc>, rows: map<RowId, Row>, revived: bool): Dep {
    Dep(status, if status.Ready? then Some(7) else None, None, Some(External(7, 0)), running, generation,
        if pc.Some? then [Op(StartOp(generation, true), pc.value)] else [], false, 0, rows, revived)
  }

  function Fresh(): Dep {
    Ext(Planned, false, 0, None, map[], false)
  }

  function Live(r: RowId): map<RowId, Row> {
    map[r := Row(7, false, RowReady)]
  }

  predicate Running(env: Env) {
    !env.closed && !env.updating && !env.taken && 7 in env.online
  }

  lemma Started(p: Dep, env: Env, status: Status, running: bool, g: nat, rows: map<RowId, Row>, revived: bool)
    requires Running(env) && Leads(p, env, Ext(status, running, g, None, rows, revived))
    requires status.Planned? || status.Stopped? || status.Failed?
    ensures Leads(p, env, Ext(Placing, true, g, Some(Queued), rows, revived))
  {
    Step(p, env, Ext(status, running, g, None, rows, revived), Starting(false, false, true), Ext(Placing, true, g, Some(Queued), rows, revived));
  }

  lemma Begun(p: Dep, env: Env, g: nat, rows: map<RowId, Row>, revived: bool)
    requires Running(env) && Leads(p, env, Ext(Placing, true, g, Some(Queued), rows, revived)) && AllStopped(rows)
    ensures Leads(p, env, Ext(Placing, true, g, Some(Tearing([])), rows, revived))
  {
    Step(p, env, Ext(Placing, true, g, Some(Queued), rows, revived), Beginning([]), Ext(Placing, true, g, Some(Tearing([])), rows, revived));
  }

  lemma Cleared(p: Dep, env: Env, status: Status, g: nat, rows: map<RowId, Row>, revived: bool)
    requires Running(env) && Leads(p, env, Ext(status, true, g, Some(Tearing([])), rows, revived)) && AllStopped(rows)
    ensures Leads(p, env, Ext(status, true, g, Some(Pc.Cleared), rows, revived))
  {
    Step(p, env, Ext(status, true, g, Some(Tearing([])), rows, revived), EndingTear([]), Ext(status, true, g, Some(Pc.Cleared), rows, revived));
  }

  lemma Finished(p: Dep, env: Env, q: Dep, r: Dep)
    requires Leads(p, env, q) && |q.ops| == 1 && q.ops[0].pc.Over? && r == q.(ops := [])
    ensures Leads(p, env, r)
  {
    assert q.ops[1..] == [];
    Step(p, env, q, Reaping, r);
  }

  /** A start with nothing left to stop sends its watch. */
  lemma Sending(p: Dep, env: Env, status: Status, g: nat, r: RowId, rows: map<RowId, Row>)
    requires Running(env) && Leads(p, env, Ext(status, false, g, None, rows, false)) && AllStopped(rows) && r !in rows
    requires status.Planned? || status.Stopped?
    ensures Leads(p, env, Ext(Loading, true, g, Some(Building), rows[r := Row(7, false, Sent)], false))
  {
    Started(p, env, status, false, g, rows, false);
    Begun(p, env, g, rows, false);
    Cleared(p, env, Placing, g, rows, false);
    Step(p, env, Ext(Placing, true, g, Some(Pc.Cleared), rows, false), Watching(r, []),
         Ext(Loading, true, g, Some(Building), rows[r := Row(7, false, Sent)], false));
  }

  /** A report the deployment does not react to. */
  lemma Noted(p: Dep, env: Env, q: Dep, r: RowId, state: RowState, rows: map<RowId, Row>, revived: bool)
    requires Leads(p, env, q) && !Due(q) && r in q.rows && rows == q.rows[r := q.rows[r].(state := state)]
    requires revived == (q.revived || (q.rows[r].state == RowStopped && state != RowStopped))
    requires q.rows[r].retired || (state == RowReady && q.status.Failed?)
    ensures Leads(p, env, q.(rows := rows, revived := revived))
  {
    Step(p, env, q, Reporting(r, state, false), q.(rows := rows, revived := revived));
  }

  /** A stop of a deployment whose rows are all stopped. */
  lemma StopBegun(p: Dep, env: Env, g: nat, rows: map<RowId, Row>)
    requires Running(env) && Leads(p, env, Ext(Loading, true, g, None, rows, false)) && AllStopped(rows)
    ensures Leads(p, env, Ext(Draining, false, g + 1, None, rows, false).(ops := [Op(StopOp, Tearing([]))]))
  {
    var down := Ext(Draining, false, g + 1, None, rows, false);
    Step(p, env, Ext(Loading, true, g, None, rows, false), Stopping, down.(ops := [Op(StopOp, Queued)]));
    Step(p, env, down.(ops := [Op(StopOp, Queued)]), Beginning([]), down.(ops := [Op(StopOp, Tearing([]))]));
  }

  lemma StopDone(p: Dep, env: Env, g: nat, rows: map<RowId, Row>)
    requires Running(env) && AllStopped(rows)
    requires Leads(p, env, Ext(Draining, false, g, None, rows, false).(ops := [Op(StopOp, Tearing([]))]))
    ensures Leads(p, env, Ext(Stopped, false, g, None, rows, false))
  {
    var down := Ext(Draining, false, g, None, rows, false);
    Step(p, env, down.(ops := [Op(StopOp, Tearing([]))]), EndingTear([]), down.(ops := [Op(StopOp, Pc.Cleared)]));
    Step(p, env, down.(ops := [Op(StopOp, Pc.Cleared)]), Proceeding, down.(status := Stopped, ops := [Op(StopOp, Over)]));
    Finished(p, env, down.(status := Stopped, ops := [Op(StopOp, Over)]), Ext(Stopped, false, g, None, rows, false));
  }

  /** It is started and becomes ready. */
  lemma Launch(env: Env)
    requires Running(env)
    ensures Leads(Fresh(), env, Ext(Ready, true, 0, None, Live(0), false))
  {
    var p := Fresh();
    Here(p, env);
    Sending(p, env, Planned, 0, 0, map[]);
    var building := Ext(Loading, true, 0, Some(Building), map[0 := Row(7, false, Sent)], false);
    assert building.rows[0 := Row(7, false, RowReady)] == Live(0);
    Step(p, env, building, Reporting(0, RowReady, false), Ext(Ready, true, 0, Some(Building), Live(0), false));
    assert IsTodo(Live(0), [0]);
    Step(p, env, Ext(Ready, true, 0, Some(Building), Live(0), false), Publishing(7, [0]), Ext(Ready, true, 0, Some(Over), Live(0), false));
    Finished(p, env, Ext(Ready, true, 0, Some(Over), Live(0), false), Ext(Ready, true, 0, None, Live(0), false));
  }

  // ---------- a flapped external beside a grantable lease ----------

  function Empty(): Control {
    Control(map[], {7}, 0, None, {}, false, false, 0, map[])
  }

  function Serving(): Control {
    Empty().(deps := map[0 := Ext(Ready, true, 0, None, Live(0), false)])
  }

  function Loaded(): Control {
    Serving().(deps := map[0 := Ext(Ready, true, 0, None, Live(0), false).(inflight := 1)], open := map[5 := 0])
  }

  function Flapping(): Control {
    Loaded().(deps := map[0 := Ext(Loading, true, 0, None, map[0 := Row(7, false, RowFailed)], false).(inflight := 1)])
  }

  lemma Snoc(s: Control, es: seq<Event>, e: Event)
    ensures After(s, es + [e]) == Next(After(s, es), e)
  {
    assert (es + [e])[..|es|] == es;
  }

  lemma Created(d: Dep) returns (es: seq<Event>)
    requires Leads(Fresh(), Env({7}, false, false, false), d)
    ensures After(Empty(), es) == Empty().(deps := map[0 := d])
  {
    var s := Empty().(deps := map[0 := Fresh()]);
    var first: seq<Event> := [Create(0, Some(External(7, 0)))];
    assert After(Empty(), first) == s by {
      assert first[..0] == [];
      assert Requests(Empty().open, 0) == {};
    }
    assert EnvOf(s, 0) == Env({7}, false, false, false);
    var acts :| ActAll(Fresh(), EnvOf(s, 0), acts) == d;
    Lift(s, 0, acts);
    assert s.deps[0 := d] == map[0 := d];
    AfterJoin(Empty(), first, Ons(0, acts));
    es := first + Ons(0, acts);
  }

  lemma FlapSteps()
    ensures Next(Serving(), Admit(5, 0)) == Loaded()
    ensures Next(Loaded(), On(0, Reporting(0, RowFailed, false))) == Flapping()
  {
    var up := Serving().deps[0];
    assert Serving().deps[0 := up.(inflight := 1)] == Loaded().deps;
    var p := Loaded().deps[0];
    assert p.rows[0 := Row(7, false, RowFailed)] == map[0 := Row(7, false, RowFailed)];
    assert Act(p, EnvOf(Loaded(), 0), Reporting(0, RowFailed, false)) == Flapping().deps[0];
    assert Loaded().deps[0 := Flapping().deps[0]] == Flapping().deps;
  }

  /** A grantable lease on a node where an external deployment has flapped with a request in flight. */
  lemma FlapIsReachable() returns (es: seq<Event>)
    ensures Initial(Empty()) && Grants(After(Empty(), es), 7)
    ensures 0 in After(Empty(), es).deps && Flapped(After(Empty(), es).deps[0], 7) && !After(Empty(), es).deps[0].revived
  {
    Launch(Env({7}, false, false, false));
    es := Created(Serving().deps[0]);
    FlapSteps();
    Snoc(Empty(), es, Admit(5, 0));
    es := es + [Admit(5, 0)];
    Snoc(Empty(), es, On(0, Reporting(0, RowFailed, false)));
    es := es + [On(0, Reporting(0, RowFailed, false))];
    assert 0 in Flapping().deps[0].rows;
  }

  // ---------- what the endpoint law asks of agents ----------

  /** Row 0 reported stopped but never retired, row 1 retired and not yet stopped. */
  function Rows(zero: Row, one: Row): map<RowId, Row> {
    map[0 := zero, 1 := one]
  }

  /** The watch reports itself stopped and the deployment is stopped, so the row is not retired. */
  lemma Halted(env: Env)
    requires Running(env)
    ensures Leads(Fresh(), env, Ext(Stopped, false, 1, None, map[0 := Row(7, false, RowStopped)], false))
  {
    var p, rows := Fresh(), map[0 := Row(7, false, RowStopped)];
    Launch(env);
    assert Live(0)[0 := Row(7, false, RowStopped)] == rows;
    Step(p, env, Ext(Ready, true, 0, None, Live(0), false), Reporting(0, RowStopped, false), Ext(Loading, true, 0, None, rows, false));
    StopBegun(p, env, 0, rows);
    StopDone(p, env, 1, rows);
  }

  /** A start gives up on its watch and retires it, without an acknowledgement. */
  lemma GivenUp(p: Dep, env: Env, sent: map<RowId, Row>, gone: map<RowId, Row>)
    requires Running(env) && Leads(p, env, Ext(Loading, true, 1, Some(Building), sent, false))
    requires IsTodo(sent, [1]) && IsTodo(gone, [1]) && gone == sent[1 := sent[1].(retired := true)]
    ensures Leads(p, env, Ext(Failed, true, 1, None, gone, false))
  {
    assert [1][1..] == [];
    Step(p, env, Ext(Loading, true, 1, Some(Building), sent, false), Aborting([1]), Ext(Failed, true, 1, Some(Retearing([])), gone, false));
    ToldOnly(p, env, gone);
  }

  lemma ToldOnly(p: Dep, env: Env, gone: map<RowId, Row>)
    requires Leads(p, env, Ext(Failed, true, 1, Some(Retearing([])), gone, false)) && IsTodo(gone, [1])
    ensures Leads(p, env, Ext(Failed, true, 1, None, gone, false))
  {
    Step(p, env, Ext(Failed, true, 1, Some(Retearing([])), gone, false), EndingTear([1]), Ext(Failed, true, 1, Some(Over), gone, false));
    Finished(p, env, Ext(Failed, true, 1, Some(Over), gone, false), Ext(Failed, true, 1, None, gone, false));
  }

  /** The next start fails and retires its own watch; then the old one reports ready again. */
  lemma Revived(env: Env)
    requires Running(env)
    ensures Leads(Fresh(), env, Ext(Failed, true, 1, None, Rows(Row(7, false, RowReady), Row(7, true, Sent)), true))
  {
    Halted(env);
    var before := map[0 := Row(7, false, RowStopped)];
    Sending(Fresh(), env, Stopped, 1, 1, before);
    var sent, gone := Rows(Row(7, false, RowStopped), Row(7, false, Sent)), Rows(Row(7, false, RowStopped), Row(7, true, Sent));
    assert before[1 := Row(7, false, Sent)] == sent && sent[1 := Row(7, true, Sent)] == gone;
    GivenUp(Fresh(), env, sent, gone);
    var back := Rows(Row(7, false, RowReady), Row(7, true, Sent));
    assert gone[0 := Row(7, false, RowReady)] == back;
    Noted(Fresh(), env, Ext(Failed, true, 1, None, gone, false), 0, RowReady, back, true);
  }

  /** The teardown of a start begins with row 1 and leaves row 0 for later. */
  lemma Awaiting(p: Dep, env: Env, rows: map<RowId, Row>)
    requires Running(env) && Leads(p, env, Ext(Placing, true, 1, Some(Queued), rows, true))
    requires IsTodo(rows, [1, 0]) && rows[1].retired
    ensures Leads(p, env, Ext(Placing, true, 1, Some(Tearing([0])), rows, true))
  {
    assert [1, 0][1..] == [0] && rows[1 := rows[1].(retired := true)] == rows;
    Step(p, env, Ext(Placing, true, 1, Some(Queued), rows, true), Beginning([1, 0]), Ext(Placing, true, 1, Some(Tearing([0])), rows, true));
  }

  /** Its node drops out and returns, and row 0 puts the deployment back into routing. */
  lemma BackInRouting(p: Dep, env: Env, rows: map<RowId, Row>)
    requires Running(env) && Leads(p, env, Ext(Placing, true, 1, Some(Tearing([0])), rows, true))
    requires 0 in rows && rows[0] == Row(7, false, RowReady)
    ensures Leads(p, env, Ext(Ready, true, 1, Some(Tearing([0])), rows, true))
  {
    Step(p, env, Ext(Placing, true, 1, Some(Tearing([0])), rows, true), LosingNode(7), Ext(Loading, true, 1, Some(Tearing([0])), rows, true));
    assert rows[0 := Row(7, false, RowReady)] == rows;
    Step(p, env, Ext(Loading, true, 1, Some(Tearing([0])), rows, true), Reporting(0, RowReady, false),
         Ext(Ready, true, 1, Some(Tearing([0])), rows, true));
  }

  lemma Retired(p: Dep, env: Env, rows: map<RowId, Row>, gone: map<RowId, Row>)
    requires Running(env) && Leads(p, env, Ext(Ready, true, 1, Some(Tearing([0])), rows, true))
    requires 0 in rows && gone == rows[0 := rows[0].(retired := true)]
    ensures Leads(p, env, Ext(Ready, true, 1, Some(Tearing([])), gone, true))
  {
    assert [0][1..] == [];
    Step(p, env, Ext(Ready, true, 1, Some(Tearing([0])), rows, true), TearingRow, Ext(Ready, true, 1, Some(Tearing([])), gone, true));
  }

  /** While the next start waits for the one row, the other puts the deployment back into routing and is retired. */
  lemma Overtaken(env: Env)
    requires Running(env)
    ensures Leads(Fresh(), env, Ext(Ready, true, 1, Some(Tearing([])), Rows(Row(7, true, RowReady), Row(7, true, Sent)), true))
  {
    var rows, gone := Rows(Row(7, false, RowReady), Row(7, true, Sent)), Rows(Row(7, true, RowReady), Row(7, true, Sent));
    Revived(env);
    Started(Fresh(), env, Failed, true, 1, rows, true);
    Awaiting(Fresh(), env, rows);
    BackInRouting(Fresh(), env, rows);
    assert rows[0 := Row(7, true, RowReady)] == gone;
    Retired(Fresh(), env, rows, gone);
  }

  /** Both rows stop once retired, and the start goes on with the deployment in routing. */
  lemma StagedInRouting(env: Env)
    requires Running(env)
    ensures Leads(Fresh(), env, Ext(Ready, true, 1, Some(Pc.Cleared), Rows(Row(7, true, RowStopped), Row(7, true, RowStopped)), true))
  {
    var one, stopped := Row(7, true, Sent), Row(7, true, RowStopped);
    Overtaken(env);
    assert Rows(Row(7, true, RowReady), one)[0 := stopped] == Rows(stopped, one);
    Noted(Fresh(), env, Ext(Ready, true, 1, Some(Tearing([])), Rows(Row(7, true, RowReady), one), true), 0, RowStopped, Rows(stopped, one), true);
    assert Rows(stopped, one)[1 := stopped] == Rows(stopped, stopped);
    Noted(Fresh(), env, Ext(Ready, true, 1, Some(Tearing([])), Rows(stopped, one), true), 1, RowStopped, Rows(stopped, stopped), true);
    Cleared(Fresh(), env, Ready, 1, Rows(stopped, stopped), true);
  }

  /** An agent that reports life for a stopped watch can leave its deployment loading with an endpoint. */
  lemma RevivalBreaksLaw() returns (es: seq<Event>)
    ensures Initial(Empty()) && 0 in After(Empty(), es).deps && !Law(After(Empty(), es).deps[0])
  {
    var env := Env({7}, false, false, false);
    StagedInRouting(env);
    var cleared := Ext(Ready, true, 1, Some(Pc.Cleared), Rows(Row(7, true, RowStopped), Row(7, true, RowStopped)), true);
    var broken := Act(cleared, env, Watching(2, []));
    assert IsTodo(cleared.rows, []);
    Step(Fresh(), env, cleared, Watching(2, []), broken);
    es := Created(broken);
  }
}
