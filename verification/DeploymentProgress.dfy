/**
 What the deployment protocol gets done: a start that is accepted can be brought to a published endpoint, a stop
 to its end from wherever the deployment stands, and a deployment that lost a node back into routing.
 */
module DeploymentProgress {
  import opened Outcomes
  import opened Deployments
  import DeploymentSteps
  import opened DeploymentRuns
  import opened DeploymentSafety
  import opened DeploymentEffects

  // ---------- assignments stop ----------

  function Unstopped(rows: map<RowId, Row>): set<RowId> {
    set r | r in rows && rows[r].state != RowStopped
  }

  /** The same assignments, all of them stopped. */
  function Halted(rows: map<RowId, Row>): map<RowId, Row> {
    map r | r in rows :: rows[r].(state := RowStopped)
  }

  function RetiredIn(rows: map<RowId, Row>, todo: seq<RowId>): map<RowId, Row> {
    map r | r in rows :: rows[r].(retired := rows[r].retired || r in todo)
  }

  lemma {:induction false} Listing(rest: set<RowId>) returns (todo: seq<RowId>)
    ensures forall r :: r in todo <==> r in rest
    decreases |rest|
  {
    if rest == {} {
      todo := [];
    } else {
      var r :| r in rest;
      var more := Listing(rest - {r});
      todo := [r] + more;
    }
  }

  /** A teardown can list what is to stop. */
  lemma TodoOf(rows: map<RowId, Row>) returns (todo: seq<RowId>)
    ensures IsTodo(rows, todo)
  {
    todo := Listing(Unstopped(rows));
    forall r | r in rows && rows[r].state != RowStopped ensures r in todo {
      assert r in Unstopped(rows);
    }
    forall r | r in todo ensures r in rows && rows[r].state != RowStopped {
      assert r in Unstopped(rows);
    }
  }

  /** A stopped report on this row only records it. */
  predicate DeafTo(p: Dep, r: RowId)
    requires r in p.rows
  {
    p.rows[r].retired || p.reconnecting || p.status.Draining? || p.status.Stopped? || p.status.Failed?
  }

  ghost predicate Deaf(p: Dep) {
    forall r :: r in p.rows && p.rows[r].state != RowStopped ==> DeafTo(p, r)
  }

  lemma RowStops(p: Dep, env: Env, r: RowId)
    requires !Due(p) && r in p.rows && DeafTo(p, r)
    ensures Act(p, env, Reporting(r, RowStopped, false)) == p.(rows := p.rows[r := p.rows[r].(state := RowStopped)])
  {
  }

  lemma {:induction false} RowsStop(p: Dep, env: Env)
    requires !Due(p) && Deaf(p)
    ensures Leads(p, env, p.(rows := Halted(p.rows)))
    decreases |Unstopped(p.rows)|
  {
    if Unstopped(p.rows) == {} {
      assert Halted(p.rows) == p.rows by {
        forall r | r in p.rows ensures p.rows[r].state == RowStopped {
          assert r !in Unstopped(p.rows);
        }
      }
      Here(p, env);
    } else {
      var r :| r in Unstopped(p.rows);
      var rows := p.rows[r := p.rows[r].(state := RowStopped)];
      var q := p.(rows := rows);
      RowStops(p, env, r);
      Here(p, env);
      Step(p, env, p, Reporting(r, RowStopped, false), q);
      assert Unstopped(rows) == Unstopped(p.rows) - {r};
      assert Halted(rows) == Halted(p.rows);
      RowsStop(q, env);
      Onward(p, env, q, p.(rows := Halted(p.rows)));
    }
  }

  /** The teardown's loop over its list. */
  lemma {:induction false} ListRetires(p: Dep, env: Env, todo: seq<RowId>, again: bool)
    requires p.ops != [] && !env.closed && p.ops[0].pc == (if again then Retearing(todo) else Tearing(todo))
    ensures Leads(p, env, SetPc(p.(rows := RetiredIn(p.rows, todo)), if again then Retearing([]) else Tearing([])))
    decreases |todo|
  {
    Here(p, env);
    if todo == [] {
      assert RetiredIn(p.rows, todo) == p.rows;
      assert p.ops[0 := p.ops[0].(pc := p.ops[0].pc)] == p.ops;
    } else {
      var q := Tear(p, todo, again);
      Step(p, env, p, TearingRow, q);
      ListRetires(q, env, todo[1..], again);
      RetiredRest(p.rows, todo);
      SetTwice(p.ops, q.ops[0].pc, if again then Retearing([]) else Tearing([]));
      Onward(p, env, q, SetPc(p.(rows := RetiredIn(p.rows, todo)), if again then Retearing([]) else Tearing([])));
    }
  }

  lemma SetTwice(ops: seq<Op>, a: Pc, b: Pc)
    requires ops != []
    ensures
      var once := ops[0 := ops[0].(pc := a)];
      once[0 := once[0].(pc := b)] == ops[0 := ops[0].(pc := b)]
  {
  }

  lemma RetiredRest(rows: map<RowId, Row>, todo: seq<RowId>)
    requires todo != []
    ensures
      var next := if todo[0] in rows then rows[todo[0] := rows[todo[0]].(retired := true)] else rows;
      RetiredIn(next, todo[1..]) == RetiredIn(rows, todo)
  {
    assert forall r :: r in todo <==> r == todo[0] || r in todo[1..];
  }

  // ---------- the queue empties ----------

  /** No start at the head is the current one. */
  predicate Stale(p: Dep) {
    p.ops != [] && p.ops[0].kind.StartOp? ==> p.ops[0].kind.generation != p.generation
  }

  predicate Halting(op: Op) {
    op.kind.StopOp? && !op.pc.Over?
  }

  /** Rows as they were, as far as a finished deployment cares. */
  predicate SameStopped(a: map<RowId, Row>, b: map<RowId, Row>) {
    a.Keys == b.Keys && AllStopped(b)
  }

  function AfterHead(p: Dep, rows: map<RowId, Row>): Dep
    requires p.ops != []
  {
    p.(ops := p.ops[1..], rows := rows, status := if Halting(p.ops[0]) then Stopped else p.status)
  }

  lemma ClearedEnds(p: Dep, env: Env)
    requires p.ops != [] && p.ops[0].pc.Cleared? && AllStopped(p.rows) && Stale(p)
    ensures Leads(p, env, AfterHead(p, p.rows))
  {
    Here(p, env);
    var op := p.ops[0];
    var over := SetPc(p.(status := if Halting(op) then Stopped else p.status), Over);
    if op.kind.StartOp? {
      Step(p, env, p, Aborting([]), over);
    } else {
      Step(p, env, p, Proceeding, over);
    }
    OverEnds(over, env);
    assert over.ops[1..] == p.ops[1..];
    Onward(p, env, over, AfterHead(p, p.rows));
  }

  lemma OverEnds(p: Dep, env: Env)
    requires p.ops != [] && p.ops[0].pc.Over?
    ensures Leads(p, env, p.(ops := p.ops[1..]))
  {
    Here(p, env);
    Step(p, env, p, Reaping, p.(ops := p.ops[1..]));
  }

  lemma TornEnds(p: Dep, env: Env)
    requires p.ops != [] && p.ops[0].pc == Tearing([]) && AllStopped(p.rows) && Stale(p) && !env.closed
    ensures Leads(p, env, AfterHead(p, p.rows))
  {
    Here(p, env);
    var cleared := SetPc(p, Cleared);
    Step(p, env, p, EndingTear([]), cleared);
    ClearedEnds(cleared, env);
    assert AfterHead(cleared, p.rows) == AfterHead(p, p.rows);
    Onward(p, env, cleared, AfterHead(p, p.rows));
  }

  lemma TearingEnds(p: Dep, env: Env, todo: seq<RowId>)
    requires p.ops != [] && p.ops[0].pc == Tearing(todo) && AllStopped(p.rows) && Stale(p) && !env.closed
    ensures Leads(p, env, AfterHead(p, RetiredIn(p.rows, todo)))
  {
    ListRetires(p, env, todo, false);
    var torn := SetPc(p.(rows := RetiredIn(p.rows, todo)), Tearing([]));
    TornEnds(torn, env);
    assert torn.ops[1..] == p.ops[1..];
    Onward(p, env, torn, AfterHead(p, RetiredIn(p.rows, todo)));
  }

  lemma QueuedEnds(p: Dep, env: Env)
    requires p.ops != [] && p.ops[0].pc.Queued? && AllStopped(p.rows) && Stale(p) && !env.closed
    ensures Leads(p, env, AfterHead(p, p.rows))
  {
    Here(p, env);
    var begun := SetPc(p, Tearing([]));
    Step(p, env, p, Beginning([]), begun);
    TornEnds(begun, env);
    assert begun.ops[1..] == p.ops[1..];
    Onward(p, env, begun, AfterHead(p, p.rows));
  }

  lemma BuildingEnds(p: Dep, env: Env)
    requires p.ops != [] && p.ops[0].pc.Building? && p.ops[0].kind.StartOp? && AllStopped(p.rows) && Stale(p)
    ensures Leads(p, env, AfterHead(p, p.rows))
  {
    Here(p, env);
    var over := SetPc(p, Over);
    Step(p, env, p, Aborting([]), over);
    OverEnds(over, env);
    assert over.ops[1..] == p.ops[1..];
    Onward(p, env, over, AfterHead(p, p.rows));
  }

  lemma RetearingEnds(p: Dep, env: Env, todo: seq<RowId>)
    requires p.ops != [] && p.ops[0].pc == Retearing(todo) && p.ops[0].kind.StartOp? && AllStopped(p.rows) && !env.closed
    ensures Leads(p, env, AfterHead(p, RetiredIn(p.rows, todo)))
  {
    ListRetires(p, env, todo, true);
    var torn := SetPc(p.(rows := RetiredIn(p.rows, todo)), Retearing([]));
    var over := SetPc(torn, Over);
    Step(p, env, torn, EndingTear([]), over);
    OverEnds(over, env);
    assert over.ops[1..] == p.ops[1..];
    Onward(p, env, over, AfterHead(p, RetiredIn(p.rows, todo)));
  }

  /** The operation at the head comes to its end once every assignment is stopped. */
  lemma HeadEnds(p: Dep, env: Env) returns (rows: map<RowId, Row>)
    requires Orderly(p) && p.ops != [] && AllStopped(p.rows) && Stale(p) && !env.closed
    ensures SameStopped(p.rows, rows) && Leads(p, env, AfterHead(p, rows))
  {
    rows := p.rows;
    match p.ops[0].pc
    case Queued => QueuedEnds(p, env);
    case Tearing(todo) =>
      rows := RetiredIn(p.rows, todo);
      TearingEnds(p, env, todo);
    case Cleared => ClearedEnds(p, env);
    case Building => BuildingEnds(p, env);
    case Retearing(todo) =>
      rows := RetiredIn(p.rows, todo);
      RetearingEnds(p, env, todo);
    case Over =>
      OverEnds(p, env);
      assert AfterHead(p, rows) == p.(ops := p.ops[1..]);
  }

  /** A queue as it stands behind its head. */
  predicate Waiting(ops: seq<Op>) {
    forall i :: 0 <= i < |ops| ==> ops[i].pc.Queued? && !ops[i].kind.StartOp?
  }

  predicate HasStop(ops: seq<Op>) {
    exists i :: 0 <= i < |ops| && Halting(ops[i])
  }

  function Drained(p: Dep, rows: map<RowId, Row>): Dep {
    p.(ops := [], rows := rows, status := if HasStop(p.ops) then Stopped else p.status)
  }

  lemma {:induction false} QueueDrains(p: Dep, env: Env) returns (rows: map<RowId, Row>)
    requires Waiting(p.ops) && AllStopped(p.rows) && !env.closed
    ensures SameStopped(p.rows, rows) && Leads(p, env, Drained(p, rows))
    decreases |p.ops|
  {
    if p.ops == [] {
      rows := p.rows;
      Here(p, env);
    } else {
      QueuedEnds(p, env);
      var q := AfterHead(p, p.rows);
      rows := QueueDrains(q, env);
      StopsCount(p.ops);
      assert Drained(q, rows) == Drained(p, rows);
      Onward(p, env, q, Drained(p, rows));
    }
  }

  lemma StopsCount(ops: seq<Op>)
    requires ops != []
    ensures HasStop(ops) <==> Halting(ops[0]) || HasStop(ops[1..])
  {
    if HasStop(ops) && !Halting(ops[0]) {
      var i :| 0 <= i < |ops| && Halting(ops[i]);
      assert Halting(ops[1..][i - 1]);
    }
    if HasStop(ops[1..]) {
      var i :| 0 <= i < |ops[1..]| && Halting(ops[1..][i]);
      assert Halting(ops[i + 1]);
    }
  }

  /** Once every assignment is stopped the queue empties, and a stop in it has its effect. */
  lemma Drains(p: Dep, env: Env) returns (rows: map<RowId, Row>)
    requires Orderly(p) && AllStopped(p.rows) && Stale(p) && !env.closed
    ensures SameStopped(p.rows, rows) && Leads(p, env, Drained(p, rows))
  {
    if p.ops == [] {
      rows := p.rows;
      Here(p, env);
    } else {
      var first := HeadEnds(p, env);
      var q := AfterHead(p, first);
      rows := QueueDrains(q, env);
      StopsCount(p.ops);
      assert Drained(q, rows) == Drained(p, rows);
      Onward(p, env, q, Drained(p, rows));
    }
  }

  // ---------- stopping ----------

  /** Stopped for good: nothing runs, nothing is under way. */
  predicate IsStopped(q: Dep) {
    q.status.Stopped? && !q.running && q.endpoint.None? && q.ops == [] && AllStopped(q.rows)
  }

  /** A stop under way that has no current start before it. */
  ghost predicate StopWaits(p: Dep) {
    Orderly(p) && Stale(p) && p.status.Draining? && HasStop(p.ops)
  }

  lemma UnstickQueued(p: Dep, env: Env, todo: seq<RowId>)
    requires StopWaits(p) && !env.closed && p.ops != [] && p.ops[0].kind.StartOp? && p.ops[0].pc.Queued? && IsTodo(p.rows, todo)
    ensures
      var q := Begin(p, env, todo);
      StopWaits(q) && !Due(q) && q == p.(ops := q.ops, rows := q.rows) && q.rows.Keys == p.rows.Keys
  {
    var q := Begin(p, env, todo);
    var i :| 0 <= i < |p.ops| && Halting(p.ops[i]);
    assert i > 0 && q.ops[i] == p.ops[i];
  }

  lemma UnstickCleared(p: Dep, env: Env, todo: seq<RowId>)
    requires StopWaits(p) && !env.closed && p.ops != [] && p.ops[0].kind.StartOp? && p.ops[0].pc.Cleared?
    ensures
      var q := Throw(p, env, todo);
      StopWaits(q) && !Due(q) && q == p.(ops := q.ops)
  {
    var q := Throw(p, env, todo);
    var i :| 0 <= i < |p.ops| && Halting(p.ops[i]);
    assert i > 0 && q.ops[i] == p.ops[i];
  }

  /** A stale start is taken past the point where only promises separate its steps. */
  lemma Unstick(p: Dep, env: Env) returns (q: Dep)
    requires StopWaits(p) && !env.closed
    ensures Leads(p, env, q) && !Due(q) && StopWaits(q)
    ensures q == p.(ops := q.ops, rows := q.rows) && q.rows.Keys == p.rows.Keys
  {
    Here(p, env);
    q := p;
    if Due(p) {
      var todo := TodoOf(p.rows);
      if p.ops[0].pc.Queued? {
        q := Begin(p, env, todo);
        UnstickQueued(p, env, todo);
        Step(p, env, p, Beginning(todo), q);
      } else {
        q := Throw(p, env, todo);
        UnstickCleared(p, env, todo);
        Step(p, env, p, Aborting(todo), q);
      }
    }
  }

  /** From wherever a deployment stands, a stop can be brought to its end. */
  lemma StopCompletes(p: Dep, env: Env) returns (q: Dep)
    requires Good(p, env.online) && !env.closed
    ensures Leads(p, env, q) && IsStopped(q) && q.rows.Keys == p.rows.Keys
  {
    var told := Stop(p);
    Here(p, env);
    Step(p, env, p, Stopping, told);
    DeploymentSteps.StopGood(p, env.online);
    assert Halting(told.ops[|p.ops|]);
    var free := Unstick(told, env);
    RowsStop(free, env);
    var halted := free.(rows := Halted(free.rows));
    var rows := Drains(halted, env);
    q := Drained(halted, rows);
    Onward(p, env, told, free);
    Onward(p, env, free, halted);
    Onward(p, env, halted, q);
  }

  // ---------- starting ----------

  /** What is left of earlier assignments: stopped, and those that had to be told are retired. */
  function Buried(rows: map<RowId, Row>): map<RowId, Row> {
    map r | r in rows :: Row(rows[r].node, rows[r].retired || rows[r].state != RowStopped, RowStopped)
  }

  lemma BuriedIs(rows: map<RowId, Row>, todo: seq<RowId>)
    requires IsTodo(rows, todo)
    ensures Halted(RetiredIn(rows, todo)) == Buried(rows)
  {
  }

  lemma BeginsTearing(p: Dep, env: Env, todo: seq<RowId>)
    requires p.ops != [] && p.ops[0].pc.Queued? && !env.closed && IsTodo(p.rows, todo)
    ensures Leads(p, env, SetPc(p.(rows := RetiredIn(p.rows, todo)), Tearing([])))
  {
    Here(p, env);
    var q := Begin(p, env, todo);
    Step(p, env, p, Beginning(todo), q);
    var rest := if todo == [] then [] else todo[1..];
    ListRetires(q, env, rest, false);
    if todo == [] {
      assert RetiredIn(p.rows, todo) == p.rows == RetiredIn(p.rows, rest);
    } else {
      RetiredRest(p.rows, todo);
    }
    SetTwice(p.ops, q.ops[0].pc, Tearing([]));
    Onward(p, env, q, SetPc(p.(rows := RetiredIn(p.rows, todo)), Tearing([])));
  }

  /** The start's own teardown: everything earlier is retired, stops, and the way is clear. */
  lemma StartClears(p: Dep, env: Env)
    requires p.ops != [] && p.ops[0].pc.Queued? && !env.closed
    ensures Leads(p, env, SetPc(p.(rows := Buried(p.rows)), Cleared))
  {
    var todo := TodoOf(p.rows);
    BeginsTearing(p, env, todo);
    var torn := SetPc(p.(rows := RetiredIn(p.rows, todo)), Tearing([]));
    RowsStop(torn, env);
    BuriedIs(p.rows, todo);
    var halted := SetPc(p.(rows := Buried(p.rows)), Tearing([]));
    Onward(p, env, torn, halted);
    SetTwice(p.ops, Tearing([]), Cleared);
    Step(p, env, halted, EndingTear([]), SetPc(p.(rows := Buried(p.rows)), Cleared));
  }

  /** In routing, with nothing under way. */
  predicate Serves(q: Dep, node: Node) {
    q.status.Ready? && q.endpoint == Some(node) && q.running && q.ops == [] && !q.reconnecting
  }

  /** The only operation is the start that is wanted. */
  predicate CurrentStart(p: Dep) {
    |p.ops| == 1 && p.ops[0].kind.StartOp? && p.ops[0].kind.generation == p.generation && p.running && !p.reconnecting
  }

  /** Where its endpoint is. */
  function Home(p: Dep, node: Node): Node {
    if p.external.Some? then p.external.value.node else node
  }

  lemma Publishes(p: Dep, env: Env, node: Node)
    requires CurrentStart(p) && p.ops[0].pc.Building? && !env.closed
    ensures Leads(p, env, p.(status := Ready, endpoint := Some(Home(p, node)), ops := []))
  {
    Here(p, env);
    var todo := TodoOf(p.rows);
    var over := SetPc(p.(status := Ready, endpoint := Some(Home(p, node))), Over);
    Step(p, env, p, Publishing(node, todo), over);
    OverEnds(over, env);
    assert over.ops[1..] == [];
    Onward(p, env, over, over.(ops := []));
  }

  /** Past its teardown a current start of a managed deployment can lay down its plan, send its assignments and publish. */
  lemma Builds(p: Dep, env: Env, plan: set<Node>, sent: map<RowId, Node>, node: Node) returns (q: Dep)
    requires CurrentStart(p) && p.ops[0].pc.Cleared? && !env.closed && p.external.None? && AllStopped(p.rows) && sent.Keys !! p.rows.Keys
    ensures Leads(p, env, q) && Serves(q, node) && q.plan == Some(plan)
    ensures q.rows == p.rows + Fresh(sent)
  {
    Here(p, env);
    Stages(p, env, plan, sent);
    var built := SetPc(p.(plan := Some(plan), status := Loading, rows := p.rows + Fresh(sent)), Building);
    Step(p, env, p, Staging(plan, true, sent, []), built);
    Publishes(built, env, node);
    q := p.(plan := Some(plan), status := Ready, endpoint := Some(node), rows := p.rows + Fresh(sent), ops := []);
    Onward(p, env, built, q);
  }

  function Fresh(sent: map<RowId, Node>): map<RowId, Row> {
    map r | r in sent :: Row(sent[r], false, Sent)
  }

  lemma Stages(p: Dep, env: Env, plan: set<Node>, sent: map<RowId, Node>)
    requires CurrentStart(p) && p.ops[0].pc.Cleared? && !env.closed && p.external.None? && AllStopped(p.rows) && sent.Keys !! p.rows.Keys
    ensures Act(p, env, Staging(plan, true, sent, [])) == SetPc(p.(plan := Some(plan), status := Loading, rows := p.rows + Fresh(sent)), Building)
  {
    SendsFresh(p.(plan := Some(plan), status := Loading), sent);
    assert AssertRunning(p, env, p.ops[0].kind.generation) && IsTodo(p.rows, []);
  }

  lemma SendsFresh(p: Dep, sent: map<RowId, Node>)
    requires sent.Keys !! p.rows.Keys
    ensures SendRows(p, sent) == p.(rows := p.rows + Fresh(sent))
  {
    assert (map r | r in sent && r !in p.rows :: Row(sent[r], false, Sent)) == Fresh(sent);
  }

  /** The same for a watched server, whose node is connected. */
  lemma Watches(p: Dep, env: Env, r: RowId) returns (q: Dep)
    requires CurrentStart(p) && p.ops[0].pc.Cleared? && !env.closed && p.external.Some? && AllStopped(p.rows) && r !in p.rows
    requires p.external.value.node in env.online
    ensures Leads(p, env, q) && Serves(q, p.external.value.node)
    ensures q.rows == p.rows[r := Row(p.external.value.node, false, Sent)]
  {
    Here(p, env);
    var built := Watch(p, env, r, []);
    Step(p, env, p, Watching(r, []), built);
    Publishes(built, env, 0);
    q := built.(status := Ready, endpoint := Some(p.external.value.node), ops := []);
    Onward(p, env, built, q);
  }

  /** A start that is accepted can be brought to a published endpoint, with every earlier assignment stopped. */
  lemma StartCompletes(p: Dep, env: Env, recovering: bool, fromReady: bool, plan: set<Node>, sent: map<RowId, Node>, node: Node) returns (q: Dep)
    requires MayStart(p, env, recovering, fromReady) && p.external.None? && sent.Keys !! p.rows.Keys
    ensures Leads(p, env, q) && Serves(q, node) && q.plan == Some(plan)
    ensures q.rows == Buried(p.rows) + Fresh(sent)
  {
    var begun := StartBegins(p, env, recovering, fromReady);
    var clear := SetPc(begun.(rows := Buried(p.rows)), Cleared);
    q := Builds(clear, env, plan, sent, node);
    Onward(p, env, clear, q);
  }

  lemma StartBegins(p: Dep, env: Env, recovering: bool, fromReady: bool) returns (begun: Dep)
    requires MayStart(p, env, recovering, fromReady)
    ensures begun.ops == [Op(StartOp(begun.generation, true), Queued)] && begun.running && !begun.reconnecting
    ensures begun.rows == p.rows && begun.external == p.external
    ensures Leads(p, env, SetPc(begun.(rows := Buried(p.rows)), Cleared))
  {
    begun := Start(p, env, recovering, fromReady, true);
    Here(p, env);
    Step(p, env, p, Starting(recovering, fromReady, true), begun);
    StartClears(begun, env);
    Onward(p, env, begun, SetPc(begun.(rows := Buried(p.rows)), Cleared));
  }

  lemma WatchCompletes(p: Dep, env: Env, r: RowId) returns (q: Dep)
    requires MayStart(p, env, false, false) && p.external.Some? && r !in p.rows && p.external.value.node in env.online
    ensures Leads(p, env, q) && Serves(q, p.external.value.node)
  {
    var begun := StartBegins(p, env, false, false);
    var clear := SetPc(begun.(rows := Buried(p.rows)), Cleared);
    q := Watches(clear, env, r);
    Onward(p, env, clear, q);
  }

  // ---------- a lost node ----------

  /** A managed deployment in routing that loses a node can be torn down, started elsewhere and routed again. */
  lemma LossIsRecovered(p: Dep, env: Env, lost: Node, plan: set<Node>, sent: map<RowId, Node>, node: Node) returns (q: Dep)
    requires Good(p, env.online) && !env.closed && !env.updating && p.external.None? && p.status.Ready? && Touches(p, lost) && !Due(p)
    requires sent.Keys !! p.rows.Keys
    ensures Leads(Act(p, env, LosingNode(lost)), env, q) && Serves(q, node) && q.plan == Some(plan)
    ensures forall r :: r in p.rows ==> r in q.rows && q.rows[r].state == RowStopped
  {
    var away := Act(p, env, LosingNode(lost));
    LossLoses(p, env, lost);
    DeploymentSteps.OfflineGood(p, env, lost);
    NoStopWaits(p, away);
    var rest := Settles(away, env);
    q := StartCompletes(rest, env, true, false, plan, sent, node);
    Onward(away, env, rest, q);
  }

  /** The teardown of a deployment that waits to reconnect comes to its end, and it may start again. */
  lemma Settles(p: Dep, env: Env) returns (q: Dep)
    requires Orderly(p) && p.reconnecting && p.status.Loading? && p.external.None? && !Due(p) && !HasStop(p.ops) && !env.closed && !env.updating
    ensures Leads(p, env, q) && MayStart(q, env, true, false) && q.external.None? && q.rows.Keys == p.rows.Keys && AllStopped(q.rows)
  {
    RowsStop(p, env);
    var halted := p.(rows := Halted(p.rows));
    var rows := Drains(halted, env);
    q := Drained(halted, rows);
    Onward(p, env, halted, q);
  }

  lemma NoStopWaits(p: Dep, away: Dep)
    requires Orderly(p) && p.running && Withdrawn(p, away)
    ensures !HasStop(away.ops)
  {
    forall i | 0 <= i < |away.ops| ensures !Halting(away.ops[i]) {
      assert i < |p.ops| ==> away.ops[i] == p.ops[i];
    }
  }

  // ---------- in a run of control ----------

  lemma Happens(s: Control, d: Id, q: Dep) returns (es: seq<Event>)
    requires d in s.deps && Leads(s.deps[d], EnvOf(s, d), q)
    ensures After(s, es) == s.(deps := s.deps[d := q]) && forall k :: 0 <= k < |es| ==> es[k].On? && es[k].id == d
  {
    var acts :| ActAll(s.deps[d], EnvOf(s, d), acts) == q;
    es := Ons(d, acts);
    Lift(s, d, acts);
  }

  /** A deployment that may start can be brought into routing by events of its own. */
  lemma BecomesRoutable(s: Control, d: Id, plan: set<Node>, sent: map<RowId, Node>, node: Node) returns (es: seq<Event>)
    requires d in s.deps && MayStart(s.deps[d], EnvOf(s, d), false, false) && s.deps[d].external.None? && sent.Keys !! s.deps[d].rows.Keys
    ensures Routable(After(s, es), d) && After(s, es).deps[d].endpoint == Some(node) && Nodes(After(s, es).deps[d]) == plan
    ensures forall k :: 0 <= k < |es| ==> es[k].On? && es[k].id == d
  {
    var q := StartCompletes(s.deps[d], EnvOf(s, d), false, false, plan, sent, node);
    es := Happens(s, d, q);
  }

  /** A watched server that may start, on a connected node, likewise. */
  lemma WatchBecomesRoutable(s: Control, d: Id, r: RowId) returns (es: seq<Event>)
    requires d in s.deps && MayStart(s.deps[d], EnvOf(s, d), false, false) && s.deps[d].external.Some?
    requires r !in s.deps[d].rows && s.deps[d].external.value.node in s.online
    ensures Routable(After(s, es), d) && After(s, es).deps[d].endpoint == Some(s.deps[d].external.value.node)
    ensures forall k :: 0 <= k < |es| ==> es[k].On? && es[k].id == d
  {
    var q := WatchCompletes(s.deps[d], EnvOf(s, d), r);
    es := Happens(s, d, q);
  }

  /** Any deployment can be stopped by events of its own, wherever a run has brought it. */
  lemma CanBeStopped(s: Control, before: seq<Event>, d: Id) returns (es: seq<Event>)
    requires Initial(s) && d in After(s, before).deps && !After(s, before).closed
    ensures d in After(After(s, before), es).deps && IsStopped(After(After(s, before), es).deps[d])
    ensures forall k :: 0 <= k < |es| ==> es[k].On? && es[k].id == d
  {
    AlwaysInv(s, before);
    var t := After(s, before);
    assert Good(t.deps[d], t.online);
    var q := StopCompletes(t.deps[d], EnvOf(t, d));
    es := Happens(t, d, q);
  }

  /** A managed deployment that is routed and loses a node can be routed again on any other nodes. */
  lemma RoutedAgain(s: Control, before: seq<Event>, d: Id, lost: Node, plan: set<Node>, sent: map<RowId, Node>, node: Node) returns (es: seq<Event>)
    requires
      var t := After(s, before);
      && Initial(s) && !t.closed && Updating(t).None? && Between(t)
      && Routable(t, d) && t.deps[d].external.None? && Touches(t.deps[d], lost) && sent.Keys !! t.deps[d].rows.Keys
    ensures
      var t := Next(After(s, before), On(d, LosingNode(lost)));
      && !Routable(t, d) && Routable(After(t, es), d)
      && After(t, es).deps[d].endpoint == Some(node) && Nodes(After(t, es).deps[d]) == plan
  {
    AlwaysInv(s, before);
    es := RecoversIn(After(s, before), d, lost, plan, sent, node);
  }

  lemma RecoversIn(t: Control, d: Id, lost: Node, plan: set<Node>, sent: map<RowId, Node>, node: Node) returns (es: seq<Event>)
    requires Inv(t) && !t.closed && Updating(t).None? && Between(t)
    requires Routable(t, d) && t.deps[d].external.None? && Touches(t.deps[d], lost) && sent.Keys !! t.deps[d].rows.Keys
    ensures
      var u := Next(t, On(d, LosingNode(lost)));
      && !Routable(u, d) && Routable(After(u, es), d)
      && After(u, es).deps[d].endpoint == Some(node) && Nodes(After(u, es).deps[d]) == plan
  {
    var p, env := t.deps[d], EnvOf(t, d);
    assert Good(p, t.online) && !Due(p);
    var q := LossIsRecovered(p, env, lost, plan, sent, node);
    LossLoses(p, env, lost);
    var away := Act(p, env, LosingNode(lost));
    LostHasNoRoute(p, away, lost, t.online);
    SameEnv(t, d, away);
    es := Happens(t.(deps := t.deps[d := away]), d, q);
  }
}
