/**
 The deployment protocol of the control plane as a transition system.

 One event is the code between two awaits, or a part of it that touches one deployment. A deployment carries
 its registry row, its assignment rows, its generation and its queue of operations; nodes, deployments,
 assignments and requests are named by numbers. What agents send and connections that come up reach the
 manager in a turn of the event loop of their own, so never between two steps that only resolved promises
 separate (`Due`).
 */
module Deployments {
  import opened Outcomes

  type Id = nat
  type Node = nat
  type RowId = nat
  type Req = nat

  datatype Status = Planned | Placing | Loading | Ready | Draining | Stopped | Failed

  datatype RowState = Sent | RowStarting | RowListening | RowLoading | RowReady | RowFailed | RowStopped

  /** An assignment as control records it. */
  datatype Row = Row(node: Node, retired: bool, state: RowState)

  /** A server that is only watched: its node and the origin of its address. */
  datatype External = External(node: Node, origin: nat)

  datatype Kind = StartOp(generation: nat, abandon: bool) | StopOp | TeardownOp

  /** How far the operation at the head of the queue has come. */
  datatype Pc = Queued | Tearing(todo: seq<RowId>) | Cleared | Building | Retearing(todo: seq<RowId>) | Over

  datatype Op = Op(kind: Kind, pc: Pc)

  /** `revived`: an agent reported life for an assignment it had reported stopped. */
  datatype Dep = Dep(
    status: Status, endpoint: Option<Node>, plan: Option<set<Node>>, external: Option<External>, running: bool,
    generation: nat, ops: seq<Op>, reconnecting: bool, inflight: nat, rows: map<RowId, Row>, revived: bool)

  /** What a deployment's step sees of the rest: connected nodes, shutdown, an update lease in force, and
      whether another deployment claims the same external server. */
  datatype Env = Env(online: set<Node>, closed: bool, updating: bool, taken: bool)

  // ---------- nodes of a deployment ----------

  /** Where a deployment is placed: its plan's nodes, or its endpoint's. */
  function Nodes(p: Dep): set<Node> {
    if p.plan.Some? then p.plan.value else if p.endpoint.Some? then {p.endpoint.value} else {}
  }

  predicate AllStopped(rows: map<RowId, Row>) {
    forall r :: r in rows ==> rows[r].state == RowStopped
  }

  // ---------- shared parts ----------

  /** What no step changes, undoes or forgets. */
  predicate Steady(p: Dep, q: Dep) {
    q.inflight == p.inflight && q.generation >= p.generation && q.external == p.external && (p.revived ==> q.revived)
  }

  /** A step that neither stops the deployment for good nor makes it meant to run. */
  predicate Calm(p: Dep, q: Dep) {
    Steady(p, q) && (q.status.Stopped? ==> p.status.Stopped?) && (q.running ==> p.running)
  }

  /** Later continuations of a start that was running are void. */
  function Cancel(p: Dep): (q: Dep)
    ensures Calm(p, q)
  {
    p.(generation := p.generation + 1)
  }

  function RecordFailure(p: Dep): (q: Dep)
    ensures Calm(p, q)
  {
    p.(reconnecting := false, status := Failed, endpoint := None)
  }

  function Enqueue(p: Dep, kind: Kind): (q: Dep)
    ensures Calm(p, q)
  {
    p.(ops := p.ops + [Op(kind, Queued)])
  }

  predicate AssertRunning(p: Dep, env: Env, generation: nat) {
    !env.closed && p.running && p.generation == generation
  }

  function SetPc(p: Dep, pc: Pc): (q: Dep)
    requires p.ops != []
    ensures Calm(p, q)
  {
    p.(ops := p.ops[0 := p.ops[0].(pc := pc)])
  }

  /** A start whose next step follows within the same turn: its teardown begins, or it goes on past it. */
  predicate Due(p: Dep) {
    p.ops != [] && p.ops[0].kind.StartOp? && (p.ops[0].pc.Queued? || p.ops[0].pc.Cleared?)
  }

  /** It is meant to run against this server, or has not come to rest. */
  predicate Claims(p: Dep, external: External) {
    p.external == Some(external) && (p.running || !(p.status.Failed? || p.status.Stopped?))
  }

  // ---------- entry points ----------

  predicate Restartable(p: Dep, recovering: bool, fromReady: bool) {
    || p.status.Planned? || p.status.Stopped? || p.status.Failed?
    || (recovering && p.reconnecting && p.status.Loading?)
    || (fromReady && p.external.None? && (p.status.Ready? || p.status.Placing? || p.status.Loading?))
  }

  /** What start() checks before it writes anything. */
  predicate MayStart(p: Dep, env: Env, recovering: bool, fromReady: bool) {
    && !env.closed && !env.updating && p.ops == [] && Restartable(p, recovering, fromReady)
    && (p.external.Some? ==> !env.taken)
  }

  function Start(p: Dep, env: Env, recovering: bool, fromReady: bool, abandon: bool): (q: Dep)
    ensures Steady(p, q)
  {
    if !MayStart(p, env, recovering, fromReady) then p
    else Enqueue(p.(reconnecting := false, running := true, status := Placing, endpoint := None), StartOp(p.generation, abandon))
  }

  function Stop(p: Dep): (q: Dep)
    ensures Steady(p, q)
  {
    Enqueue(Cancel(p).(reconnecting := false, running := false, status := Draining, endpoint := None), StopOp)
  }

  function Fail(p: Dep, env: Env): (q: Dep)
    ensures Calm(p, q)
  {
    if p.status.Failed? || p.status.Stopped? || p.status.Draining? || env.closed then p
    else Enqueue(RecordFailure(Cancel(p)), TeardownOp)
  }

  /** A node this deployment may use has left. */
  function Offline(p: Dep, env: Env, node: Node): (q: Dep)
    ensures Calm(p, q)
  {
    var live := exists r :: r in p.rows && p.rows[r].node == node && p.rows[r].state != RowStopped;
    if env.closed || !p.running || p.status.Stopped? || p.status.Failed? || p.status.Planned? || p.status.Draining? || p.reconnecting then p
    else if !live && !(p.plan.Some? && node in p.plan.value) then p
    else if live && p.external.Some? then p.(status := Loading, endpoint := None)
    else Enqueue(Cancel(p).(reconnecting := true, status := Loading, endpoint := None), TeardownOp)
  }

  function FinishDraining(p: Dep): (q: Dep)
    ensures Steady(p, q)
  {
    if p.status.Draining? && !p.running && AllStopped(p.rows) then p.(status := Stopped, endpoint := None) else p
  }

  // ---------- what agents report ----------

  function SetRow(p: Dep, r: RowId, state: RowState): (q: Dep)
    requires r in p.rows
    ensures Calm(p, q)
  {
    p.(rows := p.rows[r := p.rows[r].(state := state)],
       revived := p.revived || (p.rows[r].state == RowStopped && state != RowStopped))
  }

  /** The reaction to a report, once the row's state is recorded. */
  function OnAssignmentState(p: Dep, env: Env, r: RowId, state: RowState, leaving: bool): (q: Dep)
    requires r in p.rows
    ensures Calm(p, q)
  {
    var row := p.rows[r];
    if row.retired || p.reconnecting then p
    else if p.external.Some? && p.running && (p.status.Ready? || p.status.Loading?) then
      if (state == RowFailed || state == RowStopped) && p.status.Ready? then p.(status := Loading, endpoint := None)
      else if state == RowReady && p.status.Loading? then p.(status := Ready, endpoint := Some(row.node))
      else p
    else if (state == RowFailed || state == RowStopped) && !leaving then Fail(p, env)
    else p
  }

  function Report(p: Dep, env: Env, r: RowId, state: RowState, leaving: bool): (q: Dep)
    requires r in p.rows
    ensures Calm(p, q)
  {
    OnAssignmentState(SetRow(p, r, state), env, r, state, leaving)
  }

  predicate Wants(p: Dep, r: RowId)
    requires r in p.rows
  {
    !p.reconnecting && !p.rows[r].retired && p.running
    && !(p.status.Failed? || p.status.Stopped? || p.status.Planned? || p.status.Draining?)
  }

  /** A node came back and listed what it runs; `have` is what it said of this row, if anything, and is recorded. */
  function HelloRow(p: Dep, env: Env, r: RowId, have: Option<RowState>, duplicate: bool): (q: Dep)
    requires r in p.rows && (have.Some? ==> p.rows[r].state == have.value)
    ensures Calm(p, q)
  {
    var row := p.rows[r];
    var wants := Wants(p, r);
    if have.None? || have == Some(RowStopped) then
      var q := p.(rows := p.rows[r := row.(retired := true, state := RowStopped)]);
      var expected := wants && row.state != RowStopped;
      if expected && p.external.Some? && !duplicate then p.(rows := p.rows[r := row.(retired := false, state := Sent)])
      else if expected && p.external.None? then Fail(q, env)
      else q
    else if !wants || duplicate then p.(rows := p.rows[r := row.(retired := true)])
    else if p.external.Some? then OnAssignmentState(p, env, r, have.value, false)
    else if have.value == RowFailed then Fail(p, env)
    else p
  }

  function Greet(p: Dep, env: Env, r: RowId, have: Option<RowState>, duplicate: bool): (q: Dep)
    requires r in p.rows
    ensures Calm(p, q)
  {
    HelloRow(if have.Some? then SetRow(p, r, have.value) else p, env, r, have, duplicate)
  }

  // ---------- the operation at the head of the queue ----------

  /** The rows a teardown finds not stopped. */
  predicate IsTodo(rows: map<RowId, Row>, todo: seq<RowId>) {
    && (forall r :: r in rows && rows[r].state != RowStopped ==> r in todo)
    && (forall r :: r in todo ==> r in rows && rows[r].state != RowStopped)
  }

  /** The first listed row is retired and told to stop; the others wait for their turn. */
  function Tear(p: Dep, todo: seq<RowId>, again: bool): (q: Dep)
    requires p.ops != []
    ensures Calm(p, q)
  {
    var rest := if todo == [] then [] else todo[1..];
    var q := if todo != [] && todo[0] in p.rows then p.(rows := p.rows[todo[0] := p.rows[todo[0]].(retired := true)]) else p;
    SetPc(q, if again then Retearing(rest) else Tearing(rest))
  }

  /** An exception inside the operation: a start that is still current records it and tears down again. */
  function Throw(p: Dep, env: Env, todo: seq<RowId>): (q: Dep)
    requires p.ops != []
    ensures Calm(p, q)
  {
    var op := p.ops[0];
    if op.kind.StartOp? && !op.pc.Retearing? && !env.closed && op.kind.generation == p.generation then
      Tear(RecordFailure(p), todo, true)
    else SetPc(p, Over)
  }

  /** The operation begins: the rows to stop are listed and the first is retired. */
  function Begin(p: Dep, env: Env, todo: seq<RowId>): (q: Dep)
    requires p.ops != [] && p.ops[0].pc.Queued? && IsTodo(p.rows, todo)
    ensures Calm(p, q)
  {
    if env.closed then SetPc(p, Over) else Tear(p, todo, false)
  }

  /** The wait for one row is over: the next is retired and told to stop. */
  function TearStep(p: Dep, env: Env): (q: Dep)
    requires p.ops != [] && (p.ops[0].pc.Tearing? || p.ops[0].pc.Retearing?) && p.ops[0].pc.todo != []
    ensures Calm(p, q)
  {
    if env.closed then SetPc(p, Over) else Tear(p, p.ops[0].pc.todo, p.ops[0].pc.Retearing?)
  }

  predicate Abandons(op: Op) {
    op.kind.StartOp? && op.kind.abandon
  }

  /** A row whose stop is still awaited. */
  predicate Pending(p: Dep, env: Env, r: RowId)
    requires p.ops != [] && r in p.rows
  {
    p.rows[r].state != RowStopped && !(Abandons(p.ops[0]) && p.rows[r].node !in env.online)
  }

  function TearEnd(p: Dep, env: Env, todo: seq<RowId>): (q: Dep)
    requires p.ops != [] && (p.ops[0].pc.Tearing? || p.ops[0].pc.Retearing?) && p.ops[0].pc.todo == []
    ensures Calm(p, q)
  {
    if p.ops[0].pc.Retearing? then SetPc(p, Over)
    else if env.closed || exists r :: r in p.rows && Pending(p, env, r) then Throw(p, env, todo)
    else SetPc(p, Cleared)
  }

  /** Past the teardown of a stop or of a failed deployment. */
  function Proceed(p: Dep): (q: Dep)
    requires p.ops != [] && p.ops[0].pc.Cleared? && !p.ops[0].kind.StartOp?
    ensures Steady(p, q)
  {
    SetPc(if p.ops[0].kind.StopOp? then p.(status := Stopped) else p, Over)
  }

  /** Past the teardown of a start, or later in it: if it is still wanted it lays down its plan and sends assignments. */
  function Stage(p: Dep, env: Env, plan: set<Node>, loading: bool, sent: map<RowId, Node>, todo: seq<RowId>): (q: Dep)
    requires p.ops != [] && p.ops[0].kind.StartOp? && (p.ops[0].pc.Cleared? || p.ops[0].pc.Building?) && p.external.None?
    ensures Calm(p, q)
  {
    if !AssertRunning(p, env, p.ops[0].kind.generation) then Throw(p, env, todo)
    else SetPc(SendRows(p.(plan := Some(plan), status := if loading then Loading else p.status), sent), Building)
  }

  /** New assignments under names not used before. */
  function SendRows(p: Dep, sent: map<RowId, Node>): (q: Dep)
    ensures Calm(p, q)
  {
    p.(rows := p.rows + map r | r in sent && r !in p.rows :: Row(sent[r], false, Sent))
  }

  /** The same for an external server: one health watch goes to its node, which has to be connected. */
  function Watch(p: Dep, env: Env, r: RowId, todo: seq<RowId>): (q: Dep)
    requires p.ops != [] && p.ops[0].kind.StartOp? && p.ops[0].pc.Cleared? && p.external.Some?
    ensures Calm(p, q)
  {
    if !AssertRunning(p, env, p.ops[0].kind.generation) || p.external.value.node !in env.online then Throw(p, env, todo)
    else SetPc(p.(status := Loading, plan := None, rows := p.rows[r := Row(p.external.value.node, false, Sent)]), Building)
  }

  /** The start publishes its endpoint, if it is still the current one. */
  function Publish(p: Dep, env: Env, node: Node, todo: seq<RowId>): (q: Dep)
    requires p.ops != [] && p.ops[0].pc.Building? && p.ops[0].kind.StartOp?
    ensures Calm(p, q)
  {
    if !AssertRunning(p, env, p.ops[0].kind.generation) then Throw(p, env, todo)
    else
      SetPc(p.(status := Ready, endpoint := Some(if p.external.Some? then p.external.value.node else node)), Over)
  }

  function Reap(p: Dep): (q: Dep)
    requires p.ops != []
    ensures Calm(p, q)
  {
    p.(ops := p.ops[1..])
  }

  // ---------- what every deployment keeps ----------

  /** The law of the endpoint. */
  predicate Law(p: Dep) {
    p.endpoint.Some? <==> p.status.Ready?
  }

  /** Every assignment is stopped or at least told to stop. */
  predicate Safe(rows: map<RowId, Row>) {
    forall r :: r in rows ==> rows[r].state == RowStopped || rows[r].retired
  }

  predicate CoveredBy(rows: map<RowId, Row>, todo: seq<RowId>) {
    forall r :: r in rows ==> rows[r].state == RowStopped || rows[r].retired || r in todo
  }

  predicate Routes(p: Dep) {
    && (p.status.Ready? ==> p.endpoint.Some? && p.running)
    && (p.endpoint.Some? ==> p.status.Ready? || (p.external.Some? && p.status.Loading? && p.running))
    && (p.external.Some? ==> p.plan.None? && !p.reconnecting && (p.endpoint.Some? ==> p.endpoint.value == p.external.value.node))
    && (p.external.Some? ==> forall r :: r in p.rows ==> p.rows[r].node == p.external.value.node)
  }

  /** A start stands only at the head, a stop in the queue means the deployment is not meant to run. */
  predicate Orderly(p: Dep) {
    && (forall i :: 0 < i < |p.ops| ==> p.ops[i].pc.Queued? && !p.ops[i].kind.StartOp?)
    && (forall i :: 0 <= i < |p.ops| && p.ops[i].kind.StopOp? && !p.ops[i].pc.Over? ==> !p.running)
    && (p.ops != [] && p.ops[0].kind.StartOp? ==> p.ops[0].kind.generation <= p.generation)
    && (p.ops != [] && p.ops[0].kind.StartOp? && p.ops[0].kind.generation == p.generation ==> |p.ops| == 1)
    && (p.external.None? && p.endpoint.Some? ==> forall i :: 0 <= i < |p.ops| ==> p.ops[i].pc.Over?)
    && (p.ops != [] && (p.ops[0].pc.Building? || p.ops[0].pc.Retearing?) ==> p.ops[0].kind.StartOp?)
    && (p.reconnecting ==> p.endpoint.None? && (p.ops != [] && p.ops[0].kind.StartOp? ==> p.ops[0].kind.generation < p.generation))
  }

  /** Rows a teardown does not see are stopped or retired, unless an agent revives one. */
  predicate Torn(p: Dep) {
    p.ops != [] && !p.revived ==>
      match p.ops[0].pc
      case Tearing(todo) => CoveredBy(p.rows, todo)
      case Retearing(todo) => CoveredBy(p.rows, todo)
      case Cleared => if p.ops[0].kind.StopOp? then AllStopped(p.rows) else Safe(p.rows)
      case _ => true
  }

  predicate Single(rows: map<RowId, Row>) {
    forall r, w :: r in rows && w in rows && rows[r].state != RowStopped && rows[w].state != RowStopped ==> r == w
  }

  /** An external deployment has one watch at most, and none that is live while a start prepares the next. */
  predicate Watched(p: Dep, online: set<Node>) {
    p.external.Some? && !p.revived ==>
      && Law(p) && Single(p.rows)
      && (p.ops != [] && p.ops[0].kind.StartOp? ==>
            match p.ops[0].pc
            case Queued => p.endpoint.None?
            case Tearing(_) => p.endpoint.None? && Safe(p.rows)
            case Cleared => p.endpoint.None? && Safe(p.rows) && (AllStopped(p.rows) || p.external.value.node !in online)
            case _ => true)
  }

  predicate Good(p: Dep, online: set<Node>) {
    Routes(p) && Orderly(p) && Torn(p) && Watched(p, online)
  }
}
