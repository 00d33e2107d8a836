/**
 Whole runs of the control plane: any interleaving of operator calls, agent reports, nodes coming and
 going, operation steps, requests, update leases, shutdown and restarts of control.
 */
module DeploymentRuns {
  import opened Outcomes
  import opened Deployments
  import opened DeploymentSteps

  const LEASE_MS := 120_000

  datatype Lease = Lease(node: Node, token: nat, expiresAt: int)

  datatype Control = Control(
    deps: map<Id, Dep>, online: set<Node>, clock: int, lease: Option<Lease>, recovery: set<Id>,
    closed: bool, busy: bool, granted: nat, open: map<Req, Id>)

  /** What can happen to one deployment. */
  datatype Action =
    | Starting(recovering: bool, fromReady: bool, abandon: bool)
    | Stopping
    | Failing
    | LosingNode(node: Node)
    | CheckingDrain
    | GivingUp
    | Withdrawing
    | Reporting(row: RowId, state: RowState, leaving: bool)
    | Greeting(row: RowId, have: Option<RowState>, duplicate: bool)
    | Beginning(todo: seq<RowId>)
    | TearingRow
    | EndingTear(todo: seq<RowId>)
    | Proceeding
    | Staging(plan: set<Node>, loading: bool, sent: map<RowId, Node>, todo: seq<RowId>)
    | Watching(row: RowId, todo: seq<RowId>)
    | Publishing(node: Node, todo: seq<RowId>)
    | Aborting(todo: seq<RowId>)
    | Reaping

  /** A crash between the write of a deployment's intent and the write of its state. */
  datatype TornIntent = TornIntent(id: Id, running: bool)

  datatype Event =
    | On(id: Id, action: Action)
    | Create(id: Id, external: Option<External>)
    | Delete(id: Id)
    | NodeUp(node: Node)
    | NodeDown(node: Node)
    | Tick(now: int)
    | SetBusy(busy: bool)
    | Dispose
    | Restart(torn: Option<TornIntent>)
    | Acquire(node: Node)
    | Release(node: Node, token: nat)
    | Admit(req: Req, id: Id)
    | Finish(req: Req)

  // ---------- one deployment ----------

  /** The head of the queue stands at a point where this step can be taken. */
  predicate Enabled(p: Dep, env: Env, a: Action) {
    match a
    case LosingNode(_) => !Due(p)
    case Reporting(r, _, _) => r in p.rows && !Due(p)
    case Greeting(r, _, _) => r in p.rows && !Due(p)
    case GivingUp => p.external.None?
    case Withdrawing => p.external.None? && p.ops == [] && !env.updating
    case Beginning(todo) => p.ops != [] && p.ops[0].pc.Queued? && IsTodo(p.rows, todo)
    case TearingRow => p.ops != [] && (p.ops[0].pc.Tearing? || p.ops[0].pc.Retearing?) && p.ops[0].pc.todo != []
    case EndingTear(todo) =>
      p.ops != [] && (p.ops[0].pc.Tearing? || p.ops[0].pc.Retearing?) && p.ops[0].pc.todo == [] && IsTodo(p.rows, todo)
    case Proceeding => p.ops != [] && p.ops[0].pc.Cleared? && !p.ops[0].kind.StartOp?
    case Staging(_, _, _, todo) =>
      p.ops != [] && p.ops[0].kind.StartOp? && (p.ops[0].pc.Cleared? || p.ops[0].pc.Building?) && p.external.None? && IsTodo(p.rows, todo)
    case Watching(r, todo) =>
      p.ops != [] && p.ops[0].kind.StartOp? && p.ops[0].pc.Cleared? && p.external.Some? && r !in p.rows && IsTodo(p.rows, todo)
    case Publishing(_, todo) => p.ops != [] && p.ops[0].kind.StartOp? && p.ops[0].pc.Building? && IsTodo(p.rows, todo)
    case Aborting(todo) =>
      p.ops != [] && p.ops[0].kind.StartOp? && (p.ops[0].pc.Cleared? || p.ops[0].pc.Building?) && IsTodo(p.rows, todo)
    case Reaping => p.ops != [] && p.ops[0].pc.Over?
    case _ => true
  }

  function Act(p: Dep, env: Env, a: Action): (q: Dep)
    ensures Steady(p, q)
    ensures q.status.Stopped? && !p.status.Stopped? ==> a.Proceeding? || a.CheckingDrain?
    ensures q.running && !p.running ==> a.Starting? && (p.external.Some? ==> !env.taken)
  {
    if !Enabled(p, env, a) then p
    else
      match a
      case Starting(recovering, fromReady, abandon) => Start(p, env, recovering, fromReady, abandon)
      case Stopping => Stop(p)
      case Failing => Fail(p, env)
      case LosingNode(node) => Offline(p, env, node)
      case CheckingDrain => FinishDraining(p)
      case GivingUp => RecordFailure(p)
      case Withdrawing => p.(status := Draining, endpoint := None)
      case Reporting(r, state, leaving) => Report(p, env, r, state, leaving)
      case Greeting(r, have, duplicate) => Greet(p, env, r, have, duplicate)
      case Beginning(todo) => Begin(p, env, todo)
      case TearingRow => TearStep(p, env)
      case EndingTear(todo) => TearEnd(p, env, todo)
      case Proceeding => Proceed(p)
      case Staging(plan, loading, sent, todo) => Stage(p, env, plan, loading, sent, todo)
      case Watching(r, todo) => Watch(p, env, r, todo)
      case Publishing(node, todo) => Publish(p, env, node, todo)
      case Aborting(todo) => Throw(p, env, todo)
      case Reaping => Reap(p)
  }

  lemma ActGood(p: Dep, env: Env, a: Action)
    requires Good(p, env.online)
    ensures Good(Act(p, env, a), env.online)
  {
    if Enabled(p, env, a) {
      match a
      case Starting(recovering, fromReady, abandon) => StartGood(p, env, recovering, fromReady, abandon);
      case Stopping => StopGood(p, env.online);
      case Failing => FailGood(p, env);
      case LosingNode(node) => OfflineGood(p, env, node);
      case CheckingDrain => FinishDrainingGood(p, env.online);
      case GivingUp => RecordFailureGood(p, env.online);
      case Withdrawing =>
      case Reporting(r, state, leaving) => ReportGood(p, env, r, state, leaving);
      case Greeting(r, have, duplicate) => GreetGood(p, env, r, have, duplicate);
      case Beginning(todo) => BeginGood(p, env, todo);
      case TearingRow => TearStepGood(p, env);
      case EndingTear(todo) => TearEndGood(p, env, todo);
      case Proceeding => ProceedGood(p, env.online);
      case Staging(plan, loading, sent, todo) => StageGood(p, env, plan, loading, sent, todo);
      case Watching(r, todo) => WatchGood(p, env, r, todo);
      case Publishing(node, todo) => PublishGood(p, env, node, todo);
      case Aborting(todo) => ThrowGood(p, env, todo);
      case Reaping => ReapGood(p, env.online);
    }
  }

  // ---------- control as a whole ----------

  function Updating(s: Control): Option<Node> {
    if s.lease.Some? && s.lease.value.expiresAt > s.clock then Some(s.lease.value.node) else None
  }

  /** Another deployment claims the external server of this one. */
  predicate Taken(deps: map<Id, Dep>, d: Id) {
    d in deps && deps[d].external.Some? && exists c :: c in deps && c != d && Claims(deps[c], deps[d].external.value)
  }

  function EnvOf(s: Control, d: Id): Env {
    Env(s.online, s.closed, Updating(s).Some?, Taken(s.deps, d))
  }

  /** No start stands between two steps of one turn, so the next turn may bring news from outside. */
  predicate Between(s: Control) {
    forall d :: d in s.deps ==> !Due(s.deps[d])
  }

  /** Listed by the routing table. */
  predicate Routable(s: Control, d: Id) {
    d in s.deps && s.deps[d].status.Ready? && s.deps[d].endpoint.Some?
    && !(Updating(s).Some? && Updating(s).value in Nodes(s.deps[d]))
  }

  /** A withdrawn deployment no longer holds up the next lease. */
  predicate Settled(s: Control, d: Id) {
    d !in s.deps || s.deps[d].status.Ready? || !s.deps[d].running
  }

  predicate Quiet(s: Control) {
    !s.busy && forall d :: d in s.deps ==> s.deps[d].ops == [] && !s.deps[d].reconnecting
  }

  predicate MayPrune(s: Control, node: Node) {
    !s.closed && node in s.online && Updating(s).None? && Quiet(s)
  }

  predicate Grants(s: Control, node: Node) {
    && MayPrune(s, node)
    && (forall d :: d in s.recovery ==> Settled(s, d))
    && (forall d :: d in s.deps && node in Nodes(s.deps[d]) ==> s.deps[d].inflight == 0)
  }

  function AcquireUpdate(s: Control, node: Node): Control {
    if Grants(s, node) then
      s.(lease := Some(Lease(node, s.granted, s.clock + LEASE_MS)), granted := s.granted + 1,
         recovery := set d | d in s.deps && node in Nodes(s.deps[d]) && s.deps[d].status.Ready? && s.deps[d].running)
    else if MayPrune(s, node) then s.(recovery := set d | d in s.recovery && !Settled(s, d))
    else s
  }

  /** Control starts again on what the registry holds; `running` is the intent found there. */
  function Restored(p: Dep, running: bool, duplicate: bool): (back: Dep)
    ensures back.inflight == 0 && back.ops == [] && back.external == p.external && (back.running ==> running)
  {
    var q := p.(running := running, generation := 0, ops := [], reconnecting := false, inflight := 0);
    if !running then
      if p.status.Ready? || p.status.Placing? || p.status.Loading? || p.status.Draining? then q.(status := Draining, endpoint := None)
      else q.(endpoint := None)
    else if p.external.Some? then
      if duplicate then q.(running := false, status := Stopped, endpoint := None)
      else if exists w :: w in p.rows && !p.rows[w].retired then q.(status := Loading, endpoint := None)
      else q.(status := Failed, endpoint := None)
    else if !p.status.Failed? then q.(status := Failed, endpoint := None)
    else q
  }

  /** The intent found on disk: a stop writes it first, and so does a start that was accepted. */
  function Intent(s: Control, torn: Option<TornIntent>, d: Id): (running: bool)
    requires d in s.deps
    ensures running && !s.deps[d].running ==> torn == Some(TornIntent(d, true)) && !Taken(s.deps, d)
  {
    if torn == Some(TornIntent(d, false)) then false
    else if torn == Some(TornIntent(d, true)) && MayStart(s.deps[d], EnvOf(s, d), true, true) then true
    else s.deps[d].running
  }

  /** An earlier deployment, in order of creation, is meant to run against the same external server. */
  predicate Duplicate(s: Control, torn: Option<TornIntent>, d: Id)
    requires d in s.deps
  {
    s.deps[d].external.Some?
    && exists c :: c in s.deps && c < d && s.deps[c].external == s.deps[d].external && Intent(s, torn, c)
  }

  function Boot(s: Control, torn: Option<TornIntent>): Control {
    Control(map d | d in s.deps :: Restored(s.deps[d], Intent(s, torn, d), Duplicate(s, torn, d)),
            {}, s.clock, None, {}, false, false, s.granted, map[])
  }

  function Requests(open: map<Req, Id>, d: Id): set<Req> {
    set q | q in open && open[q] == d
  }

  function Acted(s: Control, d: Id, a: Action): Control {
    if d in s.deps then s.(deps := s.deps[d := Act(s.deps[d], EnvOf(s, d), a)]) else s
  }

  /** A new deployment under a name not in use. */
  function Created(s: Control, d: Id, external: Option<External>): Control {
    if d in s.deps || Requests(s.open, d) != {} || (external.Some? && exists c :: c in s.deps && Claims(s.deps[c], external.value)) then s
    else s.(deps := s.deps[d := Dep(Planned, None, None, external, false, 0, [], false, 0, map[], false)])
  }

  function Deleted(s: Control, d: Id): Control {
    s.(deps := s.deps - {d}, open := map q | q in s.open && s.open[q] != d :: s.open[q])
  }

  function Disposed(s: Control): Control {
    s.(closed := true, deps := map d | d in s.deps :: Cancel(s.deps[d]))
  }

  /** The router's choice and its count are one step. */
  function Admitted(s: Control, q: Req, d: Id): Control {
    if Routable(s, d) && q !in s.open then
      s.(deps := s.deps[d := s.deps[d].(inflight := s.deps[d].inflight + 1)], open := s.open[q := d])
    else s
  }

  function Down(n: nat): nat {
    if n > 0 then n - 1 else 0
  }

  /** A request is released once, however often its release runs. */
  function Finished(s: Control, q: Req): Control {
    if q in s.open && s.open[q] in s.deps then
      var d := s.open[q];
      s.(deps := s.deps[d := s.deps[d].(inflight := Down(s.deps[d].inflight))],
         open := s.open - {q})
    else s
  }

  function Next(s: Control, e: Event): Control {
    match e
    case On(d, a) => Acted(s, d, a)
    case Create(d, external) => Created(s, d, external)
    case Delete(d) => Deleted(s, d)
    case NodeUp(n) => if Between(s) then s.(online := s.online + {n}) else s
    case NodeDown(n) => if Between(s) then s.(online := s.online - {n}) else s
    case Tick(now) => if now >= s.clock then s.(clock := now) else s
    case SetBusy(b) => s.(busy := b)
    case Dispose => Disposed(s)
    case Restart(torn) => Boot(s, torn)
    case Acquire(n) => AcquireUpdate(s, n)
    case Release(n, token) =>
      if s.lease.Some? && s.lease.value.node == n && s.lease.value.token == token then s.(lease := None) else s
    case Admit(q, d) => Admitted(s, q, d)
    case Finish(q) => Finished(s, q)
  }

  function After(s: Control, es: seq<Event>): Control {
    if es == [] then s else Next(After(s, es[..|es| - 1]), es[|es| - 1])
  }

  // ---------- the invariant of every run ----------

  ghost predicate AllGood(deps: map<Id, Dep>, online: set<Node>) {
    forall d :: d in deps ==> Good(deps[d], online)
  }

  /** Two deployments meant to run never share an external server. */
  ghost predicate Unique(deps: map<Id, Dep>) {
    forall c, d :: c in deps && d in deps && c != d && deps[c].running && deps[d].running && deps[c].external.Some? ==>
      deps[c].external != deps[d].external
  }

  /** The in-flight counter of a deployment is the number of its admitted, unfinished requests. */
  ghost predicate Counted(deps: map<Id, Dep>, open: map<Req, Id>) {
    && (forall d :: d in deps ==> deps[d].inflight == |Requests(open, d)|)
    && (forall q :: q in open ==> open[q] in deps)
  }

  ghost predicate Inv(s: Control) {
    AllGood(s.deps, s.online) && Counted(s.deps, s.open) && Unique(s.deps)
  }

  ghost predicate Initial(s: Control) {
    s.deps == map[] && s.open == map[] && s.lease.None? && s.recovery == {}
  }

  /** A deployment without operations, endpoint and reconnect. */
  lemma RestingGood(q: Dep, online: set<Node>)
    requires q.ops == [] && q.endpoint.None? && !q.status.Ready? && !q.reconnecting && (q.external.Some? ==> q.plan.None?)
    requires q.external.Some? ==> forall r :: r in q.rows ==> q.rows[r].node == q.external.value.node
    requires q.external.Some? && !q.revived ==> Single(q.rows)
    ensures Good(q, online)
  {
  }

  lemma RestoredGood(p: Dep, running: bool, duplicate: bool, online: set<Node>)
    requires Good(p, online)
    ensures Good(Restored(p, running, duplicate), {})
  {
    RestingGood(Restored(p, running, duplicate), {});
  }

  lemma CancelGood(p: Dep, online: set<Node>)
    requires Good(p, online)
    ensures Good(Cancel(p), online)
  {
  }

  lemma AdmitCounts(open: map<Req, Id>, q: Req, d: Id)
    requires q !in open
    ensures |Requests(open[q := d], d)| == |Requests(open, d)| + 1
    ensures forall c :: c != d ==> Requests(open[q := d], c) == Requests(open, c)
  {
    assert Requests(open[q := d], d) == Requests(open, d) + {q};
  }

  lemma FinishCounts(open: map<Req, Id>, q: Req)
    requires q in open
    ensures |Requests(open - {q}, open[q])| == |Requests(open, open[q])| - 1
    ensures forall c :: c != open[q] ==> Requests(open - {q}, c) == Requests(open, c)
  {
    assert Requests(open - {q}, open[q]) == Requests(open, open[q]) - {q};
  }

  lemma UpdateGood(deps: map<Id, Dep>, d: Id, p: Dep, online: set<Node>)
    requires AllGood(deps, online) && Good(p, online)
    ensures AllGood(deps[d := p], online)
  {
  }

  lemma InflightGood(p: Dep, n: nat, online: set<Node>)
    requires Good(p, online)
    ensures Good(p.(inflight := n), online)
  {
  }

  lemma FreshGood(external: Option<External>, online: set<Node>)
    ensures Good(Dep(Planned, None, None, external, false, 0, [], false, 0, map[], false), online)
  {
  }

  lemma DisposeGood(deps: map<Id, Dep>, online: set<Node>)
    requires AllGood(deps, online)
    ensures AllGood(map d | d in deps :: Cancel(deps[d]), online)
  {
    forall d | d in deps ensures Good(Cancel(deps[d]), online) {
      CancelGood(deps[d], online);
    }
  }

  lemma BootGood(s: Control, torn: Option<TornIntent>)
    requires AllGood(s.deps, s.online)
    ensures AllGood(Boot(s, torn).deps, {})
  {
    var t := Boot(s, torn).deps;
    forall d | d in t ensures Good(t[d], {}) {
      RestoredGood(s.deps[d], Intent(s, torn, d), Duplicate(s, torn, d), s.online);
    }
  }

  /** A connection that comes up finds no start past its teardown's check. */
  lemma OnlineGood(deps: map<Id, Dep>, online: set<Node>, more: set<Node>)
    requires AllGood(deps, online) && forall d :: d in deps ==> !Due(deps[d])
    ensures AllGood(deps, more)
  {
    forall d | d in deps ensures Good(deps[d], more) {
      assert Good(deps[d], online) && !Due(deps[d]);
    }
  }

  // ---------- external servers are watched once ----------

  lemma FreeIsUnclaimed(deps: map<Id, Dep>, c: Id, d: Id)
    requires c in deps && d in deps && c != d && deps[d].external.Some? && !Taken(deps, d) && deps[c].running
    ensures deps[c].external != deps[d].external
  {
    assert !Claims(deps[c], deps[d].external.value);
  }

  /** Intents found on disk are those in memory, but for a stop, or a start that found its server free. */
  lemma IntentsUnique(s: Control, torn: Option<TornIntent>, c: Id, d: Id)
    requires Unique(s.deps) && c in s.deps && d in s.deps && c != d && s.deps[c].external.Some?
    requires Intent(s, torn, c) && Intent(s, torn, d)
    ensures s.deps[c].external != s.deps[d].external
  {
    if s.deps[c].running && !s.deps[d].running && s.deps[d].external.Some? {
      FreeIsUnclaimed(s.deps, c, d);
    } else if s.deps[d].running && !s.deps[c].running {
      FreeIsUnclaimed(s.deps, d, c);
    }
  }

  lemma BootUnique(s: Control, torn: Option<TornIntent>)
    requires Unique(s.deps)
    ensures Unique(Boot(s, torn).deps)
  {
    var t := Boot(s, torn).deps;
    forall c, d | c in t && d in t && c != d && t[c].running && t[d].running && t[c].external.Some?
      ensures t[c].external != t[d].external
    {
      assert Intent(s, torn, c) && Intent(s, torn, d);
      IntentsUnique(s, torn, c, d);
    }
  }

  lemma ActedUnique(s: Control, d: Id, a: Action)
    requires Unique(s.deps) && d in s.deps
    ensures Unique(s.deps[d := Act(s.deps[d], EnvOf(s, d), a)])
  {
    var q := Act(s.deps[d], EnvOf(s, d), a);
    forall c | c in s.deps && c != d && s.deps[c].running && q.running && q.external.Some? ensures s.deps[c].external != q.external {
      if !s.deps[d].running {
        FreeIsUnclaimed(s.deps, c, d);
      }
    }
  }

  lemma ActedInv(s: Control, d: Id, a: Action)
    requires Inv(s)
    ensures Inv(Acted(s, d, a))
  {
    if d in s.deps {
      var p := Act(s.deps[d], EnvOf(s, d), a);
      ActGood(s.deps[d], EnvOf(s, d), a);
      UpdateGood(s.deps, d, p, s.online);
      ActedUnique(s, d, a);
      SameCount(s.deps, s.open, d, p);
    }
  }

  lemma SameCount(deps: map<Id, Dep>, open: map<Req, Id>, d: Id, p: Dep)
    requires Counted(deps, open) && d in deps && p.inflight == deps[d].inflight
    ensures Counted(deps[d := p], open)
  {
  }

  lemma CreatedInv(s: Control, d: Id, external: Option<External>)
    requires Inv(s)
    ensures Inv(Created(s, d, external))
  {
    FreshGood(external, s.online);
    FreshUnique(s.deps, d, external);
    UpdateGood(s.deps, d, Dep(Planned, None, None, external, false, 0, [], false, 0, map[], false), s.online);
  }

  lemma FreshUnique(deps: map<Id, Dep>, d: Id, external: Option<External>)
    requires Unique(deps)
    ensures Unique(deps[d := Dep(Planned, None, None, external, false, 0, [], false, 0, map[], false)])
  {
  }

  lemma DeletedInv(s: Control, d: Id)
    requires Inv(s)
    ensures Inv(Deleted(s, d))
  {
    DeleteCounts(s.deps, s.open, d);
  }

  lemma DisposedInv(s: Control)
    requires Inv(s)
    ensures Inv(Disposed(s))
  {
    DisposeGood(s.deps, s.online);
  }

  lemma BootInv(s: Control, torn: Option<TornIntent>)
    requires Inv(s)
    ensures Inv(Boot(s, torn))
  {
    BootGood(s, torn);
    BootCounts(s, torn);
    BootUnique(s, torn);
  }

  lemma BootCounts(s: Control, torn: Option<TornIntent>)
    ensures Counted(Boot(s, torn).deps, map[])
  {
    var t := Boot(s, torn).deps;
    forall d | d in t ensures t[d].inflight == |Requests(map[], d)| {
      assert Requests(map[], d) == {};
    }
  }

  /** The counter of one deployment follows the open requests. */
  lemma RequestsInv(s: Control, d: Id, p: Dep, left: map<Req, Id>)
    requires Inv(s) && d in s.deps && p == s.deps[d].(inflight := |Requests(left, d)|)
    requires (forall c :: c != d ==> Requests(left, c) == Requests(s.open, c)) && forall q :: q in left ==> left[q] in s.deps
    ensures Inv(s.(deps := s.deps[d := p], open := left))
  {
    assert Unique(s.deps[d := p]);
    InflightGood(s.deps[d], p.inflight, s.online);
    UpdateGood(s.deps, d, p, s.online);
    CountedAfter(s.deps, s.open, d, p, left);
  }

  lemma CountedInv(s: Control, q: Req, d: Id)
    requires Inv(s) && d in s.deps && q !in s.open
    ensures Inv(s.(deps := s.deps[d := s.deps[d].(inflight := s.deps[d].inflight + 1)], open := s.open[q := d]))
  {
    var left := s.open[q := d];
    AdmitCounts(s.open, q, d);
    assert forall r :: r in left ==> left[r] in s.deps;
    RequestsInv(s, d, s.deps[d].(inflight := |Requests(left, d)|), left);
  }

  lemma AdmittedInv(s: Control, q: Req, d: Id)
    requires Inv(s)
    ensures Inv(Admitted(s, q, d))
  {
    if Routable(s, d) && q !in s.open {
      CountedInv(s, q, d);
    } else {
      assert Admitted(s, q, d) == s;
    }
  }

  /** A release takes its request off the count, and running it again changes nothing. */
  lemma FinishedInv(s: Control, q: Req)
    requires Inv(s)
    ensures Inv(Finished(s, q)) && Finished(Finished(s, q), q) == Finished(s, q)
    ensures q in s.open ==> Finished(s, q).deps[s.open[q]].inflight == s.deps[s.open[q]].inflight - 1
  {
    if q in s.open && s.open[q] in s.deps {
      var d := s.open[q];
      FinishCounts(s.open, q);
      assert s.deps[d].inflight == |Requests(s.open, d)|;
      RequestsInv(s, d, s.deps[d].(inflight := Down(s.deps[d].inflight)), s.open - {q});
    }
  }

  lemma CountedAfter(deps: map<Id, Dep>, open: map<Req, Id>, d: Id, p: Dep, left: map<Req, Id>)
    requires Counted(deps, open) && d in deps && p.inflight == |Requests(left, d)|
    requires forall c :: c != d ==> Requests(left, c) == Requests(open, c)
    requires forall q :: q in left ==> left[q] in deps
    ensures Counted(deps[d := p], left)
  {
  }

  lemma DeleteCounts(deps: map<Id, Dep>, open: map<Req, Id>, d: Id)
    requires Counted(deps, open)
    ensures Counted(deps - {d}, map q | q in open && open[q] != d :: open[q])
  {
    var left := map q | q in open && open[q] != d :: open[q];
    forall c | c in deps && c != d ensures Requests(left, c) == Requests(open, c) {
    }
  }

  lemma NextInv(s: Control, e: Event)
    requires Inv(s)
    ensures Inv(Next(s, e))
  {
    match e
    case On(d, a) => ActedInv(s, d, a);
    case Create(d, external) => CreatedInv(s, d, external);
    case Delete(d) => DeletedInv(s, d);
    case Dispose => DisposedInv(s);
    case Restart(torn) => BootInv(s, torn);
    case NodeUp(n) => if Between(s) { OnlineGood(s.deps, s.online, s.online + {n}); }
    case NodeDown(n) => if Between(s) { OnlineGood(s.deps, s.online, s.online - {n}); }
    case Admit(q, d) => AdmittedInv(s, q, d);
    case Finish(q) => FinishedInv(s, q);
    case _ =>
  }

  lemma {:induction false} AlwaysInv(s: Control, es: seq<Event>)
    requires Inv(s)
    ensures Inv(After(s, es))
  {
    if es != [] {
      AlwaysInv(s, es[..|es| - 1]);
      NextInv(After(s, es[..|es| - 1]), es[|es| - 1]);
    }
  }
}
