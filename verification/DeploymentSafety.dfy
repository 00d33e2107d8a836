/** What holds over every run of the control plane: routes, stops, stale starts and acknowledged teardown. */
module DeploymentSafety {
  import opened Outcomes
  import opened Deployments
  import opened DeploymentRuns

  // ---------- the endpoint law ----------

  /** In every run, an endpoint means ready and ready means an endpoint, and only what is meant to run is ready.
      The one exception takes an agent that reports life for an assignment it had reported stopped. */
  lemma EndpointExactlyWhenReady(s: Control, es: seq<Event>, d: Id)
    requires Initial(s) && d in After(s, es).deps
    ensures
      var p := After(s, es).deps[d];
      && (p.status.Ready? ==> p.endpoint.Some? && p.running)
      && (p.external.None? || !p.revived ==> Law(p))
      && (!Law(p) ==> p.status.Loading? && !Routable(After(s, es), d))
  {
    AlwaysInv(s, es);
    var p := After(s, es).deps[d];
    assert Good(p, After(s, es).online);
  }

  /** The start of an external deployment sends its watch while the deployment is in routing. */
  predicate Overwrites(p: Dep, env: Env, a: Action) {
    && a.Watching? && Enabled(p, env, a) && p.status.Ready?
    && AssertRunning(p, env, p.ops[0].kind.generation) && p.external.value.node in env.online
  }

  predicate SameRoute(p: Dep, q: Dep) {
    q.status == p.status && q.endpoint == p.endpoint
  }

  lemma ThrowLaw(p: Dep, env: Env, todo: seq<RowId>)
    requires p.ops != []
    ensures SameRoute(p, Throw(p, env, todo)) || Law(Throw(p, env, todo))
  {
  }

  lemma FailLaw(p: Dep, env: Env)
    ensures SameRoute(p, Fail(p, env)) || Law(Fail(p, env))
  {
  }

  lemma ReactionLaw(p: Dep, env: Env, r: RowId, state: RowState, leaving: bool)
    requires Law(p) && r in p.rows
    ensures Law(OnAssignmentState(p, env, r, state, leaving))
  {
    FailLaw(p, env);
  }

  lemma GreetLaw(p: Dep, env: Env, r: RowId, have: Option<RowState>, duplicate: bool)
    requires Law(p) && r in p.rows
    ensures Law(Greet(p, env, r, have, duplicate))
  {
    var q := if have.Some? then SetRow(p, r, have.value) else p;
    if have.Some? {
      ReactionLaw(q, env, r, have.value, false);
    }
    FailLaw(q, env);
    FailLaw(q.(rows := q.rows[r := q.rows[r].(retired := true, state := RowStopped)]), env);
  }

  /** Steps of an operation that neither stages nor publishes. */
  lemma WorkLaw(p: Dep, env: Env, a: Action)
    requires Good(p, env.online) && Law(p) && Enabled(p, env, a)
    requires a.Beginning? || a.TearingRow? || a.EndingTear? || a.Proceeding? || a.Aborting? || a.Reaping?
    ensures Law(Act(p, env, a))
  {
    match a
    case Beginning(todo) =>
    case TearingRow =>
    case EndingTear(todo) => ThrowLaw(p, env, todo);
    case Proceeding =>
    case Aborting(todo) => ThrowLaw(p, env, todo);
    case Reaping =>
  }

  /** Of all actions, that one and no other breaks the law. */
  lemma LawStep(p: Dep, env: Env, a: Action)
    requires Good(p, env.online) && Law(p)
    ensures Law(Act(p, env, a)) <==> !Overwrites(p, env, a)
  {
    if Enabled(p, env, a) {
      match a
      case Failing => FailLaw(p, env);
      case Reporting(r, state, leaving) => ReactionLaw(SetRow(p, r, state), env, r, state, leaving);
      case Greeting(r, have, duplicate) => GreetLaw(p, env, r, have, duplicate);
      case Staging(plan, loading, sent, todo) => StagingLaw(p, env, plan, loading, sent, todo);
      case Watching(r, todo) => ThrowLaw(p, env, todo);
      case Publishing(node, todo) => ThrowLaw(p, env, todo);
      case Starting(_, _, _) =>
      case Stopping =>
      case LosingNode(_) =>
      case CheckingDrain =>
      case GivingUp =>
      case Withdrawing =>
      case _ => WorkLaw(p, env, a);
    }
  }

  lemma StagingLaw(p: Dep, env: Env, plan: set<Node>, loading: bool, sent: map<RowId, Node>, todo: seq<RowId>)
    requires Good(p, env.online) && Law(p) && p.ops != [] && p.ops[0].kind.StartOp?
    requires (p.ops[0].pc.Cleared? || p.ops[0].pc.Building?) && p.external.None?
    ensures Law(Stage(p, env, plan, loading, sent, todo))
  {
    ThrowLaw(p, env, todo);
    assert p.endpoint.None?;
  }

  predicate Breaks(s: Control, e: Event, d: Id) {
    e.On? && e.id == d && d in s.deps && Overwrites(s.deps[d], EnvOf(s, d), e.action)
  }

  predicate Lawful(s: Control, d: Id) {
    d in s.deps ==> Law(s.deps[d])
  }

  lemma NextLawful(s: Control, e: Event, d: Id)
    requires Inv(s) && Lawful(s, d)
    ensures Lawful(Next(s, e), d) <==> !Breaks(s, e, d)
  {
    match e
    case On(c, a) =>
      if c == d && d in s.deps {
        LawStep(s.deps[d], EnvOf(s, d), a);
      }
    case Restart(torn) =>
      if d in s.deps {
        RestoredLaw(s.deps[d], Intent(s, torn, d), Duplicate(s, torn, d));
      }
    case _ => OtherLawful(s, e, d);
  }

  lemma OtherLawful(s: Control, e: Event, d: Id)
    requires Inv(s) && Lawful(s, d) && !e.On? && !e.Restart?
    ensures Lawful(Next(s, e), d)
  {
  }

  lemma RestoredLaw(p: Dep, running: bool, duplicate: bool)
    requires Routes(p)
    ensures Law(Restored(p, running, duplicate))
  {
  }

  lemma {:induction false} LawfulUntil(s: Control, es: seq<Event>, d: Id, i: nat)
    requires Initial(s) && i <= |es| && forall k :: 0 <= k < i ==> !Breaks(After(s, es[..k]), es[k], d)
    ensures Lawful(After(s, es[..i]), d)
  {
    if i > 0 {
      LawfulUntil(s, es, d, i - 1);
      AlwaysInv(s, es[..i - 1]);
      assert es[..i][..i - 1] == es[..i - 1];
      NextLawful(After(s, es[..i - 1]), es[i - 1], d);
    }
  }

  /** A run keeps the law at every point if and only if no start sends a watch for a deployment in routing. */
  lemma LawExactly(s: Control, es: seq<Event>, d: Id)
    requires Initial(s)
    ensures (forall i :: 0 <= i <= |es| ==> Lawful(After(s, es[..i]), d))
            <==> forall i :: 0 <= i < |es| ==> !Breaks(After(s, es[..i]), es[i], d)
  {
    if forall i :: 0 <= i < |es| ==> !Breaks(After(s, es[..i]), es[i], d) {
      forall i | 0 <= i <= |es| ensures Lawful(After(s, es[..i]), d) {
        LawfulUntil(s, es, d, i);
      }
    } else {
      var i :| 0 <= i < |es| && Breaks(After(s, es[..i]), es[i], d);
      BrokenThere(s, es, d, i);
    }
  }

  lemma BrokenThere(s: Control, es: seq<Event>, d: Id, i: nat)
    requires Initial(s) && i < |es| && Breaks(After(s, es[..i]), es[i], d)
    ensures !Lawful(After(s, es[..i]), d) || !Lawful(After(s, es[..i + 1]), d)
  {
    AlwaysInv(s, es[..i]);
    assert es[..i + 1][..i] == es[..i];
    if Lawful(After(s, es[..i]), d) {
      NextLawful(After(s, es[..i]), es[i], d);
    }
  }

  // ---------- external servers ----------

  /** In every run, two deployments meant to run never watch the same server, and a restart finds no duplicate. */
  lemma ExternalsUnique(s: Control, es: seq<Event>, torn: Option<TornIntent>, c: Id, d: Id)
    requires Initial(s) && c in After(s, es).deps && d in After(s, es).deps && c != d
    ensures
      var t := After(s, es);
      && (t.deps[c].running && t.deps[d].running && t.deps[c].external.Some? ==> t.deps[c].external != t.deps[d].external)
      && (Intent(t, torn, d) ==> !Duplicate(t, torn, d))
  {
    AlwaysInv(s, es);
    var t := After(s, es);
    if Intent(t, torn, d) && t.deps[d].external.Some? {
      forall b | b in t.deps && b < d && Intent(t, torn, b) ensures t.deps[b].external != t.deps[d].external {
        IntentsUnique(t, torn, d, b);
      }
    }
  }

  // ---------- runs of one deployment ----------

  /** Actions on one deployment, in order. */
  function ActAll(p: Dep, env: Env, acts: seq<Action>): (q: Dep)
    ensures q.external == p.external
  {
    if acts == [] then p else Act(ActAll(p, env, acts[..|acts| - 1]), env, acts[|acts| - 1])
  }

  /** Actions on the deployment can bring it from p to q. */
  ghost predicate Leads(p: Dep, env: Env, q: Dep) {
    exists acts :: ActAll(p, env, acts) == q
  }

  lemma Here(p: Dep, env: Env)
    ensures Leads(p, env, p)
  {
    assert ActAll(p, env, []) == p;
  }

  lemma Step(p: Dep, env: Env, q: Dep, a: Action, r: Dep)
    requires Leads(p, env, q) && Act(q, env, a) == r
    ensures Leads(p, env, r)
  {
    var acts :| ActAll(p, env, acts) == q;
    assert (acts + [a])[..|acts|] == acts;
    assert ActAll(p, env, acts + [a]) == r;
  }

  lemma Onward(p: Dep, env: Env, q: Dep, r: Dep)
    requires Leads(p, env, q) && Leads(q, env, r)
    ensures Leads(p, env, r)
  {
    var acts :| ActAll(q, env, acts) == r;
    OnwardAll(p, env, q, acts);
  }

  lemma {:induction false} OnwardAll(p: Dep, env: Env, q: Dep, acts: seq<Action>)
    requires Leads(p, env, q)
    ensures Leads(p, env, ActAll(q, env, acts))
    decreases |acts|
  {
    if acts != [] {
      OnwardAll(p, env, q, acts[..|acts| - 1]);
      Step(p, env, ActAll(q, env, acts[..|acts| - 1]), acts[|acts| - 1], ActAll(q, env, acts));
    }
  }

  /** What a deployment does leaves its own surroundings as they are. */
  lemma SameEnv(s: Control, d: Id, q: Dep)
    requires d in s.deps && q.external == s.deps[d].external
    ensures EnvOf(s.(deps := s.deps[d := q]), d) == EnvOf(s, d)
  {
    var t := s.deps[d := q];
    if Taken(s.deps, d) {
      var c :| c in s.deps && c != d && Claims(s.deps[c], q.external.value);
      assert c in t && Claims(t[c], q.external.value);
    }
  }

  function Ons(d: Id, acts: seq<Action>): seq<Event> {
    seq(|acts|, i requires 0 <= i < |acts| => On(d, acts[i]))
  }

  lemma {:induction false} Lift(s: Control, d: Id, acts: seq<Action>)
    requires d in s.deps
    ensures After(s, Ons(d, acts)) == s.(deps := s.deps[d := ActAll(s.deps[d], EnvOf(s, d), acts)])
  {
    if acts == [] {
      assert s.deps[d := s.deps[d]] == s.deps;
    } else {
      var init := acts[..|acts| - 1];
      Lift(s, d, init);
      var p := ActAll(s.deps[d], EnvOf(s, d), init);
      SameEnv(s, d, p);
      assert Ons(d, acts)[..|acts| - 1] == Ons(d, init);
      assert s.deps[d := p][d := Act(p, EnvOf(s, d), acts[|acts| - 1])] == s.deps[d := Act(p, EnvOf(s, d), acts[|acts| - 1])];
    }
  }

  lemma {:induction false} AfterJoin(s: Control, a: seq<Event>, b: seq<Event>)
    ensures After(s, a + b) == After(After(s, a), b)
    decreases |b|
  {
    if b == [] {
      assert a + b == a;
    } else {
      AfterJoin(s, a, b[..|b| - 1]);
      assert (a + b)[..|a + b| - 1] == a + b[..|b| - 1];
    }
  }

  // ---------- stop ----------

  /** An event that can make the deployment meant to run. */
  predicate Wakes(e: Event, d: Id) {
    || (e.On? && e.id == d && e.action.Starting?)
    || (e.Restart? && e.torn == Some(TornIntent(d, true)))
  }

  lemma IdleStays(s: Control, e: Event, d: Id)
    requires !(d in s.deps && s.deps[d].running) && !Wakes(e, d)
    ensures !(d in Next(s, e).deps && Next(s, e).deps[d].running)
  {
    match e
    case On(c, a) =>
      assert c == d && d in s.deps ==> !Act(s.deps[d], EnvOf(s, d), a).running;
    case _ =>
  }

  lemma {:induction false} IdleForever(s: Control, es: seq<Event>, d: Id)
    requires !(d in s.deps && s.deps[d].running) && forall i :: 0 <= i < |es| ==> !Wakes(es[i], d)
    ensures !(d in After(s, es).deps && After(s, es).deps[d].running)
  {
    if es != [] {
      IdleForever(s, es[..|es| - 1], d);
      IdleStays(After(s, es[..|es| - 1]), es[|es| - 1], d);
    }
  }

  /** After a stop the deployment is never routable again until a later start. */
  lemma StopIsFinal(s: Control, before: seq<Event>, d: Id, es: seq<Event>)
    requires Initial(s) && forall i :: 0 <= i < |es| ==> !Wakes(es[i], d)
    ensures !Routable(After(Next(After(s, before), On(d, Stopping)), es), d)
  {
    var t := Next(After(s, before), On(d, Stopping));
    AlwaysInv(s, before);
    NextInv(After(s, before), On(d, Stopping));
    AlwaysInv(t, es);
    IdleForever(t, es, d);
    var u := After(t, es);
    if d in u.deps {
      assert Good(u.deps[d], u.online);
    }
  }

  // ---------- stale starts ----------

  /** Control and the deployment live on. */
  predicate LivesOn(e: Event, d: Id) {
    !e.Restart? && !(e.Delete? && e.id == d)
  }

  lemma NextGeneration(s: Control, e: Event, d: Id)
    requires d in s.deps && LivesOn(e, d)
    ensures d in Next(s, e).deps && Next(s, e).deps[d].generation >= s.deps[d].generation
  {
    match e
    case On(c, a) => assert Steady(s.deps[d], Act(s.deps[d], EnvOf(s, d), a));
    case _ =>
  }

  lemma {:induction false} GenerationGrows(s: Control, es: seq<Event>, d: Id)
    requires d in s.deps && forall i :: 0 <= i < |es| ==> LivesOn(es[i], d)
    ensures d in After(s, es).deps && After(s, es).deps[d].generation >= s.deps[d].generation
  {
    if es != [] {
      GenerationGrows(s, es[..|es| - 1], d);
      NextGeneration(After(s, es[..|es| - 1]), es[|es| - 1], d);
    }
  }

  /** A start step that publishes or sends assignments is of the current generation and still wanted. */
  lemma OnlyCurrentStartActs(p: Dep, env: Env, a: Action)
    requires a.Staging? || a.Watching? || a.Publishing? || a.Aborting?
    ensures
      var q := Act(p, env, a);
      && ((q.status.Ready? && !p.status.Ready?) || q.rows.Keys != p.rows.Keys || q.plan != p.plan ==> p.running)
      && ((q.status.Ready? && !p.status.Ready?) || q.rows != p.rows || q.plan != p.plan ==>
            p.ops != [] && p.ops[0].kind.StartOp? && p.ops[0].kind.generation == p.generation && !env.closed)
  {
    if Enabled(p, env, a) {
      ThrowVoid(p, env, a.todo);
    }
  }

  /** An exception adds nothing, and touches the rows only for the current start. */
  lemma ThrowVoid(p: Dep, env: Env, todo: seq<RowId>)
    requires p.ops != []
    ensures
      var q := Throw(p, env, todo);
      && (q.status.Ready? ==> p.status.Ready?) && q.rows.Keys == p.rows.Keys && q.plan == p.plan
      && (q.rows != p.rows ==> p.ops[0].kind.StartOp? && p.ops[0].kind.generation == p.generation && !env.closed)
  {
  }

  lemma StaleStep(p: Dep, env: Env, a: Action)
    requires a.Staging? || a.Watching? || a.Publishing? || a.Aborting?
    requires p.ops != [] && p.ops[0].kind.StartOp? && p.ops[0].kind.generation < p.generation
    ensures
      var q := Act(p, env, a);
      q.rows == p.rows && q.plan == p.plan && q.status == p.status && q.endpoint == p.endpoint
  {
  }

  /** Once a start of generation g is cancelled, none of its later steps publishes, plans or sends anything. */
  lemma StaleStartIsVoid(s: Control, es: seq<Event>, d: Id, g: nat, a: Action)
    requires d in s.deps && g < s.deps[d].generation && forall i :: 0 <= i < |es| ==> LivesOn(es[i], d)
    requires a.Staging? || a.Watching? || a.Publishing? || a.Aborting?
    requires d in After(s, es).deps && After(s, es).deps[d].ops != [] && After(s, es).deps[d].ops[0].kind.StartOp?
    requires After(s, es).deps[d].ops[0].kind.generation == g
    ensures
      var t := After(s, es);
      var p, q := t.deps[d], Next(t, On(d, a)).deps[d];
      q.rows == p.rows && q.plan == p.plan && q.status == p.status && q.endpoint == p.endpoint
  {
    GenerationGrows(s, es, d);
    var t := After(s, es);
    StaleStep(t.deps[d], EnvOf(t, d), a);
  }

  // ---------- acknowledged teardown ----------

  /** A start that gets past its teardown leaves every earlier assignment stopped, or retired on an offline node. */
  lemma TeardownIsAcknowledged(s: Control, es: seq<Event>, d: Id, todo: seq<RowId>)
    requires Initial(s) && d in After(s, es).deps
    requires
      var t := After(s, es);
      var p, q := t.deps[d], Next(t, On(d, EndingTear(todo))).deps[d];
      p.ops != [] && !p.ops[0].pc.Cleared? && q.ops != [] && q.ops[0].pc.Cleared? && !p.revived
    ensures
      var t := After(s, es);
      forall r :: r in t.deps[d].rows ==>
        || t.deps[d].rows[r].state == RowStopped
        || (t.deps[d].ops[0].kind.StartOp? && t.deps[d].rows[r].retired && t.deps[d].rows[r].node !in t.online)
  {
    AlwaysInv(s, es);
    var t := After(s, es);
    assert Good(t.deps[d], t.online);
    TearEndMeans(t.deps[d], EnvOf(t, d), todo);
  }

  lemma TearEndMeans(p: Dep, env: Env, todo: seq<RowId>)
    requires Torn(p) && p.ops != [] && !p.ops[0].pc.Cleared? && !p.revived
    requires Act(p, env, EndingTear(todo)).ops != [] && Act(p, env, EndingTear(todo)).ops[0].pc.Cleared?
    ensures forall r :: r in p.rows ==>
              p.rows[r].state == RowStopped || (p.ops[0].kind.StartOp? && p.rows[r].retired && p.rows[r].node !in env.online)
  {
    assert CoveredBy(p.rows, []);
    forall r | r in p.rows
      ensures p.rows[r].state == RowStopped || (p.ops[0].kind.StartOp? && p.rows[r].retired && p.rows[r].node !in env.online)
    {
      assert !Pending(p, env, r);
    }
  }

  /** A deployment becomes `stopped` only when every one of its assignments is. */
  lemma StoppedMeansStopped(s: Control, es: seq<Event>, d: Id, a: Action)
    requires Initial(s) && d in After(s, es).deps && !After(s, es).deps[d].revived
    requires !After(s, es).deps[d].status.Stopped?
    ensures
      var q := Next(After(s, es), On(d, a)).deps[d];
      q.status.Stopped? ==> AllStopped(q.rows)
  {
    AlwaysInv(s, es);
    var t := After(s, es);
    assert Good(t.deps[d], t.online);
    StoppedStep(t.deps[d], EnvOf(t, d), a);
  }

  lemma StoppedStep(p: Dep, env: Env, a: Action)
    requires Torn(p) && !p.revived && !p.status.Stopped?
    ensures Act(p, env, a).status.Stopped? ==> AllStopped(Act(p, env, a).rows)
  {
    if a.Proceeding? || a.CheckingDrain? {
      assert Act(p, env, a).rows == p.rows;
    }
  }
}
