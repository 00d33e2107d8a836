/**
 Node update leases: one at a time, atomic with admission, and the next only after recovery.
 */
module DeploymentLease {
  import opened Outcomes
  import opened Deployments
  import opened DeploymentRuns
  import opened DeploymentSafety

  // ---------- one lease at a time, and the next after recovery ----------

  lemma OneLease(s: Control, n: Node)
    requires Next(s, Acquire(n)).granted != s.granted
    ensures Updating(s).None? && Next(s, Acquire(n)).lease == Some(Lease(n, s.granted, s.clock + LEASE_MS))
    ensures forall d :: d in s.deps && n in Nodes(s.deps[d]) ==> s.deps[d].inflight == 0 && !Routable(Next(s, Acquire(n)), d)
  {
  }

  /** A withdrawn deployment stays on the list until an attempt outside any lease, with nothing under way, finds it settled. */
  lemma LeavesSettled(s: Control, e: Event, d: Id)
    requires d in s.recovery && !e.Restart? && d !in Next(s, e).recovery
    ensures e.Acquire? && MayPrune(s, e.node) && Settled(s, d)
  {
  }

  /** At this point of the run an attempt to take a lease, made or about to be, finds the deployment settled. */
  predicate FoundSettled(s: Control, es: seq<Event>, i: nat, n: Node, d: Id)
    requires i <= |es|
  {
    var t := After(s, es[..i]);
    var asking := if i < |es| then es[i] else Acquire(n);
    asking.Acquire? && MayPrune(t, asking.node) && Settled(t, d)
  }

  lemma {:induction false} LeftWhen(s: Control, es: seq<Event>, n: Node, d: Id) returns (i: nat)
    requires d in s.recovery && (forall k :: 0 <= k < |es| ==> !es[k].Restart?) && d !in After(s, es).recovery
    ensures i < |es| && FoundSettled(s, es, i, n, d)
  {
    var init, e := es[..|es| - 1], es[|es| - 1];
    if d in After(s, init).recovery {
      LeavesSettled(After(s, init), e, d);
      i := |es| - 1;
    } else {
      i := LeftWhen(s, init, n, d);
      assert init[..i] == es[..i];
    }
  }

  /** Between a lease and the next, every deployment it withdrew was found ready again, deleted or not meant to run,
      at a moment when no lease was in force and nothing was under way. */
  lemma NextLeaseWaits(u: Control, m: Node, es: seq<Event>, n: Node, d: Id)
    requires Grants(u, m) && d in u.deps && m in Nodes(u.deps[d]) && Routable(u, d) && u.deps[d].running
    requires (forall k :: 0 <= k < |es| ==> !es[k].Restart?) && Grants(After(Next(u, Acquire(m)), es), n)
    ensures exists i :: 0 < i <= |es| && FoundSettled(Next(u, Acquire(m)), es, i, n, d)
  {
    var s := Next(u, Acquire(m));
    assert d in s.recovery && Updating(s).Some?;
    assert es[..|es|] == es && es[..0] == [];
    var i := |es|;
    if d !in After(s, es).recovery {
      i := LeftWhen(s, es, n, d);
    }
    assert FoundSettled(s, es, i, n, d);
  }

  // ---------- no request in flight on the leased node ----------

  /** The event neither ends the lease nor replaces control. */
  predicate During(s: Control, e: Event) {
    !e.Restart? && Updating(Next(s, e)) == Updating(s)
  }

  /** An assignment that agents may still report on. */
  predicate LiveWatch(p: Dep) {
    exists r :: r in p.rows && !p.rows[r].retired
  }

  /** An external deployment on this node that may come back into routing by its watch alone. */
  predicate MayReturn(p: Dep, n: Node) {
    p.external.Some? && p.external.value.node == n && p.running && (p.status.Loading? || p.status.Placing?) && LiveWatch(p)
  }

  /** It is out of routing with a request still running. */
  predicate Flapped(p: Dep, n: Node) {
    MayReturn(p, n) && p.endpoint.None? && p.inflight > 0
  }

  /** Placed on the node, or able to come back onto it without a start. */
  predicate Exposed(p: Dep, n: Node) {
    n in Nodes(p) || MayReturn(p, n)
  }

  predicate NoStart(ops: seq<Op>) {
    forall i :: 0 <= i < |ops| ==> !ops[i].kind.StartOp?
  }

  /** What a deployment keeps while the node is leased. */
  predicate Kept(p: Dep, n: Node) {
    NoStart(p.ops) && (Exposed(p, n) ==> p.inflight == 0)
  }

  lemma FailKept(p: Dep, env: Env, n: Node)
    requires Kept(p, n)
    ensures Kept(Fail(p, env), n)
  {
  }

  lemma OfflineKept(p: Dep, env: Env, node: Node, n: Node)
    requires Routes(p) && Kept(p, n)
    ensures Kept(Offline(p, env, node), n)
  {
    if MayReturn(Offline(p, env, node), n) {
      assert LiveWatch(p);
      assert Exposed(p, n);
    }
  }

  /** A retired row stays retired. */
  lemma WatchBefore(p: Dep, r: RowId, row: Row)
    requires r in p.rows && LiveWatch(p.(rows := p.rows[r := row])) && (!row.retired ==> !p.rows[r].retired)
    ensures LiveWatch(p)
  {
    var w :| w in p.rows[r := row] && !p.rows[r := row][w].retired;
    assert w in p.rows && !p.rows[w].retired;
  }

  lemma RowKept(p: Dep, q: Dep, r: RowId, row: Row, n: Node)
    requires Kept(p, n) && r in p.rows && (!row.retired ==> !p.rows[r].retired)
    requires q == p.(rows := p.rows[r := row], revived := q.revived)
    ensures Kept(q, n)
  {
    if LiveWatch(q) {
      assert LiveWatch(p.(rows := p.rows[r := row]));
      WatchBefore(p, r, row);
    }
  }

  lemma SetRowKept(p: Dep, r: RowId, state: RowState, n: Node)
    requires Kept(p, n) && r in p.rows
    ensures Kept(SetRow(p, r, state), n)
  {
    RowKept(p, SetRow(p, r, state), r, p.rows[r].(state := state), n);
  }

  lemma OnAssignmentStateKept(p: Dep, env: Env, r: RowId, state: RowState, leaving: bool, n: Node)
    requires Routes(p) && Kept(p, n) && r in p.rows
    ensures Kept(OnAssignmentState(p, env, r, state, leaving), n)
  {
    FailKept(p, env, n);
    var q := OnAssignmentState(p, env, r, state, leaving);
    if q.status.Ready? && !p.status.Ready? && n in Nodes(q) {
      assert LiveWatch(p);
      assert MayReturn(p, n);
    }
    if MayReturn(q, n) {
      assert LiveWatch(p);
      assert Exposed(p, n);
    }
  }

  lemma ReportKept(p: Dep, env: Env, r: RowId, state: RowState, leaving: bool, n: Node)
    requires Routes(p) && Kept(p, n) && r in p.rows
    ensures Kept(Report(p, env, r, state, leaving), n)
  {
    SetRowKept(p, r, state, n);
    OnAssignmentStateKept(SetRow(p, r, state), env, r, state, leaving, n);
  }

  lemma HelloRowKept(p: Dep, env: Env, r: RowId, have: Option<RowState>, duplicate: bool, n: Node)
    requires Routes(p) && Kept(p, n) && r in p.rows && (have.Some? ==> p.rows[r].state == have.value)
    ensures Kept(HelloRow(p, env, r, have, duplicate), n)
  {
    var row := p.rows[r];
    if have.None? || have == Some(RowStopped) {
      var gone := p.(rows := p.rows[r := row.(retired := true, state := RowStopped)]);
      RowKept(p, gone, r, row.(retired := true, state := RowStopped), n);
      FailKept(gone, env, n);
      if Wants(p, r) && row.state != RowStopped {
        RowKept(p, p.(rows := p.rows[r := row.(retired := false, state := Sent)]), r, row.(retired := false, state := Sent), n);
      }
    } else if !Wants(p, r) || duplicate {
      RowKept(p, p.(rows := p.rows[r := row.(retired := true)]), r, row.(retired := true), n);
    } else if p.external.Some? {
      OnAssignmentStateKept(p, env, r, have.value, false, n);
    } else {
      FailKept(p, env, n);
    }
  }

  lemma GreetKept(p: Dep, env: Env, r: RowId, have: Option<RowState>, duplicate: bool, n: Node)
    requires Routes(p) && Kept(p, n) && r in p.rows
    ensures Kept(Greet(p, env, r, have, duplicate), n)
  {
    if have.Some? {
      SetRowKept(p, r, have.value, n);
      HelloRowKept(SetRow(p, r, have.value), env, r, have, duplicate, n);
    } else {
      HelloRowKept(p, env, r, have, duplicate, n);
    }
  }

  /** A further row is retired by an operation that is not a start. */
  lemma TearKept(p: Dep, todo: seq<RowId>, again: bool, n: Node)
    requires Kept(p, n) && p.ops != []
    ensures Kept(Tear(p, todo, again), n)
  {
    var q := Tear(p, todo, again);
    if MayReturn(q, n) {
      var w :| w in q.rows && !q.rows[w].retired;
      assert w in p.rows && !p.rows[w].retired;
      assert Exposed(p, n);
    }
  }

  /** A step that keeps rows, plan, requests and kind of work, and adds no route. */
  lemma SameExposure(p: Dep, q: Dep, n: Node)
    requires Kept(p, n) && NoStart(q.ops) && q.rows == p.rows && q.plan == p.plan && Steady(p, q)
    requires q.endpoint.Some? ==> q.endpoint == p.endpoint
    requires (q.status.Loading? || q.status.Placing?) && q.running ==> (p.status.Loading? || p.status.Placing?) && p.running
    ensures Kept(q, n)
  {
    if MayReturn(q, n) {
      assert LiveWatch(p);
    }
  }

  /** Calls and checks other than a start, which the lease refuses. */
  lemma CallKept(p: Dep, env: Env, a: Action, n: Node)
    requires Kept(p, n) && env.updating && Enabled(p, env, a)
    requires a.Starting? || a.Stopping? || a.CheckingDrain? || a.GivingUp? || a.Withdrawing?
    ensures Kept(Act(p, env, a), n)
  {
    match a
    case Starting(recovering, fromReady, abandon) => assert Act(p, env, a) == p;
    case Stopping => SameExposure(p, Stop(p), n);
    case CheckingDrain => SameExposure(p, FinishDraining(p), n);
    case GivingUp => SameExposure(p, RecordFailure(p), n);
    case Withdrawing =>
  }

  /** Steps of an operation that is not a start. */
  lemma WorkKept(p: Dep, env: Env, a: Action, n: Node)
    requires Kept(p, n) && Enabled(p, env, a)
    requires a.Beginning? || a.TearingRow? || a.EndingTear? || a.Proceeding? || a.Reaping?
    ensures Kept(Act(p, env, a), n)
  {
    match a
    case Beginning(todo) =>
      SameExposure(p, SetPc(p, Over), n);
      TearKept(p, todo, false, n);
    case TearingRow =>
      SameExposure(p, SetPc(p, Over), n);
      TearKept(p, p.ops[0].pc.todo, p.ops[0].pc.Retearing?, n);
    case EndingTear(todo) => SameExposure(p, TearEnd(p, env, todo), n);
    case Proceeding => SameExposure(p, Proceed(p), n);
    case Reaping => SameExposure(p, Reap(p), n);
  }

  lemma ActKept(p: Dep, env: Env, a: Action, n: Node)
    requires Routes(p) && Kept(p, n) && env.updating
    ensures Kept(Act(p, env, a), n)
  {
    if Enabled(p, env, a) {
      match a
      case Failing => FailKept(p, env, n);
      case LosingNode(node) => OfflineKept(p, env, node, n);
      case Reporting(r, state, leaving) => ReportKept(p, env, r, state, leaving, n);
      case Greeting(r, have, duplicate) => GreetKept(p, env, r, have, duplicate, n);
      case TearingRow => WorkKept(p, env, a, n);
      case Starting(recovering, fromReady, abandon) => CallKept(p, env, a, n);
      case Stopping => CallKept(p, env, a, n);
      case CheckingDrain => CallKept(p, env, a, n);
      case GivingUp => CallKept(p, env, a, n);
      case Withdrawing => CallKept(p, env, a, n);
      case Beginning(todo) => WorkKept(p, env, a, n);
      case EndingTear(todo) => WorkKept(p, env, a, n);
      case Proceeding => WorkKept(p, env, a, n);
      case Reaping => WorkKept(p, env, a, n);
      case _ =>
    }
  }

  // ---------- whole lease periods ----------

  ghost predicate Held(s: Control, n: Node) {
    forall d :: d in s.deps ==> Kept(s.deps[d], n)
  }

  lemma UpdateHeld(s: Control, d: Id, q: Dep, n: Node)
    requires Held(s, n) && Kept(q, n)
    ensures Held(s.(deps := s.deps[d := q]), n)
  {
  }

  lemma ActedHeld(s: Control, d: Id, a: Action, n: Node)
    requires Inv(s) && Held(s, n) && Updating(s) == Some(n)
    ensures Held(Acted(s, d, a), n)
  {
    if d in s.deps {
      assert Good(s.deps[d], s.online);
      ActKept(s.deps[d], EnvOf(s, d), a, n);
      UpdateHeld(s, d, Act(s.deps[d], EnvOf(s, d), a), n);
    }
  }

  lemma AdmittedHeld(s: Control, q: Req, d: Id, n: Node)
    requires Inv(s) && Held(s, n) && Updating(s) == Some(n)
    ensures Held(Admitted(s, q, d), n)
  {
    if Routable(s, d) && q !in s.open {
      var p := s.deps[d].(inflight := s.deps[d].inflight + 1);
      assert !Exposed(p, n);
    }
  }

  lemma FinishedHeld(s: Control, q: Req, n: Node)
    requires Held(s, n)
    ensures Held(Finished(s, q), n)
  {
    if q in s.open && s.open[q] in s.deps {
      var d := s.open[q];
      var p := s.deps[d].(inflight := Down(s.deps[d].inflight));
      assert Exposed(p, n) == Exposed(s.deps[d], n) by {
        assert LiveWatch(p) == LiveWatch(s.deps[d]);
      }
    }
  }

  lemma DisposedHeld(s: Control, n: Node)
    requires Held(s, n)
    ensures Held(Disposed(s), n)
  {
    forall d | d in s.deps ensures Kept(Cancel(s.deps[d]), n) {
      assert LiveWatch(Cancel(s.deps[d])) == LiveWatch(s.deps[d]);
    }
  }

  lemma NextHeld(s: Control, e: Event, n: Node)
    requires Inv(s) && Held(s, n) && Updating(s) == Some(n) && During(s, e)
    ensures Held(Next(s, e), n)
  {
    match e
    case On(d, a) => ActedHeld(s, d, a, n);
    case Admit(q, d) => AdmittedHeld(s, q, d, n);
    case Finish(q) => FinishedHeld(s, q, n);
    case Dispose => DisposedHeld(s, n);
    case _ =>
  }

  /** Every event falls within the lease. */
  ghost predicate AllDuring(s: Control, es: seq<Event>) {
    forall i :: 0 <= i < |es| ==> During(After(s, es[..i]), es[i])
  }

  lemma {:induction false} StaysHeld(s: Control, es: seq<Event>, n: Node)
    requires Inv(s) && Held(s, n) && Updating(s) == Some(n) && AllDuring(s, es)
    ensures Held(After(s, es), n) && Updating(After(s, es)) == Some(n)
  {
    if es != [] {
      var init, e := es[..|es| - 1], es[|es| - 1];
      forall i | 0 <= i < |init| ensures During(After(s, init[..i]), init[i]) {
        assert init[..i] == es[..i];
        assert During(After(s, es[..i]), es[i]);
      }
      StaysHeld(s, init, n);
      AlwaysInv(s, init);
      assert During(After(s, es[..|es| - 1]), es[|es| - 1]);
      NextHeld(After(s, init), e, n);
    }
  }

  /** Nothing placed on the node is in flight or routable. */
  predicate Isolated(s: Control, n: Node, d: Id) {
    d in s.deps && n in Nodes(s.deps[d]) ==> s.deps[d].inflight == 0 && !Routable(s, d)
  }

  lemma GrantHeld(s: Control, n: Node)
    requires Inv(s) && Grants(s, n) && forall d :: d in s.deps ==> !Flapped(s.deps[d], n)
    ensures Held(Next(s, Acquire(n)), n)
  {
    var t := Next(s, Acquire(n));
    forall d | d in t.deps ensures Kept(t.deps[d], n) {
      assert Good(s.deps[d], s.online);
      assert !Flapped(s.deps[d], n);
    }
  }

  /** Without a flapped external deployment the leased node is isolated for as long as the lease lasts. */
  lemma LeaseIsolates(s: Control, n: Node, es: seq<Event>, d: Id)
    requires Inv(s) && Grants(s, n) && forall c :: c in s.deps ==> !Flapped(s.deps[c], n)
    requires AllDuring(Next(s, Acquire(n)), es)
    ensures Isolated(After(Next(s, Acquire(n)), es), n, d)
  {
    var t := Next(s, Acquire(n));
    GrantHeld(s, n);
    NextInv(s, Acquire(n));
    StaysHeld(t, es, n);
  }

  /** Its watch brings a flapped deployment back onto the leased node with the request still in flight. */
  lemma FlappedReturns(p: Dep, env: Env, n: Node) returns (acts: seq<Action>)
    requires Routes(p) && Flapped(p, n) && p.ops == [] && !env.closed
    ensures
      var q := ActAll(p, env, acts);
      n in Nodes(q) && q.inflight > 0
  {
    var r :| r in p.rows && !p.rows[r].retired;
    var ready := Reporting(r, RowReady, false);
    if p.status.Loading? {
      acts := [ready];
      assert acts[..0] == [];
      assert ActAll(p, env, acts[..0]) == p;
    } else {
      acts := [ready, LosingNode(n), ready];
      var q := SetRow(p, r, RowReady);
      assert acts[..2] == [ready, LosingNode(n)] && acts[..2][..1] == [ready] && [ready][..0] == [];
      assert ActAll(p, env, [ready]) == Act(ActAll(p, env, []), env, ready) == q;
      assert q.rows[r].node == n && q.rows[r].state != RowStopped;
      assert Offline(q, env, n) == q.(status := Loading, endpoint := None);
      assert ActAll(p, env, acts[..2]) == q.(status := Loading, endpoint := None);
    }
  }

  lemma {:induction false} OnsAreDuring(s: Control, d: Id, acts: seq<Action>)
    requires d in s.deps
    ensures AllDuring(s, Ons(d, acts))
  {
    var es := Ons(d, acts);
    forall i | 0 <= i < |es| ensures During(After(s, es[..i]), es[i]) {
      assert es[..i] == Ons(d, acts[..i]);
      Lift(s, d, acts[..i]);
    }
  }

  /** The lease isolates its node in every run that falls within it. */
  ghost predicate LeaseHolds(s: Control, n: Node) {
    forall es, d :: AllDuring(Next(s, Acquire(n)), es) ==> Isolated(After(Next(s, Acquire(n)), es), n, d)
  }

  /** A granted lease isolates its node, whatever agents report, if and only if no external deployment there had
      flapped with a request in flight. */
  lemma LeaseHoldsExactly(s: Control, n: Node)
    requires Inv(s) && Grants(s, n)
    ensures LeaseHolds(s, n) <==> forall d :: d in s.deps ==> !Flapped(s.deps[d], n)
  {
    if forall d :: d in s.deps ==> !Flapped(s.deps[d], n) {
      forall es, d | AllDuring(Next(s, Acquire(n)), es) ensures Isolated(After(Next(s, Acquire(n)), es), n, d) {
        LeaseIsolates(s, n, es, d);
      }
    } else {
      var d :| d in s.deps && Flapped(s.deps[d], n);
      FlappedBreaks(s, n, d);
    }
  }

  lemma FlappedBreaks(s: Control, n: Node, d: Id)
    requires Inv(s) && Grants(s, n) && d in s.deps && Flapped(s.deps[d], n)
    ensures !LeaseHolds(s, n)
  {
    var t := Next(s, Acquire(n));
    assert t.deps == s.deps;
    assert Good(s.deps[d], s.online);
    var acts := FlappedReturns(t.deps[d], EnvOf(t, d), n);
    Lift(t, d, acts);
    OnsAreDuring(t, d, acts);
    assert !Isolated(After(t, Ons(d, acts)), n, d);
  }
}
