/** What every step of a deployment keeps. */
module DeploymentSteps {
  import opened Outcomes
  import opened Deployments

  lemma StartGood(p: Dep, env: Env, recovering: bool, fromReady: bool, abandon: bool)
    requires Good(p, env.online)
    ensures Good(Start(p, env, recovering, fromReady, abandon), env.online)
  {
  }

  lemma StopGood(p: Dep, online: set<Node>)
    requires Good(p, online)
    ensures Good(Stop(p), online)
  {
  }

  lemma FailGood(p: Dep, env: Env)
    requires Good(p, env.online)
    ensures Good(Fail(p, env), env.online)
  {
  }

  lemma OfflineGood(p: Dep, env: Env, node: Node)
    requires Good(p, env.online)
    ensures Good(Offline(p, env, node), env.online)
  {
  }

  lemma FinishDrainingGood(p: Dep, online: set<Node>)
    requires Good(p, online)
    ensures Good(FinishDraining(p), online)
  {
  }

  lemma SetRowGood(p: Dep, r: RowId, state: RowState, online: set<Node>)
    requires Good(p, online) && r in p.rows
    ensures Good(SetRow(p, r, state), online)
  {
  }

  /** The reaction comes from a row that is not retired, so not while a start still clears up. */
  lemma OnAssignmentStateGood(p: Dep, env: Env, r: RowId, state: RowState, leaving: bool)
    requires Good(p, env.online) && !Due(p) && r in p.rows && p.rows[r].state == state
    ensures Good(OnAssignmentState(p, env, r, state, leaving), env.online)
  {
    FailGood(p, env);
  }

  lemma ReportGood(p: Dep, env: Env, r: RowId, state: RowState, leaving: bool)
    requires Good(p, env.online) && !Due(p) && r in p.rows
    ensures Good(Report(p, env, r, state, leaving), env.online)
  {
    SetRowGood(p, r, state, env.online);
    OnAssignmentStateGood(SetRow(p, r, state), env, r, state, leaving);
  }

  /** Retiring a row, stopped or not, leaves less to clear up. */
  lemma RetireGood(p: Dep, r: RowId, row: Row, online: set<Node>)
    requires Good(p, online) && r in p.rows && row.node == p.rows[r].node
    requires row.retired && (row.state == RowStopped || row.state == p.rows[r].state)
    ensures Good(p.(rows := p.rows[r := row]), online)
  {
  }

  lemma ReissueGood(p: Dep, r: RowId, online: set<Node>)
    requires Good(p, online) && !Due(p) && r in p.rows && p.external.Some? && Wants(p, r) && p.rows[r].state != RowStopped
    ensures Good(p.(rows := p.rows[r := p.rows[r].(retired := false, state := Sent)]), online)
  {
  }

  lemma HelloRowGood(p: Dep, env: Env, r: RowId, have: Option<RowState>, duplicate: bool)
    requires Good(p, env.online) && !Due(p) && r in p.rows && (have.Some? ==> p.rows[r].state == have.value)
    ensures Good(HelloRow(p, env, r, have, duplicate), env.online)
  {
    var row := p.rows[r];
    if have.None? || have == Some(RowStopped) {
      RetireGood(p, r, row.(retired := true, state := RowStopped), env.online);
      FailGood(p.(rows := p.rows[r := row.(retired := true, state := RowStopped)]), env);
      if Wants(p, r) && row.state != RowStopped && p.external.Some? {
        ReissueGood(p, r, env.online);
      }
    } else if !Wants(p, r) || duplicate {
      RetireGood(p, r, row.(retired := true), env.online);
    } else if p.external.Some? {
      OnAssignmentStateGood(p, env, r, have.value, false);
    } else {
      FailGood(p, env);
    }
  }

  lemma GreetGood(p: Dep, env: Env, r: RowId, have: Option<RowState>, duplicate: bool)
    requires Good(p, env.online) && !Due(p) && r in p.rows
    ensures Good(Greet(p, env, r, have, duplicate), env.online)
  {
    if have.Some? {
      SetRowGood(p, r, have.value, env.online);
      HelloRowGood(SetRow(p, r, have.value), env, r, have, duplicate);
    } else {
      HelloRowGood(p, env, r, have, duplicate);
    }
  }

  // ---------- operations ----------

  lemma OverGood(p: Dep, online: set<Node>)
    requires Good(p, online) && p.ops != []
    ensures Good(SetPc(p, Over), online)
  {
  }

  lemma RetireCovers(rows: map<RowId, Row>, todo: seq<RowId>)
    requires CoveredBy(rows, todo) && todo != []
    ensures todo[0] !in rows ==> CoveredBy(rows, todo[1..])
    ensures todo[0] in rows ==> CoveredBy(rows[todo[0] := rows[todo[0]].(retired := true)], todo[1..])
  {
    assert forall r :: r in todo ==> r == todo[0] || r in todo[1..];
  }

  /** Retiring the first listed row of those that cover the rest. */
  lemma TearCovers(p: Dep, todo: seq<RowId>, again: bool)
    requires p.ops != [] && CoveredBy(p.rows, todo)
    ensures var q := Tear(p, todo, again);
            CoveredBy(q.rows, q.ops[0].pc.todo)
  {
    if todo != [] {
      RetireCovers(p.rows, todo);
    }
  }

  /** With one watch at most, the first row listed is the only one there is to stop. */
  lemma TearIsSafe(p: Dep, todo: seq<RowId>, again: bool)
    requires p.ops != [] && Single(p.rows) && IsTodo(p.rows, todo)
    ensures Safe(Tear(p, todo, again).rows)
  {
    var q := Tear(p, todo, again);
    forall r | r in q.rows ensures q.rows[r].state == RowStopped || q.rows[r].retired {
      assert p.rows[r].state != RowStopped ==> r in todo && r == todo[0];
    }
  }

  /** A teardown goes on, or begins with all that is to stop. */
  lemma TearGood(p: Dep, todo: seq<RowId>, again: bool, online: set<Node>)
    requires Good(p, online) && p.ops != [] && !p.ops[0].pc.Over? && (p.revived || CoveredBy(p.rows, todo))
    requires again ==> p.ops[0].kind.StartOp?
    requires p.external.Some? && p.endpoint.Some? && !p.revived ==> !p.ops[0].kind.StartOp? || again
    requires p.external.None? ==> p.endpoint.None?
    requires !again && p.external.Some? && !p.revived && p.ops[0].kind.StartOp? ==> Safe(Tear(p, todo, again).rows)
    ensures Good(Tear(p, todo, again), online)
  {
    if CoveredBy(p.rows, todo) {
      TearCovers(p, todo, again);
    }
  }

  lemma ThrowGood(p: Dep, env: Env, todo: seq<RowId>)
    requires Good(p, env.online) && p.ops != [] && !p.ops[0].pc.Over? && IsTodo(p.rows, todo)
    ensures Good(Throw(p, env, todo), env.online)
  {
    OverGood(p, env.online);
    if p.ops[0].kind.StartOp? {
      RecordFailureGood(p, env.online);
      TearGood(RecordFailure(p), todo, true, env.online);
    }
  }

  lemma RecordFailureGood(p: Dep, online: set<Node>)
    requires Good(p, online)
    ensures Good(RecordFailure(p), online)
  {
  }

  lemma BeginGood(p: Dep, env: Env, todo: seq<RowId>)
    requires Good(p, env.online) && p.ops != [] && p.ops[0].pc.Queued? && IsTodo(p.rows, todo)
    ensures Good(Begin(p, env, todo), env.online)
  {
    OverGood(p, env.online);
    if p.external.Some? && !p.revived {
      TearIsSafe(p, todo, false);
    }
    TearGood(p, todo, false, env.online);
  }

  lemma TearStepGood(p: Dep, env: Env)
    requires Good(p, env.online) && p.ops != [] && (p.ops[0].pc.Tearing? || p.ops[0].pc.Retearing?) && p.ops[0].pc.todo != []
    ensures Good(TearStep(p, env), env.online)
  {
    OverGood(p, env.online);
    TearGood(p, p.ops[0].pc.todo, p.ops[0].pc.Retearing?, env.online);
  }

  /** A teardown that passes its check has no row left to wait for. */
  lemma ClearedGood(p: Dep, env: Env)
    requires Good(p, env.online) && p.ops != [] && p.ops[0].pc.Tearing? && p.ops[0].pc.todo == []
    requires forall r :: r in p.rows ==> !Pending(p, env, r)
    ensures Good(SetPc(p, Cleared), env.online)
  {
    var q := SetPc(p, Cleared);
    if p.external.Some? && p.external.value.node in env.online {
      forall r | r in p.rows ensures p.rows[r].state == RowStopped {
        assert !Pending(p, env, r);
      }
    }
    if p.ops[0].kind.StopOp? {
      forall r | r in p.rows ensures p.rows[r].state == RowStopped {
        assert !Pending(p, env, r);
      }
    }
  }

  lemma TearEndGood(p: Dep, env: Env, todo: seq<RowId>)
    requires Good(p, env.online) && p.ops != [] && (p.ops[0].pc.Tearing? || p.ops[0].pc.Retearing?) && p.ops[0].pc.todo == []
    requires IsTodo(p.rows, todo)
    ensures Good(TearEnd(p, env, todo), env.online)
  {
    if p.ops[0].pc.Retearing? {
      OverGood(p, env.online);
    } else if env.closed || exists r :: r in p.rows && Pending(p, env, r) {
      ThrowGood(p, env, todo);
    } else {
      ClearedGood(p, env);
    }
  }

  lemma ProceedGood(p: Dep, online: set<Node>)
    requires Good(p, online) && p.ops != [] && p.ops[0].pc.Cleared? && !p.ops[0].kind.StartOp?
    ensures Good(Proceed(p), online)
  {
  }

  lemma StageGood(p: Dep, env: Env, plan: set<Node>, loading: bool, sent: map<RowId, Node>, todo: seq<RowId>)
    requires Good(p, env.online) && p.ops != [] && p.ops[0].kind.StartOp? && IsTodo(p.rows, todo)
    requires (p.ops[0].pc.Cleared? || p.ops[0].pc.Building?) && p.external.None?
    ensures Good(Stage(p, env, plan, loading, sent, todo), env.online)
  {
    ThrowGood(p, env, todo);
  }

  /** Every earlier watch is stopped when the next one is sent. */
  lemma WatchGood(p: Dep, env: Env, r: RowId, todo: seq<RowId>)
    requires Good(p, env.online) && p.ops != [] && p.ops[0].kind.StartOp? && p.ops[0].pc.Cleared? && p.external.Some?
    requires IsTodo(p.rows, todo) && r !in p.rows
    ensures Good(Watch(p, env, r, todo), env.online)
  {
    ThrowGood(p, env, todo);
  }

  lemma PublishGood(p: Dep, env: Env, node: Node, todo: seq<RowId>)
    requires Good(p, env.online) && p.ops != [] && p.ops[0].kind.StartOp? && p.ops[0].pc.Building? && IsTodo(p.rows, todo)
    ensures Good(Publish(p, env, node, todo), env.online)
  {
    ThrowGood(p, env, todo);
  }

  lemma ReapGood(p: Dep, online: set<Node>)
    requires Good(p, online) && p.ops != [] && p.ops[0].pc.Over?
    ensures Good(Reap(p), online)
  {
  }
}
