/**
 The assignment runner's blocks of code between awaits as they update its fields, each refining an event of
 the transition system, and the recovery loop that runs before anything else.
 */
module AgentRunner {
  import opened Outcomes
  import opened Agent
  import opened AgentProgress

  /** Every name the list holds is restarted, from some point of the list on. */
  lemma RestartsSnoc(s: Runner, order: seq<Ext>, k: nat)
    requires k < |order|
    ensures After(s, Restarts(order[..k + 1])) == Next(After(s, Restarts(order[..k])), Restart(order[k]))
  {
    assert Restarts(order[..k + 1])[..k] == Restarts(order[..k]);
  }

  class AssignmentRunner {
    var instances: map<Inst, Active>
    var ids: map<Inst, AId>
    var active: map<AId, Inst>
    var gone: set<Inst>
    var durable: set<Ext>
    ghost var down: set<Ext>
    ghost var recovering: Option<set<Ext>>

    ghost function View(): Runner
      reads this
    {
      Runner(instances, ids, active, gone, down, durable, recovering)
    }

    constructor ()
      ensures Initial(View())
    {
      instances, ids, active, gone, durable := map[], map[], map[], {}, {};
      down, recovering := {}, None;
    }

    /** The names a snapshot of the active assignments holds. */
    function Named(): set<Ext>
      reads this`instances, this`gone
    {
      set i | i in instances && i !in gone && instances[i].ext.Some? :: instances[i].ext.value
    }

    /** Write and rename: the file holds the new snapshot or the old one. */
    method Persist(reached: bool)
      requires recovering.None?
      modifies this`durable
      ensures View() == Next(old(View()), Agent.Persist(reached))
    {
      if reached {
        durable := Named();
      }
    }

    method Handle(i: Inst, id: AId, reached: bool) returns (started: bool)
      requires i !in instances && recovering.None?
      modifies this`instances, this`ids, this`active, this`durable
      ensures View() == Next(old(View()), Agent.Handle(i, id, reached))
      ensures started <==> id !in old(active) && reached
      ensures started ==> active == old(active)[id := i] && i in instances && Resumes(instances[i], Begin) && !instances[i].stopping
      ensures !started && id !in old(active) ==> instances[i].start.Settled?
      ensures id in old(active) ==> View() == old(View())
    {
      if id in active {
        return false;
      }
      var x := New(reached);
      instances, ids, active := instances[i := x], ids[i := id], active[id := i];
      if reached {
        durable := Named();
      }
      return reached;
    }

    /** A stop of a known assignment: it joins the one under way or begins a cleanup. */
    method Stop(id: AId)
      requires id in active && active[id] in instances && active[id] in ids && active[id] !in gone
      modifies this`instances
      ensures View() == Next(old(View()), OnTurn(active[id], StopAsked, false))
      ensures instances[active[id]].stopTask && (!old(instances)[active[id]].stopTask ==> !instances[active[id]].cleanup.Idle?)
    {
      var i := active[id];
      var x := instances[i];
      if x.stopTask {
        return;
      }
      x := Cleanup(x);
      x := x.(stopTask := true);
      instances := instances[i := x];
    }

    /** The engine of an assignment exits; outside a stop the assignment fails. */
    method OnExit(i: Inst)
      requires i in instances && i in ids && instances[i].proc.Running? && Sound(instances[i])
      modifies this`instances
      ensures View() == Next(old(View()), OnTurn(i, EngineExits, false))
      ensures i in instances && instances[i].proc.Ended?
      ensures !old(instances)[i].stopping ==> Failing(instances[i])
    {
      var x := instances[i].(proc := Ended);
      if !x.stopping && !x.failed {
        x := FailInstance(x);
      }
      instances := instances[i := x];
    }

    method FailInstance(x: Active) returns (y: Active)
      ensures y == Fail(x)
      ensures !x.stopping && x.cleanup.Idle? ==> Failing(y)
    {
      if x.stopping {
        return x;
      }
      y := Cleanup(x.(failed := true));
    }

    /** The end of a start: the engine runs, unless a stop came first or its pid could not be recorded. */
    method Spawn(i: Inst, reached: bool) returns (running: bool)
      requires i in instances && instances[i].start.Working? && instances[i].proc.NoProc? && Sound(instances[i])
      modifies this`instances, this`durable
      ensures View() == Next(old(View()), OnStart(i, Agent.Spawn, reached && !old(instances)[i].stopping))
      ensures i in instances && (running <==> !old(instances)[i].stopping && reached)
      ensures running ==> instances[i].proc.Running? && !instances[i].failed
      ensures !running && !old(instances)[i].stopping ==> Failing(instances[i])
    {
      var x := instances[i];
      if x.stopping {
        instances := instances[i := x.(start := Settled)];
        return false;
      }
      x := x.(proc := Running);
      running := reached;
      if !reached {
        x := FailInstance(x.(start := Settled));
      }
      instances := instances[i := x];
      if reached {
        durable := Named();
      }
    }

    /** The cleanup's first block: everything open is closed, then it waits for the engine. */
    method Cleanup(x: Active) returns (y: Active)
      ensures y == BeginCleanup(x)
      ensures x.cleanup.Idle? ==> y.stopping && !y.timer && !y.dialer && !y.serve && y.cleanup.AwaitingProc?
    {
      y := x;
      if !y.cleanup.Idle? {
        return;
      }
      y := y.(stopping := true);
      y := y.(timer := false);
      y := y.(dialer := false, serve := false);
      y := y.(cleanup := AwaitingProc);
    }

    /** One round of the fit gate: the external is put on record before its stop command runs. */
    method AskStop(i: Inst, e: Ext, reached: bool) returns (run: bool)
      requires i in instances && instances[i].start.Working? && instances[i].ext.None?
      modifies this`instances, this`durable
      ensures View() == Next(old(View()), OnStart(i, Agent.AskStop(e), run))
      ensures run <==> !old(instances)[i].stopping && reached
      ensures run && i !in gone ==> e in durable && instances[i].start == Stopping(e, false)
    {
      run := !instances[i].stopping && reached;
      var x := Asked(instances[i], e, reached);
      instances := instances[i := x];
      if run {
        durable := Named();
        assert i !in gone ==> instances[i].ext.value in durable;
      }
    }

    method Asked(x: Active, e: Ext, reached: bool) returns (y: Active)
      requires x.start.Working? && x.ext.None?
      ensures y == Resume(x, Agent.AskStop(e), !x.stopping && reached)
    {
      y := x;
      if y.stopping {
        y := y.(start := Settled);
        return;
      }
      y := y.(ext := Some(e), took := false, named := reached);
      if !reached {
        y := Cleanup(y.(start := Settled, failed := true));
        return;
      }
      y := y.(start := Stopping(e, false));
    }

    /** Before anything else: stop what an earlier agent left, restart every external it had stopped. */
    method Recover(prev: seq<Ext>, starts: Ext -> bool, reached: bool) returns (ok: bool)
      requires recovering == Some(durable) && instances == map[] && gone == {} && (forall e :: e in prev <==> e in durable)
      requires down <= durable
      modifies this`down, this`durable, this`recovering
      ensures ok ==> recovering.None? && down == {} && durable == {}
      ensures !ok ==> recovering.Some? && durable == old(durable) && down <= durable
      ensures ok <==> (forall e :: e in old(durable) ==> starts(e)) && reached
    {
      ghost var s := View();
      for k := 0 to |prev|
        invariant View() == After(s, Restarts(prev[..k]))
        invariant forall j :: 0 <= j < k ==> starts(prev[j])
      {
        RestartsDo(s, prev[..k]);
        RestartsSnoc(s, prev, k);
        var e := prev[k];
        if !starts(e) {
          return false;
        }
        if e in recovering.value {
          down := down - {e};
          recovering := Some(recovering.value - {e});
        }
      }
      assert prev[..|prev|] == prev;
      RestartsDo(s, prev);
      assert Without(s.durable, prev) == {};
      assert forall e :: e in s.durable ==> starts(e);
      if !reached {
        return false;
      }
      durable := {};
      recovering := None;
      return true;
    }
  }
}
