/**
 What one generation does to its workers, as a run of the lease protocol: it checks them, tracks files, sends
 commands, deletes what it tracked and resets. The executor's states before, between and after are given; the
 run that joins them is built here, step by step.
 */
module StageRefinement {
  import opened StagePlan
  import Native = WorkerPool
  import Lease = StageLease

  // ---------- the executor as the lease protocol sees it ----------

  function Abs<C>(w: Native.Worker<C>): Lease.Worker {
    Lease.Worker(w.session, w.position, w.files.Keys)
  }

  function Bank<C>(workers: map<Key, Native.Worker<C>>, es: seq<Endpoint>): (ws: seq<Lease.Worker>)
    ensures |ws| == |es|
  {
    seq(|es|, i requires 0 <= i < |es| => if KeyOf(es[i]) in workers then Abs(workers[KeyOf(es[i])]) else Lease.EMPTY)
  }

  function Files(tracked: map<Key, set<string>>, es: seq<Endpoint>): (names: seq<set<string>>)
    ensures |names| == |es|
  {
    seq(|es|, i requires 0 <= i < |es| => Native.Owned(tracked, KeyOf(es[i])))
  }

  function View(active: set<string>, unsafe: set<string>, d: string, ws: seq<Lease.Worker>): Lease.Executor {
    Lease.Executor(active, unsafe, map[d := ws], map[])
  }

  /** A run leads from one state to the other that neither acknowledges a recovery nor replaces workers. */
  ghost predicate Reaches(s: Lease.Executor, t: Lease.Executor) {
    exists es :: Joins(s, es, t)
  }

  ghost predicate Joins(s: Lease.Executor, es: seq<Lease.Event>, t: Lease.Executor) {
    Lease.AllFair(s, es) && Plain(es) && Lease.After(s, es) == t
  }

  predicate Plain(es: seq<Lease.Event>) {
    forall i :: 0 <= i < |es| ==> !es[i].Acknowledge? && !es[i].Respawn?
  }

  lemma Stays(s: Lease.Executor)
    ensures Reaches(s, s)
  {
    var none: seq<Lease.Event> := [];
    assert Joins(s, none, s);
  }

  lemma FairSnoc(s: Lease.Executor, es: seq<Lease.Event>, e: Lease.Event)
    requires Lease.AllFair(s, es) && Lease.Fair(Lease.After(s, es), e)
    ensures Lease.AllFair(s, es + [e]) && Lease.After(s, es + [e]) == Lease.Next(Lease.After(s, es), e)
  {
    var more := es + [e];
    assert more[..|es|] == es;
    forall i | 0 <= i < |more| ensures Lease.Fair(Lease.After(s, more[..i]), more[i]) {
      if i < |es| {
        assert more[..i] == es[..i];
        assert Lease.Fair(Lease.After(s, es[..i]), es[i]);
      }
    }
  }

  lemma Step(s: Lease.Executor, t: Lease.Executor, e: Lease.Event, u: Lease.Executor)
    requires Reaches(s, t) && Lease.Fair(t, e) && !e.Acknowledge? && !e.Respawn? && Lease.Next(t, e) == u
    ensures Reaches(s, u)
  {
    var es :| Joins(s, es, t);
    FairSnoc(s, es, e);
    assert Joins(s, es + [e], u);
  }

  // ---------- one generation ----------

  /** The generation 0 of deployment d, at this phase. */
  function At(s: Lease.Executor, d: string, session: string, ws: seq<Lease.Worker>, phase: Lease.Phase, tracked: seq<set<string>>): Lease.Executor {
    Lease.Executor(s.active + {d}, s.unsafe, map[d := ws], map[0 := Lease.Generation(d, session, phase, tracked)])
  }

  function None(n: nat): (names: seq<set<string>>)
    ensures |names| == n && forall i :: 0 <= i < n ==> names[i] == {}
  {
    seq(n, _ => {})
  }

  predicate Startable(s: Lease.Executor, d: string, ws: seq<Lease.Worker>) {
    s == View(s.active, s.unsafe, d, ws) && d !in s.active && d !in s.unsafe && |ws| >= 2
  }

  lemma Begun(s: Lease.Executor, d: string, session: string, ws: seq<Lease.Worker>)
    requires Startable(s, d, ws)
    ensures Reaches(s, At(s, d, session, ws, Lease.Preparing(0), None(|ws|)))
  {
    Stays(s);
    assert Lease.Next(s, Lease.Begin(0, d, session)) == At(s, d, session, ws, Lease.Preparing(0), None(|ws|));
    Step(s, s, Lease.Begin(0, d, session), At(s, d, session, ws, Lease.Preparing(0), None(|ws|)));
  }

  lemma {:induction false} Checks(s: Lease.Executor, d: string, session: string, ws: seq<Lease.Worker>, none: seq<set<string>>, k: nat)
    requires k <= |ws| && (forall i :: 0 <= i < |ws| ==> Blank(ws[i])) && Reaches(s, At(s, d, session, ws, Lease.Preparing(0), none))
    ensures Reaches(s, At(s, d, session, ws, Lease.Preparing(k), none))
  {
    if k > 0 {
      Checks(s, d, session, ws, none, k - 1);
      CheckStep(s, d, session, ws, k, none);
    }
  }

  predicate Blank(w: Lease.Worker) {
    w.session == "" && w.position == 0
  }

  lemma CheckNext(s: Lease.Executor, d: string, session: string, ws: seq<Lease.Worker>, k: nat, none: seq<set<string>>)
    requires k < |ws| && Blank(ws[k])
    ensures Lease.Next(At(s, d, session, ws, Lease.Preparing(k), none), Lease.Checked(0, true)) == At(s, d, session, ws, Lease.Preparing(k + 1), none)
  {
    var t := At(s, d, session, ws, Lease.Preparing(k), none);
    assert Lease.DoChecked(t, 0, true) == Lease.SetRun(t, 0, Lease.Generation(d, session, Lease.Preparing(k + 1), none));
    SetPhase(s, d, session, ws, Lease.Preparing(k), none, Lease.Preparing(k + 1));
  }

  lemma CheckStep(s: Lease.Executor, d: string, session: string, ws: seq<Lease.Worker>, k: nat, none: seq<set<string>>)
    requires 0 < k <= |ws| && Blank(ws[k - 1]) && Reaches(s, At(s, d, session, ws, Lease.Preparing(k - 1), none))
    ensures Reaches(s, At(s, d, session, ws, Lease.Preparing(k), none))
  {
    CheckNext(s, d, session, ws, k - 1, none);
    Moves(s, d, session, ws, Lease.Preparing(k - 1), none, ws, Lease.Preparing(k), none, Lease.Checked(0, true));
  }

  /** An event of the generation that takes it from one phase to another. */
  lemma Moves(s: Lease.Executor, d: string, session: string, ws: seq<Lease.Worker>, phase: Lease.Phase, tracked: seq<set<string>>,
              ws': seq<Lease.Worker>, phase': Lease.Phase, tracked': seq<set<string>>, e: Lease.Event)
    requires Reaches(s, At(s, d, session, ws, phase, tracked)) && Lease.Fair(At(s, d, session, ws, phase, tracked), e)
    requires !e.Acknowledge? && !e.Respawn?
    requires Lease.Next(At(s, d, session, ws, phase, tracked), e) == At(s, d, session, ws', phase', tracked')
    ensures Reaches(s, At(s, d, session, ws', phase', tracked'))
  {
    Step(s, At(s, d, session, ws, phase, tracked), e, At(s, d, session, ws', phase', tracked'));
  }

  /** Files are tracked, worker by worker. */
  lemma {:induction false} Tracks(s: Lease.Executor, d: string, session: string, ws: seq<Lease.Worker>, names: seq<set<string>>, k: nat)
    requires |names| == |ws| && k <= |ws| && Reaches(s, At(s, d, session, ws, Lease.Working, None(|ws|)))
    ensures Reaches(s, At(s, d, session, ws, Lease.Working, names[..k] + None(|ws|)[k..]))
  {
    if k == 0 {
      assert names[..0] + None(|ws|)[0..] == None(|ws|);
    } else {
      Tracks(s, d, session, ws, names, k - 1);
      var was, now := names[..k - 1] + None(|ws|)[k - 1..], names[..k] + None(|ws|)[k..];
      assert was[k - 1] == {} && {} + names[k - 1] == names[k - 1];
      assert was[k - 1 := names[k - 1]] == now;
      TrackStep(s, d, session, ws, was, k - 1, names[k - 1], now);
    }
  }

  lemma TrackStep(s: Lease.Executor, d: string, session: string, ws: seq<Lease.Worker>, was: seq<set<string>>, i: nat, names: set<string>, now: seq<set<string>>)
    requires |was| == |ws| && i < |ws| && now == was[i := was[i] + names] && Reaches(s, At(s, d, session, ws, Lease.Working, was))
    ensures Reaches(s, At(s, d, session, ws, Lease.Working, now))
  {
    Moves(s, d, session, ws, Lease.Working, was, ws, Lease.Working, now, Lease.Track(0, i, names));
  }

  /** The commands leave each worker as it is found at the end, with no file that was not tracked. */
  lemma {:induction false} Commands(s: Lease.Executor, d: string, session: string, ws: seq<Lease.Worker>, mid: seq<Lease.Worker>, names: seq<set<string>>, k: nat)
    requires |names| == |ws| == |mid| && k <= |ws| && Reaches(s, At(s, d, session, ws, Lease.Working, names))
    requires forall i :: 0 <= i < |ws| ==> mid[i].files <= ws[i].files + names[i]
    ensures Reaches(s, At(s, d, session, mid[..k] + ws[k..], Lease.Working, names))
  {
    if k == 0 {
      assert mid[..0] + ws[0..] == ws;
    } else {
      Commands(s, d, session, ws, mid, names, k - 1);
      var was, now := mid[..k - 1] + ws[k - 1..], mid[..k] + ws[k..];
      Spliced(mid, ws, k - 1);
      CommandStep(s, d, session, was, k - 1, mid[k - 1], now, names);
    }
  }

  lemma Spliced<T>(a: seq<T>, b: seq<T>, k: nat)
    requires |a| == |b| && k < |a|
    ensures var was := a[..k] + b[k..]; |was| == |b| && was[k] == b[k] && was[k := a[k]] == a[..k + 1] + b[k + 1..]
  {
  }

  lemma CommandStep(s: Lease.Executor, d: string, session: string, was: seq<Lease.Worker>, i: nat, w: Lease.Worker, now: seq<Lease.Worker>, names: seq<set<string>>)
    requires |names| == |was| && i < |was| && now == was[i := w] && w.files <= was[i].files + names[i]
    requires Reaches(s, At(s, d, session, was, Lease.Working, names))
    ensures Reaches(s, At(s, d, session, now, Lease.Working, names))
  {
    Moves(s, d, session, was, Lease.Working, names, now, Lease.Working, names, Lease.Command(0, i, w));
  }

  // ---------- cleanup ----------

  /** Where a cleanup stands once worker k is done with. */
  function Cleaned(s: Lease.Executor, d: string, session: string, ws: seq<Lease.Worker>, names: seq<set<string>>, k: nat, failed: bool): Lease.Executor
    requires |names| == |ws|
  {
    if k + 1 < |ws| then At(s, d, session, ws, Lease.Cleaning(k + 1, names[k + 1], failed), names)
    else View(s.active, if failed then s.unsafe + {d} else s.unsafe, d, ws)
  }

  lemma SetBank(s: Lease.Executor, d: string, session: string, ws: seq<Lease.Worker>, phase: Lease.Phase, names: seq<set<string>>, k: nat, w: Lease.Worker)
    requires k < |ws|
    ensures Lease.SetWorker(At(s, d, session, ws, phase, names), d, k, w) == At(s, d, session, ws[k := w], phase, names)
  {
    assert map[d := ws][d := ws[k := w]] == map[d := ws[k := w]];
  }

  lemma SetPhase(s: Lease.Executor, d: string, session: string, ws: seq<Lease.Worker>, phase: Lease.Phase, names: seq<set<string>>, phase': Lease.Phase)
    ensures Lease.SetRun(At(s, d, session, ws, phase, names), 0, Lease.Generation(d, session, phase', names)) == At(s, d, session, ws, phase', names)
  {
  }

  lemma Closes(s: Lease.Executor, d: string, session: string, ws: seq<Lease.Worker>, phase: Lease.Phase, names: seq<set<string>>, failed: bool)
    requires d !in s.active
    ensures Lease.Close(At(s, d, session, ws, phase, names), 0, failed) == View(s.active, if failed then s.unsafe + {d} else s.unsafe, d, ws)
  {
    assert s.active + {d} - {d} == s.active;
  }

  lemma ResetNext(s: Lease.Executor, d: string, session: string, ws: seq<Lease.Worker>, names: seq<set<string>>, k: nat, failed: bool, w: Lease.Worker, ok: bool)
    requires |names| == |ws| && k < |ws| && (ok ==> Blank(w)) && d !in s.active
    ensures
      var t := At(s, d, session, ws, Lease.Cleaning(k, {}, failed), names);
      Lease.Resetting(t, 0) && Lease.DoReset(t, 0, w, ok) == Cleaned(s, d, session, ws[k := w], names, k, failed || !ok)
  {
    var phase := Lease.Cleaning(k, {}, failed);
    SetBank(s, d, session, ws, phase, names, k, w);
    if k + 1 < |ws| {
      SetPhase(s, d, session, ws[k := w], phase, names, Lease.Cleaning(k + 1, names[k + 1], failed || !ok));
    } else {
      Closes(s, d, session, ws[k := w], phase, names, failed || !ok);
    }
  }

  lemma ResetStep(s: Lease.Executor, d: string, session: string, ws: seq<Lease.Worker>, names: seq<set<string>>, k: nat, failed: bool, w: Lease.Worker, ok: bool)
    requires |names| == |ws| && k < |ws| && w.files <= ws[k].files && (ok ==> Blank(w))
    requires d !in s.active && Reaches(s, At(s, d, session, ws, Lease.Cleaning(k, {}, failed), names))
    ensures Reaches(s, Cleaned(s, d, session, ws[k := w], names, k, failed || !ok))
  {
    ResetNext(s, d, session, ws, names, k, failed, w, ok);
    Step(s, At(s, d, session, ws, Lease.Cleaning(k, {}, failed), names), Lease.Reset(0, w, ok),
         Cleaned(s, d, session, ws[k := w], names, k, failed || !ok));
  }

  lemma DeleteStep(s: Lease.Executor, d: string, session: string, ws: seq<Lease.Worker>, names: seq<set<string>>, k: nat, todo: set<string>, failed: bool,
                   w: Lease.Worker, file: string, ok: bool)
    requires |names| == |ws| && k < |ws| && w.files <= ws[k].files && file in todo && (ok ==> file !in w.files)
    requires Reaches(s, At(s, d, session, ws, Lease.Cleaning(k, todo, failed), names))
    ensures Reaches(s, At(s, d, session, ws[k := w], Lease.Cleaning(k, todo - {file}, failed || !ok), names))
  {
    assert map[d := ws][d := ws[k := w]] == map[d := ws[k := w]];
    Moves(s, d, session, ws, Lease.Cleaning(k, todo, failed), names, ws[k := w], Lease.Cleaning(k, todo - {file}, failed || !ok), names,
          Lease.Delete(0, file, w, ok));
  }

  lemma {:induction false} CleansWorker(s: Lease.Executor, d: string, session: string, ws: seq<Lease.Worker>, names: seq<set<string>>, k: nat, todo: set<string>,
                                        failed: bool, w: Lease.Worker, ok: bool)
    requires |names| == |ws| && k < |ws| && w.files <= ws[k].files && d !in s.active
    requires ok ==> Blank(w) && w.files !! todo
    requires Reaches(s, At(s, d, session, ws, Lease.Cleaning(k, todo, failed), names))
    ensures Reaches(s, Cleaned(s, d, session, ws[k := w], names, k, failed || !ok))
    decreases |todo|
  {
    if todo == {} {
      ResetStep(s, d, session, ws, names, k, failed, w, ok);
    } else {
      var f :| f in todo;
      DeleteStep(s, d, session, ws, names, k, todo, failed, w, f, ok);
      CleansWorker(s, d, session, ws[k := w], names, k, todo - {f}, failed || !ok, w, ok);
      assert ws[k := w][k := w] == ws[k := w];
    }
  }

  lemma {:induction false} Cleans(s: Lease.Executor, d: string, session: string, mid: seq<Lease.Worker>, end: seq<Lease.Worker>, names: seq<set<string>>, k: nat, ok: bool)
    requires |names| == |mid| == |end| && k < |mid| && d !in s.active
    requires forall i :: 0 <= i < |mid| ==> end[i].files <= mid[i].files
    requires ok ==> forall i :: 0 <= i < |mid| ==> Blank(end[i]) && end[i].files !! names[i]
    requires Reaches(s, At(s, d, session, mid, Lease.Cleaning(0, names[0], false), names))
    ensures Reaches(s, Cleaned(s, d, session, end[..k + 1] + mid[k + 1..], names, k, !ok))
  {
    var ws := end[..k] + mid[k..];
    assert ws[k := end[k]] == end[..k + 1] + mid[k + 1..];
    if k == 0 {
      assert ws == mid;
      CleansWorker(s, d, session, ws, names, 0, names[0], false, end[0], ok);
    } else {
      Cleans(s, d, session, mid, end, names, k - 1, ok);
      CleansWorker(s, d, session, ws, names, k, names[k], !ok, end[k], ok);
    }
  }

  // ---------- the whole generation ----------

  /** What a generation did to the workers of its endpoints: w0 before it, w1 when its work ended, w2 after cleanup. */
  ghost predicate Told<C>(w0: map<Key, Native.Worker<C>>, w1: map<Key, Native.Worker<C>>, w2: map<Key, Native.Worker<C>>, es: seq<Endpoint>,
                          tracked: map<Key, set<string>>, clean: bool) {
    forall i :: 0 <= i < |es| ==>
      var k := KeyOf(es[i]);
      && k in w0 && k in w1 && k in w2 && Native.Clean(w0[k])
      && w1[k].files.Keys <= w0[k].files.Keys + Native.Owned(tracked, k) && w2[k].files.Keys <= w1[k].files.Keys
      && (clean ==> Native.Clean(w2[k]) && w2[k].files.Keys !! Native.Owned(tracked, k))
  }

  lemma Works(s: Lease.Executor, d: string, session: string, ws: seq<Lease.Worker>, mid: seq<Lease.Worker>, names: seq<set<string>>)
    requires Startable(s, d, ws) && |names| == |mid| == |ws|
    requires forall i :: 0 <= i < |ws| ==> Blank(ws[i]) && mid[i].files <= ws[i].files + names[i]
    ensures Reaches(s, At(s, d, session, mid, Lease.Cleaning(0, names[0], false), names))
  {
    Begun(s, d, session, ws);
    Checks(s, d, session, ws, None(|ws|), |ws|);
    WorkStep(s, d, session, ws, None(|ws|));
    Tracks(s, d, session, ws, names, |ws|);
    assert names[..|ws|] + None(|ws|)[|ws|..] == names;
    Commands(s, d, session, ws, mid, names, |ws|);
    assert mid[..|ws|] + ws[|ws|..] == mid;
    SettleStep(s, d, session, mid, names);
  }

  lemma WorkStep(s: Lease.Executor, d: string, session: string, ws: seq<Lease.Worker>, none: seq<set<string>>)
    requires Reaches(s, At(s, d, session, ws, Lease.Preparing(|ws|), none))
    ensures Reaches(s, At(s, d, session, ws, Lease.Working, none))
  {
    Moves(s, d, session, ws, Lease.Preparing(|ws|), none, ws, Lease.Working, none, Lease.Checked(0, true));
  }

  lemma SettleStep(s: Lease.Executor, d: string, session: string, mid: seq<Lease.Worker>, names: seq<set<string>>)
    requires |names| == |mid| >= 1 && Reaches(s, At(s, d, session, mid, Lease.Working, names))
    ensures Reaches(s, At(s, d, session, mid, Lease.Cleaning(0, names[0], false), names))
  {
    Moves(s, d, session, mid, Lease.Working, names, mid, Lease.Cleaning(0, names[0], false), names, Lease.Settle(0));
  }

  /** A generation that changed its workers is a fair run of the lease protocol, and ends unsafe exactly if cleanup failed. */
  lemma GenerationIsARun<C>(active: set<string>, unsafe: set<string>, d: string, session: string, es: seq<Endpoint>, w0: map<Key, Native.Worker<C>>,
                            w1: map<Key, Native.Worker<C>>, w2: map<Key, Native.Worker<C>>, tracked: map<Key, set<string>>, clean: bool)
    requires d !in active && d !in unsafe && |es| >= 2 && Told(w0, w1, w2, es, tracked, clean)
    ensures Reaches(View(active, unsafe, d, Bank(w0, es)), View(active, if clean then unsafe else unsafe + {d}, d, Bank(w2, es)))
  {
    var s, n := View(active, unsafe, d, Bank(w0, es)), |es|;
    var ws, mid, end, names := Bank(w0, es), Bank(w1, es), Bank(w2, es), Files(tracked, es);
    Works(s, d, session, ws, mid, names);
    Cleans(s, d, session, mid, end, names, n - 1, clean);
    assert end[..n] + mid[n..] == end;
  }

  /** A cleanup fails, its recovery is acknowledged although no worker was replaced, and a worker still holds the session. */
  lemma AcknowledgedTooSoon(d: string, session: string) returns (es: seq<Lease.Event>)
    requires session != ""
    ensures
      var s := View({}, {}, d, [Lease.EMPTY, Lease.EMPTY]);
      Lease.Init(s) && Lease.AllFair(s, es) && !Lease.Safe(Lease.After(s, es))
  {
    var s := View({}, {}, d, [Lease.EMPTY, Lease.EMPTY]);
    var dirty := Lease.Worker(session, 1, {});
    var mid, names := [dirty, Lease.EMPTY], [{}, {}];
    Works(s, d, session, [Lease.EMPTY, Lease.EMPTY], mid, names);
    Cleans(s, d, session, mid, mid, names, 1, false);
    assert mid[..2] + mid[2..] == mid;
    var t := View({}, {} + {d}, d, mid);
    assert Reaches(s, t);
    var run :| Joins(s, run, t);
    FairSnoc(s, run, Lease.Acknowledge(d));
    es := run + [Lease.Acknowledge(d)];
    var u := Lease.After(s, es);
    assert u == View({}, {} + {d} - {d}, d, mid);
    assert Lease.Idle(u, d) && !Lease.Clean(u.workers[d][0]);
  }
}
