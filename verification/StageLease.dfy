/**
 The lease and cleanup protocol of the stage executor, for any number of deployments and any interleaving
 of their generations at the awaits. What a generation computes is left open here: between admission and
 cleanup it may send its own workers any commands, each of which may fail after taking effect. What a run
 has to satisfy for the promise to hold is stated apart from the steps (`Fair`, `Renewed`).
 */
module StageLease {

  datatype Worker = Worker(session: string, position: nat, files: set<string>)

  const EMPTY := Worker("", 0, {})

  datatype Phase =
    | Preparing(checked: nat)
    | Working
    | Cleaning(at: nat, todo: set<string>, failed: bool)

  datatype Generation = Generation(deployment: string, session: string, phase: Phase, tracked: seq<set<string>>)

  datatype Executor = Executor(
    active: set<string>, unsafe: set<string>, workers: map<string, seq<Worker>>, running: map<nat, Generation>)

  datatype Event =
    | Begin(id: nat, deployment: string, session: string)
    | Checked(id: nat, arrived: bool)                          // a status command of prepare, then the tokens
    | Track(id: nat, i: nat, files: set<string>)
    | Command(id: nat, i: nat, after: Worker)                  // a command left worker i like this, acknowledged or not
    | Settle(id: nat)                                          // result, failure or cancellation: enter the finally block
    | Delete(id: nat, file: string, after: Worker, acked: bool)
    | Reset(id: nat, after: Worker, acked: bool)               // reset and the status that must confirm it
    | Respawn(deployment: string)                              // fresh supervised workers
    | Acknowledge(deployment: string)

  predicate Clean(w: Worker) {
    w == EMPTY
  }

  predicate AllClean(ws: seq<Worker>) {
    forall i :: 0 <= i < |ws| ==> Clean(ws[i])
  }

  function SetWorker(s: Executor, d: string, i: nat, w: Worker): Executor
    requires d in s.workers && i < |s.workers[d]|
  {
    s.(workers := s.workers[d := s.workers[d][i := w]])
  }

  function SetRun(s: Executor, id: nat, g: Generation): Executor {
    s.(running := s.running[id := g])
  }

  function Close(s: Executor, id: nat, unsafe: bool): Executor
    requires id in s.running
  {
    var d := s.running[id].deployment;
    s.(running := s.running - {id}, active := s.active - {d}, unsafe := if unsafe then s.unsafe + {d} else s.unsafe)
  }

  predicate InPhase(s: Executor, id: nat, i: nat) {
    id in s.running && s.running[id].deployment in s.workers && i < |s.workers[s.running[id].deployment]|
    && i < |s.running[id].tracked|
  }

  function DoChecked(s: Executor, id: nat, arrived: bool): Executor
    requires id in s.running && s.running[id].phase.Preparing? && s.running[id].deployment in s.workers
  {
    var g := s.running[id];
    var ws := s.workers[g.deployment];
    if g.phase.checked >= |ws| then if arrived then SetRun(s, id, g.(phase := Working)) else Close(s, id, false)
    else if arrived && ws[g.phase.checked].session == "" && ws[g.phase.checked].position == 0 then
      SetRun(s, id, g.(phase := Preparing(g.phase.checked + 1)))
    else Close(s, id, false)
  }

  predicate Deleting(s: Executor, id: nat, file: string) {
    id in s.running && s.running[id].phase.Cleaning? && InPhase(s, id, s.running[id].phase.at) && file in s.running[id].phase.todo
  }

  predicate Resetting(s: Executor, id: nat) {
    id in s.running && s.running[id].phase.Cleaning? && InPhase(s, id, s.running[id].phase.at) && s.running[id].phase.todo == {}
  }

  function DoReset(s: Executor, id: nat, after: Worker, acked: bool): Executor
    requires id in s.running && s.running[id].phase.Cleaning? && InPhase(s, id, s.running[id].phase.at)
  {
    var g := s.running[id];
    var k := g.phase.at;
    var ok := acked && after.session == "" && after.position == 0;
    var s1 := SetWorker(s, g.deployment, k, after);
    var failed := g.phase.failed || !ok;
    if k + 1 < |g.tracked| then SetRun(s1, id, g.(phase := Cleaning(k + 1, g.tracked[k + 1], failed)))
    else Close(s1, id, failed)
  }

  function Next(s: Executor, e: Event): Executor {
    match e
    case Begin(id, d, session) =>
      if d in s.active || d in s.unsafe || d !in s.workers || |s.workers[d]| < 2 || id in s.running then s
      else
        s.(active := s.active + {d},
           running := s.running[id := Generation(d, session, Preparing(0), seq(|s.workers[d]|, _ => {}))])
    case Checked(id, arrived) =>
      if id in s.running && s.running[id].phase.Preparing? && s.running[id].deployment in s.workers
      then DoChecked(s, id, arrived) else s
    case Track(id, i, files) =>
      if InPhase(s, id, i) && s.running[id].phase.Working? then
        var g := s.running[id];
        SetRun(s, id, g.(tracked := g.tracked[i := g.tracked[i] + files]))
      else s
    case Command(id, i, after) =>
      if InPhase(s, id, i) && s.running[id].phase.Working? then SetWorker(s, s.running[id].deployment, i, after) else s
    case Settle(id) =>
      if InPhase(s, id, 0) && s.running[id].phase.Working? then
        SetRun(s, id, s.running[id].(phase := Cleaning(0, s.running[id].tracked[0], false)))
      else s
    case Delete(id, file, after, acked) =>
      if Deleting(s, id, file) then
        var g := s.running[id];
        var s1 := SetWorker(s, g.deployment, g.phase.at, after);
        SetRun(s1, id, g.(phase := Cleaning(g.phase.at, g.phase.todo - {file}, g.phase.failed || !acked)))
      else s
    case Reset(id, after, acked) =>
      if Resetting(s, id) then DoReset(s, id, after, acked) else s
    case Respawn(d) =>
      if d in s.workers then s.(workers := s.workers[d := seq(|s.workers[d]|, _ => EMPTY)]) else s
    case Acknowledge(d) =>
      if d !in s.active then s.(unsafe := s.unsafe - {d}) else s
  }

  /** Freshly started: no generation, no deployment marked, every worker empty. */
  ghost predicate Init(s: Executor) {
    s.active == {} && s.unsafe == {} && s.running == map[] && forall d :: d in s.workers ==> AllClean(s.workers[d])
  }

  function After(s: Executor, es: seq<Event>): Executor
    decreases |es|
  {
    if es == [] then s else Next(After(s, es[..|es| - 1]), es[|es| - 1])
  }

  // ---------- what a run has to satisfy ----------

  /** A working generation's command adds only files it has tracked; cleanup commands add none, and an
      acknowledged deletion has taken place. */
  predicate Fair(s: Executor, e: Event) {
    match e
    case Command(id, i, after) =>
      InPhase(s, id, i) && s.running[id].phase.Working? ==>
        after.files <= s.workers[s.running[id].deployment][i].files + s.running[id].tracked[i]
    case Delete(id, file, after, acked) =>
      Deleting(s, id, file) ==>
        after.files <= s.workers[s.running[id].deployment][s.running[id].phase.at].files && (acked ==> file !in after.files)
    case Reset(id, after, acked) =>
      Resetting(s, id) ==> after.files <= s.workers[s.running[id].deployment][s.running[id].phase.at].files
    case _ => true
  }

  /** A recovery that is acknowledged while no generation runs finds empty workers. */
  predicate Renewed(s: Executor, e: Event) {
    e.Acknowledge? && e.deployment !in s.active && e.deployment in s.workers ==> AllClean(s.workers[e.deployment])
  }

  ghost predicate AllFair(s: Executor, es: seq<Event>) {
    forall i :: 0 <= i < |es| ==> Fair(After(s, es[..i]), es[i])
  }

  ghost predicate RenewedUpTo(s: Executor, es: seq<Event>, n: nat)
    requires n <= |es|
  {
    forall i :: 0 <= i < n ==> Renewed(After(s, es[..i]), es[i])
  }

  /** Since event j, which gave the deployment fresh workers, no generation of it has run. */
  ghost predicate FreshSince(s: Executor, es: seq<Event>, j: nat, i: nat, d: string)
    requires j < i <= |es|
  {
    es[j] == Respawn(d) && forall k :: j <= k <= i ==> d !in After(s, es[..k]).active
  }

  /** A recovery is acknowledged only on workers started after the last generation. */
  ghost predicate Vouched(s: Executor, es: seq<Event>, i: nat)
    requires i < |es|
  {
    es[i].Acknowledge? && es[i].deployment !in After(s, es[..i]).active ==>
      exists j :: 0 <= j < i && FreshSince(s, es, j, i, es[i].deployment)
  }

  ghost predicate AllVouched(s: Executor, es: seq<Event>) {
    forall i :: 0 <= i < |es| ==> Vouched(s, es, i)
  }

  // ---------- what every step keeps ----------

  /** A generation's hold on its workers. */
  ghost predicate Tidy(g: Generation, ws: seq<Worker>) {
    && |g.tracked| == |ws| && |ws| >= 2
    && match g.phase
       case Preparing(_) => AllClean(ws) && forall i :: 0 <= i < |ws| ==> g.tracked[i] == {}
       case Working => forall i :: 0 <= i < |ws| ==> ws[i].files <= g.tracked[i]
       case Cleaning(k, todo, failed) =>
         && k < |ws|
         && (forall i :: k < i < |ws| ==> ws[i].files <= g.tracked[i])
         && (!failed ==> ws[k].files <= todo && forall i :: 0 <= i < k ==> Clean(ws[i]))
  }

  ghost predicate Owns(s: Executor, id: nat)
    requires id in s.running
  {
    var g := s.running[id];
    g.deployment in s.active && g.deployment in s.workers && Tidy(g, s.workers[g.deployment])
  }

  /** Some generation holds the lease of deployment d. */
  ghost predicate Leased(s: Executor, d: string) {
    exists id :: id in s.running && s.running[id].deployment == d
  }

  ghost predicate Idle(s: Executor, d: string) {
    d in s.workers && d !in s.active && d !in s.unsafe
  }

  ghost predicate Alone(s: Executor) {
    forall a, b :: a in s.running && b in s.running && a != b ==> s.running[a].deployment != s.running[b].deployment
  }

  ghost predicate Inv(s: Executor) {
    && Alone(s)
    && (forall id :: id in s.running ==> Owns(s, id))
    && (forall d :: d in s.active ==> Leased(s, d))
    && (forall d :: Idle(s, d) ==> AllClean(s.workers[d]))
  }

  /** s' is s up to generation `id` and the workers of its deployment. */
  ghost predicate OnlyRun(s: Executor, s': Executor, id: nat)
    requires id in s.running
  {
    && s'.active == s.active && s'.unsafe == s.unsafe && s'.workers.Keys == s.workers.Keys && s'.running.Keys == s.running.Keys
    && s'.running[id].deployment == s.running[id].deployment
    && (forall j :: j in s.running && j != id ==> s'.running[j] == s.running[j])
    && (forall d :: d in s.workers && d != s.running[id].deployment ==> s'.workers[d] == s.workers[d])
  }

  lemma LeasedKept(s: Executor, s': Executor, id: nat, d: string)
    requires id in s.running && OnlyRun(s, s', id) && Leased(s, d)
    ensures Leased(s', d)
  {
    var j :| j in s.running && s.running[j].deployment == d;
    assert s'.running[j].deployment == d;
  }

  lemma OwnsKept(s: Executor, s': Executor, id: nat, j: nat)
    requires id in s.running && j in s.running && j != id && OnlyRun(s, s', id) && Alone(s) && Owns(s, j)
    ensures Owns(s', j)
  {
  }

  lemma AloneKept(s: Executor, s': Executor, id: nat)
    requires id in s.running && OnlyRun(s, s', id) && Alone(s)
    ensures Alone(s')
  {
  }

  lemma AllOwnKept(s: Executor, s': Executor, id: nat)
    requires Inv(s) && id in s.running && OnlyRun(s, s', id) && Owns(s', id)
    ensures forall j :: j in s'.running ==> Owns(s', j)
  {
    forall j | j in s'.running ensures Owns(s', j) {
      if j != id {
        OwnsKept(s, s', id, j);
      }
    }
  }

  lemma IdleKept(s: Executor, s': Executor, id: nat, d: string)
    requires Inv(s) && id in s.running && OnlyRun(s, s', id) && Idle(s', d)
    ensures AllClean(s'.workers[d])
  {
    assert Idle(s, d) && Owns(s, id);
  }

  /** One event that touches only the generation `id` and its own deployment's workers. */
  lemma LocalStep(s: Executor, s': Executor, id: nat)
    requires Inv(s) && id in s.running && OnlyRun(s, s', id) && Owns(s', id)
    ensures Inv(s')
  {
    AllOwnKept(s, s', id);
    AloneKept(s, s', id);
    forall d | d in s'.active ensures Leased(s', d) {
      LeasedKept(s, s', id, d);
    }
    forall d | Idle(s', d) ensures AllClean(s'.workers[d]) {
      IdleKept(s, s', id, d);
    }
  }

  lemma CloseOwns(s: Executor, s1: Executor, id: nat, unsafe: bool, j: nat)
    requires Inv(s) && id in s.running && OnlyRun(s, s1, id) && j in s.running && j != id
    ensures j in Close(s1, id, unsafe).running && Owns(Close(s1, id, unsafe), j)
  {
    assert Owns(s, j);
    assert s.running[j].deployment != s.running[id].deployment;
  }

  lemma CloseLeased(s: Executor, s1: Executor, id: nat, unsafe: bool, d: string)
    requires id in s.running && OnlyRun(s, s1, id) && d != s.running[id].deployment && Leased(s, d)
    ensures Leased(Close(s1, id, unsafe), d)
  {
    var j :| j in s.running && s.running[j].deployment == d;
    assert j in Close(s1, id, unsafe).running;
  }

  lemma CloseIdle(s: Executor, s1: Executor, id: nat, unsafe: bool, d: string)
    requires id in s.running && OnlyRun(s, s1, id) && Idle(Close(s1, id, unsafe), d) && d != s.running[id].deployment
    ensures Idle(s, d) && Close(s1, id, unsafe).workers[d] == s.workers[d]
  {
  }

  /** A generation ends: its lease goes, and unless it failed its workers are empty. */
  lemma CloseKeeps(s: Executor, s1: Executor, id: nat, unsafe: bool)
    requires Inv(s) && id in s.running && OnlyRun(s, s1, id)
    requires !unsafe ==> s.running[id].deployment in s1.workers && AllClean(s1.workers[s.running[id].deployment])
    ensures Inv(Close(s1, id, unsafe))
  {
    var s' := Close(s1, id, unsafe);
    forall j | j in s'.running ensures Owns(s', j) {
      CloseOwns(s, s1, id, unsafe, j);
    }
    forall d | d in s'.active ensures Leased(s', d) {
      CloseLeased(s, s1, id, unsafe, d);
    }
    forall d | Idle(s', d) ensures AllClean(s'.workers[d]) {
      if d != s.running[id].deployment {
        CloseIdle(s, s1, id, unsafe, d);
      }
    }
  }

  lemma CheckedKeeps(s: Executor, id: nat, arrived: bool)
    requires Inv(s) && id in s.running && s.running[id].phase.Preparing? && s.running[id].deployment in s.workers
    ensures Inv(DoChecked(s, id, arrived))
  {
    var s' := DoChecked(s, id, arrived);
    assert Owns(s, id);
    if id in s'.running {
      LocalStep(s, s', id);
    } else {
      CloseKeeps(s, s, id, false);
    }
  }

  lemma ResetKeeps(s: Executor, id: nat, after: Worker, acked: bool)
    requires Inv(s) && Resetting(s, id) && Fair(s, Reset(id, after, acked))
    ensures Inv(DoReset(s, id, after, acked))
  {
    assert Owns(s, id);
    var g := s.running[id];
    var k := g.phase.at;
    if k + 1 < |g.tracked| {
      LocalStep(s, DoReset(s, id, after, acked), id);
    } else {
      var failed := g.phase.failed || !(acked && after.session == "" && after.position == 0);
      CloseKeeps(s, SetWorker(s, g.deployment, k, after), id, failed);
    }
  }

  lemma BeginKeeps(s: Executor, id: nat, d: string, session: string)
    requires Inv(s) && d !in s.active && d !in s.unsafe && d in s.workers && |s.workers[d]| >= 2 && id !in s.running
    ensures Inv(Next(s, Begin(id, d, session)))
  {
    var s' := Next(s, Begin(id, d, session));
    assert Idle(s, d);
    forall j | j in s'.running ensures Owns(s', j) {
      assert j != id ==> Owns(s, j);
    }
    forall x | x in s'.active ensures Leased(s', x) {
      if x == d {
        assert s'.running[id].deployment == d;
      } else {
        assert Leased(s, x);
        var j :| j in s.running && s.running[j].deployment == x;
        assert s'.running[j].deployment == x;
      }
    }
    forall x | Idle(s', x) ensures AllClean(s'.workers[x]) {
      assert Idle(s, x);
    }
    assert Alone(s') by {
      forall j | j in s.running ensures s.running[j].deployment != d {
        assert Owns(s, j);
      }
    }
  }

  lemma RespawnKeeps(s: Executor, d: string)
    requires Inv(s) && d in s.workers
    ensures Inv(Next(s, Respawn(d)))
  {
    var s' := Next(s, Respawn(d));
    forall id | id in s'.running ensures Owns(s', id) {
      assert Owns(s, id);
    }
    forall x | x in s'.active ensures Leased(s', x) {
      assert Leased(s, x);
    }
    forall x | Idle(s', x) ensures AllClean(s'.workers[x]) {
      assert Idle(s, x);
    }
  }

  lemma AcknowledgeKeeps(s: Executor, d: string)
    requires Inv(s) && Renewed(s, Acknowledge(d))
    ensures Inv(Next(s, Acknowledge(d)))
  {
    var s' := Next(s, Acknowledge(d));
    forall id | id in s'.running ensures Owns(s', id) {
      assert Owns(s, id);
    }
    forall x | x in s'.active ensures Leased(s', x) {
      assert Leased(s, x);
    }
    forall x | Idle(s', x) ensures AllClean(s'.workers[x]) {
      assert x != d ==> Idle(s, x);
    }
  }

  /** Commands of a working generation: its files stay among the tracked ones. */
  lemma WorkKeeps(s: Executor, e: Event)
    requires Inv(s) && Fair(s, e) && (e.Command? || e.Track? || e.Settle?) && Next(s, e) != s
    ensures Inv(Next(s, e))
  {
    assert Owns(s, e.id);
    LocalStep(s, Next(s, e), e.id);
  }

  lemma DeleteKeeps(s: Executor, e: Event)
    requires Inv(s) && Fair(s, e) && e.Delete? && Next(s, e) != s
    ensures Inv(Next(s, e))
  {
    assert Owns(s, e.id);
    LocalStep(s, Next(s, e), e.id);
  }

  lemma StepKeeps(s: Executor, e: Event)
    requires Inv(s) && Fair(s, e) && Renewed(s, e)
    ensures Inv(Next(s, e))
  {
    if Next(s, e) != s {
      match e
      case Begin(id, d, session) => BeginKeeps(s, id, d, session);
      case Checked(id, arrived) => CheckedKeeps(s, id, arrived);
      case Reset(id, after, acked) => ResetKeeps(s, id, after, acked);
      case Respawn(d) => RespawnKeeps(s, d);
      case Acknowledge(d) => AcknowledgeKeeps(s, d);
      case Delete(_, _, _, _) => DeleteKeeps(s, e);
      case _ => WorkKeeps(s, e);
    }
  }

  lemma {:induction false} InvAt(s: Executor, es: seq<Event>, n: nat)
    requires Init(s) && AllFair(s, es) && n <= |es| && RenewedUpTo(s, es, n)
    ensures Inv(After(s, es[..n]))
  {
    if n == 0 {
      assert es[..0] == [];
    } else {
      InvAt(s, es, n - 1);
      assert es[..n][..n - 1] == es[..n - 1];
      assert Fair(After(s, es[..n - 1]), es[n - 1]) && Renewed(After(s, es[..n - 1]), es[n - 1]);
      StepKeeps(After(s, es[..n - 1]), es[n - 1]);
    }
  }

  lemma AlwaysInv(s: Executor, es: seq<Event>)
    requires Init(s) && AllFair(s, es) && RenewedUpTo(s, es, |es|)
    ensures Inv(After(s, es))
  {
    InvAt(s, es, |es|);
    assert es[..|es|] == es;
  }

  // ---------- the promise, and exactly when it is kept ----------

  /** Whenever a deployment is neither active nor marked unsafe, each of its workers has no session, is at position 0
      and holds no capsule file. */
  ghost predicate Safe(s: Executor) {
    forall d :: Idle(s, d) ==> AllClean(s.workers[d])
  }

  /** A run is safe throughout if and only if every recovery acknowledged in it finds empty workers. */
  lemma SafeExactly(s: Executor, es: seq<Event>)
    requires Init(s) && AllFair(s, es)
    ensures (forall i :: 0 <= i <= |es| ==> Safe(After(s, es[..i]))) <==> RenewedUpTo(s, es, |es|)
  {
    if RenewedUpTo(s, es, |es|) {
      forall i | 0 <= i <= |es| ensures Safe(After(s, es[..i])) {
        InvAt(s, es, i);
      }
    } else {
      var i :| 0 <= i < |es| && !Renewed(After(s, es[..i]), es[i]);
      NotRenewed(After(s, es[..i]), es[i]);
      assert es[..i + 1][..i] == es[..i];
      assert !Safe(After(s, es[..i + 1]));
    }
  }

  lemma NotRenewed(t: Executor, e: Event)
    requires !Renewed(t, e)
    ensures !Safe(Next(t, e))
  {
    assert Idle(Next(t, e), e.deployment) && !AllClean(Next(t, e).workers[e.deployment]);
  }

  /** Only a generation of the deployment, or fresh workers, change its workers. */
  lemma RestingStep(s: Executor, e: Event, d: string)
    requires Inv(s) && d !in s.active && d in s.workers && AllClean(s.workers[d])
    ensures d in Next(s, e).workers && AllClean(Next(s, e).workers[d])
  {
    if e.Command? || e.Delete? || e.Reset? {
      if e.id in s.running {
        assert Owns(s, e.id);
      }
    }
  }

  lemma {:induction false} StillClean(s: Executor, es: seq<Event>, j: nat, i: nat, d: string)
    requires j < i <= |es| && FreshSince(s, es, j, i, d) && d in After(s, es[..j]).workers
    requires forall k :: 0 <= k <= i ==> Inv(After(s, es[..k]))
    ensures d in After(s, es[..i]).workers && AllClean(After(s, es[..i]).workers[d])
    decreases i
  {
    assert es[..i][..i - 1] == es[..i - 1];
    assert After(s, es[..i]) == Next(After(s, es[..i - 1]), es[i - 1]);
    if i > j + 1 {
      StillClean(s, es, j, i - 1, d);
      assert d !in After(s, es[..i - 1]).active;
      RestingStep(After(s, es[..i - 1]), es[i - 1], d);
    }
  }

  /** The deployments are fixed. */
  lemma SameWorkers(s: Executor, e: Event)
    ensures Next(s, e).workers.Keys == s.workers.Keys
  {
  }

  lemma {:induction false} SameDeployments(s: Executor, es: seq<Event>)
    ensures After(s, es).workers.Keys == s.workers.Keys
    decreases |es|
  {
    if es != [] {
      SameDeployments(s, es[..|es| - 1]);
      SameWorkers(After(s, es[..|es| - 1]), es[|es| - 1]);
    }
  }

  /** Workers started after the last generation are empty when their recovery is acknowledged. */
  lemma VouchedIsRenewed(s: Executor, es: seq<Event>, i: nat)
    requires Init(s) && AllFair(s, es) && i < |es| && Vouched(s, es, i) && RenewedUpTo(s, es, i)
    ensures Renewed(After(s, es[..i]), es[i])
  {
    if es[i].Acknowledge? && es[i].deployment !in After(s, es[..i]).active && es[i].deployment in After(s, es[..i]).workers {
      var d := es[i].deployment;
      var j :| 0 <= j < i && FreshSince(s, es, j, i, d);
      SameDeployments(s, es[..i]);
      SameDeployments(s, es[..j]);
      forall k | 0 <= k <= i ensures Inv(After(s, es[..k])) {
        InvAt(s, es, k);
      }
      StillClean(s, es, j, i, d);
    }
  }

  lemma RenewedNext(s: Executor, es: seq<Event>, n: nat)
    requires n < |es| && RenewedUpTo(s, es, n) && Renewed(After(s, es[..n]), es[n])
    ensures RenewedUpTo(s, es, n + 1)
  {
  }

  lemma {:induction false} VouchedUpTo(s: Executor, es: seq<Event>, n: nat)
    requires Init(s) && AllFair(s, es) && n <= |es| && AllVouched(s, es)
    ensures RenewedUpTo(s, es, n)
  {
    if n > 0 {
      VouchedUpTo(s, es, n - 1);
      assert Vouched(s, es, n - 1);
      VouchedIsRenewed(s, es, n - 1);
      RenewedNext(s, es, n - 1);
    }
  }

  /**
   Over any run of requests, failures and recoveries: at most one generation per deployment holds the lease,
   a deployment is active exactly while one runs, and whenever it is neither active nor marked unsafe, each of
   its workers has no session, is at position 0 and holds no capsule file.
   */
  lemma LeaseIsSafe(s: Executor, es: seq<Event>)
    requires Init(s) && AllFair(s, es) && AllVouched(s, es)
    ensures var t := After(s, es);
            && (forall a, b :: a in t.running && b in t.running && t.running[a].deployment == t.running[b].deployment ==> a == b)
            && (forall d :: d in t.active <==> exists id :: id in t.running && t.running[id].deployment == d)
            && Safe(t)
  {
    VouchedUpTo(s, es, |es|);
    AlwaysInv(s, es);
    var t := After(s, es);
    forall d ensures d in t.active <==> exists id :: id in t.running && t.running[id].deployment == d {
      if d in t.active {
        assert Leased(t, d);
      }
      if id :| id in t.running && t.running[id].deployment == d {
        assert Owns(t, id);
      }
    }
  }
}
