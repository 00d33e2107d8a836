/**
 The node agent's assignment runner as a transition system: startup continuations, stops, failures,
 engine exits, maintenance commands, persistence failures, crashes and recovery, in any interleaving.

 One event is the code between two awaits. An assignment instance is one object of the source's `active`
 map; externals are the production services the runner may stop to make room. A maintenance command acts
 at some moment between its launch and its exit, exit code 65 means it acted not at all, and a command does
 not outlive a crash.
 */
module Agent {
  import opened Outcomes

  type Ext = nat
  type AId = nat
  type Inst = nat

  datatype Proc = NoProc | Running | Ended

  /** The start task between two awaits. */
  datatype Start = Scheduled | Working | Dialing | Stopping(target: Ext, acted: bool) | Settled

  /** The cleanup task; a failed one can be run again. */
  datatype Cleanup = Idle | AwaitingProc | AwaitingStart | Restoring(target: Ext, acted: bool) | Cleaned

  /** `took`: its stop command acted and the service was not restarted since. `named`: written to disk since it was set. */
  datatype Active = Active(
    stopping: bool, failed: bool, proc: Proc, dialer: bool, serve: bool, timer: bool,
    ext: Option<Ext>, start: Start, cleanup: Cleanup, stopTask: bool, took: bool, named: bool)

  /** `ids` names each instance's assignment, `gone` holds the instances reported stopped. */
  datatype Runner = Runner(
    instances: map<Inst, Active>, ids: map<Inst, AId>, active: map<AId, Inst>, gone: set<Inst>,
    down: set<Ext>, durable: set<Ext>, recovering: Option<set<Ext>>)

  datatype Code = Done | Refused | Broken

  /** What an instance's start task does when it resumes. */
  datatype Step =
    | Begin
    | Dial
    | DialEnds(up: bool)
    | Spawn
    | Serve
    | SetTimer
    | AskStop(target: Ext)
    | StopActs
    | StopReturns(code: Code, giveUp: bool)
    | Resolve
    | Reject

  /** What happens around it: the engine, the cleanup task and the stop task. */
  datatype Turn =
    | EngineExits
    | ProcAwaited
    | StartAwaited
    | StartActs
    | StartReturns(ok: bool)
    | StopAsked
    | StopSettles

  datatype Event =
    | Handle(inst: Inst, id: AId, persisted: bool)
    | OnStart(inst: Inst, step: Step, persisted: bool)
    | OnTurn(inst: Inst, turn: Turn, persisted: bool)
    | Persist(persisted: bool)
    | Crash
    | Restart(target: Ext)
    | Recovered(persisted: bool)

  function New(begun: bool): Active {
    Active(false, false, NoProc, false, false, false, None, if begun then Scheduled else Settled, Idle, false, false, false)
  }

  // ---------- one instance ----------

  /** As far as the start, the engine and the external go, nothing changes. */
  predicate SameWork(x: Active, y: Active) {
    y.start == x.start && y.proc == x.proc && y.ext == x.ext && y.took == x.took && y.named == x.named
  }

  /** The cleanup closes what is open and then waits for the engine. */
  function BeginCleanup(x: Active): (y: Active)
    ensures SameWork(x, y)
    ensures Sound(x) ==> Sound(y)
  {
    if !x.cleanup.Idle? then x
    else x.(stopping := true, timer := false, dialer := false, serve := false, cleanup := AwaitingProc)
  }

  function Fail(x: Active): (y: Active)
    ensures SameWork(x, y)
    ensures Sound(x) ==> Sound(y)
  {
    if x.stopping then x else BeginCleanup(x.(failed := true))
  }

  /** The start task throws; unless a stop is under way the assignment fails. */
  function Rejected(x: Active): (y: Active)
    ensures SameWork(x.(start := Settled), y)
    ensures Sound(x) ==> Sound(y)
  {
    Fail(x.(start := Settled))
  }

  /** The start task is at an await from which it can take this step. */
  predicate Resumes(x: Active, a: Step) {
    match a
    case Begin => x.start.Scheduled?
    case DialEnds(_) => x.start.Dialing?
    case Spawn => x.start.Working? && x.proc.NoProc?
    case AskStop(_) => x.start.Working? && x.ext.None?
    case StopActs => x.start.Stopping?
    case StopReturns(code, _) => x.start.Stopping? && (code.Refused? ==> !x.start.acted)
    case _ => x.start.Working?
  }

  /** The instance after a step of its start task; `persisted` is whether the snapshot the step writes reached the disk. */
  function Resume(x: Active, a: Step, persisted: bool): Active
    requires Resumes(x, a)
  {
    match a
    case Begin => if x.stopping then Rejected(x) else x.(start := Working)
    case Dial => if x.stopping then Rejected(x) else x.(start := Dialing)
    case DialEnds(up) =>
      if !up then Rejected(x) else if x.stopping then Rejected(x.(dialer := true)) else x.(dialer := true, start := Working)
    case Spawn =>
      if x.stopping then Rejected(x) else if persisted then x.(proc := Running) else Rejected(x.(proc := Running))
    case Serve => x.(serve := true)
    case SetTimer => if x.stopping then Rejected(x) else x.(timer := true)
    case AskStop(e) =>
      if x.stopping then Rejected(x)
      else if persisted then x.(ext := Some(e), took := false, named := true, start := Stopping(e, false))
      else Rejected(x.(ext := Some(e), took := false, named := false))
    case StopActs => x.(start := Stopping(x.start.target, true), took := true)
    case StopReturns(code, giveUp) =>
      if code.Done? && !x.stopping then x.(start := Working)
      else if code.Refused? && persisted && !giveUp then x.(ext := None, took := false, start := Working)
      else if code.Refused? then Rejected(x.(ext := None, took := false))
      else Rejected(x)
    case Resolve => x.(start := Settled)
    case Reject => Rejected(x)
  }

  predicate Turns(x: Active, a: Turn, gone: bool) {
    match a
    case EngineExits => x.proc.Running?
    case ProcAwaited => x.cleanup.AwaitingProc? && !x.proc.Running?
    case StartAwaited => x.cleanup.AwaitingStart? && x.start.Settled?
    case StartActs => x.cleanup.Restoring?
    case StartReturns(ok) => x.cleanup.Restoring? && (ok ==> x.cleanup.acted)
    case StopAsked => !x.stopTask && !gone
    case StopSettles => x.stopTask && (x.cleanup.Idle? || x.cleanup.Cleaned?)
  }

  function Turned(x: Active, a: Turn, persisted: bool): Active {
    match a
    case EngineExits => if x.stopping || x.failed then x.(proc := Ended) else Fail(x.(proc := Ended))
    case ProcAwaited => x.(cleanup := AwaitingStart)
    case StartAwaited =>
      x.(dialer := false, serve := false, timer := false, cleanup := if x.ext.None? then Cleaned else Restoring(x.ext.value, false))
    case StartActs => if x.cleanup.Restoring? then x.(cleanup := Restoring(x.cleanup.target, true), took := false) else x
    case StartReturns(ok) =>
      if !ok then x.(cleanup := Idle) else x.(ext := None, took := false, cleanup := if persisted then Cleaned else Idle)
    case StopAsked => BeginCleanup(x).(stopTask := true)
    case StopSettles => x.(stopTask := false)
  }

  // ---------- the runner ----------

  /** What a snapshot names: the externals of the instances still active. */
  function Snapshot(s: Runner): set<Ext> {
    set i | i in s.instances && i !in s.gone && s.instances[i].ext.Some? :: s.instances[i].ext.value
  }

  function Saved(s: Runner, persisted: bool): Runner {
    if persisted then s.(durable := Snapshot(s)) else s
  }

  /** A service that is up again makes everybody's earlier stop of it moot. */
  function Cleared(instances: map<Inst, Active>, e: Ext): map<Inst, Active> {
    map i | i in instances :: if instances[i].ext == Some(e) then instances[i].(took := false) else instances[i]
  }

  function Started(s: Runner, i: Inst, a: Step, persisted: bool): Runner
    requires i in s.instances
  {
    var x := s.instances[i];
    if !Resumes(x, a) then s
    else
      var t := s.(instances := s.instances[i := Resume(x, a, persisted)]);
      if a.StopActs? then t.(down := s.down + {x.start.target}) else Saved(t, persisted)
  }

  function Carried(s: Runner, i: Inst, a: Turn, persisted: bool): Runner
    requires i in s.instances && i in s.ids
  {
    var x := s.instances[i];
    if !Turns(x, a, i in s.gone) then s
    else
      var t := s.(instances := s.instances[i := Turned(x, a, persisted)]);
      if a.StartActs? then t.(down := s.down - {x.cleanup.target}, instances := Cleared(t.instances, x.cleanup.target))
      else if a.StopSettles? && x.cleanup.Cleaned? then Saved(t.(active := s.active - {s.ids[i]}, gone := s.gone + {i}), persisted)
      else if a.StartReturns? then Saved(t, persisted)
      else t
  }

  function Next(s: Runner, e: Event): Runner {
    match e
    case Crash => Runner(map[], map[], map[], {}, s.down, s.durable, Some(s.durable))
    case Restart(x) =>
      if s.recovering.Some? && x in s.recovering.value then s.(down := s.down - {x}, recovering := Some(s.recovering.value - {x})) else s
    case Recovered(persisted) =>
      if s.recovering == Some({}) && persisted then s.(durable := {}, recovering := None) else s
    case Handle(i, id, persisted) =>
      if s.recovering.Some? || id in s.active || i in s.instances then s
      else Saved(s.(instances := s.instances[i := New(persisted)], ids := s.ids[i := id], active := s.active[id := i]), persisted)
    case OnStart(i, a, persisted) => if i in s.instances then Started(s, i, a, persisted) else s
    case OnTurn(i, a, persisted) => if i in s.instances && i in s.ids then Carried(s, i, a, persisted) else s
    case Persist(persisted) => if s.recovering.Some? then s else Saved(s, persisted)
  }

  function After(s: Runner, es: seq<Event>): Runner {
    if es == [] then s else Next(After(s, es[..|es| - 1]), es[|es| - 1])
  }

  // ---------- what every instance keeps ----------

  /** Nothing of the start is left. */
  predicate Quiet(x: Active) {
    !x.proc.Running? && x.start.Settled? && x.ext.None? && !x.dialer && !x.serve && !x.timer
  }

  predicate Sound(x: Active) {
    && (!x.cleanup.Idle? || x.stopTask || x.failed ==> x.stopping)
    && (x.cleanup.AwaitingStart? || x.cleanup.Restoring? || x.cleanup.Cleaned? ==> !x.proc.Running?)
    && (x.cleanup.Restoring? || x.cleanup.Cleaned? ==> x.start.Settled? && !x.dialer && !x.serve && !x.timer)
    && (x.cleanup.Cleaned? ==> x.ext.None?)
    && (x.cleanup.Restoring? ==> x.ext == Some(x.cleanup.target) && (x.cleanup.acted ==> !x.took))
    && (x.took ==> x.ext.Some? && x.named)
    && (x.start.Stopping? ==> x.ext == Some(x.start.target) && x.named && (!x.start.acted ==> !x.took))
  }

  /** No new engine, timer, dial or stop of an external. */
  predicate NothingNew(x: Active, y: Active) {
    && (y.proc.Running? ==> x.proc.Running?) && (y.timer ==> x.timer)
    && (y.start.Dialing? ==> x.start.Dialing?)
    && (y.start.Stopping? ==> x.start.Stopping? && y.start.target == x.start.target) && (y.ext.Some? ==> y.ext == x.ext)
  }

  /** Once a stop is under way, no step of the start task begins anything. */
  lemma StoppingBeginsNothing(x: Active, a: Step, persisted: bool)
    requires Resumes(x, a) && x.stopping
    ensures NothingNew(x, Resume(x, a, persisted))
  {
    if a.StopReturns? {
      StopReturnsNothing(x, a.code, a.giveUp, persisted);
    }
  }

  lemma StopReturnsNothing(x: Active, code: Code, giveUp: bool, persisted: bool)
    requires Resumes(x, StopReturns(code, giveUp)) && x.stopping
    ensures NothingNew(x, Resume(x, StopReturns(code, giveUp), persisted))
  {
  }

  // One lemma for each step that changes more than the start's place.

  lemma DialEndsSound(x: Active, up: bool, persisted: bool)
    requires Sound(x) && Resumes(x, DialEnds(up))
    ensures Sound(Resume(x, DialEnds(up), persisted))
  {
  }

  lemma SpawnSound(x: Active, persisted: bool)
    requires Sound(x) && Resumes(x, Spawn)
    ensures Sound(Resume(x, Spawn, persisted))
  {
  }

  lemma AskStopSound(x: Active, e: Ext, persisted: bool)
    requires Sound(x) && Resumes(x, AskStop(e))
    ensures Sound(Resume(x, AskStop(e), persisted))
  {
  }

  lemma StopReturnsSound(x: Active, code: Code, giveUp: bool, persisted: bool)
    requires Sound(x) && Resumes(x, StopReturns(code, giveUp))
    ensures Sound(Resume(x, StopReturns(code, giveUp), persisted))
  {
  }

  lemma ResumeSound(x: Active, a: Step, persisted: bool)
    requires Sound(x) && Resumes(x, a)
    ensures Sound(Resume(x, a, persisted))
  {
    match a
    case DialEnds(up) => DialEndsSound(x, up, persisted);
    case Spawn => SpawnSound(x, persisted);
    case AskStop(e) => AskStopSound(x, e, persisted);
    case StopReturns(code, giveUp) => StopReturnsSound(x, code, giveUp, persisted);
    case _ =>
  }

  /** An external is restored only once the start has settled and all it opened is closed again. */
  lemma TurnedSound(x: Active, a: Turn, persisted: bool, gone: bool)
    requires Sound(x) && Turns(x, a, gone)
    ensures
      var y := Turned(x, a, persisted);
      && Sound(y)
      && (y.cleanup.Restoring? && !x.cleanup.Restoring? ==>
            a.StartAwaited? && x.start.Settled? && !y.proc.Running? && !y.dialer && !y.serve && !y.timer)
  {
  }

  predicate Took(x: Active, e: Ext) {
    x.took && x.ext == Some(e)
  }

  /** Only a restart that acted ends the blame for an external that is down. */
  lemma ResumeBlame(x: Active, a: Step, persisted: bool, e: Ext)
    requires Sound(x) && Resumes(x, a) && Took(x, e)
    ensures Took(Resume(x, a, persisted), e)
  {
  }

  lemma TurnedBlame(x: Active, a: Turn, persisted: bool, gone: bool, e: Ext)
    requires Sound(x) && Turns(x, a, gone) && Took(x, e) && !a.StartActs?
    ensures Took(Turned(x, a, persisted), e)
  {
  }

  /** What an instance names after a step it named before. */
  predicate NamesNoMore(x: Active, y: Active) {
    y.named && y.ext.Some? ==> x.named && x.ext == y.ext
  }

  lemma AskStopNames(x: Active, e: Ext)
    requires Resumes(x, AskStop(e))
    ensures NamesNoMore(x, Resume(x, AskStop(e), false))
  {
  }

  lemma StopReturnsNames(x: Active, code: Code, giveUp: bool, persisted: bool)
    requires Resumes(x, StopReturns(code, giveUp))
    ensures NamesNoMore(x, Resume(x, StopReturns(code, giveUp), persisted))
  {
  }

  /** A newly named external was persisted in the same step. */
  lemma ResumeNames(x: Active, a: Step, persisted: bool)
    requires Resumes(x, a)
    ensures NamesNoMore(x, Resume(x, a, persisted)) || (a.AskStop? && persisted)
  {
    match a
    case AskStop(e) =>
      if !persisted {
        AskStopNames(x, e);
      }
    case StopReturns(code, giveUp) => StopReturnsNames(x, code, giveUp, persisted);
    case _ =>
  }

  lemma TurnedNames(x: Active, a: Turn, persisted: bool)
    ensures NamesNoMore(x, Turned(x, a, persisted))
  {
    match a
    case EngineExits =>
    case StopAsked =>
    case _ =>
  }

  // ---------- what the runner keeps ----------

  /** Cleaned up and no stop under way. */
  predicate Parked(x: Active) {
    x.cleanup.Cleaned? && !x.stopTask
  }

  ghost predicate AllSound(s: Runner) {
    && s.ids.Keys == s.instances.Keys
    && (forall i :: i in s.instances ==> Sound(s.instances[i]))
    && (forall i :: i in s.gone ==> i in s.instances && Parked(s.instances[i]))
  }

  /** The map of active assignments holds exactly the instances not yet reported stopped. */
  ghost predicate Listed(s: Runner) {
    && (forall id :: id in s.active ==> s.active[id] in s.ids && s.ids[s.active[id]] == id && s.active[id] !in s.gone)
    && (forall i :: i in s.ids && i !in s.gone ==> s.ids[i] in s.active && s.active[s.ids[i]] == i)
  }

  /** An external that is down was taken down by an instance that still names it. */
  ghost predicate Blamed(s: Runner) {
    forall e :: e in s.down ==> exists i :: i in s.instances && Took(s.instances[i], e)
  }

  /** What an instance has named on disk is still there. */
  ghost predicate NamedOnDisk(s: Runner) {
    forall i :: i in s.instances && s.instances[i].named && s.instances[i].ext.Some? ==> s.instances[i].ext.value in s.durable
  }

  ghost predicate Inv(s: Runner) {
    && AllSound(s) && Listed(s) && NamedOnDisk(s)
    && match s.recovering
       case None => Blamed(s)
       case Some(todo) => s.instances == map[] && s.down <= todo <= s.durable
  }

  ghost predicate Initial(s: Runner) {
    s == Runner(map[], map[], map[], {}, {}, {}, None)
  }

  /** A snapshot names whatever any instance names. */
  lemma SavedNames(s: Runner)
    requires AllSound(s)
    ensures NamedOnDisk(s.(durable := Snapshot(s)))
  {
    forall i | i in s.instances && s.instances[i].named && s.instances[i].ext.Some?
      ensures s.instances[i].ext.value in Snapshot(s)
    {
      assert Sound(s.instances[i]);
      assert i !in s.gone;
    }
  }

  lemma SavedInv(s: Runner, persisted: bool)
    requires Inv(s) && s.recovering.None?
    ensures Inv(Saved(s, persisted))
  {
    SavedNames(s);
    assert Blamed(Saved(s, persisted));
  }

  /** The instance after its step answers for what it took down, and the rest of the runner is as it was. */
  lemma Replaced(s: Runner, i: Inst, y: Active)
    requires Inv(s) && s.recovering.None? && i in s.instances && Sound(y) && (i in s.gone ==> Parked(y))
    requires forall e :: Took(s.instances[i], e) ==> Took(y, e)
    ensures
      var t := s.(instances := s.instances[i := y]);
      && AllSound(t) && Listed(t) && Blamed(t)
      && ((y.named && y.ext.Some? ==> s.instances[i].named && s.instances[i].ext == y.ext) ==> NamedOnDisk(t))
  {
    var t := s.(instances := s.instances[i := y]);
    forall e | e in s.down ensures exists j :: j in t.instances && Took(t.instances[j], e) {
      var j :| j in s.instances && Took(s.instances[j], e);
      assert j in t.instances && Took(t.instances[j], e);
    }
  }

  /** A new instance, which has taken nothing down. */
  lemma AddedBlamed(s: Runner, i: Inst, x: Active)
    requires Blamed(s) && i !in s.instances
    ensures Blamed(s.(instances := s.instances[i := x]))
  {
    var t := s.(instances := s.instances[i := x]);
    forall e | e in t.down ensures exists j :: j in t.instances && Took(t.instances[j], e) {
      var j :| j in s.instances && Took(s.instances[j], e);
      assert j in t.instances && Took(t.instances[j], e);
    }
  }

  lemma AddedInv(s: Runner, i: Inst, id: AId, begun: bool)
    requires Inv(s) && s.recovering.None? && id !in s.active && i !in s.instances
    ensures Inv(s.(instances := s.instances[i := New(begun)], ids := s.ids[i := id], active := s.active[id := i]))
  {
    var t := s.(instances := s.instances[i := New(begun)], ids := s.ids[i := id], active := s.active[id := i]);
    AddedBlamed(s, i, New(begun));
    AddedListed(s, t, i, id);
    AddedSound(s, t, i, id, begun);
    assert Blamed(t);
  }

  lemma AddedListed(s: Runner, t: Runner, i: Inst, id: AId)
    requires Listed(s) && i !in s.ids && i !in s.gone && id !in s.active
    requires t.ids == s.ids[i := id] && t.active == s.active[id := i] && t.gone == s.gone
    ensures Listed(t)
  {
  }

  lemma AddedSound(s: Runner, t: Runner, i: Inst, id: AId, begun: bool)
    requires AllSound(s) && NamedOnDisk(s) && i !in s.instances
    requires t.instances == s.instances[i := New(begun)] && t.ids == s.ids[i := id] && t.gone == s.gone && t.durable == s.durable
    ensures AllSound(t) && NamedOnDisk(t)
  {
    assert Sound(New(begun)) && !New(begun).named;
  }

  lemma HandleInv(s: Runner, i: Inst, id: AId, persisted: bool)
    requires Inv(s)
    ensures Inv(Next(s, Handle(i, id, persisted)))
  {
    if !(s.recovering.Some? || id in s.active || i in s.instances) {
      AddedInv(s, i, id, persisted);
      SavedInv(s.(instances := s.instances[i := New(persisted)], ids := s.ids[i := id], active := s.active[id := i]), persisted);
    }
  }

  /** As Replaced, followed by a write of the snapshot. */
  lemma ReplacedSaved(s: Runner, i: Inst, y: Active)
    requires Inv(s) && s.recovering.None? && i in s.instances && Sound(y) && (i in s.gone ==> Parked(y))
    requires forall e :: Took(s.instances[i], e) ==> Took(y, e)
    ensures
      var t := s.(instances := s.instances[i := y]);
      Inv(t.(durable := Snapshot(t)))
  {
    Replaced(s, i, y);
    var t := s.(instances := s.instances[i := y]);
    SavedNames(t);
    assert Blamed(t.(durable := Snapshot(t)));
  }

  lemma StartedInv(s: Runner, i: Inst, a: Step, persisted: bool)
    requires Inv(s) && i in s.instances
    ensures Inv(Started(s, i, a, persisted))
  {
    var x := s.instances[i];
    if Resumes(x, a) {
      ResumeSound(x, a, persisted);
      ResumeNames(x, a, persisted);
      forall e | Took(x, e) ensures Took(Resume(x, a, persisted), e) {
        ResumeBlame(x, a, persisted, e);
      }
      ResumedInv(s, i, a, persisted, Resume(x, a, persisted));
    }
  }

  /** The step taken, whatever it made of the instance. */
  lemma ResumedInv(s: Runner, i: Inst, a: Step, persisted: bool, y: Active)
    requires Inv(s) && s.recovering.None? && i in s.instances && Sound(y) && !s.instances[i].start.Settled?
    requires forall e :: Took(s.instances[i], e) ==> Took(y, e)
    requires y.named && y.ext.Some? ==> (s.instances[i].named && s.instances[i].ext == y.ext) || (a.AskStop? && persisted)
    requires a.StopActs? ==> s.instances[i].start.Stopping? && Took(y, s.instances[i].start.target)
    ensures
      var t := s.(instances := s.instances[i := y]);
      && (a.StopActs? ==> Inv(t.(down := s.down + {s.instances[i].start.target})))
      && (!a.StopActs? ==> Inv(Saved(t, persisted)))
  {
    var t := s.(instances := s.instances[i := y]);
    Replaced(s, i, y);
    if a.StopActs? {
      StopActsInv(t, i, s.instances[i].start.target);
    } else if persisted {
      ReplacedSaved(s, i, y);
    }
  }

  lemma StopActsInv(t: Runner, i: Inst, e: Ext)
    requires Inv(t) && t.recovering.None? && i in t.instances && Took(t.instances[i], e)
    ensures Inv(t.(down := t.down + {e}))
  {
  }

  /** Its service is up: nobody has taken it down any more. */
  lemma StartActsInv(t: Runner, e: Ext)
    requires Inv(t) && t.recovering.None?
    ensures Inv(t.(down := t.down - {e}, instances := Cleared(t.instances, e)))
  {
    var u := t.(down := t.down - {e}, instances := Cleared(t.instances, e));
    ClearedSound(t, e);
    ClearedBlamed(t, e);
    assert Listed(u);
  }

  lemma ClearedSound(t: Runner, e: Ext)
    requires AllSound(t) && NamedOnDisk(t)
    ensures AllSound(t.(down := t.down - {e}, instances := Cleared(t.instances, e)))
    ensures NamedOnDisk(t.(down := t.down - {e}, instances := Cleared(t.instances, e)))
  {
    var after := Cleared(t.instances, e);
    forall i | i in after ensures Sound(after[i]) && (Parked(t.instances[i]) ==> Parked(after[i])) {
      assert Sound(t.instances[i]);
    }
  }

  lemma ClearedBlamed(t: Runner, e: Ext)
    requires Blamed(t)
    ensures Blamed(t.(down := t.down - {e}, instances := Cleared(t.instances, e)))
  {
    var u := t.(down := t.down - {e}, instances := Cleared(t.instances, e));
    forall d | d in u.down ensures exists j :: j in u.instances && Took(u.instances[j], d) {
      var j :| j in t.instances && Took(t.instances[j], d);
      assert j in u.instances && Took(u.instances[j], d);
    }
  }

  /** An instance whose cleanup is complete leaves the list of active assignments. */
  lemma GoneInv(t: Runner, i: Inst, persisted: bool)
    requires Inv(t) && t.recovering.None? && i in t.instances && Parked(t.instances[i]) && i !in t.gone
    ensures Inv(Saved(t.(active := t.active - {t.ids[i]}, gone := t.gone + {i}), persisted))
  {
    var u := t.(active := t.active - {t.ids[i]}, gone := t.gone + {i});
    assert Inv(u) by {
      assert AllSound(u) && NamedOnDisk(u) && Blamed(u);
      assert Listed(u);
    }
    SavedInv(u, persisted);
  }

  lemma CarriedInv(s: Runner, i: Inst, a: Turn, persisted: bool)
    requires Inv(s) && i in s.instances && i in s.ids
    ensures Inv(Carried(s, i, a, persisted))
  {
    var x := s.instances[i];
    if Turns(x, a, i in s.gone) {
      TurnedSound(x, a, persisted, i in s.gone);
      TurnedNames(x, a, persisted);
      if a.StartActs? {
        RestoreInv(s, i, persisted);
      } else {
        forall e | Took(x, e) ensures Took(Turned(x, a, persisted), e) {
          TurnedBlame(x, a, persisted, i in s.gone, e);
        }
        TurnInv(s, i, a, persisted, Turned(x, a, persisted));
      }
    }
  }

  lemma TurnInv(s: Runner, i: Inst, a: Turn, persisted: bool, y: Active)
    requires Inv(s) && s.recovering.None? && i in s.instances && Sound(y) && !a.StartActs? && (i in s.gone ==> Parked(y))
    requires forall e :: Took(s.instances[i], e) ==> Took(y, e)
    requires y.named && y.ext.Some? ==> s.instances[i].named && s.instances[i].ext == y.ext
    requires a.StopSettles? ==> i !in s.gone && y.cleanup == s.instances[i].cleanup && !y.stopTask
    ensures
      var t := s.(instances := s.instances[i := y]);
      && Inv(t) && Inv(Saved(t, persisted))
      && (a.StopSettles? && y.cleanup.Cleaned? ==> Inv(Saved(t.(active := s.active - {s.ids[i]}, gone := s.gone + {i}), persisted)))
  {
    Replaced(s, i, y);
    var t := s.(instances := s.instances[i := y]);
    SavedInv(t, persisted);
    if a.StopSettles? && y.cleanup.Cleaned? {
      GoneInv(t, i, persisted);
    }
  }

  lemma RestoreShape(s: Runner, i: Inst, persisted: bool)
    requires i in s.instances && i in s.ids && s.instances[i].cleanup.Restoring?
    requires s.instances[i].ext == Some(s.instances[i].cleanup.target)
    ensures
      var x := s.instances[i];
      var e := x.cleanup.target;
      Carried(s, i, StartActs, persisted)
      == s.(down := s.down - {e}, instances := Cleared(s.instances, e)[i := x.(cleanup := Restoring(e, true), took := false)])
  {
    var x := s.instances[i];
    var e := x.cleanup.target;
    var y := x.(cleanup := Restoring(e, true), took := false);
    assert Cleared(s.instances[i := y], e) == Cleared(s.instances, e)[i := y];
  }

  lemma RestoreInv(s: Runner, i: Inst, persisted: bool)
    requires Inv(s) && i in s.instances && i in s.ids && s.instances[i].cleanup.Restoring?
    ensures Inv(Carried(s, i, StartActs, persisted))
  {
    var x := s.instances[i];
    assert Sound(x);
    var e := x.cleanup.target;
    StartActsInv(s, e);
    RestoreShape(s, i, persisted);
    RestoredInv(s.(down := s.down - {e}, instances := Cleared(s.instances, e)), i, e);
  }

  lemma RestoredInv(v: Runner, i: Inst, e: Ext)
    requires Inv(v) && v.recovering.None? && i in v.instances && !v.instances[i].took && v.instances[i].ext == Some(e)
    requires v.instances[i].cleanup.Restoring? && v.instances[i].cleanup.target == e
    ensures Inv(v.(instances := v.instances[i := v.instances[i].(cleanup := Restoring(e, true))]))
  {
    Replaced(v, i, v.instances[i].(cleanup := Restoring(e, true)));
  }

  lemma NextInv(s: Runner, e: Event)
    requires Inv(s)
    ensures Inv(Next(s, e))
  {
    match e
    case Handle(i, id, persisted) => HandleInv(s, i, id, persisted);
    case OnStart(i, a, persisted) =>
      if i in s.instances {
        StartedInv(s, i, a, persisted);
      }
    case OnTurn(i, a, persisted) =>
      if i in s.instances && i in s.ids {
        CarriedInv(s, i, a, persisted);
      }
    case Persist(persisted) =>
      if s.recovering.None? {
        SavedInv(s, persisted);
      }
    case _ =>
  }

  lemma {:induction false} AlwaysInv(s: Runner, es: seq<Event>)
    requires Inv(s)
    ensures Inv(After(s, es))
  {
    if es != [] {
      AlwaysInv(s, es[..|es| - 1]);
      NextInv(After(s, es[..|es| - 1]), es[|es| - 1]);
    }
  }

  // ---------- what holds over every run ----------

  /** An assignment reported stopped has no process, no running start, no stopped external, no dialer, stream or timer. */
  lemma StoppedIsQuiet(s: Runner, es: seq<Event>, i: Inst)
    requires Initial(s) && i in After(s, es).gone
    ensures i in After(s, es).instances && Quiet(After(s, es).instances[i])
  {
    AlwaysInv(s, es);
    assert Sound(After(s, es).instances[i]);
  }

  lemma {:induction false} GoneForever(s: Runner, es: seq<Event>, i: Inst)
    requires Inv(s) && i in s.gone && forall k :: 0 <= k < |es| ==> !es[k].Crash?
    ensures i in After(s, es).gone
  {
    if es != [] {
      GoneForever(s, es[..|es| - 1], i);
    }
  }

  /** ... and never again has one, whatever of that start resumes later. */
  lemma StoppedStaysQuiet(s: Runner, before: seq<Event>, es: seq<Event>, i: Inst)
    requires Initial(s) && i in After(s, before).gone && forall k :: 0 <= k < |es| ==> !es[k].Crash?
    ensures
      var t := After(After(s, before), es);
      i in t.gone && i in t.instances && Quiet(t.instances[i])
  {
    AlwaysInv(s, before);
    GoneForever(After(s, before), es, i);
    AlwaysInv(After(s, before), es);
    assert Sound(After(After(s, before), es).instances[i]);
  }

  /** At every point of every run, an external that is down is named in the snapshot on disk. */
  lemma DownIsNamed(s: Runner, es: seq<Event>)
    requires Initial(s)
    ensures After(s, es).down <= After(s, es).durable
  {
    AlwaysInv(s, es);
    var t := After(s, es);
    forall e | e in t.down ensures e in t.durable {
      if t.recovering.None? {
        var i :| i in t.instances && Took(t.instances[i], e);
        assert Sound(t.instances[i]);
      }
    }
  }

  function Restarts(order: seq<Ext>): seq<Event> {
    seq(|order|, k requires 0 <= k < |order| => Restart(order[k]))
  }

  function Without(todo: set<Ext>, order: seq<Ext>): set<Ext> {
    set e | e in todo && e !in order
  }

  lemma WithoutSnoc(todo: set<Ext>, order: seq<Ext>, last: Ext)
    ensures Without(todo, order + [last]) == Without(todo, order) - {last}
  {
  }

  /** Whatever is restarted leaves the list, and what stays down is still on it. */
  lemma {:induction false} RestartsDo(s: Runner, order: seq<Ext>)
    requires s.recovering.Some? && s.down <= s.recovering.value
    ensures
      var t := After(s, Restarts(order));
      t.recovering == Some(Without(s.recovering.value, order)) && t.durable == s.durable && t.down <= t.recovering.value
  {
    if order == [] {
      assert Without(s.recovering.value, order) == s.recovering.value;
    } else {
      var init, last := order[..|order| - 1], order[|order| - 1];
      assert order == init + [last];
      RestartsDo(s, init);
      WithoutSnoc(s.recovering.value, init, last);
      assert Restarts(order)[..|order| - 1] == Restarts(init);
      var t := After(s, Restarts(init));
      assert last !in t.recovering.value ==> t.recovering.value - {last} == t.recovering.value;
    }
  }

  /** A crash at any point, then a recovery that restarts what the snapshot names in any order: every external is up. */
  lemma CrashThenRecover(s: Runner, es: seq<Event>, order: seq<Ext>)
    requires Initial(s) && forall e :: e in After(s, es).durable ==> e in order
    ensures
      var t := Next(After(Next(After(s, es), Crash), Restarts(order)), Recovered(true));
      t.recovering.None? && t.down == {} && t.durable == {}
  {
    var c := Next(After(s, es), Crash);
    DownIsNamed(s, es);
    RestartsDo(c, order);
    assert Without(c.durable, order) == {};
  }

  /** However the recovery went, it completes only with every external up. */
  lemma RecoveredMeansUp(s: Runner, es: seq<Event>, persisted: bool)
    requires Initial(s) && After(s, es).recovering.Some? && Next(After(s, es), Recovered(persisted)).recovering.None?
    ensures Next(After(s, es), Recovered(persisted)).down == {}
  {
    AlwaysInv(s, es);
  }
}
