/**
 What the assignment runner gets done: an accepted assignment starts its engine, a failure begins the
 cleanup, and a stop can always be brought to its end.
 */
module AgentProgress {
  import opened Outcomes
  import opened Agent

  lemma Append(s: Runner, es: seq<Event>, e: Event)
    ensures After(s, es + [e]) == Next(After(s, es), e)
  {
    assert (es + [e])[..|es|] == es;
  }

  lemma {:induction false} Prepend(s: Runner, e: Event, es: seq<Event>)
    ensures After(s, [e] + es) == After(Next(s, e), es)
  {
    if es == [] {
      assert [e] + es == [e];
      assert [e][..0] == [];
    } else {
      Prepend(s, e, es[..|es| - 1]);
      assert ([e] + es)[..|es|] == [e] + es[..|es| - 1];
    }
  }

  // ---------- starting ----------

  /** The start task can take these steps one after the other. */
  ghost predicate Walks(x: Active, steps: seq<Step>)
    decreases |steps|
  {
    steps == [] || (Resumes(x, steps[0]) && Walks(Resume(x, steps[0], true), steps[1..]))
  }

  ghost function Walked(x: Active, steps: seq<Step>): Active
    requires Walks(x, steps)
    decreases |steps|
  {
    if steps == [] then x else Walked(Resume(x, steps[0], true), steps[1..])
  }

  function Starts(i: Inst, steps: seq<Step>): seq<Event> {
    seq(|steps|, k requires 0 <= k < |steps| => OnStart(i, steps[k], true))
  }

  predicate SameLists(s: Runner, t: Runner) {
    t.ids == s.ids && t.active == s.active && t.gone == s.gone && t.recovering == s.recovering
  }

  lemma StepInRun(s: Runner, i: Inst, a: Step)
    requires i in s.instances && Resumes(s.instances[i], a)
    ensures
      var t := Next(s, OnStart(i, a, true));
      && t.instances == s.instances[i := Resume(s.instances[i], a, true)] && SameLists(s, t)
      && t.down == (if a.StopActs? then s.down + {s.instances[i].start.target} else s.down)
      && (!a.StopActs? ==> t.durable == Snapshot(t))
  {
  }

  /** The steps of one start task, with writes that reach the disk, change its instance alone; what was down stays down. */
  lemma {:induction false} WalkInRun(s: Runner, i: Inst, steps: seq<Step>)
    requires i in s.instances && Walks(s.instances[i], steps)
    ensures
      var t := After(s, Starts(i, steps));
      && t.instances == s.instances[i := Walked(s.instances[i], steps)] && s.down <= t.down
      && SameLists(s, t)
    decreases |steps|
  {
    if steps == [] {
      assert s.instances[i := s.instances[i]] == s.instances;
    } else {
      var t := Next(s, OnStart(i, steps[0], true));
      StepInRun(s, i, steps[0]);
      var y := t.instances[i];
      WalkInRun(t, i, steps[1..]);
      Prepend(s, OnStart(i, steps[0], true), Starts(i, steps[1..]));
      assert Starts(i, steps) == [OnStart(i, steps[0], true)] + Starts(i, steps[1..]);
      assert s.instances[i := y][i := Walked(y, steps[1..])] == s.instances[i := Walked(y, steps[1..])];
    }
  }

  /** An accepted assignment is listed and its start is scheduled; one that could not be recorded never starts. */
  lemma Accepted(s: Runner, i: Inst, id: AId, persisted: bool)
    requires s.recovering.None? && id !in s.active && i !in s.instances
    ensures
      var t := Next(s, Handle(i, id, persisted));
      && i in t.instances && id in t.active && t.active[id] == i && i in t.ids && t.ids[i] == id && t.recovering.None?
      && t.gone == s.gone && t.down == s.down
      && (if persisted then Resumes(t.instances[i], Begin) else t.instances[i].start.Settled?)
      && !t.instances[i].stopping && t.instances[i].proc.NoProc? && t.instances[i].ext.None?
  {
  }

  /** The shortest start. */
  lemma StartRuns(s: Runner, i: Inst, id: AId)
    requires s.recovering.None? && id !in s.active && i !in s.instances
    ensures
      var t := After(s, [Handle(i, id, true)] + Starts(i, [Begin, Spawn]));
      && i in t.instances && t.instances[i].proc.Running? && !t.instances[i].stopping && !t.instances[i].failed
      && id in t.active && t.active[id] == i
  {
    var h := Next(s, Handle(i, id, true));
    Accepted(s, i, id, true);
    var x := h.instances[i];
    assert Walks(Resume(x, Begin, true), [Spawn]) by {
      assert [Spawn][1..] == [];
    }
    assert [Begin, Spawn][1..] == [Spawn];
    assert Walks(x, [Begin, Spawn]);
    WalkInRun(h, i, [Begin, Spawn]);
    Prepend(s, Handle(i, id, true), Starts(i, [Begin, Spawn]));
  }

  const OPENING := [Dial, DialEnds(true), Spawn, Serve, SetTimer, Resolve]

  /** A start that is not being stopped opens what it needs, in this order. */
  lemma Opens(x: Active)
    requires x.start.Working? && x.proc.NoProc? && !x.stopping
    ensures Walks(x, OPENING)
    ensures Walked(x, OPENING) == x.(proc := Running, dialer := true, serve := true, timer := true, start := Settled)
  {
    var dialing, dialed := x.(start := Dialing), x.(dialer := true);
    var rest := [Serve, SetTimer, Resolve];
    Publishes(dialed.(proc := Running));
    Onto(dialed, Spawn, dialed.(proc := Running), rest);
    Onto(dialing, DialEnds(true), dialed, [Spawn] + rest);
    Onto(x, Dial, dialing, [DialEnds(true)] + ([Spawn] + rest));
    assert OPENING == [Dial] + ([DialEnds(true)] + ([Spawn] + rest));
  }

  lemma Publishes(x: Active)
    requires x.start.Working? && !x.stopping
    ensures Walks(x, [Serve, SetTimer, Resolve])
    ensures Walked(x, [Serve, SetTimer, Resolve]) == x.(serve := true, timer := true, start := Settled)
  {
    var served := x.(serve := true);
    var timed := served.(timer := true);
    var done := timed.(start := Settled);
    var none: seq<Step> := [];
    assert Walks(done, none) && Walked(done, none) == done;
    Onto(timed, Resolve, done, none);
    Onto(served, SetTimer, timed, [Resolve] + none);
    Onto(x, Serve, served, [SetTimer] + ([Resolve] + none));
    assert [Serve, SetTimer, Resolve] == [Serve] + ([SetTimer] + ([Resolve] + none));
  }

  lemma Onto(x: Active, a: Step, y: Active, steps: seq<Step>)
    requires Resumes(x, a) && Resume(x, a, true) == y && Walks(y, steps)
    ensures Walks(x, [a] + steps) && Walked(x, [a] + steps) == Walked(y, steps)
  {
    assert ([a] + steps)[1..] == steps;
  }

  /** The fit gate: its external is on record, goes down, and the start goes on. */
  lemma MakesRoom(s: Runner, i: Inst, e: Ext)
    requires i in s.instances && i !in s.gone && s.instances[i].start.Working? && !s.instances[i].stopping && s.instances[i].ext.None?
    ensures
      var t := After(s, Starts(i, [AskStop(e), StopActs, StopReturns(Done, false)]));
      && t.instances == s.instances[i := s.instances[i].(ext := Some(e), took := true, named := true)]
      && e in t.down && e in t.durable
      && SameLists(s, t)
  {
    var a, b, c := OnStart(i, AskStop(e), true), OnStart(i, StopActs, true), OnStart(i, StopReturns(Done, false), true);
    ThreeSteps(s, a, b, c);
    assert Starts(i, [AskStop(e), StopActs, StopReturns(Done, false)]) == [a, b, c];
    AsksRoom(s, i, e);
    StopGoesThrough(Next(s, a), i, e);
    TwiceSet(s.instances, i, Next(s, a).instances[i], s.instances[i].(ext := Some(e), took := true, named := true));
  }

  lemma TwiceSet(m: map<Inst, Active>, i: Inst, x: Active, y: Active)
    ensures m[i := x][i := y] == m[i := y]
  {
  }

  lemma AsksRoom(s: Runner, i: Inst, e: Ext)
    requires i in s.instances && s.instances[i].start.Working? && !s.instances[i].stopping && s.instances[i].ext.None?
    ensures
      var t := Next(s, OnStart(i, AskStop(e), true));
      && t.instances == s.instances[i := s.instances[i].(ext := Some(e), took := false, named := true, start := Stopping(e, false))]
      && SameLists(s, t)
  {
    StepInRun(s, i, AskStop(e));
  }

  lemma ThreeSteps(s: Runner, a: Event, b: Event, c: Event)
    ensures After(s, [a, b, c]) == Next(Next(Next(s, a), b), c)
  {
    var none: seq<Event> := [];
    Append(s, none, a);
    Append(s, none + [a], b);
    Append(s, none + [a] + [b], c);
    assert none + [a] + [b] + [c] == [a, b, c];
  }

  lemma StopGoesThrough(s: Runner, i: Inst, e: Ext)
    requires i in s.instances && i !in s.gone && s.instances[i].start == Stopping(e, false) && s.instances[i].ext == Some(e) && !s.instances[i].stopping
    ensures
      var t := Next(Next(s, OnStart(i, StopActs, true)), OnStart(i, StopReturns(Done, false), true));
      && t.instances == s.instances[i := s.instances[i].(took := true, start := Working)]
      && e in t.down && e in t.durable && SameLists(s, t)
  {
    var x := s.instances[i];
    var acted := Next(s, OnStart(i, StopActs, true));
    StepInRun(s, i, StopActs);
    StepInRun(acted, i, StopReturns(Done, false));
    var y, z := x.(took := true, start := Stopping(e, true)), x.(took := true, start := Working);
    assert s.instances[i := y][i := z] == s.instances[i := z];
    var t := Next(acted, OnStart(i, StopReturns(Done, false), true));
    assert t.instances[i].ext == Some(e);
  }

  /** A start with everything in it: room is made, then all is opened, and nothing is left to do. */
  lemma StartCompletes(s: Runner, i: Inst, id: AId, e: Ext) returns (es: seq<Event>)
    requires Inv(s) && s.recovering.None? && id !in s.active && i !in s.instances
    ensures
      var t := After(s, es);
      && t.active == s.active[id := i] && i in t.instances && e in t.down
      && var x := t.instances[i];
         x.proc.Running? && x.dialer && x.serve && x.timer && x.ext == Some(e) && x.start.Settled? && !x.stopping && !x.failed
  {
    var h := Next(s, Handle(i, id, true));
    Accepted(s, i, id, true);
    var b := Next(h, OnStart(i, Begin, true));
    assert b.instances[i].start.Working? && b.active == s.active[id := i];
    MakesRoom(b, i, e);
    var room := Starts(i, [AskStop(e), StopActs, StopReturns(Done, false)]);
    var r := After(b, room);
    Opens(r.instances[i]);
    WalkInRun(r, i, OPENING);
    es := [Handle(i, id, true)] + ([OnStart(i, Begin, true)] + (room + Starts(i, OPENING)));
    Prepend(s, Handle(i, id, true), [OnStart(i, Begin, true)] + (room + Starts(i, OPENING)));
    Prepend(h, OnStart(i, Begin, true), room + Starts(i, OPENING));
    Follow(b, room, Starts(i, OPENING));
  }

  lemma {:induction false} Follow(s: Runner, a: seq<Event>, b: seq<Event>)
    ensures After(s, a + b) == After(After(s, a), b)
    decreases |b|
  {
    if b == [] {
      assert a + b == a;
    } else {
      Follow(s, a, b[..|b| - 1]);
      assert (a + b)[..|a + b| - 1] == a + b[..|b| - 1];
    }
  }

  // ---------- failing ----------

  /** Failed, with the cleanup on its way. */
  predicate Failing(x: Active) {
    x.failed && x.stopping && x.cleanup.AwaitingProc? && !x.timer && !x.dialer && !x.serve
  }

  /** An engine that exits outside a stop fails its assignment; inside one it only ends. */
  lemma ExitFails(x: Active, persisted: bool)
    requires Sound(x) && Turns(x, EngineExits, false)
    ensures Turned(x, EngineExits, persisted).proc.Ended?
    ensures !x.stopping ==> Failing(Turned(x, EngineExits, persisted)) && Turned(x, EngineExits, persisted).ext == x.ext
    ensures x.stopping ==> Turned(x, EngineExits, persisted) == x.(proc := Ended)
  {
  }

  /** A start that ends before it resolved, outside a stop, fails its assignment. */
  lemma RejectionFails(x: Active, a: Step, persisted: bool)
    requires Sound(x) && Resumes(x, a) && !x.stopping && !a.Resolve? && Resume(x, a, persisted).start.Settled?
    ensures Failing(Resume(x, a, persisted))
  {
    match a
    case Spawn => RejectedFails(x.(proc := Running));
    case DialEnds(up) => RejectedFails(x);
    case AskStop(e) => RejectedFails(x.(ext := Some(e), took := false, named := false));
    case StopReturns(code, giveUp) =>
      if code.Refused? {
        RejectedFails(x.(ext := None, took := false));
      } else {
        RejectedFails(x);
      }
    case _ => RejectedFails(x);
  }

  lemma RejectedFails(x: Active)
    requires !x.stopping && x.cleanup.Idle?
    ensures Failing(Rejected(x))
  {
  }

  // ---------- stopping ----------

  predicate About(e: Event, i: Inst) {
    (e.OnStart? || e.OnTurn?) && e.inst == i
  }

  /** A step with which a start that is being stopped settles. */
  function Settling(x: Active): Step {
    match x.start
    case Scheduled => Begin
    case Dialing => DialEnds(false)
    case Stopping(_, _) => StopReturns(Broken, false)
    case _ => Reject
  }

  /** The next thing on the way to the end of a stop. */
  function Onward(i: Inst, x: Active): Event {
    if !x.stopTask then OnTurn(i, StopAsked, true)
    else match x.cleanup
      case Idle => OnTurn(i, StopSettles, true)
      case AwaitingProc => OnTurn(i, if x.proc.Running? then EngineExits else ProcAwaited, true)
      case AwaitingStart => if x.start.Settled? then OnTurn(i, StartAwaited, true) else OnStart(i, Settling(x), true)
      case Restoring(_, acted) => OnTurn(i, if acted then StartReturns(true) else StartActs, true)
      case Cleaned => OnTurn(i, StopSettles, true)
  }

  /** How far it is. */
  function Distance(x: Active): nat {
    var d := match x.cleanup
      case Idle => 8
      case AwaitingProc => if x.proc.Running? then 7 else 6
      case AwaitingStart => if x.start.Settled? then 4 else 5
      case Restoring(_, acted) => if acted then 2 else 3
      case Cleaned => 1;
    if x.cleanup.Idle? then (if x.stopTask then 10 else 9) else if x.stopTask then d else d + 10
  }

  predicate Live(s: Runner, i: Inst) {
    i in s.instances && i in s.ids && i !in s.gone
  }

  /** Stopped and no longer listed. */
  predicate Finished(s: Runner, i: Inst, id: AId) {
    i in s.gone && id !in s.active
  }

  lemma SettlesNow(x: Active)
    requires x.stopping && !x.start.Settled?
    ensures Resumes(x, Settling(x)) && Resume(x, Settling(x), true).start.Settled?
    ensures Resume(x, Settling(x), true).cleanup == x.cleanup && Resume(x, Settling(x), true).stopTask == x.stopTask
  {
  }

  lemma CloserInstance(i: Inst, x: Active)
    requires Sound(x) && Onward(i, x).OnTurn?
    ensures
      var a := Onward(i, x).turn;
      Turns(x, a, false) && if a.StopSettles? && x.cleanup.Cleaned? then true else Distance(Turned(x, a, true)) < Distance(x)
  {
  }

  lemma CloserTurn(s: Runner, i: Inst)
    requires Inv(s) && Live(s, i) && Onward(i, s.instances[i]).OnTurn?
    ensures
      var t := Next(s, Onward(i, s.instances[i]));
      Finished(t, i, s.ids[i]) || (Live(t, i) && t.ids == s.ids && t.recovering == s.recovering && Distance(t.instances[i]) < Distance(s.instances[i]))
  {
    var x := s.instances[i];
    assert Sound(x);
    CloserInstance(i, x);
    var a := Onward(i, x).turn;
    if a.StartActs? {
      RestoreShape(s, i, true);
    } else {
      TurnInRun(s, i, a);
    }
  }

  lemma TurnInRun(s: Runner, i: Inst, a: Turn)
    requires Live(s, i) && Turns(s.instances[i], a, false) && !a.StartActs?
    ensures
      var t := Next(s, OnTurn(i, a, true));
      && t.instances == s.instances[i := Turned(s.instances[i], a, true)] && t.ids == s.ids && t.recovering == s.recovering
      && (a.StopSettles? && s.instances[i].cleanup.Cleaned? ==> Finished(t, i, s.ids[i]))
      && (!(a.StopSettles? && s.instances[i].cleanup.Cleaned?) ==> t.gone == s.gone)
  {
  }

  lemma CloserStart(s: Runner, i: Inst)
    requires Inv(s) && Live(s, i) && Onward(i, s.instances[i]).OnStart?
    ensures
      var t := Next(s, Onward(i, s.instances[i]));
      Live(t, i) && t.ids == s.ids && t.recovering == s.recovering && Distance(t.instances[i]) < Distance(s.instances[i])
  {
    var x := s.instances[i];
    assert Sound(x);
    SettlesNow(x);
    StepInRun(s, i, Settling(x));
  }

  lemma Closer(s: Runner, i: Inst)
    requires Inv(s) && s.recovering.None? && Live(s, i)
    ensures
      var e := Onward(i, s.instances[i]);
      var t := Next(s, e);
      && About(e, i) && t.recovering.None?
      && (Finished(t, i, s.ids[i]) || (Live(t, i) && t.ids == s.ids && Distance(t.instances[i]) < Distance(s.instances[i])))
  {
    if Onward(i, s.instances[i]).OnTurn? {
      CloserTurn(s, i);
    } else {
      CloserStart(s, i);
    }
  }

  /** Wherever an assignment stands, events of its own bring its stop to the end: nothing of it is left and nothing is down for it. */
  lemma StopCompletes(s: Runner, i: Inst) returns (es: seq<Event>)
    requires Inv(s) && s.recovering.None? && Live(s, i)
    ensures forall k :: 0 <= k < |es| ==> About(es[k], i)
    ensures
      var t := After(s, es);
      Finished(t, i, s.ids[i]) && NothingOf(t, i)
    decreases Distance(s.instances[i])
  {
    var e := Onward(i, s.instances[i]);
    var t := Next(s, e);
    NextInv(s, e);
    Closer(s, i);
    if Finished(t, i, s.ids[i]) {
      es := [e];
      assert [e][..0] == [];
      NothingLeft(t, i);
    } else {
      var rest := StopCompletes(t, i);
      es := [e] + rest;
      Prepend(s, e, rest);
    }
  }

  /** It is quiet, and what is down was taken down by another. */
  ghost predicate NothingOf(t: Runner, i: Inst) {
    && i in t.instances && Quiet(t.instances[i]) && t.recovering.None?
    && forall e :: e in t.down ==> exists j :: j in t.instances && j != i && Took(t.instances[j], e)
  }

  lemma NothingLeft(t: Runner, i: Inst)
    requires Inv(t) && t.recovering.None? && i in t.gone
    ensures NothingOf(t, i)
  {
    assert Sound(t.instances[i]);
  }
}
