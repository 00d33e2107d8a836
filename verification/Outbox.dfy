/**
 The socket outbox: a first-in first-out queue of frames under backpressure.

 The k-th frame submitted to the socket is sent, queued by the socket with backpressure, or lost; `results`
 says which, so every behaviour of the socket is covered. A send that throws is a lost frame.
 */
module Outbox {
  import opened Outcomes

  const COMPACT_AFTER := 4096

  datatype Frame = Frame(name: nat, size: nat)

  datatype Outcome = Sent | Pressed | Lost

  /** `accepted` are the frames send() said yes to, `taken` those the socket took; both in order. */
  datatype Box = Box(
    pending: seq<Frame>, bytes: int, blocked: bool, closed: bool, timer: bool,
    accepted: seq<Frame>, taken: seq<Frame>, submissions: nat, disconnects: nat)

  function Bytes(frames: seq<Frame>): nat {
    if frames == [] then 0 else frames[0].size + Bytes(frames[1..])
  }

  lemma {:induction false} BytesSnoc(frames: seq<Frame>, f: Frame)
    ensures Bytes(frames + [f]) == Bytes(frames) + f.size
  {
    if frames == [] {
      assert frames + [f] == [f];
    } else {
      assert (frames + [f])[1..] == frames[1..] + [f];
      BytesSnoc(frames[1..], f);
    }
  }

  // ---------- the queue as it is meant ----------

  function Close(b: Box): Box {
    b.(closed := true, timer := false, pending := [], bytes := 0)
  }

  function Fail(b: Box): Box {
    Close(b).(disconnects := b.disconnects + 1)
  }

  /** One frame goes to the socket. */
  function Submit(b: Box, f: Frame, results: nat -> Outcome): Box {
    var o, c := results(b.submissions), b.(submissions := b.submissions + 1);
    if o.Lost? then Fail(c) else c.(taken := b.taken + [f], blocked := o.Pressed?)
  }

  function Send(b: Box, f: Frame, limit: int, results: nat -> Outcome): Box {
    if b.closed then b
    else if f.size > limit - b.bytes then Fail(b)
    else if !b.blocked && b.pending == [] then
      var c := Submit(b, f, results);
      if c.closed then c else c.(accepted := b.accepted + [f])
    else b.(pending := b.pending + [f], bytes := b.bytes + f.size, accepted := b.accepted + [f])
  }

  function Drain(b: Box): Box {
    if b.closed then b else b.(timer := true)
  }

  /** The first pending frame is submitted. */
  function SubmitFirst(b: Box, results: nat -> Outcome): Box
    requires b.pending != []
  {
    Submit(b.(pending := b.pending[1..], bytes := b.bytes - b.pending[0].size), b.pending[0], results)
  }

  /** Frames go out until the socket pushes back or none is left. */
  function Pump(b: Box, results: nat -> Outcome): Box
    decreases |b.pending|
  {
    if b.closed || b.blocked || b.pending == [] then b else Pump(SubmitFirst(b, results), results)
  }

  function Flush(b: Box, results: nat -> Outcome): Box {
    if !b.timer then b
    else if b.closed then b.(timer := false)
    else Pump(b.(timer := false, blocked := false), results)
  }

  datatype Call = SendCall(frame: Frame) | DrainCall | FlushCall | CloseCall

  function Next(b: Box, c: Call, limit: int, results: nat -> Outcome): Box {
    match c
    case SendCall(f) => Send(b, f, limit, results)
    case DrainCall => Drain(b)
    case FlushCall => Flush(b, results)
    case CloseCall => Close(b)
  }

  function After(b: Box, calls: seq<Call>, limit: int, results: nat -> Outcome): Box {
    if calls == [] then b else Next(After(b, calls[..|calls| - 1], limit, results), calls[|calls| - 1], limit, results)
  }

  // ---------- what every run keeps ----------

  /** Holds at every moment, also in the middle of a flush. */
  predicate Orderly(b: Box, limit: int) {
    && b.taken <= b.accepted
    && (!b.closed ==> b.taken + b.pending == b.accepted && b.disconnects == 0)
    && b.bytes == Bytes(b.pending) && b.bytes <= limit
    && (b.closed ==> b.pending == [] && !b.timer)
    && b.disconnects <= 1
  }

  predicate Inv(b: Box, limit: int) {
    Orderly(b, limit) && (b.pending != [] ==> b.blocked)
  }

  function Empty(): Box {
    Box([], 0, false, false, false, [], [], 0, 0)
  }

  lemma SubmitFirstOrderly(b: Box, limit: int, results: nat -> Outcome)
    requires Orderly(b, limit) && !b.closed && b.pending != [] && limit >= 0
    ensures Orderly(SubmitFirst(b, results), limit)
    ensures SubmitFirst(b, results).accepted == b.accepted
  {
    var f, rest := b.pending[0], b.pending[1..];
    assert b.pending == [f] + rest;
    assert b.taken + b.pending == (b.taken + [f]) + rest;
  }

  lemma {:induction false} PumpInv(b: Box, limit: int, results: nat -> Outcome)
    requires Orderly(b, limit) && limit >= 0
    ensures Inv(Pump(b, results), limit)
    decreases |b.pending|
  {
    if !(b.closed || b.blocked || b.pending == []) {
      SubmitFirstOrderly(b, limit, results);
      PumpInv(SubmitFirst(b, results), limit, results);
    }
  }

  lemma SendInv(b: Box, f: Frame, limit: int, results: nat -> Outcome)
    requires Inv(b, limit) && limit >= 0
    ensures Inv(Send(b, f, limit, results), limit)
  {
    BytesSnoc(b.pending, f);
    if !b.closed {
      assert b.taken + (b.pending + [f]) == (b.taken + b.pending) + [f];
      if b.pending == [] {
        assert b.taken + b.pending == b.taken;
        assert (b.taken + [f]) + b.pending == b.accepted + [f];
      }
    }
  }

  lemma NextInv(b: Box, c: Call, limit: int, results: nat -> Outcome)
    requires Inv(b, limit) && limit >= 0
    ensures Inv(Next(b, c, limit, results), limit)
  {
    match c
    case SendCall(f) => SendInv(b, f, limit, results);
    case FlushCall =>
      if b.timer && !b.closed {
        PumpInv(b.(timer := false, blocked := false), limit, results);
      }
    case _ =>
  }

  /** After any calls: taken is a prefix of accepted, while open nothing is missing, the byte count is exact and within the limit. */
  lemma {:induction false} AlwaysInv(calls: seq<Call>, limit: int, results: nat -> Outcome)
    requires limit >= 0
    ensures Inv(After(Empty(), calls, limit, results), limit)
  {
    if calls != [] {
      AlwaysInv(calls[..|calls| - 1], limit, results);
      NextInv(After(Empty(), calls[..|calls| - 1], limit, results), calls[|calls| - 1], limit, results);
    }
  }

  /** Once closed, by a loss or otherwise, nothing more is submitted, accepted or disconnected. */
  lemma {:induction false} ClosedIsFinal(b: Box, calls: seq<Call>, limit: int, results: nat -> Outcome)
    requires b.closed
    ensures
      var c := After(b, calls, limit, results);
      c.closed && c.submissions == b.submissions && c.taken == b.taken && c.accepted == b.accepted && c.disconnects == b.disconnects
  {
    if calls != [] {
      ClosedIsFinal(b, calls[..|calls| - 1], limit, results);
    }
  }

  /** How the socket answered every submission so far. */
  ghost predicate AllTaken(b: Box, results: nat -> Outcome) {
    && (!b.closed ==> forall k :: 0 <= k < b.submissions ==> !results(k).Lost?)
    && (forall k :: 0 <= k < b.submissions - 1 ==> !results(k).Lost?)
  }

  lemma {:induction false} PumpTaken(b: Box, results: nat -> Outcome)
    requires AllTaken(b, results)
    ensures AllTaken(Pump(b, results), results)
    decreases |b.pending|
  {
    if !(b.closed || b.blocked || b.pending == []) {
      PumpTaken(SubmitFirst(b, results), results);
    }
  }

  /** A lost frame is the last one ever submitted. */
  lemma {:induction false} LossIsLast(calls: seq<Call>, limit: int, results: nat -> Outcome)
    ensures AllTaken(After(Empty(), calls, limit, results), results)
  {
    if calls != [] {
      LossIsLast(calls[..|calls| - 1], limit, results);
      var b, c := After(Empty(), calls[..|calls| - 1], limit, results), calls[|calls| - 1];
      if c.FlushCall? && b.timer && !b.closed {
        PumpTaken(b.(timer := false, blocked := false), results);
      }
    }
  }

  // ---------- what gets through ----------

  /** Submitting n frames of the queue in order, the socket taking each of them, and pressing on none but perhaps the last. */
  predicate TakesAll(results: nat -> Outcome, first: nat, n: nat) {
    (forall k: nat :: first <= k < first + n ==> !results(k).Lost?) && forall k: nat :: first <= k < first + n - 1 ==> results(k).Sent?
  }

  /** A pump that ends open has sent the first n pending frames, and stopped only under backpressure or with none left. */
  ghost predicate Pumped(b: Box, c: Box, results: nat -> Outcome, n: nat) {
    && n <= |b.pending| && c.submissions == b.submissions + n && TakesAll(results, b.submissions, n)
    && c.taken == b.taken + b.pending[..n] && c.pending == b.pending[n..] && c.accepted == b.accepted
    && (if n == 0 then c.blocked == b.blocked else c.blocked == results(b.submissions + n - 1).Pressed?)
    && (c.blocked || c.pending == [])
  }

  /** One that ends closed has lost a frame, all before it having been sent. */
  ghost predicate Cut(b: Box, c: Box, results: nat -> Outcome, n: nat) {
    && n < |b.pending| && c.submissions == b.submissions + n + 1 && (forall k: nat :: b.submissions <= k < b.submissions + n ==> results(k).Sent?)
    && results(b.submissions + n).Lost? && c.taken == b.taken + b.pending[..n] && c.disconnects == b.disconnects + 1
  }

  lemma {:induction false} PumpExactly(b: Box, results: nat -> Outcome) returns (n: nat)
    requires !b.closed && (b.pending == [] || !b.blocked)
    ensures
      var c := Pump(b, results);
      if c.closed then Cut(b, c, results, n) else Pumped(b, c, results, n)
    decreases |b.pending|
  {
    if b.pending == [] {
      n := 0;
    } else {
      var c := SubmitFirst(b, results);
      if results(b.submissions).Lost? {
        n := 0;
        assert Pump(b, results) == c;
      } else if results(b.submissions).Pressed? {
        n := 1;
        assert Pump(b, results) == c;
      } else {
        var m := PumpExactly(c, results);
        n := m + 1;
        var end := Pump(c, results);
        if end.closed {
          CutOne(b, c, end, results, m);
        } else {
          PumpedOne(b, c, end, results, m);
        }
      }
    }
  }

  lemma TakesOne(results: nat -> Outcome, first: nat, m: nat)
    requires results(first).Sent? && TakesAll(results, first + 1, m)
    ensures TakesAll(results, first, m + 1)
  {
  }

  lemma FirstOf(b: Box, m: nat)
    requires b.pending != [] && m < |b.pending|
    ensures b.taken + b.pending[..m + 1] == (b.taken + [b.pending[0]]) + b.pending[1..][..m]
    ensures b.pending[m + 1..] == b.pending[1..][m..]
  {
    assert b.pending[..m + 1] == [b.pending[0]] + b.pending[1..][..m];
  }

  lemma PumpedOne(b: Box, d: Box, c: Box, results: nat -> Outcome, m: nat)
    requires !b.blocked && b.pending != [] && results(b.submissions).Sent? && d == SubmitFirst(b, results) && Pumped(d, c, results, m)
    ensures Pumped(b, c, results, m + 1)
  {
    TakesOne(results, b.submissions, m);
    FirstOf(b, m);
  }

  lemma CutOne(b: Box, d: Box, c: Box, results: nat -> Outcome, m: nat)
    requires b.pending != [] && results(b.submissions).Sent? && d == SubmitFirst(b, results) && Cut(d, c, results, m)
    ensures Cut(b, c, results, m + 1)
  {
    FirstOf(b, m);
  }

  /** A free socket takes a frame at once and what it says decides: blocked exactly if it pressed, closed exactly if it lost the frame. */
  lemma SendsAtOnce(b: Box, f: Frame, limit: int, results: nat -> Outcome)
    requires Inv(b, limit) && !b.closed && !b.blocked && f.size <= limit - b.bytes
    ensures
      var c := Send(b, f, limit, results);
      && c.submissions == b.submissions + 1 && (c.closed <==> results(b.submissions).Lost?)
      && (!c.closed ==> c.taken == b.taken + [f] && c.accepted == b.accepted + [f] && (c.blocked <==> results(b.submissions).Pressed?))
      && (c.closed ==> c.taken == b.taken && c.accepted == b.accepted && c.disconnects == b.disconnects + 1)
  {
  }

  /** Under backpressure nothing is submitted until the next flush; what is accepted waits. */
  lemma {:induction false} WaitsForDrain(b: Box, calls: seq<Call>, limit: int, results: nat -> Outcome)
    requires b.blocked && !b.closed && forall k :: 0 <= k < |calls| ==> !calls[k].FlushCall?
    ensures
      var c := After(b, calls, limit, results);
      && c.submissions == b.submissions && c.taken == b.taken && c.blocked
      && (!c.closed ==> b.pending <= c.pending)
  {
    if calls != [] {
      WaitsForDrain(b, calls[..|calls| - 1], limit, results);
    }
  }

  /** Once the socket drains and takes what it is given, the queue empties and every accepted frame has gone out. */
  lemma DrainEmpties(b: Box, limit: int, results: nat -> Outcome)
    requires Inv(b, limit) && !b.closed && forall k: nat :: b.submissions <= k < b.submissions + |b.pending| ==> results(k).Sent?
    ensures
      var c := After(b, [DrainCall, FlushCall], limit, results);
      !c.closed && !c.blocked && c.pending == [] && c.bytes == 0 && c.taken == c.accepted == b.accepted
  {
    var calls, first: seq<Call> := [DrainCall, FlushCall], [DrainCall];
    assert calls[..1] == first && first[..0] == [];
    assert After(b, first, limit, results) == Drain(b);
    var d := b.(timer := false, blocked := false);
    assert After(b, calls, limit, results) == Flush(Drain(b), results) == Pump(d, results);
    var n := PumpExactly(d, results);
    PumpInv(d, limit, results);
    var c := Pump(d, results);
    if !c.closed && n > 0 {
      assert results(b.submissions + n - 1).Sent?;
    }
    assert b.pending[..|b.pending|] == b.pending;
  }

  // ---------- the queue as it is kept ----------

  function Frames(queue: seq<Option<Frame>>): seq<Frame>
    requires forall i :: 0 <= i < |queue| ==> queue[i].Some?
  {
    seq(|queue|, i requires 0 <= i < |queue| => queue[i].value)
  }

  /** Frames leave from the head, which is only now and then cut off. */
  class SocketOutbox {
    const results: nat -> Outcome
    const limit: int

    var queue: seq<Option<Frame>>
    var head: nat
    var bytes: int
    var blocked: bool
    var closed: bool
    var resumeTimer: bool
    var submissions: nat
    var disconnects: nat
    ghost var accepted: seq<Frame>
    ghost var taken: seq<Frame>

    ghost predicate Valid()
      reads this
    {
      head <= |queue| && forall i :: head <= i < |queue| ==> queue[i].Some?
    }

    ghost function View(): Box
      requires Valid()
      reads this
    {
      Box(Frames(queue[head..]), bytes, blocked, closed, resumeTimer, accepted, taken, submissions, disconnects)
    }

    constructor (results: nat -> Outcome, limit: int)
      ensures Valid() && View() == Empty() && this.results == results && this.limit == limit
    {
      this.results, this.limit := results, limit;
      queue, head, bytes, blocked, closed, resumeTimer := [], 0, 0, false, false, false;
      submissions, disconnects, accepted, taken := 0, 0, [], [];
    }

    method CloseBox()
      requires Valid()
      modifies this
      ensures Valid() && View() == Close(old(View()))
    {
      closed := true;
      resumeTimer := false;
      queue, head, bytes := [], 0, 0;
    }

    method FailBox() returns (ok: bool)
      requires Valid()
      modifies this
      ensures Valid() && View() == Fail(old(View())) && !ok
    {
      CloseBox();
      disconnects := disconnects + 1;
      ok := false;
    }

    method SubmitFrame(f: Frame) returns (ok: bool)
      requires Valid()
      modifies this
      ensures Valid() && View() == Submit(old(View()), f, results) && (ok <==> !results(old(submissions)).Lost?)
      ensures ok ==> queue == old(queue) && head == old(head) && closed == old(closed)
    {
      var result := results(submissions);
      submissions := submissions + 1;
      if result.Lost? {
        ok := FailBox();
        return;
      }
      taken := taken + [f];
      blocked := result.Pressed?;
      ok := true;
    }

    method SendFrame(f: Frame) returns (ok: bool)
      requires Valid()
      modifies this
      ensures Valid() && View() == Send(old(View()), f, limit, results)
      ensures ok <==> View().accepted == old(View()).accepted + [f]
    {
      if closed {
        return false;
      }
      if f.size > limit - bytes {
        ok := FailBox();
        return;
      }
      assert |Frames(queue[head..])| == |queue| - head;
      if !blocked && head == |queue| {
        ok := SubmitFrame(f);
        if ok {
          accepted := accepted + [f];
        }
        return;
      }
      ghost var before := queue;
      queue := queue + [Some(f)];
      bytes := bytes + f.size;
      accepted := accepted + [f];
      assert queue[head..] == before[head..] + [Some(f)];
      assert Frames(queue[head..]) == Frames(before[head..]) + [f];
      return true;
    }

    method DrainBox()
      requires Valid()
      modifies this
      ensures Valid() && View() == Drain(old(View()))
    {
      if closed || resumeTimer {
        return;
      }
      resumeTimer := true;
    }

    /** The first frame leaves the queue; its place stays until the next compaction. */
    method SubmitHead() returns (ok: bool)
      requires Valid() && head < |queue|
      modifies this
      ensures Valid() && View() == SubmitFirst(old(View()), results)
      ensures ok ==> head == old(head) + 1 && |queue| == |old(queue)| && closed == old(closed)
      ensures !ok ==> closed && head == |queue|
    {
      var frame := queue[head].value;
      ghost var before := queue[head..];
      queue := queue[head := None];
      head := head + 1;
      bytes := bytes - frame.size;
      assert queue[head..] == before[1..];
      assert Frames(queue[head..]) == Frames(before)[1..];
      ok := SubmitFrame(frame);
    }

    method PumpBox() returns (ok: bool)
      requires Valid() && !closed
      modifies this
      ensures Valid() && View() == Pump(old(View()), results)
      ensures ok <==> !closed
    {
      ghost var start := View();
      while !blocked && head < |queue|
        invariant Valid() && !closed && Pump(View(), results) == Pump(start, results)
        decreases |queue| - head
      {
        var sent := SubmitHead();
        if !sent {
          return false;
        }
      }
      assert |Frames(queue[head..])| == |queue| - head;
      return true;
    }

    /** The timer fires: frames go out, and a long dead head is cut off. */
    method FlushBox()
      requires Valid() && resumeTimer
      modifies this
      ensures Valid() && View() == Flush(old(View()), results)
    {
      resumeTimer := false;
      if closed {
        return;
      }
      blocked := false;
      var ok := PumpBox();
      if !ok {
        return;
      }
      if head == |queue| {
        queue, head := [], 0;
      } else if head > COMPACT_AFTER && head * 2 > |queue| {
        queue, head := queue[head..], 0;
        assert queue[0..] == queue;
      }
    }
  }
}
