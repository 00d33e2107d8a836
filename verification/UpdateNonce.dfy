/**
 The update-lease handler: signed requests, replayed at will, interleaved at the handler's awaits.

 A request waits twice: for its signature to be checked and for control's signing key. Nonces seen are
 remembered for 60 s counted from the receipt of the request that used them.
 */
module UpdateNonce {

  const WINDOW_MS := 30_000
  const MEMORY_MS := 60_000
  const MAX_SEEN := 10_000

  datatype Key = Key(node: nat, nonce: nat)

  /** A signed request: who, its nonce, its stamp, and what it asks. */
  datatype Message = Message(key: Key, time: int, acquire: bool)

  /** A request between two awaits; `received` is the clock when its body had been read. */
  datatype Pending = Verifying(message: Message, received: int) | KeyLoading(message: Message, received: int)

  datatype Effect = Effect(message: Message, received: int)

  datatype Handler = Handler(seen: map<Key, int>, clock: int, pending: map<nat, Pending>, effects: seq<Effect>)

  datatype Event =
    | Tick(now: int)
    | Receive(call: nat, message: Message)
    | Verified(call: nat, genuine: bool)
    | KeyLoaded(call: nat)
    | Abandon(call: nat)

  predicate InWindow(time: int, now: int) {
    -WINDOW_MS <= time - now <= WINDOW_MS
  }

  /** Nonces whose memory has run out by `now` are forgotten. */
  function Evicted(seen: map<Key, int>, now: int): map<Key, int> {
    map k | k in seen && seen[k] > now :: seen[k]
  }

  /** Past the signature check: forget old nonces, refuse a known one or a full memory. */
  function AfterVerify(s: Handler, call: nat, genuine: bool): Handler
    requires call in s.pending && s.pending[call].Verifying?
  {
    var p := s.pending[call];
    var waiting := s.pending - {call};
    if !genuine then s.(pending := waiting)
    else
      var seen := Evicted(s.seen, p.received);
      if p.message.key in seen || |seen| >= MAX_SEEN then s.(seen := seen, pending := waiting)
      else s.(seen := seen, pending := s.pending[call := KeyLoading(p.message, p.received)])
  }

  /** Past the key: a second look at nonce and stamp, then the request takes effect. */
  function AfterKey(s: Handler, call: nat): Handler
    requires call in s.pending && s.pending[call].KeyLoading?
  {
    var p := s.pending[call];
    var waiting := s.pending - {call};
    if p.message.key in s.seen || !InWindow(p.message.time, s.clock) then s.(pending := waiting)
    else
      s.(seen := s.seen[p.message.key := p.received + MEMORY_MS], pending := waiting,
         effects := s.effects + [Effect(p.message, p.received)])
  }

  function Next(s: Handler, e: Event): Handler {
    match e
    case Tick(now) => if now >= s.clock then s.(clock := now) else s
    case Receive(call, m) =>
      if call in s.pending || !InWindow(m.time, s.clock) then s
      else s.(pending := s.pending[call := Verifying(m, s.clock)])
    case Verified(call, genuine) =>
      if call in s.pending && s.pending[call].Verifying? then AfterVerify(s, call, genuine) else s
    case KeyLoaded(call) =>
      if call in s.pending && s.pending[call].KeyLoading? then AfterKey(s, call) else s
    case Abandon(call) => s.(pending := s.pending - {call})
  }

  function After(s: Handler, es: seq<Event>): Handler {
    if es == [] then s else Next(After(s, es[..|es| - 1]), es[|es| - 1])
  }

  // ---------- the memory outlives the window ----------

  /** A used nonce is remembered, or its memory has run out by the clock. */
  predicate Remembered(s: Handler, f: Effect) {
    || (f.message.key in s.seen && s.seen[f.message.key] >= f.received + MEMORY_MS)
    || s.clock >= f.received + MEMORY_MS
  }

  /** Two effects of one message mean the first was stamped a full window ahead of its receipt. */
  predicate Apart(a: Effect, b: Effect) {
    a.message == b.message ==> a.message.time >= a.received + WINDOW_MS
  }

  ghost predicate Inv(s: Handler) {
    && (forall c :: c in s.pending ==> s.pending[c].received <= s.clock && InWindow(s.pending[c].message.time, s.pending[c].received))
    && (forall i :: 0 <= i < |s.effects| ==> Remembered(s, s.effects[i]))
    && (forall i :: 0 <= i < |s.effects| ==> InWindow(s.effects[i].message.time, s.effects[i].received))
    && (forall i, j :: 0 <= i < j < |s.effects| ==> Apart(s.effects[i], s.effects[j]))
  }

  lemma AfterVerifyInv(s: Handler, call: nat, genuine: bool)
    requires Inv(s) && call in s.pending && s.pending[call].Verifying?
    ensures Inv(AfterVerify(s, call, genuine))
  {
    var t := AfterVerify(s, call, genuine);
    forall i | 0 <= i < |t.effects| ensures Remembered(t, t.effects[i]) {
      assert Remembered(s, s.effects[i]);
    }
  }

  lemma AfterKeyInv(s: Handler, call: nat)
    requires Inv(s) && call in s.pending && s.pending[call].KeyLoading?
    ensures Inv(AfterKey(s, call))
  {
    var t := AfterKey(s, call);
    forall i | 0 <= i < |t.effects| ensures Remembered(t, t.effects[i]) {
      if i < |s.effects| {
        assert Remembered(s, s.effects[i]);
      }
    }
    forall i, j | 0 <= i < j < |t.effects| ensures Apart(t.effects[i], t.effects[j]) {
      if j < |s.effects| {
        assert Apart(s.effects[i], s.effects[j]);
      } else {
        assert Remembered(s, s.effects[i]);
      }
    }
  }

  lemma NextInv(s: Handler, e: Event)
    requires Inv(s)
    ensures Inv(Next(s, e))
  {
    match e
    case Verified(call, genuine) =>
      if call in s.pending && s.pending[call].Verifying? {
        AfterVerifyInv(s, call, genuine);
      }
    case KeyLoaded(call) =>
      if call in s.pending && s.pending[call].KeyLoading? {
        AfterKeyInv(s, call);
      }
    case _ =>
      forall i | 0 <= i < |s.effects| ensures Remembered(Next(s, e), s.effects[i]) {
        assert Remembered(s, s.effects[i]);
      }
  }

  lemma {:induction false} AlwaysInv(s: Handler, es: seq<Event>)
    requires Inv(s)
    ensures Inv(After(s, es))
  {
    if es != [] {
      AlwaysInv(s, es[..|es| - 1]);
      NextInv(After(s, es[..|es| - 1]), es[|es| - 1]);
    }
  }

  /** In any interleaving a request takes effect once, unless it was stamped exactly 30 s ahead of its receipt. */
  lemma AtMostOnce(s: Handler, es: seq<Event>, i: nat, j: nat)
    requires s.effects == [] && s.pending == map[]
    requires i < j < |After(s, es).effects| && After(s, es).effects[i].message == After(s, es).effects[j].message
    ensures After(s, es).effects[i].message.time == After(s, es).effects[i].received + WINDOW_MS
  {
    AlwaysInv(s, es);
    var t := After(s, es);
    assert Apart(t.effects[i], t.effects[j]) && InWindow(t.effects[i].message.time, t.effects[i].received);
  }

  // ---------- where an effect comes from ----------

  predicate IsVerifying(s: Handler, call: nat, f: Effect) {
    call in s.pending && s.pending[call] == Verifying(f.message, f.received)
  }

  predicate IsLoading(s: Handler, call: nat, f: Effect) {
    call in s.pending && s.pending[call] == KeyLoading(f.message, f.received)
  }

  /** Event j of the run received the request, in its window. */
  predicate ReceivedAt(s: Handler, es: seq<Event>, j: int, call: nat, f: Effect) {
    && 0 <= j < |es| && es[j] == Receive(call, f.message)
    && After(s, es[..j]).clock == f.received && InWindow(f.message.time, f.received)
  }

  /** Event k found the request's signature genuine. */
  predicate VerifiedAt(s: Handler, es: seq<Event>, k: int, call: nat, f: Effect) {
    0 <= k < |es| && es[k] == Verified(call, true) && IsVerifying(After(s, es[..k]), call, f)
  }

  /** Event l found the key loaded, the nonce still unknown and the stamp still in the window. */
  predicate TakenAt(s: Handler, es: seq<Event>, l: int, call: nat, f: Effect, i: int) {
    && 0 <= l < |es| && es[l] == KeyLoaded(call)
    && var t := After(s, es[..l]);
       IsLoading(t, call, f) && |t.effects| == i && f.message.key !in t.seen && InWindow(f.message.time, t.clock)
  }

  ghost predicate Received(s: Handler, es: seq<Event>, call: nat, f: Effect) {
    exists j :: ReceivedAt(s, es, j, call, f)
  }

  ghost predicate Genuine(s: Handler, es: seq<Event>, call: nat, f: Effect) {
    exists j, k :: j < k && ReceivedAt(s, es, j, call, f) && VerifiedAt(s, es, k, call, f)
  }

  ghost predicate Earned(s: Handler, es: seq<Event>, f: Effect, i: int) {
    exists call: nat, j, k, l :: j < k < l && ReceivedAt(s, es, j, call, f) && VerifiedAt(s, es, k, call, f) && TakenAt(s, es, l, call, f, i)
  }

  /** What is pending or in effect has its events behind it. */
  ghost predicate Accounted(s: Handler, es: seq<Event>) {
    var t := After(s, es);
    && (forall call, f :: IsVerifying(t, call, f) ==> Received(s, es, call, f))
    && (forall call, f :: IsLoading(t, call, f) ==> Genuine(s, es, call, f))
    && (forall i :: 0 <= i < |t.effects| ==> Earned(s, es, t.effects[i], i))
  }

  lemma StillReceived(s: Handler, es: seq<Event>, e: Event, j: int, call: nat, f: Effect)
    requires ReceivedAt(s, es, j, call, f)
    ensures ReceivedAt(s, es + [e], j, call, f)
  {
    assert (es + [e])[..j] == es[..j];
  }

  lemma StillVerified(s: Handler, es: seq<Event>, e: Event, k: int, call: nat, f: Effect)
    requires VerifiedAt(s, es, k, call, f)
    ensures VerifiedAt(s, es + [e], k, call, f)
  {
    assert (es + [e])[..k] == es[..k];
  }

  lemma StillGenuine(s: Handler, es: seq<Event>, e: Event, call: nat, f: Effect)
    requires Genuine(s, es, call, f)
    ensures Genuine(s, es + [e], call, f)
  {
    var j, k :| j < k && ReceivedAt(s, es, j, call, f) && VerifiedAt(s, es, k, call, f);
    StillReceived(s, es, e, j, call, f);
    StillVerified(s, es, e, k, call, f);
  }

  lemma StillEarned(s: Handler, es: seq<Event>, e: Event, f: Effect, i: int)
    requires Earned(s, es, f, i)
    ensures Earned(s, es + [e], f, i)
  {
    var call: nat, j, k, l :| j < k < l && ReceivedAt(s, es, j, call, f) && VerifiedAt(s, es, k, call, f) && TakenAt(s, es, l, call, f, i);
    StillReceived(s, es, e, j, call, f);
    StillVerified(s, es, e, k, call, f);
    assert (es + [e])[..l] == es[..l];
    assert TakenAt(s, es + [e], l, call, f, i);
  }

  lemma VerifyingNext(s: Handler, es: seq<Event>, e: Event, call: nat, f: Effect)
    requires Accounted(s, es) && IsVerifying(Next(After(s, es), e), call, f)
    ensures Received(s, es + [e], call, f)
  {
    assert (es + [e])[..|es|] == es;
    if IsVerifying(After(s, es), call, f) {
      var j :| ReceivedAt(s, es, j, call, f);
      StillReceived(s, es, e, j, call, f);
    } else {
      assert ReceivedAt(s, es + [e], |es|, call, f);
    }
  }

  lemma LoadingNext(s: Handler, es: seq<Event>, e: Event, call: nat, f: Effect)
    requires Accounted(s, es) && IsLoading(Next(After(s, es), e), call, f)
    ensures Genuine(s, es + [e], call, f)
  {
    assert (es + [e])[..|es|] == es;
    if IsLoading(After(s, es), call, f) {
      StillGenuine(s, es, e, call, f);
    } else {
      assert e == Verified(call, true) && IsVerifying(After(s, es), call, f);
      var j :| ReceivedAt(s, es, j, call, f);
      StillReceived(s, es, e, j, call, f);
      assert VerifiedAt(s, es + [e], |es|, call, f);
    }
  }

  /** An event adds at most one effect, that of a call whose key has just been loaded. */
  lemma EffectNext(t: Handler, e: Event)
    ensures
      var u := Next(t, e);
      || u.effects == t.effects
      || (e.KeyLoaded? && e.call in t.pending && t.pending[e.call].KeyLoading?
          && var p := t.pending[e.call];
             && u.effects == t.effects + [Effect(p.message, p.received)]
             && p.message.key !in t.seen && InWindow(p.message.time, t.clock))
  {
  }

  lemma EarnedNext(s: Handler, es: seq<Event>, e: Event, i: int)
    requires Accounted(s, es) && 0 <= i < |Next(After(s, es), e).effects|
    ensures Earned(s, es + [e], Next(After(s, es), e).effects[i], i)
  {
    var t := After(s, es);
    var f := Next(t, e).effects[i];
    EffectNext(t, e);
    if i < |t.effects| {
      StillEarned(s, es, e, f, i);
    } else {
      assert (es + [e])[..|es|] == es;
      assert IsLoading(t, e.call, f);
      StillGenuine(s, es, e, e.call, f);
      assert TakenAt(s, es + [e], |es|, e.call, f, i);
      FullyEarned(s, es + [e], e.call, f, i);
    }
  }

  lemma FullyEarned(s: Handler, es: seq<Event>, call: nat, f: Effect, i: int)
    requires Genuine(s, es, call, f) && es != [] && TakenAt(s, es, |es| - 1, call, f, i)
    ensures Earned(s, es, f, i)
  {
    var j, k :| j < k && ReceivedAt(s, es, j, call, f) && VerifiedAt(s, es, k, call, f);
    assert k != |es| - 1;
  }

  lemma AccountedNext(s: Handler, es: seq<Event>, e: Event)
    requires Accounted(s, es)
    ensures Accounted(s, es + [e])
  {
    Snoc(s, es, e);
    var t := After(s, es + [e]);
    forall call, f | IsVerifying(t, call, f) ensures Received(s, es + [e], call, f) {
      VerifyingNext(s, es, e, call, f);
    }
    forall call, f | IsLoading(t, call, f) ensures Genuine(s, es + [e], call, f) {
      LoadingNext(s, es, e, call, f);
    }
    forall i | 0 <= i < |t.effects| ensures Earned(s, es + [e], t.effects[i], i) {
      EarnedNext(s, es, e, i);
    }
  }

  /** In every run each effect was received in its window, found genuine, and then found fresh, by one call and in this order. */
  lemma {:induction false} EffectsAreGenuine(s: Handler, es: seq<Event>)
    requires s.effects == [] && s.pending == map[]
    ensures Accounted(s, es)
  {
    if es != [] {
      EffectsAreGenuine(s, es[..|es| - 1]);
      AccountedNext(s, es[..|es| - 1], es[|es| - 1]);
      assert es[..|es| - 1] + [es[|es| - 1]] == es;
    }
  }

  /** A forged request is dropped and leaves no trace. */
  lemma ForgedIsDropped(s: Handler, call: nat)
    requires call in s.pending && s.pending[call].Verifying?
    ensures
      var t := Next(s, Verified(call, false));
      t.seen == s.seen && t.clock == s.clock && t.effects == s.effects && t.pending == s.pending - {call}
  {
  }

  // ---------- the bound is exact ----------

  lemma Snoc(s: Handler, es: seq<Event>, e: Event)
    ensures After(s, es + [e]) == Next(After(s, es), e)
  {
    assert (es + [e])[..|es|] == es;
  }

  /** A message received now by an idle handler with room takes effect. */
  lemma Deliver(s: Handler, m: Message)
    requires s.pending == map[] && InWindow(m.time, s.clock) && m.key !in Evicted(s.seen, s.clock) && |Evicted(s.seen, s.clock)| < MAX_SEEN
    ensures After(s, Delivery(m)) == Handler(Evicted(s.seen, s.clock)[m.key := s.clock + MEMORY_MS], s.clock, map[], s.effects + [Effect(m, s.clock)])
  {
    ThreeSteps(s, Receive(0, m), Verified(0, true), KeyLoaded(0));
    Passes(s, m);
  }

  lemma ThreeSteps(s: Handler, a: Event, b: Event, c: Event)
    ensures After(s, [a, b, c]) == Next(Next(Next(s, a), b), c)
  {
    var none: seq<Event> := [];
    Snoc(s, none, a);
    Snoc(s, none + [a], b);
    Snoc(s, none + [a] + [b], c);
    assert none + [a] + [b] + [c] == [a, b, c];
  }

  /** The only message a handler is at work on passes both checks. */
  lemma Passes(s: Handler, m: Message)
    requires s.pending == map[] && InWindow(m.time, s.clock) && m.key !in Evicted(s.seen, s.clock) && |Evicted(s.seen, s.clock)| < MAX_SEEN
    ensures Next(Next(Next(s, Receive(0, m)), Verified(0, true)), KeyLoaded(0))
            == Handler(Evicted(s.seen, s.clock)[m.key := s.clock + MEMORY_MS], s.clock, map[], s.effects + [Effect(m, s.clock)])
  {
    var verifying := Handler(s.seen, s.clock, map[0 := Verifying(m, s.clock)], s.effects);
    assert Next(s, Receive(0, m)) == verifying;
    PassesCheck(verifying, m);
    PassesKey(Handler(Evicted(s.seen, s.clock), s.clock, map[0 := KeyLoading(m, s.clock)], s.effects), m);
  }

  lemma PassesCheck(s: Handler, m: Message)
    requires s.pending == map[0 := Verifying(m, s.clock)] && m.key !in Evicted(s.seen, s.clock) && |Evicted(s.seen, s.clock)| < MAX_SEEN
    ensures Next(s, Verified(0, true)) == Handler(Evicted(s.seen, s.clock), s.clock, map[0 := KeyLoading(m, s.clock)], s.effects)
  {
    assert s.pending[0 := KeyLoading(m, s.clock)] == map[0 := KeyLoading(m, s.clock)];
  }

  lemma PassesKey(s: Handler, m: Message)
    requires s.pending == map[0 := KeyLoading(m, s.clock)] && InWindow(m.time, s.clock) && m.key !in s.seen
    ensures Next(s, KeyLoaded(0)) == Handler(s.seen[m.key := s.clock + MEMORY_MS], s.clock, map[], s.effects + [Effect(m, s.clock)])
  {
    assert s.pending - {0} == map[];
  }

  lemma {:induction false} Join(s: Handler, a: seq<Event>, b: seq<Event>)
    ensures After(s, a + b) == After(After(s, a), b)
    decreases |b|
  {
    if b == [] {
      assert a + b == a;
    } else {
      Join(s, a, b[..|b| - 1]);
      assert (a + b)[..|a + b| - 1] == a + b[..|b| - 1];
    }
  }

  /** A message is never in effect twice after this one delivery of it, in no continuation. */
  ghost predicate Once(s: Handler, m: Message) {
    forall es, i, j :: TwiceAt(After(s, es), m, i, j) ==> i == j
  }

  predicate TwiceAt(s: Handler, m: Message, i: int, j: int) {
    0 <= i < |s.effects| && 0 <= j < |s.effects| && s.effects[i].message == m && s.effects[j].message == m
  }

  function Idle(now: int): Handler {
    Handler(map[], now, map[], [])
  }

  /** The events of a delivery to a handler that has nothing to do. */
  function Delivery(m: Message): seq<Event> {
    [Receive(0, m), Verified(0, true), KeyLoaded(0)]
  }

  function Delivered(now: int, m: Message): Handler {
    Handler(map[m.key := now + MEMORY_MS], now, map[], [Effect(m, now)])
  }

  lemma FirstDelivery(now: int, m: Message)
    requires InWindow(m.time, now)
    ensures After(Idle(now), Delivery(m)) == Delivered(now, m)
  {
    assert Evicted(map[], now) == map[];
    Deliver(Idle(now), m);
  }

  /** A fresh message delivered to an idle handler is in effect at most once ever after exactly when its stamp is less than 30 s ahead. */
  lemma OnceExactly(now: int, m: Message)
    requires InWindow(m.time, now)
    ensures Once(After(Idle(now), Delivery(m)), m) <==> m.time < now + WINDOW_MS
  {
    FirstDelivery(now, m);
    var s := Delivered(now, m);
    assert Inv(s);
    if m.time < now + WINDOW_MS {
      forall es, i, j | TwiceAt(After(s, es), m, i, j) ensures i == j {
        AlwaysInv(s, es);
        FirstStays(s, es);
        if i < j {
          NotTwice(After(s, es), m, now, j);
        } else if j < i {
          NotTwice(After(s, es), m, now, i);
        }
      }
    } else {
      Replay(now, m);
    }
  }

  lemma {:induction false} FirstStays(s: Handler, es: seq<Event>)
    requires s.effects != []
    ensures After(s, es).effects != [] && After(s, es).effects[0] == s.effects[0]
  {
    if es != [] {
      FirstStays(s, es[..|es| - 1]);
    }
  }

  lemma NotTwice(t: Handler, m: Message, now: int, j: nat)
    requires Inv(t) && 0 < j < |t.effects| && t.effects[0] == Effect(m, now) && t.effects[j].message == m
    ensures m.time >= now + WINDOW_MS
  {
    assert Apart(t.effects[0], t.effects[j]);
  }

  /** Stamped exactly 30 s ahead, the same message takes effect again a minute later. */
  lemma Replay(now: int, m: Message)
    requires m.time == now + WINDOW_MS
    ensures !Once(After(Idle(now), Delivery(m)), m)
  {
    FirstDelivery(now, m);
    var s := Delivered(now, m);
    var tick: seq<Event> := [Tick(now + MEMORY_MS)];
    assert tick[..0] == [];
    var later := s.(clock := now + MEMORY_MS);
    assert After(s, tick) == later;
    assert Evicted(later.seen, later.clock) == map[];
    Deliver(later, m);
    Join(s, tick, Delivery(m));
    assert TwiceAt(After(s, tick + Delivery(m)), m, 0, 1);
  }

  // ---------- the handler's closure ----------

  /** `pending` are the locals of the calls between two awaits. */
  class LeaseHandler {
    var seen: map<Key, int>
    var pending: map<nat, Pending>
    var clock: int
    ghost var effects: seq<Effect>

    ghost function View(): Handler
      reads this
    {
      Handler(seen, clock, pending, effects)
    }

    constructor (now: int)
      ensures View() == Idle(now)
    {
      seen, pending, clock, effects := map[], map[], now, [];
    }

    /** The body has been read. */
    method Accept(call: nat, message: Message) returns (ok: bool)
      requires call !in pending
      modifies this`pending
      ensures View() == Next(old(View()), Receive(call, message))
      ensures ok <==> InWindow(message.time, clock)
    {
      if !InWindow(message.time, clock) {
        return false;
      }
      pending := pending[call := Verifying(message, clock)];
      return true;
    }

    /** The eviction loop. */
    method Evict(now: int)
      modifies this`seen
      ensures seen == Evicted(old(seen), now)
    {
      var left := seen.Keys;
      while left != {}
        invariant left <= old(seen).Keys
        invariant seen == map k | k in old(seen) && (k in left || old(seen)[k] > now) :: old(seen)[k]
        decreases |left|
      {
        var nonce :| nonce in left;
        left := left - {nonce};
        if seen[nonce] <= now {
          seen := seen - {nonce};
        }
      }
    }

    /** From the checked signature to the wait for the key; false is a refusal. */
    method Check(call: nat, genuine: bool) returns (goOn: bool)
      requires call in pending && pending[call].Verifying?
      modifies this`seen, this`pending
      ensures View() == Next(old(View()), Verified(call, genuine))
      ensures seen == if genuine then Evicted(old(seen), old(pending)[call].received) else old(seen)
      ensures goOn <==> genuine && old(pending)[call].message.key !in seen && |seen| < MAX_SEEN
      ensures !goOn ==> pending == old(pending) - {call}
    {
      var p := pending[call];
      pending := pending - {call};
      if !genuine {
        return false;
      }
      Evict(p.received);
      if p.message.key in seen {
        return false;
      }
      if |seen| >= MAX_SEEN {
        return false;
      }
      pending := pending[call := KeyLoading(p.message, p.received)];
      assert pending == old(pending)[call := KeyLoading(p.message, p.received)];
      return true;
    }

    /** From the key on; true means the request takes effect. */
    method Take(call: nat) returns (effect: bool)
      requires call in pending && pending[call].KeyLoading?
      modifies this`seen, this`pending, this`effects
      ensures View() == Next(old(View()), KeyLoaded(call))
      ensures effect <==> old(pending)[call].message.key !in old(seen) && InWindow(old(pending)[call].message.time, clock)
      ensures effect ==> seen == old(seen)[old(pending)[call].message.key := old(pending)[call].received + MEMORY_MS]
      ensures !effect ==> seen == old(seen) && effects == old(effects)
    {
      var p := pending[call];
      pending := pending - {call};
      if p.message.key in seen || !InWindow(p.message.time, clock) {
        return false;
      }
      seen := seen[p.message.key := p.received + MEMORY_MS];
      effects := effects + [Effect(p.message, p.received)];
      return true;
    }
  }
}
