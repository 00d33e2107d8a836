/**
 The model a native worker runs: a stack of layers, each one a Mealy machine over its own cache.

 A worker that holds layers [lo, lo + |caches|) pushes every token of a batch through its layers, in
 order, with a micro-batch of one. The reference is the whole model without any cache: to choose the
 next token it replays the complete context from fresh caches. The lemmas say that cutting the stack
 into contiguous stages, cutting the context into batches and keeping caches between batches all leave
 the chosen tokens unchanged.
 */
module LayerModel {

  /** What the last layer's activation is read as: a greedy token, whether it ends the generation, its bytes. */
  datatype Pick = Pick(token: nat, eog: bool, piece: seq<bv8>)

  datatype Net<!C, !A> = Net(
    embed: nat -> A,
    layer: (nat, C, nat, A) -> (C, A),
    blank: nat -> C,
    head: A -> Pick)

  const LAYERS: nat := 24

  function FreshCaches<C, A>(net: Net<C, A>, lo: nat, n: nat): (caches: seq<C>)
    ensures |caches| == n
  {
    seq(n, i requires 0 <= i < n => net.blank(lo + i))
  }

  function Embed<C, A>(net: Net<C, A>, tokens: seq<nat>): (xs: seq<A>)
    ensures |xs| == |tokens|
  {
    if tokens == [] then [] else [net.embed(tokens[0])] + Embed(net, tokens[1..])
  }

  /** One token through the layers lo, lo + 1, ..., lo + |caches| - 1. */
  function RunToken<C, A>(net: Net<C, A>, lo: nat, caches: seq<C>, pos: nat, x: A): (r: (seq<C>, A))
    ensures |r.0| == |caches|
    decreases |caches|
  {
    if caches == [] then ([], x)
    else
      var (c, y) := net.layer(lo, caches[0], pos, x);
      var (rest, z) := RunToken(net, lo + 1, caches[1..], pos, y);
      ([c] + rest, z)
  }

  /** A batch, token by token, starting at position pos. */
  function RunBatch<C, A>(net: Net<C, A>, lo: nat, caches: seq<C>, pos: nat, xs: seq<A>): (r: (seq<C>, seq<A>))
    ensures |r.0| == |caches| && |r.1| == |xs|
    decreases |xs|
  {
    if xs == [] then (caches, [])
    else
      var (c, y) := RunToken(net, lo, caches, pos, xs[0]);
      var (c', ys) := RunBatch(net, lo, c, pos + 1, xs[1..]);
      (c', [y] + ys)
  }

  /** The whole model, no cache kept: replay the context and read the last activation. */
  function NextPick<C, A>(net: Net<C, A>, context: seq<nat>): Pick
    requires context != []
  {
    var ys := RunBatch(net, 0, FreshCaches(net, 0, LAYERS), 0, Embed(net, context)).1;
    net.head(ys[|ys| - 1])
  }

  datatype Finish = Stop | Length

  datatype Completion = Completion(tokens: seq<nat>, bytes: seq<bv8>, finish: Finish)

  /** Greedy continuation of a context: the reference every executor run is compared with. */
  function Continuation<C, A>(net: Net<C, A>, context: seq<nat>, budget: nat): (r: Completion)
    requires context != []
    ensures |r.tokens| <= budget
    decreases budget
  {
    if budget == 0 then Completion([], [], Length)
    else
      var p := NextPick(net, context);
      if p.eog then Completion([], [], Stop)
      else
        var rest := Continuation(net, context + [p.token], budget - 1);
        Completion([p.token] + rest.tokens, p.piece + rest.bytes, rest.finish)
  }

  // ---------- cutting the stack ----------

  /** A stack cut in two runs a token exactly as the uncut stack does. */
  lemma {:induction false} SplitToken<C, A>(net: Net<C, A>, lo: nat, a: seq<C>, b: seq<C>, pos: nat, x: A)
    ensures var (a', y) := RunToken(net, lo, a, pos, x);
            var (b', z) := RunToken(net, lo + |a|, b, pos, y);
            RunToken(net, lo, a + b, pos, x) == (a' + b', z)
    decreases |a|
  {
    if a == [] {
      assert a + b == b;
      var r := RunToken(net, lo, b, pos, x).0;
      assert [] + r == r;
    } else {
      assert (a + b)[1..] == a[1..] + b;
      var (c, y) := net.layer(lo, a[0], pos, x);
      SplitToken(net, lo + 1, a[1..], b, pos, y);
      var (a1, y1) := RunToken(net, lo + 1, a[1..], pos, y);
      var (b1, _) := RunToken(net, lo + |a|, b, pos, y1);
      assert [c] + (a1 + b1) == ([c] + a1) + b1;
    }
  }

  /**
   Stages run layer-major (the first stage finishes the whole batch before the second starts), the whole
   model token-major. The two orders agree because a layer's cache depends only on what entered it.
   */
  lemma {:induction false} SplitBatch<C, A>(net: Net<C, A>, lo: nat, a: seq<C>, b: seq<C>, pos: nat, xs: seq<A>)
    ensures var (a', ys) := RunBatch(net, lo, a, pos, xs);
            var (b', zs) := RunBatch(net, lo + |a|, b, pos, ys);
            RunBatch(net, lo, a + b, pos, xs) == (a' + b', zs)
    decreases |xs|
  {
    if xs != [] {
      SplitToken(net, lo, a, b, pos, xs[0]);
      var (a1, y) := RunToken(net, lo, a, pos, xs[0]);
      var (b1, z) := RunToken(net, lo + |a|, b, pos, y);
      SplitBatch(net, lo, a1, b1, pos + 1, xs[1..]);
      var (_, ys) := RunBatch(net, lo, a1, pos + 1, xs[1..]);
      assert ([y] + ys)[1..] == ys;
    }
  }

  lemma {:induction false} EmptyStack<C, A>(net: Net<C, A>, lo: nat, pos: nat, xs: seq<A>)
    ensures RunBatch(net, lo, [], pos, xs) == ([], xs)
    decreases |xs|
  {
    if xs != [] {
      EmptyStack(net, lo, pos + 1, xs[1..]);
      assert [xs[0]] + xs[1..] == xs;
    }
  }

  /**
   A stage that holds layers [a, b) of a stack S, fed with what the layers below it produced, ends with
   its slice of the whole stack's caches and hands on what the layers [0, b) produce.
   */
  lemma StageStep<C, A>(net: Net<C, A>, S: seq<C>, a: nat, b: nat, pos: nat, xs: seq<A>)
    requires a <= b <= |S|
    ensures RunBatch(net, a, S[a..b], pos, RunBatch(net, 0, S[..a], pos, xs).1)
         == (RunBatch(net, 0, S, pos, xs).0[a..b], RunBatch(net, 0, S[..b], pos, xs).1)
  {
    assert S[..a] + S[a..b] == S[..b] && S[..b] + S[b..] == S;
    SplitBatch(net, 0, S[..a], S[a..b], pos, xs);
    SplitBatch(net, 0, S[..b], S[b..], pos, xs);
  }

  // ---------- cutting the context ----------

  lemma {:induction false} ConcatBatch<C, A>(net: Net<C, A>, lo: nat, caches: seq<C>, pos: nat, xs: seq<A>, ys: seq<A>)
    ensures var (c, us) := RunBatch(net, lo, caches, pos, xs);
            var (c', vs) := RunBatch(net, lo, c, pos + |xs|, ys);
            RunBatch(net, lo, caches, pos, xs + ys) == (c', us + vs)
    decreases |xs|
  {
    if xs == [] {
      assert xs + ys == ys;
      var r := RunBatch(net, lo, caches, pos, ys).1;
      assert [] + r == r;
    } else {
      assert (xs + ys)[1..] == xs[1..] + ys;
      var (c, y) := RunToken(net, lo, caches, pos, xs[0]);
      ConcatBatch(net, lo, c, pos + 1, xs[1..], ys);
      var (c1, us) := RunBatch(net, lo, c, pos + 1, xs[1..]);
      var (_, vs) := RunBatch(net, lo, c1, pos + |xs|, ys);
      assert [y] + (us + vs) == ([y] + us) + vs;
    }
  }

  lemma {:induction false} EmbedConcat<C, A>(net: Net<C, A>, s: seq<nat>, t: seq<nat>)
    ensures Embed(net, s + t) == Embed(net, s) + Embed(net, t)
    decreases |s|
  {
    if s == [] {
      assert s + t == t;
    } else {
      EmbedConcat(net, s[1..], t);
      assert (s + t)[1..] == s[1..] + t;
    }
  }

  /** Fresh caches of a slice of the stack are a slice of the fresh stack. */
  lemma FreshSlice<C, A>(net: Net<C, A>, lo: nat, n: nat, a: nat, b: nat)
    requires a <= b <= n
    ensures FreshCaches(net, lo, n)[a..b] == FreshCaches(net, lo + a, b - a)
  {
  }

  // ---------- a session: the caches after a context ----------

  /** The caches of layers [lo, lo + n) once the whole model has consumed a context. */
  function SessionCaches<C, A>(net: Net<C, A>, context: seq<nat>): (r: seq<C>)
    ensures |r| == LAYERS
  {
    RunBatch(net, 0, FreshCaches(net, 0, LAYERS), 0, Embed(net, context)).0
  }

  /** Feeding a further nonempty batch to a session advances the session and yields the next pick. */
  lemma AdvanceSession<C, A>(net: Net<C, A>, context: seq<nat>, batch: seq<nat>)
    requires batch != []
    ensures
      var next := RunBatch(net, 0, SessionCaches(net, context), |context|, Embed(net, batch));
      next.0 == SessionCaches(net, context + batch) && net.head(next.1[|next.1| - 1]) == NextPick(net, context + batch)
  {
    var blank, xs, more := FreshCaches(net, 0, LAYERS), Embed(net, context), Embed(net, batch);
    assert Embed(net, context + batch) == xs + more by {
      EmbedConcat(net, context, batch);
    }
    AdvanceFrom(net, 0, blank, 0, xs, more);
  }

  /** The same of any caches and inputs. */
  lemma AdvanceFrom<C, A>(net: Net<C, A>, lo: nat, caches: seq<C>, pos: nat, xs: seq<A>, more: seq<A>)
    requires more != []
    ensures
      var all := RunBatch(net, lo, caches, pos, xs + more);
      var next := RunBatch(net, lo, RunBatch(net, lo, caches, pos, xs).0, pos + |xs|, more);
      next.0 == all.0 && next.1[|next.1| - 1] == all.1[|all.1| - 1]
  {
    ConcatBatch(net, lo, caches, pos, xs, more);
  }

  function Joined(tokens: seq<nat>, bytes: seq<bv8>, rest: Completion): Completion {
    Completion(tokens + rest.tokens, bytes + rest.bytes, rest.finish)
  }

  /** One greedy step, seen from the start of the generation. */
  lemma ContinuationStep<C, A>(net: Net<C, A>, all: Completion, tokens: seq<nat>, bytes: seq<bv8>, context: seq<nat>, budget: nat)
    requires context != [] && budget > 0 && all == Joined(tokens, bytes, Continuation(net, context, budget))
    ensures var p := NextPick(net, context);
            all == if p.eog then Completion(tokens, bytes, Stop)
                   else Joined(tokens + [p.token], bytes + p.piece, Continuation(net, context + [p.token], budget - 1))
  {
    var p := NextPick(net, context);
    if p.eog {
      assert tokens + [] == tokens && bytes + [] == bytes;
    } else {
      var rest := Continuation(net, context + [p.token], budget - 1);
      assert tokens + ([p.token] + rest.tokens) == (tokens + [p.token]) + rest.tokens;
      assert bytes + (p.piece + rest.bytes) == (bytes + p.piece) + rest.bytes;
    }
  }

  // ---------- the reference run, written out ----------

  /** The reference before its i-th pick: the context, the caches it leaves, the pick, and what was emitted so far. */
  datatype Entry<C> = Entry(context: seq<nat>, caches: seq<C>, pick: Pick, tokens: seq<nat>, bytes: seq<bv8>)

  ghost predicate Meaning<C, A>(net: Net<C, A>, e: Entry<C>) {
    e.context != [] && e.caches == SessionCaches(net, e.context) && e.pick == NextPick(net, e.context)
  }

  /** How entry i of a run leads to entry i + 1, or to the whole completion `all`. */
  ghost predicate Flow<C>(script: seq<Entry<C>>, i: nat, size: nat, budget: nat, all: Completion)
    requires i < |script|
  {
    var e := script[i];
    && |e.context| == size + i && |e.caches| == LAYERS && i < budget
    && if e.pick.eog then all == Completion(e.tokens, e.bytes, Stop)
       else if i + 1 == budget then all == Completion(e.tokens + [e.pick.token], e.bytes + e.pick.piece, Length)
       else
         && i + 1 < |script| && script[i + 1].context == e.context + [e.pick.token]
         && script[i + 1].tokens == e.tokens + [e.pick.token] && script[i + 1].bytes == e.bytes + e.pick.piece
  }

  ghost predicate Script<C, A>(net: Net<C, A>, script: seq<Entry<C>>, prompt: seq<nat>, budget: nat, all: Completion) {
    && |script| > 0 && script[0].context == prompt && script[0].tokens == [] && script[0].bytes == []
    && (forall i :: 0 <= i < |script| ==> Meaning(net, script[i]))
    && (forall i :: 0 <= i < |script| ==> Flow(script, i, |prompt|, budget, all))
  }

  lemma {:induction false} ScriptFrom<C, A>(net: Net<C, A>, budget: nat, all: Completion, context: seq<nat>, tokens: seq<nat>, bytes: seq<bv8>)
    returns (script: seq<Entry<C>>)
    requires context != [] && budget > 0 && all == Joined(tokens, bytes, Continuation(net, context, budget))
    ensures |script| > 0 && script[0] == Entry(context, SessionCaches(net, context), NextPick(net, context), tokens, bytes)
    ensures forall i :: 0 <= i < |script| ==> Meaning(net, script[i])
    ensures forall i :: 0 <= i < |script| ==> Flow(script, i, |context|, budget, all)
    decreases budget
  {
    var e := Entry(context, SessionCaches(net, context), NextPick(net, context), tokens, bytes);
    ContinuationStep(net, all, tokens, bytes, context, budget);
    if e.pick.eog || budget == 1 {
      script := [e];
      if !e.pick.eog {
        assert (tokens + [e.pick.token]) + [] == tokens + [e.pick.token] && (bytes + e.pick.piece) + [] == bytes + e.pick.piece;
      }
    } else {
      var next := context + [e.pick.token];
      assert |next| == |context| + 1;
      var more := ScriptFrom(net, budget - 1, all, next, tokens + [e.pick.token], bytes + e.pick.piece);
      script := [e] + more;
      forall i | 0 <= i < |script| ensures Flow(script, i, |context|, budget, all) {
        assert i > 0 ==> Flow(more, i - 1, |next|, budget - 1, all);
        FlowOn(e, more, |context|, budget, all, i);
      }
    }
  }

  /** One more entry in front. */
  lemma FlowOn<C>(e: Entry<C>, more: seq<Entry<C>>, size: nat, budget: nat, all: Completion, i: nat)
    requires !e.pick.eog && budget > 1 && |e.context| == size && |e.caches| == LAYERS && |more| > 0 && i <= |more|
    requires more[0].context == e.context + [e.pick.token] && more[0].tokens == e.tokens + [e.pick.token] && more[0].bytes == e.bytes + e.pick.piece
    requires i > 0 ==> Flow(more, i - 1, size + 1, budget - 1, all)
    ensures Flow([e] + more, i, size, budget, all)
  {
    var script := [e] + more;
    assert i > 0 ==> script[i] == more[i - 1];
    assert i < |more| ==> script[i + 1] == more[i];
  }

  /** The whole model's greedy continuation, unrolled. */
  lemma ReferenceRun<C, A>(net: Net<C, A>, prompt: seq<nat>, budget: nat) returns (script: seq<Entry<C>>)
    requires prompt != [] && budget > 0
    ensures Script(net, script, prompt, budget, Continuation(net, prompt, budget))
  {
    var all := Continuation(net, prompt, budget);
    assert [] + all.tokens == all.tokens && [] + all.bytes == all.bytes;
    script := ScriptFrom(net, budget, all, prompt, [], []);
  }
}
