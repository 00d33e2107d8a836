/**
 One generation over native workers: prefill in batches, hand activations from stage to stage or move the
 session to a second worker, decode greedily, and leave the workers clean.
 */
module StageExecution {
  import opened Outcomes
  import opened LayerModel
  import opened StagePlan
  import opened WorkerPool
  import StageLease
  import Refinement = StageRefinement

  /** A worker holds its slice of the whole model's caches S, at the whole model's position. */
  ghost predicate OnTrack<C>(w: Worker<C>, e: Endpoint, session: string, position: nat, S: seq<C>)
    requires 0 <= Lo(e) <= Hi(e) <= |S|
  {
    w.identity == e.identity && w.position == position && w.session in {"", session} && w.caches == S[Lo(e)..Hi(e)]
  }

  /** Together the endpoints hold the whole model's caches S. */
  ghost predicate Seated<C>(workers: map<Key, Worker<C>>, es: seq<Endpoint>, session: string, position: nat, S: seq<C>)
    requires Chain(es) && |S| == LAYERS
  {
    forall j :: 0 <= j < |es| ==> KeyOf(es[j]) in workers && OnTrack(workers[KeyOf(es[j])], es[j], session, position, S)
  }

  /** The endpoints are where the whole model is after consuming `context` from scratch. */
  ghost predicate At<C, A>(net: Net<C, A>, workers: map<Key, Worker<C>>, es: seq<Endpoint>, session: string, context: seq<nat>)
    requires Chain(es)
  {
    Seated(workers, es, session, |context|, SessionCaches(net, context))
  }

  /**
   One batch of the whole model, seen from every layer boundary: the caches before and after, what crosses
   each boundary, and the pick read at the top.
   */
  datatype Move<C, A> = Move(position: nat, count: nat, before: seq<C>, after: seq<C>, crossing: seq<seq<A>>, pick: Pick)

  ghost predicate Shaped<C, A>(m: Move<C, A>) {
    && m.count > 0 && |m.before| == LAYERS && |m.after| == LAYERS && |m.crossing| == LAYERS + 1
    && forall a :: 0 <= a <= LAYERS ==> |m.crossing[a]| == m.count
  }

  ghost predicate Cuts<C, A>(net: Net<C, A>, m: Move<C, A>, a: nat, b: nat)
    requires Shaped(m) && a < b <= LAYERS
  {
    RunBatch(net, a, m.before[a..b], m.position, m.crossing[a]) == (m.after[a..b], m.crossing[b])
  }

  /** The move is what the layers do, for every way of cutting the stack. */
  ghost predicate Sound<C, A>(net: Net<C, A>, m: Move<C, A>) {
    && Shaped(m)
    && (forall a, b :: 0 <= a < b <= LAYERS ==> Cuts(net, m, a, b))
    && m.pick == net.head(m.crossing[LAYERS][m.count - 1])
  }

  /** Staged execution means the same as whole-model execution: every batch is a sound move. */
  lemma MoveOf<C, A>(net: Net<C, A>, context: seq<nat>, tokens: seq<nat>) returns (m: Move<C, A>)
    requires tokens != []
    ensures Sound(net, m) && m.position == |context| && m.count == |tokens| && m.crossing[0] == Embed(net, tokens)
    ensures m.before == SessionCaches(net, context) && m.after == SessionCaches(net, context + tokens)
    ensures m.pick == NextPick(net, context + tokens)
  {
    var S, xs := SessionCaches(net, context), Embed(net, tokens);
    m := Move(|context|, |tokens|, S, SessionCaches(net, context + tokens),
              seq(LAYERS + 1, a requires 0 <= a <= LAYERS => RunBatch(net, 0, S[..a], |context|, xs).1),
              NextPick(net, context + tokens));
    AdvanceSession(net, context, tokens);
    forall a, b | 0 <= a < b <= LAYERS
      ensures Cuts(net, m, a, b)
    {
      StageStep(net, S, a, b, |context|, xs);
    }
    assert S[..0] == [] && S[..LAYERS] == S;
    EmptyStack(net, 0, |context|, xs);
  }

  /** One stage of a move: its slice advances and it emits what crosses its upper boundary. */
  lemma StageMoves<C, A>(net: Net<C, A>, w: Worker<C>, e: Endpoint, session: string, m: Move<C, A>)
    requires Sound(net, m) && 0 <= Lo(e) < Hi(e) <= LAYERS && OnTrack(w, e, session, m.position, m.before)
    ensures var (w', reply) := Evaluated(net, w, session, m.crossing[Lo(e)]);
            && OnTrack(w', e, session, m.position + m.count, m.after)
            && w' == w.(caches := w'.caches, session := session, position := m.position + m.count)
            && reply == if Hi(e) < LAYERS then Middle(m.position + m.count, m.crossing[Hi(e)])
                        else Last(m.position + m.count, m.pick)
  {
    assert Cuts(net, m, Lo(e), Hi(e));
  }

  lemma TakeAll(s: seq<nat>, i: nat)
    requires i == |s|
    ensures s[..i] == s
  {
  }

  lemma SliceJoin(s: seq<nat>, i: nat, j: nat)
    requires i <= j <= |s|
    ensures s[..i] + s[i..j] == s[..j]
  {
  }

  function KeysOf(es: seq<Endpoint>): set<Key> {
    set i | 0 <= i < |es| :: KeyOf(es[i])
  }

  ghost predicate SameSource(es: seq<Endpoint>, source: string) {
    forall i :: 0 <= i < |es| ==> es[i].identity.source == source
  }

  /** The batch calls issued between two logs: same endpoints, same position, same size. */
  ghost predicate CallsWithin(log: seq<EvalCall>, log': seq<EvalCall>, ks: set<Key>, low: int, high: int) {
    && log <= log'
    && forall i :: |log| <= i < |log'| ==>
         log'[i].key in ks && low <= log'[i].position && log'[i].position + log'[i].count <= high
  }

  lemma CallsStep(log0: seq<EvalCall>, log1: seq<EvalCall>, log2: seq<EvalCall>, ks: set<Key>, js: set<Key>, low: int, mid: int, high: int)
    requires CallsWithin(log0, log1, ks, low, high) && CallsWithin(log1, log2, js, mid, high) && js <= ks && low <= mid
    ensures CallsWithin(log0, log2, ks, low, high)
  {
  }

  /** One call on one worker of the chain keeps what the calls before it kept. */
  lemma HopKeeps<C>(w0: map<Key, Worker<C>>, w1: map<Key, Worker<C>>, w2: map<Key, Worker<C>>,
                    log0: seq<EvalCall>, log1: seq<EvalCall>, log2: seq<EvalCall>, ks: set<Key>, k: Key, low: int, high: int)
    requires Evolved(w0, w1, ks, map[]) && Evolved(w1, w2, {k}, map[]) && k in ks
    requires CallsWithin(log0, log1, ks, low, high) && CallsWithin(log1, log2, {k}, low, high)
    ensures Evolved(w0, w2, ks, map[]) && CallsWithin(log0, log2, ks, low, high)
  {
    EvolvedStep(w0, w1, w2, ks, {k}, map[], map[]);
    CallsStep(log0, log1, log2, ks, {k}, low, low, high);
  }

  /** The endpoints' workers have taken up the session. */
  ghost predicate InSession<C>(workers: map<Key, Worker<C>>, es: seq<Endpoint>, session: string) {
    forall j :: 0 <= j < |es| ==> KeyOf(es[j]) in workers && workers[KeyOf(es[j])].session == session
  }

  ghost predicate SameFiles<C>(w0: map<Key, Worker<C>>, w1: map<Key, Worker<C>>) {
    forall k :: k in w0 ==> k in w1 && w1[k].files == w0[k].files
  }

  /** The endpoints' workers hold this session or none. */
  ghost predicate InReach<C>(workers: map<Key, Worker<C>>, es: seq<Endpoint>, session: string) {
    forall j :: 0 <= j < |es| ==> KeyOf(es[j]) in workers && workers[KeyOf(es[j])].session in {"", session}
  }

  lemma SeatedInReach<C>(workers: map<Key, Worker<C>>, es: seq<Endpoint>, session: string, position: nat, S: seq<C>)
    requires Chain(es) && |S| == LAYERS && Seated(workers, es, session, position, S)
    ensures InReach(workers, es, session)
  {
  }

  lemma BothInReach<C>(w0: map<Key, Worker<C>>, w1: map<Key, Worker<C>>, e0: Endpoint, e1: Endpoint, session: string)
    requires KeyOf(e0) in w0 && w0[KeyOf(e0)].session in {"", session} && KeyOf(e0) != KeyOf(e1) && Evolved(w0, w1, {KeyOf(e1)}, map[])
    requires InReach(w1, [e1], session)
    ensures InReach(w1, [e0, e1], session)
  {
    assert KeyOf([e1][0]) in w1 && w1[KeyOf([e1][0])].session in {"", session};
  }

  predicate FitsPrompt(plan: Plan, q: Request, tokens: seq<nat>)
    requires plan.endpoints != []
  {
    tokens != [] && (forall i :: 0 <= i < |tokens| ==> tokens[i] < VOCAB) && |tokens| + q.maxTokens <= plan.endpoints[0].identity.ctx
  }

  /** A chain part of the way through a move: the first i stages have advanced. */
  ghost predicate PartWay<C, A>(workers: map<Key, Worker<C>>, es: seq<Endpoint>, i: nat, session: string, m: Move<C, A>)
    requires Chain(es) && Shaped(m)
  {
    forall j :: 0 <= j < |es| ==>
      && KeyOf(es[j]) in workers
      && if j < i then
           OnTrack(workers[KeyOf(es[j])], es[j], session, m.position + m.count, m.after) && workers[KeyOf(es[j])].session == session
         else OnTrack(workers[KeyOf(es[j])], es[j], session, m.position, m.before)
  }

  lemma PartWayEnds<C, A>(workers: map<Key, Worker<C>>, es: seq<Endpoint>, session: string, m: Move<C, A>)
    requires Chain(es) && Shaped(m)
    ensures PartWay(workers, es, 0, session, m) <==> Seated(workers, es, session, m.position, m.before)
    ensures PartWay(workers, es, |es|, session, m) <==> Seated(workers, es, session, m.position + m.count, m.after) && InSession(workers, es, session)
  {
  }

  lemma PartWayStep<C, A>(workers: map<Key, Worker<C>>, workers': map<Key, Worker<C>>, es: seq<Endpoint>, i: nat, session: string, m: Move<C, A>)
    requires Chain(es) && Shaped(m) && DistinctKeys(es, |es|) && i < |es| && PartWay(workers, es, i, session, m)
    requires Evolved(workers, workers', {KeyOf(es[i])}, map[])
    requires OnTrack(workers'[KeyOf(es[i])], es[i], session, m.position + m.count, m.after) && workers'[KeyOf(es[i])].session == session
    ensures PartWay(workers', es, i + 1, session, m)
  {
  }

  /** The chain of endpoints an evaluation may use, all serving the model `net`. */
  ghost predicate Usable<C, A>(nets: string -> Net<C, A>, es: seq<Endpoint>, net: Net<C, A>) {
    Chain(es) && DistinctKeys(es, |es|) && SameSource(es, es[0].identity.source) && net == nets(es[0].identity.source)
  }

  /** The worker an endpoint names runs the expected binary and model, and has no session. */
  ghost predicate Matches<C>(workers: map<Key, Worker<C>>, e: Endpoint) {
    KeyOf(e) in workers && var w := workers[KeyOf(e)]; w.identity == e.identity && w.binary == e.binary && Clean(w)
  }

  ghost predicate AllMatch<C>(workers: map<Key, Worker<C>>, es: seq<Endpoint>) {
    forall i :: 0 <= i < |es| ==> Matches(workers, es[i])
  }

  /** The same worker, except that file `name` now holds `data`. */
  ghost predicate Holding<C>(w0: Worker<C>, w: Worker<C>, name: string, data: Bytes) {
    && w == w0.(files := w.files) && name in w.files && w.files[name] == data
    && forall f :: f in w0.files && f != name ==> f in w.files && w.files[f] == w0.files[f]
  }

  /** The binaries of a state transfer are the qualified pair. */
  predicate Paired(plan: Plan) {
    plan.mode.PrefillDecode? ==>
      && |plan.endpoints| >= 2 && plan.qualification.Some?
      && plan.endpoints[0].binary == plan.qualification.value.sourceBinary && plan.endpoints[1].binary == plan.qualification.value.targetBinary
  }

  /** Every tracked file is on its worker. */
  ghost predicate AllHeld<C>(workers: map<Key, Worker<C>>, tracked: map<Key, set<string>>) {
    forall k :: k in tracked ==> k in workers && tracked[k] <= workers[k].files.Keys
  }

  lemma HeldStays<C>(w0: map<Key, Worker<C>>, w1: map<Key, Worker<C>>, tracked: map<Key, set<string>>)
    requires SameFiles(w0, w1)
    ensures AllHeld(w0, tracked) ==> AllHeld(w1, tracked)
  {
  }

  /** A file is tracked and then written. */
  lemma HeldMore<C>(w0: map<Key, Worker<C>>, w1: map<Key, Worker<C>>, tracked: map<Key, set<string>>, k: Key, names: set<string>)
    requires k in w0 && k in w1 && w1[k].files.Keys == w0[k].files.Keys + names
    requires forall j :: j in w0 && j != k ==> j in w1 && w1[j] == w0[j]
    ensures AllHeld(w0, tracked) ==> AllHeld(w1, tracked[k := Owned(tracked, k) + names])
  {
  }

  /** A file that can be copied as far as sizes go, from this offset. */
  predicate Suits(bytes: Bytes, offset: nat, max: nat, size: Option<nat>, expected: Option<nat>) {
    && offset < |bytes| <= max && (size.Some? ==> size.value == |bytes|) && (expected.Some? ==> expected.value == |bytes|)
  }

  /** The source holds the file, the destination does not, and its size is as it should be. */
  predicate Copyable<C>(workers: map<Key, Worker<C>>, src: Key, dst: Key, name: string, max: nat, expected: Option<nat>) {
    && src != dst && Has(workers, src, name) && dst in workers && name !in workers[dst].files
    && Suits(workers[src].files[name], 0, max, None, expected)
  }

  lemma ChunkGrows(data: Bytes, bytes: Bytes)
    requires data <= bytes && |data| < |bytes|
    ensures
      var c := ChunkAt(bytes, |data|);
      c.totalBytes == |bytes| && data + c.data <= bytes
  {
  }

  /** The executor's checks of a chunk: its own sizes, the size seen first and the size expected. */
  predicate Proper(c: Chunk, offset: nat, max: nat, size: Option<nat>, expected: Option<nat>) {
    && c.data != [] && |c.data| <= CHUNK && 1 <= c.totalBytes <= max && (size.Some? ==> c.totalBytes == size.value)
    && c.nextOffset == offset + |c.data| && offset + |c.data| <= c.totalBytes && c.eof == (offset + |c.data| == c.totalBytes)
    && (expected.Some? ==> c.totalBytes == expected.value)
  }

  lemma WholeFile(data: Bytes, bytes: Bytes)
    requires data <= bytes && |data| >= |bytes|
    ensures data == bytes
  {
  }

  /** The worker has neither of the capsule's files. */
  predicate Unused<C>(w: Worker<C>, file: string) {
    file !in w.files && file + ".json" !in w.files
  }

  predicate Has<C>(workers: map<Key, Worker<C>>, k: Key, name: string) {
    k in workers && name in workers[k].files
  }

  /** The worker holds the capsule this manifest describes. */
  ghost predicate Carries<C>(codec: Codec<C>, w: Worker<C>, file: string, m: Manifest) {
    && file in w.files && file + ".json" in w.files && 1 <= |w.files[file]| == m.bytes <= MAX_STATE
    && codec.sha(w.files[file]) == m.sha && 1 <= |w.files[file + ".json"]| <= MAX_MANIFEST
    && codec.read(w.files[file + ".json"]) == Some(m)
  }

  ghost predicate Emptied<C>(workers: map<Key, Worker<C>>, k: Key, tracked: map<Key, set<string>>) {
    k in workers && Clean(workers[k]) && workers[k].files.Keys !! Owned(tracked, k)
  }

  /** The endpoints from the i-th on are as they were. */
  ghost predicate Untouched<C>(w0: map<Key, Worker<C>>, w: map<Key, Worker<C>>, es: seq<Endpoint>, i: nat) {
    forall j :: i <= j < |es| && KeyOf(es[j]) in w0 ==> KeyOf(es[j]) in w && w[KeyOf(es[j])] == w0[KeyOf(es[j])]
  }

  lemma UntouchedStep<C>(w0: map<Key, Worker<C>>, w1: map<Key, Worker<C>>, w2: map<Key, Worker<C>>, es: seq<Endpoint>, i: nat)
    requires i < |es| && DistinctKeys(es, |es|) && Untouched(w0, w1, es, i) && Evolved(w1, w2, {KeyOf(es[i])}, map[])
    ensures Untouched(w0, w2, es, i + 1)
  {
  }

  lemma EmptiedStep<C>(w: map<Key, Worker<C>>, w': map<Key, Worker<C>>, es: seq<Endpoint>, i: nat, tracked: map<Key, set<string>>)
    requires i < |es| && DistinctKeys(es, |es|) && Evolved(w, w', {KeyOf(es[i])}, map[])
    requires (forall j :: 0 <= j < i ==> Emptied(w, KeyOf(es[j]), tracked)) && Emptied(w', KeyOf(es[i]), tracked)
    ensures forall j :: 0 <= j <= i ==> Emptied(w', KeyOf(es[j]), tracked)
  {
    forall j | 0 <= j <= i ensures Emptied(w', KeyOf(es[j]), tracked) {
      if j < i {
        assert Emptied(w, KeyOf(es[j]), tracked);
      }
    }
  }

  /** Workers that report an empty session are at the beginning of the whole model's run. */
  lemma CleanIsAt<C, A>(nets: string -> Net<C, A>, net: Net<C, A>, workers: map<Key, Worker<C>>, es: seq<Endpoint>, session: string)
    requires Usable(nets, es, net) && (forall k :: k in workers ==> WorkerOk(nets, workers[k]))
    requires forall i :: 0 <= i < |es| ==> Matches(workers, es[i])
    ensures At(net, workers, es, session, [])
  {
    forall i | 0 <= i < |es| ensures OnTrack(workers[KeyOf(es[i])], es[i], session, 0, SessionCaches(net, [])) {
      assert Matches(workers, es[i]) && WorkerOk(nets, workers[KeyOf(es[i])]);
      FreshSlice(net, 0, LAYERS, Lo(es[i]), Hi(es[i]));
    }
  }

  lemma AdmissibleUsable<C, A>(nets: string -> Net<C, A>, plan: Plan, net: Net<C, A>)
    requires Admissible(plan) && net == nets(plan.endpoints[0].identity.source)
    ensures Usable(nets, PrefillEndpoints(plan), net) && Usable(nets, DecodeEndpoints(plan), net)
    ensures KeysOf(PrefillEndpoints(plan)) <= KeysOf(plan.endpoints) && KeysOf(DecodeEndpoints(plan)) <= KeysOf(plan.endpoints)
    ensures plan.mode.PrefillDecode? ==>
        && PrefillEndpoints(plan) == [plan.endpoints[0]] && DecodeEndpoints(plan) == [plan.endpoints[1]]
        && KeysOf(plan.endpoints) == {KeyOf(plan.endpoints[0]), KeyOf(plan.endpoints[1])}
        && KeyOf(plan.endpoints[0]) != KeyOf(plan.endpoints[1])
        && plan.endpoints[0].identity.span.Whole? && plan.endpoints[1].identity.span.Whole?
  {
    AdmissibleChains(plan);
    var es := plan.endpoints;
    assert forall i :: 0 <= i < |es| ==> Compatible(es[i], es[0].identity);
    if plan.mode.PrefillDecode? {
      assert FullModel(es[0], es[0].identity) && FullModel(es[1], es[0].identity);
      assert KeysOf(es) == {KeyOf(es[0]), KeyOf(es[1])};
    }
  }

  lemma StagesBegin<C, A>(nets: string -> Net<C, A>, plan: Plan, net: Net<C, A>, workers: map<Key, Worker<C>>, session: string)
    requires Admissible(plan) && plan.mode.Stages? && net == nets(plan.endpoints[0].identity.source) && AllMatch(workers, plan.endpoints)
    requires forall k :: k in workers ==> WorkerOk(nets, workers[k])
    ensures Usable(nets, plan.endpoints, net) && At(net, workers, plan.endpoints, session, [])
  {
    AdmissibleUsable(nets, plan, net);
    CleanIsAt(nets, net, workers, plan.endpoints, session);
  }

  /** What the calls of a run may look like: within the context window, and no prompt token on a decode-only worker. */
  ghost predicate CallsFit(log: seq<EvalCall>, log': seq<EvalCall>, plan: Plan, promptSize: nat)
    requires |plan.endpoints| >= 2
  {
    && CallsWithin(log, log', KeysOf(plan.endpoints), 0, plan.endpoints[0].identity.ctx - 1)
    && (plan.mode.PrefillDecode? ==> forall i :: |log| <= i < |log'| && log'[i].key == KeyOf(plan.endpoints[1]) ==>
          promptSize <= log'[i].position)
  }

  /** What a normal return promises: the whole model's greedy continuation of a prompt that fits the context window. */
  ghost predicate Completed<C, A>(nets: string -> Net<C, A>, plan: Plan, q: Request, prompt: seq<nat>, out: Completion) {
    && plan.endpoints != [] && prompt != [] && 0 < q.maxTokens && |prompt| + q.maxTokens <= plan.endpoints[0].identity.ctx
    && out == Continuation(nets(plan.endpoints[0].identity.source), prompt, q.maxTokens)
  }

  /** The deployment's workers after a run that could be cleaned up: untouched, or empty with no file left over. */
  ghost predicate LeftClean<C>(w: map<Key, Worker<C>>, w': map<Key, Worker<C>>, es: seq<Endpoint>) {
    || w' == w
    || forall i :: 0 <= i < |es| ==>
         KeyOf(es[i]) in w && KeyOf(es[i]) in w' && Clean(w'[KeyOf(es[i])]) && w'[KeyOf(es[i])].files.Keys <= w[KeyOf(es[i])].files.Keys
  }

  /** What the executor's three states say to the lease protocol. */
  lemma GenerationTold<C>(w0: map<Key, Worker<C>>, w1: map<Key, Worker<C>>, w2: map<Key, Worker<C>>, es: seq<Endpoint>,
                          found: map<Key, set<string>>, tracked: map<Key, set<string>>, clean: bool)
    requires Framed(w0, w1, KeysOf(es)) && Evolved(w1, w2, KeysOf(es), map[])
    requires found == FilesOf(w0) && Accounted(w1, found, tracked)
    requires forall i :: 0 <= i < |es| ==> Matches(w0, es[i])
    requires clean ==> forall i :: 0 <= i < |es| ==> Emptied(w2, KeyOf(es[i]), tracked)
    ensures Refinement.Told(w0, w1, w2, es, tracked, clean)
  {
    forall i | 0 <= i < |es|
      ensures
        var k := KeyOf(es[i]);
        && k in w0 && k in w1 && k in w2 && Clean(w0[k])
        && w1[k].files.Keys <= w0[k].files.Keys + Owned(tracked, k) && w2[k].files.Keys <= w1[k].files.Keys
        && (clean ==> Clean(w2[k]) && w2[k].files.Keys !! Owned(tracked, k))
    {
      var k := KeyOf(es[i]);
      assert Matches(w0, es[i]) && k in KeysOf(es);
      assert clean ==> Emptied(w2, k, tracked);
    }
  }

  lemma ToldIsClean<C>(w0: map<Key, Worker<C>>, w1: map<Key, Worker<C>>, w2: map<Key, Worker<C>>, es: seq<Endpoint>, tracked: map<Key, set<string>>)
    requires Refinement.Told(w0, w1, w2, es, tracked, true)
    ensures LeftClean(w0, w2, es)
  {
  }

  lemma GenerationEnds<C>(active: set<string>, unsafe: set<string>, d: string, session: string, es: seq<Endpoint>, w0: map<Key, Worker<C>>,
                          w1: map<Key, Worker<C>>, w2: map<Key, Worker<C>>, tracked: map<Key, set<string>>, clean: bool)
    requires d !in active && d !in unsafe && |es| >= 2 && Refinement.Told(w0, w1, w2, es, tracked, clean)
    ensures clean ==> LeftClean(w0, w2, es)
    ensures Refinement.Reaches(Refinement.View(active, unsafe, d, Refinement.Bank(w0, es)),
                               Refinement.View(active, if clean then unsafe else unsafe + {d}, d, Refinement.Bank(w2, es)))
  {
    Refinement.GenerationIsARun(active, unsafe, d, session, es, w0, w1, w2, tracked, clean);
    if clean {
      ToldIsClean(w0, w1, w2, es, tracked);
    }
  }

  lemma CallsJoin(log0: seq<EvalCall>, log1: seq<EvalCall>, log2: seq<EvalCall>, plan: Plan, promptSize: nat, maxTokens: nat)
    requires |plan.endpoints| == 2 && plan.mode.PrefillDecode? && KeyOf(plan.endpoints[0]) != KeyOf(plan.endpoints[1])
    requires maxTokens > 0 && promptSize + maxTokens <= plan.endpoints[0].identity.ctx
    requires CallsWithin(log0, log1, {KeyOf(plan.endpoints[0])}, 0, promptSize)
    requires CallsWithin(log1, log2, {KeyOf(plan.endpoints[1])}, promptSize, promptSize + maxTokens - 1)
    ensures CallsFit(log0, log2, plan, promptSize)
  {
    assert KeysOf(plan.endpoints) == {KeyOf(plan.endpoints[0]), KeyOf(plan.endpoints[1])};
  }

  /** A file to copy and what was there when its copy began. */
  datatype Job<!C> = Job(
    ticks: nat, workers: map<Key, Worker<C>>, src: Key, dst: Key, name: string, max: nat, expected: Option<nat>)

  /** A generation's plan and request, what it found when it began, and whether it had everything it needs. */
  datatype Case<!C> = Case(
    plan: Plan, request: Request, ticks: nat, workers: map<Key, Worker<C>>, evals: seq<EvalCall>, active: set<string>, unsafe: set<string>,
    ready: bool, told: seq<nat>)

  class StageExecutor<C(==, !new), A(!new)> {
    const pool: Pool<C, A>
    var active: set<string>
    var unsafe: set<string>

    constructor (pool: Pool<C, A>)
      ensures this.pool == pool && active == {} && unsafe == {}
    {
      this.pool, this.active, this.unsafe := pool, {}, {};
    }

    /** The executor and the plan's workers as the lease protocol sees them. */
    ghost function LeaseView(plan: Plan): StageLease.Executor
      reads this, pool
    {
      Refinement.View(active, unsafe, plan.deployment, Refinement.Bank(pool.workers, plan.endpoints))
    }

    /** Since t0 some command failed, or all went well. */
    ghost predicate Ran(t0: nat, ok: bool)
      reads pool`ticks
    {
      t0 <= pool.ticks && (pool.Calm(t0, pool.ticks) ==> ok)
    }

    ghost predicate Held()
      reads pool`workers, pool.tracker`capsuleFiles
    {
      AllHeld(pool.workers, pool.tracker.capsuleFiles)
    }

    /** Since t0 no command failed and every read returned what the worker holds. */
    ghost predicate Undisturbed(t0: nat)
      reads pool`ticks
    {
      Clear(t0, pool.ticks)
    }

    /** One stage of a chain, and the executor's checks of its answer. */
    method EvalStage(e: Endpoint, session: string, position: nat, input: Input<A>, middle: bool, ghost net: Net<C, A>, ghost m: Move<C, A>)
      returns (r: Result<Reply<A>>)
      requires pool.Valid() && session != "" && net == pool.nets(e.identity.source) && Sound(net, m) && position == m.position
      requires 0 <= Lo(e) < Hi(e) <= LAYERS && Feed(net, input) == m.crossing[Lo(e)] && (middle <==> Hi(e) < LAYERS)
      requires KeyOf(e) in pool.workers && OnTrack(pool.workers[KeyOf(e)], e, session, position, m.before)
      modifies pool
      ensures pool.Valid() && Evolved(old(pool.workers), pool.workers, {KeyOf(e)}, map[])
      ensures CallsWithin(old(pool.evals), pool.evals, {KeyOf(e)}, position, position + m.count)
      ensures Ran(old(pool.ticks), r.Ok?)
      ensures r.Ok? ==>
          && OnTrack(pool.workers[KeyOf(e)], e, session, position + m.count, m.after) && pool.workers[KeyOf(e)].session == session
          && SameFiles(old(pool.workers), pool.workers)
          && r.value == if middle then Middle(position + m.count, m.crossing[Hi(e)]) else Last(position + m.count, m.pick)
    {
      StageMoves(net, pool.workers[KeyOf(e)], e, session, m);
      var reply :- pool.Eval(KeyOf(e), session, position, input);
      if reply.position != position + Size(input) {
        return Err;
      }
      if middle && (!reply.Middle? || |reply.values| != Size(input)) {
        return Err;
      }
      if !middle && !reply.Last? {
        return Err;
      }
      r := Ok(reply);
    }

    /** The i-th stage of a chain: the stages below it have advanced, and now it does. */
    method EvalNext(es: seq<Endpoint>, i: nat, session: string, position: nat, input: Input<A>, ghost net: Net<C, A>, ghost m: Move<C, A>)
      returns (r: Result<Reply<A>>, next: Input<A>)
      requires pool.Valid() && session != "" && Sound(net, m) && position == m.position
      requires Usable(pool.nets, es, net)
      requires i < |es| && Feed(net, input) == m.crossing[Lo(es[i])] && PartWay(pool.workers, es, i, session, m)
      modifies pool
      ensures pool.Valid() && Evolved(old(pool.workers), pool.workers, {KeyOf(es[i])}, map[])
      ensures CallsWithin(old(pool.evals), pool.evals, {KeyOf(es[i])}, position, position + m.count)
      ensures Ran(old(pool.ticks), r.Ok?)
      ensures r.Ok? ==> PartWay(pool.workers, es, i + 1, session, m) && SameFiles(old(pool.workers), pool.workers)
      ensures r.Ok? && i < |es| - 1 ==> Feed(net, next) == m.crossing[Lo(es[i + 1])]
      ensures r.Ok? && i == |es| - 1 ==> r.value.Last? && r.value.pick == m.pick
    {
      ghost var w1 := pool.workers;
      next := input;
      r := EvalStage(es[i], session, position, input, i < |es| - 1, net, m);
      if r.Err? {
        return;
      }
      PartWayStep(w1, pool.workers, es, i, session, m);
      if i < |es| - 1 {
        assert Hi(es[i]) == Lo(es[i + 1]);
        next := Activations(r.value.values);
      }
    }

    /** One batch through a chain of endpoints; the last one answers with the next pick. */
    method EvalChain(es: seq<Endpoint>, session: string, tokens: seq<nat>, position: nat, ghost net: Net<C, A>, ghost m: Move<C, A>)
      returns (r: Result<Pick>)
      requires pool.Valid() && session != "" && Sound(net, m) && position == m.position && Embed(net, tokens) == m.crossing[0]
      requires Usable(pool.nets, es, net) && PartWay(pool.workers, es, 0, session, m)
      modifies pool
      ensures pool.Valid() && Evolved(old(pool.workers), pool.workers, KeysOf(es), map[])
      ensures CallsWithin(old(pool.evals), pool.evals, KeysOf(es), position, position + m.count)
      ensures Ran(old(pool.ticks), r.Ok?)
      ensures r.Ok? ==> PartWay(pool.workers, es, |es|, session, m) && r.value == m.pick && SameFiles(old(pool.workers), pool.workers)
    {
      var input: Input<A> := Tokens(tokens);
      var pick := Pick(0, false, []);
      for i := 0 to |es|
        invariant pool.Valid() && Evolved(old(pool.workers), pool.workers, KeysOf(es), map[])
        invariant CallsWithin(old(pool.evals), pool.evals, KeysOf(es), position, position + m.count)
        invariant PartWay(pool.workers, es, i, session, m) && old(pool.ticks) <= pool.ticks && SameFiles(old(pool.workers), pool.workers)
        invariant i < |es| ==> Feed(net, input) == m.crossing[Lo(es[i])]
        invariant i == |es| ==> pick == m.pick
      {
        ghost var w1, log1 := pool.workers, pool.evals;
        var reply;
        reply, input := EvalNext(es, i, session, position, input, net, m);
        assert {KeyOf(es[i])} <= KeysOf(es);
        HopKeeps(old(pool.workers), w1, pool.workers, old(pool.evals), log1, pool.evals, KeysOf(es), KeyOf(es[i]), position, position + m.count);
        if reply.Err? {
          return Err;
        }
        if i == |es| - 1 {
          pick := reply.value.pick;
        }
      }
      r := Ok(pick);
    }

    /** One batch from `context`: the endpoints move on and the pick is the whole model's. */
    method EvalBatch(es: seq<Endpoint>, session: string, tokens: seq<nat>, position: nat, ghost net: Net<C, A>, ghost context: seq<nat>)
      returns (r: Result<Pick>)
      requires pool.Valid() && session != "" && tokens != [] && position == |context|
      requires Usable(pool.nets, es, net) && At(net, pool.workers, es, session, context)
      modifies pool
      ensures pool.Valid() && Evolved(old(pool.workers), pool.workers, KeysOf(es), map[])
      ensures CallsWithin(old(pool.evals), pool.evals, KeysOf(es), position, position + |tokens|)
      ensures Ran(old(pool.ticks), r.Ok?)
      ensures r.Ok? ==> At(net, pool.workers, es, session, context + tokens) && r.value == NextPick(net, context + tokens)
      ensures r.Ok? ==> InSession(pool.workers, es, session) && SameFiles(old(pool.workers), pool.workers)
    {
      ghost var m := MoveOf(net, context, tokens);
      PartWayEnds(pool.workers, es, session, m);
      r := EvalChain(es, session, tokens, position, net, m);
      PartWayEnds(pool.workers, es, session, m);
    }

    /** The prompt in batches of at most 64 tokens. */
    method Prefill(es: seq<Endpoint>, session: string, prompt: seq<nat>, ghost net: Net<C, A>) returns (r: Result<Pick>)
      requires pool.Valid() && session != "" && prompt != []
      requires Usable(pool.nets, es, net) && At(net, pool.workers, es, session, [])
      modifies pool
      ensures pool.Valid() && Evolved(old(pool.workers), pool.workers, KeysOf(es), map[])
      ensures CallsWithin(old(pool.evals), pool.evals, KeysOf(es), 0, |prompt|)
      ensures Ran(old(pool.ticks), r.Ok?)
      ensures r.Ok? ==> At(net, pool.workers, es, session, prompt) && r.value == NextPick(net, prompt)
      ensures r.Ok? ==> InSession(pool.workers, es, session) && SameFiles(old(pool.workers), pool.workers)
    {
      var offset := 0;
      var pick := Pick(0, false, []);
      assert prompt[..0] == [];
      while offset < |prompt|
        invariant offset <= |prompt| && pool.Valid()
        invariant Evolved(old(pool.workers), pool.workers, KeysOf(es), map[])
        invariant CallsWithin(old(pool.evals), pool.evals, KeysOf(es), 0, |prompt|)
        invariant At(net, pool.workers, es, session, prompt[..offset])
        invariant offset > 0 ==> pick == NextPick(net, prompt[..offset]) && InSession(pool.workers, es, session)
        invariant old(pool.ticks) <= pool.ticks && SameFiles(old(pool.workers), pool.workers)
      {
        var end := if offset + BATCH < |prompt| then offset + BATCH else |prompt|;
        var batch := PrefillBatch(es, session, prompt, offset, end, net, old(pool.workers), old(pool.evals));
        if batch.Err? {
          return Err;
        }
        pick, offset := batch.value, end;
      }
      TakeAll(prompt, offset);
      r := Ok(pick);
    }

    /** The prompt's tokens from `offset` to `end` go through every stage. */
    method PrefillBatch(es: seq<Endpoint>, session: string, prompt: seq<nat>, offset: nat, end: nat, ghost net: Net<C, A>,
                        ghost w0: map<Key, Worker<C>>, ghost log0: seq<EvalCall>)
      returns (r: Result<Pick>)
      requires pool.Valid() && session != "" && offset < end <= |prompt|
      requires Usable(pool.nets, es, net) && At(net, pool.workers, es, session, prompt[..offset])
      requires Evolved(w0, pool.workers, KeysOf(es), map[]) && CallsWithin(log0, pool.evals, KeysOf(es), 0, |prompt|)
      modifies pool
      ensures pool.Valid()
      ensures Evolved(w0, pool.workers, KeysOf(es), map[]) && CallsWithin(log0, pool.evals, KeysOf(es), 0, |prompt|)
      ensures Ran(old(pool.ticks), r.Ok?)
      ensures r.Ok? ==> At(net, pool.workers, es, session, prompt[..end]) && r.value == NextPick(net, prompt[..end])
      ensures r.Ok? ==> InSession(pool.workers, es, session) && SameFiles(old(pool.workers), pool.workers)
    {
      ghost var w1, log1 := pool.workers, pool.evals;
      SliceJoin(prompt, offset, end);
      r := EvalBatch(es, session, prompt[offset..end], offset, net, prompt[..offset]);
      EvolvedStep(w0, w1, pool.workers, KeysOf(es), KeysOf(es), map[], map[]);
      CallsStep(log0, log1, pool.evals, KeysOf(es), KeysOf(es), 0, offset, |prompt|);
    }

    /** Greedy decoding: stop at an end-of-generation pick, or at the token limit without evaluating the last token. */
    method Decode(es: seq<Endpoint>, session: string, first: Pick, promptSize: nat, maxTokens: nat,
                  ghost net: Net<C, A>, ghost prompt: seq<nat>, ghost script: seq<Entry<C>>, ghost all: Completion)
      returns (r: Result<Completion>)
      requires pool.Valid() && session != "" && promptSize == |prompt| && maxTokens > 0
      requires Usable(pool.nets, es, net) && Script(net, script, prompt, maxTokens, all) && |script[0].caches| == LAYERS
      requires Seated(pool.workers, es, session, promptSize, script[0].caches) && first == script[0].pick
      modifies pool
      ensures pool.Valid() && Evolved(old(pool.workers), pool.workers, KeysOf(es), map[])
      ensures CallsWithin(old(pool.evals), pool.evals, KeysOf(es), promptSize, promptSize + maxTokens - 1)
      ensures Ran(old(pool.ticks), r.Ok?)
      ensures r.Ok? ==> r.value == all && SameFiles(old(pool.workers), pool.workers) && InReach(pool.workers, es, session)
    {
      ghost var t0, w0, log0 := pool.ticks, pool.workers, pool.evals;
      var pick, tokens, bytes, n := first, [], [], 0;
      while true
        invariant pool.Valid() && Onward(pool.workers, pool.evals, w0, log0, es, promptSize, maxTokens) && t0 <= pool.ticks
        invariant n < maxTokens && n < |script| && pick == script[n].pick && tokens == script[n].tokens && bytes == script[n].bytes
        invariant |script[n].caches| == LAYERS && Seated(pool.workers, es, session, promptSize + n, script[n].caches)
        decreases maxTokens - n
      {
        var _ :- pool.Checkpoint();
        assert Flow(script, n, promptSize, maxTokens, all);
        if pick.eog {
          SeatedInReach(pool.workers, es, session, promptSize + n, script[n].caches);
          return Ok(Completion(tokens, bytes, Stop));
        }
        var token := pick.token;
        tokens, bytes := tokens + [token], bytes + pick.piece;
        var _ :- pool.Checkpoint();
        if n + 1 == maxTokens {
          SeatedInReach(pool.workers, es, session, promptSize + n, script[n].caches);
          return Ok(Completion(tokens, bytes, Length));
        }
        pick :- DecodeToken(es, session, token, promptSize, n, maxTokens, net, script, prompt, all, t0, w0, log0);
        n := n + 1;
      }
    }

    /** The chain has moved on within its calls, and no file has changed. */
    ghost predicate Onward(w: map<Key, Worker<C>>, log: seq<EvalCall>, w0: map<Key, Worker<C>>, log0: seq<EvalCall>, es: seq<Endpoint>, size: nat, max: nat) {
      Evolved(w0, w, KeysOf(es), map[]) && SameFiles(w0, w) && CallsWithin(log0, log, KeysOf(es), size, size + max - 1)
    }

    /** One more token goes through the chain. */
    method DecodeToken(es: seq<Endpoint>, session: string, token: nat, promptSize: nat, n: nat, maxTokens: nat,
                       ghost net: Net<C, A>, ghost script: seq<Entry<C>>, ghost prompt: seq<nat>, ghost all: Completion,
                       ghost t0: nat, ghost w0: map<Key, Worker<C>>, ghost log0: seq<EvalCall>)
      returns (r: Result<Pick>)
      requires pool.Valid() && session != "" && promptSize == |prompt| && n + 1 < maxTokens && n + 1 < |script|
      requires Usable(pool.nets, es, net) && Script(net, script, prompt, maxTokens, all)
      requires |script[n].caches| == LAYERS && Seated(pool.workers, es, session, promptSize + n, script[n].caches)
      requires !script[n].pick.eog && token == script[n].pick.token
      requires Onward(pool.workers, pool.evals, w0, log0, es, promptSize, maxTokens) && t0 <= pool.ticks
      modifies pool
      ensures pool.Valid() && Evolved(w0, pool.workers, KeysOf(es), map[])
      ensures CallsWithin(log0, pool.evals, KeysOf(es), promptSize, promptSize + maxTokens - 1)
      ensures r.Ok? ==>
          && |script[n + 1].caches| == LAYERS && Seated(pool.workers, es, session, promptSize + n + 1, script[n + 1].caches)
          && r.value == script[n + 1].pick && Onward(pool.workers, pool.evals, w0, log0, es, promptSize, maxTokens)
      ensures Ran(t0, r.Ok?)
    {
      ghost var w1, log1 := pool.workers, pool.evals;
      assert Meaning(net, script[n]) && Meaning(net, script[n + 1]) && Flow(script, n, promptSize, maxTokens, all);
      r := EvalBatch(es, session, [token], promptSize + n, net, script[n].context);
      EvolvedStep(w0, w1, pool.workers, KeysOf(es), KeysOf(es), map[], map[]);
      CallsStep(log0, log1, pool.evals, KeysOf(es), KeysOf(es), promptSize, promptSize + n, promptSize + maxTokens - 1);
    }

    /** Status of every endpoint, in order; nothing is changed. */
    method Prepare(plan: Plan, ghost ready: bool) returns (r: Result<()>)
      requires Admissible(plan) && (ready ==> AllMatch(pool.workers, plan.endpoints) && Paired(plan))
      modifies pool`ticks
      ensures pool.workers == old(pool.workers) && pool.evals == old(pool.evals)
      ensures r.Ok? ==> AllMatch(pool.workers, plan.endpoints)
      ensures old(pool.ticks) <= pool.ticks && (r.Ok? ==> pool.ticks == old(pool.ticks) + |plan.endpoints|)
      ensures ready ==> Ran(old(pool.ticks), r.Ok?)
    {
      var es := plan.endpoints;
      for i := 0 to |es|
        invariant pool.workers == old(pool.workers) && pool.evals == old(pool.evals) && pool.ticks == old(pool.ticks) + i
        invariant forall j :: 0 <= j < i ==> Matches(pool.workers, es[j])
      {
        var s :- pool.ReadStatus(KeyOf(es[i]));
        if s.identity != es[i].identity || s.binary != es[i].binary || s.session != "" || s.position != 0 {
          return Err;
        }
      }
      if plan.mode.PrefillDecode? &&
         (es[0].binary != plan.qualification.value.sourceBinary || es[1].binary != plan.qualification.value.targetBinary) {
        return Err;
      }
      r := Ok(());
    }

    /** One bounded chunk: read it, check it against the size seen first, write it, check the acknowledgement. */
    method CopyChunk(src: Key, dst: Key, session: string, name: string, offset: nat, max: nat, size: Option<nat>, expected: Option<nat>,
                     ghost w0: Worker<C>, ghost data: Bytes, ghost good: bool)
      returns (r: Result<Chunk>)
      requires pool.Valid() && dst in pool.workers && offset == |data|
      requires if data == [] then pool.workers[dst] == w0 else Holding(w0, pool.workers[dst], name, data)
      requires good ==> Has(pool.workers, src, name) && name !in w0.files && Suits(pool.workers[src].files[name], offset, max, size, expected)
      modifies pool`ticks, pool`workers, pool.tracker`capsuleFiles
      ensures pool.Valid() && Evolved(old(pool.workers), pool.workers, {dst}, map[dst := {name}])
      ensures r.Ok? ==> Proper(r.value, offset, max, size, expected) && Holding(w0, pool.workers[dst], name, data + r.value.data)
      ensures old(pool.ticks) <= pool.ticks && (r.Ok? && old(Held()) ==> Held())
      ensures good && Undisturbed(old(pool.ticks)) ==> r == Ok(ChunkAt(old(pool.workers)[src].files[name], offset))
    {
      r := pool.StateRead(src, session, name, offset);
      if r.Err? || !Proper(r.value, offset, max, size, expected) {
        return Err;
      }
      r := WriteChunk(dst, session, name, offset, r.value, w0, data);
    }

    /** The chunk's bytes go to the destination, which is told of the file first. */
    method WriteChunk(dst: Key, session: string, name: string, offset: nat, c: Chunk, ghost w0: Worker<C>, ghost data: Bytes)
      returns (r: Result<Chunk>)
      requires pool.Valid() && dst in pool.workers && offset == |data| && c.data != []
      requires if data == [] then pool.workers[dst] == w0 else Holding(w0, pool.workers[dst], name, data)
      modifies pool`ticks, pool`workers, pool.tracker`capsuleFiles
      ensures pool.Valid() && Evolved(old(pool.workers), pool.workers, {dst}, map[dst := {name}])
      ensures r.Ok? ==> r.value == c && Holding(w0, pool.workers[dst], name, data + c.data)
      ensures pool.ticks == old(pool.ticks) + 1 && (r.Ok? && old(Held()) ==> Held())
      ensures name !in w0.files ==> Ran(old(pool.ticks), r.Ok?)
    {
      ghost var w1, tracked := pool.workers, pool.tracker.capsuleFiles;
      pool.Track(dst, {name});
      var ack := pool.StateWrite(dst, session, name, offset, c.data);
      if ack.Err? || ack.value != offset + |c.data| {
        return Err;
      }
      HeldMore(w1, pool.workers, tracked, dst, {name});
      r := Ok(c);
    }

    /** No command fails and every read returns what the worker holds, from one command to another. */
    ghost predicate Clear(from: nat, to: nat) {
      pool.Calm(from, to) && pool.Honest(from, to)
    }

    /** How a copy stands: what the destination holds, and that it is the beginning of the source's file if nothing went wrong. */
    ghost predicate Copying(j: Job<C>, t: nat, w: map<Key, Worker<C>>, data: Bytes, size: Option<nat>) {
      && j.ticks <= t && j.dst in j.workers && Evolved(j.workers, w, {j.dst}, map[j.dst := {j.name}])
      && (size.None? <==> data == []) && (size.None? ==> w[j.dst] == j.workers[j.dst])
      && (size.Some? ==>
            && |data| <= size.value <= j.max && (j.expected.Some? ==> size.value == j.expected.value)
            && Holding(j.workers[j.dst], w[j.dst], j.name, data))
      && (Copyable(j.workers, j.src, j.dst, j.name, j.max, j.expected) && Clear(j.ticks, t) ==>
            data <= j.workers[j.src].files[j.name] && (size.Some? ==> size.value == |j.workers[j.src].files[j.name]|))
    }

    lemma CopyGrows(j: Job<C>, t1: nat, t2: nat, w1: map<Key, Worker<C>>, w2: map<Key, Worker<C>>, data: Bytes, size: Option<nat>, c: Chunk)
      requires Copying(j, t1, w1, data, size) && t1 <= t2 && Evolved(w1, w2, {j.dst}, map[j.dst := {j.name}]) && (size.Some? ==> |data| < size.value)
      requires Proper(c, |data|, j.max, size, j.expected) && Holding(j.workers[j.dst], w2[j.dst], j.name, data + c.data)
      requires Copyable(j.workers, j.src, j.dst, j.name, j.max, j.expected) && Clear(j.ticks, t1) && Clear(t1, t2) ==>
                 |data| < |j.workers[j.src].files[j.name]| && c == ChunkAt(j.workers[j.src].files[j.name], |data|)
      ensures Copying(j, t2, w2, data + c.data, Some(c.totalBytes))
    {
      EvolvedStep(j.workers, w1, w2, {j.dst}, {j.dst}, map[j.dst := {j.name}], map[j.dst := {j.name}]);
      if Copyable(j.workers, j.src, j.dst, j.name, j.max, j.expected) && Clear(j.ticks, t2) {
        assert Clear(j.ticks, t1) && Clear(t1, t2);
        ChunkGrows(data, j.workers[j.src].files[j.name]);
      }
    }

    /** While a copy has not come to its end the source has more to give. */
    lemma MoreToRead(j: Job<C>, t: nat, w: map<Key, Worker<C>>, data: Bytes, size: Option<nat>)
      requires Copying(j, t, w, data, size) && (size.None? || |data| < size.value)
      ensures Copyable(j.workers, j.src, j.dst, j.name, j.max, j.expected) && Clear(j.ticks, t) ==>
                && Has(w, j.src, j.name) && w[j.src] == j.workers[j.src] && j.name !in j.workers[j.dst].files
                && Suits(w[j.src].files[j.name], |data|, j.max, size, j.expected)
    {
    }

    /** A copy that was broken off: something went wrong. */
    ghost predicate BrokenOff(j: Job<C>, t: nat, w: map<Key, Worker<C>>) {
      && j.ticks <= t && Evolved(j.workers, w, {j.dst}, map[j.dst := {j.name}])
      && !(Copyable(j.workers, j.src, j.dst, j.name, j.max, j.expected) && Clear(j.ticks, t))
    }

    lemma CopyStops(j: Job<C>, t1: nat, t2: nat, w1: map<Key, Worker<C>>, w2: map<Key, Worker<C>>, data: Bytes, size: Option<nat>)
      requires Copying(j, t1, w1, data, size) && t1 <= t2 && Evolved(w1, w2, {j.dst}, map[j.dst := {j.name}])
      requires !(Copyable(j.workers, j.src, j.dst, j.name, j.max, j.expected) && Clear(j.ticks, t1) && Clear(t1, t2))
      ensures BrokenOff(j, t2, w2)
    {
      EvolvedStep(j.workers, w1, w2, {j.dst}, {j.dst}, map[j.dst := {j.name}], map[j.dst := {j.name}]);
    }

    method CopyNext(ghost j: Job<C>, src: Key, dst: Key, session: string, name: string, max: nat, expected: Option<nat>, data: Bytes, size: Option<nat>)
      returns (r: Result<Chunk>)
      requires pool.Valid() && Copying(j, pool.ticks, pool.workers, data, size) && (size.None? || |data| < size.value)
      requires j == Job(j.ticks, j.workers, src, dst, name, max, expected)
      modifies pool`ticks, pool`workers, pool.tracker`capsuleFiles
      ensures pool.Valid() && (r.Ok? && old(Held()) ==> Held())
      ensures r.Ok? ==> Proper(r.value, |data|, max, size, expected) && Copying(j, pool.ticks, pool.workers, data + r.value.data, Some(r.value.totalBytes))
      ensures r.Err? ==> BrokenOff(j, pool.ticks, pool.workers)
    {
      ghost var t1, w1 := pool.ticks, pool.workers;
      ghost var good := Copyable(j.workers, src, dst, name, max, expected) && Clear(j.ticks, t1);
      MoreToRead(j, t1, w1, data, size);
      r := CopyChunk(src, dst, session, name, |data|, max, size, expected, j.workers[dst], data, good);
      assert good && Clear(t1, pool.ticks) ==> r == Ok(ChunkAt(j.workers[src].files[name], |data|));
      if r.Ok? {
        CopyGrows(j, t1, pool.ticks, w1, pool.workers, data, size, r.value);
      } else {
        CopyStops(j, t1, pool.ticks, w1, pool.workers, data, size);
      }
    }

    /** A whole file, chunk by chunk: it terminates, and what the destination holds is exactly what was read. */
    method CopyFile(src: Key, dst: Key, session: string, name: string, max: nat, expected: Option<nat>)
      returns (r: Result<Bytes>)
      requires pool.Valid() && dst in pool.workers
      modifies pool`ticks, pool`workers, pool.tracker`capsuleFiles
      ensures pool.Valid() && Evolved(old(pool.workers), pool.workers, {dst}, map[dst := {name}])
      ensures r.Ok? ==>
          (expected.Some? ==> |r.value| == expected.value) && Holding(old(pool.workers)[dst], pool.workers[dst], name, r.value)
      ensures old(pool.ticks) <= pool.ticks && (r.Ok? && old(Held()) ==> Held())
      ensures Copyable(old(pool.workers), src, dst, name, max, expected) && Undisturbed(old(pool.ticks)) ==> r == Ok(old(pool.workers)[src].files[name])
    {
      ghost var j := Job(pool.ticks, pool.workers, src, dst, name, max, expected);
      var data: Bytes, size: Option<nat> := [], None;
      while size.None? || |data| < size.value
        invariant pool.Valid() && Copying(j, pool.ticks, pool.workers, data, size) && (old(Held()) ==> Held())
        decreases if size.None? then max + 1 else size.value - |data|
      {
        var c := CopyNext(j, src, dst, session, name, max, expected, data, size);
        if c.Err? {
          return Err;
        }
        size := Some(c.value.totalBytes);
        data := data + c.value.data;
      }
      if Copyable(j.workers, src, dst, name, max, expected) && Undisturbed(j.ticks) {
        WholeFile(data, j.workers[src].files[name]);
      }
      r := Ok(data);
    }

    /**
     The state file, then its manifest. Reads are not trusted: the checksum of what was read, and the
     manifest's own fields, are what tie the destination's files to what was exported. A file is tracked
     before the first write that can create it.
     */
    method CopyCapsule(src: Key, dst: Key, session: string, file: string, exported: Manifest, sourceIdentity: Identity, ghost good: bool)
      returns (r: Result<()>)
      requires pool.Valid() && dst in pool.workers && src != dst && src in pool.workers
      requires good ==> Carries(pool.codec, pool.workers[src], file, exported) && exported.identity == sourceIdentity && Unused(pool.workers[dst], file)
      modifies pool`ticks, pool`workers, pool.tracker`capsuleFiles
      ensures pool.Valid()
      ensures Evolved(old(pool.workers), pool.workers, {dst}, map[dst := {file, file + ".json"}])
      ensures r.Ok? ==> Arrived(old(pool.workers)[dst], pool.workers[dst], file, exported.(identity := sourceIdentity))
      ensures old(pool.ticks) <= pool.ticks && (r.Ok? && old(Held()) ==> Held())
      ensures good && Undisturbed(old(pool.ticks)) ==> r.Ok?
    {
      ghost var t0, w0 := pool.ticks, pool.workers;
      var data := CopyState(src, dst, session, file, exported, good);
      EvolvedMore(w0, pool.workers, {dst}, map[dst := {file}], {dst}, map[dst := {file, file + ".json"}]);
      if data.Err? {
        return Err;
      }
      r := CopyManifest(src, dst, session, file, exported, sourceIdentity, t0, w0, data.value, good);
    }

    method CopyState(src: Key, dst: Key, session: string, file: string, exported: Manifest, ghost good: bool) returns (data: Result<Bytes>)
      requires pool.Valid() && dst in pool.workers && src != dst && src in pool.workers
      requires good ==> Carries(pool.codec, pool.workers[src], file, exported) && Unused(pool.workers[dst], file)
      modifies pool`ticks, pool`workers, pool.tracker`capsuleFiles
      ensures pool.Valid() && Evolved(old(pool.workers), pool.workers, {dst}, map[dst := {file}])
      ensures data.Ok? ==> Holding(old(pool.workers)[dst], pool.workers[dst], file, data.value) && pool.codec.sha(data.value) == exported.sha
      ensures pool.workers[src] == old(pool.workers)[src] && (good ==> file + ".json" !in pool.workers[dst].files)
      ensures old(pool.ticks) <= pool.ticks && (data.Ok? && old(Held()) ==> Held())
      ensures good && Undisturbed(old(pool.ticks)) ==> data.Ok?
    {
      assert |file + ".json"| == |file| + 5;
      data := CopyFile(src, dst, session, file, MAX_STATE, Some(exported.bytes));
      if data.Err? || pool.codec.sha(data.value) != exported.sha {
        return Err;
      }
    }

    method CopyManifest(src: Key, dst: Key, session: string, file: string, exported: Manifest, sourceIdentity: Identity,
                        ghost t0: nat, ghost w0: map<Key, Worker<C>>, ghost data: Bytes, ghost good: bool)
      returns (r: Result<()>)
      requires src != dst && src in pool.workers && dst in pool.workers && dst in w0
      requires Evolved(w0, pool.workers, {dst}, map[dst := {file, file + ".json"}])
      requires good ==> Carries(pool.codec, pool.workers[src], file, exported) && exported.identity == sourceIdentity && file + ".json" !in pool.workers[dst].files
      requires pool.Valid() && dst in pool.workers && t0 <= pool.ticks && Holding(w0[dst], pool.workers[dst], file, data) && pool.codec.sha(data) == exported.sha
      modifies pool`ticks, pool`workers, pool.tracker`capsuleFiles
      ensures pool.Valid() && Evolved(w0, pool.workers, {dst}, map[dst := {file, file + ".json"}])
      ensures r.Ok? ==> Arrived(w0[dst], pool.workers[dst], file, exported.(identity := sourceIdentity))
      ensures t0 <= pool.ticks && (r.Ok? && old(Held()) ==> Held())
      ensures good && Undisturbed(t0) ==> r.Ok?
    {
      ghost var w1 := pool.workers;
      r := CopyMeta(src, dst, session, file, exported, sourceIdentity, w0[dst], data, good);
      EvolvedStep(w0, w1, pool.workers, {dst}, {dst}, map[dst := {file, file + ".json"}], map[dst := {file + ".json"}]);
    }

    method CopyMeta(src: Key, dst: Key, session: string, file: string, exported: Manifest, sourceIdentity: Identity,
                    ghost w0: Worker<C>, ghost data: Bytes, ghost good: bool)
      returns (r: Result<()>)
      requires src != dst && src in pool.workers && dst in pool.workers
      requires good ==> Carries(pool.codec, pool.workers[src], file, exported) && exported.identity == sourceIdentity && file + ".json" !in pool.workers[dst].files
      requires pool.Valid() && Holding(w0, pool.workers[dst], file, data) && pool.codec.sha(data) == exported.sha
      modifies pool`ticks, pool`workers, pool.tracker`capsuleFiles
      ensures pool.Valid() && Evolved(old(pool.workers), pool.workers, {dst}, map[dst := {file + ".json"}])
      ensures r.Ok? ==> Arrived(w0, pool.workers[dst], file, exported.(identity := sourceIdentity))
      ensures old(pool.ticks) <= pool.ticks && (r.Ok? && old(Held()) ==> Held())
      ensures good && Undisturbed(old(pool.ticks)) ==> r.Ok?
    {
      assert |file + ".json"| == |file| + 5;
      var manifest := CopyFile(src, dst, session, file + ".json", MAX_MANIFEST, None);
      if manifest.Err? {
        return Err;
      }
      var meta := pool.codec.read(manifest.value);
      if meta.None? || meta.value != exported.(identity := meta.value.identity) || meta.value.identity != sourceIdentity {
        return Err;
      }
      r := Ok(());
    }

    /** The capsule is on the worker as its manifest says, and nothing else of it has changed. */
    ghost predicate Arrived(w0: Worker<C>, w: Worker<C>, file: string, m: Manifest) {
      && w == w0.(files := w.files) && file in w.files && file + ".json" in w.files
      && pool.codec.sha(w.files[file]) == m.sha && pool.codec.read(w.files[file + ".json"]) == Some(m)
    }

    /** Export on the source, whose files are tracked first; a descriptor out of bounds is an error. */
    method ExportTracked(src: Key, session: string, file: string) returns (r: Result<Manifest>)
      requires pool.Valid() && src in pool.workers
      modifies pool`ticks, pool`workers, pool.tracker`capsuleFiles
      ensures pool.Valid() && Evolved(old(pool.workers), pool.workers, {src}, map[src := {file, file + ".json"}])
      ensures r.Ok? ==> Describes(r.value, old(pool.workers)[src], session) && pool.workers[src] == old(pool.workers)[src].(files := pool.workers[src].files)
      ensures r.Ok? && Faithful(pool.codec) && Bounded(pool.codec) ==> Carries(pool.codec, pool.workers[src], file, r.value)
      ensures pool.ticks == old(pool.ticks) + 1 && (r.Ok? && old(Held()) ==> Held())
      ensures Bounded(pool.codec) && old(pool.workers)[src].session == session ==> Ran(old(pool.ticks), r.Ok?)
    {
      ghost var w0, tracked := pool.workers, pool.tracker.capsuleFiles;
      assert |file + ".json"| == |file| + 5;
      pool.Track(src, {file, file + ".json"});
      r := pool.Export(src, session, file);
      if r.Err? || r.value.bytes < 1 || r.value.bytes > MAX_STATE || !IsSha(r.value.sha) || !IsSha(r.value.envelope) {
        return Err;
      }
      HeldMore(w0, pool.workers, tracked, src, {file, file + ".json"});
    }

    /** The manifest of this worker's session. */
    ghost predicate Describes(m: Manifest, w: Worker<C>, session: string) {
      m.session == session && m.position == w.position && m.identity == w.identity && m.sha == pool.codec.sha(pool.codec.save(w.caches))
    }

    /** Export on the source and copy the capsule. */
    method Transfer(src: Key, dst: Key, session: string, file: string, sourceIdentity: Identity, ghost good: bool)
      returns (r: Result<()>, ghost m: Manifest)
      requires pool.Valid() && src in pool.workers && dst in pool.workers && src != dst && pool.workers[src].identity == sourceIdentity
      requires good ==> Faithful(pool.codec) && Bounded(pool.codec) && pool.workers[src].session == session && Unused(pool.workers[dst], file)
      modifies pool`ticks, pool`workers, pool.tracker`capsuleFiles
      ensures pool.Valid()
      ensures Framed(old(pool.workers), pool.workers, {src, dst})
      ensures r.Ok? ==> Shipped(old(pool.workers), pool.workers, src, dst, session, file, m)
      ensures old(pool.ticks) <= pool.ticks && (r.Ok? && old(Held()) ==> Held())
      ensures good && Undisturbed(old(pool.ticks)) ==> r.Ok?
    {
      ghost var t0, w0 := pool.ticks, pool.workers;
      m := Manifest(sourceIdentity, "", 0, 0, "", "");
      var exported := ExportTracked(src, session, file);
      EvolvedFramed(w0, pool.workers, {src}, map[src := {file, file + ".json"}], {src, dst});
      if exported.Err? {
        return Err, m;
      }
      m := exported.value;
      r := ShipCapsule(src, dst, session, file, exported.value, sourceIdentity, good, t0, w0);
    }

    method ShipCapsule(src: Key, dst: Key, session: string, file: string, m: Manifest, sourceIdentity: Identity, ghost good: bool,
                       ghost t0: nat, ghost w0: map<Key, Worker<C>>)
      returns (r: Result<()>)
      requires pool.Valid() && src in w0 && dst in w0 && src != dst && t0 <= pool.ticks && Describes(m, w0[src], session) && m.identity == sourceIdentity
      requires Evolved(w0, pool.workers, {src}, map[src := {file, file + ".json"}]) && pool.workers[src] == w0[src].(files := pool.workers[src].files)
      requires good ==> Carries(pool.codec, pool.workers[src], file, m) && Unused(w0[dst], file)
      modifies pool`ticks, pool`workers, pool.tracker`capsuleFiles
      ensures pool.Valid() && Framed(w0, pool.workers, {src, dst})
      ensures r.Ok? ==> Shipped(w0, pool.workers, src, dst, session, file, m)
      ensures t0 <= pool.ticks && (r.Ok? && old(Held()) ==> Held())
      ensures good && Undisturbed(t0) ==> r.Ok?
    {
      ghost var w1 := pool.workers;
      EvolvedFramed(w0, w1, {src}, map[src := {file, file + ".json"}], {src, dst});
      assert w1[dst] == w0[dst];
      r := CopyCapsule(src, dst, session, file, m, sourceIdentity, good);
      FramedStep(w0, w1, pool.workers, {src, dst}, {dst}, map[dst := {file, file + ".json"}]);
      Ships(w0, w1, pool.workers, src, dst, session, file, m);
    }

    /** The source's session is on the destination in a capsule, and nothing else of either has changed. */
    ghost predicate Shipped(w0: map<Key, Worker<C>>, w: map<Key, Worker<C>>, src: Key, dst: Key, session: string, file: string, m: Manifest) {
      && src in w0 && dst in w0 && src in w && dst in w && Describes(m, w0[src], session)
      && Arrived(w0[dst], w[dst], file, m) && w[src] == w0[src].(files := w[src].files)
    }

    lemma Ships(w0: map<Key, Worker<C>>, w1: map<Key, Worker<C>>, w2: map<Key, Worker<C>>, src: Key, dst: Key, session: string, file: string, m: Manifest)
      requires src in w0 && dst in w0 && src != dst && dst in w1 && src in w1 && w1[dst] == w0[dst] && w1[src] == w0[src].(files := w1[src].files)
      requires Describes(m, w0[src], session) && Evolved(w1, w2, {dst}, map[dst := {file, file + ".json"}])
      ensures Arrived(w1[dst], w2[dst], file, m) ==> Shipped(w0, w2, src, dst, session, file, m)
    {
    }

    /** Move the session from one full-model worker to another; the second continues without replaying the prompt. */
    method Handover(e0: Endpoint, e1: Endpoint, session: string, file: string, position: nat, ghost S: seq<C>, ghost good: bool,
                    ghost t0: nat, ghost w0: map<Key, Worker<C>>)
      returns (r: Result<()>)
      requires pool.Valid() && Faithful(pool.codec) && session != "" && |S| == LAYERS && KeyOf(e0) != KeyOf(e1)
      requires e0.identity.span.Whole? && e1.identity.span.Whole? && KeyOf(e0) in pool.workers && Matches(pool.workers, e1) && Chain([e1])
      requires OnTrack(pool.workers[KeyOf(e0)], e0, session, position, S)
      requires good ==> Bounded(pool.codec) && pool.workers[KeyOf(e0)].session == session && Unused(pool.workers[KeyOf(e1)], file)
      requires t0 <= pool.ticks && Framed(w0, pool.workers, {KeyOf(e0), KeyOf(e1)})
      modifies pool`ticks, pool`workers, pool.tracker`capsuleFiles
      ensures pool.Valid() && Framed(w0, pool.workers, {KeyOf(e0), KeyOf(e1)})
      ensures r.Ok? ==> Seated(pool.workers, [e1], session, position, S)
      ensures r.Ok? ==> KeyOf(e0) in pool.workers && pool.workers[KeyOf(e0)].session in {"", session}
      ensures t0 <= pool.ticks && (r.Ok? && old(Held()) ==> Held())
      ensures good && Undisturbed(t0) ==> r.Ok?
    {
      var k0, k1 := KeyOf(e0), KeyOf(e1);
      ghost var w1 := pool.workers;
      assert S[0..LAYERS] == S;
      ghost var m;
      r, m := Transfer(k0, k1, session, file, e0.identity, good);
      FramedStep(w0, w1, pool.workers, {k0, k1}, {k0, k1}, map[]);
      if r.Err? {
        return;
      }
      r := TakeOver(e0, e1, session, file, position, S, m, t0, w0);
    }

    /** The second worker loads the capsule. */
    method TakeOver(ghost e0: Endpoint, e: Endpoint, session: string, file: string, position: nat, ghost S: seq<C>, ghost m: Manifest,
                    ghost t0: nat, ghost w0: map<Key, Worker<C>>) returns (r: Result<()>)
      requires pool.Valid() && Faithful(pool.codec) && session != "" && |S| == LAYERS && e.identity.span.Whole? && Chain([e]) && t0 <= pool.ticks
      requires KeyOf(e) in pool.workers && pool.workers[KeyOf(e)].identity == e.identity && Clean(pool.workers[KeyOf(e)])
      requires Arrived(pool.workers[KeyOf(e)], pool.workers[KeyOf(e)], file, m)
      requires m.session == session && m.position == position && m.sha == pool.codec.sha(pool.codec.save(S))
      requires KeyOf(e0) != KeyOf(e) && Framed(w0, pool.workers, {KeyOf(e0), KeyOf(e)})
      requires KeyOf(e0) in pool.workers && pool.workers[KeyOf(e0)].session in {"", session}
      modifies pool`ticks, pool`workers
      ensures pool.Valid() && Framed(w0, pool.workers, {KeyOf(e0), KeyOf(e)})
      ensures r.Ok? ==> Seated(pool.workers, [e], session, position, S)
      ensures KeyOf(e0) in pool.workers && pool.workers[KeyOf(e0)].session in {"", session}
      ensures Ran(t0, r.Ok?) && (r.Ok? && old(Held()) ==> Held())
    {
      ghost var w1 := pool.workers;
      r := LoadCapsule(e, session, file, position, S, m, t0);
      FramedStep(w0, w1, pool.workers, {KeyOf(e0), KeyOf(e)}, {KeyOf(e)}, map[]);
    }

    method LoadCapsule(e: Endpoint, session: string, file: string, position: nat, ghost S: seq<C>, ghost m: Manifest, ghost t0: nat) returns (r: Result<()>)
      requires pool.Valid() && Faithful(pool.codec) && session != "" && |S| == LAYERS && e.identity.span.Whole? && Chain([e]) && t0 <= pool.ticks
      requires KeyOf(e) in pool.workers && pool.workers[KeyOf(e)].identity == e.identity && Clean(pool.workers[KeyOf(e)])
      requires Arrived(pool.workers[KeyOf(e)], pool.workers[KeyOf(e)], file, m)
      requires m.session == session && m.position == position && m.sha == pool.codec.sha(pool.codec.save(S))
      modifies pool`ticks, pool`workers
      ensures pool.Valid() && Evolved(old(pool.workers), pool.workers, {KeyOf(e)}, map[])
      ensures r.Ok? ==> Seated(pool.workers, [e], session, position, S)
      ensures Ran(t0, r.Ok?) && (r.Ok? && old(Held()) ==> Held())
    {
      var k := KeyOf(e);
      ghost var w1 := pool.workers;
      assert S[0..LAYERS] == S && WorkerOk(pool.nets, w1[k]);
      assert w1[k].files[file] == pool.codec.save(S);
      var imported := pool.Import(k, session, file);
      if imported.Err? || imported.value != position {
        return Err;
      }
      HeldStays(w1, pool.workers, pool.tracker.capsuleFiles);
      r := Ok(());
    }

    method DeleteFiles(k: Key, session: string, files: set<string>) returns (failures: nat)
      requires pool.Valid()
      modifies pool`ticks, pool`workers
      ensures pool.Valid() && Evolved(old(pool.workers), pool.workers, {k}, map[])
      ensures failures == 0 && k in pool.workers ==> pool.workers[k].files.Keys !! files
      ensures old(pool.ticks) <= pool.ticks
      ensures k in old(pool.workers) && files <= old(pool.workers)[k].files.Keys && pool.Calm(old(pool.ticks), pool.ticks) ==>
                failures == 0 && pool.workers[k].session == old(pool.workers)[k].session
    {
      failures := 0;
      ghost var t0, w0 := pool.ticks, pool.workers;
      var todo := files;
      while todo != {}
        invariant todo <= files && pool.Valid() && Evolved(w0, pool.workers, {k}, map[]) && t0 <= pool.ticks
        invariant failures == 0 && k in pool.workers ==> pool.workers[k].files.Keys !! files - todo
        invariant k in w0 && files <= w0[k].files.Keys && pool.Calm(t0, pool.ticks) ==>
                    failures == 0 && pool.workers[k].session == w0[k].session && todo <= pool.workers[k].files.Keys
      {
        ghost var w1 := pool.workers;
        var f :| f in todo;
        var deleted := pool.StateDelete(k, session, f);
        EvolvedStep(w0, w1, pool.workers, {k}, {k}, map[], map[]);
        if deleted.Err? || !deleted.value {
          failures := failures + 1;
        }
        todo := todo - {f};
      }
    }

    /** Delete the tracked files of one worker, reset it, and ask it whether it is empty. */
    method CleanEndpoint(k: Key, session: string, files: set<string>) returns (failures: nat)
      requires pool.Valid()
      modifies pool`ticks, pool`workers
      ensures pool.Valid() && Evolved(old(pool.workers), pool.workers, {k}, map[])
      ensures failures == 0 ==> k in pool.workers && Clean(pool.workers[k]) && pool.workers[k].files.Keys !! files
      ensures old(pool.ticks) <= pool.ticks
      ensures k in old(pool.workers) && old(pool.workers)[k].session in {"", session} && files <= old(pool.workers)[k].files.Keys ==>
                Ran(old(pool.ticks), failures == 0)
    {
      ghost var t0, w0 := pool.ticks, pool.workers;
      failures := DeleteFiles(k, session, files);
      ghost var w1 := pool.workers;
      var reset := pool.Reset(k, session);
      EvolvedStep(w0, w1, pool.workers, {k}, {k}, map[], map[]);
      if reset.Err? {
        return failures + 1;
      }
      var status := pool.ReadStatus(k);
      if status.Err? || status.value.session != "" || status.value.position != 0 {
        return failures + 1;
      }
    }

    /** How the cleanup stands before the i-th endpoint. */
    ghost predicate Cleaning(t0: nat, w0: map<Key, Worker<C>>, tracked: map<Key, set<string>>, es: seq<Endpoint>, session: string, i: nat, failures: nat)
      reads pool`ticks, pool`workers
    {
      && t0 <= pool.ticks && Evolved(w0, pool.workers, KeysOf(es), map[]) && Untouched(w0, pool.workers, es, i) && i <= |es|
      && (failures == 0 ==> forall j :: 0 <= j < i ==> Emptied(pool.workers, KeyOf(es[j]), tracked))
      && (AllHeld(w0, tracked) && InReach(w0, es, session) && pool.Calm(t0, pool.ticks) ==> failures == 0)
    }

    method CleanNext(es: seq<Endpoint>, session: string, i: nat, failures: nat, ghost t0: nat, ghost w0: map<Key, Worker<C>>) returns (all: nat)
      requires pool.Valid() && DistinctKeys(es, |es|) && i < |es| && Cleaning(t0, w0, pool.tracker.capsuleFiles, es, session, i, failures)
      modifies pool`ticks, pool`workers
      ensures pool.Valid() && Cleaning(t0, w0, pool.tracker.capsuleFiles, es, session, i + 1, all)
    {
      ghost var w1 := pool.workers;
      var k := KeyOf(es[i]);
      var failed := CleanEndpoint(k, session, Owned(pool.tracker.capsuleFiles, k));
      assert {k} <= KeysOf(es);
      EvolvedStep(w0, w1, pool.workers, KeysOf(es), {k}, map[], map[]);
      UntouchedStep(w0, w1, pool.workers, es, i);
      if failures == 0 && failed == 0 {
        EmptiedStep(w1, pool.workers, es, i, pool.tracker.capsuleFiles);
      }
      all := failures + failed;
    }

    /** Every endpoint, whatever happened to the ones before it. */
    method Cleanup(es: seq<Endpoint>, session: string) returns (failures: nat)
      requires pool.Valid() && DistinctKeys(es, |es|)
      modifies pool`ticks, pool`workers
      ensures pool.Valid() && Evolved(old(pool.workers), pool.workers, KeysOf(es), map[])
      ensures failures == 0 ==> forall i :: 0 <= i < |es| ==> Emptied(pool.workers, KeyOf(es[i]), pool.tracker.capsuleFiles)
      ensures old(pool.ticks) <= pool.ticks && (old(Held()) && InReach(old(pool.workers), es, session) ==> Ran(old(pool.ticks), failures == 0))
    {
      failures := 0;
      ghost var t0, w0 := pool.ticks, pool.workers;
      for i := 0 to |es|
        invariant pool.Valid() && Cleaning(t0, w0, pool.tracker.capsuleFiles, es, session, i, failures)
      {
        failures := CleanNext(es, session, i, failures, t0, w0);
      }
    }

    /** Stages: the same chain evaluates the prompt and decodes. */
    method ProduceStaged(es: seq<Endpoint>, session: string, prompt: seq<nat>, maxTokens: nat, ghost net: Net<C, A>)
      returns (r: Result<Completion>)
      requires pool.Valid() && session != "" && prompt != [] && maxTokens > 0
      requires Usable(pool.nets, es, net) && At(net, pool.workers, es, session, [])
      modifies pool
      ensures pool.Valid() && Evolved(old(pool.workers), pool.workers, KeysOf(es), map[])
      ensures CallsWithin(old(pool.evals), pool.evals, KeysOf(es), 0, |prompt| + maxTokens - 1)
      ensures r.Ok? ==> r.value == Continuation(net, prompt, maxTokens)
      ensures Ran(old(pool.ticks), r.Ok?) && (r.Ok? ==> SameFiles(old(pool.workers), pool.workers) && InReach(pool.workers, es, session))
    {
      ghost var w0, log0 := pool.workers, pool.evals;
      var pick := Prefill(es, session, prompt, net);
      if pick.Err? {
        return Err;
      }
      ghost var script := ReferenceRun(net, prompt, maxTokens);
      ghost var w1, log1 := pool.workers, pool.evals;
      assert Meaning(net, script[0]);
      r := Decode(es, session, pick.value, |prompt|, maxTokens, net, prompt, script, Continuation(net, prompt, maxTokens));
      EvolvedStep(w0, w1, pool.workers, KeysOf(es), KeysOf(es), map[], map[]);
      CallsStep(log0, log1, pool.evals, KeysOf(es), KeysOf(es), 0, |prompt|, |prompt| + maxTokens - 1);
    }

    /** The prompt on a single full-model worker. */
    method PrefillAlone(e: Endpoint, session: string, prompt: seq<nat>, ghost net: Net<C, A>) returns (r: Result<Pick>)
      requires pool.Valid() && session != "" && prompt != []
      requires Usable(pool.nets, [e], net) && At(net, pool.workers, [e], session, [])
      modifies pool
      ensures pool.Valid() && Evolved(old(pool.workers), pool.workers, {KeyOf(e)}, map[])
      ensures CallsWithin(old(pool.evals), pool.evals, {KeyOf(e)}, 0, |prompt|)
      ensures Ran(old(pool.ticks), r.Ok?)
      ensures r.Ok? ==> At(net, pool.workers, [e], session, prompt) && r.value == NextPick(net, prompt)
      ensures r.Ok? ==> InSession(pool.workers, [e], session) && SameFiles(old(pool.workers), pool.workers)
    {
      assert KeysOf([e]) == {KeyOf(e)};
      r := Prefill([e], session, prompt, net);
    }

    /** Prefill on one full-model worker, hand the session over, decode on the other. */
    method ProduceMoved(e0: Endpoint, e1: Endpoint, session: string, file: string, prompt: seq<nat>, maxTokens: nat, ghost net: Net<C, A>, ghost good: bool)
      returns (r: Result<Completion>, ghost log: seq<EvalCall>)
      requires pool.Valid() && Faithful(pool.codec) && session != "" && prompt != [] && maxTokens > 0
      requires Usable(pool.nets, [e0], net) && Usable(pool.nets, [e1], net) && KeyOf(e0) != KeyOf(e1)
      requires e0.identity.span.Whole? && e1.identity.span.Whole? && Matches(pool.workers, e1)
      requires At(net, pool.workers, [e0], session, [])
      requires good ==> Bounded(pool.codec) && Unused(pool.workers[KeyOf(e1)], file)
      modifies pool, pool.tracker`capsuleFiles
      ensures pool.Valid() && Framed(old(pool.workers), pool.workers, {KeyOf(e0), KeyOf(e1)})
      ensures CallsWithin(old(pool.evals), log, {KeyOf(e0)}, 0, |prompt|)
      ensures CallsWithin(log, pool.evals, {KeyOf(e1)}, |prompt|, |prompt| + maxTokens - 1)
      ensures r.Ok? ==> r.value == Continuation(net, prompt, maxTokens)
      ensures old(pool.ticks) <= pool.ticks && (r.Ok? && old(Held()) ==> Held()) && (r.Ok? ==> InReach(pool.workers, [e0, e1], session))
      ensures good && Undisturbed(old(pool.ticks)) ==> r.Ok?
    {
      ghost var t0, w0 := pool.ticks, pool.workers;
      var pick := PrefillAlone(e0, session, prompt, net);
      ghost var w1 := pool.workers;
      log := pool.evals;
      EvolvedFramed(w0, w1, {KeyOf(e0)}, map[], {KeyOf(e0), KeyOf(e1)});
      assert w1[KeyOf(e1)] == w0[KeyOf(e1)];
      if pick.Err? {
        return Err, log;
      }
      HeldStays(w0, w1, pool.tracker.capsuleFiles);
      ghost var script := ReferenceRun(net, prompt, maxTokens);
      assert Meaning(net, script[0]) && KeyOf([e0][0]) in w1 && OnTrack(w1[KeyOf([e0][0])], e0, session, |prompt|, script[0].caches);
      r := FinishMoved(e0, e1, session, file, pick.value, |prompt|, maxTokens, net, prompt, script, Continuation(net, prompt, maxTokens), good, t0, w0);
    }

    method FinishMoved(e0: Endpoint, e1: Endpoint, session: string, file: string, first: Pick, promptSize: nat, maxTokens: nat,
                       ghost net: Net<C, A>, ghost prompt: seq<nat>, ghost script: seq<Entry<C>>, ghost all: Completion, ghost good: bool,
                       ghost t0: nat, ghost w0: map<Key, Worker<C>>)
      returns (r: Result<Completion>)
      requires KeyOf(e0) in pool.workers && t0 <= pool.ticks && Framed(w0, pool.workers, {KeyOf(e0), KeyOf(e1)})
      requires pool.Valid() && Faithful(pool.codec) && session != "" && promptSize == |prompt| && maxTokens > 0 && KeyOf(e1) in pool.workers
      requires good ==> Bounded(pool.codec) && pool.workers[KeyOf(e0)].session == session && Unused(pool.workers[KeyOf(e1)], file)
      requires Usable(pool.nets, [e1], net) && KeyOf(e0) != KeyOf(e1)
      requires e0.identity.span.Whole? && e1.identity.span.Whole? && Matches(pool.workers, e1)
      requires Script(net, script, prompt, maxTokens, all) && |script[0].caches| == LAYERS
      requires OnTrack(pool.workers[KeyOf(e0)], e0, session, promptSize, script[0].caches) && first == script[0].pick
      modifies pool, pool.tracker`capsuleFiles
      ensures pool.Valid() && Framed(w0, pool.workers, {KeyOf(e0), KeyOf(e1)})
      ensures CallsWithin(old(pool.evals), pool.evals, {KeyOf(e1)}, promptSize, promptSize + maxTokens - 1)
      ensures r.Ok? ==> r.value == all
      ensures t0 <= pool.ticks && (r.Ok? && old(Held()) ==> Held()) && (r.Ok? ==> InReach(pool.workers, [e0, e1], session))
      ensures good && Undisturbed(t0) ==> r.Ok?
    {
      var moved := Handover(e0, e1, session, file, promptSize, script[0].caches, good, t0, w0);
      if moved.Err? {
        return Err;
      }
      r := DecodeMoved(e0, e1, session, first, promptSize, maxTokens, net, prompt, script, all, t0, w0);
    }

    method DecodeMoved(e0: Endpoint, e1: Endpoint, session: string, first: Pick, promptSize: nat, maxTokens: nat,
                       ghost net: Net<C, A>, ghost prompt: seq<nat>, ghost script: seq<Entry<C>>, ghost all: Completion,
                       ghost t0: nat, ghost w0: map<Key, Worker<C>>)
      returns (r: Result<Completion>)
      requires t0 <= pool.ticks && Framed(w0, pool.workers, {KeyOf(e0), KeyOf(e1)})
      requires pool.Valid() && session != "" && promptSize == |prompt| && maxTokens > 0 && Usable(pool.nets, [e1], net) && KeyOf(e0) != KeyOf(e1)
      requires KeyOf(e0) in pool.workers && pool.workers[KeyOf(e0)].session in {"", session}
      requires Script(net, script, prompt, maxTokens, all) && |script[0].caches| == LAYERS
      requires Seated(pool.workers, [e1], session, promptSize, script[0].caches) && first == script[0].pick
      modifies pool
      ensures pool.Valid() && Framed(w0, pool.workers, {KeyOf(e0), KeyOf(e1)})
      ensures CallsWithin(old(pool.evals), pool.evals, {KeyOf(e1)}, promptSize, promptSize + maxTokens - 1)
      ensures r.Ok? ==> r.value == all && InReach(pool.workers, [e0, e1], session)
      ensures Ran(t0, r.Ok?) && (r.Ok? && old(Held()) ==> Held())
    {
      ghost var w1 := pool.workers;
      assert KeysOf([e1]) == {KeyOf(e1)};
      r := Decode([e1], session, first, promptSize, maxTokens, net, prompt, script, all);
      FramedStep(w0, w1, pool.workers, {KeyOf(e0), KeyOf(e1)}, {KeyOf(e1)}, map[]);
      if r.Ok? {
        BothInReach(w1, pool.workers, e0, e1, session);
        HeldStays(w1, pool.workers, pool.tracker.capsuleFiles);
      }
    }

    /** What the evaluation of a generation leaves and returns. */
    ghost predicate Produced(c: Case<C>, t1: nat, w1: map<Key, Worker<C>>, log1: seq<EvalCall>, prompt: seq<nat>, r: Result<Completion>)
      requires |c.plan.endpoints| >= 2
    {
      && Framed(c.workers, w1, KeysOf(c.plan.endpoints)) && c.ticks <= t1 && CallsFit(c.evals, log1, c.plan, |prompt|)
      && (r.Ok? ==> Completed(pool.nets, c.plan, c.request, prompt, r.value))
      && (c.ready && Smooth(c.plan, c.ticks, t1) ==> r.Ok? && prompt == c.told)
    }

    method ProduceStages(ghost c: Case<C>, plan: Plan, q: Request, session: string, prompt: seq<nat>) returns (r: Result<Completion>)
      requires pool.Valid() && session != "" && Admissible(plan) && plan.mode.Stages? && ValidRequest(q) && FitsPrompt(plan, q, prompt)
      requires Held() && Begins(c, plan, q) && AllMatch(pool.workers, plan.endpoints) && (c.ready && Smooth(plan, c.ticks, pool.ticks) ==> prompt == c.told)
      modifies pool
      ensures pool.Valid() && Produced(c, pool.ticks, pool.workers, pool.evals, prompt, r)
      ensures r.Ok? ==> Held() && InReach(pool.workers, plan.endpoints, session)
    {
      ghost var net := pool.nets(plan.endpoints[0].identity.source);
      StagesBegin(pool.nets, plan, net, pool.workers, session);
      ghost var t0 := pool.ticks;
      r := ProduceStaged(plan.endpoints, session, prompt, q.maxTokens, net);
      StagesProduce(c, t0, pool.ticks, pool.workers, pool.evals, prompt, r);
      if r.Ok? {
        HeldStays(c.workers, pool.workers, pool.tracker.capsuleFiles);
      }
    }

    lemma StagesProduce(c: Case<C>, t0: nat, t1: nat, w1: map<Key, Worker<C>>, log1: seq<EvalCall>, prompt: seq<nat>, r: Result<Completion>)
      requires |c.plan.endpoints| >= 2 && c.plan.mode.Stages? && c.request.maxTokens > 0 && FitsPrompt(c.plan, c.request, prompt) && c.ticks <= t0 <= t1
      requires Evolved(c.workers, w1, KeysOf(c.plan.endpoints), map[])
      requires CallsWithin(c.evals, log1, KeysOf(c.plan.endpoints), 0, |prompt| + c.request.maxTokens - 1)
      requires r.Ok? ==> r.value == Continuation(pool.nets(c.plan.endpoints[0].identity.source), prompt, c.request.maxTokens)
      requires (pool.Calm(t0, t1) ==> r.Ok?) && (c.ready && Smooth(c.plan, c.ticks, t0) ==> prompt == c.told)
      ensures Produced(c, t1, w1, log1, prompt, r)
    {
      EvolvedFramed(c.workers, w1, KeysOf(c.plan.endpoints), map[], KeysOf(c.plan.endpoints));
    }

    method ProducePair(ghost c: Case<C>, plan: Plan, q: Request, session: string, file: string, prompt: seq<nat>) returns (r: Result<Completion>)
      requires pool.Valid() && Faithful(pool.codec) && session != "" && Admissible(plan) && plan.mode.PrefillDecode? && ValidRequest(q) && FitsPrompt(plan, q, prompt)
      requires Held() && Begins(c, plan, q) && AllMatch(pool.workers, plan.endpoints) && (c.ready && Smooth(plan, c.ticks, pool.ticks) ==> prompt == c.told)
      requires c.ready ==> Movable(plan, file)
      modifies pool, pool.tracker`capsuleFiles
      ensures pool.Valid() && Produced(c, pool.ticks, pool.workers, pool.evals, prompt, r)
      ensures r.Ok? ==> Held() && InReach(pool.workers, plan.endpoints, session)
    {
      ghost var net := pool.nets(plan.endpoints[0].identity.source);
      AdmissibleUsable(pool.nets, plan, net);
      CleanIsAt(pool.nets, net, pool.workers, PrefillEndpoints(plan), session);
      assert plan.endpoints == [plan.endpoints[0], plan.endpoints[1]];
      ghost var log1;
      r, log1 := ProduceMoved(plan.endpoints[0], plan.endpoints[1], session, file, prompt, q.maxTokens, net, c.ready);
      CallsJoin(c.evals, log1, pool.evals, plan, |prompt|, q.maxTokens);
    }

    method Produce(ghost c: Case<C>, plan: Plan, q: Request, session: string, file: string, prompt: seq<nat>) returns (r: Result<Completion>)
      requires pool.Valid() && Faithful(pool.codec) && session != "" && Admissible(plan) && ValidRequest(q) && FitsPrompt(plan, q, prompt)
      requires Held() && Begins(c, plan, q) && AllMatch(pool.workers, plan.endpoints) && (c.ready && Smooth(plan, c.ticks, pool.ticks) ==> prompt == c.told)
      requires c.ready ==> Movable(plan, file)
      modifies pool, pool.tracker`capsuleFiles
      ensures pool.Valid() && Produced(c, pool.ticks, pool.workers, pool.evals, prompt, r)
      ensures r.Ok? ==> Held() && InReach(pool.workers, plan.endpoints, session)
    {
      if plan.mode.Stages? {
        r := ProduceStages(c, plan, q, session, prompt);
      } else {
        r := ProducePair(c, plan, q, session, file, prompt);
      }
    }

    /** A capsule can be moved: it keeps to its bounds, and its files are new to the second worker. */
    ghost predicate Movable(plan: Plan, file: string)
      reads pool`workers
    {
      plan.mode.PrefillDecode? ==>
        && Bounded(pool.codec) && |plan.endpoints| == 2
        && KeyOf(plan.endpoints[1]) in pool.workers && Unused(pool.workers[KeyOf(plan.endpoints[1])], file)
    }

    /** Nothing the plan relies on fails from one command to another. */
    ghost predicate Smooth(plan: Plan, from: nat, to: nat) {
      pool.Calm(from, to) && (plan.mode.PrefillDecode? ==> pool.Honest(from, to))
    }

    ghost predicate Smoothly(plan: Plan, t0: nat)
      reads pool`ticks
    {
      Smooth(plan, t0, pool.ticks)
    }

    /** What the first worker will answer to the request to tokenize. */
    ghost function Told(plan: Plan): seq<nat>
      reads pool`ticks
    {
      pool.tokenizer(pool.ticks + |plan.endpoints| + 1)
    }

    /** The workers are as the plan says and idle, the binaries are a qualified pair, the prompt's tokens fit, and a capsule can be moved. */
    ghost predicate Ready(plan: Plan, q: Request, file: string)
      reads pool`ticks, pool`workers
    {
      && AllMatch(pool.workers, plan.endpoints) && Paired(plan) && Movable(plan, file)
      && plan.endpoints != [] && FitsPrompt(plan, q, Told(plan))
    }

    /** The checks before anything is changed, and the prompt's tokens. */
    method Begin(plan: Plan, q: Request, ghost ready: bool) returns (tokens: Result<seq<nat>>)
      requires pool.Valid() && Admissible(plan)
      requires ready ==> AllMatch(pool.workers, plan.endpoints) && Paired(plan) && FitsPrompt(plan, q, Told(plan))
      modifies pool`ticks, pool.tracker
      ensures pool.tracker.found == FilesOf(old(pool.workers))
      ensures pool.Valid() && Held()
      ensures tokens.Ok? ==> AllMatch(pool.workers, plan.endpoints) && FitsPrompt(plan, q, tokens.value)
      ensures old(pool.ticks) <= pool.ticks
      ensures ready && pool.Calm(old(pool.ticks), pool.ticks) ==> tokens == Ok(old(Told(plan)))
    {
      pool.Open();
      var prepared := Prepare(plan, ready);
      if prepared.Err? {
        return Err;
      }
      tokens := TokenizePrompt(plan, q, ready, old(Told(plan)));
    }

    method TokenizePrompt(plan: Plan, q: Request, ghost ready: bool, ghost told: seq<nat>) returns (tokens: Result<seq<nat>>)
      requires plan.endpoints != [] && (ready ==> FitsPrompt(plan, q, told) && told == pool.tokenizer(pool.ticks + 1))
      modifies pool`ticks
      ensures pool.ticks == old(pool.ticks) + 1 && (tokens.Ok? ==> FitsPrompt(plan, q, tokens.value))
      ensures ready && pool.Calm(old(pool.ticks), pool.ticks) ==> tokens == Ok(told)
    {
      tokens := pool.Tokenize(KeyOf(plan.endpoints[0]), q.prompt);
      if tokens.Err? || !FitsPrompt(plan, q, tokens.value) {
        return Err;
      }
    }

    /**
     One generation. It holds the deployment's lease for its whole duration; a normal return is exactly the
     whole model's greedy completion; and unless the deployment ends up marked unsafe, its workers are as
     empty as before, whichever command failed. What it does is a fair run of the lease protocol.
     */
    method Generate(plan: Plan, q: Request, session: string, file: string) returns (r: Result<Completion>, ghost prompt: seq<nat>)
      requires pool.Valid() && Faithful(pool.codec) && session != ""
      modifies this, pool, pool.tracker
      ensures pool.Valid() && active == old(active)
      ensures unsafe == old(unsafe) || unsafe == old(unsafe) + {plan.deployment}
      ensures !Admissible(plan) || !ValidRequest(q) || plan.deployment in old(active) || plan.deployment in old(unsafe) ==>
          r.Err? && unsafe == old(unsafe) && pool.workers == old(pool.workers) && pool.evals == old(pool.evals)
      ensures r.Ok? ==> Admissible(plan) && ValidRequest(q) && unsafe == old(unsafe) && Completed(pool.nets, plan, q, prompt, r.value)
      ensures plan.deployment !in unsafe && Admissible(plan) ==> LeftClean(old(pool.workers), pool.workers, plan.endpoints)
      ensures forall k :: k in old(pool.workers) && k !in KeysOf(plan.endpoints) ==> k in pool.workers && pool.workers[k] == old(pool.workers)[k]
      ensures Admissible(plan) ==> CallsFit(old(pool.evals), pool.evals, plan, |prompt|)
      ensures Refinement.Reaches(old(LeaseView(plan)), LeaseView(plan))
      ensures (&& Admissible(plan) && ValidRequest(q) && plan.deployment !in old(active) && plan.deployment !in old(unsafe)
               && old(Ready(plan, q, file)) && Smoothly(plan, old(pool.ticks))) ==> r.Ok? && prompt == old(Told(plan))
    {
      prompt := [];
      Refinement.Stays(LeaseView(plan));
      var admitted := ValidatePlan(plan);
      if !admitted || !ValidRequest(q) || plan.deployment in active || plan.deployment in unsafe {
        return Err, [];
      }
      active := active + {plan.deployment};
      var clean;
      ghost var c := Case(plan, q, pool.ticks, pool.workers, pool.evals, old(active), unsafe, Ready(plan, q, file), Told(plan));
      r, clean, prompt := Run(c, plan, q, session, file);
      if !clean {
        unsafe := unsafe + {plan.deployment};
        r := Err;
      }
      active := active - {plan.deployment};
      assert active == old(active);
    }

    /** What an admitted generation leaves and returns. */
    ghost predicate Ended(c: Case<C>, t1: nat, w1: map<Key, Worker<C>>, log1: seq<EvalCall>, prompt: seq<nat>, r: Result<Completion>, clean: bool)
      requires |c.plan.endpoints| >= 2
    {
      && Framed(c.workers, w1, KeysOf(c.plan.endpoints)) && c.ticks <= t1 && CallsFit(c.evals, log1, c.plan, |prompt|)
      && (r.Ok? ==> Completed(pool.nets, c.plan, c.request, prompt, r.value))
      && (clean ==> LeftClean(c.workers, w1, c.plan.endpoints)) && Reached(c.workers, w1, c.plan, c.active, c.unsafe, clean)
      && (c.ready && Smooth(c.plan, c.ticks, t1) ==> r.Ok? && clean && prompt == c.told)
    }

    lemma NothingDone(c: Case<C>, t1: nat)
      requires |c.plan.endpoints| >= 2 && c.ticks <= t1 && !(c.ready && Smooth(c.plan, c.ticks, t1))
      ensures Ended(c, t1, c.workers, c.evals, [], Err, true)
    {
      Refinement.Stays(Refinement.View(c.active, c.unsafe, c.plan.deployment, Refinement.Bank(c.workers, c.plan.endpoints)));
    }

    /** The work of an admitted generation and its cleanup. */
    method Run(ghost c: Case<C>, plan: Plan, q: Request, session: string, file: string)
      returns (r: Result<Completion>, clean: bool, ghost prompt: seq<nat>)
      requires pool.Valid() && Faithful(pool.codec) && session != "" && Admissible(plan) && ValidRequest(q)
      requires Begins(c, plan, q) && (c.ready ==> Ready(plan, q, file) && c.told == Told(plan))
      modifies pool, pool.tracker
      ensures pool.Valid() && Ended(c, pool.ticks, pool.workers, pool.evals, prompt, r, clean)
    {
      var tokens := Begin(plan, q, c.ready);
      if tokens.Err? {
        NothingDone(c, pool.ticks);
        return Err, true, [];
      }
      prompt := tokens.value;
      r, clean := Finish(c, plan, q, session, file, tokens.value);
    }

    ghost predicate Begins(c: Case<C>, plan: Plan, q: Request)
      reads pool`workers, pool`evals, pool`ticks
    {
      && c.plan == plan && c.request == q && c.workers == pool.workers && c.evals == pool.evals && c.ticks <= pool.ticks
      && plan.deployment !in c.active && plan.deployment !in c.unsafe
    }

    /** To the lease protocol the generation was a run that ends unsafe exactly if the workers are not clean. */
    ghost predicate Reached(w0: map<Key, Worker<C>>, w1: map<Key, Worker<C>>, plan: Plan, active0: set<string>, unsafe0: set<string>, clean: bool) {
      Refinement.Reaches(
        Refinement.View(active0, unsafe0, plan.deployment, Refinement.Bank(w0, plan.endpoints)),
        Refinement.View(active0, if clean then unsafe0 else unsafe0 + {plan.deployment}, plan.deployment, Refinement.Bank(w1, plan.endpoints)))
    }

    /** From the first evaluation to the last reset. */
    method Finish(ghost c: Case<C>, plan: Plan, q: Request, session: string, file: string, prompt: seq<nat>)
      returns (r: Result<Completion>, clean: bool)
      requires pool.Valid() && Faithful(pool.codec) && session != "" && Admissible(plan) && ValidRequest(q) && FitsPrompt(plan, q, prompt)
      requires Begins(c, plan, q) && (c.ready ==> Movable(plan, file)) && (c.ready && Smooth(plan, c.ticks, pool.ticks) ==> prompt == c.told)
      requires Held() && AllMatch(pool.workers, plan.endpoints) && pool.tracker.found == FilesOf(pool.workers)
      modifies pool, pool.tracker`capsuleFiles
      ensures pool.Valid() && Ended(c, pool.ticks, pool.workers, pool.evals, prompt, r, clean)
    {
      r := Produce(c, plan, q, session, file, prompt);
      clean := Conclude(c, plan, session, prompt, r);
    }

    method Conclude(ghost c: Case<C>, plan: Plan, session: string, ghost prompt: seq<nat>, ghost r: Result<Completion>) returns (clean: bool)
      requires pool.Valid() && Admissible(plan) && c.plan == plan && plan.deployment !in c.active && plan.deployment !in c.unsafe
      requires AllMatch(c.workers, plan.endpoints) && pool.tracker.found == FilesOf(c.workers)
      requires Produced(c, pool.ticks, pool.workers, pool.evals, prompt, r) && (r.Ok? ==> Held() && InReach(pool.workers, plan.endpoints, session))
      modifies pool`ticks, pool`workers
      ensures pool.Valid() && Ended(c, pool.ticks, pool.workers, pool.evals, prompt, r, clean)
    {
      ghost var t1, w1 := pool.ticks, pool.workers;
      clean := Restore(plan, session, c.workers, c.active, c.unsafe);
      Ends(c, t1, pool.ticks, w1, pool.workers, pool.evals, prompt, r, clean);
    }

    lemma Ends(c: Case<C>, t1: nat, t2: nat, w1: map<Key, Worker<C>>, w2: map<Key, Worker<C>>, log: seq<EvalCall>, prompt: seq<nat>,
               r: Result<Completion>, clean: bool)
      requires |c.plan.endpoints| >= 2 && t1 <= t2 && Produced(c, t1, w1, log, prompt, r) && Framed(c.workers, w2, KeysOf(c.plan.endpoints))
      requires (clean ==> LeftClean(c.workers, w2, c.plan.endpoints)) && Reached(c.workers, w2, c.plan, c.active, c.unsafe, clean)
      requires r.Ok? && pool.Calm(t1, t2) ==> clean
      ensures Ended(c, t2, w2, log, prompt, r, clean)
    {
    }

    /** The cleanup of a generation that began on the workers w0. */
    method Restore(plan: Plan, session: string, ghost w0: map<Key, Worker<C>>, ghost active0: set<string>, ghost unsafe0: set<string>) returns (clean: bool)
      requires pool.Valid() && Admissible(plan) && plan.deployment !in active0 && plan.deployment !in unsafe0
      requires AllMatch(w0, plan.endpoints)
      requires Framed(w0, pool.workers, KeysOf(plan.endpoints)) && pool.tracker.found == FilesOf(w0)
      modifies pool`ticks, pool`workers
      ensures pool.Valid() && pool.evals == old(pool.evals) && Framed(w0, pool.workers, KeysOf(plan.endpoints))
      ensures clean ==> LeftClean(w0, pool.workers, plan.endpoints)
      ensures old(pool.ticks) <= pool.ticks && (old(Held()) && InReach(old(pool.workers), plan.endpoints, session) ==> Ran(old(pool.ticks), clean))
      ensures Reached(w0, pool.workers, plan, active0, unsafe0, clean)
    {
      ghost var w1, es := pool.workers, plan.endpoints;
      var failures := Cleanup(plan.endpoints, session);
      clean := failures == 0;
      Restores(plan, session, w0, w1, pool.workers, active0, unsafe0, pool.tracker.capsuleFiles, clean);
    }

    lemma Restores(plan: Plan, session: string, w0: map<Key, Worker<C>>, w1: map<Key, Worker<C>>, w2: map<Key, Worker<C>>,
                   active0: set<string>, unsafe0: set<string>, tracked: map<Key, set<string>>, clean: bool)
      requires plan.deployment !in active0 && plan.deployment !in unsafe0 && |plan.endpoints| >= 2 && AllMatch(w0, plan.endpoints)
      requires Framed(w0, w1, KeysOf(plan.endpoints)) && Evolved(w1, w2, KeysOf(plan.endpoints), map[]) && Accounted(w1, FilesOf(w0), tracked)
      requires clean ==> forall i :: 0 <= i < |plan.endpoints| ==> Emptied(w2, KeyOf(plan.endpoints[i]), tracked)
      ensures Framed(w0, w2, KeysOf(plan.endpoints)) && (clean ==> LeftClean(w0, w2, plan.endpoints)) && Reached(w0, w2, plan, active0, unsafe0, clean)
    {
      FramedStep(w0, w1, w2, KeysOf(plan.endpoints), KeysOf(plan.endpoints), map[]);
      GenerationTold(w0, w1, w2, plan.endpoints, FilesOf(w0), tracked, clean);
      GenerationEnds(active0, unsafe0, plan.deployment, session, plan.endpoints, w0, w1, w2, tracked, clean);
    }

    /** Called once fresh workers are ready; refused while a generation holds the lease. */
    method AcknowledgeRecovery(deployment: string) returns (ok: bool)
      modifies this`unsafe
      ensures ok <==> deployment !in active
      ensures unsafe == if ok then old(unsafe) - {deployment} else old(unsafe)
    {
      if deployment in active {
        return false;
      }
      unsafe := unsafe - {deployment};
      ok := true;
    }
  }
}
