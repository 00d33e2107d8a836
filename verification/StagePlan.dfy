/** Admission of a native execution plan and of a generation request. */
module StagePlan {
  import opened Outcomes
  import opened LayerModel

  const BATCH: nat := 64
  const VOCAB: nat := 248320
  const CHUNK: nat := 262144
  const MAX_STATE: nat := 512 * 1024 * 1024
  const MAX_MANIFEST: nat := 16 * 1024 * 1024

  datatype Mode = Stages | PrefillDecode

  /** Layers a worker was started with: the full model, or the shard [start, end) of `total` layers. */
  datatype Span = Whole | Shard(start: int, end: int, total: int)

  datatype Identity = Identity(
    schema: int, engine: string, model: string, source: string, ctx: int,
    cacheK: string, cacheV: string, ubatch: int, flashAttn: string, span: Span)

  datatype Endpoint = Endpoint(nodeId: string, port: int, binary: string, identity: Identity)

  type Key = (string, int)

  datatype Qualification = Qualification(sourceBinary: string, targetBinary: string, evidence: string)

  datatype Plan = Plan(
    profile: string, deployment: string, mode: Mode, endpoints: seq<Endpoint>, qualification: Option<Qualification>)

  datatype Request = Request(prompt: string, maxTokens: int, temperature: Option<real>)

  function KeyOf(e: Endpoint): Key {
    (e.nodeId, e.port)
  }

  predicate IsSha(s: string) {
    |s| == 64 && forall i :: 0 <= i < |s| ==> ('a' <= s[i] <= 'f' || '0' <= s[i] <= '9')
  }

  function Lo(e: Endpoint): int {
    match e.identity.span case Whole => 0 case Shard(start, _, _) => start
  }

  function Hi(e: Endpoint): int {
    match e.identity.span case Whole => LAYERS case Shard(_, end, _) => end
  }

  predicate Qualified(i: Identity) {
    && i.schema == 1 && IsSha(i.engine) && IsSha(i.model) && IsSha(i.source)
    && 64 <= i.ctx <= 32768 && i.cacheK == "f32" && i.cacheV == "f32" && i.ubatch == 1 && i.flashAttn == "disabled"
  }

  predicate Compatible(e: Endpoint, first: Identity) {
    && e.nodeId != "" && 1024 <= e.port <= 65535 && IsSha(e.binary) && Qualified(e.identity)
    && e.identity.engine == first.engine && e.identity.source == first.source && e.identity.ctx == first.ctx
  }

  predicate Holds(e: Endpoint, layer: int) {
    Lo(e) <= layer < Hi(e)
  }

  ghost predicate Held(es: seq<Endpoint>, layer: int) {
    exists i :: 0 <= i < |es| && Holds(es[i], layer)
  }

  ghost predicate ShardOk(e: Endpoint) {
    e.identity.span.Shard? && e.identity.span.total == LAYERS && 0 <= Lo(e) < Hi(e) <= LAYERS
  }

  predicate FullModel(e: Endpoint, first: Identity) {
    e.identity.span.Whole? && e.identity.model == first.model && e.identity.model == e.identity.source
  }

  predicate Qualifies(q: Option<Qualification>) {
    q.Some? && IsSha(q.value.sourceBinary) && IsSha(q.value.targetBinary) && IsSha(q.value.evidence)
  }

  ghost predicate DistinctKeys(es: seq<Endpoint>, n: nat)
    requires n <= |es|
  {
    forall i, j :: 0 <= i < j < n ==> KeyOf(es[i]) != KeyOf(es[j])
  }

  /** The intended layout of a staged plan: each layer is held by exactly one endpoint, in endpoint order. */
  ghost predicate Partition(es: seq<Endpoint>) {
    && (forall i :: 0 <= i < |es| ==> ShardOk(es[i]))
    && (forall i, j :: 0 <= i < j < |es| ==> Hi(es[i]) <= Lo(es[j]))
    && (forall l :: 0 <= l < LAYERS ==> Held(es, l))
  }

  /** What an admitted plan promises, said without walking the endpoint list. */
  ghost predicate Admissible(plan: Plan) {
    var es := plan.endpoints;
    && plan.profile == "qwen35-2b-q8" && plan.deployment != ""
    && 2 <= |es| <= 3 && (plan.mode.PrefillDecode? ==> |es| == 2)
    && (forall i :: 0 <= i < |es| ==> Compatible(es[i], es[0].identity))
    && DistinctKeys(es, |es|)
    && (plan.mode.Stages? ==> Partition(es))
    && (plan.mode.PrefillDecode? ==>
          (forall i :: 0 <= i < |es| ==> FullModel(es[i], es[0].identity)) && Qualifies(plan.qualification))
  }

  /** Endpoints that hand activations on: the first starts at layer 0, the last ends at the top. */
  ghost predicate Chain(es: seq<Endpoint>) {
    && |es| > 0 && Lo(es[0]) == 0 && Hi(es[|es| - 1]) == LAYERS
    && (forall i :: 0 <= i < |es| ==> 0 <= Lo(es[i]) < Hi(es[i]) <= LAYERS)
    && (forall i, j :: 0 <= i < |es| && j == i + 1 && j < |es| ==> Hi(es[i]) == Lo(es[j]))
    && (forall i :: 0 <= i < |es| - 1 ==> Hi(es[i]) < LAYERS)
  }

  ghost predicate Contiguous(es: seq<Endpoint>, n: nat, boundary: int)
    requires n <= |es|
  {
    && (forall i :: 0 <= i < n ==> ShardOk(es[i]))
    && (forall i :: 0 < i < n ==> Lo(es[i]) == Hi(es[i - 1]))
    && (n > 0 ==> Lo(es[0]) == 0)
    && boundary == if n == 0 then 0 else Hi(es[n - 1])
  }

  lemma {:induction false} ContiguousOrdered(es: seq<Endpoint>, n: nat, boundary: int, i: nat, j: nat)
    requires n <= |es| && Contiguous(es, n, boundary) && i < j < n
    ensures Hi(es[i]) <= Lo(es[j])
    decreases j
  {
    if i < j - 1 {
      ContiguousOrdered(es, n, boundary, i, j - 1);
    }
  }

  lemma {:induction false} ContiguousFinds(es: seq<Endpoint>, n: nat, boundary: int, l: nat) returns (i: nat)
    requires n <= |es| && Contiguous(es, n, boundary) && l < boundary
    ensures i < n && Lo(es[i]) <= l < Hi(es[i])
    decreases n
  {
    if Lo(es[n - 1]) <= l {
      i := n - 1;
    } else {
      i := ContiguousFinds(es, n - 1, Lo(es[n - 1]), l);
    }
  }

  lemma ContiguousPartitions(es: seq<Endpoint>)
    requires |es| > 0 && Contiguous(es, |es|, LAYERS)
    ensures Partition(es) && Chain(es)
  {
    forall i, j | 0 <= i < j < |es| ensures Hi(es[i]) <= Lo(es[j]) {
      ContiguousOrdered(es, |es|, LAYERS, i, j);
    }
    forall l | 0 <= l < LAYERS ensures Held(es, l) {
      var i := ContiguousFinds(es, |es|, LAYERS, l);
      assert Holds(es[i], l);
    }
    forall i | 0 <= i < |es| - 1 ensures Hi(es[i]) < LAYERS {
      assert ShardOk(es[|es| - 1]) && Hi(es[i]) <= Lo(es[|es| - 1]);
    }
  }

  lemma PartitionIsContiguous(es: seq<Endpoint>)
    requires |es| > 0 && Partition(es)
    ensures Contiguous(es, |es|, LAYERS)
  {
    assert Held(es, 0) && Held(es, LAYERS - 1);
    var k :| 0 <= k < |es| && Holds(es[k], 0);
    assert ShardOk(es[0]) && ShardOk(es[k]);
    assert k == 0;
    var t :| 0 <= t < |es| && Holds(es[t], LAYERS - 1);
    assert ShardOk(es[t]) && ShardOk(es[|es| - 1]);
    assert t == |es| - 1;
    forall i | 0 < i < |es| ensures Lo(es[i]) == Hi(es[i - 1]) {
      var h := Hi(es[i - 1]);
      assert ShardOk(es[i]) && ShardOk(es[i - 1]) && h <= Lo(es[i]);
      assert Held(es, h);
      var m :| 0 <= m < |es| && Holds(es[m], h);
      assert ShardOk(es[m]);
      assert m == i;
    }
  }

  /** The running boundary of the source's loop and the partition of the layers are the same thing. */
  lemma ContiguousIsPartition(es: seq<Endpoint>)
    requires |es| > 0
    ensures Contiguous(es, |es|, LAYERS) <==> Partition(es)
    ensures Partition(es) ==> Chain(es)
  {
    if Partition(es) {
      PartitionIsContiguous(es);
    }
    if Contiguous(es, |es|, LAYERS) {
      ContiguousPartitions(es);
    }
  }

  predicate AllCompatible(es: seq<Endpoint>, n: nat, first: Identity)
    requires n <= |es|
  {
    forall i :: 0 <= i < n ==> Compatible(es[i], first)
  }

  predicate AllFull(es: seq<Endpoint>, n: nat, first: Identity)
    requires n <= |es|
  {
    forall i :: 0 <= i < n ==> FullModel(es[i], first)
  }

  /** validatePlan's pass over the endpoints: the running layer boundary and the keys seen. */
  method ValidateEndpoints(mode: Mode, es: seq<Endpoint>) returns (ok: bool)
    requires |es| > 0
    ensures ok <==>
        && AllCompatible(es, |es|, es[0].identity) && DistinctKeys(es, |es|)
        && (mode.Stages? ==> Contiguous(es, |es|, LAYERS)) && (mode.PrefillDecode? ==> AllFull(es, |es|, es[0].identity))
  {
    var first := es[0].identity;
    var boundary := 0;
    var seen: set<Key> := {};
    for i := 0 to |es|
      invariant AllCompatible(es, i, first)
      invariant DistinctKeys(es, i) && seen == (set j | 0 <= j < i :: KeyOf(es[j]))
      invariant mode.Stages? ==> Contiguous(es, i, boundary)
      invariant mode.PrefillDecode? ==> AllFull(es, i, first)
    {
      var e := es[i];
      if !Compatible(e, first) || KeyOf(e) in seen {
        return false;
      }
      seen := seen + {KeyOf(e)};
      if mode.Stages? {
        var span := e.identity.span;
        if !(span.Shard? && span.total == LAYERS && span.start == boundary && boundary + 1 <= span.end <= LAYERS) {
          assert !(ShardOk(e) && Lo(e) == boundary);
          return false;
        }
        boundary := span.end;
      } else if !FullModel(e, first) {
        return false;
      }
    }
    ok := mode.Stages? ==> boundary == LAYERS;
  }

  /** validatePlan admits exactly the plans whose layout is what the executor relies on. */
  method ValidatePlan(plan: Plan) returns (ok: bool)
    ensures ok <==> Admissible(plan)
  {
    var es := plan.endpoints;
    if plan.profile != "qwen35-2b-q8" || plan.deployment == "" || |es| < 2 || |es| > 3 {
      return false;
    }
    if plan.mode.PrefillDecode? && |es| != 2 {
      return false;
    }
    ContiguousIsPartition(es);
    ok := ValidateEndpoints(plan.mode, es);
    ok := ok && (plan.mode.PrefillDecode? ==> Qualifies(plan.qualification));
  }

  predicate ValidRequest(q: Request) {
    && 1 <= q.maxTokens <= 128 && (q.temperature.Some? ==> q.temperature.value == 0.0)
    && q.prompt != "" && |q.prompt| <= 65536
  }

  /** The endpoints that evaluate the prompt, and those that decode. */
  function PrefillEndpoints(plan: Plan): seq<Endpoint> {
    if plan.mode.Stages? || plan.endpoints == [] then plan.endpoints else [plan.endpoints[0]]
  }

  function DecodeEndpoints(plan: Plan): seq<Endpoint> {
    if plan.mode.Stages? || |plan.endpoints| < 2 then plan.endpoints else [plan.endpoints[1]]
  }

  lemma AdmissibleChains(plan: Plan)
    requires Admissible(plan)
    ensures Chain(PrefillEndpoints(plan)) && Chain(DecodeEndpoints(plan))
  {
    ContiguousIsPartition(plan.endpoints);
  }
}
