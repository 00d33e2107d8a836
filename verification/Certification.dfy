/**
 Redundant certification: four workers drain a shared queue of executions, redundant instances are put to
 a vote, and a certificate is accepted only with a result for every instance and a majority for every vote.

 The code between two awaits is one step. A node is named by its position; what a node answers to the k-th
 request is `replies(k)`, so every answer, refusal and time-out is covered.
 */
module Certification {
  import opened Outcomes
  import opened Canonical
  import opened Voting
  import Suite

  const REDUNDANT_EVERY: nat := 20
  const REDUNDANT_COPIES: nat := 3
  const CONCURRENCY: nat := 4
  const MAX_ROUNDS: nat := 2

  datatype Item = Item(inst: nat, extraCopy: bool)

  /** An answer claims a node, lists results and carries a signature that checks or not. */
  datatype Reply = Answer(node: nat, results: seq<EvalResult>, genuine: bool) | TimedOut | Refused

  datatype Outcome = Fine | Dead | Bad

  datatype Request = Request(id: Text, node: nat)

  /** Where a worker stands between two awaits. */
  datatype Worker =
    | Ready
    | Waiting(item: nat, node: nat, request: nat)
    | Replied(item: nat, node: nat, outcome: Outcome)
    | Gone

  /** Where an item stands. */
  datatype Place = Queued(position: nat) | Held(worker: nat) | Done | Dropped

  function MaxAttempts(nodes: nat): nat {
    6 * if nodes > 1 then nodes else 1
  }

  /** Only a non-empty answer of that very node with a valid signature counts. */
  predicate Confirms(reply: Reply, node: nat) {
    reply.Answer? && reply.node == node && reply.results != [] && reply.genuine
  }

  function Judge(reply: Reply, node: nat): Outcome {
    match reply
    case Answer(claimed, results, genuine) =>
      if claimed != node || results == [] then Bad else if !genuine then Bad else Fine
    case TimedOut => Bad
    case Refused => Dead
  }

  // ---------- the queue of work ----------

  predicate Redundant(inst: nat) {
    inst % REDUNDANT_EVERY == 0
  }

  function Copies(items: seq<Item>, inst: nat, extra: bool): nat {
    if items == [] then 0
    else Copies(items[..|items| - 1], inst, extra) + if items[|items| - 1] == Item(inst, extra) then 1 else 0
  }

  lemma CopiesAppend(items: seq<Item>, more: Item, inst: nat, extra: bool)
    ensures Copies(items + [more], inst, extra) == Copies(items, inst, extra) + if more == Item(inst, extra) then 1 else 0
  {
    assert (items + [more])[..|items|] == items;
  }

  /** The first `n` instances, each once and a redundant one with two further copies. */
  ghost predicate Enqueued(items: seq<Item>, n: nat) {
    && (forall k :: 0 <= k < |items| ==> items[k].inst < n)
    && forall inst: nat :: Copies(items, inst, false) == (if inst < n then 1 else 0)
                           && Copies(items, inst, true) == if inst < n && Redundant(inst) then REDUNDANT_COPIES - 1 else 0
  }

  method BuildQueue(count: nat) returns (items: seq<Item>)
    ensures Enqueued(items, count)
  {
    items := [];
    for i := 0 to count
      invariant Enqueued(items, i)
    {
      ghost var before := items;
      items := items + [Item(i, false)];
      forall inst: nat ensures
          && Copies(items, inst, false) == (if inst < i + 1 then 1 else 0)
          && Copies(items, inst, true) == if inst < i && Redundant(inst) then REDUNDANT_COPIES - 1 else 0
      {
        CopiesAppend(before, Item(i, false), inst, false);
        CopiesAppend(before, Item(i, false), inst, true);
      }
      if Redundant(i) {
        var c := 1;
        while c < REDUNDANT_COPIES
          invariant 1 <= c <= REDUNDANT_COPIES
          invariant forall k :: 0 <= k < |items| ==> items[k].inst < i + 1
          invariant forall inst: nat :: Copies(items, inst, false) == (if inst < i + 1 then 1 else 0)
                                        && Copies(items, inst, true)
                                           == (if inst < i && Redundant(inst) then REDUNDANT_COPIES - 1 else 0) + if inst == i then c - 1 else 0
        {
          ghost var shorter := items;
          items := items + [Item(i, true)];
          forall inst: nat ensures
              && Copies(items, inst, false) == Copies(shorter, inst, false)
              && Copies(items, inst, true) == Copies(shorter, inst, true) + if inst == i then 1 else 0
          {
            CopiesAppend(shorter, Item(i, true), inst, false);
            CopiesAppend(shorter, Item(i, true), inst, true);
          }
          c := c + 1;
        }
      }
    }
  }

  // ---------- choosing a node ----------

  /** Living nodes among the first `n`, those in `skip` left out. */
  function Living(alive: seq<bool>, skip: seq<nat>, n: nat): (pool: seq<nat>)
    requires n <= |alive|
    ensures forall k: nat :: k in pool <==> k < n && alive[k] && k !in skip
  {
    if n == 0 then []
    else
      var rest := Living(alive, skip, n - 1);
      if alive[n - 1] && n - 1 !in skip then rest + [n - 1] else rest
  }

  // ---------- accounting of attempts ----------

  predicate Busy(w: Worker) {
    w.Waiting? || w.Replied?
  }

  predicate Account(place: Place, attempts: nat, taken: nat, limit: nat) {
    match place
    case Queued(_) => attempts <= limit && taken == attempts
    case Held(_) => attempts <= limit && taken == attempts + 1
    case Done => attempts <= limit && taken == attempts + 1
    case Dropped => attempts == limit + 1 && taken == attempts
  }

  /** Every attempt at every item is accounted for, and no item is given up silently. */
  ghost predicate Books(limit: nat, attempts: seq<nat>, failed: nat, place: seq<Place>, taken: seq<nat>) {
    && |place| == |attempts| == |taken|
    && (forall i :: 0 <= i < |place| ==> Account(place[i], attempts[i], taken[i], limit))
    && (forall i :: 0 <= i < |place| && place[i].Dropped? ==> failed > 0)
  }

  /** One more attempt is counted; the item is given up beyond the limit and back in the queue otherwise, never both. */
  predicate TriedAgain(limit: nat, item: nat, attempts: seq<nat>, attempts': seq<nat>, failed: nat, failed': nat, queue: seq<nat>, queue': seq<nat>) {
    && item < |attempts| && attempts' == attempts[item := attempts[item] + 1]
    && if attempts'[item] > limit then failed' == failed + 1 && queue' == queue else failed' == failed && queue' == queue + [item]
  }

  /** The item is back in the queue or given up. */
  predicate PutBack(before: seq<Place>, after: seq<Place>, item: nat) {
    item < |before| && |after| == |before| && after == before[item := after[item]] && (after[item].Queued? || after[item].Dropped?)
  }

  /** An unread queue entry is the only one of its item. */
  ghost predicate Unread(queue: seq<nat>, next: nat, place: seq<Place>) {
    forall p :: next <= p < |queue| ==> queue[p] < |place| && place[queue[p]] == Queued(p)
  }

  /** An item in a worker's hands is in nobody else's. */
  ghost predicate InHand(workers: seq<Worker>, place: seq<Place>) {
    forall w :: 0 <= w < |workers| && Busy(workers[w]) ==> workers[w].item < |place| && place[workers[w].item] == Held(w)
  }

  /** Each item is processed at most once more than it may be retried. */
  lemma TakenBounded(limit: nat, attempts: seq<nat>, failed: nat, place: seq<Place>, taken: seq<nat>)
    requires Books(limit, attempts, failed, place, taken)
    ensures forall i :: 0 <= i < |taken| ==> taken[i] <= limit + 1
  {
    forall i | 0 <= i < |taken| ensures taken[i] <= limit + 1 {
      assert Account(place[i], attempts[i], taken[i], limit);
    }
  }

  lemma BooksStep(limit: nat, attempts: seq<nat>, failed: nat, place: seq<Place>, taken: seq<nat>, i: nat, a: nat, f: nat, p: Place, t: nat)
    requires Books(limit, attempts, failed, place, taken) && i < |place|
    requires Account(p, a, t, limit) && failed <= f && (p.Dropped? ==> f > 0)
    ensures Books(limit, attempts[i := a], f, place[i := p], taken[i := t])
  {
  }

  lemma UnreadStep(queue: seq<nat>, next: nat, place: seq<Place>, i: nat, p: Place)
    requires Unread(queue, next, place) && i < |place| && !place[i].Queued?
    ensures Unread(queue, next, place[i := p])
    ensures p == Queued(|queue|) ==> Unread(queue + [i], next, place[i := p])
  {
  }

  lemma InHandStep(workers: seq<Worker>, place: seq<Place>, w: nat, i: nat, p: Place)
    requires InHand(workers, place) && w < |workers| && !Busy(workers[w]) && i < |place|
    requires place[i] == Held(w) || !place[i].Held?
    ensures InHand(workers, place[i := p])
  {
  }

  /** Attempts still allowed, over all items. */
  function Remaining(attempts: seq<nat>, limit: nat): nat {
    if attempts == [] then 0
    else
      var last := attempts[|attempts| - 1];
      Remaining(attempts[..|attempts| - 1], limit) + if last <= limit then limit + 1 - last else 0
  }

  lemma {:induction false} AttemptSpent(attempts: seq<nat>, i: nat, limit: nat)
    requires i < |attempts| && attempts[i] <= limit
    ensures Remaining(attempts[i := attempts[i] + 1], limit) == Remaining(attempts, limit) - 1
  {
    var n := |attempts| - 1;
    var after := attempts[i := attempts[i] + 1];
    if i == n {
      assert after[..n] == attempts[..n];
    } else {
      assert after[..n] == attempts[..n][i := attempts[i] + 1];
      AttemptSpent(attempts[..n], i, limit);
    }
  }

  function Rank(w: Worker): nat {
    match w
    case Gone => 0
    case Ready => 1
    case Replied(_, _, _) => 2
    case Waiting(_, _, _) => 3
  }

  function Ranks(workers: seq<Worker>): nat {
    if workers == [] then 0 else Ranks(workers[..|workers| - 1]) + Rank(workers[|workers| - 1])
  }

  lemma {:induction false} RankChange(workers: seq<Worker>, w: nat, to: Worker)
    requires w < |workers|
    ensures Ranks(workers[w := to]) == Ranks(workers) - Rank(workers[w]) + Rank(to)
  {
    var n := |workers| - 1;
    if w == n {
      assert workers[w := to][..n] == workers[..n];
    } else {
      assert workers[w := to][..n] == workers[..n][w := to];
      RankChange(workers[..n], w, to);
    }
  }

  // ---------- what is on record ----------

  /** Some request for this instance to this node was answered by a verified result, and this is it. */
  ghost predicate Backed(requests: seq<Request>, replies: nat -> Reply, answerOf: Text -> Json, id: Text, node: nat, c: Comparable) {
    exists k: nat :: k < |requests| && Proves(requests[k], replies(k), answerOf, id, node, c)
  }

  predicate Proves(request: Request, reply: Reply, answerOf: Text -> Json, id: Text, node: nat, c: Comparable) {
    request == Request(id, node) && Confirms(reply, node) && ComparableOf(reply.results[0], answerOf) == c
  }

  ghost predicate SingleBacked(requests: seq<Request>, replies: nat -> Reply, answerOf: Text -> Json, id: Text, c: Comparable) {
    exists node: nat :: Backed(requests, replies, answerOf, id, node, c)
  }

  ghost predicate VotesBacked(requests: seq<Request>, replies: nat -> Reply, answerOf: Text -> Json, id: Text, votes: seq<Vote>) {
    votes != [] && forall i :: 0 <= i < |votes| ==> Backed(requests, replies, answerOf, id, votes[i].node, votes[i].result)
  }

  ghost predicate OnRecord(ids: seq<Text>, redundant: set<Text>, single: map<Text, Comparable>, multi: map<Text, seq<Vote>>,
                           requests: seq<Request>, replies: nat -> Reply, answerOf: Text -> Json) {
    && (forall id :: id in single ==>
          id in ids && id !in redundant && SingleBacked(requests, replies, answerOf, id, single[id]))
    && (forall id :: id in multi ==> id in redundant && VotesBacked(requests, replies, answerOf, id, multi[id]))
  }

  lemma BackedLater(requests: seq<Request>, more: Request, replies: nat -> Reply, answerOf: Text -> Json, id: Text, node: nat, c: Comparable)
    requires Backed(requests, replies, answerOf, id, node, c)
    ensures Backed(requests + [more], replies, answerOf, id, node, c)
  {
    var k: nat :| k < |requests| && Proves(requests[k], replies(k), answerOf, id, node, c);
    assert (requests + [more])[k] == requests[k];
  }

  /** Asking once more takes nothing off the record. */
  lemma RecordLater(ids: seq<Text>, redundant: set<Text>, single: map<Text, Comparable>, multi: map<Text, seq<Vote>>,
                    requests: seq<Request>, more: Request, replies: nat -> Reply, answerOf: Text -> Json)
    requires OnRecord(ids, redundant, single, multi, requests, replies, answerOf)
    ensures OnRecord(ids, redundant, single, multi, requests + [more], replies, answerOf)
  {
    forall id | id in single ensures SingleBacked(requests + [more], replies, answerOf, id, single[id]) {
      var node: nat :| Backed(requests, replies, answerOf, id, node, single[id]);
      BackedLater(requests, more, replies, answerOf, id, node, single[id]);
    }
    forall id | id in multi ensures VotesBacked(requests + [more], replies, answerOf, id, multi[id]) {
      var votes := multi[id];
      forall i | 0 <= i < |votes| ensures Backed(requests + [more], replies, answerOf, id, votes[i].node, votes[i].result) {
        BackedLater(requests, more, replies, answerOf, id, votes[i].node, votes[i].result);
      }
    }
  }

  // ---------- acceptance ----------

  /** What an accepted certificate stands for. */
  ghost predicate Certified(ids: seq<Text>, single: map<Text, Comparable>, multi: map<Text, seq<Vote>>,
                            requests: seq<Request>, replies: nat -> Reply, answerOf: Text -> Json) {
    forall i: nat :: i < |ids| ==>
      if Redundant(i) then
        && ids[i] in multi
        && VotesBacked(requests, replies, answerOf, ids[i], multi[ids[i]])
        && HasMajority(multi[ids[i]])
      else ids[i] in single && SingleBacked(requests, replies, answerOf, ids[i], single[ids[i]])
  }

  ghost predicate HasMajority(votes: seq<Vote>) {
    exists key :: Majority(votes, key)
  }

  function RedundantIds(ids: seq<Text>): (r: set<Text>)
    ensures forall id :: id in r ==> id in ids
  {
    set i | 0 <= i < |ids| && Redundant(i) :: ids[i]
  }

  lemma RedundantById(ids: seq<Text>, i: nat)
    requires Suite.Distinct(ids) && i < |ids|
    ensures ids[i] in RedundantIds(ids) <==> Redundant(i)
  {
    if ids[i] in RedundantIds(ids) {
      var j :| 0 <= j < |ids| && Redundant(j) && ids[j] == ids[i];
      assert i == j;
    }
  }

  lemma {:induction false} DistinctSize(ids: seq<Text>)
    requires Suite.Distinct(ids)
    ensures |(set id | id in ids)| == |ids|
  {
    if ids == [] {
      assert (set id | id in ids) == {};
    } else {
      var init, last := ids[..|ids| - 1], ids[|ids| - 1];
      DistinctSize(init);
      assert last !in init;
      assert (set id | id in ids) == (set id | id in init) + {last};
    }
  }

  lemma {:induction false} SameSize<T>(a: set<T>, b: set<T>)
    requires a <= b && |a| == |b|
    ensures a == b
    decreases a
  {
    if a == {} {
      assert b == {};
    } else {
      var x :| x in a;
      SameSize(a - {x}, b - {x});
    }
  }

  /** As many keys as distinct ids: every id is a key. */
  lemma AllKeys(ids: seq<Text>, a: set<Text>, b: set<Text>)
    requires Suite.Distinct(ids) && a !! b && |a| + |b| == |ids| && forall id :: id in a + b ==> id in ids
    ensures forall i :: 0 <= i < |ids| ==> ids[i] in a + b
  {
    var all := set id | id in ids;
    DistinctSize(ids);
    assert |a + b| == |a| + |b|;
    SameSize(a + b, all);
    forall i | 0 <= i < |ids| ensures ids[i] in a + b {
      assert ids[i] in all;
    }
  }

  /** As many results as instances: every instance has its result. */
  lemma Covered(ids: seq<Text>, single: map<Text, Comparable>, multi: map<Text, seq<Vote>>,
                requests: seq<Request>, replies: nat -> Reply, answerOf: Text -> Json)
    requires Suite.Distinct(ids) && |single| + |multi| == |ids|
    requires OnRecord(ids, RedundantIds(ids), single, multi, requests, replies, answerOf)
    requires forall id :: id in multi ==> HasMajority(multi[id])
    ensures Certified(ids, single, multi, requests, replies, answerOf)
  {
    AllKeys(ids, single.Keys, multi.Keys);
    forall i: nat | i < |ids| ensures if Redundant(i) then ids[i] in multi else ids[i] in single {
      RedundantById(ids, i);
      assert ids[i] in single.Keys + multi.Keys;
    }
  }

  lemma SingleFiled(ids: seq<Text>, redundant: set<Text>, single: map<Text, Comparable>, multi: map<Text, seq<Vote>>,
                    requests: seq<Request>, replies: nat -> Reply, answerOf: Text -> Json, id: Text, node: nat, c: Comparable)
    requires OnRecord(ids, redundant, single, multi, requests, replies, answerOf)
    requires id in ids && id !in redundant && Backed(requests, replies, answerOf, id, node, c)
    ensures OnRecord(ids, redundant, single[id := c], multi, requests, replies, answerOf)
  {
    assert SingleBacked(requests, replies, answerOf, id, c);
  }

  lemma VoteFiled(ids: seq<Text>, redundant: set<Text>, single: map<Text, Comparable>, multi: map<Text, seq<Vote>>,
                  requests: seq<Request>, replies: nat -> Reply, answerOf: Text -> Json, id: Text, node: nat, c: Comparable)
    requires OnRecord(ids, redundant, single, multi, requests, replies, answerOf)
    requires id in redundant && Backed(requests, replies, answerOf, id, node, c)
    ensures OnRecord(ids, redundant, single, multi[id := VotesFor(multi, id) + [Vote(node, c)]], requests, replies, answerOf)
  {
    assert VotesBacked(requests, replies, answerOf, id, VotesFor(multi, id) + [Vote(node, c)]);
  }

  /** More was asked, and nothing but the votes on one instance changed on record: they are the same and at most n more. */
  ghost predicate Revoted(a: Archive, b: Archive, id: Text, n: nat) {
    && a.requests <= b.requests && b.single == a.single && b.multi.Keys == a.multi.Keys && id in a.multi
    && (forall j :: j in a.multi && j != id ==> b.multi[j] == a.multi[j]) && Longer(a.multi[id], b.multi[id], n)
  }

  lemma RevotedStep(a: Archive, b: Archive, c: Archive, id: Text, m: nat, n: nat)
    requires Revoted(a, b, id, m) && Revoted(b, c, id, n)
    ensures Revoted(a, c, id, m + n)
  {
  }

  /** The same votes and at most n more. */
  predicate Longer(before: seq<Vote>, after: seq<Vote>, n: nat) {
    before <= after && |after| <= |before| + n
  }

  function VotesFor(multi: map<Text, seq<Vote>>, id: Text): seq<Vote> {
    if id in multi then multi[id] else []
  }

  // ---------- every confirmed answer is on file ----------

  /** What a coordinator is set up with. */
  datatype Setup = Setup(ids: seq<Text>, redundant: set<Text>, items: seq<Item>, replies: nat -> Reply, answerOf: Text -> Json)

  /** What has been asked and what is on record. */
  datatype Archive = Archive(requests: seq<Request>, single: map<Text, Comparable>, multi: map<Text, seq<Vote>>)

  predicate Sized(c: Setup) {
    forall i :: 0 <= i < |c.items| ==> c.items[i].inst < |c.ids|
  }

  function IdOf(c: Setup, i: nat): Text
    requires Sized(c) && i < |c.items|
  {
    c.ids[c.items[i].inst]
  }

  /** An instance that is not redundant is a single item, and every instance is one. */
  ghost predicate Itemised(c: Setup) {
    && Sized(c)
    && (forall i, j :: 0 <= i < |c.items| && 0 <= j < |c.items| && IdOf(c, i) == IdOf(c, j) && IdOf(c, i) !in c.redundant ==> i == j)
    && (forall inst: nat :: inst < |c.ids| ==> HasItem(c, inst))
  }

  ghost predicate HasItem(c: Setup, inst: nat) {
    exists i :: 0 <= i < |c.items| && c.items[i].inst == inst
  }

  lemma {:induction false} CopiesOf(items: seq<Item>, inst: nat, extra: bool, i: nat, j: nat)
    requires i < |items| && j < |items| && items[i] == Item(inst, extra)
    ensures Copies(items, inst, extra) >= 1
    ensures items[j] == Item(inst, extra) && i != j ==> Copies(items, inst, extra) >= 2
  {
    var n := |items| - 1;
    if i < n {
      CopiesOf(items[..n], inst, extra, i, if j < n then j else i);
    } else if j < n && items[j] == Item(inst, extra) {
      CopiesOf(items[..n], inst, extra, j, j);
    }
  }

  lemma {:induction false} SomeCopy(items: seq<Item>, inst: nat, extra: bool) returns (i: nat)
    requires Copies(items, inst, extra) >= 1
    ensures i < |items| && items[i] == Item(inst, extra)
  {
    var n := |items| - 1;
    if items[n] == Item(inst, extra) {
      i := n;
    } else {
      i := SomeCopy(items[..n], inst, extra);
    }
  }

  lemma EnqueuedOnce(c: Setup, i: nat, j: nat)
    requires Suite.Distinct(c.ids) && c.redundant == RedundantIds(c.ids) && Enqueued(c.items, |c.ids|) && Sized(c)
    requires i < |c.items| && j < |c.items| && IdOf(c, i) == IdOf(c, j) && IdOf(c, i) !in c.redundant
    ensures i == j
  {
    var inst := c.items[i].inst;
    assert c.items[j].inst == inst;
    RedundantById(c.ids, inst);
    assert Copies(c.items, inst, true) == 0 && Copies(c.items, inst, false) == 1;
    CopiesOf(c.items, inst, c.items[i].extraCopy, i, j);
    CopiesOf(c.items, inst, c.items[j].extraCopy, j, i);
  }

  lemma EnqueuedItemised(c: Setup)
    requires Suite.Distinct(c.ids) && c.redundant == RedundantIds(c.ids) && Enqueued(c.items, |c.ids|)
    ensures Itemised(c)
  {
    forall i, j | 0 <= i < |c.items| && 0 <= j < |c.items| && IdOf(c, i) == IdOf(c, j) && IdOf(c, i) !in c.redundant ensures i == j {
      EnqueuedOnce(c, i, j);
    }
    forall inst: nat | inst < |c.ids| ensures HasItem(c, inst) {
      assert Copies(c.items, inst, false) == 1;
      var i := SomeCopy(c.items, inst, false);
      assert c.items[i].inst == inst;
    }
  }

  /** Some worker still waits for the answer to request k. */
  ghost predicate Awaited(workers: seq<Worker>, k: nat) {
    exists w :: 0 <= w < |workers| && workers[w].Waiting? && workers[w].request == k
  }

  predicate OnFile(redundant: set<Text>, a: Archive, id: Text, node: nat, c: Comparable) {
    if id in redundant then id in a.multi && Vote(node, c) in a.multi[id] else id in a.single && a.single[id] == c
  }

  /** An answer that is confirmed and no longer awaited is on file under the instance asked for. */
  ghost predicate Filed(c: Setup, workers: seq<Worker>, a: Archive, k: nat)
    requires k < |a.requests|
  {
    Confirms(c.replies(k), a.requests[k].node) && !Awaited(workers, k) ==>
      OnFile(c.redundant, a, a.requests[k].id, a.requests[k].node, ComparableOf(c.replies(k).results[0], c.answerOf))
  }

  /** The item has its result: it is done, or in the hands of a worker that got a confirmed answer. */
  predicate Resolved(workers: seq<Worker>, place: seq<Place>, i: nat) {
    i < |place|
    && (place[i].Done?
        || (place[i].Held? && place[i].worker < |workers| && HasResult(workers[place[i].worker], i)))
  }

  predicate HasResult(w: Worker, i: nat) {
    w.Replied? && w.item == i && w.outcome.Fine?
  }

  /** Everything confirmed is on file, and what is on file under a single item is that item's result. */
  ghost predicate Filing(c: Setup, workers: seq<Worker>, place: seq<Place>, a: Archive) {
    && Itemised(c)
    && (forall k: nat :: k < |a.requests| ==> Filed(c, workers, a, k))
    && (forall i: nat :: i < |c.items| && IdOf(c, i) !in c.redundant && IdOf(c, i) in a.single ==> Resolved(workers, place, i))
    && (forall i: nat :: i < |c.items| && Resolved(workers, place, i) ==> IdOf(c, i) in a.single || IdOf(c, i) in a.multi)
  }

  /** A result goes under its instance. */
  function Put(a: Archive, redundant: set<Text>, id: Text, node: nat, c: Comparable): Archive {
    if id in redundant then a.(multi := a.multi[id := VotesFor(a.multi, id) + [Vote(node, c)]]) else a.(single := a.single[id := c])
  }

  /** A step that neither resolves an item nor settles a request. */
  lemma FilingKept(c: Setup, workers: seq<Worker>, place: seq<Place>, a: Archive, workers': seq<Worker>, place': seq<Place>)
    requires Filing(c, workers, place, a)
    requires forall k: nat :: k < |a.requests| && Awaited(workers, k) && Confirms(c.replies(k), a.requests[k].node) ==> Awaited(workers', k)
    requires forall i: nat :: i < |c.items| ==> (Resolved(workers', place', i) <==> Resolved(workers, place, i))
    ensures Filing(c, workers', place', a)
  {
    forall k: nat | k < |a.requests| ensures Filed(c, workers', a, k) {
      assert Filed(c, workers, a, k);
    }
  }

  /** Filing a result keeps what is on file, if nothing else is filed under a single item's instance. */
  lemma OnFileKept(redundant: set<Text>, a: Archive, id: Text, node: nat, c: Comparable, id': Text, node': nat, c': Comparable)
    requires OnFile(redundant, a, id', node', c') && (id' == id && id !in redundant ==> id !in a.single)
    ensures OnFile(redundant, Put(a, redundant, id, node, c), id', node', c')
  {
  }

  /** Another worker than w waits for a request other than the one w waited for. */
  lemma StillAwaited(workers: seq<Worker>, w: nat, to: Worker, k: nat)
    requires w < |workers| && Awaited(workers, k) && !(workers[w].Waiting? && workers[w].request == k)
    ensures Awaited(workers[w := to], k)
  {
    var v :| 0 <= v < |workers| && workers[v].Waiting? && workers[v].request == k;
    assert workers[w := to][v] == workers[v];
  }

  /** Only the item in the hands of worker w can change its standing with w. */
  lemma ResolvedElsewhere(workers: seq<Worker>, place: seq<Place>, w: nat, to: Worker, i: nat)
    requires w < |workers| && i < |place| && !HasResult(workers[w], i) && !HasResult(to, i)
    ensures Resolved(workers[w := to], place, i) <==> Resolved(workers, place, i)
  {
  }

  /** A worker asks a node for the item it has taken. */
  lemma AskedFiling(c: Setup, workers: seq<Worker>, place: seq<Place>, a: Archive, w: nat, item: nat, node: nat)
    requires Filing(c, workers, place, a) && w < |workers| && workers[w].Ready? && item < |c.items| && item < |place| && place[item].Queued?
    ensures Filing(c, workers[w := Waiting(item, node, |a.requests|)], place[item := Held(w)], a.(requests := a.requests + [Request(IdOf(c, item), node)]))
  {
    var to := Waiting(item, node, |a.requests|);
    var after, workers', place' := a.(requests := a.requests + [Request(IdOf(c, item), node)]), workers[w := to], place[item := Held(w)];
    forall k: nat | k < |after.requests| ensures Filed(c, workers', after, k) {
      if k < |a.requests| {
        assert Filed(c, workers, a, k);
        if Awaited(workers, k) {
          StillAwaited(workers, w, to, k);
        }
      } else {
        assert workers'[w].Waiting? && workers'[w].request == k;
      }
    }
    forall i: nat | i < |c.items| ensures Resolved(workers', place', i) <==> Resolved(workers, place, i) {
      if i < |place| && i != item {
        ResolvedElsewhere(workers, place, w, to, i);
      }
    }
  }

  /** What a worker waits for it has asked, on behalf of an item that is in its hands. */
  predicate Waits(c: Setup, workers: seq<Worker>, place: seq<Place>, a: Archive, w: nat) {
    && w < |workers| && workers[w].Waiting? && workers[w].item < |c.items| && workers[w].item < |place| && place[workers[w].item] == Held(w)
    && Sized(c) && workers[w].request < |a.requests| && a.requests[workers[w].request] == Request(IdOf(c, workers[w].item), workers[w].node)
  }

  /** A confirmed answer is filed. */
  lemma AnsweredFiled(c: Setup, workers: seq<Worker>, place: seq<Place>, a: Archive, w: nat, a': Archive, k: nat)
    requires Filing(c, workers, place, a) && Waits(c, workers, place, a, w) && k < |a.requests|
    requires Confirms(c.replies(workers[w].request), workers[w].node)
    requires a' == Put(a, c.redundant, IdOf(c, workers[w].item), workers[w].node, ComparableOf(c.replies(workers[w].request).results[0], c.answerOf))
    ensures Filed(c, workers[w := Replied(workers[w].item, workers[w].node, Fine)], a', k)
  {
    var held := workers[w];
    var to := Replied(held.item, held.node, Fine);
    if k != held.request && Confirms(c.replies(k), a.requests[k].node) && !Awaited(workers[w := to], k) {
      if Awaited(workers, k) {
        StillAwaited(workers, w, to, k);
      }
      assert Filed(c, workers, a, k);
      var id := IdOf(c, held.item);
      assert !Resolved(workers, place, held.item);
      OnFileKept(c.redundant, a, id, held.node, ComparableOf(c.replies(held.request).results[0], c.answerOf), a.requests[k].id,
                 a.requests[k].node, ComparableOf(c.replies(k).results[0], c.answerOf));
    }
  }

  lemma AnsweredFiling(c: Setup, workers: seq<Worker>, place: seq<Place>, a: Archive, w: nat, a': Archive)
    requires Filing(c, workers, place, a) && Waits(c, workers, place, a, w) && Confirms(c.replies(workers[w].request), workers[w].node)
    requires a' == Put(a, c.redundant, IdOf(c, workers[w].item), workers[w].node, ComparableOf(c.replies(workers[w].request).results[0], c.answerOf))
    ensures Filing(c, workers[w := Replied(workers[w].item, workers[w].node, Fine)], place, a')
  {
    var item, to := workers[w].item, Replied(workers[w].item, workers[w].node, Fine);
    var workers' := workers[w := to];
    forall k: nat | k < |a'.requests| ensures Filed(c, workers', a', k) {
      AnsweredFiled(c, workers, place, a, w, a', k);
    }
    assert Resolved(workers', place, item);
    forall i: nat | i < |c.items| && i != item ensures Resolved(workers', place, i) <==> Resolved(workers, place, i) {
      if i < |place| {
        ResolvedElsewhere(workers, place, w, to, i);
      }
    }
  }

  /** An answer that is not confirmed changes nothing on file. */
  lemma RefusedFiling(c: Setup, workers: seq<Worker>, place: seq<Place>, a: Archive, w: nat, outcome: Outcome)
    requires Filing(c, workers, place, a) && Waits(c, workers, place, a, w)
    requires !Confirms(c.replies(workers[w].request), workers[w].node) && !outcome.Fine?
    ensures Filing(c, workers[w := Replied(workers[w].item, workers[w].node, outcome)], place, a)
  {
    var to := Replied(workers[w].item, workers[w].node, outcome);
    forall k: nat | k < |a.requests| && Awaited(workers, k) && Confirms(c.replies(k), a.requests[k].node) ensures Awaited(workers[w := to], k) {
      StillAwaited(workers, w, to, k);
    }
    forall i: nat | i < |c.items| ensures Resolved(workers[w := to], place, i) <==> Resolved(workers, place, i) {
      if i < |place| {
        ResolvedElsewhere(workers, place, w, to, i);
      }
    }
    FilingKept(c, workers, place, a, workers[w := to], place);
  }

  /** A worker at rest, or one with an answer, goes on and its item moves without losing or gaining a result. */
  lemma MovedFiling(c: Setup, workers: seq<Worker>, place: seq<Place>, a: Archive, w: nat, to: Worker, item: nat, p: Place)
    requires Filing(c, workers, place, a) && w < |workers| && !workers[w].Waiting? && !to.Waiting? && !to.Replied? && item < |place|
    requires workers[w].Replied? ==> workers[w].item == item && place[item] == Held(w)
    requires !p.Held? && (p.Done? <==> Resolved(workers, place, item))
    ensures Filing(c, workers[w := to], place[item := p], a)
  {
    forall k: nat | k < |a.requests| && Awaited(workers, k) && Confirms(c.replies(k), a.requests[k].node) ensures Awaited(workers[w := to], k) {
      StillAwaited(workers, w, to, k);
    }
    forall i: nat | i < |c.items| ensures Resolved(workers[w := to], place[item := p], i) <==> Resolved(workers, place, i) {
      if i < |place| && i != item {
        ResolvedElsewhere(workers, place, w, to, i);
      }
    }
    FilingKept(c, workers, place, a, workers[w := to], place[item := p]);
  }

  /** One more execution of a redundant instance, outside the worker pool. */
  lemma RerunFiling(c: Setup, workers: seq<Worker>, place: seq<Place>, a: Archive, id: Text, node: nat, a': Archive)
    requires Filing(c, workers, place, a) && id in c.redundant && id in a.multi
    requires
      var asked, reply := a.(requests := a.requests + [Request(id, node)]), c.replies(|a.requests|);
      a' == if Confirms(reply, node) then Put(asked, c.redundant, id, node, ComparableOf(reply.results[0], c.answerOf)) else asked
    ensures Filing(c, workers, place, a')
  {
    forall k: nat | k < |a'.requests| ensures Filed(c, workers, a', k) {
      if k < |a.requests| {
        assert Filed(c, workers, a, k);
      }
    }
  }

  // ---------- a run in which every answer is confirmed ----------

  ghost predicate AllConfirmed(requests: seq<Request>, replies: nat -> Reply) {
    forall k: nat :: k < |requests| ==> Confirms(replies(k), requests[k].node)
  }

  predicate OnTrack(queue: seq<nat>, next: nat, workers: seq<Worker>, place: seq<Place>, i: nat)
    requires i < |place|
  {
    match place[i]
    case Queued(p) => next <= p < |queue| && queue[p] == i
    case Held(w) => w < |workers| && Busy(workers[w]) && workers[w].item == i
    case Done => true
    case Dropped => false
  }

  /** Nobody has died, nothing is put back or given up, and no item is lost sight of. */
  ghost predicate Smooth(queue: seq<nat>, next: nat, workers: seq<Worker>, place: seq<Place>, alive: seq<bool>, failed: nat) {
    && (forall k :: 0 <= k < |alive| ==> alive[k]) && failed == 0
    && (forall w :: 0 <= w < |workers| && workers[w].Replied? ==> workers[w].outcome.Fine?)
    && (forall w :: 0 <= w < |workers| && workers[w].Gone? ==> next >= |queue|)
    && (forall i :: 0 <= i < |place| ==> OnTrack(queue, next, workers, place, i))
  }

  lemma SmoothAsked(queue: seq<nat>, next: nat, workers: seq<Worker>, place: seq<Place>, alive: seq<bool>, failed: nat, w: nat, to: Worker)
    requires Smooth(queue, next, workers, place, alive, failed) && w < |workers| && workers[w].Ready?
    requires next < |queue| && queue[next] < |place| && to.Waiting? && to.item == queue[next]
    ensures Smooth(queue, next + 1, workers[w := to], place[queue[next] := Held(w)], alive, failed)
  {
    var item := queue[next];
    var place', workers', after := place[item := Held(w)], workers[w := to], next + 1;
    forall i | 0 <= i < |place'| ensures OnTrack(queue, after, workers', place', i) {
      assert OnTrack(queue, next, workers, place, i);
    }
  }

  lemma SmoothAnswered(queue: seq<nat>, next: nat, workers: seq<Worker>, place: seq<Place>, alive: seq<bool>, failed: nat, w: nat)
    requires Smooth(queue, next, workers, place, alive, failed) && w < |workers| && workers[w].Waiting?
    ensures Smooth(queue, next, workers[w := Replied(workers[w].item, workers[w].node, Fine)], place, alive, failed)
  {
    var workers' := workers[w := Replied(workers[w].item, workers[w].node, Fine)];
    forall i | 0 <= i < |place| ensures OnTrack(queue, next, workers', place, i) {
      assert OnTrack(queue, next, workers, place, i);
    }
  }

  lemma SmoothSettled(queue: seq<nat>, next: nat, workers: seq<Worker>, place: seq<Place>, alive: seq<bool>, failed: nat, w: nat)
    requires Smooth(queue, next, workers, place, alive, failed) && w < |workers| && workers[w].Replied? && workers[w].item < |place|
    requires place[workers[w].item] == Held(w)
    ensures Smooth(queue, next, workers[w := Ready], place[workers[w].item := Done], alive, failed)
  {
    var item := workers[w].item;
    var workers', place' := workers[w := Ready], place[item := Done];
    forall i | 0 <= i < |place'| ensures OnTrack(queue, next, workers', place', i) {
      assert OnTrack(queue, next, workers, place, i);
    }
  }

  lemma SmoothLeft(queue: seq<nat>, next: nat, workers: seq<Worker>, place: seq<Place>, alive: seq<bool>, failed: nat, w: nat)
    requires Smooth(queue, next, workers, place, alive, failed) && w < |workers| && workers[w].Ready? && next >= |queue|
    ensures Smooth(queue, next + 1, workers[w := Gone], place, alive, failed)
  {
    var workers', after := workers[w := Gone], next + 1;
    forall i | 0 <= i < |place| ensures OnTrack(queue, after, workers', place, i) {
      assert OnTrack(queue, next, workers, place, i);
    }
  }

  /** Once all workers have left, every item is done. */
  lemma SmoothEnd(queue: seq<nat>, next: nat, workers: seq<Worker>, place: seq<Place>, alive: seq<bool>, failed: nat, i: nat)
    requires Smooth(queue, next, workers, place, alive, failed) && workers != [] && (forall w :: 0 <= w < |workers| ==> workers[w].Gone?) && i < |place|
    ensures place[i].Done?
  {
    assert workers[0].Gone?;
    assert OnTrack(queue, next, workers, place, i);
  }

  /** With every item done, every instance has a result. */
  lemma AllRecorded(c: Setup, workers: seq<Worker>, place: seq<Place>, a: Archive)
    requires Filing(c, workers, place, a) && Suite.Distinct(c.ids) && |place| == |c.items| && forall i :: 0 <= i < |place| ==> place[i].Done?
    requires OnRecord(c.ids, c.redundant, a.single, a.multi, a.requests, c.replies, c.answerOf) && c.redundant == RedundantIds(c.ids)
    ensures |a.single| + |a.multi| == |c.ids|
  {
    forall inst: nat | inst < |c.ids| ensures c.ids[inst] in a.single.Keys + a.multi.Keys {
      RecordedOne(c, workers, place, a, inst);
    }
    KeysAreIds(c, a);
    SizesAdd(c.ids, a.single.Keys, a.multi.Keys);
  }

  lemma SizesAdd(ids: seq<Text>, a: set<Text>, b: set<Text>)
    requires Suite.Distinct(ids) && a !! b && a + b <= (set id | id in ids) && forall i: nat :: i < |ids| ==> ids[i] in a + b
    ensures |a| + |b| == |ids|
  {
    DistinctSize(ids);
    assert a + b == set id | id in ids;
    assert |a + b| == |a| + |b|;
  }

  lemma RecordedOne(c: Setup, workers: seq<Worker>, place: seq<Place>, a: Archive, inst: nat)
    requires Filing(c, workers, place, a) && |place| == |c.items| && (forall i :: 0 <= i < |place| ==> place[i].Done?) && inst < |c.ids|
    ensures c.ids[inst] in a.single.Keys + a.multi.Keys
  {
    assert HasItem(c, inst);
    var i: nat :| i < |c.items| && c.items[i].inst == inst;
    assert Resolved(workers, place, i);
  }

  lemma KeysAreIds(c: Setup, a: Archive)
    requires OnRecord(c.ids, c.redundant, a.single, a.multi, a.requests, c.replies, c.answerOf) && c.redundant == RedundantIds(c.ids)
    ensures a.single.Keys + a.multi.Keys <= (set id | id in c.ids) && a.single.Keys !! a.multi.Keys
  {
  }

  // ---------- whose results they are ----------

  /** A confirmed answer names the instance asked for, which nothing compares. */
  predicate NamesAsked(request: Request, reply: Reply) {
    Confirms(reply, request.node) ==> reply.results[0].instanceId == request.id
  }

  ghost predicate AllNamed(requests: seq<Request>, replies: nat -> Reply) {
    forall k: nat :: k < |requests| ==> NamesAsked(requests[k], replies(k))
  }

  /** Every result on record is about the instance it is filed under. */
  ghost predicate AllAbout(single: map<Text, Comparable>, multi: map<Text, seq<Vote>>) {
    && (forall id :: id in single ==> single[id].instanceId == id)
    && (forall id, i :: id in multi && 0 <= i < |multi[id]| ==> multi[id][i].result.instanceId == id)
  }

  lemma NamedIsAbout(c: Setup, a: Archive)
    requires OnRecord(c.ids, c.redundant, a.single, a.multi, a.requests, c.replies, c.answerOf) && AllNamed(a.requests, c.replies)
    ensures AllAbout(a.single, a.multi)
  {
    forall id | id in a.single ensures a.single[id].instanceId == id {
      var node: nat :| Backed(a.requests, c.replies, c.answerOf, id, node, a.single[id]);
      BackedAbout(c, a, id, node, a.single[id]);
    }
    forall id, i | id in a.multi && 0 <= i < |a.multi[id]| ensures a.multi[id][i].result.instanceId == id {
      assert VotesBacked(a.requests, c.replies, c.answerOf, id, a.multi[id]);
      BackedAbout(c, a, id, a.multi[id][i].node, a.multi[id][i].result);
    }
  }

  lemma BackedAbout(c: Setup, a: Archive, id: Text, node: nat, r: Comparable)
    requires Backed(a.requests, c.replies, c.answerOf, id, node, r) && AllNamed(a.requests, c.replies)
    ensures r.instanceId == id
  {
    var k: nat :| k < |a.requests| && Proves(a.requests[k], c.replies(k), c.answerOf, id, node, r);
    assert NamesAsked(a.requests[k], c.replies(k));
  }

  /** Once no answer is awaited, the results on record are about their instances if and only if every confirmed answer
      names the instance it was asked for. */
  lemma AboutExactly(c: Setup, workers: seq<Worker>, place: seq<Place>, a: Archive)
    requires OnRecord(c.ids, c.redundant, a.single, a.multi, a.requests, c.replies, c.answerOf)
    requires Filing(c, workers, place, a) && forall w :: 0 <= w < |workers| ==> !workers[w].Waiting?
    ensures AllAbout(a.single, a.multi) <==> AllNamed(a.requests, c.replies)
  {
    if AllNamed(a.requests, c.replies) {
      NamedIsAbout(c, a);
    }
    if AllAbout(a.single, a.multi) {
      forall k: nat | k < |a.requests| ensures NamesAsked(a.requests[k], c.replies(k)) {
        assert Filed(c, workers, a, k);
      }
    }
  }

  // ---------- further copies of a redundant instance ----------

  predicate Lives(alive: seq<bool>) {
    exists k :: 0 <= k < |alive| && alive[k]
  }

  /** The nodes of the last three votes. */
  function LastNodes(votes: seq<Vote>): seq<nat> {
    NodesOf(votes[if |votes| > REDUNDANT_COPIES then |votes| - REDUNDANT_COPIES else 0..])
  }

  /** A living node, one of the last three only if there is no other. */
  predicate WellChosen(alive: seq<bool>, votes: seq<Vote>, node: nat) {
    node < |alive| && alive[node] && (node in LastNodes(votes) ==> forall k: nat :: k < |alive| && alive[k] ==> k in LastNodes(votes))
  }

  /** One more copy is asked of a node; its answer is filed if it is confirmed. */
  function Asked(c: Setup, a: Archive, id: Text, node: nat): Archive {
    var asked, reply := a.(requests := a.requests + [Request(id, node)]), c.replies(|a.requests|);
    if Confirms(reply, node) then Put(asked, c.redundant, id, node, ComparableOf(reply.results[0], c.answerOf)) else asked
  }

  /** Further copies asked of these nodes, one after the other. */
  function AskedAll(c: Setup, a: Archive, id: Text, nodes: seq<nat>): Archive {
    if nodes == [] then a else Asked(c, AskedAll(c, a, id, nodes[..|nodes| - 1]), id, nodes[|nodes| - 1])
  }

  /** Each was well chosen when it was asked. */
  predicate AllWellChosen(c: Setup, alive: seq<bool>, a: Archive, id: Text, nodes: seq<nat>) {
    nodes == []
    || (AllWellChosen(c, alive, a, id, nodes[..|nodes| - 1])
        && WellChosen(alive, VotesFor(AskedAll(c, a, id, nodes[..|nodes| - 1]).multi, id), nodes[|nodes| - 1]))
  }

  /** Exactly n further copies. */
  ghost predicate Reasked(c: Setup, alive: seq<bool>, a: Archive, b: Archive, id: Text, n: nat) {
    exists nodes :: |nodes| == n && AllWellChosen(c, alive, a, id, nodes) && b == AskedAll(c, a, id, nodes)
  }

  lemma ReaskedNone(c: Setup, alive: seq<bool>, a: Archive, id: Text)
    ensures Reasked(c, alive, a, a, id, 0)
  {
    assert AllWellChosen(c, alive, a, id, []) && AskedAll(c, a, id, []) == a;
  }

  lemma ReaskedOne(c: Setup, alive: seq<bool>, a: Archive, b: Archive, id: Text, n: nat, node: nat)
    requires Reasked(c, alive, a, b, id, n) && WellChosen(alive, VotesFor(b.multi, id), node)
    ensures Reasked(c, alive, a, Asked(c, b, id, node), id, n + 1)
  {
    var nodes :| |nodes| == n && AllWellChosen(c, alive, a, id, nodes) && b == AskedAll(c, a, id, nodes);
    var more := nodes + [node];
    assert more[..n] == nodes;
    assert AllWellChosen(c, alive, a, id, more) && AskedAll(c, a, id, more) == Asked(c, b, id, node);
  }

  lemma AskedRevotes(c: Setup, a: Archive, id: Text, node: nat)
    requires id in c.redundant && id in a.multi
    ensures Revoted(a, Asked(c, a, id, node), id, 1)
  {
  }

  lemma {:induction false} AllRevote(c: Setup, a: Archive, id: Text, nodes: seq<nat>)
    requires id in c.redundant && id in a.multi
    ensures Revoted(a, AskedAll(c, a, id, nodes), id, |nodes|) && AskedAll(c, a, id, nodes).requests == a.requests + Requests(id, nodes)
  {
    if nodes == [] {
      assert a.requests + Requests(id, nodes) == a.requests;
    } else {
      var init, last := nodes[..|nodes| - 1], nodes[|nodes| - 1];
      AllRevote(c, a, id, init);
      var mid := AskedAll(c, a, id, init);
      AskedRevotes(c, mid, id, last);
      RevotedStep(a, mid, Asked(c, mid, id, last), id, |init|, 1);
      assert Requests(id, nodes) == Requests(id, init) + [Request(id, last)];
      assert a.requests + Requests(id, nodes) == a.requests + Requests(id, init) + [Request(id, last)];
    }
  }

  function Requests(id: Text, nodes: seq<nat>): (requests: seq<Request>)
    ensures |requests| == |nodes|
  {
    seq(|nodes|, i requires 0 <= i < |nodes| => Request(id, nodes[i]))
  }

  lemma ReaskedRevotes(c: Setup, alive: seq<bool>, a: Archive, b: Archive, id: Text, n: nat)
    requires Reasked(c, alive, a, b, id, n) && id in c.redundant && id in a.multi
    ensures Revoted(a, b, id, n) && |b.requests| == |a.requests| + n
    ensures forall k :: |a.requests| <= k < |b.requests| ==> b.requests[k].id == id
  {
    var nodes :| |nodes| == n && AllWellChosen(c, alive, a, id, nodes) && b == AskedAll(c, a, id, nodes);
    AllRevote(c, a, id, nodes);
  }

  /** Up to two rounds of three further copies, while no answer has a strict majority and a node lives. */
  ghost predicate Reconciled(c: Setup, alive: seq<bool>, a: Archive, b: Archive, id: Text) {
    id in a.multi &&
    if HasMajority(a.multi[id]) || !Lives(alive) then b == a
    else exists mid ::
      && Reasked(c, alive, a, mid, id, 3) && id in mid.multi
      && if HasMajority(mid.multi[id]) then b == mid else Reasked(c, alive, mid, b, id, 3)
  }

  /** A round that found no majority. */
  ghost predicate Undecided(c: Setup, alive: seq<bool>, a: Archive, b: Archive, id: Text) {
    id in a.multi && !HasMajority(a.multi[id]) && if Lives(alive) then Reasked(c, alive, a, b, id, 3) else b == a
  }

  ghost predicate Rounded(c: Setup, alive: seq<bool>, a: Archive, b: Archive, id: Text, rounds: nat)
    decreases rounds
  {
    if rounds == 0 then b == a else exists mid :: Rounded(c, alive, a, mid, id, rounds - 1) && Undecided(c, alive, mid, b, id)
  }

  lemma RoundedOne(c: Setup, alive: seq<bool>, a: Archive, mid: Archive, b: Archive, id: Text, rounds: nat)
    requires Rounded(c, alive, a, mid, id, rounds) && Undecided(c, alive, mid, b, id)
    ensures Rounded(c, alive, a, b, id, rounds + 1)
  {
  }

  lemma RoundsReconcile(c: Setup, alive: seq<bool>, a: Archive, b: Archive, id: Text, rounds: nat)
    requires id in a.multi && id in b.multi && rounds <= 2 && Rounded(c, alive, a, b, id, rounds)
    requires rounds < 2 ==> HasMajority(b.multi[id])
    ensures Reconciled(c, alive, a, b, id)
  {
    if rounds > 0 {
      var mid :| Rounded(c, alive, a, mid, id, rounds - 1) && Undecided(c, alive, mid, b, id);
      if rounds == 2 {
        var first :| Rounded(c, alive, a, first, id, 0) && Undecided(c, alive, first, mid, id);
        assert first == a;
      }
    }
  }

  /** How the votes of a redundant instance can end. */
  ghost predicate Verdict(before: seq<Vote>, after: seq<Vote>, lives: bool, confirmed: bool) {
    && Longer(before, after, 6)
    && (HasMajority(before) || !lives ==> after == before)
    && (confirmed && lives && !HasMajority(before) ==> |after| == |before| + 3 || |after| == |before| + 6)
    && (confirmed && lives && !HasMajority(after) ==> |after| == |before| + 6)
  }

  lemma ConfirmedVote(c: Setup, a: Archive, id: Text, node: nat)
    requires id in c.redundant && id in a.multi && AllConfirmed(Asked(c, a, id, node).requests, c.replies)
    ensures
      var b := Asked(c, a, id, node);
      id in b.multi && |b.multi[id]| == |a.multi[id]| + 1
  {
    assert Asked(c, a, id, node).requests[|a.requests|] == Request(id, node);
  }

  lemma {:induction false} AllVote(c: Setup, a: Archive, id: Text, nodes: seq<nat>)
    requires id in c.redundant && id in a.multi && AllConfirmed(AskedAll(c, a, id, nodes).requests, c.replies)
    ensures
      var b := AskedAll(c, a, id, nodes);
      id in b.multi && |b.multi[id]| == |a.multi[id]| + |nodes|
  {
    if nodes != [] {
      var init, last := nodes[..|nodes| - 1], nodes[|nodes| - 1];
      var mid := AskedAll(c, a, id, init);
      AllRevote(c, a, id, init);
      AskedRevotes(c, mid, id, last);
      ConfirmedBefore(mid.requests, Asked(c, mid, id, last).requests, c.replies);
      AllVote(c, a, id, init);
      ConfirmedVote(c, mid, id, last);
    }
  }

  lemma ConfirmedVotes(c: Setup, alive: seq<bool>, a: Archive, b: Archive, id: Text, n: nat)
    requires Reasked(c, alive, a, b, id, n) && id in c.redundant && id in a.multi && AllConfirmed(b.requests, c.replies)
    ensures id in b.multi && |b.multi[id]| == |a.multi[id]| + n
  {
    var nodes :| |nodes| == n && AllWellChosen(c, alive, a, id, nodes) && b == AskedAll(c, a, id, nodes);
    AllVote(c, a, id, nodes);
  }

  lemma ConfirmedBefore(requests: seq<Request>, more: seq<Request>, replies: nat -> Reply)
    requires requests <= more && AllConfirmed(more, replies)
    ensures AllConfirmed(requests, replies)
  {
    assert forall k :: 0 <= k < |requests| ==> requests[k] == more[k];
  }

  /** No agreement although a node lives and all answers were confirmed means six further votes; a majority is never asked again. */
  lemma ReconciledVerdict(c: Setup, alive: seq<bool>, a: Archive, b: Archive, id: Text)
    requires Reconciled(c, alive, a, b, id) && id in c.redundant
    ensures Revoted(a, b, id, 6) && Verdict(a.multi[id], b.multi[id], Lives(alive), AllConfirmed(b.requests, c.replies))
  {
    if !HasMajority(a.multi[id]) && Lives(alive) {
      var mid :| Reasked(c, alive, a, mid, id, 3) && id in mid.multi
        && if HasMajority(mid.multi[id]) then b == mid else Reasked(c, alive, mid, b, id, 3);
      ReaskedRevotes(c, alive, a, mid, id, 3);
      if !HasMajority(mid.multi[id]) {
        ReaskedRevotes(c, alive, mid, b, id, 3);
        RevotedStep(a, mid, b, id, 3, 3);
      }
      if AllConfirmed(b.requests, c.replies) {
        ConfirmedBefore(mid.requests, b.requests, c.replies);
        ConfirmedVotes(c, alive, a, mid, id, 3);
        if !HasMajority(mid.multi[id]) {
          ConfirmedVotes(c, alive, mid, b, id, 3);
        }
      }
    }
  }

  /** All of the listed instances, one after the other. */
  ghost predicate ReconciledAll(c: Setup, alive: seq<bool>, a: Archive, b: Archive, order: seq<Text>)
    decreases |order|, 1
  {
    if order == [] then b == a else exists mid :: ReconciledVia(c, alive, a, mid, b, order)
  }

  ghost predicate ReconciledVia(c: Setup, alive: seq<bool>, a: Archive, mid: Archive, b: Archive, order: seq<Text>)
    requires order != []
    decreases |order|, 0
  {
    ReconciledAll(c, alive, a, mid, order[..|order| - 1]) && Reconciled(c, alive, mid, b, order[|order| - 1])
  }

  lemma ReconciledOne(c: Setup, alive: seq<bool>, a: Archive, mid: Archive, b: Archive, order: seq<Text>, k: nat)
    requires k < |order| && ReconciledAll(c, alive, a, mid, order[..k]) && Reconciled(c, alive, mid, b, order[k])
    ensures ReconciledAll(c, alive, a, b, order[..k + 1])
  {
    assert order[..k + 1][..k] == order[..k];
    assert ReconciledVia(c, alive, a, mid, b, order[..k + 1]);
  }

  /** What has become of one instance. */
  ghost predicate Fate(c: Setup, a: Archive, b: Archive, id: Text, lives: bool, listed: bool) {
    && id in a.multi && id in b.multi && b.single == a.single && a.requests <= b.requests && b.multi.Keys == a.multi.Keys
    && if listed then Verdict(a.multi[id], b.multi[id], lives, AllConfirmed(b.requests, c.replies)) else b.multi[id] == a.multi[id]
  }

  lemma {:induction false} EveryVerdict(c: Setup, alive: seq<bool>, a: Archive, b: Archive, order: seq<Text>, id: Text)
    requires ReconciledAll(c, alive, a, b, order) && Suite.Distinct(order) && (forall j :: j in order ==> j in c.redundant) && id in a.multi
    ensures Fate(c, a, b, id, Lives(alive), id in order)
    decreases |order|
  {
    if order != [] {
      var init, last := order[..|order| - 1], order[|order| - 1];
      var mid :| ReconciledVia(c, alive, a, mid, b, order);
      LastIsNew(order, id);
      EveryVerdict(c, alive, a, mid, init, id);
      ReconciledVerdict(c, alive, mid, b, last);
      FateNext(c, a, mid, b, id, last, Lives(alive), id in init);
    }
  }

  lemma LastIsNew(order: seq<Text>, id: Text)
    requires Suite.Distinct(order) && order != []
    ensures
      var init, last := order[..|order| - 1], order[|order| - 1];
      && Suite.Distinct(init) && last !in init && last in order && (id in order <==> id in init || id == last)
      && forall j :: j in init ==> j in order
  {
    assert order == order[..|order| - 1] + [order[|order| - 1]];
  }

  lemma FateNext(c: Setup, a: Archive, mid: Archive, b: Archive, id: Text, last: Text, lives: bool, listed: bool)
    requires Fate(c, a, mid, id, lives, listed) && Revoted(mid, b, last, 6) && (id == last ==> !listed)
    requires Verdict(mid.multi[last], b.multi[last], lives, AllConfirmed(b.requests, c.replies))
    ensures Fate(c, a, b, id, lives, listed || id == last)
  {
    if AllConfirmed(b.requests, c.replies) {
      ConfirmedBefore(mid.requests, b.requests, c.replies);
    }
    if listed {
      VerdictLater(c, a, mid, b, id, lives);
    }
  }

  lemma VerdictLater(c: Setup, a: Archive, mid: Archive, b: Archive, id: Text, lives: bool)
    requires id in a.multi && id in mid.multi && id in b.multi && b.multi[id] == mid.multi[id]
    requires AllConfirmed(b.requests, c.replies) ==> AllConfirmed(mid.requests, c.replies)
    requires Verdict(a.multi[id], mid.multi[id], lives, AllConfirmed(mid.requests, c.replies))
    ensures Verdict(a.multi[id], b.multi[id], lives, AllConfirmed(b.requests, c.replies))
  {
  }

  /** The votes of every redundant instance end as they should, given those the workers left. */
  ghost predicate Settled(first: Archive, last: Archive, lives: bool, confirmed: bool) {
    && first.requests <= last.requests && first.single == last.single && first.multi.Keys == last.multi.Keys
    && forall id :: id in last.multi ==> Verdict(first.multi[id], last.multi[id], lives, confirmed)
  }

  lemma AllSettled(c: Setup, alive: seq<bool>, a: Archive, b: Archive, order: seq<Text>)
    requires ReconciledAll(c, alive, a, b, order) && Suite.Distinct(order) && (forall id :: id in order <==> id in a.multi)
    requires (forall id :: id in order ==> id in c.redundant)
    ensures Settled(a, b, Lives(alive), AllConfirmed(b.requests, c.replies))
  {
    if order == [] {
      assert a.multi.Keys == {};
    } else {
      EveryVerdict(c, alive, a, b, order, order[0]);
    }
    forall id | id in a.multi ensures id in b.multi && Verdict(a.multi[id], b.multi[id], Lives(alive), AllConfirmed(b.requests, c.replies)) {
      EveryVerdict(c, alive, a, b, order, id);
    }
  }

  // ---------- what further copies decide ----------

  /** The answers to the requests from one number to another are confirmed and all carry this key. */
  ghost predicate AllSay(c: Setup, requests: seq<Request>, from: nat, key: Text) {
    forall k: nat :: from <= k < |requests| ==>
      Confirms(c.replies(k), requests[k].node) && TallyKey(ComparableOf(c.replies(k).results[0], c.answerOf)) == key
  }

  lemma AllSayBefore(c: Setup, requests: seq<Request>, more: seq<Request>, from: nat, key: Text)
    requires requests <= more && AllSay(c, more, from, key)
    ensures AllSay(c, requests, from, key)
  {
    assert forall k :: 0 <= k < |requests| ==> requests[k] == more[k];
  }

  lemma CountSnoc(votes: seq<Vote>, v: Vote, key: Text)
    ensures Count(votes + [v], key) == Count(votes, key) + if TallyKey(v.result) == key then 1 else 0
  {
    assert (votes + [v])[..|votes|] == votes;
  }

  lemma {:induction false} AllSaid(c: Setup, a: Archive, id: Text, nodes: seq<nat>, key: Text, other: Text)
    requires id in c.redundant && id in a.multi && AllSay(c, AskedAll(c, a, id, nodes).requests, |a.requests|, key)
    ensures
      var b := AskedAll(c, a, id, nodes);
      && id in b.multi && |b.multi[id]| == |a.multi[id]| + |nodes|
      && Count(b.multi[id], other) == Count(a.multi[id], other) + if other == key then |nodes| else 0
  {
    if nodes != [] {
      var init, last := nodes[..|nodes| - 1], nodes[|nodes| - 1];
      var mid := AskedAll(c, a, id, init);
      AllRevote(c, a, id, init);
      AskedRevotes(c, mid, id, last);
      AllSayBefore(c, mid.requests, Asked(c, mid, id, last).requests, |a.requests|, key);
      AllSaid(c, a, id, init, key, other);
      SaidOnce(c, a, mid, id, last, key, other);
    }
  }

  lemma SameSaid(c: Setup, alive: seq<bool>, a: Archive, b: Archive, id: Text, n: nat, key: Text, other: Text)
    requires Reasked(c, alive, a, b, id, n) && id in c.redundant && id in a.multi && AllSay(c, b.requests, |a.requests|, key)
    ensures id in b.multi && |b.multi[id]| == |a.multi[id]| + n
    ensures Count(b.multi[id], other) == Count(a.multi[id], other) + if other == key then n else 0
  {
    var nodes :| |nodes| == n && AllWellChosen(c, alive, a, id, nodes) && b == AskedAll(c, a, id, nodes);
    AllSaid(c, a, id, nodes, key, other);
  }

  lemma SaidOnce(c: Setup, a: Archive, mid: Archive, id: Text, node: nat, key: Text, other: Text)
    requires id in c.redundant && id in mid.multi && |a.requests| <= |mid.requests| && AllSay(c, Asked(c, mid, id, node).requests, |a.requests|, key)
    ensures
      var b := Asked(c, mid, id, node);
      && id in b.multi && |b.multi[id]| == |mid.multi[id]| + 1
      && Count(b.multi[id], other) == Count(mid.multi[id], other) + if other == key then 1 else 0
  {
    var b, k := Asked(c, mid, id, node), |mid.requests|;
    assert b.requests[k] == Request(id, node);
    CountSnoc(mid.multi[id], Vote(node, ComparableOf(c.replies(k).results[0], c.answerOf)), other);
  }

  /** Further votes for one key give it a majority or give nobody one. */
  lemma OnlyOneGains(v: seq<Vote>, w: seq<Vote>, key: Text, n: nat)
    requires !HasMajority(v) && |w| == |v| + n
    requires forall j :: Count(w, j) == Count(v, j) + if j == key then n else 0
    ensures HasMajority(w) <==> 2 * Count(v, key) + n > |v|
  {
    if HasMajority(w) {
      var j :| Majority(w, j);
      assert !Majority(v, j);
    }
    if 2 * Count(v, key) + n > |v| {
      assert Majority(w, key);
    }
  }

  lemma SameGain(c: Setup, alive: seq<bool>, a: Archive, b: Archive, id: Text, n: nat, key: Text)
    requires Reasked(c, alive, a, b, id, n) && id in c.redundant && id in a.multi && AllSay(c, b.requests, |a.requests|, key) && !HasMajority(a.multi[id])
    ensures id in b.multi && (HasMajority(b.multi[id]) <==> 2 * Count(a.multi[id], key) + n > |a.multi[id]|)
    ensures |b.multi[id]| == |a.multi[id]| + n && Count(b.multi[id], key) == Count(a.multi[id], key) + n
  {
    SameSaid(c, alive, a, b, id, n, key, key);
    forall j ensures Count(b.multi[id], j) == Count(a.multi[id], j) + if j == key then n else 0 {
      SameSaid(c, alive, a, b, id, n, key, j);
    }
    OnlyOneGains(a.multi[id], b.multi[id], key, n);
  }

  /** If all further answers agree on one result, the reconciliation ends agreed exactly when six more votes for it are enough. */
  lemma FurtherVotesDecide(c: Setup, alive: seq<bool>, a: Archive, b: Archive, id: Text, key: Text)
    requires Reconciled(c, alive, a, b, id) && id in c.redundant && Lives(alive) && !HasMajority(a.multi[id]) && AllSay(c, b.requests, |a.requests|, key)
    ensures id in b.multi && (HasMajority(b.multi[id]) <==> 2 * Count(a.multi[id], key) + 6 > |a.multi[id]|)
  {
    var mid :| Reasked(c, alive, a, mid, id, 3) && id in mid.multi
      && if HasMajority(mid.multi[id]) then b == mid else Reasked(c, alive, mid, b, id, 3);
    ReaskedRevotes(c, alive, a, mid, id, 3);
    if HasMajority(mid.multi[id]) {
      SameGain(c, alive, a, mid, id, 3, key);
    } else {
      ReaskedRevotes(c, alive, mid, b, id, 3);
      AllSayBefore(c, mid.requests, b.requests, |a.requests|, key);
      SameGain(c, alive, a, mid, id, 3, key);
      SameGain(c, alive, mid, b, id, 3, key);
    }
  }

  class Coordinator {
    const ids: seq<Text>
    const redundant: set<Text>
    const items: seq<Item>
    const limit: nat
    const replies: nat -> Reply
    const answerOf: Text -> Json

    var queue: seq<nat>
    var next: nat
    var attempts: seq<nat>
    var failed: nat
    var requeues: nat
    var workers: seq<Worker>
    var alive: seq<bool>
    var rr: nat
    var salt: nat
    var single: map<Text, Comparable>
    var multi: map<Text, seq<Vote>>
    var order: seq<Text>

    ghost var place: seq<Place>
    ghost var taken: seq<nat>
    ghost var requests: seq<Request>

    ghost function Given(): Setup {
      Setup(ids, redundant, items, replies, answerOf)
    }

    ghost function Kept(): Archive
      reads this`requests, this`single, this`multi
    {
      Archive(requests, single, multi)
    }

    /** Facts fixed by the set-up, and what the workers hold. */
    ghost predicate Shaped()
      reads this`attempts, this`workers, this`alive, this`salt, this`requests, this`order, this`multi
    {
      && Suite.Distinct(ids) && redundant == RedundantIds(ids)
      && |attempts| == |items| && (forall k :: 0 <= k < |items| ==> items[k].inst < |ids|)
      && limit == MaxAttempts(|alive|) && salt == |requests| && workers != []
      && (forall k :: 0 <= k < |requests| ==> requests[k].node < |alive| && requests[k].id in ids)
      && (forall w :: 0 <= w < |workers| && workers[w].Waiting? ==>
            && workers[w].item < |items| && workers[w].node < |alive| && workers[w].request < |requests|
            && requests[workers[w].request] == Request(ids[items[workers[w].item].inst], workers[w].node))
      && (forall w :: 0 <= w < |workers| && workers[w].Replied? ==> workers[w].node < |alive|)
      && (forall id :: id in order <==> id in multi) && Suite.Distinct(order)
    }

    /** Holds also in the middle of a step. */
    ghost predicate Core()
      reads this`attempts, this`workers, this`alive, this`salt, this`requests, this`order, this`multi, this`single
      reads this`failed, this`place, this`taken, this`queue, this`next
    {
      && Shaped()
      && Books(limit, attempts, failed, place, taken) && Unread(queue, next, place) && InHand(workers, place)
      && OnRecord(ids, redundant, single, multi, requests, replies, answerOf)
    }

    /** Every confirmed answer is on file, and a run of confirmed answers loses nothing. */
    ghost predicate Traced()
      reads this`workers, this`place, this`requests, this`single, this`multi, this`alive, this`queue, this`next, this`failed
    {
      && Filing(Given(), workers, place, Kept())
      && (AllConfirmed(requests, replies) && alive != [] ==> Smooth(queue, next, workers, place, alive, failed))
    }

    ghost predicate Valid()
      reads this`attempts, this`workers, this`alive, this`salt, this`requests, this`order, this`multi, this`single
      reads this`failed, this`place, this`taken, this`queue, this`next
    {
      Core() && Traced()
    }

    constructor (ids: seq<Text>, nodes: nat, replies: nat -> Reply, answerOf: Text -> Json, items: seq<Item>)
      requires Suite.Distinct(ids) && Enqueued(items, |ids|)
      ensures Valid() && this.ids == ids && this.replies == replies && this.answerOf == answerOf && this.items == items
      ensures requests == [] && failed == 0 && single == map[] && multi == map[] && workers == [Ready, Ready, Ready, Ready]
      ensures alive == seq(nodes, i => true) && limit == MaxAttempts(nodes)
    {
      this.ids, this.items, this.replies, this.answerOf := ids, items, replies, answerOf;
      this.redundant := RedundantIds(ids);
      this.limit := MaxAttempts(nodes);
      queue, next := seq(|items|, i => i), 0;
      attempts, failed, requeues := seq(|items|, i => 0), 0, 0;
      workers := seq(CONCURRENCY, i => Ready);
      alive, rr, salt := seq(nodes, i => true), 0, 0;
      single, multi, order := map[], map[], [];
      place, taken, requests := seq(|items|, (i: nat) => Queued(i)), seq(|items|, i => 0), [];
      new;
      EnqueuedItemised(Given());
    }

    /** A living node, outside `exclude` if there is one; none only when no node is left. */
    method PickNode(exclude: seq<nat>) returns (n: Option<nat>)
      modifies this`rr
      ensures n.None? <==> forall k :: 0 <= k < |alive| ==> !alive[k]
      ensures n.Some? ==> n.value < |alive| && alive[n.value]
      ensures n.Some? && n.value in exclude ==> forall k: nat :: k < |alive| && alive[k] ==> k in exclude
    {
      var pool := Living(alive, [], |alive|);
      if |pool| == 0 {
        assert forall k :: 0 <= k < |alive| && alive[k] ==> k in pool;
        return None;
      }
      assert pool[0] in pool;
      var preferred := Living(alive, exclude, |alive|);
      var list := if |preferred| > 0 then preferred else pool;
      var picked := list[rr % |list|];
      assert picked in list;
      rr := rr + 1;
      if |preferred| == 0 {
        assert forall k: nat :: k < |alive| && alive[k] && k !in exclude ==> k in preferred;
      }
      return Some(picked);
    }

    /** Files a verified result under its instance. */
    method Record(node: nat, id: Text, c: Comparable)
      requires OnRecord(ids, redundant, single, multi, requests, replies, answerOf)
      requires id in ids && Backed(requests, replies, answerOf, id, node, c)
      requires (forall j :: j in order <==> j in multi) && Suite.Distinct(order)
      modifies this`single, this`multi, this`order
      ensures OnRecord(ids, redundant, single, multi, requests, replies, answerOf)
      ensures (forall j :: j in order <==> j in multi) && Suite.Distinct(order)
      ensures Kept() == Put(old(Kept()), redundant, id, node, c)
      ensures id !in redundant || id in old(multi) ==> order == old(order)
    {
      if id in redundant {
        VoteFiled(ids, redundant, single, multi, requests, replies, answerOf, id, node, c);
        if id !in multi {
          multi := multi[id := []];
          order := order + [id];
        }
        multi := multi[id := multi[id] + [Vote(node, c)]];
        assert multi == old(multi)[id := VotesFor(old(multi), id) + [Vote(node, c)]];
      } else {
        SingleFiled(ids, redundant, single, multi, requests, replies, answerOf, id, node, c);
        single := single[id := c];
      }
    }

    /** The item goes back to the queue, or is given up after too many attempts. */
    method Requeue(w: nat, item: nat)
      requires w < |workers| && workers[w] == Ready && item < |place| && place[item] == Held(w)
      requires Books(limit, attempts, failed, place, taken) && Unread(queue, next, place) && InHand(workers, place)
      modifies this`queue, this`attempts, this`failed, this`place
      ensures Books(limit, attempts, failed, place, taken) && Unread(queue, next, place) && InHand(workers, place)
      ensures PutBack(old(place), place, item)
      ensures |attempts| == |old(attempts)| && Remaining(attempts, limit) < old(Remaining(attempts, limit))
      ensures TriedAgain(limit, item, old(attempts), attempts, old(failed), failed, old(queue), queue)
    {
      assert Account(place[item], attempts[item], taken[item], limit);
      AttemptSpent(attempts, item, limit);
      var a := attempts[item] + 1;
      ghost var p := if a > limit then Dropped else Queued(|queue|);
      BooksStep(limit, attempts, failed, place, taken, item, a, if a > limit then failed + 1 else failed, p, taken[item]);
      UnreadStep(queue, next, place, item, p);
      InHandStep(workers, place, w, item, p);
      assert taken[item := taken[item]] == taken;
      place := place[item := p];
      attempts := attempts[item := a];
      if attempts[item] > limit {
        failed := failed + 1;
      } else {
        queue := queue + [item];
      }
    }

    /** Work left: attempts allowed, unread queue entries, workers' positions. */
    ghost function Work(): (nat, nat, nat)
      reads this`attempts, this`queue, this`next, this`workers
    {
      (Remaining(attempts, limit), if next < |queue| then |queue| - next else 0, Ranks(workers))
    }

    /** Puts a request to a node on behalf of a worker. */
    method Ask(w: nat, item: nat, node: nat)
      requires Core() && w < |workers| && workers[w] == Ready && node < |alive|
      requires item < |items| && item < |place| && place[item] == Held(w)
      modifies this`workers, this`salt, this`requests
      ensures Core() && |workers| == |old(workers)|
      ensures workers == old(workers)[w := Waiting(item, node, old(|requests|))]
      ensures requests == old(requests) + [Request(ids[items[item].inst], node)]
    {
      ghost var request := Request(ids[items[item].inst], node);
      RecordLater(ids, redundant, single, multi, requests, request, replies, answerOf);
      workers := workers[w := Waiting(item, node, salt)];
      salt := salt + 1;
      requests := requests + [request];
    }

    /** Reads the next queue entry; its item is now in the worker's hands. */
    method TakeItem(w: nat) returns (item: nat)
      requires Core() && w < |workers| && workers[w] == Ready && next < |queue|
      modifies this`next, this`place, this`taken
      ensures Core() && next == old(next) + 1
      ensures item == queue[old(next)] && item < |items| && old(place)[item] == Queued(old(next)) && place == old(place)[item := Held(w)]
      ensures taken == old(taken)[item := old(taken)[item] + 1]
    {
      item := queue[next];
      assert place[item] == Queued(next);
      assert Account(place[item], attempts[item], taken[item], limit);
      next := next + 1;
      BooksStep(limit, attempts, failed, place, taken, item, attempts[item], failed, Held(w), taken[item] + 1);
      InHandStep(workers, place, w, item, Held(w));
      assert attempts[item := attempts[item]] == attempts;
      place := place[item := Held(w)];
      taken := taken[item := taken[item] + 1];
    }

    /** The item in the worker's hands goes back to the queue, or is given up. */
    method Retry(w: nat, item: nat)
      requires Core() && w < |workers| && workers[w] == Ready && item < |items| && place[item] == Held(w)
      modifies this`queue, this`attempts, this`failed, this`place
      ensures PutBack(old(place), place, item)
      ensures Core() && Remaining(attempts, limit) < old(Remaining(attempts, limit))
      ensures TriedAgain(limit, item, old(attempts), attempts, old(failed), failed, old(queue), queue)
    {
      Requeue(w, item);
    }

    /** A worker that finds no entry leaves; the cursor moves on regardless. */
    method Leave(w: nat)
      requires Core() && w < |workers| && workers[w] == Ready && next >= |queue|
      modifies this`next, this`workers
      ensures Core() && workers == old(workers)[w := Gone] && next == old(next) + 1
      ensures Ranks(workers) < old(Ranks(workers))
    {
      RankChange(workers, w, Gone);
      next := next + 1;
      workers := workers[w := Gone];
    }

    lemma Left(w: nat, workers0: seq<Worker>, next0: nat)
      requires w < |workers0| && workers0[w].Ready? && workers == workers0[w := Gone] && next == next0 + 1 && next0 >= |queue|
      requires Filing(Given(), workers0, place, Kept())
      requires AllConfirmed(requests, replies) && alive != [] ==> Smooth(queue, next0, workers0, place, alive, failed)
      ensures Traced()
    {
      forall k: nat | k < |requests| && Awaited(workers0, k) ensures Awaited(workers, k) {
        StillAwaited(workers0, w, Gone, k);
      }
      forall i: nat | i < |items| ensures Resolved(workers, place, i) <==> Resolved(workers0, place, i) {
        if i < |place| {
          ResolvedElsewhere(workers0, place, w, Gone, i);
        }
      }
      FilingKept(Given(), workers0, place, Kept(), workers, place);
      if AllConfirmed(requests, replies) && alive != [] {
        SmoothLeft(queue, next0, workers0, place, alive, failed, w);
      }
    }

    /** From the top of the worker loop to its first await: take an item and ask a node, or leave. */
    method Fetch(w: nat)
      requires Valid() && w < |workers| && workers[w] == Ready
      modifies this`next, this`workers, this`queue, this`attempts, this`failed, this`place, this`taken, this`rr, this`salt, this`requests
      ensures Valid() && |workers| == |old(workers)|
      ensures Below(Work(), old(Work()))
    {
      if next >= |queue| {
        Leave(w);
        Left(w, old(workers), old(next));
      } else {
        Dispatch(w);
      }
    }

    /** The next item is taken and a node asked for it; without a node it is put back. */
    method Dispatch(w: nat)
      requires Valid() && w < |workers| && workers[w] == Ready && next < |queue|
      modifies this`next, this`workers, this`queue, this`attempts, this`failed, this`place, this`taken, this`rr, this`salt, this`requests
      ensures Valid() && |workers| == |old(workers)|
      ensures Remaining(attempts, limit) < old(Remaining(attempts, limit))
              || (attempts == old(attempts) && queue == old(queue) && next == old(next) + 1)
    {
      ghost var at := place;
      var item := TakeItem(w);
      Assign(w, item, at, old(next));
    }

    /** The item just taken goes to a node, or back. */
    method Assign(w: nat, item: nat, ghost at: seq<Place>, ghost next0: nat)
      requires Core() && w < |workers| && workers[w] == Ready && item < |items| && item < |at| && at[item].Queued?
      requires place == at[item := Held(w)] && next0 < |queue| && item == queue[next0] && next == next0 + 1
      requires Filing(Given(), workers, at, Kept())
      requires AllConfirmed(requests, replies) && alive != [] ==> Smooth(queue, next0, workers, at, alive, failed)
      modifies this`workers, this`queue, this`attempts, this`failed, this`place, this`rr, this`salt, this`requests
      ensures Valid() && |workers| == |old(workers)|
      ensures Remaining(attempts, limit) < old(Remaining(attempts, limit)) || (attempts == old(attempts) && queue == old(queue))
    {
      assert AllConfirmed(requests, replies) && alive != [] ==> alive[0];
      var n := ChooseFor(item);
      if n.None? {
        Defer(w, item, at);
      } else {
        Send(w, item, n.value, at, next0);
      }
    }

    method Defer(w: nat, item: nat, ghost at: seq<Place>)
      requires Core() && w < |workers| && workers[w] == Ready && item < |items| && item < |at| && at[item].Queued?
      requires place == at[item := Held(w)] && !(AllConfirmed(requests, replies) && alive != []) && Filing(Given(), workers, at, Kept())
      modifies this`queue, this`attempts, this`failed, this`place
      ensures Valid() && Remaining(attempts, limit) < old(Remaining(attempts, limit))
    {
      Retry(w, item);
      PutOff(w, item, at);
    }

    method Send(w: nat, item: nat, node: nat, ghost at: seq<Place>, ghost next0: nat)
      requires Core() && w < |workers| && workers[w] == Ready && node < |alive| && item < |items| && item < |at| && at[item].Queued?
      requires place == at[item := Held(w)] && next0 < |queue| && item == queue[next0] && next == next0 + 1
      requires Filing(Given(), workers, at, Kept())
      requires AllConfirmed(requests, replies) && alive != [] ==> Smooth(queue, next0, workers, at, alive, failed)
      modifies this`workers, this`salt, this`requests
      ensures Valid() && |workers| == |old(workers)|
    {
      ghost var asked := requests;
      Ask(w, item, node);
      Sent(w, item, node, old(workers), at, next0, asked);
    }

    lemma PutOff(w: nat, item: nat, at: seq<Place>)
      requires w < |workers| && workers[w].Ready? && !(AllConfirmed(requests, replies) && alive != [])
      requires item < |at| && at[item].Queued? && PutBack(at, place, item) && Filing(Given(), workers, at, Kept())
      ensures Traced()
    {
      MovedFiling(Given(), workers, at, Kept(), w, Ready, item, place[item]);
      assert workers[w := Ready] == workers;
    }

    lemma Sent(w: nat, item: nat, node: nat, workers0: seq<Worker>, at: seq<Place>, next0: nat, asked: seq<Request>)
      requires w < |workers0| && workers0[w].Ready? && item < |items| && item < |at| && at[item].Queued? && Sized(Given())
      requires next0 < |queue| && item == queue[next0] && next == next0 + 1
      requires workers == workers0[w := Waiting(item, node, |asked|)] && place == at[item := Held(w)]
      requires requests == asked + [Request(IdOf(Given(), item), node)]
      requires Filing(Given(), workers0, at, Archive(asked, single, multi))
      requires AllConfirmed(asked, replies) && alive != [] ==> Smooth(queue, next0, workers0, at, alive, failed)
      ensures Traced()
    {
      AskedFiling(Given(), workers0, at, Archive(asked, single, multi), w, item, node);
      if AllConfirmed(requests, replies) && alive != [] {
        assert forall k :: 0 <= k < |asked| ==> requests[k] == asked[k];
        SmoothAsked(queue, next0, workers0, at, alive, failed, w, workers[w]);
      }
    }

    /** An extra copy prefers a node that holds no copy of its instance yet. */
    method ChooseFor(item: nat) returns (n: Option<nat>)
      requires item < |items| && items[item].inst < |ids|
      modifies this`rr
      ensures n.None? <==> forall k :: 0 <= k < |alive| ==> !alive[k]
      ensures n.Some? ==> n.value < |alive| && alive[n.value]
      ensures n.Some? && items[item].extraCopy && Voted(n.value, VotesFor(multi, ids[items[item].inst])) ==>
                forall k: nat :: k < |alive| && alive[k] ==> Voted(k, VotesFor(multi, ids[items[item].inst]))
    {
      var votes := VotesFor(multi, ids[items[item].inst]);
      var exclude := if items[item].extraCopy then NodesOf(votes) else [];
      n := PickNode(exclude);
    }

    /** The node's reply is in: a verified result goes on record. */
    method Answered(w: nat)
      requires Valid() && w < |workers| && workers[w].Waiting?
      modifies this`workers, this`single, this`multi, this`order
      ensures Valid() && |workers| == |old(workers)|
      ensures Below(Work(), old(Work()))
      ensures workers[w].Replied? && workers[w].outcome == Judge(replies(old(workers[w].request)), old(workers[w].node))
      ensures workers[w].outcome.Fine? <==> Confirms(replies(old(workers[w].request)), old(workers[w].node))
      ensures !workers[w].outcome.Fine? ==> Kept() == old(Kept())
      ensures workers[w].outcome.Fine? ==>
                Kept() == Put(old(Kept()), redundant, ids[items[old(workers[w].item)].inst], old(workers[w].node),
                              ComparableOf(replies(old(workers[w].request)).results[0], answerOf))
    {
      var held := workers[w];
      var reply := replies(held.request);
      var outcome := Judge(reply, held.node);
      ghost var before, a := workers, Kept();
      if outcome.Fine? {
        File(held, reply);
      }
      Reply(w, outcome);
      Answers(w, before, a);
    }

    lemma Answers(w: nat, before: seq<Worker>, a: Archive)
      requires Filing(Given(), before, place, a) && Waits(Given(), before, place, a, w) && requests == a.requests
      requires AllConfirmed(a.requests, replies) && alive != [] ==> Smooth(queue, next, before, place, alive, failed)
      requires
        var held := before[w];
        && workers == before[w := Replied(held.item, held.node, Judge(replies(held.request), held.node))]
        && Kept() == if Confirms(replies(held.request), held.node)
                     then Put(a, redundant, IdOf(Given(), held.item), held.node, ComparableOf(replies(held.request).results[0], answerOf))
                     else a
      ensures Traced()
    {
      var held := before[w];
      if Confirms(replies(held.request), held.node) {
        AnsweredFiling(Given(), before, place, a, w, Kept());
      } else {
        RefusedFiling(Given(), before, place, a, w, Judge(replies(held.request), held.node));
      }
      if AllConfirmed(requests, replies) && alive != [] {
        assert Confirms(replies(held.request), requests[held.request].node);
        SmoothAnswered(queue, next, before, place, alive, failed, w);
      }
    }

    /** A verified reply to a waiting worker's request is filed under its instance. */
    method File(held: Worker, reply: Reply)
      requires Core() && held in workers && held.Waiting? && reply == replies(held.request) && Confirms(reply, held.node)
      modifies this`single, this`multi, this`order
      ensures Core()
      ensures Kept() == Put(old(Kept()), redundant, ids[items[held.item].inst], held.node, ComparableOf(reply.results[0], answerOf))
    {
      var id := ids[items[held.item].inst];
      var c := ComparableOf(reply.results[0], answerOf);
      assert Proves(requests[held.request], reply, answerOf, id, held.node, c);
      Record(held.node, id, c);
    }

    method Reply(w: nat, outcome: Outcome)
      requires Core() && w < |workers| && workers[w].Waiting?
      modifies this`workers
      ensures Core() && workers == old(workers)[w := Replied(old(workers)[w].item, old(workers)[w].node, outcome)]
      ensures Ranks(workers) < old(Ranks(workers))
    {
      var held := workers[w];
      RankChange(workers, w, Replied(held.item, held.node, outcome));
      workers := workers[w := Replied(held.item, held.node, outcome)];
    }

    /** The worker is back at the top of its loop. */
    method Release(w: nat)
      requires Core() && w < |workers| && workers[w].Replied?
      modifies this`workers
      ensures Core() && workers == old(workers)[w := Ready]
      ensures Ranks(workers) < old(Ranks(workers))
    {
      RankChange(workers, w, Ready);
      workers := workers[w := Ready];
    }

    method MarkDead(node: nat)
      requires Core() && node < |alive|
      modifies this`alive
      ensures Core() && alive == old(alive)[node := false]
    {
      alive := alive[node := false];
    }

    /** The worker goes on: done with the item, or the item is tried again. */
    method Settle(w: nat)
      requires Valid() && w < |workers| && workers[w].Replied?
      modifies this`workers, this`alive, this`requeues, this`queue, this`attempts, this`failed, this`place
      ensures Valid() && |workers| == |old(workers)|
      ensures Below(Work(), old(Work()))
      ensures old(workers[w]).outcome.Fine? ==> attempts == old(attempts) && queue == old(queue) && failed == old(failed)
      ensures !old(workers[w]).outcome.Fine? ==>
                TriedAgain(limit, old(workers[w]).item, old(attempts), attempts, old(failed), failed, old(queue), queue)
      ensures alive == if old(workers[w]).outcome.Dead? then old(alive)[old(workers[w]).node := false] else old(alive)
    {
      var held := workers[w];
      ghost var before, at := workers, place;
      Release(w);
      if held.outcome.Fine? {
        Finish(w, held.item);
        Finishes(w, before, at);
      } else {
        assert !(AllConfirmed(requests, replies) && alive != []);
        Again(w, held.item, held.node, held.outcome.Dead?);
        Returns(w, before, at);
      }
    }

    lemma Finishes(w: nat, before: seq<Worker>, at: seq<Place>)
      requires Filing(Given(), before, at, Kept()) && w < |before| && before[w].Replied? && before[w].outcome.Fine?
      requires before[w].item < |at| && at[before[w].item] == Held(w)
      requires workers == before[w := Ready] && place == at[before[w].item := Done]
      requires AllConfirmed(requests, replies) && alive != [] ==> Smooth(queue, next, before, at, alive, failed)
      ensures Traced()
    {
      MovedFiling(Given(), before, at, Kept(), w, Ready, before[w].item, Done);
      if AllConfirmed(requests, replies) && alive != [] {
        SmoothSettled(queue, next, before, at, alive, failed, w);
      }
    }

    lemma Returns(w: nat, before: seq<Worker>, at: seq<Place>)
      requires Filing(Given(), before, at, Kept()) && w < |before| && before[w].Replied? && !before[w].outcome.Fine?
      requires before[w].item < |at| && at[before[w].item] == Held(w)
      requires workers == before[w := Ready] && PutBack(at, place, before[w].item) && !(AllConfirmed(requests, replies) && alive != [])
      ensures Traced()
    {
      MovedFiling(Given(), before, at, Kept(), w, Ready, before[w].item, place[before[w].item]);
    }

    /** The item did not get its result: a node that refused is dead, and the item is tried again or given up. */
    method Again(w: nat, item: nat, node: nat, dead: bool)
      requires Core() && w < |workers| && workers[w] == Ready && item < |items| && place[item] == Held(w) && node < |alive|
      modifies this`alive, this`requeues, this`queue, this`attempts, this`failed, this`place
      ensures PutBack(old(place), place, item)
      ensures Core() && Remaining(attempts, limit) < old(Remaining(attempts, limit))
      ensures TriedAgain(limit, item, old(attempts), attempts, old(failed), failed, old(queue), queue)
      ensures alive == if dead then old(alive)[node := false] else old(alive)
    {
      if dead {
        MarkDead(node);
      }
      requeues := requeues + 1;
      Retry(w, item);
    }

    ghost method Finish(w: nat, item: nat)
      requires Core() && w < |workers| && workers[w] == Ready && item < |place| && place[item] == Held(w)
      modifies this`place
      ensures Core() && place == old(place)[item := Done]
    {
      assert Account(place[item], attempts[item], taken[item], limit);
      BooksStep(limit, attempts, failed, place, taken, item, attempts[item], failed, Done, taken[item]);
      UnreadStep(queue, next, place, item, Done);
      InHandStep(workers, place, w, item, Done);
      assert attempts[item := attempts[item]] == attempts && taken[item := taken[item]] == taken;
      place := place[item := Done];
    }

    /** One worker, up to its next await. */
    method Step(w: nat)
      requires Valid() && w < |workers| && !workers[w].Gone?
      modifies this
      ensures Valid() && |workers| == |old(workers)| && |alive| == |old(alive)| && Below(Work(), old(Work()))
    {
      match workers[w]
      case Ready => Fetch(w);
      case Waiting(_, _, _) => Answered(w);
      case Replied(_, _, _) => Settle(w);
    }

    /** The four workers, in any interleaving, until all have left. */
    method RunWorkers()
      requires Valid()
      modifies this
      ensures |alive| == |old(alive)|
      ensures Valid() && forall w :: 0 <= w < |workers| ==> workers[w].Gone?
      ensures forall i :: 0 <= i < |taken| ==> taken[i] <= limit + 1
      ensures AllConfirmed(requests, replies) && alive != [] ==> failed == 0 && alive[0] && |single| + |multi| == |ids|
    {
      while exists w :: 0 <= w < |workers| && !workers[w].Gone?
        invariant Valid() && |alive| == |old(alive)|
        decreases Work().0, Work().1, Work().2
      {
        var w :| 0 <= w < |workers| && !workers[w].Gone?;
        Step(w);
      }
      TakenBounded(limit, attempts, failed, place, taken);
      if AllConfirmed(requests, replies) && alive != [] {
        forall i | 0 <= i < |place| ensures place[i].Done? {
          SmoothEnd(queue, next, workers, place, alive, failed, i);
        }
        AllRecorded(Given(), workers, place, Kept());
      }
    }

    // ---------- reconciliation ----------

    /** Numbers a request outside the worker pool. */
    method NewRequest(id: Text, node: nat) returns (k: nat)
      requires Core() && id in ids && node < |alive|
      modifies this`salt, this`requests
      ensures Core() && k == old(|requests|) && requests == old(requests) + [Request(id, node)]
    {
      ghost var request := Request(id, node);
      RecordLater(ids, redundant, single, multi, requests, request, replies, answerOf);
      k := salt;
      salt := salt + 1;
      requests := requests + [request];
    }

    /** One more execution of a redundant instance; a failed one changes nothing on record. */
    method Rerun(id: Text, node: nat)
      requires Valid() && id in redundant && node < |alive| && id in multi
      modifies this`salt, this`requests, this`single, this`multi, this`order
      ensures Valid() && order == old(order) && id in multi && Kept() == Asked(Given(), old(Kept()), id, node)
    {
      ghost var a := Kept();
      var k := NewRequest(id, node);
      Judged(id, node, k);
      Rerecorded(a, id, node);
    }

    /** The answer to a request outside the worker pool. */
    method Judged(id: Text, node: nat, k: nat)
      requires Core() && id in redundant && id in multi && k < |requests| && requests[k] == Request(id, node)
      modifies this`single, this`multi, this`order
      ensures Core() && order == old(order)
      ensures Kept() == if Confirms(replies(k), node) then Put(old(Kept()), redundant, id, node, ComparableOf(replies(k).results[0], answerOf))
                        else old(Kept())
    {
      var reply := replies(k);
      if Judge(reply, node).Fine? {
        var c := ComparableOf(reply.results[0], answerOf);
        assert Proves(requests[k], reply, answerOf, id, node, c);
        Record(node, id, c);
      }
    }

    lemma Rerecorded(a: Archive, id: Text, node: nat)
      requires Filing(Given(), workers, place, a) && id in redundant && id in a.multi
      requires AllConfirmed(a.requests, replies) && alive != [] ==> Smooth(queue, next, workers, place, alive, failed)
      requires Kept() == Asked(Given(), a, id, node)
      ensures Traced() && id in multi
    {
      RerunFiling(Given(), workers, place, a, id, node, Kept());
      if AllConfirmed(requests, replies) {
        assert forall j :: 0 <= j < |a.requests| ==> requests[j] == a.requests[j];
      }
    }

    /** Up to two rounds of further copies while no answer leads; true when a strict majority stands. */
    method Reconcile(id: Text) returns (agreed: bool)
      requires Valid() && id in redundant && id in multi
      modifies this`salt, this`requests, this`single, this`multi, this`order, this`rr
      ensures Valid() && order == old(order) && Reconciled(Given(), alive, old(Kept()), Kept(), id)
      ensures Revoted(old(Kept()), Kept(), id, 6)
      ensures Verdict(old(multi)[id], multi[id], Lives(alive), AllConfirmed(requests, replies))
      ensures agreed <==> HasMajority(multi[id])
    {
      Rounds(id);
      ReconciledVerdict(Given(), alive, old(Kept()), Kept(), id);
      agreed := Agrees(multi[id]);
    }

    method Rounds(id: Text)
      requires Valid() && id in redundant && id in multi
      modifies this`salt, this`requests, this`single, this`multi, this`order, this`rr
      ensures Valid() && order == old(order) && Reconciled(Given(), alive, old(Kept()), Kept(), id)
    {
      var round := 0;
      while round < MAX_ROUNDS
        invariant round <= 2 && Valid() && order == old(order) && id in multi
        invariant Rounded(Given(), alive, old(Kept()), Kept(), id, round)
      {
        var decided := NextRound(id, round, old(Kept()));
        if decided {
          return;
        }
        round := round + 1;
      }
      RoundsReconcile(Given(), alive, old(Kept()), Kept(), id, round);
    }

    /** The next round since `first`. */
    method NextRound(id: Text, round: nat, ghost first: Archive) returns (decided: bool)
      requires Valid() && id in redundant && id in multi && id in first.multi && round < 2 && Rounded(Given(), alive, first, Kept(), id, round)
      modifies this`salt, this`requests, this`single, this`multi, this`order, this`rr
      ensures Valid() && order == old(order) && id in multi
      ensures if decided then Reconciled(Given(), alive, first, Kept(), id) else Rounded(Given(), alive, first, Kept(), id, round + 1)
    {
      ghost var a := Kept();
      decided := OneRound(id);
      if decided {
        RoundsReconcile(Given(), alive, first, Kept(), id, round);
      } else {
        RoundedOne(Given(), alive, first, a, Kept(), id, round);
      }
    }

    /** Three more copies, unless an answer leads. */
    method OneRound(id: Text) returns (decided: bool)
      requires Valid() && id in redundant && id in multi
      modifies this`salt, this`requests, this`single, this`multi, this`order, this`rr
      ensures Valid() && order == old(order) && id in multi && (decided <==> HasMajority(old(multi)[id]))
      ensures decided ==> Kept() == old(Kept())
      ensures !decided ==> Undecided(Given(), alive, old(Kept()), Kept(), id)
    {
      decided := Decides(multi[id]);
      assert multi[id] != [] by {
        assert VotesBacked(requests, replies, answerOf, id, multi[id]);
      }
      if !decided {
        MoreCopies(id);
      }
    }

    /** One round: three further copies if any node lives, preferring nodes outside the last three. */
    method MoreCopies(id: Text)
      requires Valid() && id in redundant && id in multi
      modifies this`salt, this`requests, this`single, this`multi, this`order, this`rr
      ensures Valid() && order == old(order) && id in multi
      ensures if Lives(alive) then Reasked(Given(), alive, old(Kept()), Kept(), id, 3) else Kept() == old(Kept())
    {
      var c := 0;
      ReaskedNone(Given(), alive, Kept(), id);
      while c < REDUNDANT_COPIES
        invariant c <= 3 && Valid() && order == old(order) && id in multi && (c == 0 ==> Kept() == old(Kept()))
        invariant Reasked(Given(), alive, old(Kept()), Kept(), id, c) && (c > 0 ==> Lives(alive))
      {
        ghost var a := Kept();
        var asked, node := OneMore(id);
        if !asked {
          break;
        }
        ReaskedOne(Given(), alive, old(Kept()), a, id, c, node);
        c := c + 1;
      }
    }

    method OneMore(id: Text) returns (asked: bool, ghost node: nat)
      requires Valid() && id in redundant && id in multi
      modifies this`salt, this`requests, this`single, this`multi, this`order, this`rr
      ensures Valid() && order == old(order) && id in multi && (asked <==> Lives(alive))
      ensures asked ==> WellChosen(alive, old(multi)[id], node) && Kept() == Asked(Given(), old(Kept()), id, node)
      ensures !asked ==> Kept() == old(Kept())
    {
      var n := PickNode(LastNodes(multi[id]));
      asked, node := n.Some?, if n.Some? then n.value else 0;
      if asked {
        Rerun(id, n.value);
      }
    }

    /** Every vote is brought to a verdict; counts those without a majority. */
    method ReconcileAll() returns (disagreements: nat)
      requires Valid()
      modifies this`salt, this`requests, this`single, this`multi, this`order, this`rr
      ensures old(requests) <= requests
      ensures Valid() && single == old(single) && multi.Keys == old(multi).Keys && order == old(order)
      ensures ReconciledAll(Given(), alive, old(Kept()), Kept(), order)
      ensures disagreements == 0 <==> forall id :: id in multi ==> HasMajority(multi[id])
    {
      disagreements := 0;
      for k := 0 to |order|
        invariant old(requests) <= requests
        invariant Valid() && single == old(single) && order == old(order) && multi.Keys == old(multi).Keys
        invariant ReconciledAll(Given(), alive, old(Kept()), Kept(), order[..k])
        invariant disagreements == 0 <==> Decided(order[..k], multi)
      {
        var agreed := ReconcileNext(k, old(Kept()));
        if !agreed {
          disagreements := disagreements + 1;
        }
      }
      assert order[..|order|] == order;
      AllDecided(order, multi);
    }

    /** One instance of the list, those before it having been settled since `first`. */
    method ReconcileNext(k: nat, ghost first: Archive) returns (agreed: bool)
      requires Valid() && k < |order| && ReconciledAll(Given(), alive, first, Kept(), order[..k])
      modifies this`salt, this`requests, this`single, this`multi, this`order, this`rr
      ensures Valid() && order == old(order) && single == old(single) && multi.Keys == old(multi).Keys && old(requests) <= requests
      ensures ReconciledAll(Given(), alive, first, Kept(), order[..k + 1])
      ensures Decided(order[..k + 1], multi) <==> Decided(order[..k], old(multi)) && agreed
    {
      var id := order[k];
      assert id in multi && id in redundant;
      ghost var before, a := multi, Kept();
      agreed := Reconcile(id);
      DecidedStep(order, k, before, multi);
      ReconciledOne(Given(), alive, first, a, Kept(), order, k);
    }

    method AnyAlive() returns (any: bool)
      ensures any <==> exists k :: 0 <= k < |alive| && alive[k]
    {
      var living := Living(alive, [], |alive|);
      any := |living| > 0;
      if any {
        assert living[0] in living;
      } else {
        assert forall k: nat :: k < |alive| && alive[k] ==> k in living;
      }
    }

    /** The certificate's verdict. */
    method Conclude() returns (accepted: bool)
      requires Valid()
      modifies this`salt, this`requests, this`single, this`multi, this`order, this`rr
      ensures Valid()
      ensures old(requests) <= requests && single == old(single) && multi.Keys == old(multi).Keys
      ensures Settled(old(Kept()), Kept(), Lives(alive), AllConfirmed(requests, replies))
      ensures accepted ==> Certified(ids, single, multi, requests, replies, answerOf)
      ensures accepted ==> forall i :: 0 <= i < |place| ==> !place[i].Dropped?
      ensures accepted <==>
                && failed == 0 && (forall id :: id in multi ==> HasMajority(multi[id]))
                && |single| + |multi| == |ids| && exists k :: 0 <= k < |alive| && alive[k]
    {
      var disagreements := ReconcileAll();
      AllSettled(Given(), alive, old(Kept()), Kept(), order);
      var living := AnyAlive();
      accepted := failed == 0 && disagreements == 0 && |single| + |multi| == |ids| && living;
      if accepted {
        Covered(ids, single, multi, requests, replies, answerOf);
      }
    }

    /** The workers, the reconciliation and the verdict. If every answer was confirmed, the votes alone decide. */
    method Run() returns (accepted: bool, ghost first: Archive)
      requires Valid()
      modifies this
      ensures Valid() && |alive| == |old(alive)| && forall w :: 0 <= w < |workers| ==> workers[w].Gone?
      ensures forall i :: 0 <= i < |taken| ==> taken[i] <= limit + 1
      ensures accepted ==> Certified(ids, single, multi, requests, replies, answerOf)
      ensures AllConfirmed(requests, replies) && alive != [] ==> (accepted <==> AllAgreed(multi)) && Lives(alive)
      ensures Settled(first, Kept(), Lives(alive), AllConfirmed(requests, replies))
    {
      RunWorkers();
      first := Kept();
      accepted := Conclude();
      if AllConfirmed(requests, replies) {
        ConfirmedBefore(first.requests, requests, replies);
      }
    }
  }

  /** Unanimous, or a strict majority. */
  method Decides(votes: seq<Vote>) returns (decided: bool)
    ensures votes != [] ==> (decided <==> HasMajority(votes))
  {
    var max := Leading(votes);
    decided := max == |votes| || max * 2 > |votes|;
  }

  method Agrees(votes: seq<Vote>) returns (agreed: bool)
    ensures agreed <==> HasMajority(votes)
  {
    var max := Leading(votes);
    agreed := 2 * max > |votes|;
  }

  function NodesOf(votes: seq<Vote>): (nodes: seq<nat>)
    ensures |nodes| == |votes| && forall i :: 0 <= i < |votes| ==> nodes[i] == votes[i].node
  {
    seq(|votes|, i requires 0 <= i < |votes| => votes[i].node)
  }

  predicate Voted(node: nat, votes: seq<Vote>) {
    node in NodesOf(votes)
  }

  ghost predicate Decided(done: seq<Text>, multi: map<Text, seq<Vote>>) {
    forall j :: 0 <= j < |done| ==> done[j] in multi && HasMajority(multi[done[j]])
  }

  lemma AllDecided(order: seq<Text>, multi: map<Text, seq<Vote>>)
    requires forall id :: id in order <==> id in multi
    ensures Decided(order, multi) <==> AllAgreed(multi)
  {
    if Decided(order, multi) {
      forall id | id in multi ensures HasMajority(multi[id]) {
        assert id in order;
        var j :| 0 <= j < |order| && order[j] == id;
      }
    }
  }

  /** Deciding one more vote leaves the earlier ones as they are. */
  lemma DecidedStep(order: seq<Text>, k: nat, before: map<Text, seq<Vote>>, after: map<Text, seq<Vote>>)
    requires Suite.Distinct(order) && k < |order| && order[k] in after
    requires before.Keys == after.Keys && forall j :: j in after && j != order[k] ==> after[j] == before[j]
    ensures Decided(order[..k + 1], after) <==> Decided(order[..k], before) && HasMajority(after[order[k]])
  {
    var done, more := order[..k], order[..k + 1];
    assert forall j :: 0 <= j < k ==> done[j] == more[j] && more[j] != order[k];
    assert more[k] == order[k];
    if Decided(more, after) {
      forall j | 0 <= j < k ensures done[j] in before && HasMajority(before[done[j]]) {
        assert more[j] in after && HasMajority(after[more[j]]);
      }
    }
  }

  /** Lexicographically less. */
  predicate Below(a: (nat, nat, nat), b: (nat, nat, nat)) {
    a.0 < b.0 || (a.0 == b.0 && (a.1 < b.1 || (a.1 == b.1 && a.2 < b.2)))
  }

  /** What a finished certification leaves: a record that is backed by the answers, and complete in them. */
  ghost predicate Reported(c: Setup, a: Archive, nodes: nat) {
    && Suite.Distinct(c.ids) && OnRecord(c.ids, c.redundant, a.single, a.multi, a.requests, c.replies, c.answerOf)
    && (forall k :: 0 <= k < |a.requests| ==> a.requests[k].node < nodes && a.requests[k].id in c.ids)
    && (forall k: nat :: k < |a.requests| ==> Filed(c, [], a, k))
    && (AllAbout(a.single, a.multi) <==> AllNamed(a.requests, c.replies))
  }

  ghost predicate AllAgreed(multi: map<Text, seq<Vote>>) {
    forall id :: id in multi ==> HasMajority(multi[id])
  }

  lemma ReportsAll(c: Setup, workers: seq<Worker>, place: seq<Place>, a: Archive, nodes: nat)
    requires Suite.Distinct(c.ids) && OnRecord(c.ids, c.redundant, a.single, a.multi, a.requests, c.replies, c.answerOf)
    requires Filing(c, workers, place, a) && forall w :: 0 <= w < |workers| ==> workers[w].Gone?
    requires forall k :: 0 <= k < |a.requests| ==> a.requests[k].node < nodes && a.requests[k].id in c.ids
    ensures Reported(c, a, nodes)
  {
    AboutExactly(c, workers, place, a);
    forall k: nat | k < |a.requests| ensures Filed(c, [], a, k) {
      assert Filed(c, workers, a, k);
    }
  }

  /** A whole certification, from the suite to the verdict. If every answer was confirmed it is accepted exactly when
      every vote has a majority. */
  method Certify(count: int, nodes: nat, draw: nat -> Text, replies: nat -> Reply, answerOf: Text -> Json)
    returns (accepted: Result<bool>, ghost run: Option<Coordinator>, ghost first: Archive)
    ensures accepted.Err? <==> count <= 0 || nodes == 0
    ensures accepted.Ok? ==>
              && run.Some? && |run.value.ids| == count && run.value.replies == replies && run.value.answerOf == answerOf
              && Reported(run.value.Given(), run.value.Kept(), nodes)
              && (forall i :: 0 <= i < |run.value.taken| ==> run.value.taken[i] <= MaxAttempts(nodes) + 1)
    ensures accepted == Ok(true) ==> Certified(run.value.ids, run.value.single, run.value.multi, run.value.requests, replies, answerOf)
    ensures accepted.Ok? && AllConfirmed(run.value.requests, replies) ==> (accepted.value <==> AllAgreed(run.value.multi))
    ensures accepted.Ok? ==> Settled(first, run.value.Kept(), Lives(run.value.alive), AllConfirmed(run.value.requests, replies))
    ensures accepted.Ok? && AllConfirmed(run.value.requests, replies) ==> Lives(run.value.alive)
  {
    first := Archive([], map[], map[]);
    if nodes == 0 {
      return Err, None, first;
    }
    var suite := Suite.GenerateSuite(count, draw);
    if suite.Err? {
      return Err, None, first;
    }
    var items := BuildQueue(|suite.value|);
    var c := new Coordinator(suite.value, nodes, replies, answerOf, items);
    var verdict, left := c.Run();
    ReportsAll(c.Given(), c.workers, c.place, c.Kept(), nodes);
    return Ok(verdict), Some(c), left;
  }

  // ---------- one node that always gives the same answer ----------

  lemma {:induction false} SameVotes(votes: seq<Vote>, key: Text)
    requires forall i :: 0 <= i < |votes| ==> TallyKey(votes[i].result) == key
    ensures Count(votes, key) == |votes|
  {
    if votes != [] {
      SameVotes(votes[..|votes| - 1], key);
    }
  }

  lemma ConstantBacked(c: Setup, a: Archive, r: EvalResult, id: Text, node: nat, x: Comparable)
    requires (forall k: nat :: c.replies(k) == Answer(0, [r], true)) && Backed(a.requests, c.replies, c.answerOf, id, node, x)
    ensures x == ComparableOf(r, c.answerOf)
  {
    var k: nat :| k < |a.requests| && Proves(a.requests[k], c.replies(k), c.answerOf, id, node, x);
  }

  lemma ConstantAgrees(c: Setup, a: Archive, r: EvalResult)
    requires (forall k: nat :: c.replies(k) == Answer(0, [r], true)) && Reported(c, a, 1)
    ensures AllConfirmed(a.requests, c.replies) && AllAgreed(a.multi)
  {
    var key := TallyKey(ComparableOf(r, c.answerOf));
    forall id | id in a.multi ensures HasMajority(a.multi[id]) {
      var votes := a.multi[id];
      assert VotesBacked(a.requests, c.replies, c.answerOf, id, votes);
      forall i | 0 <= i < |votes| ensures TallyKey(votes[i].result) == key {
        ConstantBacked(c, a, r, id, votes[i].node, votes[i].result);
      }
      SameVotes(votes, key);
      assert Majority(votes, key);
    }
  }

  /** A certified instance whose result is about r's is r's own. */
  lemma CertifiedIsNamed(c: Setup, a: Archive, r: EvalResult, i: nat)
    requires (forall k: nat :: c.replies(k) == Answer(0, [r], true)) && i < |c.ids| && AllAbout(a.single, a.multi)
    requires Certified(c.ids, a.single, a.multi, a.requests, c.replies, c.answerOf)
    ensures c.ids[i] == r.instanceId
  {
    var id := c.ids[i];
    if Redundant(i) {
      assert VotesBacked(a.requests, c.replies, c.answerOf, id, a.multi[id]);
      ConstantBacked(c, a, r, id, a.multi[id][0].node, a.multi[id][0].result);
    } else {
      var node: nat :| Backed(a.requests, c.replies, c.answerOf, id, node, a.single[id]);
      ConstantBacked(c, a, r, id, node, a.single[id]);
    }
  }

  lemma ConstantAbout(c: Setup, a: Archive, r: EvalResult)
    requires (forall k: nat :: c.replies(k) == Answer(0, [r], true)) && Reported(c, a, 1) && c.ids != []
    requires Certified(c.ids, a.single, a.multi, a.requests, c.replies, c.answerOf)
    ensures AllAbout(a.single, a.multi) <==> c.ids == [r.instanceId]
  {
    if AllAbout(a.single, a.multi) {
      CertifiedIsNamed(c, a, r, 0);
      CertifiedIsNamed(c, a, r, |c.ids| - 1);
    }
    if c.ids == [r.instanceId] {
      assert AllNamed(a.requests, c.replies);
    }
  }

  /** With one node that answers every request with the same result, every run is accepted, and the certified results
      are about their instances only if there is one instance and the result names it. */
  method AnotherInstanceCertifies(count: int, draw: nat -> Text, r: EvalResult, answerOf: Text -> Json)
    returns (accepted: Result<bool>, ghost run: Option<Coordinator>)
    requires count >= 1
    ensures accepted == Ok(true) && run.Some? && |run.value.ids| == count
    ensures Certified(run.value.ids, run.value.single, run.value.multi, run.value.requests, run.value.replies, answerOf)
    ensures AllAbout(run.value.single, run.value.multi) <==> run.value.ids == [r.instanceId]
  {
    var replies := (k: nat) => Answer(0, [r], true);
    ghost var first;
    accepted, run, first := Certify(count, 1, draw, replies, answerOf);
    ConstantAgrees(run.value.Given(), run.value.Kept(), r);
    ConstantAbout(run.value.Given(), run.value.Kept(), r);
  }
}
