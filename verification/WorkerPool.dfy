/**
 The native workers as control sees them through the tunnel: each one handles its commands one at a time
 and in order, and any command may fail. A failed command may leave the worker in any state it could be
 in (evaluated, half evaluated, untouched), so a caller knows nothing after a failure except which files
 it can have created.
 */
module WorkerPool {
  import opened Outcomes
  import opened LayerModel
  import opened StagePlan

  type Bytes = seq<bv8>

  datatype Worker<C> = Worker(
    identity: Identity, binary: string, caches: seq<C>, session: string, position: nat, files: map<string, Bytes>)

  datatype Status = Status(identity: Identity, binary: string, session: string, position: nat)

  datatype Input<A> = Tokens(tokens: seq<nat>) | Activations(values: seq<A>)

  datatype Reply<A> = Middle(position: nat, values: seq<A>) | Last(position: nat, pick: Pick)

  datatype Manifest = Manifest(
    identity: Identity, session: string, position: nat, bytes: nat, sha: string, envelope: string)

  datatype Chunk = Chunk(data: Bytes, nextOffset: int, totalBytes: int, eof: bool)

  /** What a read of a file at an offset should return. */
  function ChunkAt(bytes: Bytes, offset: nat): Chunk
    requires offset < |bytes|
  {
    var end := if offset + CHUNK < |bytes| then offset + CHUNK else |bytes|;
    Chunk(bytes[offset..end], end, |bytes|, end == |bytes|)
  }

  /** How a worker stores a session in a file, and the checksum both sides use. */
  datatype Codec<!C> = Codec(
    save: seq<C> -> Bytes, load: Bytes -> Option<seq<C>>, sha: Bytes -> string, envelope: Bytes -> string,
    write: Manifest -> Bytes, read: Bytes -> Option<Manifest>)

  ghost predicate Faithful<C(!new)>(codec: Codec<C>) {
    && (forall cs: seq<C> {:trigger codec.save(cs)} :: codec.load(codec.save(cs)) == Some(cs))
    && (forall m: Manifest {:trigger codec.write(m)} :: codec.read(codec.write(m)) == Some(m))
    && (forall x: Bytes, y: Bytes {:trigger codec.sha(x), codec.sha(y)} :: codec.sha(x) == codec.sha(y) ==> x == y)
  }

  /** Capsules keep to the bounds the executor sets for them. */
  ghost predicate Bounded<C(!new)>(codec: Codec<C>) {
    && (forall cs: seq<C> {:trigger codec.save(cs)} ::
          1 <= |codec.save(cs)| <= MAX_STATE && IsSha(codec.sha(codec.save(cs))) && IsSha(codec.envelope(codec.save(cs))))
    && (forall m: Manifest {:trigger codec.write(m)} :: 1 <= |codec.write(m)| <= MAX_MANIFEST)
  }

  datatype EvalCall = EvalCall(key: Key, position: nat, count: nat)

  function Base(i: Identity): int {
    match i.span case Whole => 0 case Shard(start, _, _) => start
  }

  function Top(i: Identity): int {
    match i.span case Whole => LAYERS case Shard(_, end, _) => end
  }

  /** A worker holds one cache per layer, and an empty session at position 0 means untouched caches. */
  predicate WorkerOk<C(==), A>(nets: string -> Net<C, A>, w: Worker<C>) {
    && 0 <= Base(w.identity) < Top(w.identity) <= LAYERS
    && |w.caches| == Top(w.identity) - Base(w.identity)
    && (w.session == "" && w.position == 0 ==>
          w.caches == FreshCaches(nets(w.identity.source), Base(w.identity), |w.caches|))
  }

  /** A state a failed command may leave behind: the same process, with at most the `extra` files added. */
  predicate Disturbed<C(==), A>(nets: string -> Net<C, A>, w: Worker<C>, w': Worker<C>, extra: set<string>) {
    w'.identity == w.identity && w'.binary == w.binary && w'.files.Keys <= w.files.Keys + extra && WorkerOk(nets, w')
  }

  /** Only the workers in `ks` moved, and each kept its process and gained at most the files listed for it. */
  ghost predicate Evolved<C>(m: map<Key, Worker<C>>, m': map<Key, Worker<C>>, ks: set<Key>, extra: map<Key, set<string>>) {
    && m'.Keys == m.Keys
    && (forall k :: k in m && k !in ks ==> m'[k] == m[k])
    && (forall k :: k in m && k in ks ==>
          && m'[k].identity == m[k].identity && m'[k].binary == m[k].binary
          && m'[k].files.Keys <= m[k].files.Keys + (if k in extra then extra[k] else {}))
  }

  lemma EvolvedStep<C>(m0: map<Key, Worker<C>>, m1: map<Key, Worker<C>>, m2: map<Key, Worker<C>>, ks: set<Key>, js: set<Key>,
                       extra: map<Key, set<string>>, more: map<Key, set<string>>)
    requires Evolved(m0, m1, ks, extra) && Evolved(m1, m2, js, more) && js <= ks
    requires forall k :: k in more ==> k in extra && more[k] <= extra[k]
    ensures Evolved(m0, m2, ks, extra)
  {
  }

  lemma EvolvedMore<C>(m0: map<Key, Worker<C>>, m1: map<Key, Worker<C>>, ks: set<Key>, extra: map<Key, set<string>>, ks': set<Key>,
                       extra': map<Key, set<string>>)
    requires Evolved(m0, m1, ks, extra) && ks <= ks' && forall k :: k in extra ==> k in extra' && extra[k] <= extra'[k]
    ensures Evolved(m0, m1, ks', extra')
  {
  }

  /** Only the workers in `ks` moved, and each kept its process. */
  ghost predicate Framed<C>(m: map<Key, Worker<C>>, m': map<Key, Worker<C>>, ks: set<Key>) {
    && m'.Keys == m.Keys
    && (forall k :: k in m && k !in ks ==> m'[k] == m[k])
    && (forall k :: k in m && k in ks ==> m'[k].identity == m[k].identity && m'[k].binary == m[k].binary)
  }

  lemma EvolvedFramed<C>(m: map<Key, Worker<C>>, m': map<Key, Worker<C>>, ks: set<Key>, extra: map<Key, set<string>>, all: set<Key>)
    requires Evolved(m, m', ks, extra) && ks <= all
    ensures Framed(m, m', all)
  {
  }

  lemma FramedStep<C>(m0: map<Key, Worker<C>>, m1: map<Key, Worker<C>>, m2: map<Key, Worker<C>>, ks: set<Key>, js: set<Key>, extra: map<Key, set<string>>)
    requires Framed(m0, m1, ks) && (Evolved(m1, m2, js, extra) || Framed(m1, m2, js)) && js <= ks
    ensures Framed(m0, m2, ks)
  {
  }

  predicate Clean<C>(w: Worker<C>) {
    w.session == "" && w.position == 0
  }

  function Size<A>(input: Input<A>): nat {
    match input case Tokens(t) => |t| case Activations(v) => |v|
  }

  function Feed<C, A>(net: Net<C, A>, input: Input<A>): (xs: seq<A>)
    ensures |xs| == Size(input)
  {
    match input case Tokens(t) => Embed(net, t) case Activations(v) => v
  }

  /** The worker after a batch at its position, and what it answers. */
  function Evaluated<C, A>(net: Net<C, A>, w: Worker<C>, session: string, xs: seq<A>): (r: (Worker<C>, Reply<A>))
    requires xs != [] && 0 <= Base(w.identity)
    ensures |r.0.caches| == |w.caches| && r.0.position > 0
    ensures r.0.identity == w.identity && r.0.binary == w.binary && r.0.files == w.files && r.0.session == session
  {
    var out := RunBatch(net, Base(w.identity), w.caches, w.position, xs);
    var end := w.position + |xs|;
    (w.(caches := out.0, session := session, position := end),
     if Top(w.identity) < LAYERS then Middle(end, out.1) else Last(end, net.head(out.1[|xs| - 1])))
  }

  function Owned(capsuleFiles: map<Key, set<string>>, k: Key): set<string> {
    if k in capsuleFiles then capsuleFiles[k] else {}
  }

  function FilesOf<C>(workers: map<Key, Worker<C>>): map<Key, set<string>> {
    map k | k in workers :: workers[k].files.Keys
  }

  /** Every file on a worker was found there or is tracked. */
  ghost predicate Accounted<C>(workers: map<Key, Worker<C>>, found: map<Key, set<string>>, capsuleFiles: map<Key, set<string>>) {
    forall k :: k in workers ==> k in found && workers[k].files.Keys <= found[k] + Owned(capsuleFiles, k)
  }

  /** The files the generation under way has tracked, and those its workers held before it. */
  class Tracker {
    var capsuleFiles: map<Key, set<string>>
    ghost var found: map<Key, set<string>>

    constructor ()
      ensures capsuleFiles == map[] && found == map[]
    {
      capsuleFiles, found := map[], map[];
    }
  }

  class Pool<C(==, !new), A(!new)> {
    const nets: string -> Net<C, A>
    const codec: Codec<C>
    /** Which commands fail, and what a failed one leaves behind. */
    const failing: nat -> Option<Worker<C>>
    /** What a read of a capsule file returns if it is not what the worker holds; nothing is assumed about it. */
    const readings: nat -> Option<Chunk>
    const tokenizer: nat -> seq<nat>
    var ticks: nat
    var workers: map<Key, Worker<C>>
    var evals: seq<EvalCall>
    const tracker: Tracker

    /** No command with a number above `from`, up to `to`, fails. */
    ghost predicate Calm(from: nat, to: nat) {
      forall t: nat :: from < t <= to ==> failing(t).None?
    }

    /** No read among them returns anything but what the worker holds. */
    ghost predicate Honest(from: nat, to: nat) {
      forall t: nat :: from < t <= to ==> readings(t).None?
    }

    /** Holds before and after every command, so at every await: a file exists only if it is tracked. */
    ghost predicate Valid()
      reads this`workers, tracker
    {
      (forall k :: k in workers ==> WorkerOk(nets, workers[k])) && Accounted(workers, tracker.found, tracker.capsuleFiles)
    }

    constructor (nets: string -> Net<C, A>, codec: Codec<C>, failing: nat -> Option<Worker<C>>, readings: nat -> Option<Chunk>,
                 tokenizer: nat -> seq<nat>, workers: map<Key, Worker<C>>)
      requires forall k :: k in workers ==> WorkerOk(nets, workers[k])
      ensures Valid() && this.workers == workers && evals == [] && this.nets == nets && this.codec == codec
    {
      this.nets, this.codec, this.failing, this.readings, this.tokenizer := nets, codec, failing, readings, tokenizer;
      this.ticks, this.workers, this.evals := 0, workers, [];
      this.tracker := new Tracker();
      new;
      tracker.found := FilesOf(workers);
    }

    /** A generation begins: nothing is tracked yet. */
    method Open()
      requires Valid()
      modifies tracker
      ensures Valid() && tracker.capsuleFiles == map[] && tracker.found == FilesOf(workers)
    {
      tracker.capsuleFiles := map[];
      tracker.found := FilesOf(workers);
    }

    method Track(k: Key, names: set<string>)
      requires Valid()
      modifies tracker`capsuleFiles
      ensures Valid() && tracker.capsuleFiles == old(tracker.capsuleFiles)[k := Owned(old(tracker.capsuleFiles), k) + names]
    {
      tracker.capsuleFiles := tracker.capsuleFiles[k := Owned(tracker.capsuleFiles, k) + names];
    }

    /** Worker k changes as its command says. */
    method Put(k: Key, w: Worker<C>)
      requires Valid() && k in workers && WorkerOk(nets, w) && w.files.Keys <= workers[k].files.Keys + Owned(tracker.capsuleFiles, k)
      modifies this`workers
      ensures Valid() && workers == old(workers)[k := w]
    {
      workers := workers[k := w];
    }

    /** Whether the next command on worker k goes through; if not, what state it leaves. */
    method Attempt(k: Key, extra: set<string>) returns (ok: bool)
      requires Valid() && extra <= Owned(tracker.capsuleFiles, k)
      modifies this`ticks, this`workers
      ensures Valid() && (ok ==> k in workers && workers == old(workers))
      ensures Evolved(old(workers), workers, {k}, map[k := extra])
      ensures ticks == old(ticks) + 1 && (k in old(workers) && Calm(old(ticks), ticks) ==> ok)
    {
      ticks := ticks + 1;
      if k !in workers {
        return false;
      }
      var outcome := failing(ticks);
      if outcome.Some? && Disturbed(nets, workers[k], outcome.value, extra) {
        workers := workers[k := outcome.value];
      }
      ok := outcome.None?;
    }

    /** The caller's abort signal and its token consumer can fail at any await too. */
    method Checkpoint() returns (r: Result<()>)
      modifies this`ticks
      ensures workers == old(workers) && evals == old(evals)
      ensures ticks == old(ticks) + 1 && (Calm(old(ticks), ticks) ==> r.Ok?)
    {
      ticks := ticks + 1;
      r := if failing(ticks).None? then Ok(()) else Err;
    }

    method ReadStatus(k: Key) returns (r: Result<Status>)
      modifies this`ticks
      ensures workers == old(workers) && evals == old(evals)
      ensures r.Ok? ==> k in workers && var w := workers[k];
                r.value == Status(w.identity, w.binary, w.session, w.position)
      ensures ticks == old(ticks) + 1 && (k in workers && Calm(old(ticks), ticks) ==> r.Ok?)
    {
      ticks := ticks + 1;
      if k !in workers || failing(ticks).Some? {
        return Err;
      }
      var w := workers[k];
      r := Ok(Status(w.identity, w.binary, w.session, w.position));
    }

    method Tokenize(k: Key, text: string) returns (r: Result<seq<nat>>)
      modifies this`ticks
      ensures workers == old(workers) && evals == old(evals)
      ensures ticks == old(ticks) + 1 && (Calm(old(ticks), ticks) ==> r == Ok(tokenizer(ticks)))
    {
      ticks := ticks + 1;
      r := if failing(ticks).Some? then Err else Ok(tokenizer(ticks));
    }

    /** Evaluate a batch at the worker's own position, in its own session. */
    method Eval(k: Key, session: string, position: nat, input: Input<A>) returns (r: Result<Reply<A>>)
      requires Valid() && session != ""
      modifies this
      ensures Valid() && Evolved(old(workers), workers, {k}, map[])
      ensures evals == old(evals) + [EvalCall(k, position, Size(input))]
      ensures r.Ok? ==>
          && k in workers
          && var w := old(workers)[k];
             var net := nets(w.identity.source);
             && w.position == position && w.session in {"", session} && Size(input) > 0
             && (workers[k], r.value) == Evaluated(net, w, session, Feed(net, input))
      ensures ticks == old(ticks) + 1
      ensures (&& Calm(old(ticks), ticks) && k in old(workers) && old(workers)[k].position == position
               && old(workers)[k].session in {"", session} && Size(input) > 0) ==> r.Ok?
    {
      evals := evals + [EvalCall(k, position, Size(input))];
      var ok := Attempt(k, {});
      if !ok || workers[k].position != position || workers[k].session !in {"", session} || Size(input) == 0 {
        return Err;
      }
      var reply := Advance(k, session, input);
      r := Ok(reply);
    }

    method Advance(k: Key, session: string, input: Input<A>) returns (reply: Reply<A>)
      requires Valid() && session != "" && k in workers && Size(input) > 0
      modifies this`workers
      ensures Valid() && Evolved(old(workers), workers, {k}, map[])
      ensures
        var w := old(workers)[k];
        var net := nets(w.identity.source);
        var after := Evaluated(net, w, session, Feed(net, input));
        reply == after.1 && workers == old(workers)[k := after.0]
    {
      var w := workers[k];
      assert WorkerOk(nets, w);
      var net := nets(w.identity.source);
      var after := Evaluated(net, w, session, Feed(net, input));
      Put(k, after.0);
      reply := after.1;
    }

    /** Write the session and its manifest to two files of the worker. */
    method Export(k: Key, session: string, file: string) returns (r: Result<Manifest>)
      requires Valid() && {file, file + ".json"} <= Owned(tracker.capsuleFiles, k)
      modifies this`ticks, this`workers
      ensures Valid() && Evolved(old(workers), workers, {k}, map[k := {file, file + ".json"}])
      ensures r.Ok? ==>
          && k in workers
          && var w := old(workers)[k];
             && w.session == session
             && r.value.session == session && r.value.position == w.position && r.value.identity == w.identity
             && r.value.sha == codec.sha(codec.save(w.caches)) && r.value.bytes == |codec.save(w.caches)|
             && workers[k] == w.(files := w.files[file := codec.save(w.caches)][file + ".json" := codec.write(r.value)])
             && r.value.envelope == codec.envelope(codec.save(w.caches))
      ensures ticks == old(ticks) + 1 && (Calm(old(ticks), ticks) && k in old(workers) && old(workers)[k].session == session ==> r.Ok?)
    {
      var ok := Attempt(k, {file, file + ".json"});
      if !ok || workers[k].session != session {
        return Err;
      }
      var w := workers[k];
      var state := codec.save(w.caches);
      var m := Manifest(w.identity, session, w.position, |state|, codec.sha(state), codec.envelope(state));
      Put(k, w.(files := w.files[file := state][file + ".json" := codec.write(m)]));
      r := Ok(m);
    }

    method StateRead(k: Key, session: string, file: string, offset: nat) returns (r: Result<Chunk>)
      modifies this`ticks
      ensures workers == old(workers) && evals == old(evals) && ticks == old(ticks) + 1
      ensures Calm(old(ticks), ticks) && Honest(old(ticks), ticks) && k in workers && file in workers[k].files && offset < |workers[k].files[file]| ==>
                r == Ok(ChunkAt(workers[k].files[file], offset))
    {
      ticks := ticks + 1;
      if failing(ticks).Some? {
        return Err;
      }
      if readings(ticks).Some? {
        return Ok(readings(ticks).value);
      }
      if k !in workers || file !in workers[k].files || offset >= |workers[k].files[file]| {
        return Err;
      }
      r := Ok(ChunkAt(workers[k].files[file], offset));
    }

    /** Append to a file; the acknowledgement is the file's new length. */
    method StateWrite(k: Key, session: string, file: string, offset: nat, data: Bytes) returns (r: Result<nat>)
      requires Valid() && file in Owned(tracker.capsuleFiles, k)
      modifies this`ticks, this`workers
      ensures Valid() && Evolved(old(workers), workers, {k}, map[k := {file}])
      ensures r.Ok? ==>
          && k in workers
          && var w := old(workers)[k];
             var was := if file in w.files then w.files[file] else [];
             && |was| == offset && r.value == offset + |data|
             && workers[k] == w.(files := w.files[file := was + data])
      ensures ticks == old(ticks) + 1
      ensures (&& Calm(old(ticks), ticks) && k in old(workers)
               && offset == if file in old(workers)[k].files then |old(workers)[k].files[file]| else 0) ==> r.Ok?
    {
      var ok := Attempt(k, {file});
      if !ok {
        return Err;
      }
      var w := workers[k];
      var was := if file in w.files then w.files[file] else [];
      if |was| != offset {
        return Err;
      }
      Put(k, w.(files := w.files[file := was + data]));
      r := Ok(offset + |data|);
    }

    /** Both files are there and belong to this session and to each other. */
    ghost predicate Importable(w: Worker<C>, session: string, file: string) {
      && w.session in {"", session} && file in w.files && file + ".json" in w.files
      && var m, cs := codec.read(w.files[file + ".json"]), codec.load(w.files[file]);
         m.Some? && cs.Some? && m.value.session == session && m.value.sha == codec.sha(w.files[file]) && |cs.value| == |w.caches|
    }

    /** Load a session from two files; nothing is evaluated. */
    method Import(k: Key, session: string, file: string) returns (r: Result<nat>)
      requires Valid() && session != ""
      modifies this`ticks, this`workers
      ensures Valid() && Evolved(old(workers), workers, {k}, map[])
      ensures r.Ok? ==>
          && k in workers
          && var w := old(workers)[k];
             && file in w.files && file + ".json" in w.files
             && codec.read(w.files[file + ".json"]).Some? && codec.load(w.files[file]).Some?
             && var m := codec.read(w.files[file + ".json"]).value;
                && m.session == session && r.value == m.position
                && workers[k] == w.(caches := codec.load(w.files[file]).value, session := session, position := m.position)
      ensures ticks == old(ticks) + 1
      ensures Calm(old(ticks), ticks) && k in old(workers) && Importable(old(workers)[k], session, file) ==> r.Ok?
    {
      var ok := Attempt(k, {});
      if !ok || workers[k].session !in {"", session} || file !in workers[k].files || file + ".json" !in workers[k].files {
        return Err;
      }
      var w := workers[k];
      var m, cs := codec.read(w.files[file + ".json"]), codec.load(w.files[file]);
      if m.None? || cs.None? || m.value.session != session || m.value.sha != codec.sha(w.files[file])
         || |cs.value| != |w.caches| {
        return Err;
      }
      Put(k, w.(caches := cs.value, session := session, position := m.value.position));
      r := Ok(m.value.position);
    }

    method StateDelete(k: Key, session: string, file: string) returns (r: Result<bool>)
      requires Valid()
      modifies this`ticks, this`workers
      ensures Valid() && Evolved(old(workers), workers, {k}, map[])
      ensures r.Ok? && r.value ==> k in workers && workers[k] == old(workers)[k].(files := old(workers)[k].files - {file})
      ensures ticks == old(ticks) + 1 && (Calm(old(ticks), ticks) && k in old(workers) && file in old(workers)[k].files ==> r == Ok(true))
    {
      var ok := Attempt(k, {});
      if !ok || file !in workers[k].files {
        return Err;
      }
      var w := workers[k].(files := workers[k].files - {file});
      Put(k, w);
      r := Ok(true);
    }

    /** Forget the session; files stay. */
    method Reset(k: Key, session: string) returns (r: Result<()>)
      requires Valid()
      modifies this`ticks, this`workers
      ensures Valid() && Evolved(old(workers), workers, {k}, map[])
      ensures r.Ok? ==> k in workers && Clean(workers[k]) && workers[k].files == old(workers)[k].files
      ensures ticks == old(ticks) + 1 && (Calm(old(ticks), ticks) && k in old(workers) && old(workers)[k].session in {"", session} ==> r.Ok?)
    {
      var ok := Attempt(k, {});
      if !ok || workers[k].session !in {"", session} {
        return Err;
      }
      var w := workers[k];
      w := w.(caches := FreshCaches(nets(w.identity.source), Base(w.identity), |w.caches|), session := "", position := 0);
      Put(k, w);
      r := Ok(());
    }
  }
}
