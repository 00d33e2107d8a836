/**
 Votes of a redundant certification: what executions must agree on, the tally of their canonical texts,
 and the verdict by strict majority.
 */
module Voting {
  import opened Canonical
  import CanonicalParser

  datatype EvalResult = EvalResult(instanceId: Text, output: Text, passed: bool, score: Number)

  datatype Comparable = Comparable(instanceId: Text, answer: Json, passed: bool, score: Number)

  datatype Vote = Vote(node: nat, result: Comparable)

  /** The graded part of a result; `answerOf` extracts the checker's answer from raw output. */
  function ComparableOf(r: EvalResult, answerOf: Text -> Json): Comparable {
    Comparable(r.instanceId, answerOf(r.output), r.passed, r.score)
  }

  predicate SameResult(a: Comparable, b: Comparable) {
    a.instanceId == b.instanceId && Canonicalize(a.answer) == Canonicalize(b.answer) && a.passed == b.passed
    && a.score == b.score
  }

  // ---------- tally keys ----------

  const ANSWER: Text := [97, 110, 115, 119, 101, 114]
  const INSTANCE_ID: Text := [105, 110, 115, 116, 97, 110, 99, 101, 73, 100]
  const PASSED: Text := [112, 97, 115, 115, 101, 100]
  const SCORE: Text := [115, 99, 111, 114, 101]

  function AsJson(c: Comparable): Json {
    Obj(Field(INSTANCE_ID, Str(c.instanceId),
        Field(ANSWER, c.answer,
        Field(PASSED, Boolean(c.passed),
        Field(SCORE, Numeric(c.score), Empty)))))
  }

  function TallyKey(c: Comparable): Text {
    Canonicalize(AsJson(c))
  }

  /** A result whose answer and score are JSON values. */
  predicate Proper(c: Comparable) {
    WellFormed(c.answer) && WellFormed(Numeric(c.score))
  }

  predicate Zero(n: Number) {
    n == NegativeZero || n == Finite([48])
  }

  predicate NonFinite(n: Number) {
    n.NotANumber? || n.Infinite?
  }

  /** Distinct scores that JSON writes alike: the two zeros, or two values that are not finite. */
  predicate Confused(a: Number, b: Number) {
    a != b && ((Zero(a) && Zero(b)) || (NonFinite(a) && NonFinite(b)))
  }

  lemma FieldNamesDiffer()
    ensures INSTANCE_ID != ANSWER && INSTANCE_ID != PASSED && INSTANCE_ID != SCORE
    ensures ANSWER != PASSED && ANSWER != SCORE && PASSED != SCORE
  {
    assert |INSTANCE_ID| == 10 && |ANSWER| == 6 && |PASSED| == 6 && |SCORE| == 5;
    assert ANSWER[0] == 97 && PASSED[0] == 112;
  }

  lemma AsJsonWellFormed(c: Comparable)
    requires Proper(c)
    ensures WellFormed(AsJson(c))
  {
    FieldNamesDiffer();
    var x := AsJson(c).fields;
    assert Keys(x.rest.rest.rest) == {SCORE};
    assert Keys(x.rest.rest) == {PASSED, SCORE};
    assert Keys(x.rest) == {ANSWER, PASSED, SCORE};
    assert WellFormedFields(x.rest.rest.rest);
    assert Distinct(x.rest.rest) && WellFormedFields(x.rest.rest);
    assert WellFormedFields(x.rest);
    assert Distinct(x) && WellFormedFields(x);
  }

  lemma AsJsonEntries(c: Comparable)
    ensures
      var x := AsJson(c).fields;
      && Keys(x) == {INSTANCE_ID, ANSWER, PASSED, SCORE}
      && Get(x, INSTANCE_ID) == Str(c.instanceId)
      && Get(x, ANSWER) == c.answer
      && Get(x, PASSED) == Boolean(c.passed)
      && Get(x, SCORE) == Numeric(c.score)
  {
    FieldNamesDiffer();
    var x := AsJson(c).fields;
    assert Keys(x.rest.rest.rest) == {SCORE};
    assert Keys(x.rest.rest) == {PASSED, SCORE};
    assert Keys(x.rest) == {ANSWER, PASSED, SCORE};
    assert Get(x.rest.rest, SCORE) == Numeric(c.score) && Get(x.rest.rest, PASSED) == Boolean(c.passed);
    assert Get(x.rest, SCORE) == Numeric(c.score) && Get(x.rest, PASSED) == Boolean(c.passed);
  }

  lemma ScoreSame(a: Number, b: Number)
    ensures Same(Numeric(a), Numeric(b)) <==> a == b || Confused(a, b)
  {
  }

  lemma SameAsJson(a: Comparable, b: Comparable)
    ensures Same(AsJson(a), AsJson(b)) <==>
              a.instanceId == b.instanceId && Same(a.answer, b.answer) && a.passed == b.passed
              && (a.score == b.score || Confused(a.score, b.score))
  {
    FieldNamesDiffer();
    ScoreSame(a.score, b.score);
    var x, y := AsJson(a).fields, AsJson(b).fields;
    AsJsonEntries(a);
    AsJsonEntries(b);
    var x1 := x.rest;
    var x2 := x1.rest;
    var x3 := x2.rest;
    assert SameFields(x3, y) <==> Same(Numeric(a.score), Numeric(b.score));
    assert SameFields(x2, y) <==> Same(Boolean(a.passed), Boolean(b.passed)) && SameFields(x3, y);
    assert SameFields(x1, y) <==> Same(a.answer, b.answer) && SameFields(x2, y);
    assert SameFields(x, y) <==> Same(Str(a.instanceId), Str(b.instanceId)) && SameFields(x1, y);
  }

  /** Votes share a tally key exactly when they are the same result, but for scores JSON cannot tell apart. */
  lemma KeysDecideResults(a: Comparable, b: Comparable)
    requires Proper(a) && Proper(b)
    ensures TallyKey(a) == TallyKey(b) <==>
              SameResult(a, b) || (SameResult(a, b.(score := a.score)) && Confused(a.score, b.score))
  {
    AsJsonWellFormed(a);
    AsJsonWellFormed(b);
    CanonicalParser.Faithful(AsJson(a), AsJson(b));
    CanonicalParser.Faithful(a.answer, b.answer);
    SameAsJson(a, b);
  }

  /** For scores that are not such a pair, tally keys and sameResult coincide. */
  lemma OrdinaryScoresAgree(a: Comparable, b: Comparable)
    requires Proper(a) && Proper(b) && !Confused(a.score, b.score)
    ensures TallyKey(a) == TallyKey(b) <==> SameResult(a, b)
  {
    KeysDecideResults(a, b);
  }

  /** Votes that differ only in the sign of a zero score are tallied together although they are not the same. */
  lemma ZeroScoresTalliedTogether(c: Comparable)
    requires Proper(c)
    ensures
      var plus, minus := c.(score := Finite([48])), c.(score := NegativeZero);
      TallyKey(plus) == TallyKey(minus) && !SameResult(plus, minus)
  {
    var plus, minus := c.(score := Finite([48])), c.(score := NegativeZero);
    assert IsNumeral([48]);
    KeysDecideResults(plus, minus);
  }

  // ---------- counting ----------

  function Count(votes: seq<Vote>, key: Text): (n: nat)
    ensures n <= |votes|
  {
    if votes == [] then 0
    else Count(votes[..|votes| - 1], key) + if TallyKey(votes[|votes| - 1].result) == key then 1 else 0
  }

  /** More than half of the votes carry this key. */
  predicate Majority(votes: seq<Vote>, key: Text) {
    2 * Count(votes, key) > |votes|
  }

  lemma {:induction false} CountsDisjoint(votes: seq<Vote>, j: Text, k: Text)
    requires j != k
    ensures Count(votes, j) + Count(votes, k) <= |votes|
  {
    if votes != [] {
      CountsDisjoint(votes[..|votes| - 1], j, k);
    }
  }

  lemma MajorityUnique(votes: seq<Vote>, j: Text, k: Text)
    requires Majority(votes, j) && Majority(votes, k)
    ensures j == k
  {
    if j != k {
      CountsDisjoint(votes, j, k);
    }
  }

  lemma {:induction false} CountAbsent(votes: seq<Vote>, key: Text)
    requires forall i :: 0 <= i < |votes| ==> TallyKey(votes[i].result) != key
    ensures Count(votes, key) == 0
  {
    if votes != [] {
      var init := votes[..|votes| - 1];
      assert forall i :: 0 <= i < |init| ==> init[i] == votes[i];
      CountAbsent(init, key);
    }
  }

  /** A majority answer is one that was given. */
  lemma MajorityWasCast(votes: seq<Vote>, key: Text)
    requires Majority(votes, key)
    ensures exists i :: 0 <= i < |votes| && TallyKey(votes[i].result) == key
  {
    if forall i :: 0 <= i < |votes| ==> TallyKey(votes[i].result) != key {
      CountAbsent(votes, key);
      assert false;
    }
  }

  /** The map holds, for every key cast, how often it was cast. */
  ghost predicate Tallies(m: map<Text, nat>, votes: seq<Vote>) {
    forall key :: Count(votes, key) == (if key in m then m[key] else 0)
  }

  method Tally(votes: seq<Vote>) returns (m: map<Text, nat>)
    ensures Tallies(m, votes)
  {
    m := map[];
    for i := 0 to |votes|
      invariant Tallies(m, votes[..i])
    {
      var key := TallyKey(votes[i].result);
      ghost var before := m;
      m := m[key := (if key in m then m[key] else 0) + 1];
      assert votes[..i + 1][..i] == votes[..i];
      forall k ensures Count(votes[..i + 1], k) == (if k in m then m[k] else 0) {
        assert Count(votes[..i], k) == (if k in before then before[k] else 0);
      }
    }
    assert votes[..|votes|] == votes;
  }

  /** The largest count, 0 of an empty tally. */
  method Highest(m: map<Text, nat>) returns (max: nat)
    ensures forall key :: key in m ==> m[key] <= max
    ensures max == 0 || exists key :: key in m && m[key] == max
  {
    max := 0;
    var left := m.Keys;
    while left != {}
      invariant left <= m.Keys
      invariant forall key :: key in m && key !in left ==> m[key] <= max
      invariant max == 0 || exists key :: key in m && m[key] == max
      decreases |left|
    {
      var key :| key in left;
      if m[key] > max {
        max := m[key];
      }
      left := left - {key};
    }
  }

  /** The count that decides the verdict: it is a strict majority exactly when some key has one. */
  method Leading(votes: seq<Vote>) returns (max: nat)
    ensures forall key :: Count(votes, key) <= max
    ensures 2 * max > |votes| <==> exists key :: Majority(votes, key)
  {
    var t := Tally(votes);
    max := Highest(t);
    forall key ensures Count(votes, key) <= max {
      assert Count(votes, key) == (if key in t then t[key] else 0);
    }
    if 2 * max > |votes| {
      var key :| key in t && t[key] == max;
      assert Count(votes, key) == max;
      assert Majority(votes, key);
    }
  }
}
