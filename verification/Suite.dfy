/**
 The deterministic suite: drawn instances whose ids are made distinct by a renaming loop.
 */
module Suite {
  import opened Outcomes
  import opened Canonical

  const HASH: Unit := 35

  function Decimal(i: nat): (t: Text)
    ensures t != []
  {
    if i < 10 then [48 + i] else Decimal(i / 10) + [48 + i % 10]
  }

  function Suffix(slot: nat): (t: Text)
    ensures t != []
  {
    [HASH] + Decimal(slot)
  }

  /** The drawn id with the slot's suffix appended `times` times. */
  function Rebased(id: Text, slot: nat, times: nat): (t: Text)
    ensures |t| >= |id| + times
  {
    if times == 0 then id else Rebased(id, slot, times - 1) + Suffix(slot)
  }

  ghost predicate Distinct(ids: seq<Text>) {
    forall i, j :: 0 <= i < j < |ids| ==> ids[i] != ids[j]
  }

  /** Slot `i` holds its drawn id under the fewest suffixes that no earlier slot holds. */
  ghost predicate FirstFree(ids: seq<Text>, i: nat, drawn: Text)
    requires i < |ids|
  {
    exists times: nat :: FreeAfter(ids[..i], i, drawn, times) && ids[i] == Rebased(drawn, i, times)
  }

  ghost predicate FreeAfter(earlier: seq<Text>, slot: nat, drawn: Text, times: nat) {
    && Rebased(drawn, slot, times) !in earlier
    && forall fewer: nat :: fewer < times ==> Rebased(drawn, slot, fewer) in earlier
  }

  /** Ids already taken that are at least as long as this one. */
  ghost function AsLong(seen: set<Text>, n: nat): set<Text> {
    set id | id in seen && |id| >= n
  }

  /** The renaming loop: every pass lengthens the id, so fewer taken ids are as long. */
  method Rename(drawn: Text, slot: nat, seen: set<Text>, ghost earlier: seq<Text>) returns (id: Text)
    requires forall t :: t in seen <==> t in earlier
    ensures id !in seen
    ensures exists times: nat :: FreeAfter(earlier, slot, drawn, times) && id == Rebased(drawn, slot, times)
  {
    id := drawn;
    ghost var times := 0;
    while id in seen
      invariant id == Rebased(drawn, slot, times)
      invariant forall fewer: nat :: fewer < times ==> Rebased(drawn, slot, fewer) in earlier
      decreases |AsLong(seen, |id|)|
    {
      ghost var longer := id + Suffix(slot);
      assert AsLong(seen, |longer|) <= AsLong(seen, |id|) - {id};
      Smaller(AsLong(seen, |longer|), AsLong(seen, |id|), id);
      id := id + Suffix(slot);
      times := times + 1;
    }
    assert FreeAfter(earlier, slot, drawn, times);
  }

  lemma Smaller<T>(a: set<T>, b: set<T>, x: T)
    requires a <= b - {x} && x in b
    ensures |a| < |b|
  {
    Subset(a, b - {x});
  }

  lemma {:induction false} Subset<T>(a: set<T>, b: set<T>)
    requires a <= b
    ensures |a| <= |b|
    decreases a
  {
    if a != {} {
      var x :| x in a;
      Subset(a - {x}, b - {x});
    }
  }

  /** `draw` gives the id the templates produce for a slot. */
  method GenerateSuite(count: int, draw: nat -> Text) returns (r: Result<seq<Text>>)
    ensures r.Ok? <==> count > 0
    ensures r.Ok? ==> |r.value| == count && Distinct(r.value)
    ensures r.Ok? ==> forall i: nat :: i < |r.value| ==> FirstFree(r.value, i, draw(i))
  {
    if count <= 0 {
      return Err;
    }
    var out: seq<Text> := [];
    var seen: set<Text> := {};
    for i := 0 to count
      invariant |out| == i && Distinct(out)
      invariant forall t :: t in seen <==> t in out
      invariant forall j: nat :: j < i ==> FirstFree(out, j, draw(j))
    {
      var id := Rename(draw(i), i, seen, out);
      ghost var before := out;
      seen := seen + {id};
      out := out + [id];
      forall j: nat | j < i + 1 ensures FirstFree(out, j, draw(j)) {
        assert out[..j] == before[..j];
        if j < i {
          assert FirstFree(before, j, draw(j));
        } else {
          assert before[..j] == before;
        }
      }
    }
    return Ok(out);
  }
}
