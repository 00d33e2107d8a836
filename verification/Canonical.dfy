/**
 canonicalize: one text per JSON value, whatever the order of its object keys.

 Texts are sequences of UTF-16 code units, as in the source language. A finite number is named by the
 decimal text its runtime prints for it; negative zero, infinities and not-a-number are kept apart because
 the runtime prints them as another value.
 */
module Canonical {

  type Unit = u: int | 0 <= u < 0x10000
  type Text = seq<Unit>

  datatype Number = Finite(text: Text) | NegativeZero | NotANumber | Infinite(negative: bool)

  datatype Json =
    | Null
    | Boolean(b: bool)
    | Numeric(n: Number)
    | Str(s: Text)
    | Arr(items: Items)
    | Obj(fields: Fields<Json>)

  datatype Items = Nil | Cons(head: Json, tail: Items)

  /** An object's entries in insertion order. */
  datatype Fields<T> = Empty | Field(key: Text, value: T, rest: Fields<T>)

  const QUOTE: Unit := 34
  const BACKSLASH: Unit := 92
  const COMMA: Unit := 44
  const COLON: Unit := 58
  const OPEN_LIST: Unit := 91
  const CLOSE_LIST: Unit := 93
  const OPEN_OBJECT: Unit := 123
  const CLOSE_OBJECT: Unit := 125
  const NULL_TEXT: Text := [110, 117, 108, 108]
  const TRUE_TEXT: Text := [116, 114, 117, 101]
  const FALSE_TEXT: Text := [102, 97, 108, 115, 101]

  predicate IsDigit(u: Unit) {
    48 <= u <= 57
  }

  /** The units of a printed number: digits, sign, point and exponent. */
  predicate NumeralUnit(u: Unit) {
    IsDigit(u) || u == 45 || u == 43 || u == 46 || u == 101
  }

  predicate IsNumeral(t: Text) {
    t != [] && (IsDigit(t[0]) || t[0] == 45) && forall i :: 0 <= i < |t| ==> NumeralUnit(t[i])
  }

  // ---------- JSON.stringify of a string ----------

  predicate High(u: Unit) {
    0xD800 <= u <= 0xDBFF
  }

  predicate Low(u: Unit) {
    0xDC00 <= u <= 0xDFFF
  }

  function HexDigit(d: int): Unit
    requires 0 <= d < 16
  {
    if d < 10 then 48 + d else 87 + d
  }

  function HexEscape(u: Unit): Text {
    [BACKSLASH, 117, HexDigit(u / 16 / 16 / 16), HexDigit(u / 16 / 16 % 16), HexDigit(u / 16 % 16), HexDigit(u % 16)]
  }

  /** A unit that is not half of a surrogate pair. */
  function Escape(u: Unit): (t: Text)
    ensures t != []
  {
    if u == 8 then [BACKSLASH, 98]
    else if u == 9 then [BACKSLASH, 116]
    else if u == 10 then [BACKSLASH, 110]
    else if u == 12 then [BACKSLASH, 102]
    else if u == 13 then [BACKSLASH, 114]
    else if u == QUOTE || u == BACKSLASH then [BACKSLASH, u]
    else if u < 32 || High(u) || Low(u) then HexEscape(u)
    else [u]
  }

  function QuoteUnits(s: Text): Text {
    if s == [] then []
    else if |s| > 1 && High(s[0]) && Low(s[1]) then s[..2] + QuoteUnits(s[2..])
    else Escape(s[0]) + QuoteUnits(s[1..])
  }

  function Quote(s: Text): Text {
    [QUOTE] + QuoteUnits(s) + [QUOTE]
  }

  // ---------- key order ----------

  /** Code unit order, as the source's `<` on strings. */
  predicate Less(a: Text, b: Text)
    decreases |a|
  {
    b != [] && (a == [] || a[0] < b[0] || (a[0] == b[0] && Less(a[1..], b[1..])))
  }

  /** The texts agree on their first n units, and there b has a unit where a has a smaller one or none. */
  predicate PartsAt(a: Text, b: Text, n: nat) {
    n <= |a| && n < |b| && a[..n] == b[..n] && (n == |a| || a[n] < b[n])
  }

  /** What decides is the first unit in which two texts differ; a proper prefix comes first. */
  lemma {:induction false} LessExactly(a: Text, b: Text)
    ensures Less(a, b) <==> exists n :: PartsAt(a, b, n)
    decreases |a|
  {
    if a == [] {
      assert b != [] ==> PartsAt(a, b, 0);
    } else if b != [] {
      assert a[0] < b[0] ==> PartsAt(a, b, 0);
      if a[0] == b[0] {
        LessExactly(a[1..], b[1..]);
        if n: nat :| PartsAt(a[1..], b[1..], n) {
          PartsLater(a, b, n);
        }
        if n: nat :| PartsAt(a, b, n) {
          assert n > 0;
          assert a[1..][..n - 1] == a[..n][1..] && b[1..][..n - 1] == b[..n][1..];
          assert PartsAt(a[1..], b[1..], n - 1);
        }
      } else if n: nat :| PartsAt(a, b, n) {
        assert n > 0 ==> a[..n][0] == b[..n][0];
      }
    }
  }

  lemma PartsLater(a: Text, b: Text, n: nat)
    requires a != [] && b != [] && a[0] == b[0] && PartsAt(a[1..], b[1..], n)
    ensures PartsAt(a, b, n + 1)
  {
    assert a[..n + 1] == [a[0]] + a[1..][..n] && b[..n + 1] == [b[0]] + b[1..][..n];
  }

  function Insert<T>(k: Text, v: T, fs: Fields<T>): Fields<T> {
    if fs.Empty? || !Less(fs.key, k) then Field(k, v, fs)
    else Field(fs.key, fs.value, Insert(k, v, fs.rest))
  }

  function Sort<T>(fs: Fields<T>): Fields<T> {
    match fs
    case Empty => Empty
    case Field(k, v, rest) => Insert(k, v, Sort(rest))
  }

  // ---------- canonicalize ----------

  function NumberText(n: Number): Text {
    match n
    case Finite(t) => t
    case NegativeZero => [48]
    case _ => NULL_TEXT
  }

  function Canonicalize(v: Json): Text {
    match v
    case Null => NULL_TEXT
    case Boolean(b) => if b then TRUE_TEXT else FALSE_TEXT
    case Numeric(n) => NumberText(n)
    case Str(s) => Quote(s)
    case Arr(items) => [OPEN_LIST] + JoinItems(items) + [CLOSE_LIST]
    case Obj(fields) => [OPEN_OBJECT] + JoinFields(Sort(CanonicalFields(fields))) + [CLOSE_OBJECT]
  }

  function JoinItems(items: Items): Text {
    match items
    case Nil => []
    case Cons(v, Nil) => Canonicalize(v)
    case Cons(v, rest) => Canonicalize(v) + [COMMA] + JoinItems(rest)
  }

  function CanonicalFields(fs: Fields<Json>): Fields<Text> {
    match fs
    case Empty => Empty
    case Field(k, v, rest) => Field(k, Canonicalize(v), CanonicalFields(rest))
  }

  function JoinFields(fs: Fields<Text>): Text {
    match fs
    case Empty => []
    case Field(k, t, Empty) => Quote(k) + [COLON] + t
    case Field(k, t, rest) => Quote(k) + [COLON] + t + [COMMA] + JoinFields(rest)
  }

  // ---------- values the source can hold, and what they mean ----------

  function Keys<T>(fs: Fields<T>): set<Text> {
    match fs
    case Empty => {}
    case Field(k, _, rest) => {k} + Keys(rest)
  }

  predicate Distinct<T>(fs: Fields<T>) {
    match fs
    case Empty => true
    case Field(k, _, rest) => k !in Keys(rest) && Distinct(rest)
  }

  function Get<T>(fs: Fields<T>, k: Text): T
    requires k in Keys(fs)
  {
    if fs.key == k then fs.value else Get(fs.rest, k)
  }

  /** Object keys are distinct and numbers carry the text of a number, at every depth. */
  predicate WellFormed(v: Json) {
    match v
    case Numeric(Finite(t)) => IsNumeral(t)
    case Arr(items) => WellFormedItems(items)
    case Obj(fields) => Distinct(fields) && WellFormedFields(fields)
    case _ => true
  }

  predicate WellFormedItems(items: Items) {
    match items
    case Nil => true
    case Cons(v, rest) => WellFormed(v) && WellFormedItems(rest)
  }

  predicate WellFormedFields(fs: Fields<Json>) {
    match fs
    case Empty => true
    case Field(_, v, rest) => WellFormed(v) && WellFormedFields(rest)
  }

  /** What a number is once it has been through JSON. */
  function Wire(n: Number): Json {
    match n
    case Finite(t) => Numeric(n)
    case NegativeZero => Numeric(Finite([48]))
    case _ => Null
  }

  function Scalar(v: Json): Json {
    if v.Numeric? then Wire(v.n) else v
  }

  /** Equal as JSON values, object key order ignored. */
  predicate Same(a: Json, b: Json)
    decreases a
  {
    if a.Arr? && b.Arr? then SameItems(a.items, b.items)
    else if a.Obj? && b.Obj? then Keys(a.fields) == Keys(b.fields) && SameFields(a.fields, b.fields)
    else Scalar(a) == Scalar(b)
  }

  predicate SameItems(a: Items, b: Items)
    decreases a
  {
    match a
    case Nil => b.Nil?
    case Cons(v, rest) => b.Cons? && Same(v, b.head) && SameItems(rest, b.tail)
  }

  predicate SameFields(a: Fields<Json>, b: Fields<Json>)
    decreases a
  {
    match a
    case Empty => true
    case Field(k, v, rest) => k in Keys(b) && Same(v, Get(b, k)) && SameFields(rest, b)
  }

  // ---------- the normal form: sorted keys, wire numbers ----------

  function Normal(v: Json): Json {
    match v
    case Arr(items) => Arr(NormalItems(items))
    case Obj(fields) => Obj(Sort(NormalFields(fields)))
    case _ => Scalar(v)
  }

  function NormalItems(items: Items): Items {
    match items
    case Nil => Nil
    case Cons(v, rest) => Cons(Normal(v), NormalItems(rest))
  }

  function NormalFields(fs: Fields<Json>): Fields<Json> {
    match fs
    case Empty => Empty
    case Field(k, v, rest) => Field(k, Normal(v), NormalFields(rest))
  }

  // ---------- sorting ----------

  lemma {:induction false} LessIrreflexive(a: Text)
    ensures !Less(a, a)
    decreases |a|
  {
    if a != [] {
      LessIrreflexive(a[1..]);
    }
  }

  lemma {:induction false} LessTransitive(a: Text, b: Text, c: Text)
    requires Less(a, b) && Less(b, c)
    ensures Less(a, c)
    decreases |a|
  {
    if a != [] && a[0] == b[0] && b[0] == c[0] {
      LessTransitive(a[1..], b[1..], c[1..]);
    }
  }

  lemma {:induction false} LessTotal(a: Text, b: Text)
    ensures a == b || Less(a, b) || Less(b, a)
    decreases |a|
  {
    if a != [] && b != [] && a[0] == b[0] {
      LessTotal(a[1..], b[1..]);
      assert a == [a[0]] + a[1..] && b == [b[0]] + b[1..];
    }
  }

  ghost predicate Sorted<T>(fs: Fields<T>) {
    match fs
    case Empty => true
    case Field(k, _, rest) => Sorted(rest) && forall j :: j in Keys(rest) ==> Less(k, j)
  }

  lemma {:induction false} InsertFacts<T>(k: Text, v: T, fs: Fields<T>)
    requires Sorted(fs) && k !in Keys(fs)
    ensures Sorted(Insert(k, v, fs)) && Keys(Insert(k, v, fs)) == {k} + Keys(fs)
    ensures Get(Insert(k, v, fs), k) == v && forall j :: j in Keys(fs) ==> Get(Insert(k, v, fs), j) == Get(fs, j)
  {
    if fs.Field? {
      LessTotal(fs.key, k);
      if Less(fs.key, k) {
        InsertFacts(k, v, fs.rest);
      } else {
        forall j | j in Keys(fs) ensures Less(k, j) {
          if j != fs.key {
            LessTransitive(k, fs.key, j);
          }
        }
      }
    }
  }

  /** Sorting keeps every key with its value. */
  lemma {:induction false} SortFacts<T>(fs: Fields<T>)
    requires Distinct(fs)
    ensures Sorted(Sort(fs)) && Keys(Sort(fs)) == Keys(fs)
    ensures forall k :: k in Keys(fs) ==> Get(Sort(fs), k) == Get(fs, k)
  {
    if fs.Field? {
      SortFacts(fs.rest);
      InsertFacts(fs.key, fs.value, Sort(fs.rest));
    }
  }

  /** A sorted object is determined by its keys and values. */
  lemma {:induction false} SortedUnique<T>(a: Fields<T>, b: Fields<T>)
    requires Sorted(a) && Sorted(b) && Keys(a) == Keys(b) && forall k :: k in Keys(a) ==> Get(a, k) == Get(b, k)
    ensures a == b
  {
    if a.Empty? {
      assert Keys(b) == {};
    } else {
      assert a.key in Keys(b) && b.Field?;
      assert b.key in Keys(a);
      if a.key != b.key {
        assert Less(b.key, a.key) && Less(a.key, b.key);
        LessTransitive(a.key, b.key, a.key);
        LessIrreflexive(a.key);
        assert false;
      }
      LessIrreflexive(a.key);
      assert Keys(a.rest) == Keys(a) - {a.key} && Keys(b.rest) == Keys(b) - {b.key};
      forall k | k in Keys(a.rest) ensures Get(a.rest, k) == Get(b.rest, k) {
        assert Get(a, k) == Get(b, k);
      }
      SortedUnique(a.rest, b.rest);
    }
  }

  // ---------- Same is equality of normal forms ----------

  lemma {:induction false} NormalFieldsFacts(fs: Fields<Json>)
    ensures Keys(NormalFields(fs)) == Keys(fs) && (Distinct(fs) ==> Distinct(NormalFields(fs)))
    ensures forall k :: k in Keys(fs) ==> Get(NormalFields(fs), k) == Normal(Get(fs, k))
  {
    if fs.Field? {
      NormalFieldsFacts(fs.rest);
    }
  }

  lemma {:induction false} GetWellFormed(fs: Fields<Json>, k: Text)
    requires WellFormedFields(fs) && k in Keys(fs)
    ensures WellFormed(Get(fs, k))
  {
    if fs.key != k {
      GetWellFormed(fs.rest, k);
    }
  }

  lemma {:induction false} SameIsNormal(a: Json, b: Json)
    requires WellFormed(a) && WellFormed(b)
    ensures Same(a, b) <==> Normal(a) == Normal(b)
    decreases a
  {
    if a.Arr? && b.Arr? {
      SameItemsIsNormal(a.items, b.items);
    } else if a.Obj? && b.Obj? {
      var x, y := a.fields, b.fields;
      NormalFieldsFacts(x);
      NormalFieldsFacts(y);
      SortFacts(NormalFields(x));
      SortFacts(NormalFields(y));
      SameFieldsIsNormal(x, y);
      if Same(a, b) {
        assert forall k :: k in Keys(x) ==> AgreesOn(x, y, k);
        SortedUnique(Sort(NormalFields(x)), Sort(NormalFields(y)));
      }
      if Normal(a) == Normal(b) {
        forall k | k in Keys(x) ensures AgreesOn(x, y, k) {
          assert Get(Sort(NormalFields(x)), k) == Get(Sort(NormalFields(y)), k);
        }
      }
    }
  }

  lemma {:induction false} SameItemsIsNormal(a: Items, b: Items)
    requires WellFormedItems(a) && WellFormedItems(b)
    ensures SameItems(a, b) <==> NormalItems(a) == NormalItems(b)
    decreases a
  {
    if a.Cons? && b.Cons? {
      SameIsNormal(a.head, b.head);
      SameItemsIsNormal(a.tail, b.tail);
    }
  }

  /** The key has the same value on both sides. */
  predicate AgreesOn(a: Fields<Json>, b: Fields<Json>, k: Text)
    requires k in Keys(a)
  {
    k in Keys(b) && Normal(Get(a, k)) == Normal(Get(b, k))
  }

  ghost predicate AgreeOnAll(a: Fields<Json>, b: Fields<Json>) {
    forall k :: k in Keys(a) ==> AgreesOn(a, b, k)
  }

  lemma AgreementSplits(a: Fields<Json>, b: Fields<Json>)
    requires a.Field? && Distinct(a)
    ensures AgreeOnAll(a, b) <==> AgreesOn(a, b, a.key) && AgreeOnAll(a.rest, b)
  {
    assert forall k :: k in Keys(a.rest) ==> k in Keys(a) && k != a.key;
    if AgreeOnAll(a, b) {
      forall k | k in Keys(a.rest) ensures AgreesOn(a.rest, b, k) {
        assert AgreesOn(a, b, k);
      }
    }
    if AgreesOn(a, b, a.key) && AgreeOnAll(a.rest, b) {
      forall k | k in Keys(a) ensures AgreesOn(a, b, k) {
        assert k != a.key ==> AgreesOn(a.rest, b, k);
      }
    }
  }

  lemma {:induction false} SameFieldsIsNormal(a: Fields<Json>, b: Fields<Json>)
    requires Distinct(a) && WellFormedFields(a) && WellFormedFields(b)
    ensures SameFields(a, b) <==> AgreeOnAll(a, b)
    decreases a
  {
    if a.Field? {
      SameFieldsIsNormal(a.rest, b);
      AgreementSplits(a, b);
      if a.key in Keys(b) {
        GetWellFormed(b, a.key);
        SameIsNormal(a.value, Get(b, a.key));
      }
    }
  }
}
