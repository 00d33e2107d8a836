/**
 A parser that undoes canonicalize, so that the canonical text decides equality of JSON values.
 String syntax follows section 7 of RFC 8259; key order follows section 3.2.3 of RFC 8785.
 */
module CanonicalParser {
  import opened Outcomes
  import opened Canonical

  // ---------- strings ----------

  function HexValue(u: Unit): Option<nat> {
    if 48 <= u <= 57 then Some(u - 48) else if 97 <= u <= 102 then Some(u - 87) else None
  }

  /** The unit named by four hexadecimal digits. */
  function HexUnit(t: Text): Option<Unit>
    requires |t| == 4
  {
    match (HexValue(t[0]), HexValue(t[1]), HexValue(t[2]), HexValue(t[3]))
    case (Some(a), Some(b), Some(c), Some(d)) =>
      var u := 4096 * a + 256 * b + 16 * c + d;
      if u < 0x10000 then Some(u) else None
    case _ => None
  }

  /** The unit named by a short escape such as \n. */
  function Unescape(u: Unit): Unit {
    if u == 98 then 8
    else if u == 116 then 9
    else if u == 110 then 10
    else if u == 102 then 12
    else if u == 114 then 13
    else u
  }

  /** Reads the rest of a string up to and past its closing quote. */
  function ParseString(t: Text): (r: Option<(Text, Text)>)
    ensures r.Some? ==> |r.value.1| < |t|
  {
    if t == [] then None
    else if t[0] == QUOTE then Some(([], t[1..]))
    else if t[0] != BACKSLASH then Before(t[0], ParseString(t[1..]))
    else if |t| < 2 then None
    else if t[1] != 117 then Before(Unescape(t[1]), ParseString(t[2..]))
    else if |t| < 6 then None
    else
      match HexUnit(t[2..6])
      case None => None
      case Some(u) => Before(u, ParseString(t[6..]))
  }

  function Before(u: Unit, r: Option<(Text, Text)>): Option<(Text, Text)> {
    if r.None? then None else Some(([u] + r.value.0, r.value.1))
  }

  // ---------- values ----------

  function NumeralLength(t: Text): (n: nat)
    ensures n <= |t|
  {
    if t == [] || !NumeralUnit(t[0]) then 0 else 1 + NumeralLength(t[1..])
  }

  function Parse(t: Text): (r: Option<(Json, Text)>)
    ensures r.Some? ==> |r.value.1| < |t|
    decreases |t|, 0
  {
    if t == [] then None
    else if t[0] == QUOTE then
      match ParseString(t[1..])
      case None => None
      case Some((s, rest)) => Some((Str(s), rest))
    else if t[0] == OPEN_LIST then
      if |t| > 1 && t[1] == CLOSE_LIST then Some((Arr(Nil), t[2..]))
      else
        match ParseItems(t[1..])
        case None => None
        case Some((items, rest)) => Some((Arr(items), rest))
    else if t[0] == OPEN_OBJECT then
      if |t| > 1 && t[1] == CLOSE_OBJECT then Some((Obj(Empty), t[2..]))
      else
        match ParseFields(t[1..])
        case None => None
        case Some((fields, rest)) => Some((Obj(fields), rest))
    else if NULL_TEXT <= t then Some((Null, t[4..]))
    else if TRUE_TEXT <= t then Some((Boolean(true), t[4..]))
    else if FALSE_TEXT <= t then Some((Boolean(false), t[5..]))
    else
      var n := NumeralLength(t);
      if n == 0 then None else Some((Numeric(Finite(t[..n])), t[n..]))
  }

  /** Reads one or more items and the closing bracket. */
  function ParseItems(t: Text): (r: Option<(Items, Text)>)
    ensures r.Some? ==> |r.value.1| < |t|
    decreases |t|, 1
  {
    match Parse(t)
    case None => None
    case Some((v, rest)) =>
      if rest == [] then None
      else if rest[0] == CLOSE_LIST then Some((Cons(v, Nil), rest[1..]))
      else if rest[0] != COMMA then None
      else
        match ParseItems(rest[1..])
        case None => None
        case Some((items, last)) => Some((Cons(v, items), last))
  }

  /** Reads one or more entries and the closing brace. */
  function ParseFields(t: Text): (r: Option<(Fields<Json>, Text)>)
    ensures r.Some? ==> |r.value.1| < |t|
    decreases |t|, 1
  {
    if t == [] || t[0] != QUOTE then None
    else
      match ParseString(t[1..])
      case None => None
      case Some((k, colon)) =>
        if colon == [] || colon[0] != COLON then None
        else
          match Parse(colon[1..])
          case None => None
          case Some((v, rest)) =>
            if rest == [] then None
            else if rest[0] == CLOSE_OBJECT then Some((Field(k, v, Empty), rest[1..]))
            else if rest[0] != COMMA then None
            else
              match ParseFields(rest[1..])
              case None => None
              case Some((fields, last)) => Some((Field(k, v, fields), last))
  }

  // ---------- strings round trip ----------

  lemma DigitRoundTrip(d: nat)
    requires d < 16
    ensures HexValue(HexDigit(d)) == Some(d)
  {
  }

  lemma FourDigits(u: Unit)
    ensures u == 4096 * (u / 16 / 16 / 16) + 256 * (u / 16 / 16 % 16) + 16 * (u / 16 % 16) + u % 16
  {
    var a := u / 16;
    var b := a / 16;
    assert u == 16 * a + u % 16 && a == 16 * b + a % 16 && b == 16 * (b / 16) + b % 16;
  }

  lemma HexRoundTrip(u: Unit)
    ensures HexUnit(HexEscape(u)[2..6]) == Some(u)
  {
    var t := HexEscape(u)[2..6];
    FourDigits(u);
    DigitRoundTrip(u / 16 / 16 / 16);
    DigitRoundTrip(u / 16 / 16 % 16);
    DigitRoundTrip(u / 16 % 16);
    DigitRoundTrip(u % 16);
    assert t[0] == HexDigit(u / 16 / 16 / 16) && t[1] == HexDigit(u / 16 / 16 % 16);
    assert t[2] == HexDigit(u / 16 % 16) && t[3] == HexDigit(u % 16);
  }

  lemma RawUnit(u: Unit, more: Text)
    requires u != QUOTE && u != BACKSLASH
    ensures ParseString([u] + more) == Before(u, ParseString(more))
  {
    assert ([u] + more)[1..] == more;
  }

  lemma ShortEscape(e: Unit, more: Text)
    requires e != 117
    ensures ParseString([BACKSLASH, e] + more) == Before(Unescape(e), ParseString(more))
  {
    assert ([BACKSLASH, e] + more)[2..] == more;
  }

  lemma LongEscape(u: Unit, more: Text)
    ensures ParseString(HexEscape(u) + more) == Before(u, ParseString(more))
  {
    var t := HexEscape(u) + more;
    HexRoundTrip(u);
    assert t[0] == BACKSLASH && t[1] == 117;
    assert t[2..6] == HexEscape(u)[2..6] && t[6..] == more;
  }

  lemma EscapeRoundTrip(u: Unit, more: Text)
    ensures ParseString(Escape(u) + more) == Before(u, ParseString(more))
  {
    var e := Escape(u);
    if |e| == 1 {
      RawUnit(u, more);
    } else if |e| == 2 {
      assert e == [BACKSLASH, e[1]];
      ShortEscape(e[1], more);
    } else {
      LongEscape(u, more);
    }
  }

  lemma Regroup(a: Text, b: Text, c: Text)
    ensures (a + b) + c == a + (b + c)
  {
  }

  lemma PairRoundTrip(p: Text, more: Text, s: Text, rest: Text)
    requires |p| == 2 && High(p[0]) && Low(p[1]) && ParseString(more) == Some((s, rest))
    ensures ParseString(p + more) == Some((p + s, rest))
  {
    RawUnit(p[1], more);
    RawUnit(p[0], [p[1]] + more);
    assert p + more == [p[0]] + ([p[1]] + more);
    assert p + s == [p[0]] + ([p[1]] + s);
  }

  lemma {:induction false} StringRoundTrip(s: Text, rest: Text)
    ensures ParseString(QuoteUnits(s) + ([QUOTE] + rest)) == Some((s, rest))
    decreases |s|
  {
    var tail := [QUOTE] + rest;
    if s == [] {
      assert QuoteUnits(s) + tail == tail;
    } else if |s| > 1 && High(s[0]) && Low(s[1]) {
      StringRoundTrip(s[2..], rest);
      Regroup(s[..2], QuoteUnits(s[2..]), tail);
      PairRoundTrip(s[..2], QuoteUnits(s[2..]) + tail, s[2..], rest);
      assert s == s[..2] + s[2..];
    } else {
      StringRoundTrip(s[1..], rest);
      Regroup(Escape(s[0]), QuoteUnits(s[1..]), tail);
      EscapeRoundTrip(s[0], QuoteUnits(s[1..]) + tail);
      assert s == [s[0]] + s[1..];
    }
  }

  // ---------- values round trip ----------

  /** What may follow a value: nothing, or a unit no number continues with. */
  predicate Stops(rest: Text) {
    rest == [] || !NumeralUnit(rest[0])
  }

  ghost predicate DecodesBefore(t: Text, v: Json, rest: Text) {
    Parse(t + rest) == Some((v, rest))
  }

  /** Text `t` is read as `v`, whatever follows. */
  ghost predicate Decodes(t: Text, v: Json) {
    t != [] && t[0] != CLOSE_LIST && forall rest :: Stops(rest) ==> DecodesBefore(t, v, rest)
  }

  lemma {:induction false} NumeralSpan(t: Text, rest: Text)
    requires forall i :: 0 <= i < |t| ==> NumeralUnit(t[i])
    requires Stops(rest)
    ensures NumeralLength(t + rest) == |t|
  {
    if t == [] {
      assert t + rest == rest;
    } else {
      NumeralSpan(t[1..], rest);
      assert (t + rest)[1..] == t[1..] + rest;
    }
  }

  lemma NumberRoundTrip(t: Text, rest: Text)
    requires IsNumeral(t) && Stops(rest)
    ensures Parse(t + rest) == Some((Numeric(Finite(t)), rest))
  {
    NumeralSpan(t, rest);
    assert (t + rest)[0] == t[0];
    assert (t + rest)[..|t|] == t && (t + rest)[|t|..] == rest;
  }

  lemma StrRoundTrip(s: Text, rest: Text)
    ensures Parse(Quote(s) + rest) == Some((Str(s), rest))
  {
    StringRoundTrip(s, rest);
    assert (Quote(s) + rest)[1..] == QuoteUnits(s) + ([QUOTE] + rest);
  }

  /** Every value is read back from its canonical text, in normal form. */
  lemma {:induction false} CanonicalDecodes(v: Json)
    requires WellFormed(v)
    ensures Decodes(Canonicalize(v), Normal(v))
    decreases v, 0
  {
    var t := Canonicalize(v);
    forall rest | Stops(rest) ensures t != [] && t[0] != CLOSE_LIST && DecodesBefore(t, Normal(v), rest) {
      match v {
        case Null => assert NULL_TEXT <= t + rest && (t + rest)[4..] == rest;
        case Boolean(b) => BooleanDecodes(b, rest);
        case Numeric(n) => NumberDecodes(n, rest);
        case Str(s) => StrRoundTrip(s, rest);
        case Arr(items) => ItemsDecode(items, rest);
        case Obj(fields) => ObjectDecodes(fields, rest);
      }
    }
    assert Stops([]);
  }

  lemma BooleanDecodes(b: bool, rest: Text)
    ensures Parse(Canonicalize(Boolean(b)) + rest) == Some((Boolean(b), rest))
  {
    var t := Canonicalize(Boolean(b)) + rest;
    if b {
      assert t[0] == 116 && TRUE_TEXT <= t && t[4..] == rest;
    } else {
      assert t[0] == 102 && FALSE_TEXT <= t && t[5..] == rest;
    }
  }

  lemma NumberDecodes(n: Number, rest: Text)
    requires WellFormed(Numeric(n)) && Stops(rest)
    ensures Parse(NumberText(n) + rest) == Some((Wire(n), rest))
  {
    match n
    case Finite(t) => NumberRoundTrip(t, rest);
    case NegativeZero => NumberRoundTrip([48], rest);
    case _ => assert NULL_TEXT <= NULL_TEXT + rest && (NULL_TEXT + rest)[4..] == rest;
  }

  /** Brackets around a list of items that has been read. */
  lemma BracketsDecode(inner: Text, items: Items, rest: Text)
    requires inner != [] && inner[0] != CLOSE_LIST && ParseItems(inner) == Some((items, rest))
    ensures Parse([OPEN_LIST] + inner) == Some((Arr(items), rest))
  {
    assert ([OPEN_LIST] + inner)[1..] == inner;
  }

  lemma ItemsDecode(items: Items, rest: Text)
    requires WellFormedItems(items)
    ensures Parse(Canonicalize(Arr(items)) + rest) == Some((Arr(NormalItems(items)), rest))
    decreases items, 1
  {
    var list, tail := JoinItems(items), [CLOSE_LIST] + rest;
    if items.Nil? {
      var t := Canonicalize(Arr(items)) + rest;
      assert t == [OPEN_LIST, CLOSE_LIST] + rest;
      assert t[2..] == rest;
    } else {
      ItemListDecodes(items, rest);
      CanonicalDecodes(items.head);
      assert list[0] == Canonicalize(items.head)[0];
      BracketsDecode(list + tail, NormalItems(items), rest);
      assert [OPEN_LIST] + list + [CLOSE_LIST] + rest == [OPEN_LIST] + (list + tail);
    }
  }

  lemma LastItem(t: Text, v: Json, rest: Text)
    requires Decodes(t, v)
    ensures ParseItems(t + ([CLOSE_LIST] + rest)) == Some((Cons(v, Nil), rest))
  {
    var more := [CLOSE_LIST] + rest;
    assert DecodesBefore(t, v, more);
    assert more[1..] == rest;
  }

  lemma MoreItems(t: Text, v: Json, others: Text, items: Items, rest: Text)
    requires Decodes(t, v) && ParseItems(others) == Some((items, rest))
    ensures ParseItems(t + ([COMMA] + others)) == Some((Cons(v, items), rest))
  {
    var more := [COMMA] + others;
    assert DecodesBefore(t, v, more);
    assert more[1..] == others;
  }

  /** The text of a list of items, regrouped from its first item on. */
  lemma ItemText(items: Items, tail: Text)
    requires items.Cons?
    ensures items.tail.Nil? ==> JoinItems(items) + tail == Canonicalize(items.head) + tail
    ensures items.tail.Cons? ==> JoinItems(items) + tail == Canonicalize(items.head) + ([COMMA] + (JoinItems(items.tail) + tail))
  {
  }

  lemma {:induction false} ItemListDecodes(items: Items, rest: Text)
    requires WellFormedItems(items) && items.Cons?
    ensures ParseItems(JoinItems(items) + ([CLOSE_LIST] + rest)) == Some((NormalItems(items), rest))
    decreases items, 0
  {
    CanonicalDecodes(items.head);
    ItemText(items, [CLOSE_LIST] + rest);
    if items.tail.Nil? {
      LastItem(Canonicalize(items.head), Normal(items.head), rest);
    } else {
      ItemListDecodes(items.tail, rest);
      MoreItems(Canonicalize(items.head), Normal(items.head), JoinItems(items.tail) + ([CLOSE_LIST] + rest), NormalItems(items.tail), rest);
    }
  }

  /** Entry by entry, the texts are read as the values. */
  ghost predicate Renders(ts: Fields<Text>, vs: Fields<Json>) {
    match ts
    case Empty => vs.Empty?
    case Field(k, t, rest) => vs.Field? && vs.key == k && Decodes(t, vs.value) && Renders(rest, vs.rest)
  }

  lemma {:induction false} InsertRenders(k: Text, t: Text, v: Json, ts: Fields<Text>, vs: Fields<Json>)
    requires Decodes(t, v) && Renders(ts, vs)
    ensures Renders(Insert(k, t, ts), Insert(k, v, vs))
    decreases ts
  {
    if ts.Field? && Less(ts.key, k) {
      InsertRenders(k, t, v, ts.rest, vs.rest);
    }
  }

  lemma {:induction false} SortRenders(ts: Fields<Text>, vs: Fields<Json>)
    requires Renders(ts, vs)
    ensures Renders(Sort(ts), Sort(vs))
    decreases ts
  {
    if ts.Field? {
      SortRenders(ts.rest, vs.rest);
      InsertRenders(ts.key, ts.value, vs.value, Sort(ts.rest), Sort(vs.rest));
    }
  }

  lemma {:induction false} FieldsRender(fs: Fields<Json>)
    requires WellFormedFields(fs)
    ensures Renders(CanonicalFields(fs), NormalFields(fs))
    decreases fs, 0
  {
    if fs.Field? {
      CanonicalDecodes(fs.value);
      FieldsRender(fs.rest);
    }
  }

  /** One entry and what is left after it. */
  lemma EntryDecodes(k: Text, t: Text, v: Json, more: Text)
    requires Decodes(t, v) && more != [] && Stops(more)
    ensures
      var whole := Quote(k) + ([COLON] + (t + more));
      ParseString(whole[1..]) == Some((k, [COLON] + (t + more))) && Parse(([COLON] + (t + more))[1..]) == Some((v, more))
  {
    var colon := [COLON] + (t + more);
    assert (Quote(k) + colon)[1..] == QuoteUnits(k) + ([QUOTE] + colon);
    StringRoundTrip(k, colon);
    assert colon[1..] == t + more;
    assert DecodesBefore(t, v, more);
  }

  lemma LastEntry(k: Text, t: Text, v: Json, rest: Text)
    requires Decodes(t, v)
    ensures ParseFields(Quote(k) + ([COLON] + (t + ([CLOSE_OBJECT] + rest)))) == Some((Field(k, v, Empty), rest))
  {
    var more := [CLOSE_OBJECT] + rest;
    EntryDecodes(k, t, v, more);
    assert more[1..] == rest;
  }

  lemma MoreEntries(k: Text, t: Text, v: Json, others: Text, fs: Fields<Json>, rest: Text)
    requires Decodes(t, v) && ParseFields(others) == Some((fs, rest))
    ensures ParseFields(Quote(k) + ([COLON] + (t + ([COMMA] + others)))) == Some((Field(k, v, fs), rest))
  {
    var more := [COMMA] + others;
    EntryDecodes(k, t, v, more);
    assert more[1..] == others;
  }

  /** The text of a list of entries, regrouped from its first entry on. */
  lemma EntryText(ts: Fields<Text>, tail: Text)
    requires ts.Field?
    ensures ts.rest.Empty? ==> JoinFields(ts) + tail == Quote(ts.key) + ([COLON] + (ts.value + tail))
    ensures ts.rest.Field? ==>
              JoinFields(ts) + tail == Quote(ts.key) + ([COLON] + (ts.value + ([COMMA] + (JoinFields(ts.rest) + tail))))
  {
    if ts.rest.Empty? {
      RegroupAll(Quote(ts.key), [COLON], ts.value, tail);
    } else {
      var others := JoinFields(ts.rest);
      RegroupAll(Quote(ts.key), [COLON], ts.value, [COMMA] + (others + tail));
      assert ([COMMA] + others) + tail == [COMMA] + (others + tail);
      RegroupAll(Quote(ts.key) + [COLON] + ts.value, [COMMA], others, tail);
    }
  }

  lemma RegroupAll(a: Text, b: Text, c: Text, d: Text)
    ensures a + b + c + d == a + (b + (c + d))
  {
  }

  lemma {:induction false} FieldListDecodes(ts: Fields<Text>, vs: Fields<Json>, rest: Text)
    requires Renders(ts, vs) && ts.Field?
    ensures ParseFields(JoinFields(ts) + ([CLOSE_OBJECT] + rest)) == Some((vs, rest))
    decreases ts
  {
    EntryText(ts, [CLOSE_OBJECT] + rest);
    if ts.rest.Empty? {
      LastEntry(ts.key, ts.value, vs.value, rest);
    } else {
      FieldListDecodes(ts.rest, vs.rest, rest);
      MoreEntries(ts.key, ts.value, vs.value, JoinFields(ts.rest) + ([CLOSE_OBJECT] + rest), vs.rest, rest);
    }
  }

  /** Braces around a list of entries that has been read. */
  lemma BracesDecode(inner: Text, vs: Fields<Json>, rest: Text)
    requires inner != [] && inner[0] == QUOTE && ParseFields(inner) == Some((vs, rest))
    ensures Parse([OPEN_OBJECT] + inner) == Some((Obj(vs), rest))
  {
    assert ([OPEN_OBJECT] + inner)[1..] == inner;
  }

  lemma ObjectDecodes(fs: Fields<Json>, rest: Text)
    requires WellFormedFields(fs)
    ensures Parse(Canonicalize(Obj(fs)) + rest) == Some((Normal(Obj(fs)), rest))
    decreases fs, 1
  {
    FieldsRender(fs);
    var ts, vs := Sort(CanonicalFields(fs)), Sort(NormalFields(fs));
    SortRenders(CanonicalFields(fs), NormalFields(fs));
    if ts.Empty? {
      var t := Canonicalize(Obj(fs)) + rest;
      assert t == [OPEN_OBJECT, CLOSE_OBJECT] + rest;
      assert t[2..] == rest;
    } else {
      FieldListDecodes(ts, vs, rest);
      var list := JoinFields(ts);
      BracesDecode(list + ([CLOSE_OBJECT] + rest), vs, rest);
      assert [OPEN_OBJECT] + list + [CLOSE_OBJECT] + rest == [OPEN_OBJECT] + (list + ([CLOSE_OBJECT] + rest));
    }
  }

  // ---------- the text depends only on the normal form ----------

  /** The text of a value with its keys in the order given. */
  function Print(v: Json): Text {
    match v
    case Arr(items) => [OPEN_LIST] + PrintItems(items) + [CLOSE_LIST]
    case Obj(fields) => [OPEN_OBJECT] + JoinFields(PrintFields(fields)) + [CLOSE_OBJECT]
    case _ => Canonicalize(v)
  }

  function PrintItems(items: Items): Text {
    match items
    case Nil => []
    case Cons(v, Nil) => Print(v)
    case Cons(v, rest) => Print(v) + [COMMA] + PrintItems(rest)
  }

  function PrintFields(fs: Fields<Json>): Fields<Text> {
    match fs
    case Empty => Empty
    case Field(k, v, rest) => Field(k, Print(v), PrintFields(rest))
  }

  lemma {:induction false} PrintInsert(k: Text, v: Json, fs: Fields<Json>)
    ensures PrintFields(Insert(k, v, fs)) == Insert(k, Print(v), PrintFields(fs))
  {
    if fs.Field? && Less(fs.key, k) {
      PrintInsert(k, v, fs.rest);
    }
  }

  lemma {:induction false} PrintSort(fs: Fields<Json>)
    ensures PrintFields(Sort(fs)) == Sort(PrintFields(fs))
  {
    if fs.Field? {
      PrintSort(fs.rest);
      PrintInsert(fs.key, fs.value, Sort(fs.rest));
    }
  }

  lemma {:induction false} TextOfNormal(v: Json)
    ensures Canonicalize(v) == Print(Normal(v))
    decreases v
  {
    match v
    case Arr(items) => TextOfItems(items);
    case Obj(fields) =>
      TextOfFields(fields);
      PrintSort(NormalFields(fields));
    case _ =>
  }

  lemma {:induction false} TextOfItems(items: Items)
    ensures JoinItems(items) == PrintItems(NormalItems(items))
    decreases items
  {
    if items.Cons? {
      TextOfNormal(items.head);
      TextOfItems(items.tail);
    }
  }

  lemma {:induction false} TextOfFields(fs: Fields<Json>)
    ensures CanonicalFields(fs) == PrintFields(NormalFields(fs))
    decreases fs
  {
    if fs.Field? {
      TextOfNormal(fs.value);
      TextOfFields(fs.rest);
    }
  }

  // ---------- the normal form is the same value ----------

  lemma {:induction false} NormalInsert(k: Text, v: Json, fs: Fields<Json>)
    ensures NormalFields(Insert(k, v, fs)) == Insert(k, Normal(v), NormalFields(fs))
    ensures WellFormed(v) && WellFormedFields(fs) ==> WellFormedFields(Insert(k, v, fs))
  {
    if fs.Field? && Less(fs.key, k) {
      NormalInsert(k, v, fs.rest);
    }
  }

  lemma {:induction false} NormalSort(fs: Fields<Json>)
    ensures NormalFields(Sort(fs)) == Sort(NormalFields(fs))
    ensures WellFormedFields(fs) ==> WellFormedFields(Sort(fs))
  {
    if fs.Field? {
      NormalSort(fs.rest);
      NormalInsert(fs.key, fs.value, Sort(fs.rest));
    }
  }

  lemma {:induction false} SortedDistinct<T>(fs: Fields<T>)
    requires Sorted(fs)
    ensures Distinct(fs) && Sort(fs) == fs
  {
    if fs.Field? {
      SortedDistinct(fs.rest);
      LessIrreflexive(fs.key);
      if fs.rest.Field? {
        assert fs.rest.key in Keys(fs.rest);
        if Less(fs.rest.key, fs.key) {
          LessTransitive(fs.key, fs.rest.key, fs.key);
          assert false;
        }
      }
    }
  }

  lemma {:induction false} NormalIsSame(v: Json)
    requires WellFormed(v)
    ensures WellFormed(Normal(v)) && Normal(Normal(v)) == Normal(v)
    decreases v
  {
    match v
    case Numeric(n) => assert IsNumeral([48]);
    case Arr(items) => NormalItemsAreSame(items);
    case Obj(fields) =>
      var fs := NormalFields(fields);
      NormalFieldsAreSame(fields);
      NormalFieldsFacts(fields);
      SortFacts(fs);
      SortedDistinct(Sort(fs));
      NormalSort(fs);
    case _ =>
  }

  lemma {:induction false} NormalItemsAreSame(items: Items)
    requires WellFormedItems(items)
    ensures WellFormedItems(NormalItems(items)) && NormalItems(NormalItems(items)) == NormalItems(items)
    decreases items
  {
    if items.Cons? {
      NormalIsSame(items.head);
      NormalItemsAreSame(items.tail);
    }
  }

  lemma {:induction false} NormalFieldsAreSame(fs: Fields<Json>)
    requires WellFormedFields(fs)
    ensures WellFormedFields(NormalFields(fs)) && NormalFields(NormalFields(fs)) == NormalFields(fs)
    decreases fs
  {
    if fs.Field? {
      NormalIsSame(fs.value);
      NormalFieldsAreSame(fs.rest);
    }
  }

  // ---------- the code is faithful ----------

  /** Parsing a canonical text gives the value back, keys sorted and numbers as JSON carries them. */
  lemma RoundTrip(v: Json)
    requires WellFormed(v)
    ensures Parse(Canonicalize(v)) == Some((Normal(v), []))
    ensures Same(v, Normal(v)) && WellFormed(Normal(v))
  {
    CanonicalDecodes(v);
    assert DecodesBefore(Canonicalize(v), Normal(v), []);
    assert Canonicalize(v) + [] == Canonicalize(v);
    NormalIsSame(v);
    SameIsNormal(v, Normal(v));
  }

  /** Two values share a canonical text exactly when they are the same value up to key order. */
  lemma Faithful(a: Json, b: Json)
    requires WellFormed(a) && WellFormed(b)
    ensures Canonicalize(a) == Canonicalize(b) <==> Same(a, b)
  {
    RoundTrip(a);
    RoundTrip(b);
    SameIsNormal(a, b);
    if Same(a, b) {
      TextOfNormal(a);
      TextOfNormal(b);
    }
  }
}
