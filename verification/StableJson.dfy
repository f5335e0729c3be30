/**
 * Canonical printing of JSON values: object keys in code-unit order, everything
 * else as JSON.stringify writes it, without white space. A printed value is read
 * back, by the grammar, as the one arrangement of its fields in which the keys
 * ascend; so two values print alike exactly when they are equal up to the order of
 * keys.
 */
module StableJson {
  import opened Base
  import opened JsonText

  predicate DistinctKeys(fields: seq<Field>) {
    forall i, j | 0 <= i < j < |fields| :: fields[i].key != fields[j].key
  }

  predicate WellFormed(v: Json) {
    match v
    case Number(text) => NumberText(text)
    case List(items) => forall i | 0 <= i < |items| :: WellFormed(items[i])
    case Object(fields) => DistinctKeys(fields) && forall i | 0 <= i < |fields| :: WellFormed(fields[i].value)
    case _ => true
  }

  /** Equal up to the order of keys, at any depth. */
  predicate Same(v: Json, w: Json) {
    match v
    case List(items) =>
      w.List? && |items| == |w.items| && forall i | 0 <= i < |items| :: Same(items[i], w.items[i])
    case Object(fields) =>
      w.Object? && |fields| == |w.fields|
      && forall i | 0 <= i < |fields| ::
           exists j | 0 <= j < |w.fields| :: fields[i].key == w.fields[j].key && Same(fields[i].value, w.fields[j].value)
    case _ => v == w
  }

  // ---- Strings ------------------------------------------------------------

  function HexDigit(n: int): Unit
    requires 0 <= n < 16
  {
    if n < 10 then 48 + n else 87 + n
  }

  /** Backslash, u, and four hexadecimal digits. */
  function UnicodeEscape(u: Unit): (t: Text)
    ensures |t| == 6 && t[0] == BACKSLASH && t[1] == 117
  {
    [BACKSLASH, 117, HexDigit(u / 16 / 16 / 16), HexDigit(u / 16 / 16 % 16), HexDigit(u / 16 % 16), HexDigit(u % 16)]
  }

  predicate HighSurrogate(u: Unit) {
    0xD800 <= u <= 0xDBFF
  }

  predicate LowSurrogate(u: Unit) {
    0xDC00 <= u <= 0xDFFF
  }

  /** One unit on its own: short escapes, \u escapes for other controls and lone surrogates, or itself. */
  function EscapeUnit(u: Unit): (t: Text)
    ensures t != []
  {
    if u == QUOTE || u == BACKSLASH then [BACKSLASH, u]
    else if u == 8 then [BACKSLASH, 98]
    else if u == 9 then [BACKSLASH, 116]
    else if u == 10 then [BACKSLASH, 110]
    else if u == 12 then [BACKSLASH, 102]
    else if u == 13 then [BACKSLASH, 114]
    else if u < 32 || HighSurrogate(u) || LowSurrogate(u) then UnicodeEscape(u)
    else [u]
  }

  predicate StartsWithPair(s: Text) {
    |s| >= 2 && HighSurrogate(s[0]) && LowSurrogate(s[1])
  }

  /** A surrogate pair stays as it is. */
  function Escape(s: Text): Text {
    if s == [] then []
    else if StartsWithPair(s) then [s[0], s[1]] + Escape(s[2..])
    else EscapeUnit(s[0]) + Escape(s[1..])
  }

  function PrintString(s: Text): (t: Text)
    ensures t != [] && t[0] == QUOTE
  {
    [QUOTE] + Escape(s) + [QUOTE]
  }

  // ---- Order of keys ------------------------------------------------------

  /** In code-unit order: at the first index where they differ `a` has the smaller unit, or ends. */
  ghost predicate Ascending(a: Text, b: Text) {
    exists i :: 0 <= i < |b| && i <= |a| && a[..i] == b[..i] && (i == |a| || a[i] < b[i])
  }

  /** At any depth, the keys of an object stand in code-unit order. */
  ghost predicate KeysAscend(v: Json) {
    match v
    case List(items) => forall i | 0 <= i < |items| :: KeysAscend(items[i])
    case Object(fields) =>
      && (forall i, j | 0 <= i < j < |fields| :: Ascending(fields[i].key, fields[j].key))
      && (forall i | 0 <= i < |fields| :: KeysAscend(fields[i].value))
    case _ => true
  }

  /** Code-unit order of keys. */
  predicate Before(a: Text, b: Text) {
    if a == [] then true
    else if b == [] then false
    else a[0] < b[0] || (a[0] == b[0] && Before(a[1..], b[1..]))
  }

  lemma {:induction false} BeforeTotal(a: Text, b: Text)
    ensures Before(a, b) || Before(b, a)
  {
    if a != [] && b != [] && a[0] == b[0] {
      BeforeTotal(a[1..], b[1..]);
    }
  }

  lemma {:induction false} BeforeAntisymmetric(a: Text, b: Text)
    requires Before(a, b) && Before(b, a)
    ensures a == b
  {
    if a != [] && b != [] {
      BeforeAntisymmetric(a[1..], b[1..]);
    }
  }

  lemma {:induction false} BeforeTransitive(a: Text, b: Text, c: Text)
    requires Before(a, b) && Before(b, c)
    ensures Before(a, c)
  {
    if a != [] && b != [] && c != [] && a[0] == b[0] == c[0] {
      BeforeTransitive(a[1..], b[1..], c[1..]);
    }
  }

  lemma {:induction false} BeforeIsAscending(a: Text, b: Text)
    ensures Before(a, b) <==> a == b || Ascending(a, b)
  {
    if a != [] && b != [] && a[0] == b[0] {
      BeforeIsAscending(a[1..], b[1..]);
      if Ascending(a[1..], b[1..]) {
        var i :| 0 <= i < |b| - 1 && i <= |a| - 1 && a[1..][..i] == b[1..][..i] && (i == |a| - 1 || a[1..][i] < b[1..][i]);
        assert a[..i + 1] == [a[0]] + a[1..][..i] && b[..i + 1] == [b[0]] + b[1..][..i];
        assert a[..i + 1] == b[..i + 1];
      }
      if Ascending(a, b) {
        LaterDifference(a, b);
      }
    } else {
      FirstDifference(a, b);
    }
  }

  /** Texts that begin alike differ later. */
  lemma LaterDifference(a: Text, b: Text)
    requires a != [] && b != [] && a[0] == b[0] && Ascending(a, b)
    ensures Ascending(a[1..], b[1..])
  {
    var i :| 0 <= i < |b| && i <= |a| && a[..i] == b[..i] && (i == |a| || a[i] < b[i]);
    assert a[1..][..i - 1] == a[..i][1..] && b[1..][..i - 1] == b[..i][1..];
  }

  lemma FirstDifference(a: Text, b: Text)
    requires a == [] || b == [] || a[0] != b[0]
    ensures Ascending(a, b) <==> b != [] && (a == [] || a[0] < b[0])
  {
    if Ascending(a, b) {
      var i :| 0 <= i < |b| && i <= |a| && a[..i] == b[..i] && (i == |a| || a[i] < b[i]);
      if i > 0 {
        assert false;
      }
    }
    if b != [] && (a == [] || a[0] < b[0]) {
      assert a[..0] == b[..0];
    }
  }

  // ---- Printing -----------------------------------------------------------

  /** The field whose key sorts first. */
  function Least(fields: seq<Field>): (i: nat)
    requires fields != []
    ensures i < |fields| && forall j | 0 <= j < |fields| :: Before(fields[i].key, fields[j].key)
  {
    BeforeTotal(fields[0].key, fields[0].key);
    if |fields| == 1 then 0
    else
      var k := Least(fields[1..]);
      BeforeTotal(fields[0].key, fields[1 + k].key);
      if Before(fields[0].key, fields[1 + k].key) then
        LeastOfRest(fields, 0, 1 + k);
        0
      else
        LeastOfRest(fields, 1 + k, 1 + k);
        1 + k
  }

  lemma LeastOfRest(fields: seq<Field>, i: nat, k: nat)
    requires i < |fields| && 0 < k < |fields| && Before(fields[i].key, fields[k].key)
    requires Before(fields[i].key, fields[0].key)
    requires forall j | 0 <= j < |fields| - 1 :: Before(fields[k].key, fields[1..][j].key)
    ensures forall j | 0 <= j < |fields| :: Before(fields[i].key, fields[j].key)
  {
    forall j | 0 <= j < |fields| ensures Before(fields[i].key, fields[j].key) {
      if j > 0 {
        assert fields[j] == fields[1..][j - 1];
        BeforeTransitive(fields[i].key, fields[k].key, fields[j].key);
      }
    }
  }

  function Without(fields: seq<Field>, i: nat): (rest: seq<Field>)
    requires i < |fields|
    ensures |rest| == |fields| - 1
  {
    fields[..i] + fields[i + 1..]
  }

  function Size(v: Json): nat {
    match v
    case List(items) => 1 + SizeList(items)
    case Object(fields) => 1 + SizeFields(fields)
    case _ => 1
  }

  function SizeList(items: seq<Json>): nat {
    if items == [] then 0 else 1 + Size(items[0]) + SizeList(items[1..])
  }

  function SizeFields(fields: seq<Field>): nat {
    if fields == [] then 0 else 1 + Size(fields[0].value) + SizeFields(fields[1..])
  }

  lemma {:induction false} SizeWithout(fields: seq<Field>, i: nat)
    requires i < |fields|
    ensures SizeFields(fields) == SizeFields(Without(fields, i)) + 1 + Size(fields[i].value)
  {
    if i == 0 {
      assert Without(fields, 0) == fields[1..];
    } else {
      SizeWithout(fields[1..], i - 1);
      assert Without(fields, i)[1..] == Without(fields[1..], i - 1);
    }
  }

  function PrintBool(b: bool): Text {
    if b then [116, 114, 117, 101] else [102, 97, 108, 115, 101]
  }

  function Print(v: Json): Text
    decreases Size(v)
  {
    match v
    case Null => [110, 117, 108, 108]
    case Bool(b) => PrintBool(b)
    case Number(text) => text
    case Str(s) => PrintString(s)
    case List(items) => [OPEN_LIST] + PrintItems(items, true)
    case Object(fields) => [OPEN_OBJECT] + PrintFields(fields, true)
  }

  function Separator(first: bool): Text {
    if first then [] else [COMMA]
  }

  /** The items that are left, joined by commas, and the closing bracket. */
  function PrintItems(items: seq<Json>, first: bool): Text
    decreases SizeList(items)
  {
    if items == [] then [CLOSE_LIST]
    else Separator(first) + Print(items[0]) + PrintItems(items[1..], false)
  }

  /** The fields that are left, taken in key order, joined by commas, and the closing brace. */
  function PrintFields(fields: seq<Field>, first: bool): Text
    decreases SizeFields(fields)
  {
    if fields == [] then [CLOSE_OBJECT]
    else
      var i := Least(fields);
      SizeWithout(fields, i);
      Separator(first) + PrintString(fields[i].key) + [COLON] + Print(fields[i].value) + PrintFields(Without(fields, i), false)
  }

  predicate FieldsWellFormed(fields: seq<Field>) {
    forall i | 0 <= i < |fields| :: WellFormed(fields[i].value)
  }

  /** Every field of `a` has a field of `b` with its key and an equal value. */
  predicate Covered(a: seq<Field>, b: seq<Field>) {
    forall i | 0 <= i < |a| :: Matched(a[i], b)
  }

  predicate Matched(f: Field, b: seq<Field>) {
    exists j | 0 <= j < |b| :: f.key == b[j].key && Same(f.value, b[j].value)
  }

  /** Fields as printed, with what follows: the first key, its value, and the rest. */
  lemma FieldText(fields: seq<Field>, first: bool, x: Text)
    requires fields != []
    ensures var i := Least(fields);
      PrintFields(fields, first) + x
        == Separator(first) + (PrintString(fields[i].key) + ([COLON] + (Print(fields[i].value) + (PrintFields(Without(fields, i), false) + x))))
  {
    var i := Least(fields);
    var s, k, v, r := Separator(first), PrintString(fields[i].key), Print(fields[i].value), PrintFields(Without(fields, i), false);
    assert PrintFields(fields, first) == s + k + [COLON] + v + r;
    Nest(s, k, [COLON], v, r, x);
  }

  lemma Nest(s: Text, k: Text, c: Text, v: Text, r: Text, x: Text)
    ensures s + k + c + v + r + x == s + (k + (c + (v + (r + x))))
  {
  }

  lemma ItemText(items: seq<Json>, first: bool, x: Text)
    requires items != []
    ensures PrintItems(items, first) + x == Separator(first) + (Print(items[0]) + (PrintItems(items[1..], false) + x))
  {
    var s, v, r := Separator(first), Print(items[0]), PrintItems(items[1..], false);
    assert PrintItems(items, first) == s + v + r;
    Nest3(s, v, r, x);
  }

  lemma Nest3(s: Text, v: Text, r: Text, x: Text)
    ensures s + v + r + x == s + (v + (r + x))
  {
  }

  lemma WellFormedWithout(fields: seq<Field>, i: nat)
    requires FieldsWellFormed(fields) && i < |fields|
    ensures FieldsWellFormed(Without(fields, i))
  {
    var rest := Without(fields, i);
    forall k | 0 <= k < |rest| ensures WellFormed(rest[k].value) {
      assert rest[k] == fields[if k < i then k else k + 1];
    }
  }

  lemma CoveredWith(a: seq<Field>, b: seq<Field>, i: nat, j: nat)
    requires i < |a| && j < |b| && a[i].key == b[j].key && Same(a[i].value, b[j].value)
    requires Covered(Without(a, i), Without(b, j))
    ensures Covered(a, b)
  {
    forall k | 0 <= k < |a| ensures Matched(a[k], b) {
      if k != i {
        var k' := if k < i then k else k - 1;
        assert Without(a, i)[k'] == a[k] && Matched(Without(a, i)[k'], Without(b, j));
        var m' :| 0 <= m' < |Without(b, j)| && a[k].key == Without(b, j)[m'].key && Same(a[k].value, Without(b, j)[m'].value);
        var m := if m' < j then m' else m' + 1;
        assert Without(b, j)[m'] == b[m];
      }
    }
  }

  // ---- Equal values print alike -------------------------------------------

  lemma {:induction false} SamePrints(v: Json, w: Json)
    requires WellFormed(v) && WellFormed(w) && Same(v, w)
    ensures Print(v) == Print(w)
    decreases Size(v), 0
  {
    match v
    case List(items) => ItemsPrint(items, w.items, true);
    case Object(fields) => FieldsPrint(fields, w.fields, true);
    case _ =>
  }

  lemma {:induction false} ItemsPrint(a: seq<Json>, b: seq<Json>, first: bool)
    requires (forall i | 0 <= i < |a| :: WellFormed(a[i])) && (forall i | 0 <= i < |b| :: WellFormed(b[i]))
    requires |a| == |b| && forall i | 0 <= i < |a| :: Same(a[i], b[i])
    ensures PrintItems(a, first) == PrintItems(b, first)
    decreases SizeList(a), 1
  {
    if a != [] {
      SamePrints(a[0], b[0]);
      ItemsPrint(a[1..], b[1..], false);
    }
  }

  /** With distinct keys and equal numbers of fields, covering goes both ways. */
  lemma {:induction false} CoveredBack(a: seq<Field>, b: seq<Field>, j: nat) returns (i: nat)
    requires DistinctKeys(a) && DistinctKeys(b) && |a| == |b| && Covered(a, b) && j < |b|
    ensures i < |a| && a[i].key == b[j].key && Same(a[i].value, b[j].value)
    decreases |a|
  {
    assert Matched(a[0], b);
    var m :| 0 <= m < |b| && a[0].key == b[m].key && Same(a[0].value, b[m].value);
    if m == j {
      i := 0;
    } else {
      CoveredWithout(a, b, 0, m);
      DistinctWithout(a, 0);
      DistinctWithout(b, m);
      var j' := if j < m then j else j - 1;
      assert Without(b, m)[j'] == b[j];
      var i' := CoveredBack(Without(a, 0), Without(b, m), j');
      i := i' + 1;
      assert Without(a, 0)[i'] == a[i];
    }
  }

  lemma DistinctWithout(fields: seq<Field>, i: nat)
    requires DistinctKeys(fields) && i < |fields|
    ensures DistinctKeys(Without(fields, i))
  {
    var rest := Without(fields, i);
    forall p, q | 0 <= p < q < |rest| ensures rest[p].key != rest[q].key {
      assert rest[p] == fields[if p < i then p else p + 1] && rest[q] == fields[if q < i then q else q + 1];
    }
  }

  lemma CoveredWithout(a: seq<Field>, b: seq<Field>, i: nat, m: nat)
    requires DistinctKeys(a) && Covered(a, b) && i < |a| && m < |b| && a[i].key == b[m].key
    ensures Covered(Without(a, i), Without(b, m))
  {
    var ra, rb := Without(a, i), Without(b, m);
    forall k | 0 <= k < |ra| ensures Matched(ra[k], rb) {
      var k' := if k < i then k else k + 1;
      assert ra[k] == a[k'] && Matched(a[k'], b);
      var n' :| 0 <= n' < |b| && a[k'].key == b[n'].key && Same(a[k'].value, b[n'].value);
      assert n' != m by {
        assert a[k'].key != a[i].key;
      }
      var n := if n' < m then n' else n' - 1;
      assert 0 <= n < |rb| && rb[n] == b[n'];
    }
  }

  /** The least keys of two objects with the same keys are the same, and so are their values. */
  lemma LeastAgree(a: seq<Field>, b: seq<Field>)
    requires a != [] && |a| == |b| && DistinctKeys(a) && DistinctKeys(b) && Covered(a, b)
    ensures a[Least(a)].key == b[Least(b)].key && Same(a[Least(a)].value, b[Least(b)].value)
  {
    var i, j := Least(a), Least(b);
    assert Matched(a[i], b);
    var m :| 0 <= m < |b| && a[i].key == b[m].key && Same(a[i].value, b[m].value);
    var k := CoveredBack(a, b, j);
    assert Before(b[j].key, b[m].key) && Before(a[i].key, a[k].key);
    BeforeAntisymmetric(a[i].key, b[j].key);
    assert m == j;
  }

  lemma {:induction false} FieldsPrint(a: seq<Field>, b: seq<Field>, first: bool)
    requires FieldsWellFormed(a) && FieldsWellFormed(b) && DistinctKeys(a) && DistinctKeys(b)
    requires |a| == |b| && Covered(a, b)
    ensures PrintFields(a, first) == PrintFields(b, first)
    decreases SizeFields(a), 1
  {
    if a != [] {
      var i, j := Least(a), Least(b);
      LeastAgree(a, b);
      SizeWithout(a, i);
      SamePrints(a[i].value, b[j].value);
      DistinctWithout(a, i);
      DistinctWithout(b, j);
      CoveredWithout(a, b, i, j);
      WellFormedWithout(a, i);
      WellFormedWithout(b, j);
      FieldsPrint(Without(a, i), Without(b, j), false);
      FieldText(a, first, []);
      FieldText(b, first, []);
      assert PrintFields(a, first) + [] == PrintFields(a, first) && PrintFields(b, first) + [] == PrintFields(b, first);
    }
  }

  // ---- Strings are read back ----------------------------------------------

  lemma HexBack(n: int)
    requires 0 <= n < 16
    ensures HexValue(HexDigit(n)) == Some(n)
  {
  }

  lemma FourBack(u: Unit)
    ensures var e := UnicodeEscape(u); FourDigits(e[2], e[3], e[4], e[5]) == Some(u)
  {
    HexBack(u / 16 / 16 / 16);
    HexBack(u / 16 / 16 % 16);
    HexBack(u / 16 % 16);
    HexBack(u % 16);
  }

  lemma UnitBack(u: Unit, x: Text)
    ensures ReadUnit(EscapeUnit(u) + x) == Got(u, x)
  {
    var e := EscapeUnit(u);
    var t := e + x;
    assert t[0] == e[0] && t[|e|..] == x;
    if |e| >= 2 {
      assert t[1] == e[1];
    }
    if |e| == 6 {
      assert t[2] == e[2] && t[3] == e[3] && t[4] == e[4] && t[5] == e[5];
      FourBack(u);
    }
  }

  /** A unit that stands for itself. */
  lemma RawBack(u: Unit, x: Text)
    requires u >= 32 && u != QUOTE && u != BACKSLASH
    ensures ReadUnit([u] + x) == Got(u, x)
  {
    assert ([u] + x)[1..] == x;
  }

  lemma OneMore(u: Unit, t: Text, s: Text, x: Text, after: Text)
    requires ReadUnit(t) == Got(u, after) && ReadChars(after) == Got(s, x)
    ensures ReadChars(t) == Got([u] + s, x)
  {
  }

  lemma PairReads(a: Unit, b: Unit, after: Text, s: Text, x: Text)
    requires HighSurrogate(a) && LowSurrogate(b) && ReadChars(after) == Got(s, x)
    ensures ReadChars([a] + ([b] + after)) == Got([a] + ([b] + s), x)
  {
    RawBack(b, after);
    OneMore(b, [b] + after, s, x, after);
    RawBack(a, [b] + after);
    OneMore(a, [a] + ([b] + after), [b] + s, x, [b] + after);
  }

  lemma PairText(s: Text, x: Text)
    requires StartsWithPair(s)
    ensures Escape(s) + [QUOTE] + x == [s[0]] + ([s[1]] + (Escape(s[2..]) + [QUOTE] + x))
    ensures s == [s[0]] + ([s[1]] + s[2..])
  {
  }

  lemma UnitText(s: Text, x: Text)
    requires s != [] && !StartsWithPair(s)
    ensures Escape(s) + [QUOTE] + x == EscapeUnit(s[0]) + (Escape(s[1..]) + [QUOTE] + x)
  {
  }

  /** An escaped string, closed by a quote, is read back as itself, surrogates included. */
  lemma {:induction false} EscapeReads(s: Text, x: Text)
    ensures ReadChars(Escape(s) + [QUOTE] + x) == Got(s, x)
    decreases |s|
  {
    if s == [] {
      assert (Escape(s) + [QUOTE] + x)[1..] == x;
    } else if StartsWithPair(s) {
      EscapeReads(s[2..], x);
      PairText(s, x);
      PairReads(s[0], s[1], Escape(s[2..]) + [QUOTE] + x, s[2..], x);
    } else {
      var after := Escape(s[1..]) + [QUOTE] + x;
      EscapeReads(s[1..], x);
      UnitText(s, x);
      UnitBack(s[0], after);
      OneMore(s[0], EscapeUnit(s[0]) + after, s[1..], x, after);
      assert s == [s[0]] + s[1..];
    }
  }

  /** The least it takes to write a unit in a string: itself, two units or six. */
  function Cost(u: Unit): nat {
    if u == QUOTE || u == BACKSLASH || u == 8 || u == 9 || u == 10 || u == 12 || u == 13 then 2 else if u < 32 then 6 else 1
  }

  function CostOf(s: Text): nat {
    if s == [] then 0 else Cost(s[0]) + CostOf(s[1..])
  }

  lemma {:induction false} ReadingCosts(t: Text)
    ensures ReadChars(t).Got? ==> |t| >= CostOf(ReadChars(t).value) + 1 + |ReadChars(t).rest|
    decreases |t|
  {
    if !At(t, 0, QUOTE) && ReadUnit(t).Got? {
      ReadingCosts(ReadUnit(t).rest);
      if ReadChars(t).Got? {
        var s := ReadChars(ReadUnit(t).rest).value;
        assert ([ReadUnit(t).value] + s)[1..] == s;
      }
    }
  }

  /** Surrogates come in pairs only. */
  predicate Paired(s: Text) {
    s == []
    || (StartsWithPair(s) && Paired(s[2..]))
    || (!HighSurrogate(s[0]) && !LowSurrogate(s[0]) && Paired(s[1..]))
  }

  lemma {:induction false} EscapeCosts(s: Text)
    requires Paired(s)
    ensures |Escape(s)| == CostOf(s)
    decreases |s|
  {
    if s != [] {
      if StartsWithPair(s) {
        EscapeCosts(s[2..]);
        assert s[1..][1..] == s[2..];
      } else {
        EscapeCosts(s[1..]);
      }
    }
  }

  /** No text that stands for the same string is shorter; a lone surrogate alone is written out though it need not be. */
  lemma EscapeShortest(s: Text, t: Text)
    requires Paired(s) && ReadChars(t + [QUOTE]) == Got(s, [])
    ensures |Escape(s)| <= |t|
  {
    EscapeCosts(s);
    ReadingCosts(t + [QUOTE]);
  }

  /** Where a unit is written out in hexadecimal: other controls and lone surrogates, in small letters. */
  lemma WrittenOut(u: Unit)
    ensures |EscapeUnit(u)| == 6 <==> (u < 32 && Cost(u) == 6) || HighSurrogate(u) || LowSurrogate(u)
    ensures forall i | 0 < i < |EscapeUnit(u)| :: !(65 <= EscapeUnit(u)[i] <= 70)
  {
  }

  // ---- Printed values are read back ---------------------------------------

  /** The arrangement in which the keys ascend. */
  function Arranged(v: Json): Json
    decreases Size(v)
  {
    match v
    case List(items) => List(ArrangedItems(items))
    case Object(fields) => Object(ArrangedFields(fields))
    case _ => v
  }

  function ArrangedItems(items: seq<Json>): (r: seq<Json>)
    ensures |r| == |items|
    decreases SizeList(items)
  {
    if items == [] then [] else [Arranged(items[0])] + ArrangedItems(items[1..])
  }

  function ArrangedFields(fields: seq<Field>): (r: seq<Field>)
    ensures |r| == |fields|
    decreases SizeFields(fields)
  {
    if fields == [] then []
    else
      var i := Least(fields);
      SizeWithout(fields, i);
      [Field(fields[i].key, Arranged(fields[i].value))] + ArrangedFields(Without(fields, i))
  }

  /** The first unit of a value tells its kind. */
  predicate StartsLike(v: Json, u: Unit) {
    match v
    case Null => u == 110
    case Bool(b) => u == if b then 116 else 102
    case Number(_) => 48 <= u <= 57 || u == 45
    case Str(_) => u == QUOTE
    case List(_) => u == OPEN_LIST
    case Object(_) => u == OPEN_OBJECT
  }

  lemma FirstUnit(v: Json)
    requires WellFormed(v)
    ensures Print(v) != [] && StartsLike(v, Print(v)[0])
  {
    if v.Number? {
      NumberStarts(v.text);
    }
  }

  lemma NoSpaceFirst(v: Json, x: Text, spaces: bool)
    requires WellFormed(v)
    ensures SkipSpace(Print(v) + x, spaces) == Print(v) + x && Print(v) != [] && (Print(v) + x)[0] == Print(v)[0]
    ensures StartsLike(v, Print(v)[0])
  {
    FirstUnit(v);
  }

  lemma TailOf(a: Text, x: Text)
    ensures (a + x)[|a|..] == x && (a + x)[..|a|] == a
  {
  }

  lemma LiteralReads(v: Json, t: Text, x: Text, spaces: bool)
    requires (v.Null? || v.Bool?) && t == Print(v) + x && SkipSpace(t, spaces) == t
    ensures ReadValue(t, spaces) == Got(v, x)
  {
    TailOf(Print(v), x);
    match v
    case Null => assert LITERAL_NULL <= t;
    case Bool(b) => assert (if b then LITERAL_TRUE else LITERAL_FALSE) <= t;
  }

  lemma NumberReads(text: Text, t: Text, x: Text, spaces: bool)
    requires NumberText(text) && Ends(x) && t == text + x && SkipSpace(t, spaces) == t
    ensures ReadValue(t, spaces) == Got(Number(text), x)
  {
    NumberStarts(text);
    NumberThen(text, x);
    TailOf(text, x);
    assert t[0] == text[0];
  }

  lemma BracketReads(t: Text, rest: Text, v: Json, x: Text, spaces: bool)
    requires SkipSpace(t, spaces) == t
    requires (t == [OPEN_LIST] + rest && ReadList(rest, spaces) == Got(v, x)) || (t == [OPEN_OBJECT] + rest && ReadObject(rest, spaces) == Got(v, x))
    ensures ReadValue(t, spaces) == Got(v, x)
  {
    assert t[1..] == rest;
  }

  lemma QuoteReads(t: Text, s: Text, x: Text, spaces: bool)
    requires t == PrintString(s) + x && SkipSpace(t, spaces) == t
    ensures ReadValue(t, spaces) == Got(Str(s), x)
  {
    StringReads(s, x);
  }

  lemma {:induction false} PrintedReads(v: Json, x: Text, spaces: bool)
    requires WellFormed(v) && Ends(x)
    ensures ReadValue(Print(v) + x, spaces) == Got(Arranged(v), x)
    decreases Size(v), 0
  {
    NoSpaceFirst(v, x, spaces);
    var t := Print(v) + x;
    if v.Number? {
      NumberReads(v.text, t, x, spaces);
    } else if v.Str? {
      QuoteReads(t, v.chars, x, spaces);
    } else if v.List? {
      Reassociate([OPEN_LIST], PrintItems(v.items, true), x);
      ListReads(v.items, x, spaces);
      BracketReads(t, PrintItems(v.items, true) + x, Arranged(v), x, spaces);
    } else if v.Object? {
      Reassociate([OPEN_OBJECT], PrintFields(v.fields, true), x);
      ObjectReads(v.fields, x, spaces);
      BracketReads(t, PrintFields(v.fields, true) + x, Arranged(v), x, spaces);
    } else {
      LiteralReads(v, t, x, spaces);
    }
  }

  lemma Reassociate(a: Text, b: Text, c: Text)
    ensures a + b + c == a + (b + c)
  {
  }

  lemma StringReads(s: Text, x: Text)
    ensures ReadChars((PrintString(s) + x)[1..]) == Got(s, x)
  {
    assert (PrintString(s) + x)[1..] == Escape(s) + [QUOTE] + x;
    EscapeReads(s, x);
  }

  lemma {:induction false} ListReads(items: seq<Json>, x: Text, spaces: bool)
    requires forall i | 0 <= i < |items| :: WellFormed(items[i])
    ensures ReadList(PrintItems(items, true) + x, spaces) == Got(List(ArrangedItems(items)), x)
    decreases SizeList(items), 2
  {
    if items == [] {
      TailOf([CLOSE_LIST], x);
    } else {
      ItemText(items, true, x);
      NoSpaceFirst(items[0], PrintItems(items[1..], false) + x, spaces);
      ItemsRead(items, x, spaces);
    }
  }

  lemma LastItem(t: Text, v: Json, x: Text, spaces: bool)
    requires ReadValue(t, spaces) == Got(v, [CLOSE_LIST] + x)
    ensures ReadItems(t, spaces) == Got([v], x)
  {
    EndIsNoSpace([CLOSE_LIST] + x, spaces);
    TailOf([CLOSE_LIST], x);
  }

  lemma NextItem(t: Text, v: Json, more: Text, items: seq<Json>, x: Text, spaces: bool)
    requires ReadValue(t, spaces) == Got(v, [COMMA] + more) && ReadItems(more, spaces) == Got(items, x)
    ensures ReadItems(t, spaces) == Got([v] + items, x)
  {
    EndIsNoSpace([COMMA] + more, spaces);
    TailOf([COMMA], more);
  }

  /** What follows the first item: the closing bracket, or a comma and the others. */
  lemma AfterItem(items: seq<Json>, x: Text)
    ensures PrintItems(items, false) + x == if items == [] then [CLOSE_LIST] + x else [COMMA] + (PrintItems(items, true) + x)
  {
    if items != [] {
      ItemText(items, false, x);
      ItemText(items, true, x);
    }
  }

  lemma {:induction false} ItemsRead(items: seq<Json>, x: Text, spaces: bool)
    requires items != [] && forall i | 0 <= i < |items| :: WellFormed(items[i])
    ensures ReadItems(PrintItems(items, true) + x, spaces) == Got(ArrangedItems(items), x)
    decreases SizeList(items), 1
  {
    var t, rest := PrintItems(items, true) + x, PrintItems(items[1..], false) + x;
    ItemText(items, true, x);
    AfterItem(items[1..], x);
    assert t == Print(items[0]) + rest;
    PrintedReads(items[0], rest, spaces);
    if items[1..] == [] {
      assert rest == [CLOSE_LIST] + x && ArrangedItems(items) == [Arranged(items[0])];
      LastItem(t, Arranged(items[0]), x, spaces);
    } else {
      ItemsRead(items[1..], x, spaces);
      NextItem(t, Arranged(items[0]), PrintItems(items[1..], true) + x, ArrangedItems(items[1..]), x, spaces);
    }
  }

  lemma {:induction false} ObjectReads(fields: seq<Field>, x: Text, spaces: bool)
    requires FieldsWellFormed(fields)
    ensures ReadObject(PrintFields(fields, true) + x, spaces) == Got(Object(ArrangedFields(fields)), x)
    decreases SizeFields(fields), 3
  {
    if fields == [] {
      TailOf([CLOSE_OBJECT], x);
    } else {
      FieldText(fields, true, x);
      FieldsRead(fields, x, spaces);
    }
  }

  /** A field's text up to what follows its value. */
  function FieldTail(key: Text, v: Json, rest: Text): Text {
    PrintString(key) + ([COLON] + (Print(v) + rest))
  }

  lemma {:induction false} FieldReads(key: Text, v: Json, rest: Text, spaces: bool)
    requires WellFormed(v) && Ends(rest)
    ensures ReadField(FieldTail(key, v, rest), spaces) == Got(Field(key, Arranged(v)), rest)
    decreases Size(v), 1
  {
    var t := [COLON] + (Print(v) + rest);
    StringReads(key, t);
    TailOf([COLON], Print(v) + rest);
    PrintedReads(v, rest, spaces);
  }

  lemma LastField(t: Text, field: Field, x: Text, spaces: bool)
    requires ReadField(t, spaces) == Got(field, [CLOSE_OBJECT] + x)
    ensures ReadFields(t, spaces) == Got([field], x)
  {
    EndIsNoSpace([CLOSE_OBJECT] + x, spaces);
    TailOf([CLOSE_OBJECT], x);
  }

  lemma NextField(t: Text, field: Field, more: Text, fields: seq<Field>, x: Text, spaces: bool)
    requires ReadField(t, spaces) == Got(field, [COMMA] + more) && ReadFields(more, spaces) == Got(fields, x)
    ensures ReadFields(t, spaces) == Got([field] + fields, x)
  {
    EndIsNoSpace([COMMA] + more, spaces);
    TailOf([COMMA], more);
  }

  lemma AfterField(fields: seq<Field>, x: Text)
    ensures PrintFields(fields, false) + x == if fields == [] then [CLOSE_OBJECT] + x else [COMMA] + (PrintFields(fields, true) + x)
  {
    if fields != [] {
      FieldText(fields, false, x);
      FieldText(fields, true, x);
    }
  }

  lemma {:induction false} FieldsRead(fields: seq<Field>, x: Text, spaces: bool)
    requires fields != [] && FieldsWellFormed(fields)
    ensures ReadFields(PrintFields(fields, true) + x, spaces) == Got(ArrangedFields(fields), x)
    decreases SizeFields(fields), 2
  {
    var i := Least(fields);
    var others, field := Without(fields, i), Field(fields[i].key, Arranged(fields[i].value));
    var t, rest := PrintFields(fields, true) + x, PrintFields(others, false) + x;
    SizeWithout(fields, i);
    WellFormedWithout(fields, i);
    FieldText(fields, true, x);
    AfterField(others, x);
    assert t == FieldTail(fields[i].key, fields[i].value, rest);
    FieldReads(fields[i].key, fields[i].value, rest, spaces);
    if others == [] {
      assert rest == [CLOSE_OBJECT] + x && ArrangedFields(fields) == [field];
      LastField(t, field, x, spaces);
    } else {
      FieldsRead(others, x, spaces);
      NextField(t, field, PrintFields(others, true) + x, ArrangedFields(others), x, spaces);
    }
  }

  // ---- The arrangement ----------------------------------------------------

  lemma {:induction false} ArrangedSame(v: Json)
    requires WellFormed(v)
    ensures Same(v, Arranged(v)) && WellFormed(Arranged(v)) && KeysAscend(Arranged(v))
    decreases Size(v), 0
  {
    match v
    case List(items) => ItemsSame(items);
    case Object(fields) => FieldsSame(fields);
    case _ =>
  }

  lemma {:induction false} ItemsSame(items: seq<Json>)
    requires forall i | 0 <= i < |items| :: WellFormed(items[i])
    ensures forall i | 0 <= i < |items| ::
      Same(items[i], ArrangedItems(items)[i]) && WellFormed(ArrangedItems(items)[i]) && KeysAscend(ArrangedItems(items)[i])
    decreases SizeList(items), 1
  {
    if items != [] {
      ArrangedSame(items[0]);
      ItemsSame(items[1..]);
      forall i | 0 < i < |items|
        ensures Same(items[i], ArrangedItems(items)[i]) && WellFormed(ArrangedItems(items)[i]) && KeysAscend(ArrangedItems(items)[i])
      {
        assert items[i] == items[1..][i - 1] && ArrangedItems(items)[i] == ArrangedItems(items[1..])[i - 1];
      }
    }
  }

  /** The keys stand in code-unit order. */
  ghost predicate InOrder(fields: seq<Field>) {
    forall i, j | 0 <= i < j < |fields| :: Ascending(fields[i].key, fields[j].key)
  }

  /** Each field of the arrangement is one of the fields, arranged. */
  lemma {:induction false} FieldFrom(fields: seq<Field>, k: nat) returns (i: nat)
    requires k < |fields|
    ensures i < |fields| && ArrangedFields(fields)[k] == Field(fields[i].key, Arranged(fields[i].value))
    decreases |fields|
  {
    var m := Least(fields);
    if k == 0 {
      i := m;
    } else {
      i := FieldFrom(Without(fields, m), k - 1);
      assert Without(fields, m)[i] == fields[if i < m then i else i + 1];
      i := if i < m then i else i + 1;
    }
  }

  /** Good values, whose own keys ascend. */
  ghost predicate ValuesGood(fields: seq<Field>) {
    forall i | 0 <= i < |fields| :: WellFormed(fields[i].value) && KeysAscend(fields[i].value)
  }

  lemma {:induction false} FieldsSame(fields: seq<Field>)
    requires FieldsWellFormed(fields) && DistinctKeys(fields)
    ensures Covered(fields, ArrangedFields(fields)) && ValuesGood(ArrangedFields(fields))
    ensures InOrder(ArrangedFields(fields)) && DistinctKeys(ArrangedFields(fields))
    decreases SizeFields(fields), 1
  {
    if fields != [] {
      var m := Least(fields);
      var rest := ArrangedFields(Without(fields, m));
      SizeWithout(fields, m);
      WellFormedWithout(fields, m);
      DistinctWithout(fields, m);
      ArrangedSame(fields[m].value);
      FieldsSame(Without(fields, m));
      FirstAscends(fields, m, rest);
      FieldsSameFrom(fields, m, Field(fields[m].key, Arranged(fields[m].value)), rest);
    }
  }

  lemma FirstAscends(fields: seq<Field>, m: nat, rest: seq<Field>)
    requires fields != [] && DistinctKeys(fields) && m == Least(fields) && rest == ArrangedFields(Without(fields, m))
    ensures forall k | 0 <= k < |rest| :: Ascending(fields[m].key, rest[k].key) && fields[m].key != rest[k].key
  {
    forall k | 0 <= k < |rest| ensures Ascending(fields[m].key, rest[k].key) && fields[m].key != rest[k].key {
      var i := FieldFrom(Without(fields, m), k);
      LeastAscends(fields, m, i);
    }
  }

  lemma FieldsSameFrom(fields: seq<Field>, m: nat, first: Field, rest: seq<Field>)
    requires m < |fields| && fields[m].key == first.key && Same(fields[m].value, first.value)
    requires WellFormed(first.value) && KeysAscend(first.value)
    requires Covered(Without(fields, m), rest) && ValuesGood(rest) && InOrder(rest) && DistinctKeys(rest)
    requires forall k | 0 <= k < |rest| :: Ascending(first.key, rest[k].key) && first.key != rest[k].key
    ensures Covered(fields, [first] + rest) && ValuesGood([first] + rest) && InOrder([first] + rest) && DistinctKeys([first] + rest)
  {
    InOrderFrom(first, rest);
    assert Without([first] + rest, 0) == rest;
    CoveredWith(fields, [first] + rest, m, 0);
  }

  lemma InOrderFrom(first: Field, rest: seq<Field>)
    requires InOrder(rest) && DistinctKeys(rest)
    requires forall k | 0 <= k < |rest| :: Ascending(first.key, rest[k].key) && first.key != rest[k].key
    ensures InOrder([first] + rest) && DistinctKeys([first] + rest)
  {
    var r := [first] + rest;
    forall i, j | 0 <= i < j < |r| ensures Ascending(r[i].key, r[j].key) && r[i].key != r[j].key {
      assert r[j] == rest[j - 1];
      if i > 0 {
        assert r[i] == rest[i - 1];
      }
    }
  }

  /** The least key comes before each other one. */
  lemma LeastAscends(fields: seq<Field>, m: nat, i: nat)
    requires DistinctKeys(fields) && fields != [] && m == Least(fields) && i < |fields| - 1
    ensures Ascending(fields[m].key, Without(fields, m)[i].key) && fields[m].key != Without(fields, m)[i].key
  {
    var j := if i < m then i else i + 1;
    WithoutAt(fields, m, i);
    KeysDiffer(fields, m, j);
    BeforeIsAscending(fields[m].key, fields[j].key);
  }

  lemma WithoutAt(fields: seq<Field>, m: nat, i: nat)
    requires m < |fields| && i < |fields| - 1
    ensures Without(fields, m)[i] == fields[if i < m then i else i + 1]
  {
  }

  lemma KeysDiffer(fields: seq<Field>, m: nat, j: nat)
    requires DistinctKeys(fields) && m < |fields| && j < |fields| && m != j
    ensures fields[m].key != fields[j].key
  {
  }

  /** Keys that ascend are left where they are. */
  lemma {:induction false} ArrangedStays(v: Json)
    requires WellFormed(v) && KeysAscend(v)
    ensures Arranged(v) == v
    decreases Size(v), 0
  {
    match v
    case List(items) => ItemsStay(items);
    case Object(fields) => FieldsStay(fields);
    case _ =>
  }

  lemma {:induction false} ItemsStay(items: seq<Json>)
    requires forall i | 0 <= i < |items| :: WellFormed(items[i]) && KeysAscend(items[i])
    ensures ArrangedItems(items) == items
    decreases SizeList(items), 1
  {
    if items != [] {
      ArrangedStays(items[0]);
      ItemsStay(items[1..]);
    }
  }

  lemma {:induction false} FieldsStay(fields: seq<Field>)
    requires FieldsWellFormed(fields) && DistinctKeys(fields) && InOrder(fields)
    requires forall i | 0 <= i < |fields| :: KeysAscend(fields[i].value)
    ensures ArrangedFields(fields) == fields
    decreases SizeFields(fields), 1
  {
    if fields != [] {
      FirstIsLeast(fields);
      FirstStays(fields);
      WellFormedWithout(fields, 0);
      DistinctWithout(fields, 0);
      assert Without(fields, 0) == fields[1..];
      ArrangedStays(fields[0].value);
      FieldsStay(fields[1..]);
      assert fields == [fields[0]] + fields[1..];
    }
  }

  lemma FirstStays(fields: seq<Field>)
    requires fields != [] && Least(fields) == 0
    ensures ArrangedFields(fields) == [Field(fields[0].key, Arranged(fields[0].value))] + ArrangedFields(fields[1..])
  {
    assert Without(fields, 0) == fields[1..];
  }

  lemma FirstIsLeast(fields: seq<Field>)
    requires fields != [] && DistinctKeys(fields) && InOrder(fields)
    ensures Least(fields) == 0
  {
    var m := Least(fields);
    if m > 0 {
      BeforeIsAscending(fields[0].key, fields[m].key);
      BeforeAntisymmetric(fields[0].key, fields[m].key);
    }
  }

  // ---- Main results -------------------------------------------------------

  /** Every value has an arrangement whose keys ascend. */
  lemma CanBeArranged(v: Json) returns (w: Json)
    requires WellFormed(v)
    ensures WellFormed(w) && Same(v, w) && KeysAscend(w)
  {
    w := Arranged(v);
    ArrangedSame(v);
  }

  /** A printed value is read back as its arrangement in which the keys ascend, with or without white space allowed. */
  lemma PrintReads(v: Json, w: Json, spaces: bool)
    requires WellFormed(v) && WellFormed(w) && Same(v, w) && KeysAscend(w)
    ensures Read(Print(v), spaces) == Some(w)
  {
    SamePrints(v, w);
    PrintedReads(w, [], spaces);
    ArrangedStays(w);
    assert Print(w) + [] == Print(w);
  }

  /** Values arranged alike are equal up to the order of keys. */
  lemma {:induction false} ArrangedAlike(v: Json, w: Json)
    requires WellFormed(v) && WellFormed(w) && Arranged(v) == Arranged(w)
    ensures Same(v, w)
    decreases Size(v), 0
  {
    match v
    case List(items) => ItemsAlike(items, w.items);
    case Object(fields) => FieldsAlike(fields, w.fields);
    case _ =>
  }

  lemma {:induction false} ItemsAlike(a: seq<Json>, b: seq<Json>)
    requires (forall i | 0 <= i < |a| :: WellFormed(a[i])) && (forall i | 0 <= i < |b| :: WellFormed(b[i]))
    requires ArrangedItems(a) == ArrangedItems(b)
    ensures |a| == |b| && forall i | 0 <= i < |a| :: Same(a[i], b[i])
    decreases SizeList(a), 1
  {
    assert |a| == |ArrangedItems(a)| == |b|;
    if a != [] {
      assert ArrangedItems(a)[0] == Arranged(a[0]) && ArrangedItems(b)[0] == Arranged(b[0]);
      assert ArrangedItems(a)[1..] == ArrangedItems(a[1..]) && ArrangedItems(b)[1..] == ArrangedItems(b[1..]);
      ArrangedAlike(a[0], b[0]);
      ItemsAlike(a[1..], b[1..]);
      forall i | 0 < i < |a| ensures Same(a[i], b[i]) {
        assert a[i] == a[1..][i - 1] && b[i] == b[1..][i - 1];
      }
    }
  }

  lemma {:induction false} FieldsAlike(a: seq<Field>, b: seq<Field>)
    requires FieldsWellFormed(a) && FieldsWellFormed(b) && ArrangedFields(a) == ArrangedFields(b)
    ensures |a| == |b| && Covered(a, b)
    decreases SizeFields(a), 1
  {
    assert |a| == |ArrangedFields(a)| == |b|;
    if a != [] {
      var i, j := Least(a), Least(b);
      var ra, rb := ArrangedFields(a), ArrangedFields(b);
      assert ra[0] == Field(a[i].key, Arranged(a[i].value)) && rb[0] == Field(b[j].key, Arranged(b[j].value));
      assert ra[1..] == ArrangedFields(Without(a, i)) && rb[1..] == ArrangedFields(Without(b, j));
      SizeWithout(a, i);
      WellFormedWithout(a, i);
      WellFormedWithout(b, j);
      ArrangedAlike(a[i].value, b[j].value);
      FieldsAlike(Without(a, i), Without(b, j));
      CoveredWith(a, b, i, j);
    }
  }

  /** Printed forms decide equality: two JSON values print alike exactly when they are equal up to key order. */
  lemma PrintDecides(v: Json, w: Json)
    requires WellFormed(v) && WellFormed(w)
    ensures Print(v) == Print(w) <==> Same(v, w)
  {
    if Print(v) == Print(w) {
      PrintedReads(v, [], false);
      PrintedReads(w, [], false);
      assert Print(v) + [] == Print(w) + [];
      ArrangedAlike(v, w);
    }
    if Same(v, w) {
      SamePrints(v, w);
    }
  }
}
