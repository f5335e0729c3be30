/**
 * JSON values, and a reader of JSON texts that follows the grammar of RFC 8259
 * (sections 2 to 7). Strings and texts are sequences of 16-bit code units.
 */
module JsonText {
  import opened Base

  type Unit = x: int | 0 <= x < 0x10000
  type Text = seq<Unit>

  const QUOTE: Unit := 34
  const COMMA: Unit := 44
  const COLON: Unit := 58
  const BACKSLASH: Unit := 92
  const OPEN_LIST: Unit := 91
  const CLOSE_LIST: Unit := 93
  const OPEN_OBJECT: Unit := 123
  const CLOSE_OBJECT: Unit := 125
  const LITERAL_NULL: Text := [110, 117, 108, 108]
  const LITERAL_TRUE: Text := [116, 114, 117, 101]
  const LITERAL_FALSE: Text := [102, 97, 108, 115, 101]

  /** A number is its shortest decimal text, on which two numbers agree only if they are equal. */
  datatype Json =
    | Null
    | Bool(value: bool)
    | Number(text: Text)
    | Str(chars: Text)
    | List(items: seq<Json>)
    | Object(fields: seq<Field>)

  datatype Field = Field(key: Text, value: Json)

  /** What was read, and what follows it. */
  datatype Parse<T> = Got(value: T, rest: Text) | Bad

  predicate At(t: Text, i: nat, u: Unit) {
    i < |t| && t[i] == u
  }

  // ---- White space (section 2) --------------------------------------------

  predicate Space(u: Unit) {
    u == 32 || u == 9 || u == 10 || u == 13
  }

  /** White space may stand around every token; without `spaces`, none is allowed. */
  function SkipSpace(t: Text, spaces: bool): (r: Text)
    ensures |r| <= |t|
  {
    if spaces && t != [] && Space(t[0]) then SkipSpace(t[1..], spaces) else t
  }

  // ---- Numbers (section 6) ------------------------------------------------

  predicate Digit(u: Unit) {
    48 <= u <= 57
  }

  function Digits(t: Text): (n: nat)
    ensures n <= |t|
  {
    if t == [] || !Digit(t[0]) then 0 else 1 + Digits(t[1..])
  }

  /** Where the integer part ends: a zero, or digits that do not begin with one; 0 if there is none. */
  function IntEnd(t: Text): (n: nat)
    ensures n <= |t|
  {
    var i := if At(t, 0, 45) then 1 else 0;
    if At(t, i, 48) then i + 1 else if Digits(t[i..]) > 0 then i + Digits(t[i..]) else 0
  }

  function FracEnd(t: Text, i: nat): (n: nat)
    requires i <= |t|
    ensures i <= n <= |t|
  {
    if At(t, i, 46) && Digits(t[i + 1..]) > 0 then i + 1 + Digits(t[i + 1..]) else i
  }

  function ExpEnd(t: Text, i: nat): (n: nat)
    requires i <= |t|
    ensures i <= n <= |t|
  {
    if At(t, i, 101) || At(t, i, 69) then
      var k := if At(t, i + 1, 43) || At(t, i + 1, 45) then i + 2 else i + 1;
      if Digits(t[k..]) > 0 then k + Digits(t[k..]) else i
    else i
  }

  /** The length of the longest number a text begins with; 0 if it begins with none. */
  function NumberEnd(t: Text): (n: nat)
    ensures n <= |t|
  {
    if IntEnd(t) == 0 then 0 else ExpEnd(t, FracEnd(t, IntEnd(t)))
  }

  predicate NumberText(text: Text) {
    text != [] && NumberEnd(text) == |text|
  }

  // ---- Strings (section 7) ------------------------------------------------

  function HexValue(u: Unit): (r: Option<int>)
    ensures r.Some? ==> 0 <= r.value < 16
  {
    if 48 <= u <= 57 then Some(u - 48)
    else if 97 <= u <= 102 then Some(u - 87)
    else if 65 <= u <= 70 then Some(u - 55)
    else None
  }

  function FourDigits(a: Unit, b: Unit, c: Unit, d: Unit): Option<Unit> {
    if HexValue(a).Some? && HexValue(b).Some? && HexValue(c).Some? && HexValue(d).Some? then
      Some(((HexValue(a).value * 16 + HexValue(b).value) * 16 + HexValue(c).value) * 16 + HexValue(d).value)
    else None
  }

  /** What a backslash and this letter stand for. */
  function ShortEscape(letter: Unit): Option<Unit> {
    if letter == QUOTE || letter == BACKSLASH || letter == 47 then Some(letter)
    else if letter == 98 then Some(8)
    else if letter == 102 then Some(12)
    else if letter == 110 then Some(10)
    else if letter == 114 then Some(13)
    else if letter == 116 then Some(9)
    else None
  }

  /** One character of a string, raw or escaped. */
  function ReadUnit(t: Text): (r: Parse<Unit>)
    ensures r.Got? ==> |r.rest| < |t|
  {
    if t == [] || t[0] == QUOTE || t[0] < 32 then Bad
    else if t[0] != BACKSLASH then Got(t[0], t[1..])
    else if At(t, 1, 117) then
      if |t| >= 6 && FourDigits(t[2], t[3], t[4], t[5]).Some? then Got(FourDigits(t[2], t[3], t[4], t[5]).value, t[6..]) else Bad
    else if |t| >= 2 && ShortEscape(t[1]).Some? then Got(ShortEscape(t[1]).value, t[2..])
    else Bad
  }

  /** The characters up to the closing quote. */
  function ReadChars(t: Text): (r: Parse<Text>)
    ensures r.Got? ==> |r.rest| < |t|
  {
    if At(t, 0, QUOTE) then Got([], t[1..])
    else
      match ReadUnit(t)
      case Bad => Bad
      case Got(u, rest) =>
        match ReadChars(rest)
        case Bad => Bad
        case Got(s, after) => Got([u] + s, after)
  }

  // ---- Values (sections 3 to 5) -------------------------------------------

  function ReadValue(t: Text, spaces: bool): (r: Parse<Json>)
    ensures r.Got? ==> |r.rest| < |t|
    decreases |t|, 0
  {
    var u := SkipSpace(t, spaces);
    if u == [] then Bad
    else if u[0] == QUOTE then
      match ReadChars(u[1..])
      case Bad => Bad
      case Got(s, rest) => Got(Str(s), rest)
    else if u[0] == OPEN_LIST then ReadList(u[1..], spaces)
    else if u[0] == OPEN_OBJECT then ReadObject(u[1..], spaces)
    else if LITERAL_NULL <= u then Got(Null, u[4..])
    else if LITERAL_TRUE <= u then Got(Bool(true), u[4..])
    else if LITERAL_FALSE <= u then Got(Bool(false), u[5..])
    else if NumberEnd(u) > 0 then Got(Number(u[..NumberEnd(u)]), u[NumberEnd(u)..])
    else Bad
  }

  /** A list from after its opening bracket. */
  function ReadList(t: Text, spaces: bool): (r: Parse<Json>)
    ensures r.Got? ==> |r.rest| < |t|
    decreases |t|, 2
  {
    var u := SkipSpace(t, spaces);
    if At(u, 0, CLOSE_LIST) then Got(List([]), u[1..])
    else
      match ReadItems(t, spaces)
      case Bad => Bad
      case Got(items, rest) => Got(List(items), rest)
  }

  /** One item at least, then a comma and more items, or the closing bracket. */
  function ReadItems(t: Text, spaces: bool): (r: Parse<seq<Json>>)
    ensures r.Got? ==> |r.rest| < |t|
    decreases |t|, 1
  {
    match ReadValue(t, spaces)
    case Bad => Bad
    case Got(v, rest) =>
      var u := SkipSpace(rest, spaces);
      if At(u, 0, CLOSE_LIST) then Got([v], u[1..])
      else if At(u, 0, COMMA) then
        match ReadItems(u[1..], spaces)
        case Bad => Bad
        case Got(items, after) => Got([v] + items, after)
      else Bad
  }

  function ReadObject(t: Text, spaces: bool): (r: Parse<Json>)
    ensures r.Got? ==> |r.rest| < |t|
    decreases |t|, 3
  {
    var u := SkipSpace(t, spaces);
    if At(u, 0, CLOSE_OBJECT) then Got(Object([]), u[1..])
    else
      match ReadFields(t, spaces)
      case Bad => Bad
      case Got(fields, rest) => Got(Object(fields), rest)
  }

  /** A key, a colon and a value. */
  function ReadField(t: Text, spaces: bool): (r: Parse<Field>)
    ensures r.Got? ==> |r.rest| < |t|
    decreases |t|, 1
  {
    var u := SkipSpace(t, spaces);
    if !At(u, 0, QUOTE) then Bad
    else
      match ReadChars(u[1..])
      case Bad => Bad
      case Got(key, rest) =>
        var w := SkipSpace(rest, spaces);
        if !At(w, 0, COLON) then Bad
        else
          match ReadValue(w[1..], spaces)
          case Bad => Bad
          case Got(v, after) => Got(Field(key, v), after)
  }

  /** One field at least, then a comma and more fields, or the closing brace. */
  function ReadFields(t: Text, spaces: bool): (r: Parse<seq<Field>>)
    ensures r.Got? ==> |r.rest| < |t|
    decreases |t|, 2
  {
    match ReadField(t, spaces)
    case Bad => Bad
    case Got(field, rest) =>
      var u := SkipSpace(rest, spaces);
      if At(u, 0, CLOSE_OBJECT) then Got([field], u[1..])
      else if At(u, 0, COMMA) then
        match ReadFields(u[1..], spaces)
        case Bad => Bad
        case Got(fields, after) => Got([field] + fields, after)
      else Bad
  }

  /** A whole text. */
  function Read(t: Text, spaces: bool): Option<Json> {
    match ReadValue(t, spaces)
    case Bad => None
    case Got(v, rest) => if SkipSpace(rest, spaces) == [] then Some(v) else None
  }

  // ---- What follows does not matter ---------------------------------------

  /** What may follow a value: nothing, a comma, or a closing bracket. */
  predicate Ends(x: Text) {
    x == [] || x[0] == COMMA || x[0] == CLOSE_LIST || x[0] == CLOSE_OBJECT
  }

  lemma EndIsNoSpace(x: Text, spaces: bool)
    requires Ends(x)
    ensures SkipSpace(x, spaces) == x
  {
  }

  lemma {:induction false} DigitsThen(t: Text, x: Text)
    requires Ends(x)
    ensures Digits(t + x) == Digits(t)
  {
    if t == [] {
      assert t + x == x;
    } else if Digit(t[0]) {
      DigitsThen(t[1..], x);
      assert (t + x)[1..] == t[1..] + x;
    }
  }

  lemma AtThen(t: Text, x: Text, i: nat)
    requires Ends(x) && i <= |t|
    ensures Digits((t + x)[i..]) == Digits(t[i..])
    ensures forall u: Unit | u != COMMA && u != CLOSE_LIST && u != CLOSE_OBJECT :: At(t + x, i, u) <==> At(t, i, u)
  {
    assert (t + x)[i..] == t[i..] + x;
    DigitsThen(t[i..], x);
  }

  /** The integer part, the fraction and the exponent end where they do without what follows. */
  lemma NumberThen(t: Text, x: Text)
    requires Ends(x)
    ensures NumberEnd(t + x) == NumberEnd(t)
  {
    AtThen(t, x, 0);
    if At(t, 0, 45) {
      AtThen(t, x, 1);
    }
    assert IntEnd(t + x) == IntEnd(t);
    FractionThen(t, x, IntEnd(t));
    ExponentThen(t, x, FracEnd(t, IntEnd(t)));
  }

  lemma FractionThen(t: Text, x: Text, i: nat)
    requires Ends(x) && i <= |t|
    ensures FracEnd(t + x, i) == FracEnd(t, i)
  {
    AtThen(t, x, i);
    if At(t, i, 46) {
      AtThen(t, x, i + 1);
    }
  }

  lemma ExponentThen(t: Text, x: Text, i: nat)
    requires Ends(x) && i <= |t|
    ensures ExpEnd(t + x, i) == ExpEnd(t, i)
  {
    AtThen(t, x, i);
    if At(t, i, 101) || At(t, i, 69) {
      AtThen(t, x, i + 1);
      if At(t, i + 1, 43) || At(t, i + 1, 45) {
        AtThen(t, x, i + 2);
      }
    }
  }

  /** A number begins with a digit or a minus. */
  lemma NumberStarts(text: Text)
    requires NumberText(text)
    ensures Digit(text[0]) || text[0] == 45
  {
  }
}
