/**
 * JSON values, the canonical printer, and a parser for RFC 8259 text. Text is a sequence of UTF-16 code units, as
 * JavaScript strings are. Numbers are the integers.
 */
module Json {
  import opened Basics

  type Unit = u: nat | u < 0x1_0000
  type Text = seq<Unit>

  datatype Value = Null | Bool(b: bool) | Number(n: int) | Str(s: Text) | Arr(items: Items) | Obj(fields: Fields)
  datatype Items = NoItems | Item(head: Value, rest: Items)
  datatype Fields = NoFields | Field(key: Text, value: Value, rest: Fields)

  // ----- code points used by the grammar -----

  const QUOTE: Unit := 34
  const COMMA: Unit := 44
  const MINUS: Unit := 45
  const ZERO: Unit := 48
  const COLON: Unit := 58
  const OPEN_ARR: Unit := 91
  const BACKSLASH: Unit := 92
  const CLOSE_ARR: Unit := 93
  const OPEN_OBJ: Unit := 123
  const CLOSE_OBJ: Unit := 125
  const NULL: Text := [110, 117, 108, 108]
  const TRUE: Text := [116, 114, 117, 101]
  const FALSE: Text := [102, 97, 108, 115, 101]

  predicate IsDigit(u: Unit) { 48 <= u <= 57 }
  predicate IsSpace(u: Unit) { u == 32 || u == 9 || u == 10 || u == 13 }
  predicate IsHigh(u: Unit) { 0xD800 <= u <= 0xDBFF }
  predicate IsLow(u: Unit) { 0xDC00 <= u <= 0xDFFF }

  // ----- strings -----

  function HexDigit(d: nat): Unit
    requires d < 16
  {
    if d < 10 then 48 + d else 87 + d
  }

  function HexValue(u: Unit): Option<nat> {
    if 48 <= u <= 57 then Some(u - 48) else if 97 <= u <= 102 then Some(u - 87) else if 65 <= u <= 70 then Some(u - 55) else None
  }

  /** The short escapes, by the unit they stand for. */
  function ShortEscape(u: Unit): Option<Unit> {
    if u == 34 then Some(34) else if u == 92 then Some(92) else if u == 8 then Some(98) else if u == 12 then Some(102)
    else if u == 10 then Some(110) else if u == 13 then Some(114) else if u == 9 then Some(116) else None
  }

  function LongEscape(u: Unit): Text {
    [BACKSLASH, 117, HexDigit(u / 4096), HexDigit(u / 256 % 16), HexDigit(u / 16 % 16), HexDigit(u % 16)]
  }

  /** JSON.stringify of the inside of a string: a surrogate is escaped unless it is one of a pair. */
  function Escaped(s: Text): Text {
    if s == [] then []
    else if ShortEscape(s[0]).Some? then [BACKSLASH, ShortEscape(s[0]).value] + Escaped(s[1..])
    else if s[0] < 32 then LongEscape(s[0]) + Escaped(s[1..])
    else if IsHigh(s[0]) && |s| > 1 && IsLow(s[1]) then [s[0], s[1]] + Escaped(s[2..])
    else if IsHigh(s[0]) || IsLow(s[0]) then LongEscape(s[0]) + Escaped(s[1..])
    else [s[0]] + Escaped(s[1..])
  }

  function Quoted(s: Text): Text {
    [QUOTE] + Escaped(s) + [QUOTE]
  }

  datatype Parsed<T> = Got(value: T, rest: Text) | Bad

  function UnescapeShort(u: Unit): Option<Unit> {
    if u == 34 then Some(34) else if u == 92 then Some(92) else if u == 47 then Some(47) else if u == 98 then Some(8)
    else if u == 102 then Some(12) else if u == 110 then Some(10) else if u == 114 then Some(13) else if u == 116 then Some(9) else None
  }

  function HexFour(t: Text): Option<Unit>
    requires 4 <= |t|
  {
    var a, b, c, d := HexValue(t[0]), HexValue(t[1]), HexValue(t[2]), HexValue(t[3]);
    if a.None? || b.None? || c.None? || d.None? then None
    else
      var u := a.value * 4096 + b.value * 256 + c.value * 16 + d.value;
      if u < 0x1_0000 then Some(u) else None
  }

  /** The rest of a string after its opening quote. */
  function ParseChars(t: Text): (r: Parsed<Text>)
    ensures r.Got? ==> |r.rest| < |t|
    decreases |t|
  {
    if t == [] then Bad
    else if t[0] == QUOTE then Got([], t[1..])
    else if t[0] == BACKSLASH then
      if |t| < 2 then Bad
      else if t[1] == 117 then
        if |t| < 6 || HexFour(t[2..]).None? then Bad else Prefixed(HexFour(t[2..]).value, ParseChars(t[6..]))
      else if UnescapeShort(t[1]).None? then Bad
      else Prefixed(UnescapeShort(t[1]).value, ParseChars(t[2..]))
    else if t[0] < 32 then Bad
    else Prefixed(t[0], ParseChars(t[1..]))
  }

  function Prefixed(u: Unit, r: Parsed<Text>): Parsed<Text> {
    match r
    case Got(s, rest) => Got([u] + s, rest)
    case Bad => Bad
  }

  // ----- numbers -----

  function Decimal(n: nat): (t: Text)
    ensures 0 < |t| && forall k :: 0 <= k < |t| ==> IsDigit(t[k])
    ensures t[0] == ZERO ==> n == 0 && |t| == 1
  {
    if n < 10 then [48 + n] else Decimal(n / 10) + [48 + n % 10]
  }

  function Printed(n: int): Text {
    if n < 0 then [MINUS] + Decimal(-n) else Decimal(n)
  }

  function Digits(t: Text): nat {
    if t == [] || !IsDigit(t[0]) then 0 else 1 + Digits(t[1..])
  }

  function DigitsAtMost(t: Text): (r: nat)
    ensures r == Digits(t) <= |t| && forall k :: 0 <= k < r ==> IsDigit(t[k])
  {
    if t == [] || !IsDigit(t[0]) then 0 else 1 + DigitsAtMost(t[1..])
  }

  function ValueOf(t: Text): nat
    requires forall k :: 0 <= k < |t| ==> IsDigit(t[k])
  {
    if t == [] then 0
    else
      assert IsDigit(t[|t| - 1]);
      ValueOf(t[..|t| - 1]) * 10 + (t[|t| - 1] - 48)
  }

  /** An integer: no leading zero; a fraction or an exponent after it is not an integer's text. */
  function ParseNatural(t: Text): (r: Parsed<nat>)
    ensures r.Got? ==> |r.rest| < |t|
  {
    var n := DigitsAtMost(t);
    if n == 0 || (t[0] == ZERO && n > 1) then Bad
    else if n < |t| && (t[n] == 46 || t[n] == 69 || t[n] == 101) then Bad
    else Got(ValueOf(t[..n]), t[n..])
  }

  // ----- the printer -----

  function Print(v: Value): Text {
    match v
    case Null => NULL
    case Bool(b) => if b then TRUE else FALSE
    case Number(n) => Printed(n)
    case Str(s) => Quoted(s)
    case Arr(items) => [OPEN_ARR] + PrintItems(items) + [CLOSE_ARR]
    case Obj(fields) => [OPEN_OBJ] + PrintFields(fields) + [CLOSE_OBJ]
  }

  function PrintItems(items: Items): Text {
    match items
    case NoItems => []
    case Item(head, NoItems) => Print(head)
    case Item(head, rest) => Print(head) + [COMMA] + PrintItems(rest)
  }

  function PrintFields(fields: Fields): Text {
    match fields
    case NoFields => []
    case Field(key, value, NoFields) => Quoted(key) + [COLON] + Print(value)
    case Field(key, value, rest) => Quoted(key) + [COLON] + Print(value) + [COMMA] + PrintFields(rest)
  }

  // ----- canonical form: keys sorted at every level -----

  /** Code-unit order, as Array.prototype.sort compares strings. */
  predicate Before(a: Text, b: Text) {
    if b == [] then false
    else if a == [] then true
    else if a[0] != b[0] then a[0] < b[0]
    else Before(a[1..], b[1..])
  }

  function Insert(key: Text, value: Value, fields: Fields): Fields {
    match fields
    case NoFields => Field(key, value, NoFields)
    case Field(k, v, rest) => if Before(k, key) then Field(k, v, Insert(key, value, rest)) else Field(key, value, fields)
  }

  function Normal(v: Value): Value {
    match v
    case Arr(items) => Arr(NormalItems(items))
    case Obj(fields) => Obj(NormalFields(fields))
    case _ => v
  }

  function NormalItems(items: Items): Items {
    match items
    case NoItems => NoItems
    case Item(head, rest) => Item(Normal(head), NormalItems(rest))
  }

  function NormalFields(fields: Fields): Fields {
    match fields
    case NoFields => NoFields
    case Field(key, value, rest) => Insert(key, Normal(value), NormalFields(rest))
  }

  /** The text of a value whose objects, however deep, list their keys in order. */
  function Canonical(v: Value): Text {
    Print(Normal(v))
  }

  // ----- the parser -----

  function SkipSpace(t: Text): (r: Text)
    ensures |r| <= |t|
  {
    if t != [] && IsSpace(t[0]) then SkipSpace(t[1..]) else t
  }

  predicate HasKey(fields: Fields, key: Text) {
    match fields
    case NoFields => false
    case Field(k, _, rest) => k == key || HasKey(rest, key)
  }

  /** A key that comes again later is the later one's. */
  function With(key: Text, value: Value, rest: Fields): Fields {
    if HasKey(rest, key) then rest else Field(key, value, rest)
  }

  function ParseValue(text: Text): (r: Parsed<Value>)
    ensures r.Got? ==> |r.rest| < |text|
    decreases |text|, 1
  {
    var t := SkipSpace(text);
    if NULL <= t then Got(Null, t[4..])
    else if TRUE <= t then Got(Bool(true), t[4..])
    else if FALSE <= t then Got(Bool(false), t[5..])
    else if t == [] then Bad
    else if t[0] == QUOTE then
      (match ParseChars(t[1..])
       case Got(s, rest) => Got(Str(s), rest)
       case Bad => Bad)
    else if t[0] == MINUS then
      (match ParseNatural(t[1..])
       case Got(n, rest) => Got(Number(0 - n), rest)
       case Bad => Bad)
    else if IsDigit(t[0]) then
      (match ParseNatural(t)
       case Got(n, rest) => Got(Number(n), rest)
       case Bad => Bad)
    else if t[0] == OPEN_ARR then
      var inside := SkipSpace(t[1..]);
      if inside != [] && inside[0] == CLOSE_ARR then Got(Arr(NoItems), inside[1..])
      else
        (match ParseItems(inside)
         case Got(items, rest) => Got(Arr(items), rest)
         case Bad => Bad)
    else if t[0] == OPEN_OBJ then
      var inside := SkipSpace(t[1..]);
      if inside != [] && inside[0] == CLOSE_OBJ then Got(Obj(NoFields), inside[1..])
      else
        (match ParseFields(inside)
         case Got(fields, rest) => Got(Obj(fields), rest)
         case Bad => Bad)
    else Bad
  }

  /** One or more values, up to and with the closing bracket. */
  function ParseItems(text: Text): (r: Parsed<Items>)
    ensures r.Got? ==> |r.rest| < |text|
    decreases |text|, 2
  {
    match ParseValue(text)
    case Bad => Bad
    case Got(head, after) =>
      var t := SkipSpace(after);
      if t == [] then Bad
      else if t[0] == CLOSE_ARR then Got(Item(head, NoItems), t[1..])
      else if t[0] != COMMA then Bad
      else
        match ParseItems(t[1..])
        case Got(rest, left) => Got(Item(head, rest), left)
        case Bad => Bad
  }

  /** One or more members, up to and with the closing brace. */
  function ParseFields(text: Text): (r: Parsed<Fields>)
    ensures r.Got? ==> |r.rest| < |text|
    decreases |text|, 2
  {
    var t := SkipSpace(text);
    if t == [] || t[0] != QUOTE then Bad
    else
      match ParseChars(t[1..])
      case Bad => Bad
      case Got(key, afterKey) =>
        var c := SkipSpace(afterKey);
        if c == [] || c[0] != COLON then Bad
        else
          match ParseValue(c[1..])
          case Bad => Bad
          case Got(value, afterValue) =>
            var d := SkipSpace(afterValue);
            if d == [] then Bad
            else if d[0] == CLOSE_OBJ then Got(Field(key, value, NoFields), d[1..])
            else if d[0] != COMMA then Bad
            else
              match ParseFields(d[1..])
              case Got(rest, left) => Got(With(key, value, rest), left)
              case Bad => Bad
  }

  /** The whole text is one value, with white space allowed around it. */
  function Parse(text: Text): Option<Value> {
    match ParseValue(text)
    case Got(v, rest) => if SkipSpace(rest) == [] then Some(v) else None
    case Bad => None
  }
}
