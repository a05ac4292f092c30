/** Parsing undoes printing, so canonical text stands for exactly one value. */
module JsonRoundTrip {
  import opened Basics
  import opened Json

  lemma Assoc(a: Text, b: Text, c: Text)
    ensures (a + b) + c == a + (b + c)
  {
  }

  // ----- strings -----

  lemma HexBack(u: Unit)
    ensures HexFour([HexDigit(u / 4096), HexDigit(u / 256 % 16), HexDigit(u / 16 % 16), HexDigit(u % 16)]) == Some(u)
  {
    var a, b, c, d := u / 4096, u / 256 % 16, u / 16 % 16, u % 16;
    assert u == u / 16 * 16 + d && u / 16 == u / 16 / 16 * 16 + c && u / 16 / 16 == u / 256;
    assert u / 256 == u / 256 / 16 * 16 + b && u / 256 / 16 == a;
  }

  lemma ShortBack(u: Unit, t: Text)
    requires ShortEscape(u).Some?
    ensures ParseChars([BACKSLASH, ShortEscape(u).value] + t) == Prefixed(u, ParseChars(t))
  {
    assert ([BACKSLASH, ShortEscape(u).value] + t)[2..] == t;
  }

  lemma LongBack(u: Unit, t: Text)
    ensures ParseChars(LongEscape(u) + t) == Prefixed(u, ParseChars(t))
  {
    var written := LongEscape(u) + t;
    HexBack(u);
    assert written[6..] == t;
    assert HexFour(written[2..]) == HexFour(LongEscape(u)[2..]);
  }

  lemma RawBack(u: Unit, t: Text)
    requires 32 <= u && u != QUOTE && u != BACKSLASH
    ensures ParseChars([u] + t) == Prefixed(u, ParseChars(t))
  {
    assert ([u] + t)[1..] == t;
  }

  /** Every unit comes back, whichever of the four forms it was written in. */
  lemma {:induction false} CharsBack(s: Text, tail: Text)
    requires tail != [] && tail[0] == QUOTE
    ensures ParseChars(Escaped(s) + tail) == Got(s, tail[1..])
    decreases |s|
  {
    if s == [] {
      assert Escaped(s) + tail == tail;
    } else {
      hide ParseChars, Escaped, HexFour, LongEscape, ShortEscape;
      EscapedStep(s);
      var u := s[0];
      if ShortEscape(u).None? && IsHigh(u) && |s| > 1 && IsLow(s[1]) {
        CharsBack(s[2..], tail);
        Assoc([u, s[1]], Escaped(s[2..]), tail);
        PairBack(u, s[1], Escaped(s[2..]) + tail);
        assert [u] + ([s[1]] + s[2..]) == s;
      } else {
        CharsBack(s[1..], tail);
        assert [u] + s[1..] == s;
        var more := Escaped(s[1..]) + tail;
        if ShortEscape(u).Some? {
          Assoc([BACKSLASH, ShortEscape(u).value], Escaped(s[1..]), tail);
          ShortBack(u, more);
        } else if u < 32 || IsHigh(u) || IsLow(u) {
          Assoc(LongEscape(u), Escaped(s[1..]), tail);
          LongBack(u, more);
        } else {
          Assoc([u], Escaped(s[1..]), tail);
          PlainIsRaw(u);
          RawBack(u, more);
        }
      }
    }
  }

  lemma PlainIsRaw(u: Unit)
    requires ShortEscape(u).None?
    ensures u != QUOTE && u != BACKSLASH
  {
  }

  lemma PairBack(u: Unit, v: Unit, t: Text)
    requires IsHigh(u) && IsLow(v)
    ensures ParseChars([u, v] + t) == Prefixed(u, Prefixed(v, ParseChars(t)))
  {
    RawBack(v, t);
    RawBack(u, [v] + t);
    assert [u, v] + t == [u] + ([v] + t);
  }

  lemma EscapedStep(s: Text)
    requires s != []
    ensures
      var u := s[0];
      Escaped(s) ==
        if ShortEscape(u).Some? then [BACKSLASH, ShortEscape(u).value] + Escaped(s[1..])
        else if u < 32 then LongEscape(u) + Escaped(s[1..])
        else if IsHigh(u) && |s| > 1 && IsLow(s[1]) then [u, s[1]] + Escaped(s[2..])
        else if IsHigh(u) || IsLow(u) then LongEscape(u) + Escaped(s[1..])
        else [u] + Escaped(s[1..])
  {
  }

  // ----- numbers -----

  lemma {:induction false} DecimalBack(n: nat)
    ensures ValueOf(Decimal(n)) == n
  {
    var t := Decimal(n);
    if n >= 10 {
      DecimalBack(n / 10);
      assert t[..|t| - 1] == Decimal(n / 10);
    } else {
      assert t[..0] == [];
    }
  }

  predicate Ends(rest: Text) {
    rest == [] || rest[0] == COMMA || rest[0] == CLOSE_ARR || rest[0] == CLOSE_OBJ
  }

  lemma {:induction false} DigitsStop(t: Text, rest: Text)
    requires (forall k :: 0 <= k < |t| ==> IsDigit(t[k])) && (rest == [] || !IsDigit(rest[0]))
    ensures Digits(t + rest) == |t|
  {
    if t == [] {
      assert t + rest == rest;
    } else {
      DigitsStop(t[1..], rest);
      assert (t + rest)[1..] == t[1..] + rest;
    }
  }

  lemma NaturalBack(n: nat, rest: Text)
    requires Ends(rest)
    ensures ParseNatural(Decimal(n) + rest) == Got(n, rest)
  {
    var t := Decimal(n);
    DigitsStop(t, rest);
    DecimalBack(n);
    assert (t + rest)[..|t|] == t && (t + rest)[|t|..] == rest;
  }

  // ----- values -----

  /** What JavaScript objects are: no key twice, at any level. */
  predicate Proper(v: Value) {
    match v
    case Arr(items) => ProperItems(items)
    case Obj(fields) => ProperFields(fields)
    case _ => true
  }

  predicate ProperItems(items: Items) {
    match items
    case NoItems => true
    case Item(head, rest) => Proper(head) && ProperItems(rest)
  }

  predicate ProperFields(fields: Fields) {
    match fields
    case NoFields => true
    case Field(key, value, rest) => !HasKey(rest, key) && Proper(value) && ProperFields(rest)
  }

  /** What parsing makes of a value that repeats keys: of those with one key, the last stays. */
  function Deduped(v: Value): Value {
    match v
    case Arr(items) => Arr(DedupedItems(items))
    case Obj(fields) => Obj(DedupedFields(fields))
    case _ => v
  }

  function DedupedItems(items: Items): Items {
    match items
    case NoItems => NoItems
    case Item(head, rest) => Item(Deduped(head), DedupedItems(rest))
  }

  function DedupedFields(fields: Fields): Fields {
    match fields
    case NoFields => NoFields
    case Field(key, value, rest) => With(key, Deduped(value), DedupedFields(rest))
  }

  lemma {:induction false} DedupedIsProper(v: Value)
    ensures Proper(Deduped(v))
    decreases v, 1
  {
    match v
    case Arr(items) => DedupedItemsProper(items);
    case Obj(fields) => DedupedFieldsProper(fields);
    case _ =>
  }

  lemma {:induction false} DedupedItemsProper(items: Items)
    ensures ProperItems(DedupedItems(items))
    decreases items, 0
  {
    if items.Item? {
      DedupedIsProper(items.head);
      DedupedItemsProper(items.rest);
    }
  }

  lemma {:induction false} DedupedFieldsProper(fields: Fields)
    ensures ProperFields(DedupedFields(fields))
    decreases fields, 0
  {
    if fields.Field? {
      DedupedIsProper(fields.value);
      DedupedFieldsProper(fields.rest);
    }
  }

  lemma {:induction false} ProperIsDeduped(v: Value)
    requires Proper(v)
    ensures Deduped(v) == v
    decreases v, 1
  {
    match v
    case Arr(items) => ProperItemsDeduped(items);
    case Obj(fields) => ProperFieldsDeduped(fields);
    case _ =>
  }

  lemma {:induction false} ProperItemsDeduped(items: Items)
    requires ProperItems(items)
    ensures DedupedItems(items) == items
    decreases items, 0
  {
    if items.Item? {
      ProperIsDeduped(items.head);
      ProperItemsDeduped(items.rest);
    }
  }

  lemma {:induction false} ProperFieldsDeduped(fields: Fields)
    requires ProperFields(fields)
    ensures DedupedFields(fields) == fields
    decreases fields, 0
  {
    if fields.Field? {
      ProperIsDeduped(fields.value);
      ProperFieldsDeduped(fields.rest);
    }
  }

  /** No printed value starts with white space or with a closing bracket. */
  lemma PrintStarts(v: Value, rest: Text)
    ensures Print(v) != [] && SkipSpace(Print(v) + rest) == Print(v) + rest && (Print(v) + rest)[0] != CLOSE_ARR
  {
    if v.Number? && v.n >= 0 { assert IsDigit(Decimal(v.n)[0]); }
  }

  lemma NotLiteral(t: Text, u: Unit)
    requires t != [] && t[0] == u && u != 110 && u != 116 && u != 102
    ensures !(NULL <= t) && !(TRUE <= t) && !(FALSE <= t)
  {
  }

  // What ParseValue does with each kind of first unit, when there is no white space before it.

  lemma OnQuote(t: Text)
    requires t != [] && t[0] == QUOTE
    ensures ParseValue(t) == match ParseChars(t[1..]) { case Got(s, rest) => Got(Str(s), rest) case Bad => Bad }
  {
    hide ParseItems, ParseFields, ParseNatural, ParseChars;
    NotLiteral(t, QUOTE);
  }

  lemma OnNumber(n: int, t: Text)
    requires Ends(t)
    ensures ParseValue(Printed(n) + t) == Got(Number(n), t)
  {
    var m := if n < 0 then -n else n;
    NaturalBack(m, t);
    DigitFirst(m, t);
    hide ParseValue, ParseNatural, Decimal, Ends;
    if n < 0 {
      OnMinus(Decimal(m) + t);
      Assoc([MINUS], Decimal(m), t);
    } else {
      OnDigit(Decimal(m) + t);
    }
  }

  lemma DigitFirst(n: nat, t: Text)
    ensures Decimal(n) + t != [] && IsDigit((Decimal(n) + t)[0])
  {
    assert IsDigit(Decimal(n)[0]);
  }

  lemma OnMinus(t: Text)
    ensures ParseValue([MINUS] + t) == match ParseNatural(t) { case Got(n, rest) => Got(Number(0 - n), rest) case Bad => Bad }
  {
    hide ParseItems, ParseFields, ParseNatural, ParseChars;
    assert ([MINUS] + t)[1..] == t;
    NotLiteral([MINUS] + t, MINUS);
  }

  lemma OnDigit(t: Text)
    requires t != [] && IsDigit(t[0])
    ensures ParseValue(t) == match ParseNatural(t) { case Got(n, rest) => Got(Number(n), rest) case Bad => Bad }
  {
    hide ParseItems, ParseFields, ParseNatural, ParseChars;
    NotLiteral(t, t[0]);
  }

  lemma OnBracket(inside: Text)
    ensures
      var t := [OPEN_ARR] + inside;
      var i := SkipSpace(inside);
      ParseValue(t) ==
        if i != [] && i[0] == CLOSE_ARR then Got(Arr(NoItems), i[1..])
        else match ParseItems(i) { case Got(items, rest) => Got(Arr(items), rest) case Bad => Bad }
  {
    hide ParseItems, ParseFields, ParseNatural, ParseChars;
    var t := [OPEN_ARR] + inside;
    assert t[1..] == inside;
    NotLiteral(t, OPEN_ARR);
  }

  lemma OnBrace(inside: Text)
    ensures
      var t := [OPEN_OBJ] + inside;
      var i := SkipSpace(inside);
      ParseValue(t) ==
        if i != [] && i[0] == CLOSE_OBJ then Got(Obj(NoFields), i[1..])
        else match ParseFields(i) { case Got(fields, rest) => Got(Obj(fields), rest) case Bad => Bad }
  {
    hide ParseItems, ParseFields, ParseNatural, ParseChars;
    var t := [OPEN_OBJ] + inside;
    assert t[1..] == inside;
    NotLiteral(t, OPEN_OBJ);
  }

  lemma OnLiteral(v: Value, rest: Text)
    requires v.Null? || v.Bool?
    ensures ParseValue(Print(v) + rest) == Got(v, rest)
  {
    hide ParseItems, ParseFields, ParseNatural, ParseChars;
    var t := Print(v) + rest;
    assert t[|Print(v)|..] == rest && Print(v) <= t;
  }

  lemma StrBack(s: Text, rest: Text)
    ensures ParseValue(Quoted(s) + rest) == Got(Str(s), rest)
  {
    var t := Quoted(s) + rest;
    assert t[1..] == Escaped(s) + ([QUOTE] + rest);
    CharsBack(s, [QUOTE] + rest);
    assert ([QUOTE] + rest)[1..] == rest;
    hide ParseValue, ParseChars, Escaped;
    OnQuote(t);
  }

  lemma {:induction false} ValueBack(v: Value, rest: Text)
    requires Ends(rest)
    ensures ParseValue(Print(v) + rest) == Got(Deduped(v), rest)
    decreases v, 1
  {
    match v
    case Null => OnLiteral(v, rest);
    case Bool(b) => OnLiteral(v, rest);
    case Number(n) => OnNumber(n, rest);
    case Str(s) => StrBack(s, rest);
    case Arr(items) => ArrBack(items, rest);
    case Obj(fields) => ObjBack(fields, rest);
  }

  lemma ArrBack(items: Items, rest: Text)
    ensures ParseValue(Print(Arr(items)) + rest) == Got(Arr(DedupedItems(items)), rest)
    decreases items, 1
  {
    hide ParseValue, ParseItems;
    var inside := PrintItems(items) + ([CLOSE_ARR] + rest);
    assert Print(Arr(items)) + rest == [OPEN_ARR] + inside by { Nested([OPEN_ARR], PrintItems(items), [CLOSE_ARR], rest); }
    OnBracket(inside);
    if items.Item? {
      ItemsStart(items, [CLOSE_ARR] + rest);
      ItemsBack(items, rest);
    } else {
      assert inside == [CLOSE_ARR] + rest && inside[1..] == rest;
    }
  }

  lemma Nested(a: Text, b: Text, c: Text, d: Text)
    ensures a + b + c + d == a + (b + (c + d))
  {
  }

  lemma ObjBack(fields: Fields, rest: Text)
    ensures ParseValue(Print(Obj(fields)) + rest) == Got(Obj(DedupedFields(fields)), rest)
    decreases fields, 1
  {
    hide ParseValue, ParseFields;
    var inside := PrintFields(fields) + ([CLOSE_OBJ] + rest);
    assert Print(Obj(fields)) + rest == [OPEN_OBJ] + inside by { Nested([OPEN_OBJ], PrintFields(fields), [CLOSE_OBJ], rest); }
    OnBrace(inside);
    if fields.Field? {
      FieldsStart(fields, [CLOSE_OBJ] + rest);
      FieldsBack(fields, rest);
    } else {
      assert inside == [CLOSE_OBJ] + rest && inside[1..] == rest;
    }
  }

  lemma ItemsStart(items: Items, tail: Text)
    requires items.Item?
    ensures var t := PrintItems(items) + tail; SkipSpace(t) == t && t != [] && t[0] != CLOSE_ARR
  {
    PrintStarts(items.head, []);
    assert Print(items.head) + [] == Print(items.head);
    assert (PrintItems(items) + tail)[0] == Print(items.head)[0];
  }

  lemma FieldsStart(fields: Fields, tail: Text)
    requires fields.Field?
    ensures var t := PrintFields(fields) + tail; SkipSpace(t) == t && t != [] && t[0] == QUOTE
  {
  }

  lemma OnItem(head: Value, text: Text, after: Text)
    requires after != [] && !IsSpace(after[0]) && ParseValue(text + after) == Got(head, after)
    ensures
      ParseItems(text + after) ==
        if after[0] == CLOSE_ARR then Got(Item(head, NoItems), after[1..])
        else if after[0] != COMMA then Bad
        else match ParseItems(after[1..]) { case Got(rest, left) => Got(Item(head, rest), left) case Bad => Bad }
  {
    hide ParseValue, ParseFields;
  }

  lemma {:induction false} ItemsBack(items: Items, rest: Text)
    requires items.Item?
    ensures ParseItems(PrintItems(items) + ([CLOSE_ARR] + rest)) == Got(DedupedItems(items), rest)
    decreases items, 0
  {
    hide ParseValue, ParseItems;
    var close := [CLOSE_ARR] + rest;
    assert close[1..] == rest;
    if items.rest.NoItems? {
      ValueBack(items.head, close);
      OnItem(Deduped(items.head), Print(items.head), close);
    } else {
      var after := [COMMA] + (PrintItems(items.rest) + close);
      ValueBack(items.head, after);
      OnItem(Deduped(items.head), Print(items.head), after);
      assert after[1..] == PrintItems(items.rest) + close;
      ItemsBack(items.rest, rest);
      assert PrintItems(items) + close == Print(items.head) + after by { Nested(Print(items.head), [COMMA], PrintItems(items.rest), close); }
    }
  }

  lemma OnKey(key: Text, afterKey: Text)
    requires afterKey != [] && afterKey[0] == COLON
    ensures
      ParseFields(Quoted(key) + afterKey) ==
        match ParseValue(afterKey[1..]) {
          case Bad => Bad
          case Got(value, afterValue) =>
            var d := SkipSpace(afterValue);
            if d == [] then Bad
            else if d[0] == CLOSE_OBJ then Got(Field(key, value, NoFields), d[1..])
            else if d[0] != COMMA then Bad
            else match ParseFields(d[1..]) { case Got(rest, left) => Got(With(key, value, rest), left) case Bad => Bad }
        }
  {
    var text := Quoted(key) + afterKey;
    assert text[1..] == Escaped(key) + ([QUOTE] + afterKey);
    CharsBack(key, [QUOTE] + afterKey);
    assert ([QUOTE] + afterKey)[1..] == afterKey;
    hide ParseValue, ParseItems, ParseChars, Escaped;
    assert SkipSpace(text) == text && SkipSpace(afterKey) == afterKey;
  }

  /** One member, and what follows it. */
  lemma OnMember(key: Text, valueText: Text, value: Value, after: Text)
    requires after != [] && !IsSpace(after[0]) && ParseValue(valueText + after) == Got(value, after)
    ensures
      ParseFields(Quoted(key) + ([COLON] + (valueText + after))) ==
        if after[0] == CLOSE_OBJ then Got(Field(key, value, NoFields), after[1..])
        else if after[0] != COMMA then Bad
        else match ParseFields(after[1..]) { case Got(rest, left) => Got(With(key, value, rest), left) case Bad => Bad }
  {
    hide ParseValue, ParseFields;
    var afterKey := [COLON] + (valueText + after);
    assert afterKey[1..] == valueText + after;
    OnKey(key, afterKey);
  }

  lemma {:induction false} FieldsBack(fields: Fields, rest: Text)
    requires fields.Field?
    ensures ParseFields(PrintFields(fields) + ([CLOSE_OBJ] + rest)) == Got(DedupedFields(fields), rest)
    decreases fields, 0
  {
    hide ParseValue, ParseFields;
    var close := [CLOSE_OBJ] + rest;
    var key, value := fields.key, fields.value;
    assert close[1..] == rest;
    if fields.rest.NoFields? {
      ValueBack(value, close);
      OnMember(key, Print(value), Deduped(value), close);
      Nested(Quoted(key), [COLON], Print(value), close);
    } else {
      var after := [COMMA] + (PrintFields(fields.rest) + close);
      ValueBack(value, after);
      OnMember(key, Print(value), Deduped(value), after);
      assert after[1..] == PrintFields(fields.rest) + close;
      FieldsBack(fields.rest, rest);
      MemberText(fields, close);
    }
  }

  lemma MemberText(fields: Fields, close: Text)
    requires fields.Field? && fields.rest.Field?
    ensures PrintFields(fields) + close == Quoted(fields.key) + ([COLON] + (Print(fields.value) + ([COMMA] + (PrintFields(fields.rest) + close))))
  {
    var a, b, c, d := Quoted(fields.key), Print(fields.value), PrintFields(fields.rest), close;
    Nested(a + [COLON] + b, [COMMA], c, d);
    Nested(a, [COLON], b, [COMMA] + (c + d));
  }

  /** Parsing what was printed gives the value with the last of each repeated key. */
  lemma ParseKeepsLast(v: Value)
    ensures Parse(Print(v)) == Some(Deduped(v))
  {
    ValueBack(v, []);
    assert Print(v) + [] == Print(v);
  }

  /** Parsing undoes printing on every value that repeats no key at any level, and on no other. */
  lemma ParseUndoesPrint(v: Value)
    ensures Parse(Print(v)) == Some(v) <==> Proper(v)
  {
    ParseKeepsLast(v);
    DedupedIsProper(v);
    if Proper(v) { ProperIsDeduped(v); }
  }
}
