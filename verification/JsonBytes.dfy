/**
 * Signatures are over UTF-8 bytes, not over text. The encoding writes every lone surrogate as the same three bytes, so
 * bytes fix a text only where there is none; and in what the printer writes there never is.
 */
module JsonBytes {
  import opened Basics
  import opened Json
  import opened JsonRoundTrip
  import opened JsonCanonical

  type Byte = b: nat | b < 256

  // ----- UTF-8, as Buffer.from encodes a JavaScript string -----

  predicate IsPair(t: Text) {
    |t| > 1 && IsHigh(t[0]) && IsLow(t[1])
  }

  function PairValue(high: Unit, low: Unit): nat
    requires IsHigh(high) && IsLow(low)
  {
    0x10000 + (high - 0xD800) * 0x400 + (low - 0xDC00)
  }

  const REPLACEMENT: Unit := 0xFFFD

  /** The first code point of a text that is not empty, and how many units it takes. */
  function First(t: Text): (c: (nat, nat))
    requires t != []
    ensures c.0 < 0x110000 && 1 <= c.1 <= 2 && c.1 <= |t|
  {
    if IsPair(t) then (PairValue(t[0], t[1]), 2)
    else if IsHigh(t[0]) || IsLow(t[0]) then (REPLACEMENT, 1)
    else (t[0], 1)
  }

  function CodeBytes(c: nat): (b: seq<Byte>)
    requires c < 0x110000
  {
    if c < 0x80 then [c]
    else if c < 0x800 then [0xC0 + c / 64, 0x80 + c % 64]
    else if c < 0x10000 then [0xE0 + c / 4096, 0x80 + c / 64 % 64, 0x80 + c % 64]
    else [0xF0 + c / 262144, 0x80 + c / 4096 % 64, 0x80 + c / 64 % 64, 0x80 + c % 64]
  }

  function Utf8(t: Text): seq<Byte> {
    if t == [] then [] else CodeBytes(First(t).0) + Utf8(t[First(t).1..])
  }

  // ----- bytes fix code points -----

  lemma FromTwo(c: nat)
    requires 0x80 <= c < 0x800
    ensures var b := CodeBytes(c); |b| == 2 && 0xC0 <= b[0] < 0xE0 && c == (b[0] as int - 0xC0) * 64 + (b[1] as int - 0x80)
  {
  }

  lemma FromThree(c: nat)
    requires 0x800 <= c < 0x10000
    ensures var b := CodeBytes(c); |b| == 3 && 0xE0 <= b[0] < 0xF0 && c == (b[0] as int - 0xE0) * 4096 + (b[1] as int - 0x80) * 64 + (b[2] as int - 0x80)
  {
    assert c / 64 == c / 4096 * 64 + c / 64 % 64 by { assert c / 64 / 64 == c / 4096; }
  }

  lemma FromFour(c: nat)
    requires 0x10000 <= c < 0x110000
    ensures
      var b := CodeBytes(c);
      |b| == 4 && 0xF0 <= b[0] && c == (b[0] as int - 0xF0) * 262144 + (b[1] as int - 0x80) * 4096 + (b[2] as int - 0x80) * 64 + (b[3] as int - 0x80)
  {
    assert c / 64 == c / 4096 * 64 + c / 64 % 64 by { assert c / 64 / 64 == c / 4096; }
    assert c / 4096 == c / 262144 * 64 + c / 4096 % 64 by { assert c / 4096 / 64 == c / 262144; }
  }

  /** How many bytes the code point takes, told from the first of them. */
  function LengthOf(first: Byte): nat {
    if first < 0xC0 then 1 else if first < 0xE0 then 2 else if first < 0xF0 then 3 else 4
  }

  lemma CodeLength(c: nat)
    requires c < 0x110000
    ensures |CodeBytes(c)| == LengthOf(CodeBytes(c)[0]) > 0
  {
    if 0x80 <= c < 0x800 { FromTwo(c); } else if 0x800 <= c < 0x10000 { FromThree(c); } else if 0x10000 <= c { FromFour(c); }
  }

  lemma SameCode(c: nat, d: nat)
    requires c < 0x110000 && d < 0x110000 && CodeBytes(c) == CodeBytes(d)
    ensures c == d
  {
    var n := |CodeBytes(c)|;
    if n == 2 {
      FromTwo(c);
      FromTwo(d);
    } else if n == 3 {
      FromThree(c);
      FromThree(d);
    } else if n == 4 {
      FromFour(c);
      FromFour(d);
    }
  }

  /** The first code point can be read off, whatever follows. */
  lemma CodesApart(c: nat, d: nat, s: seq<Byte>, t: seq<Byte>)
    requires c < 0x110000 && d < 0x110000 && CodeBytes(c) + s == CodeBytes(d) + t
    ensures c == d && s == t
  {
    CodeLength(c);
    CodeLength(d);
    var a, b := CodeBytes(c), CodeBytes(d);
    assert (a + s)[0] == a[0] && (b + t)[0] == b[0];
    assert a == (a + s)[..|a|] && b == (b + t)[..|b|];
    SameCode(c, d);
    assert s == (a + s)[|a|..] && t == (b + t)[|b|..];
  }

  // ----- texts without lone surrogates -----

  predicate WellPaired(t: Text) {
    t == [] || (if IsPair(t) then WellPaired(t[2..]) else !IsHigh(t[0]) && !IsLow(t[0]) && WellPaired(t[1..]))
  }

  lemma SameFirst(t: Text, u: Text)
    requires t != [] && u != [] && WellPaired(t) && WellPaired(u) && First(t).0 == First(u).0
    ensures First(t).1 == First(u).1 && t[..First(t).1] == u[..First(u).1]
  {
    if IsPair(t) && IsPair(u) {
      assert t[0] - 0xD800 == u[0] - 0xD800 && t[1] - 0xDC00 == u[1] - 0xDC00;
    }
  }

  /** Two such texts with the same bytes are the same text. */
  lemma {:induction false} BytesFixText(t: Text, u: Text)
    requires WellPaired(t) && WellPaired(u) && Utf8(t) == Utf8(u)
    ensures t == u
    decreases |t|
  {
    if t == [] || u == [] {
      if t != [] { CodeLength(First(t).0); }
      if u != [] { CodeLength(First(u).0); }
    } else {
      var n, m := First(t).1, First(u).1;
      CodesApart(First(t).0, First(u).0, Utf8(t[n..]), Utf8(u[m..]));
      SameFirst(t, u);
      BytesFixText(t[n..], u[n..]);
      assert t == t[..n] + t[n..] && u == u[..n] + u[n..];
    }
  }

  /** Not so otherwise: two different lone surrogates have the same bytes. */
  lemma LoneSurrogatesCollide()
    ensures [0xD800] != [0xD801] && Utf8([0xD800]) == Utf8([0xD801]) && !WellPaired([0xD800])
  {
    assert Utf8([0xD800]) == CodeBytes(REPLACEMENT) + Utf8([]) == Utf8([0xD801]);
  }

  // ----- what is printed is well paired -----

  lemma {:induction false} PairedJoin(a: Text, b: Text)
    requires WellPaired(a) && WellPaired(b)
    ensures WellPaired(a + b)
    decreases |a|
  {
    if a == [] {
      assert a + b == b;
    } else if IsPair(a) {
      assert (a + b)[2..] == a[2..] + b;
      PairedJoin(a[2..], b);
    } else {
      assert (a + b)[1..] == a[1..] + b;
      PairedJoin(a[1..], b);
    }
  }

  lemma {:induction false} PlainIsPaired(t: Text)
    requires forall k :: 0 <= k < |t| ==> t[k] < 0xD800
    ensures WellPaired(t)
  {
    if t != [] { PlainIsPaired(t[1..]); }
  }

  lemma {:induction false} EscapedIsPaired(s: Text)
    ensures WellPaired(Escaped(s))
    decreases |s|
  {
    if s != [] {
      EscapedStep(s);
      var u := s[0];
      hide Escaped;
      if ShortEscape(u).None? && IsHigh(u) && |s| > 1 && IsLow(s[1]) {
        EscapedIsPaired(s[2..]);
        assert WellPaired([u, s[1]]) by { assert [u, s[1]][2..] == []; }
        PairedJoin([u, s[1]], Escaped(s[2..]));
      } else {
        EscapedIsPaired(s[1..]);
        var head := if ShortEscape(u).Some? then [BACKSLASH, ShortEscape(u).value] else if u < 32 || IsHigh(u) || IsLow(u) then LongEscape(u) else [u];
        assert WellPaired(head) by { HeadIsPaired(u, head); }
        PairedJoin(head, Escaped(s[1..]));
      }
    }
  }

  lemma HeadIsPaired(u: Unit, head: Text)
    requires head == if ShortEscape(u).Some? then [BACKSLASH, ShortEscape(u).value] else if u < 32 || IsHigh(u) || IsLow(u) then LongEscape(u) else [u]
    ensures WellPaired(head)
  {
    if ShortEscape(u).Some? || u < 32 || IsHigh(u) || IsLow(u) { PlainIsPaired(head); } else { assert [u][1..] == []; }
  }

  lemma QuotedIsPaired(s: Text)
    ensures WellPaired(Quoted(s))
  {
    EscapedIsPaired(s);
    PlainIsPaired([QUOTE]);
    PairedJoin([QUOTE], Escaped(s));
    PairedJoin([QUOTE] + Escaped(s), [QUOTE]);
  }

  lemma Enclosed(open: Unit, t: Text, close: Unit)
    requires WellPaired(t) && open < 0xD800 && close < 0xD800
    ensures WellPaired([open] + t + [close])
  {
    PlainIsPaired([open]);
    PlainIsPaired([close]);
    PairedJoin([open], t);
    PairedJoin([open] + t, [close]);
  }

  lemma Separated(a: Text, u: Unit, b: Text)
    requires WellPaired(a) && WellPaired(b) && u < 0xD800
    ensures WellPaired(a + [u] + b)
  {
    PlainIsPaired([u]);
    PairedJoin(a, [u]);
    PairedJoin(a + [u], b);
  }

  /** Whatever strings a value holds, lone surrogates among them, its text has none. */
  lemma {:induction false} PrintIsPaired(v: Value)
    ensures WellPaired(Print(v))
    decreases v, 1
  {
    match v
    case Str(s) => QuotedIsPaired(s);
    case Arr(items) =>
      ItemsArePaired(items);
      Enclosed(OPEN_ARR, PrintItems(items), CLOSE_ARR);
    case Obj(fields) =>
      FieldsArePaired(fields);
      Enclosed(OPEN_OBJ, PrintFields(fields), CLOSE_OBJ);
    case _ => PlainIsPaired(Print(v));
  }

  lemma {:induction false} ItemsArePaired(items: Items)
    ensures WellPaired(PrintItems(items))
    decreases items, 0
  {
    if items.Item? {
      PrintIsPaired(items.head);
      ItemsArePaired(items.rest);
      Separated(Print(items.head), COMMA, PrintItems(items.rest));
    }
  }

  lemma {:induction false} FieldsArePaired(fields: Fields)
    ensures WellPaired(PrintFields(fields))
    decreases fields, 0
  {
    if fields.Field? {
      QuotedIsPaired(fields.key);
      PrintIsPaired(fields.value);
      FieldsArePaired(fields.rest);
      Separated(Quoted(fields.key), COLON, Print(fields.value));
      Separated(Quoted(fields.key) + [COLON] + Print(fields.value), COMMA, PrintFields(fields.rest));
    }
  }

  // ----- what is signed -----

  /** Equal bytes of two canonical texts, with any two domains before them, mean the same domain and the same value. */
  lemma StatementBytes(v: Value, w: Value, name: Text, other: Text)
    requires Proper(v) && Proper(w) && WellPaired(name) && WellPaired(other) && NEWLINE !in name && NEWLINE !in other
    ensures Utf8(name + [NEWLINE] + Canonical(v)) == Utf8(other + [NEWLINE] + Canonical(w)) <==> name == other && Normal(v) == Normal(w)
  {
    hide Print, Normal, Proper;
    var a, b := name + [NEWLINE] + Canonical(v), other + [NEWLINE] + Canonical(w);
    SameTextSameValue(v, w);
    PrintIsPaired(Normal(v));
    PrintIsPaired(Normal(w));
    Separated(name, NEWLINE, Canonical(v));
    Separated(other, NEWLINE, Canonical(w));
    if Utf8(a) == Utf8(b) {
      BytesFixText(a, b);
      SameTextSameDomain(name, other, Canonical(v), Canonical(w));
      assert a[|name| + 1..] == Canonical(v) && b[|name| + 1..] == Canonical(w);
    }
  }

  /** The bytes of a signed envelope stand for one domain, one set of terms and one pair of times. */
  lemma EnvelopeBytes(name: Text, terms: Fields, approvedAt: Text, expiresAt: Text, other: Text, terms': Fields, approvedAt': Text, expiresAt': Text)
    requires ProperFields(terms) && ProperFields(terms')
    requires WellPaired(name) && WellPaired(other) && NEWLINE !in name && NEWLINE !in other
    ensures Utf8(Message(name + [NEWLINE], terms, approvedAt, expiresAt)) == Utf8(Message(other + [NEWLINE], terms', approvedAt', expiresAt')) <==>
      name == other && approvedAt == approvedAt' && expiresAt == expiresAt' && SameLookups(terms, terms')
  {
    hide Print, ProperFields, SameLookups, Envelope;
    var a, b := Print(Envelope(terms, approvedAt, expiresAt)), Print(Envelope(terms', approvedAt', expiresAt'));
    PrintIsPaired(Envelope(terms, approvedAt, expiresAt));
    PrintIsPaired(Envelope(terms', approvedAt', expiresAt'));
    Separated(name, NEWLINE, a);
    Separated(other, NEWLINE, b);
    if Utf8(name + [NEWLINE] + a) == Utf8(other + [NEWLINE] + b) {
      BytesFixText(name + [NEWLINE] + a, other + [NEWLINE] + b);
      SameTextSameDomain(name, other, a, b);
    }
    MessageIsInjective(name + [NEWLINE], terms, approvedAt, expiresAt, terms', approvedAt', expiresAt');
  }
}
