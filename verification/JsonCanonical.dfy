/** Canonical JSON decides equality of values, and a signed envelope says exactly one thing under one domain. */
module JsonCanonical {
  import opened Basics
  import opened Json
  import opened JsonRoundTrip

  // ----- key order -----

  lemma {:induction false} OrderTotal(a: Text, b: Text)
    ensures a == b || Before(a, b) || Before(b, a)
    ensures !(Before(a, b) && Before(b, a)) && !Before(a, a)
    decreases |a|
  {
    if a != [] && b != [] && a[0] == b[0] {
      OrderTotal(a[1..], b[1..]);
      if a[1..] == b[1..] { assert a == [a[0]] + a[1..] && b == [b[0]] + b[1..]; }
    }
    if a != [] { OrderTotal(a[1..], a[1..]); }
  }

  lemma {:induction false} OrderTransitive(a: Text, b: Text, c: Text)
    requires Before(a, b) && Before(b, c)
    ensures Before(a, c)
    decreases |a|
  {
    if a != [] && a[0] == b[0] && b[0] == c[0] { OrderTransitive(a[1..], b[1..], c[1..]); }
  }

  /** Every key comes after this one. */
  predicate AllAfter(key: Text, fields: Fields) {
    match fields
    case NoFields => true
    case Field(k, _, rest) => Before(key, k) && AllAfter(key, rest)
  }

  predicate Sorted(fields: Fields) {
    match fields
    case NoFields => true
    case Field(k, _, rest) => AllAfter(k, rest) && Sorted(rest)
  }

  predicate InForm(v: Value) {
    match v
    case Arr(items) => ItemsInForm(items)
    case Obj(fields) => Sorted(fields) && FieldsInForm(fields)
    case _ => true
  }

  predicate ItemsInForm(items: Items) {
    match items
    case NoItems => true
    case Item(head, rest) => InForm(head) && ItemsInForm(rest)
  }

  predicate FieldsInForm(fields: Fields) {
    match fields
    case NoFields => true
    case Field(_, value, rest) => InForm(value) && FieldsInForm(rest)
  }

  lemma {:induction false} AllAfterFurther(a: Text, b: Text, fields: Fields)
    requires Before(a, b) && AllAfter(b, fields)
    ensures AllAfter(a, fields)
  {
    if fields.Field? {
      OrderTransitive(a, b, fields.key);
      AllAfterFurther(a, b, fields.rest);
    }
  }

  lemma {:induction false} AfterIsNotIn(key: Text, fields: Fields)
    requires AllAfter(key, fields)
    ensures !HasKey(fields, key)
  {
    if fields.Field? {
      OrderTotal(key, fields.key);
      AfterIsNotIn(key, fields.rest);
    }
  }

  lemma {:induction false} AfterInserted(k: Text, key: Text, value: Value, fields: Fields)
    requires AllAfter(k, fields) && Before(k, key)
    ensures AllAfter(k, Insert(key, value, fields))
  {
    if fields.Field? && Before(fields.key, key) { AfterInserted(k, key, value, fields.rest); }
  }

  /** Inserting keeps the order, the keys, the values and their properties. */
  lemma {:induction false} InsertSorts(key: Text, value: Value, fields: Fields)
    requires Sorted(fields) && !HasKey(fields, key)
    ensures Sorted(Insert(key, value, fields))
    ensures FieldsInForm(fields) && InForm(value) ==> FieldsInForm(Insert(key, value, fields))
    ensures ProperFields(fields) && Proper(value) ==> ProperFields(Insert(key, value, fields))
    ensures forall k :: HasKey(Insert(key, value, fields), k) <==> k == key || HasKey(fields, k)
  {
    if fields.Field? {
      OrderTotal(key, fields.key);
      if Before(fields.key, key) {
        InsertSorts(key, value, fields.rest);
        AfterInserted(fields.key, key, value, fields.rest);
      } else {
        AllAfterFurther(key, fields.key, fields.rest);
      }
    }
  }

  lemma {:induction false} NormalInForm(v: Value)
    requires Proper(v)
    ensures InForm(Normal(v)) && Proper(Normal(v))
    decreases v, 1
  {
    match v
    case Arr(items) => NormalItemsInForm(items);
    case Obj(fields) => NormalFieldsInForm(fields);
    case _ =>
  }

  lemma {:induction false} NormalItemsInForm(items: Items)
    requires ProperItems(items)
    ensures ItemsInForm(NormalItems(items)) && ProperItems(NormalItems(items))
    decreases items, 0
  {
    if items.Item? {
      NormalInForm(items.head);
      NormalItemsInForm(items.rest);
    }
  }

  lemma {:induction false} NormalFieldsInForm(fields: Fields)
    requires ProperFields(fields)
    ensures Sorted(NormalFields(fields)) && FieldsInForm(NormalFields(fields)) && ProperFields(NormalFields(fields))
    ensures forall k :: HasKey(NormalFields(fields), k) <==> HasKey(fields, k)
    decreases fields, 0
  {
    if fields.Field? {
      NormalInForm(fields.value);
      NormalFieldsInForm(fields.rest);
      InsertSorts(fields.key, Normal(fields.value), NormalFields(fields.rest));
    }
  }

  lemma {:induction false} NormalOfForm(v: Value)
    requires InForm(v)
    ensures Normal(v) == v
    decreases v, 1
  {
    match v
    case Arr(items) => NormalOfItems(items);
    case Obj(fields) => NormalOfFields(fields);
    case _ =>
  }

  lemma {:induction false} NormalOfItems(items: Items)
    requires ItemsInForm(items)
    ensures NormalItems(items) == items
    decreases items, 0
  {
    if items.Item? {
      NormalOfForm(items.head);
      NormalOfItems(items.rest);
    }
  }

  lemma {:induction false} NormalOfFields(fields: Fields)
    requires Sorted(fields) && FieldsInForm(fields)
    ensures NormalFields(fields) == fields
    decreases fields, 0
  {
    if fields.Field? {
      NormalOfForm(fields.value);
      NormalOfFields(fields.rest);
      if fields.rest.Field? { OrderTotal(fields.key, fields.rest.key); }
    }
  }

  // ----- what canonical text decides -----

  /** Canonicalising twice is canonicalising once, and parsing canonical text gives the value back with its keys in order. */
  lemma CanonicalRoundTrip(v: Value)
    requires Proper(v)
    ensures Parse(Canonical(v)) == Some(Normal(v))
    ensures Normal(Normal(v)) == Normal(v) && Canonical(Normal(v)) == Canonical(v)
  {
    NormalInForm(v);
    ParseUndoesPrint(Normal(v));
    NormalOfForm(Normal(v));
  }

  /** The check made of an arriving statement: printing what was parsed gives the same text again. */
  predicate IsCanonicalText(text: Text) {
    Parse(text).Some? && Canonical(Parse(text).value) == text
  }

  /** The text check accepts exactly one text for each value, whatever order its keys are in. */
  lemma OneTextPerValue(v: Value, text: Text)
    requires Proper(v)
    ensures IsCanonicalText(text) && Normal(Parse(text).value) == Normal(v) <==> text == Canonical(v)
  {
    CanonicalRoundTrip(v);
  }

  lemma SameTextSameValue(v: Value, w: Value)
    requires Proper(v) && Proper(w)
    ensures Canonical(v) == Canonical(w) <==> Normal(v) == Normal(w)
  {
    CanonicalRoundTrip(v);
    CanonicalRoundTrip(w);
  }

  // ----- key order does not matter, everything else does -----

  function Lookup(fields: Fields, key: Text): Option<Value> {
    match fields
    case NoFields => None
    case Field(k, v, rest) => if k == key then Some(v) else Lookup(rest, key)
  }

  lemma {:induction false} LookupInserted(key: Text, value: Value, fields: Fields, k: Text)
    requires !HasKey(fields, key)
    ensures Lookup(Insert(key, value, fields), k) == if k == key then Some(value) else Lookup(fields, k)
  {
    if fields.Field? { LookupInserted(key, value, fields.rest, k); }
  }

  lemma {:induction false} LookupNormal(fields: Fields, k: Text)
    requires ProperFields(fields)
    ensures Lookup(NormalFields(fields), k) == match Lookup(fields, k) { case None => None case Some(v) => Some(Normal(v)) }
  {
    if fields.Field? {
      LookupNormal(fields.rest, k);
      NormalFieldsInForm(fields.rest);
      LookupInserted(fields.key, Normal(fields.value), NormalFields(fields.rest), k);
    }
  }

  lemma {:induction false} LookupHas(fields: Fields, k: Text)
    ensures Lookup(fields, k).Some? <==> HasKey(fields, k)
  {
    if fields.Field? { LookupHas(fields.rest, k); }
  }

  ghost predicate SameLookups(f: Fields, g: Fields) {
    forall k :: Lookup(f, k) == Lookup(g, k)
  }

  lemma EmptyTogether(f: Fields, g: Fields)
    requires SameLookups(f, g)
    ensures f.Field? <==> g.Field?
  {
    if f.Field? { assert Lookup(g, f.key) == Lookup(f, f.key); }
    if g.Field? { assert Lookup(g, g.key) == Lookup(f, g.key); }
  }

  lemma {:induction false} SortedByLookup(f: Fields, g: Fields)
    requires Sorted(f) && Sorted(g) && SameLookups(f, g)
    ensures f == g
  {
    EmptyTogether(f, g);
    if f.Field? {
      FirstKeysAgree(f, g);
      forall k ensures Lookup(f.rest, k) == Lookup(g.rest, k) {
        AfterIsNotIn(f.key, f.rest);
        AfterIsNotIn(g.key, g.rest);
        LookupHas(f.rest, k);
        LookupHas(g.rest, k);
        assert Lookup(f, k) == Lookup(g, k);
      }
      SortedByLookup(f.rest, g.rest);
    }
  }

  lemma FirstKeysAgree(f: Fields, g: Fields)
    requires f.Field? && g.Field? && Sorted(f) && Sorted(g) && SameLookups(f, g)
    ensures f.key == g.key && f.value == g.value
  {
    assert Lookup(f, f.key) == Lookup(g, f.key) && Lookup(f, g.key) == Lookup(g, g.key);
    OrderTotal(f.key, g.key);
    if Before(f.key, g.key) {
      AllAfterFurther(f.key, g.key, g.rest);
      AfterIsNotIn(f.key, g.rest);
      LookupHas(g.rest, f.key);
    } else if Before(g.key, f.key) {
      AllAfterFurther(g.key, f.key, f.rest);
      AfterIsNotIn(g.key, f.rest);
      LookupHas(f.rest, g.key);
    }
  }

  predicate SameValue(a: Option<Value>, b: Option<Value>) {
    if a.Some? && b.Some? then Normal(a.value) == Normal(b.value) else a == b
  }

  ghost predicate SameContent(f: Fields, g: Fields) {
    forall k :: SameValue(Lookup(f, k), Lookup(g, k))
  }

  /** Two objects have one canonical text exactly when they have the same keys, with values of the same canonical text. */
  lemma ObjectsByContent(f: Fields, g: Fields)
    requires ProperFields(f) && ProperFields(g)
    ensures Canonical(Obj(f)) == Canonical(Obj(g)) <==> SameContent(f, g)
  {
    SameTextSameValue(Obj(f), Obj(g));
    NormalFieldsInForm(f);
    NormalFieldsInForm(g);
    if SameContent(f, g) {
      forall k ensures Lookup(NormalFields(f), k) == Lookup(NormalFields(g), k) {
        LookupNormal(f, k);
        LookupNormal(g, k);
        assert SameValue(Lookup(f, k), Lookup(g, k));
      }
      SortedByLookup(NormalFields(f), NormalFields(g));
    }
    if NormalFields(f) == NormalFields(g) {
      forall k ensures SameValue(Lookup(f, k), Lookup(g, k)) {
        LookupNormal(f, k);
        LookupNormal(g, k);
      }
    }
  }

  // ----- what the parser gives -----

  /** Whatever text it is given, the parser gives values with no key twice. */
  lemma {:induction false} ParsedIsProper(text: Text)
    ensures ParseValue(text).Got? ==> Proper(ParseValue(text).value)
    decreases |text|, 1
  {
    var t := SkipSpace(text);
    if t != [] && ParseValue(text).Got? {
      var inside := SkipSpace(t[1..]);
      ParsedItemsProper(inside);
      ParsedFieldsProper(inside);
    }
  }

  lemma {:induction false} ParsedItemsProper(text: Text)
    ensures ParseItems(text).Got? ==> ProperItems(ParseItems(text).value)
    decreases |text|, 2
  {
    ParsedIsProper(text);
    if ParseValue(text).Got? {
      var t := SkipSpace(ParseValue(text).rest);
      if t != [] { ParsedItemsProper(t[1..]); }
    }
  }

  lemma {:induction false} ParsedFieldsProper(text: Text)
    ensures ParseFields(text).Got? ==> ProperFields(ParseFields(text).value)
    decreases |text|, 2
  {
    var t := SkipSpace(text);
    if t != [] && t[0] == QUOTE && ParseChars(t[1..]).Got? {
      var c := SkipSpace(ParseChars(t[1..]).rest);
      if c != [] && c[0] == COLON {
        ParsedIsProper(c[1..]);
        if ParseValue(c[1..]).Got? {
          var d := SkipSpace(ParseValue(c[1..]).rest);
          if d != [] { ParsedFieldsProper(d[1..]); }
        }
      }
    }
  }

  /** The last value a key is given. */
  function Last(fields: Fields, key: Text): Option<Value> {
    match fields
    case NoFields => None
    case Field(k, v, rest) => if Last(rest, key).Some? then Last(rest, key) else if k == key then Some(v) else None
  }

  /** An object's text may give a key several times; what the parser has under a key is the last of them. */
  lemma LaterKeyWins(fields: Fields, key: Text)
    ensures Parse(Print(Obj(fields))) == Some(Obj(DedupedFields(fields)))
    ensures Lookup(DedupedFields(fields), key) == match Last(fields, key) { case None => None case Some(v) => Some(Deduped(v)) }
  {
    ParseKeepsLast(Obj(fields));
    LookupIsLast(fields, key);
  }

  lemma {:induction false} LookupIsLast(fields: Fields, key: Text)
    ensures Lookup(DedupedFields(fields), key) == match Last(fields, key) { case None => None case Some(v) => Some(Deduped(v)) }
  {
    if fields.Field? {
      LookupIsLast(fields.rest, key);
      LookupHas(DedupedFields(fields.rest), key);
    }
  }

  /** The texts the statement check accepts are exactly the canonical texts of values: of all the texts a value can have,
      one, whatever text arrives. */
  lemma CanonicalTexts(text: Text)
    ensures IsCanonicalText(text) <==> exists v :: Proper(v) && text == Canonical(v)
  {
    if IsCanonicalText(text) {
      ParsedIsProper(text);
      assert Proper(Parse(text).value) && text == Canonical(Parse(text).value);
    }
    if v :| Proper(v) && text == Canonical(v) {
      CanonicalRoundTrip(v);
    }
  }

  // ----- signed envelopes -----

  /** Only the top level of the terms is sorted. */
  function SortKeys(terms: Fields): Fields {
    match terms
    case NoFields => NoFields
    case Field(key, value, rest) => Insert(key, value, SortKeys(rest))
  }

  const TERMS: Text := Units("terms")
  const APPROVED_AT: Text := Units("approved_at")
  const EXPIRES_AT: Text := Units("expires_at")

  function Units(s: string): (t: Text)
    requires forall k :: 0 <= k < |s| ==> s[k] < '~'
    ensures |t| == |s| && forall k :: 0 <= k < |s| ==> t[k] == s[k] as nat
  {
    seq(|s|, k requires 0 <= k < |s| => s[k] as nat)
  }

  function Envelope(terms: Fields, approvedAt: Text, expiresAt: Text): Value {
    Obj(Field(TERMS, Obj(SortKeys(terms)), Field(APPROVED_AT, Str(approvedAt), Field(EXPIRES_AT, Str(expiresAt), NoFields))))
  }

  /** A domain is a name without a line break, and a line break. */
  const NEWLINE: Unit := 10

  function Message(domain: Text, terms: Fields, approvedAt: Text, expiresAt: Text): Text {
    domain + Print(Envelope(terms, approvedAt, expiresAt))
  }

  const PAYOUT_DOMAIN: Text := Units("grainlify-payout-approval:v1")
  const GRAINHACK_DOMAIN: Text := Units("grainlify-grainhack-payout-approval:v1")
  const RESULTS_DOMAIN: Text := Units("grainlify-grainhack-results:v1")

  lemma {:induction false} SortKeysProper(terms: Fields)
    requires ProperFields(terms)
    ensures Sorted(SortKeys(terms)) && ProperFields(SortKeys(terms)) && forall k :: HasKey(SortKeys(terms), k) <==> HasKey(terms, k)
  {
    if terms.Field? {
      SortKeysProper(terms.rest);
      InsertSorts(terms.key, terms.value, SortKeys(terms.rest));
    }
  }

  lemma ThreeKeysProper(a: Text, u: Value, b: Text, v: Value, c: Text, w: Value)
    requires a != b && b != c && a != c && Proper(u) && Proper(v) && Proper(w)
    ensures Proper(Obj(Field(a, u, Field(b, v, Field(c, w, NoFields)))))
  {
    assert !HasKey(NoFields, a) && !HasKey(NoFields, b) && !HasKey(NoFields, c);
    var last := Field(c, w, NoFields);
    assert !HasKey(last, a) && !HasKey(last, b) && ProperFields(last);
    assert !HasKey(Field(b, v, last), a) && ProperFields(Field(b, v, last));
  }

  lemma EnvelopeProper(terms: Fields, approvedAt: Text, expiresAt: Text)
    requires ProperFields(terms)
    ensures Proper(Envelope(terms, approvedAt, expiresAt))
  {
    SortKeysProper(terms);
    assert |TERMS| == 5 && |APPROVED_AT| == 11 && |EXPIRES_AT| == 10;
    ThreeKeysProper(TERMS, Obj(SortKeys(terms)), APPROVED_AT, Str(approvedAt), EXPIRES_AT, Str(expiresAt));
  }

  lemma {:induction false} LookupSorted(terms: Fields, k: Text)
    requires ProperFields(terms)
    ensures Lookup(SortKeys(terms), k) == Lookup(terms, k)
  {
    if terms.Field? {
      LookupSorted(terms.rest, k);
      SortKeysProper(terms.rest);
      LookupInserted(terms.key, terms.value, SortKeys(terms.rest), k);
    }
  }

  lemma EnvelopesApart(terms: Fields, approvedAt: Text, expiresAt: Text, terms': Fields, approvedAt': Text, expiresAt': Text)
    requires ProperFields(terms) && ProperFields(terms')
    requires Print(Envelope(terms, approvedAt, expiresAt)) == Print(Envelope(terms', approvedAt', expiresAt'))
    ensures SortKeys(terms) == SortKeys(terms') && approvedAt == approvedAt' && expiresAt == expiresAt'
  {
    EnvelopeProper(terms, approvedAt, expiresAt);
    EnvelopeProper(terms', approvedAt', expiresAt');
    hide Print, Proper, Parse;
    ParseUndoesPrint(Envelope(terms, approvedAt, expiresAt));
    ParseUndoesPrint(Envelope(terms', approvedAt', expiresAt'));
  }

  lemma TermsByContent(terms: Fields, terms': Fields)
    requires ProperFields(terms) && ProperFields(terms')
    ensures SortKeys(terms) == SortKeys(terms') <==> SameLookups(terms, terms')
  {
    SortKeysProper(terms);
    SortKeysProper(terms');
    forall k ensures Lookup(SortKeys(terms), k) == Lookup(terms, k) && Lookup(SortKeys(terms'), k) == Lookup(terms', k) {
      LookupSorted(terms, k);
      LookupSorted(terms', k);
    }
    if SortKeys(terms) == SortKeys(terms') {
      forall k ensures Lookup(terms, k) == Lookup(terms', k) { assert Lookup(SortKeys(terms), k) == Lookup(terms, k); }
    } else if SameLookups(terms, terms') {
      forall k ensures Lookup(SortKeys(terms), k) == Lookup(SortKeys(terms'), k) { assert Lookup(terms, k) == Lookup(terms', k); }
      SortedByLookup(SortKeys(terms), SortKeys(terms'));
    }
  }

  /** One signed message stands for one set of terms, key by key, and one pair of times: in both directions. */
  lemma MessageIsInjective(domain: Text, terms: Fields, approvedAt: Text, expiresAt: Text, terms': Fields, approvedAt': Text, expiresAt': Text)
    requires ProperFields(terms) && ProperFields(terms')
    ensures Message(domain, terms, approvedAt, expiresAt) == Message(domain, terms', approvedAt', expiresAt') <==>
      approvedAt == approvedAt' && expiresAt == expiresAt' && SameLookups(terms, terms')
  {
    var a, b := Print(Envelope(terms, approvedAt, expiresAt)), Print(Envelope(terms', approvedAt', expiresAt'));
    TermsByContent(terms, terms');
    assert (domain + a)[|domain|..] == a && (domain + b)[|domain|..] == b;
    if a == b { EnvelopesApart(terms, approvedAt, expiresAt, terms', approvedAt', expiresAt'); }
    hide Print, Lookup, SortKeys;
  }

  function FirstBreak(t: Text): nat {
    if t == [] || t[0] == NEWLINE then 0 else 1 + FirstBreak(t[1..])
  }

  lemma {:induction false} BreakAfterName(name: Text, x: Text)
    requires NEWLINE !in name
    ensures FirstBreak(name + [NEWLINE] + x) == |name|
  {
    var t := name + [NEWLINE] + x;
    if name != [] {
      assert t[1..] == name[1..] + [NEWLINE] + x;
      BreakAfterName(name[1..], x);
    }
  }

  /** Whatever follows them, texts under two different domains never coincide. */
  lemma SameTextSameDomain(name: Text, other: Text, x: Text, y: Text)
    requires NEWLINE !in name && NEWLINE !in other && name + [NEWLINE] + x == other + [NEWLINE] + y
    ensures name == other
  {
    BreakAfterName(name, x);
    BreakAfterName(other, y);
    assert name == (name + [NEWLINE] + x)[..|name|] && other == (other + [NEWLINE] + y)[..|other|];
  }

  /** The three domains of the payout services are three such names. */
  lemma TheDomains()
    ensures NEWLINE !in PAYOUT_DOMAIN && NEWLINE !in GRAINHACK_DOMAIN && NEWLINE !in RESULTS_DOMAIN
    ensures PAYOUT_DOMAIN != GRAINHACK_DOMAIN && GRAINHACK_DOMAIN != RESULTS_DOMAIN && PAYOUT_DOMAIN != RESULTS_DOMAIN
  {
    assert |PAYOUT_DOMAIN| == 28 && |GRAINHACK_DOMAIN| == 38 && |RESULTS_DOMAIN| == 30;
  }
}
