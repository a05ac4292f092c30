/**
 * The agent's calls, its ledger, the signer, its journal and the chain, as one machine. Calls interleave at every
 * await, either process can stop anywhere, and replies can be lost.
 */
module InferenceRun {
  import opened Basics
  import opened InferenceBudget
  import Signer = InferenceSigner

  /** What one call asks the signer to pay: the quoted cap. */
  datatype Order = Order(quote: Quote, phase: Phase, amount: nat)

  /** The agent's side of a call. */
  datatype Client = Quoted(order: Order) | Holding(order: Order, entry: nat) | Waiting(order: Order, entry: nat)

  /** The signer's side. */
  datatype Pay = Arrived(order: Order) | Preparing(id: nat) | Broadcasting(id: nat) | Answered(quote: Quote, answer: Signer.Answer)

  /** `landed`: the journal rows whose transfer executed, and the fee it paid. `quotes`: every quote id a call has used. */
  datatype World = World(
    entries: seq<Spend>, rows: seq<Signer.Payment>, landed: map<nat, nat>, quotes: set<Quote>,
    clients: map<nat, Client>, pays: map<nat, Pay>)

  const Start: World := World([], [], map[], {}, map[], map[])

  datatype Step =
    | GetQuote(call: nat, order: Order)
    | Reserve(call: nat, ceiling: nat)
    | Post(call: nat)
    /** The signer's checks and its own reservation: no await between them. */
    | Check(call: nat, wellFormed: bool, ceiling: nat, maxPerCall: nat)
    | Prepared(call: nat, ok: bool)
    | Land(row: nat, lamports: nat)
    | BroadcastReturns(call: nat)
    | BroadcastThrows(call: nat)
    | Reply(call: nat)
    | LoseReply(call: nat)
    | SignerStops(call: nat)

  /** What both sides reserve for the fee. They use the same price. */
  function FeeReserve(price: real): nat
    requires 0.0 <= price
  {
    Signer.LamportsToMicroCeil(Signer.FEE_RESERVE_LAMPORTS, price)
  }

  function Answering(w: World, c: nat, quote: Quote, a: Signer.Answer): World {
    w.(pays := w.pays[c := Answered(quote, a)])
  }

  /** The client files what it was told: a refusal releases, a payment settles, anything else stays counted. */
  function Filed(entries: seq<Spend>, entry: nat, a: Signer.Answer): seq<Spend> {
    if entry >= |entries| || !entries[entry].status.Reserved? then entries
    else
      match a
      case Refused(_) => entries[entry := entries[entry].(status := Released)]
      case Paid(amount, fee) => entries[entry := entries[entry].(status := Settled(amount, fee))]
      case Uncertain => entries
  }

  function Checking(w: World, c: nat, price: real, o: Order, wellFormed: bool, ceiling: nat, maxPerCall: nat): World
    requires 0.0 <= price
  {
    if !wellFormed || o.amount == 0 then Answering(w, c, o.quote, Signer.Refused(400))
    else if maxPerCall < o.amount then Answering(w, c, o.quote, Signer.Refused(403))
    else
      var cap := Min(ceiling, HARD_LIFETIME_CEILING);
      match Signer.ReserveResult(w.rows, o.quote, o.amount, FeeReserve(price), cap)
      case Existing(id) =>
        if w.rows[id].status == Signer.Confirmed
          then Answering(w, c, o.quote, Signer.Paid(w.rows[id].amount, if w.rows[id].fee.Some? then w.rows[id].fee.value else 0))
          else Answering(w, c, o.quote, Signer.Refused(409))
      case OverCeiling => Answering(w, c, o.quote, Signer.Refused(403))
      case Inserted(id) => w.(rows := Signer.AfterReserve(w.rows, o.quote, o.amount, FeeReserve(price), cap), pays := w.pays[c := Preparing(id)])
  }

  function Do(w: World, price: real, s: Step): World
    requires 0.0 <= price
  {
    match s
    case GetQuote(c, o) =>
      if c in w.clients || c in w.pays || o.quote in w.quotes then w
      else w.(clients := w.clients[c := Quoted(o)], quotes := w.quotes + {o.quote})
    case Reserve(c, ceiling) =>
      if c !in w.clients || !w.clients[c].Quoted? then w
      else
        var o := w.clients[c].order;
        var after := AfterReserve(w.entries, ceiling, o.quote, o.phase, o.amount + FeeReserve(price));
        if after == w.entries then w.(clients := w.clients - {c})
        else w.(entries := after, clients := w.clients[c := Holding(o, |w.entries|)])
    case Post(c) =>
      if c in w.clients && w.clients[c].Holding? && c !in w.pays
        then w.(clients := w.clients[c := Waiting(w.clients[c].order, w.clients[c].entry)], pays := w.pays[c := Arrived(w.clients[c].order)])
        else w
    case Check(c, wellFormed, ceiling, maxPerCall) =>
      if c in w.pays && w.pays[c].Arrived? then Checking(w, c, price, w.pays[c].order, wellFormed, ceiling, maxPerCall) else w
    case Prepared(c, ok) =>
      if c !in w.pays || !w.pays[c].Preparing? || w.pays[c].id >= |w.rows| || w.rows[w.pays[c].id].status != Signer.Reserved then w
      else
        var id := w.pays[c].id;
        if ok then w.(rows := w.rows[id := w.rows[id].(status := Signer.Sent)], pays := w.pays[c := Broadcasting(id)])
        else Answering(w.(rows := w.rows[id := w.rows[id].(status := Signer.FailedUnsent)]), c, w.rows[id].quote, Signer.Refused(422))
    case Land(id, lamports) =>
      if id < |w.rows| && w.rows[id].status == Signer.Sent && id !in w.landed && lamports <= Signer.FEE_RESERVE_LAMPORTS
        then w.(landed := w.landed[id := lamports])
        else w
    case BroadcastReturns(c) =>
      if c in w.pays && w.pays[c].Broadcasting? && w.pays[c].id < |w.rows| && w.pays[c].id in w.landed && w.rows[w.pays[c].id].status == Signer.Sent
        then
          var id := w.pays[c].id;
          var fee := Signer.LamportsToMicroCeil(w.landed[id], price);
          Answering(w.(rows := w.rows[id := w.rows[id].(status := Signer.Confirmed, fee := Some(fee))]), c, w.rows[id].quote, Signer.Paid(w.rows[id].amount, fee))
        else w
    case BroadcastThrows(c) =>
      if c in w.pays && w.pays[c].Broadcasting? && w.pays[c].id < |w.rows| then Answering(w, c, w.rows[w.pays[c].id].quote, Signer.Uncertain) else w
    case Reply(c) =>
      if c in w.clients && w.clients[c].Waiting? && c in w.pays && w.pays[c].Answered?
        then w.(entries := Filed(w.entries, w.clients[c].entry, w.pays[c].answer), clients := w.clients - {c}, pays := w.pays - {c})
        else w
    /** A dropped connection, a stopped agent, or a reply that never came: the reservation stays. */
    case LoseReply(c) => w.(clients := w.clients - {c})
    case SignerStops(c) => w.(pays := w.pays - {c})
  }

  function Exec(price: real, steps: seq<Step>): World
    requires 0.0 <= price
  {
    if steps == [] then Start else Do(Exec(price, steps[..|steps| - 1]), price, steps[|steps| - 1])
  }

  // ----- the invariant -----

  ghost predicate EntriesDiffer(entries: seq<Spend>) {
    forall i, j :: 0 <= i < |entries| && 0 <= j < |entries| && i != j ==> entries[i].quote != entries[j].quote
  }

  ghost predicate NoEntry(entries: seq<Spend>, q: Quote) {
    forall i :: 0 <= i < |entries| ==> entries[i].quote != q
  }

  ghost predicate NoRow(rows: seq<Signer.Payment>, q: Quote) {
    forall i :: 0 <= i < |rows| ==> rows[i].quote != q
  }

  /** The agent's entry counts at least what the signer's row counts, and reserved for the most it can. */
  ghost predicate Covers(e: Spend, p: Signer.Payment) {
    e.quote == p.quote && Signer.Counts(p) <= Committed(e) && p.amount + p.feeReserve <= e.reserved
  }

  ghost predicate Covered(entries: seq<Spend>, p: Signer.Payment) {
    exists i :: 0 <= i < |entries| && Covers(entries[i], p)
  }

  ghost predicate OpenEntry(entries: seq<Spend>, e: nat, o: Order, price: real)
    requires 0.0 <= price
  {
    e < |entries| && entries[e] == Spend(o.quote, o.phase, o.amount + FeeReserve(price), Reserved)
  }

  ghost predicate TablesSound(w: World) {
    && EntriesDiffer(w.entries) && Signer.QuotesDiffer(w.rows)
    && (forall i :: 0 <= i < |w.entries| ==> w.entries[i].quote in w.quotes)
    && WithinBudget(w.entries) && Signer.Committed(w.rows) <= HARD_LIFETIME_CEILING
    && (forall i :: i in w.landed ==> i < |w.rows|)
  }

  ghost predicate RowSound(w: World, price: real, i: nat)
    requires 0.0 <= price && i < |w.rows|
  {
    var p := w.rows[i];
    && Covered(w.entries, p) && 0 < p.amount && p.feeReserve == FeeReserve(price)
    && (i in w.landed ==> w.landed[i] <= Signer.FEE_RESERVE_LAMPORTS && (p.status == Signer.Sent || p.status == Signer.Confirmed))
    && (p.status == Signer.Confirmed ==> i in w.landed && p.fee == Some(Signer.LamportsToMicroCeil(w.landed[i], price)))
  }

  ghost predicate RowsSound(w: World, price: real)
    requires 0.0 <= price
  {
    forall i :: 0 <= i < |w.rows| ==> RowSound(w, price, i)
  }

  /** A call whose entry is still open reserved for exactly its order; before that, its quote is in no table. */
  ghost predicate ClientSound(w: World, price: real, k: Client)
    requires 0.0 <= price
  {
    k.order.quote in w.quotes &&
    match k
    case Quoted(o) => NoEntry(w.entries, o.quote) && NoRow(w.rows, o.quote)
    case Holding(o, e) => OpenEntry(w.entries, e, o, price) && NoRow(w.rows, o.quote)
    case Waiting(o, e) => OpenEntry(w.entries, e, o, price)
  }

  ghost predicate ClientsSound(w: World, price: real)
    requires 0.0 <= price
  {
    && (forall c :: c in w.clients ==> ClientSound(w, price, w.clients[c]))
    && (forall c, d :: c in w.clients && d in w.clients && c != d ==> w.clients[c].order.quote != w.clients[d].order.quote)
  }

  /** The quote a call at the signer is about. */
  function QuoteOf(rows: seq<Signer.Payment>, k: Pay): Quote {
    match k
    case Arrived(o) => o.quote
    case Preparing(id) => if id < |rows| then rows[id].quote else Quote(0)
    case Broadcasting(id) => if id < |rows| then rows[id].quote else Quote(0)
    case Answered(quote, _) => quote
  }

  ghost predicate AnswerSound(rows: seq<Signer.Payment>, q: Quote, a: Signer.Answer) {
    && (a.Refused? ==> forall i :: 0 <= i < |rows| && rows[i].quote == q ==> Signer.Counts(rows[i]) == 0)
    && (a.Paid? ==> exists i :: 0 <= i < |rows| && rows[i].quote == q && rows[i].status == Signer.Confirmed && rows[i].amount == a.amount && rows[i].fee == Some(a.fee))
  }

  ghost predicate PaySound(w: World, price: real, k: Pay)
    requires 0.0 <= price
  {
    match k
    case Arrived(o) => o.quote in w.quotes && NoRow(w.rows, o.quote) && exists e: nat :: OpenEntry(w.entries, e, o, price)
    case Preparing(id) => id < |w.rows| && w.rows[id].status == Signer.Reserved
    case Broadcasting(id) => id < |w.rows| && w.rows[id].status == Signer.Sent
    case Answered(q, a) => q in w.quotes && AnswerSound(w.rows, q, a)
  }

  ghost predicate PaysSound(w: World, price: real)
    requires 0.0 <= price
  {
    && (forall c :: c in w.pays ==> PaySound(w, price, w.pays[c]))
    && (forall c, d :: c in w.pays && d in w.pays && c != d ==> QuoteOf(w.rows, w.pays[c]) != QuoteOf(w.rows, w.pays[d]))
  }

  /** A call's two sides are about one quote, and no other call's is. */
  ghost predicate Paired(w: World) {
    forall c, d :: c in w.pays && d in w.clients ==>
      if c == d then w.clients[d].Waiting? && QuoteOf(w.rows, w.pays[c]) == w.clients[d].order.quote
      else QuoteOf(w.rows, w.pays[c]) != w.clients[d].order.quote
  }

  ghost predicate Inv(w: World, price: real)
    requires 0.0 <= price
  {
    TablesSound(w) && RowsSound(w, price) && ClientsSound(w, price) && PaysSound(w, price) && Paired(w)
  }

  // ----- reading it -----

  lemma RowQuoteUsed(w: World, price: real, i: nat)
    requires 0.0 <= price && TablesSound(w) && RowsSound(w, price) && i < |w.rows|
    ensures w.rows[i].quote in w.quotes
  {
    assert RowSound(w, price, i);
    var e :| 0 <= e < |w.entries| && Covers(w.entries[e], w.rows[i]);
    assert w.entries[e].quote in w.quotes;
  }

  lemma PayQuoteUsed(w: World, price: real, c: nat)
    requires 0.0 <= price && Inv(w, price) && c in w.pays
    ensures QuoteOf(w.rows, w.pays[c]) in w.quotes
  {
    hide ClientsSound, Paired, RowsSound, TablesSound;
    assert PaySound(w, price, w.pays[c]);
    if w.pays[c].Preparing? || w.pays[c].Broadcasting? { RowQuoteUsed(w, price, w.pays[c].id); }
  }

  lemma CoveredBy(entries: seq<Spend>, p: Signer.Payment, e: nat)
    requires EntriesDiffer(entries) && Covered(entries, p) && e < |entries| && entries[e].quote == p.quote
    ensures Covers(entries[e], p)
  {
    var i :| 0 <= i < |entries| && Covers(entries[i], p);
    if i != e { assert entries[i].quote != entries[e].quote; }
  }

  // ----- the agent's steps -----

  lemma QuoteKeepsInv(w: World, price: real, c: nat, o: Order)
    requires 0.0 <= price && Inv(w, price)
    ensures Inv(Do(w, price, GetQuote(c, o)), price)
  {
    if c !in w.clients && c !in w.pays && o.quote !in w.quotes {
      var w' := Do(w, price, GetQuote(c, o));
      forall i | 0 <= i < |w.rows| ensures w.rows[i].quote != o.quote { RowQuoteUsed(w, price, i); }
      forall d | d in w.pays ensures QuoteOf(w.rows, w.pays[d]) != o.quote { PayQuoteUsed(w, price, d); }
      assert RowsSound(w', price) by { forall i | 0 <= i < |w.rows| ensures RowSound(w', price, i) { assert RowSound(w, price, i); } }
      assert ClientsSound(w', price) by {
        hide RowsSound, PaysSound, Paired;
        forall d | d in w'.clients ensures ClientSound(w', price, w'.clients[d]) { if d != c { assert ClientSound(w, price, w.clients[d]); } }
      }
      assert PaysSound(w', price) by {
        hide RowsSound, ClientsSound, Paired;
        forall d | d in w.pays ensures PaySound(w', price, w.pays[d]) { assert PaySound(w, price, w.pays[d]); }
      }
    }
  }

  lemma EntryAdded(w: World, w': World, price: real, c: nat, e: Spend)
    requires 0.0 <= price && Inv(w, price) && c in w.clients && w.clients[c].Quoted?
    requires e == Spend(w.clients[c].order.quote, w.clients[c].order.phase, w.clients[c].order.amount + FeeReserve(price), Reserved)
    requires w' == w.(entries := w.entries + [e], clients := w.clients[c := Holding(w.clients[c].order, |w.entries|)])
    requires WithinBudget(w'.entries)
    ensures Inv(w', price)
  {
    hide RowSound, PaySound, RowsSound, PaysSound;
    EntryAddedTables(w, w', price, c, e);
    EntryAddedRows(w, w', price, e);
    EntryAddedPays(w, w', price, e);
    EntryAddedClients(w, w', price, c, e);
    hide TablesSound, ClientsSound, ClientSound;
  }

  lemma EntryAddedTables(w: World, w': World, price: real, c: nat, e: Spend)
    requires 0.0 <= price && TablesSound(w) && ClientsSound(w, price) && c in w.clients && w.clients[c].Quoted? && e.quote == w.clients[c].order.quote
    requires w' == w.(entries := w.entries + [e], clients := w'.clients) && WithinBudget(w'.entries)
    ensures TablesSound(w')
  {
    assert ClientSound(w, price, w.clients[c]);
    hide ClientsSound, WithinBudget, Signer.Committed;
  }

  lemma EntryAddedRows(w: World, w': World, price: real, e: Spend)
    requires 0.0 <= price && RowsSound(w, price) && w' == w.(entries := w.entries + [e], clients := w'.clients)
    ensures RowsSound(w', price)
  {
    forall i | 0 <= i < |w.rows| ensures RowSound(w', price, i) {
      assert RowSound(w, price, i);
      var k :| 0 <= k < |w.entries| && Covers(w.entries[k], w.rows[i]);
      assert Covers(w'.entries[k], w.rows[i]);
    }
  }

  lemma EntryAddedPays(w: World, w': World, price: real, e: Spend)
    requires 0.0 <= price && PaysSound(w, price) && w' == w.(entries := w.entries + [e], clients := w'.clients)
    ensures PaysSound(w', price)
  {
    forall d | d in w.pays ensures PaySound(w', price, w.pays[d]) {
      assert PaySound(w, price, w.pays[d]);
      if w.pays[d].Arrived? {
        var k: nat :| OpenEntry(w.entries, k, w.pays[d].order, price);
        assert OpenEntry(w'.entries, k, w.pays[d].order, price);
      }
    }
  }

  lemma EntryAddedClients(w: World, w': World, price: real, c: nat, e: Spend)
    requires 0.0 <= price && ClientsSound(w, price) && c in w.clients && w.clients[c].Quoted?
    requires e == Spend(w.clients[c].order.quote, w.clients[c].order.phase, w.clients[c].order.amount + FeeReserve(price), Reserved)
    requires w' == w.(entries := w.entries + [e], clients := w.clients[c := Holding(w.clients[c].order, |w.entries|)])
    ensures ClientsSound(w', price)
  {
    hide FeeReserve;
    forall d | d in w'.clients ensures ClientSound(w', price, w'.clients[d]) { assert ClientSound(w, price, w.clients[d]); }
  }

  lemma FewerCalls(w: World, w': World, price: real, c: nat)
    requires 0.0 <= price && Inv(w, price)
    requires w' == w.(clients := w'.clients, pays := w'.pays)
    requires w'.clients == w.clients || w'.clients == w.clients - {c}
    requires w'.pays == w.pays || w'.pays == w.pays - {c}
    ensures Inv(w', price)
  {
    assert TablesSound(w') by { hide RowsSound, ClientsSound, PaysSound, Paired; }
    assert RowsSound(w', price) by { forall i | 0 <= i < |w.rows| ensures RowSound(w', price, i) { assert RowSound(w, price, i); } }
    assert ClientsSound(w', price) by {
      hide RowsSound, PaysSound, Paired, TablesSound;
      forall d | d in w'.clients ensures ClientSound(w', price, w'.clients[d]) { assert ClientSound(w, price, w.clients[d]); }
    }
    assert PaysSound(w', price) by {
      hide RowsSound, ClientsSound, Paired, TablesSound;
      forall d | d in w'.pays ensures PaySound(w', price, w'.pays[d]) { assert PaySound(w, price, w.pays[d]); }
    }
    assert Paired(w') by { hide RowsSound, TablesSound, ClientsSound, PaysSound; }
  }

  lemma ReserveKeepsInv(w: World, price: real, c: nat, ceiling: nat)
    requires 0.0 <= price && Inv(w, price)
    ensures Inv(Do(w, price, Reserve(c, ceiling)), price)
  {
    if c in w.clients && w.clients[c].Quoted? {
      var o := w.clients[c].order;
      var after := AfterReserve(w.entries, ceiling, o.quote, o.phase, o.amount + FeeReserve(price));
      assert WithinBudget(after) by { hide RowsSound, ClientsSound, PaysSound, Paired; ReserveKeepsBudget(w.entries, ceiling, o.quote, o.phase, o.amount + FeeReserve(price)); }
      hide Inv;
      if after == w.entries {
        FewerCalls(w, Do(w, price, Reserve(c, ceiling)), price, c);
      } else {
        EntryAdded(w, Do(w, price, Reserve(c, ceiling)), price, c, Spend(o.quote, o.phase, o.amount + FeeReserve(price), Reserved));
      }
    }
  }

  lemma PostKeepsInv(w: World, price: real, c: nat)
    requires 0.0 <= price && Inv(w, price)
    ensures Inv(Do(w, price, Post(c)), price)
  {
    if c in w.clients && w.clients[c].Holding? && c !in w.pays {
      var w' := Do(w, price, Post(c));
      assert w' == w.(clients := w.clients[c := Waiting(w.clients[c].order, w.clients[c].entry)], pays := w.pays[c := Arrived(w.clients[c].order)]);
      hide Do, RowSound, PaySound;
      PostedRows(w, w', price);
      PostedClients(w, w', price, c);
      PostedPays(w, w', price, c);
      PostedPaired(w, w', c);
      hide TablesSound, Paired, RowsSound, ClientsSound, PaysSound;
      assert TablesSound(w') by { PostedTables(w, w'); }
    }
  }

  lemma PostedTables(w: World, w': World)
    requires TablesSound(w) && w' == w.(clients := w'.clients, pays := w'.pays)
    ensures TablesSound(w')
  {
  }

  lemma PostedPaired(w: World, w': World, c: nat)
    requires Paired(w) && c in w.clients && w.clients[c].Holding? && c !in w.pays && forall d, e :: d in w.clients && e in w.clients && d != e ==> w.clients[d].order.quote != w.clients[e].order.quote
    requires w' == w.(clients := w.clients[c := Waiting(w.clients[c].order, w.clients[c].entry)], pays := w.pays[c := Arrived(w.clients[c].order)])
    ensures Paired(w')
  {
  }

  lemma PostedRows(w: World, w': World, price: real)
    requires 0.0 <= price && RowsSound(w, price) && w' == w.(clients := w'.clients, pays := w'.pays)
    ensures RowsSound(w', price)
  {
    forall i | 0 <= i < |w.rows| ensures RowSound(w', price, i) { assert RowSound(w, price, i); }
  }

  lemma PostedClients(w: World, w': World, price: real, c: nat)
    requires 0.0 <= price && ClientsSound(w, price) && c in w.clients && w.clients[c].Holding?
    requires w' == w.(clients := w.clients[c := Waiting(w.clients[c].order, w.clients[c].entry)], pays := w'.pays)
    ensures ClientsSound(w', price)
  {
    hide OpenEntry, NoRow, NoEntry;
    forall d | d in w'.clients ensures ClientSound(w', price, w'.clients[d]) { assert ClientSound(w, price, w.clients[d]); }
  }

  lemma PostedPays(w: World, w': World, price: real, c: nat)
    requires 0.0 <= price && PaysSound(w, price) && Paired(w) && ClientsSound(w, price) && c in w.clients && w.clients[c].Holding? && c !in w.pays
    requires w' == w.(clients := w'.clients, pays := w.pays[c := Arrived(w.clients[c].order)])
    ensures PaysSound(w', price)
  {
    assert ClientSound(w, price, w.clients[c]);
    assert OpenEntry(w.entries, w.clients[c].entry, w.clients[c].order, price);
    hide ClientsSound, NoRow, OpenEntry, AnswerSound;
    forall d | d in w'.pays ensures PaySound(w', price, w'.pays[d]) { if d != c { assert PaySound(w, price, w.pays[d]); } }
  }

  // ----- the signer's steps -----

  /** A call at the signer moved on, about the same quote; no table changed. */
  lemma PayMoved(w: World, price: real, c: nat, next: Pay)
    requires 0.0 <= price && Inv(w, price) && c in w.pays && QuoteOf(w.rows, next) == QuoteOf(w.rows, w.pays[c])
    requires PaySound(w, price, next)
    ensures Inv(w.(pays := w.pays[c := next]), price)
  {
    var w' := w.(pays := w.pays[c := next]);
    assert TablesSound(w') by { hide RowsSound, ClientsSound, PaysSound, Paired; }
    assert RowsSound(w', price) by { hide PaysSound, ClientsSound, Paired, TablesSound; forall i | 0 <= i < |w.rows| ensures RowSound(w', price, i) { assert RowSound(w, price, i); } }
    assert ClientsSound(w', price) by {
      hide RowsSound, PaysSound, Paired, TablesSound;
      forall d | d in w.clients ensures ClientSound(w', price, w.clients[d]) { assert ClientSound(w, price, w.clients[d]); }
    }
    assert PaysSound(w', price) by {
      hide RowsSound, ClientsSound, Paired, TablesSound;
      forall d | d in w'.pays ensures PaySound(w', price, w'.pays[d]) { if d != c { assert PaySound(w, price, w.pays[d]); } }
    }
    assert Paired(w') by { hide RowsSound, TablesSound, ClientsSound, PaysSound; }
  }

  /** The signer reserves for a call: a row the agent's open entry covers. */
  lemma RowAdded(w: World, price: real, c: nat, o: Order)
    requires 0.0 <= price && Inv(w, price) && c in w.pays && w.pays[c] == Arrived(o)
    requires 0 < o.amount && Signer.Committed(w.rows) + o.amount + FeeReserve(price) <= HARD_LIFETIME_CEILING
    ensures
      var p := Signer.Payment(o.quote, o.amount, FeeReserve(price), None, Signer.Reserved);
      Inv(w.(rows := w.rows + [p], pays := w.pays[c := Preparing(|w.rows|)]), price)
  {
    var p := Signer.Payment(o.quote, o.amount, FeeReserve(price), None, Signer.Reserved);
    var w' := w.(rows := w.rows + [p], pays := w.pays[c := Preparing(|w.rows|)]);
    assert PaySound(w, price, w.pays[c]);
    var e: nat :| OpenEntry(w.entries, e, o, price);
    assert TablesSound(w') by {
      hide RowsSound, ClientsSound, PaysSound, Paired;
      assert w'.rows[..|w.rows|] == w.rows;
    }
    RowAddedRows(w, w', price, p, e);
    RowAddedClients(w, w', price, c, p);
    hide RowsSound, TablesSound, ClientsSound;
    RowAddedPays(w, price, c, o, p);
    assert Paired(w') by { PayQuotesStay(w, price, p); }
  }

  lemma RowAddedRows(w: World, w': World, price: real, p: Signer.Payment, e: nat)
    requires 0.0 <= price && RowsSound(w, price) && w' == w.(rows := w.rows + [p], pays := w'.pays) && TablesSound(w)
    requires e < |w.entries| && Covers(w.entries[e], p) && 0 < p.amount && p.feeReserve == FeeReserve(price) && p.status == Signer.Reserved
    ensures RowsSound(w', price)
  {
    assert |w.rows| !in w.landed;
    hide TablesSound;
    forall i | 0 <= i < |w'.rows| ensures RowSound(w', price, i) { if i < |w.rows| { assert RowSound(w, price, i); } }
  }

  lemma RowAddedClients(w: World, w': World, price: real, c: nat, p: Signer.Payment)
    requires 0.0 <= price && Inv(w, price) && w' == w.(rows := w.rows + [p], pays := w'.pays)
    requires c in w.pays && w.pays[c].Arrived? && w.pays[c].order.quote == p.quote
    ensures ClientsSound(w', price)
  {
    hide RowsSound, PaysSound, TablesSound;
    forall d | d in w.clients ensures ClientSound(w', price, w.clients[d]) { assert ClientSound(w, price, w.clients[d]); }
  }

  lemma PayQuotesStay(w: World, price: real, p: Signer.Payment)
    requires 0.0 <= price && PaysSound(w, price)
    ensures forall d :: d in w.pays ==> QuoteOf(w.rows + [p], w.pays[d]) == QuoteOf(w.rows, w.pays[d])
  {
    forall d | d in w.pays ensures QuoteOf(w.rows + [p], w.pays[d]) == QuoteOf(w.rows, w.pays[d]) { assert PaySound(w, price, w.pays[d]); }
  }

  lemma RowAddedPays(w: World, price: real, c: nat, o: Order, p: Signer.Payment)
    requires 0.0 <= price && PaysSound(w, price) && c in w.pays && w.pays[c] == Arrived(o) && p.quote == o.quote
    requires p.status == Signer.Reserved
    ensures PaysSound(w.(rows := w.rows + [p], pays := w.pays[c := Preparing(|w.rows|)]), price)
  {
    var w' := w.(rows := w.rows + [p], pays := w.pays[c := Preparing(|w.rows|)]);
    PayQuotesStay(w, price, p);
    forall d | d in w'.pays ensures PaySound(w', price, w'.pays[d]) {
      if d != c {
        assert PaySound(w, price, w.pays[d]);
        if w.pays[d].Answered? { AnswerOutlivesRow(w.rows, p, w.pays[d].quote, w.pays[d].answer); }
      }
    }
  }

  lemma AnswerOutlivesRow(rows: seq<Signer.Payment>, p: Signer.Payment, q: Quote, a: Signer.Answer)
    requires AnswerSound(rows, q, a) && p.quote != q
    ensures AnswerSound(rows + [p], q, a)
  {
    if a.Paid? {
      var i :| 0 <= i < |rows| && rows[i].quote == q && rows[i].status == Signer.Confirmed && rows[i].amount == a.amount && rows[i].fee == Some(a.fee);
      assert (rows + [p])[i] == rows[i];
    }
  }

  lemma CheckKeepsInv(w: World, price: real, c: nat, wellFormed: bool, ceiling: nat, maxPerCall: nat)
    requires 0.0 <= price && Inv(w, price)
    ensures Inv(Do(w, price, Check(c, wellFormed, ceiling, maxPerCall)), price)
  {
    if c in w.pays && w.pays[c].Arrived? {
      var o := w.pays[c].order;
      hide Inv, Signer.LamportsToMicroCeil, Signer.Committed, Signer.ByQuote, PaySound;
      var w' := Do(w, price, Check(c, wellFormed, ceiling, maxPerCall));
      if w'.rows != w.rows {
        RowAdded(w, price, c, o);
      } else {
        PayMoved(w, price, c, w'.pays[c]);
      }
    }
  }

  /** A row changed status, and counts for no more than it did. */
  ghost predicate RowMay(w: World, price: real, id: nat, p: Signer.Payment)
    requires 0.0 <= price
  {
    && id < |w.rows| && (w.rows[id].status == Signer.Reserved || w.rows[id].status == Signer.Sent)
    && p == w.rows[id].(status := p.status, fee := p.fee) && Signer.Counts(p) <= Signer.Counts(w.rows[id])
    && RowSound(w.(rows := w.rows[id := p]), price, id)
  }

  lemma RowChanged(w: World, price: real, c: nat, id: nat, p: Signer.Payment, next: Pay)
    requires 0.0 <= price && Inv(w, price) && RowMay(w, price, id, p)
    requires c in w.pays && (w.pays[c] == Preparing(id) || w.pays[c] == Broadcasting(id))
    requires QuoteOf(w.rows[id := p], next) == p.quote && PaySound(w.(rows := w.rows[id := p]), price, next)
    ensures Inv(w.(rows := w.rows[id := p], pays := w.pays[c := next]), price)
  {
    var w' := w.(rows := w.rows[id := p], pays := w.pays[c := next]);
    assert TablesSound(w') by {
      hide RowsSound, ClientsSound, PaysSound, Paired;
      Signer.CommittedChanged(w.rows, id, p);
    }
    RowChangedRows(w, w', price, id, p);
    RowChangedClients(w, w', price, id, p);
    RowChangedPays(w, price, c, id, p, next);
    hide RowsSound, TablesSound, ClientsSound, PaysSound, RowMay;
    SameQuotes(w.rows, id, p);
  }

  lemma RowChangedRows(w: World, w': World, price: real, id: nat, p: Signer.Payment)
    requires 0.0 <= price && RowsSound(w, price) && RowMay(w, price, id, p) && w' == w.(rows := w.rows[id := p], pays := w'.pays)
    ensures RowsSound(w', price)
  {
    assert RowSound(w.(rows := w.rows[id := p]), price, id);
    forall i | 0 <= i < |w'.rows| ensures RowSound(w', price, i) { assert RowSound(w, price, i); }
  }

  lemma RowChangedClients(w: World, w': World, price: real, id: nat, p: Signer.Payment)
    requires 0.0 <= price && ClientsSound(w, price) && id < |w.rows| && p.quote == w.rows[id].quote && w' == w.(rows := w.rows[id := p], pays := w'.pays)
    ensures ClientsSound(w', price)
  {
    hide OpenEntry, NoEntry;
    forall d | d in w.clients ensures ClientSound(w', price, w.clients[d]) { assert ClientSound(w, price, w.clients[d]); }
  }

  lemma SameQuotes(rows: seq<Signer.Payment>, id: nat, p: Signer.Payment)
    requires id < |rows| && p.quote == rows[id].quote
    ensures forall k :: QuoteOf(rows[id := p], k) == QuoteOf(rows, k)
  {
  }

  lemma RowChangedPays(w: World, price: real, c: nat, id: nat, p: Signer.Payment, next: Pay)
    requires 0.0 <= price && PaysSound(w, price) && RowMay(w, price, id, p)
    requires c in w.pays && (w.pays[c] == Preparing(id) || w.pays[c] == Broadcasting(id))
    requires QuoteOf(w.rows[id := p], next) == p.quote && PaySound(w.(rows := w.rows[id := p]), price, next)
    ensures PaysSound(w.(rows := w.rows[id := p], pays := w.pays[c := next]), price)
  {
    var w' := w.(rows := w.rows[id := p], pays := w.pays[c := next]);
    SameQuotes(w.rows, id, p);
    forall d | d in w'.pays ensures PaySound(w', price, w'.pays[d]) {
      if d != c {
        assert PaySound(w, price, w.pays[d]) && QuoteOf(w.rows, w.pays[d]) != p.quote;
        if w.pays[d].Answered? { AnswerOutlivesChange(w.rows, id, p, w.pays[d].quote, w.pays[d].answer); }
      }
    }
  }

  lemma AnswerOutlivesChange(rows: seq<Signer.Payment>, id: nat, p: Signer.Payment, q: Quote, a: Signer.Answer)
    requires AnswerSound(rows, q, a) && id < |rows| && p.quote == rows[id].quote != q
    ensures AnswerSound(rows[id := p], q, a)
  {
    if a.Paid? {
      var i :| 0 <= i < |rows| && rows[i].quote == q && rows[i].status == Signer.Confirmed && rows[i].amount == a.amount && rows[i].fee == Some(a.fee);
      assert rows[id := p][i] == rows[i];
    }
  }

  lemma CoveredForLess(entries: seq<Spend>, p: Signer.Payment, less: Signer.Payment)
    requires Covered(entries, p) && less.quote == p.quote && less.amount == p.amount
    requires less.feeReserve == p.feeReserve && Signer.Counts(less) <= Signer.Counts(p)
    ensures Covered(entries, less)
  {
    var i :| 0 <= i < |entries| && Covers(entries[i], p);
    assert Covers(entries[i], less);
  }

  lemma PreparedKeepsInv(w: World, price: real, c: nat, ok: bool)
    requires 0.0 <= price && Inv(w, price)
    ensures Inv(Do(w, price, Prepared(c, ok)), price)
  {
    if c in w.pays && w.pays[c].Preparing? && w.pays[c].id < |w.rows| && w.rows[w.pays[c].id].status == Signer.Reserved {
      var id := w.pays[c].id;
      var p := w.rows[id].(status := if ok then Signer.Sent else Signer.FailedUnsent);
      assert RowSound(w, price, id);
      CoveredForLess(w.entries, w.rows[id], p);
      RowQuoteUsed(w, price, id);
      OnlyItsRow(w.rows, id);
      hide Inv;
      RowChanged(w, price, c, id, p, if ok then Broadcasting(id) else Answered(p.quote, Signer.Refused(422)));
    }
  }

  lemma OnlyItsRow(rows: seq<Signer.Payment>, id: nat)
    requires Signer.QuotesDiffer(rows) && id < |rows|
    ensures forall i :: 0 <= i < |rows| && i != id ==> rows[i].quote != rows[id].quote
  {
    forall i | 0 <= i < |rows| && i != id ensures rows[i].quote != rows[id].quote {
      assert i < id ==> rows[i].quote != rows[id].quote;
      assert id < i ==> rows[id].quote != rows[i].quote;
    }
  }

  lemma ReturnsKeepsInv(w: World, price: real, c: nat)
    requires 0.0 <= price && Inv(w, price)
    ensures Inv(Do(w, price, BroadcastReturns(c)), price)
  {
    var w' := Do(w, price, BroadcastReturns(c));
    if c in w.pays && w.pays[c].Broadcasting? && w.pays[c].id < |w.rows| && w.pays[c].id in w.landed && w.rows[w.pays[c].id].status == Signer.Sent {
      var id := w.pays[c].id;
      var fee := Signer.LamportsToMicroCeil(w.landed[id], price);
      var p := w.rows[id].(status := Signer.Confirmed, fee := Some(fee));
      assert RowSound(w, price, id);
      Signer.FeeWithinReserve(w.landed[id], price);
      CoveredForLess(w.entries, w.rows[id], p);
      RowQuoteUsed(w, price, id);
      assert w.rows[id := p][id] == p;
      hide Inv;
      RowChanged(w, price, c, id, p, Answered(p.quote, Signer.Paid(p.amount, fee)));
    }
  }

  lemma ThrowsKeepsInv(w: World, price: real, c: nat)
    requires 0.0 <= price && Inv(w, price)
    ensures Inv(Do(w, price, BroadcastThrows(c)), price)
  {
    if c in w.pays && w.pays[c].Broadcasting? && w.pays[c].id < |w.rows| {
      RowQuoteUsed(w, price, w.pays[c].id);
      hide Inv;
      PayMoved(w, price, c, Answered(w.rows[w.pays[c].id].quote, Signer.Uncertain));
    }
  }

  lemma LandKeepsInv(w: World, price: real, id: nat, lamports: nat)
    requires 0.0 <= price && Inv(w, price)
    ensures Inv(Do(w, price, Land(id, lamports)), price)
  {
    var w' := Do(w, price, Land(id, lamports));
    if w' != w {
      assert TablesSound(w') by { hide RowsSound, ClientsSound, PaysSound, Paired; }
      assert RowsSound(w', price) by { hide PaysSound, ClientsSound, Paired, TablesSound; forall i | 0 <= i < |w.rows| ensures RowSound(w', price, i) { assert RowSound(w, price, i); } }
      assert ClientsSound(w', price) by {
        hide RowsSound, PaysSound, Paired, TablesSound;
        forall d | d in w.clients ensures ClientSound(w', price, w.clients[d]) { assert ClientSound(w, price, w.clients[d]); }
      }
      assert PaysSound(w', price) by {
        hide RowsSound, ClientsSound, Paired, TablesSound;
        forall d | d in w.pays ensures PaySound(w', price, w.pays[d]) { assert PaySound(w, price, w.pays[d]); }
      }
    }
  }

  // ----- filing the answer -----

  lemma ReplyKeepsInv(w: World, price: real, c: nat)
    requires 0.0 <= price && Inv(w, price)
    ensures Inv(Do(w, price, Reply(c)), price)
  {
    if c in w.clients && w.clients[c].Waiting? && c in w.pays && w.pays[c].Answered? {
      var e := w.clients[c].entry;
      var o := w.clients[c].order;
      var a := w.pays[c].answer;
      assert ClientSound(w, price, w.clients[c]) && PaySound(w, price, w.pays[c]);
      assert w.pays[c].quote == o.quote;
      var w1 := w.(clients := w.clients - {c}, pays := w.pays - {c});
      FewerCalls(w, w1, price, c);
      if !a.Uncertain? {
        var filed := w.entries[e].(status := if a.Refused? then Released else Settled(a.amount, a.fee));
        FiledCovers(w, price, e, o, a, filed);
        EntryFiled(w1, price, e, filed);
      }
    }
  }

  /** What the answer says is what the signer's row counts. */
  lemma FiledCovers(w: World, price: real, e: nat, o: Order, a: Signer.Answer, filed: Spend)
    requires 0.0 <= price && TablesSound(w) && RowsSound(w, price) && OpenEntry(w.entries, e, o, price)
    requires AnswerSound(w.rows, o.quote, a) && !a.Uncertain?
    requires filed == w.entries[e].(status := if a.Refused? then Released else Settled(a.amount, a.fee))
    ensures Committed(filed) <= Committed(w.entries[e])
    ensures forall i :: 0 <= i < |w.rows| && w.rows[i].quote == o.quote ==> Covers(filed, w.rows[i])
  {
    forall i | 0 <= i < |w.rows| && w.rows[i].quote == o.quote
      ensures Covers(w.entries[e], w.rows[i]) && w.rows[i].feeReserve == FeeReserve(price)
    {
      assert RowSound(w, price, i);
      CoveredBy(w.entries, w.rows[i], e);
    }
    if a.Paid? {
      var k :| 0 <= k < |w.rows| && w.rows[k].quote == o.quote && w.rows[k].status == Signer.Confirmed && w.rows[k].amount == a.amount && w.rows[k].fee == Some(a.fee);
      OnlyItsRow(w.rows, k);
      assert RowSound(w, price, k);
      Signer.FeeWithinReserve(w.landed[k], price);
    }
  }

  lemma EntryFiled(w: World, price: real, e: nat, filed: Spend)
    requires 0.0 <= price && Inv(w, price) && e < |w.entries| && w.entries[e].status.Reserved?
    requires filed == w.entries[e].(status := filed.status)
    requires Committed(filed) <= Committed(w.entries[e])
    requires forall i :: 0 <= i < |w.rows| && w.rows[i].quote == filed.quote ==> Covers(filed, w.rows[i])
    requires forall c :: c in w.clients ==> w.clients[c].order.quote != filed.quote
    requires forall c :: c in w.pays ==> QuoteOf(w.rows, w.pays[c]) != filed.quote
    ensures Inv(w.(entries := w.entries[e := filed]), price)
  {
    var w' := w.(entries := w.entries[e := filed]);
    assert TablesSound(w') by {
      hide RowsSound, ClientsSound, PaysSound, Paired;
      ChangeKeepsBudget(w.entries, e, filed);
    }
    assert RowsSound(w', price) by {
      hide TablesSound, ClientsSound, PaysSound, Paired;
      forall i | 0 <= i < |w.rows| ensures RowSound(w', price, i) {
        assert RowSound(w, price, i);
        var k :| 0 <= k < |w.entries| && Covers(w.entries[k], w.rows[i]);
        assert Covers(w'.entries[k], w.rows[i]);
      }
    }
    assert ClientsSound(w', price) by {
      hide RowsSound, PaysSound, Paired, TablesSound;
      forall d | d in w.clients ensures ClientSound(w', price, w.clients[d]) { assert ClientSound(w, price, w.clients[d]); }
    }
    assert PaysSound(w', price) by {
      hide RowsSound, ClientsSound, Paired, TablesSound;
      forall d | d in w.pays ensures PaySound(w', price, w.pays[d]) {
        assert PaySound(w, price, w.pays[d]);
        if w.pays[d].Arrived? {
          var k: nat :| OpenEntry(w.entries, k, w.pays[d].order, price);
          assert OpenEntry(w'.entries, k, w.pays[d].order, price);
        }
      }
    }
  }

  lemma StepKeepsInv(w: World, price: real, s: Step)
    requires 0.0 <= price && Inv(w, price)
    ensures Inv(Do(w, price, s), price)
  {
    hide Inv;
    match s
    case GetQuote(c, o) => QuoteKeepsInv(w, price, c, o);
    case Reserve(c, ceiling) => ReserveKeepsInv(w, price, c, ceiling);
    case Post(c) => PostKeepsInv(w, price, c);
    case Check(c, wellFormed, ceiling, maxPerCall) => CheckKeepsInv(w, price, c, wellFormed, ceiling, maxPerCall);
    case Prepared(c, ok) => PreparedKeepsInv(w, price, c, ok);
    case Land(id, lamports) => LandKeepsInv(w, price, id, lamports);
    case BroadcastReturns(c) => ReturnsKeepsInv(w, price, c);
    case BroadcastThrows(c) => ThrowsKeepsInv(w, price, c);
    case Reply(c) => ReplyKeepsInv(w, price, c);
    case LoseReply(c) => FewerCalls(w, Do(w, price, s), price, c);
    case SignerStops(c) => FewerCalls(w, Do(w, price, s), price, c);
  }

  lemma {:induction false} EveryRun(price: real, steps: seq<Step>)
    requires 0.0 <= price
    ensures Inv(Exec(price, steps), price)
  {
    if steps != [] {
      EveryRun(price, steps[..|steps| - 1]);
      StepKeepsInv(Exec(price, steps[..|steps| - 1]), price, steps[|steps| - 1]);
    }
  }

  // ----- the three totals -----

  /** What left the wallet, fees included, in micro-USD. */
  function ChainSpend(rows: seq<Signer.Payment>, landed: map<nat, nat>, price: real): nat
    requires 0.0 <= price
  {
    if rows == [] then 0
    else
      var n := |rows| - 1;
      ChainSpend(rows[..n], landed, price) + if n in landed then rows[n].amount + Signer.LamportsToMicroCeil(landed[n], price) else 0
  }

  lemma {:induction false} ChainWithinSigner(w: World, price: real, n: nat)
    requires 0.0 <= price && RowsSound(w, price) && n <= |w.rows|
    ensures ChainSpend(w.rows[..n], w.landed, price) <= Signer.Committed(w.rows[..n])
  {
    if n > 0 {
      assert w.rows[..n][..n - 1] == w.rows[..n - 1];
      ChainWithinSigner(w, price, n - 1);
      assert RowSound(w, price, n - 1);
      if n - 1 in w.landed { Signer.FeeWithinReserve(w.landed[n - 1], price); }
    }
  }

  /** Different rows are covered by different entries, so their sums compare. */
  lemma {:induction false} SignerWithinAgent(entries: seq<Spend>, rows: seq<Signer.Payment>)
    requires EntriesDiffer(entries) && Signer.QuotesDiffer(rows) && forall i :: 0 <= i < |rows| ==> Covered(entries, rows[i])
    ensures Signer.Committed(rows) <= Lifetime(entries)
    decreases |rows|
  {
    if rows != [] {
      var n := |rows| - 1;
      assert Covered(entries, rows[n]);
      var k :| 0 <= k < |entries| && Covers(entries[k], rows[n]);
      var without := entries[k].(status := Released);
      ChangeTotals(entries, k, without, P1);
      forall i | 0 <= i < n ensures Covered(entries[k := without], rows[..n][i]) {
        assert Covered(entries, rows[i]) && rows[i].quote != rows[n].quote;
        var j :| 0 <= j < |entries| && Covers(entries[j], rows[i]);
        assert Covers(entries[k := without][j], rows[i]);
      }
      SignerWithinAgent(entries[k := without], rows[..n]);
    }
  }

  /** In every run, however calls interleave, processes stop and replies are lost: what left the wallet is at most what
      the signer counts, which is at most what the agent counts, which is at most $5; and every phase stays within its
      allocation. */
  lemma SpendIsBounded(price: real, steps: seq<Step>, p: Phase)
    requires 0.0 <= price
    ensures
      var w := Exec(price, steps);
      && ChainSpend(w.rows, w.landed, price) <= Signer.Committed(w.rows) <= Lifetime(w.entries) <= HARD_LIFETIME_CEILING
      && InPhase(w.entries, p) <= Allocation(p)
  {
    var w := Exec(price, steps);
    EveryRun(price, steps);
    BoundedBy(w, price);
    hide Exec, RowsSound, ClientsSound, PaysSound, Paired;
  }

  lemma BoundedBy(w: World, price: real)
    requires 0.0 <= price && TablesSound(w) && RowsSound(w, price)
    ensures ChainSpend(w.rows, w.landed, price) <= Signer.Committed(w.rows) <= Lifetime(w.entries)
  {
    assert w.rows[..|w.rows|] == w.rows;
    ChainWithinSigner(w, price, |w.rows|);
    forall i | 0 <= i < |w.rows| ensures Covered(w.entries, w.rows[i]) { assert RowSound(w, price, i); }
    SignerWithinAgent(w.entries, w.rows);
  }

  lemma ReleasedStays(w: World, price: real, s: Step, e: nat)
    requires 0.0 <= price && e < |w.entries| && w.entries[e].status.Released?
    ensures e < |Do(w, price, s).entries| && Do(w, price, s).entries[e] == w.entries[e]
  {
  }

  /** An entry the agent has released is one whose request left nothing that counts at the signer, and nothing landed ... */
  lemma ReleasedCountsNothing(price: real, steps: seq<Step>, e: nat, i: nat)
    requires 0.0 <= price
    requires var w := Exec(price, steps); e < |w.entries| && w.entries[e].status.Released? && i < |w.rows| && w.rows[i].quote == w.entries[e].quote
    ensures Signer.Counts(Exec(price, steps).rows[i]) == 0 && i !in Exec(price, steps).landed
  {
    var w := Exec(price, steps);
    EveryRun(price, steps);
    hide Exec, ClientsSound, PaysSound, Paired;
    assert RowSound(w, price, i);
    CoveredBy(w.entries, w.rows[i], e);
  }

  /** ... and however the run goes on, it stays so. */
  lemma {:induction false} ReleasedForGood(price: real, a: seq<Step>, b: seq<Step>, e: nat)
    requires 0.0 <= price && e < |Exec(price, a).entries| && Exec(price, a).entries[e].status.Released?
    ensures
      var w := Exec(price, a + b);
      && e < |w.entries| && w.entries[e] == Exec(price, a).entries[e]
      && forall i :: 0 <= i < |w.rows| && w.rows[i].quote == w.entries[e].quote ==> Signer.Counts(w.rows[i]) == 0 && i !in w.landed
  {
    hide Do;
    if b == [] {
      assert a + b == a;
    } else {
      assert (a + b)[..|a + b| - 1] == a + b[..|b| - 1];
      ReleasedForGood(price, a, b[..|b| - 1], e);
      ReleasedStays(Exec(price, a + b[..|b| - 1]), price, b[|b| - 1], e);
    }
    var w := Exec(price, a + b);
    forall i | 0 <= i < |w.rows| && w.rows[i].quote == w.entries[e].quote ensures Signer.Counts(w.rows[i]) == 0 && i !in w.landed {
      ReleasedCountsNothing(price, a + b, e, i);
    }
  }

  // ----- no calls on credit either -----

  /** What left the wallet never comes back. */
  ghost predicate SpentMore(w: World, w': World) {
    && |w.rows| <= |w'.rows| && (forall i :: 0 <= i < |w.rows| ==> w'.rows[i].amount == w.rows[i].amount)
    && (forall i :: i in w.landed ==> i in w'.landed && w'.landed[i] == w.landed[i])
  }

  lemma {:induction false} SpendGrows(w: World, w': World, price: real, n: nat)
    requires 0.0 <= price && SpentMore(w, w') && n <= |w'.rows|
    ensures ChainSpend(w.rows[..Min(n, |w.rows|)], w.landed, price) <= ChainSpend(w'.rows[..n], w'.landed, price)
  {
    if n > 0 {
      SpendGrows(w, w', price, n - 1);
      assert w'.rows[..n][..n - 1] == w'.rows[..n - 1];
      if n <= |w.rows| { assert w.rows[..n][..n - 1] == w.rows[..n - 1]; }
    }
  }

  lemma StepSpendsMore(w: World, price: real, s: Step)
    requires 0.0 <= price
    ensures SpentMore(w, Do(w, price, s))
  {
    hide Signer.LamportsToMicroCeil;
  }

  lemma {:induction false} RunSpendsMore(price: real, a: seq<Step>, b: seq<Step>)
    requires 0.0 <= price
    ensures SpentMore(Exec(price, a), Exec(price, a + b))
  {
    hide Do;
    if b == [] {
      assert a + b == a;
    } else {
      assert (a + b)[..|a + b| - 1] == a + b[..|b| - 1];
      RunSpendsMore(price, a, b[..|b| - 1]);
      StepSpendsMore(Exec(price, a + b[..|b| - 1]), price, b[|b| - 1]);
    }
  }

  /** Over every run: once what has left the wallet, fees included, reaches the ceiling, no proof for a spend of credit is
      signed any more, however the run goes on. */
  lemma NoProofOnceSpent(price: real, a: seq<Step>, b: seq<Step>, ceiling: nat)
    requires 0.0 <= price && ceiling <= ChainSpend(Exec(price, a).rows, Exec(price, a).landed, price)
    ensures !Signer.MayProve(Exec(price, a + b).rows, ceiling)
  {
    var w, w' := Exec(price, a), Exec(price, a + b);
    RunSpendsMore(price, a, b);
    SpendGrows(w, w', price, |w'.rows|);
    assert w.rows[..Min(|w'.rows|, |w.rows|)] == w.rows && w'.rows[..|w'.rows|] == w'.rows;
    EveryRun(price, a + b);
    BoundedBy(w', price);
  }

  /** Why quote ids must be fresh: asked again about a quote it already has a row for, the signer's answer is one the
      agent can file as it stands exactly when that earlier payment is settled. While it is reserved or sent, the 409
      is read as a refusal although the row counts. InferenceRepeat has a run that gets there. */
  lemma RepeatedQuote(w: World, c: nat, price: real, o: Order, ceiling: nat, maxPerCall: nat, id: nat)
    requires 0.0 <= price && Signer.QuotesDiffer(w.rows) && 0 < o.amount <= maxPerCall
    requires id < |w.rows| && w.rows[id].quote == o.quote && 0 < w.rows[id].amount
    requires (w.rows[id].status == Signer.Confirmed ==> w.rows[id].fee.Some?)
    ensures
      var w' := Checking(w, c, price, o, true, ceiling, maxPerCall);
      && w'.rows == w.rows && w'.pays[c].Answered?
      && (AnswerSound(w'.rows, o.quote, w'.pays[c].answer) <==> w.rows[id].status == Signer.Confirmed || w.rows[id].status == Signer.FailedUnsent)
  {
    OnlyItsRow(w.rows, id);
    assert Signer.ByQuote(w.rows, o.quote) == Some(id);
  }
}
