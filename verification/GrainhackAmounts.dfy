/**
 * The amounts in the public ledger. An entry is written from the copy of the row that a reconcile read, which may be
 * older than the journal it fetched: exactly then can an entry be wrong, and it stays wrong.
 */
module GrainhackAmounts {
  import opened Basics
  import opened GrainhackJournal
  import opened GrainhackStatement
  import opened GrainhackSigner
  import opened GrainhackAgent
  import opened GrainhackBooks
  import opened GrainhackAgreement
  import opened GrainhackOrderly
  import opened GrainhackOrderlyAgent
  import Run = GrainhackRun
  import Safety = GrainhackSafety

  ghost predicate AmountTrue(e: Entry, journal: seq<Row>) {
    forall j :: 0 <= j < |journal| && journal[j].order.payout == e.payout ==> journal[j].order.amount == e.amount
  }

  ghost predicate AmountsTrue(ledger: seq<Entry>, journal: seq<Row>) {
    forall k :: 0 <= k < |ledger| ==> AmountTrue(ledger[k], journal)
  }

  /** A reconcile records a payment that is not in the ledger yet, from a copy whose amount the row no longer has. */
  ghost predicate EntersStale(w: World, s: Step) {
    s.SweepRow? && s.sweep in w.sweeps &&
    var sw := w.sweeps[s.sweep];
    && sw.journal.Some? && s.row in sw.seen && s.row < |w.books.rows|
    && Dictate(sw.seen[s.row], sw.journal.value, s.aged).ToPaid?
    && InFlight(w.books.rows[s.row].status) && !Entered(w.books.ledger, w.books.rows[s.row].id)
    && sw.seen[s.row].amount != w.books.rows[s.row].amount
  }

  // ----- an entry never changes, and neither does what it is checked against -----

  lemma AmountKept(e: Entry, a: seq<Row>, b: seq<Row>)
    requires EntryTrue(e, a) && Extends(a, b) && Distinct(b)
    ensures AmountTrue(e, a) <==> AmountTrue(e, b)
  {
    var k :| 0 <= k < |a| && a[k].status == Confirmed && a[k].order.payout == e.payout
      && a[k].order.winner == e.winner && a[k].order.money == e.money && a[k].tx == e.tx;
    assert b[k].order == a[k].order;
    forall j | 0 <= j < |b| && b[j].order.payout == e.payout ensures j == k {
      if j != k { Run.RowsDiffer(b, j, k); }
    }
  }

  lemma AmountsKept(ledger: seq<Entry>, a: seq<Row>, b: seq<Row>)
    requires (forall k :: 0 <= k < |ledger| ==> EntryTrue(ledger[k], a)) && Extends(a, b) && Distinct(b)
    ensures AmountsTrue(ledger, a) <==> AmountsTrue(ledger, b)
  {
    hide AmountTrue, EntryTrue, Extends, Distinct;
    forall k | 0 <= k < |ledger| ensures AmountTrue(ledger[k], a) <==> AmountTrue(ledger[k], b) { AmountKept(ledger[k], a, b); }
  }

  lemma JournalExtends(w: World, s: Step)
    ensures Extends(w.signer.rows, Do(w, s).signer.rows)
  {
    var more := SignerSteps(w, s);
    SignerStepsDo(w, s);
    if more != [] { Safety.DoExtends(w.signer, more[0]); }
  }

  // ----- what one recorded payment does to the amounts -----

  /** Recording a confirmed payment keeps the amounts right unless it enters a copy that is out of date. */
  lemma PaidAmounts(w: World, i: nat, seen: PayoutRow, k: nat)
    requires Agree(w) && i < |w.books.rows| && SameRow(seen, w.books.rows[i])
    requires k < |w.signer.rows| && w.signer.rows[k].order.payout == seen.id && w.signer.rows[k].status == Confirmed
    ensures
      var after := MarkPaid(w.books, i, seen, w.signer.rows[k].tx).ledger;
      AmountsTrue(after, w.signer.rows) <==>
        && AmountsTrue(w.books.ledger, w.signer.rows)
        && (InFlight(w.books.rows[i].status) && !Entered(w.books.ledger, seen.id) ==> seen.amount == w.books.rows[i].amount)
  {
    var e := EntryFor(seen, w.signer.rows[k].tx);
    if InFlight(w.books.rows[i].status) {
      RecordOfRow(w, i, k);
      assert EntryTrue(e, w.signer.rows);
      NewEntry(w, e);
      EntryAmount(w, e, k);
      AmountsOfMore(w.books.ledger, e, w.signer.rows);
    }
  }

  /** It is left out exactly when its payout is there: no other payout can have its transfer. */
  lemma NewEntry(w: World, e: Entry)
    requires Agree(w) && EntryTrue(e, w.signer.rows)
    ensures Conflicts(w.books.ledger, e) <==> Entered(w.books.ledger, e.payout)
  {
    hide TablesFit, ForwardsFit, CallsFit, SweepFits, EntryTrue;
    if Conflicts(w.books.ledger, e) {
      var k :| 0 <= k < |w.books.ledger| && (w.books.ledger[k].payout == e.payout || w.books.ledger[k].tx == e.tx);
      if w.books.ledger[k].tx == e.tx { SameTransferSamePayout(w.signer.rows, w.books.ledger[k], e); }
    }
  }

  lemma EntryAmount(w: World, e: Entry, k: nat)
    requires Agree(w) && k < |w.signer.rows| && w.signer.rows[k].order.payout == e.payout
    ensures AmountTrue(e, w.signer.rows) <==> e.amount == w.signer.rows[k].order.amount
  {
    assert Distinct(w.signer.rows);
    hide Agree;
    forall j | 0 <= j < |w.signer.rows| && w.signer.rows[j].order.payout == e.payout ensures j == k {
      if j != k { Run.RowsDiffer(w.signer.rows, j, k); }
    }
  }

  lemma AmountsOfMore(ledger: seq<Entry>, e: Entry, journal: seq<Row>)
    ensures AmountsTrue(ledger + [e], journal) <==> AmountsTrue(ledger, journal) && AmountTrue(e, journal)
  {
    hide AmountTrue;
    assert forall k :: 0 <= k < |ledger| ==> (ledger + [e])[k] == ledger[k];
    assert (ledger + [e])[|ledger|] == e;
  }

  // ----- every step -----

  lemma ReplyAmounts(w: World, c: nat)
    requires Agree(w)
    ensures AmountsTrue(Do(w, Reply(c)).books.ledger, w.signer.rows) <==> AmountsTrue(w.books.ledger, w.signer.rows)
  {
    hide AmountsTrue, Agree, MarkPaid, Run.Do;
    if c in w.forwards && w.forwards[c].stage == Posted(true) && c in w.signer.calls && w.signer.calls[c].Answered? && w.signer.calls[c].outcome.Paid? {
      var k := PaidIsConfirmed(w, c);
      PaidAmounts(w, w.forwards[c].row, w.forwards[c].seen, k);
    }
  }

  lemma PaidIsConfirmed(w: World, c: nat) returns (k: nat)
    requires Agree(w) && c in w.forwards && Waited(w.forwards[c]) && c in w.signer.calls && w.signer.calls[c].Answered? && w.signer.calls[c].outcome.Paid?
    ensures
      var f := w.forwards[c];
      && f.row < |w.books.rows| && SameRow(f.seen, w.books.rows[f.row]) && f.seen.amount == w.books.rows[f.row].amount
      && k < |w.signer.rows| && w.signer.rows[k].order.payout == f.seen.id && w.signer.rows[k].status == Confirmed
      && w.signer.rows[k].tx == w.signer.calls[c].outcome.tx
  {
    hide Agree;
    var f, o := w.forwards[c], w.signer.calls[c].outcome;
    CallAt(w, c);
    ForwardAt(w, c);
    k :| 0 <= k < |w.signer.rows| && w.signer.rows[k].order.payout == f.seen.id && w.signer.rows[k].status == Confirmed && w.signer.rows[k].tx == o.tx;
  }

  /** The payment a reconcile's journal confirms for a copied row is still there, and the entry is the copy's. */
  lemma ConfirmedStill(w: World, sw: Sweep, i: nat, aged: bool) returns (k: nat)
    requires SweepFits(w, sw) && sw.journal.Some? && i in sw.seen && Dictate(sw.seen[i], sw.journal.value, aged).ToPaid?
    ensures i < |w.books.rows| && SameRow(sw.seen[i], w.books.rows[i])
    ensures k < |w.signer.rows| && w.signer.rows[k].order.payout == sw.seen[i].id && w.signer.rows[k].status == Confirmed
    ensures Dictate(sw.seen[i], sw.journal.value, aged) == ToPaid(w.signer.rows[k].tx)
  {
    k := Find(sw.journal.value, ByPayout(sw.seen[i].id)).value;
    assert w.signer.rows[k].order == sw.journal.value[k].order && w.signer.rows[k].tx == sw.journal.value[k].tx;
  }

  lemma SweepRowAmounts(w: World, s: Step)
    requires Agree(w) && s.SweepRow?
    ensures AmountsTrue(Do(w, s).books.ledger, w.signer.rows) <==> AmountsTrue(w.books.ledger, w.signer.rows) && !EntersStale(w, s)
  {
    hide Agree, AmountsTrue, Dictate, Entered, SweepFits, Do, LedgerWith;
    SweepIs(w, s);
    if s.sweep in w.sweeps && w.sweeps[s.sweep].journal.Some? && s.row in w.sweeps[s.sweep].seen && s.row < |w.books.rows| {
      var sw := w.sweeps[s.sweep];
      if Dictate(sw.seen[s.row], sw.journal.value, s.aged).ToPaid? {
        StillFits(w, s.sweep);
        var k := ConfirmedStill(w, sw, s.row, s.aged);
        PaidAmounts(w, s.row, sw.seen[s.row], k);
        hide MarkPaid;
      }
    }
  }

  lemma SweepIs(w: World, s: Step)
    requires s.SweepRow?
    ensures Do(w, s) == Sweeping(w, s.sweep, s.row, s.aged)
  {
    hide Sweeping;
  }

  /** Only a reply and a reconcile write to the ledger, and neither writes to the journal. */
  lemma WhoWrites(w: World, s: Step)
    ensures s.Reply? || s.SweepRow? ==> Do(w, s).signer.rows == w.signer.rows
    ensures !s.Reply? && !s.SweepRow? ==> Do(w, s).books.ledger == w.books.ledger
  {
    hide Run.Reserving, Run.Marking, Run.Resolving, Dictate, Begin, Forwardable;
  }

  lemma StepAmounts(w: World, s: Step)
    requires Agree(w) && Orderly(w, s)
    ensures
      var w' := Do(w, s);
      AmountsTrue(w'.books.ledger, w'.signer.rows) <==> AmountsTrue(w.books.ledger, w.signer.rows) && !EntersStale(w, s)
  {
    hide AmountsTrue, Orderly, EntersStale, Do, Agree, Distinct, EntryTrue, Extends;
    WhoWrites(w, s);
    if s.SweepRow? {
      SweepRowAmounts(w, s);
    } else {
      NotASweep(w, s);
      if s.Reply? {
        ReplyAmounts(w, s.call);
      } else {
        StepAgrees(w, s);
        JournalExtends(w, s);
        LedgerIs(w);
        LedgerIs(Do(w, s));
        AmountsKept(w.books.ledger, w.signer.rows, Do(w, s).signer.rows);
      }
    }
  }

  lemma LedgerIs(w: World)
    requires Agree(w)
    ensures Distinct(w.signer.rows) && forall k :: 0 <= k < |w.books.ledger| ==> EntryTrue(w.books.ledger[k], w.signer.rows)
  {
    hide TablesFit, ForwardsFit, CallsFit, SweepFits, EntryTrue, Distinct;
  }

  lemma NotASweep(w: World, s: Step)
    requires !s.SweepRow?
    ensures !EntersStale(w, s)
  {
  }

  ghost predicate NeverStale(steps: seq<Step>) {
    forall n :: 0 <= n < |steps| ==> !EntersStale(Exec(steps[..n]), steps[n])
  }

  /** After every orderly run the ledger's amounts are the journal's exactly when no reconcile ever entered a payment from
      a copy whose amount its row had lost. */
  lemma {:induction false} AmountsOverRuns(steps: seq<Step>)
    requires OrderlyRun(steps)
    ensures AmountsTrue(Exec(steps).books.ledger, Exec(steps).signer.rows) <==> NeverStale(steps)
  {
    hide AmountsTrue, EntersStale, Do;
    if steps == [] {
      assert AmountsTrue(Exec(steps).books.ledger, Exec(steps).signer.rows) by { NoAmounts(); }
    } else {
      var before, s := steps[..|steps| - 1], steps[|steps| - 1];
      assert OrderlyRun(before) by {
        forall n | 0 <= n < |before| ensures Orderly(Exec(before[..n]), before[n]) { assert before[..n] == steps[..n]; }
      }
      assert Orderly(Exec(before), s);
      hide OrderlyRun, Orderly;
      AmountsOverRuns(before);
      EveryOrderlyRun(before);
      StepAmounts(Exec(before), s);
      assert NeverStale(steps) <==> NeverStale(before) && !EntersStale(Exec(before), s) by {
        assert forall n :: 0 <= n < |before| ==> before[..n] == steps[..n];
      }
    }
  }

  lemma NoAmounts()
    ensures AmountsTrue(Exec([]).books.ledger, Exec([]).signer.rows)
  {
  }
}
