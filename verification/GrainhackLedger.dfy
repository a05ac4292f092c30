/** The public ledger against the signer's journal, once nothing is under way and a reconcile has run. */
module GrainhackLedger {
  import opened Basics
  import opened GrainhackJournal
  import opened GrainhackStatement
  import opened GrainhackSigner
  import opened GrainhackAgent
  import opened GrainhackBooks
  import opened GrainhackAgreement
  import opened GrainhackOrderly
  import opened GrainhackOrderlyAgent
  import opened GrainhackAmounts
  import Run = GrainhackRun

  function LedgerSum(ledger: seq<Entry>): nat {
    if ledger == [] then 0 else LedgerSum(ledger[..|ledger| - 1]) + ledger[|ledger| - 1].amount
  }

  function ConfirmedSum(journal: seq<Row>): nat {
    if journal == [] then 0
    else
      var last := journal[|journal| - 1];
      ConfirmedSum(journal[..|journal| - 1]) + if last.status == Confirmed then last.order.amount else 0
  }

  predicate Records(e: Entry, j: Row) {
    j.status == Confirmed && e.payout == j.order.payout && e.winner == j.order.winner && e.money == j.order.money && e.tx == j.tx
  }

  ghost predicate Recorded(e: Entry, journal: seq<Row>) {
    exists j :: 0 <= j < |journal| && Records(e, journal[j])
  }

  ghost predicate InLedger(j: Row, ledger: seq<Entry>) {
    exists k :: 0 <= k < |ledger| && Records(ledger[k], j)
  }

  ghost predicate EntriesDiffer(ledger: seq<Entry>) {
    forall k, m :: 0 <= k < m < |ledger| ==> ledger[k].payout != ledger[m].payout
  }

  ghost predicate ConfirmedDiffer(journal: seq<Row>) {
    forall i, j :: 0 <= i < |journal| && 0 <= j < |journal| && i != j && journal[i].status == Confirmed && journal[j].status == Confirmed ==>
      journal[i].order.payout != journal[j].order.payout
  }

  /** Each entry records one confirmed row, each confirmed row has an entry, and neither repeats a payout. */
  ghost predicate OneForOne(ledger: seq<Entry>, journal: seq<Row>) {
    && (forall k :: 0 <= k < |ledger| ==> Recorded(ledger[k], journal))
    && (forall j :: 0 <= j < |journal| && journal[j].status == Confirmed ==> InLedger(journal[j], ledger))
    && EntriesDiffer(ledger) && ConfirmedDiffer(journal)
  }

  lemma {:induction false} ConfirmedWithout(journal: seq<Row>, k: nat)
    requires k < |journal| && journal[k].status == Confirmed
    ensures ConfirmedSum(journal) == ConfirmedSum(Moved(journal, k, FailedUnsent, None)) + journal[k].order.amount
  {
    var after := Moved(journal, k, FailedUnsent, None);
    var n := |journal| - 1;
    if k == n {
      assert after[..n] == journal[..n];
    } else {
      assert after[..n] == Moved(journal[..n], k, FailedUnsent, None);
      ConfirmedWithout(journal[..n], k);
    }
  }

  lemma {:induction false} NothingConfirmed(journal: seq<Row>)
    requires forall j :: 0 <= j < |journal| ==> journal[j].status != Confirmed
    ensures ConfirmedSum(journal) == 0
  {
    if journal != [] { NothingConfirmed(journal[..|journal| - 1]); }
  }

  /** Entries and confirmed rows that match one for one, each for the right amount, have equal sums. */
  lemma {:induction false} EqualTotals(ledger: seq<Entry>, journal: seq<Row>)
    requires OneForOne(ledger, journal) && AmountsTrue(ledger, journal)
    ensures LedgerSum(ledger) == ConfirmedSum(journal)
  {
    if ledger == [] {
      NothingConfirmed(journal);
    } else {
      var n := |ledger| - 1;
      var k :| 0 <= k < |journal| && Records(ledger[n], journal[k]);
      ConfirmedWithout(journal, k);
      OneFewer(ledger, journal, k);
      assert AmountTrue(ledger[n], journal) && ledger[n].amount == journal[k].order.amount;
      AmountsOfFewer(ledger, journal, k);
      EqualTotals(ledger[..n], Moved(journal, k, FailedUnsent, None));
    }
  }

  lemma OneFewer(ledger: seq<Entry>, journal: seq<Row>, k: nat)
    requires OneForOne(ledger, journal) && ledger != [] && k < |journal| && Records(ledger[|ledger| - 1], journal[k])
    ensures OneForOne(ledger[..|ledger| - 1], Moved(journal, k, FailedUnsent, None))
  {
    var n := |ledger| - 1;
    var init, after := ledger[..n], Moved(journal, k, FailedUnsent, None);
    forall m | 0 <= m < n ensures Recorded(init[m], after) { EntryStays(ledger, journal, k, m); }
    forall j | 0 <= j < |after| && after[j].status == Confirmed ensures InLedger(after[j], init) { RowStays(ledger, journal, k, j); }
  }

  lemma AmountsOfFewer(ledger: seq<Entry>, journal: seq<Row>, k: nat)
    requires AmountsTrue(ledger, journal) && ledger != [] && k < |journal|
    ensures AmountsTrue(ledger[..|ledger| - 1], Moved(journal, k, FailedUnsent, None))
  {
    forall m | 0 <= m < |ledger| - 1 ensures AmountTrue(ledger[m], Moved(journal, k, FailedUnsent, None)) { assert AmountTrue(ledger[m], journal); }
  }

  lemma EntryStays(ledger: seq<Entry>, journal: seq<Row>, k: nat, m: nat)
    requires m < |ledger| - 1 && Recorded(ledger[m], journal) && EntriesDiffer(ledger) && k < |journal|
    requires Records(ledger[|ledger| - 1], journal[k])
    ensures Recorded(ledger[m], Moved(journal, k, FailedUnsent, None))
  {
    var j :| 0 <= j < |journal| && Records(ledger[m], journal[j]);
    assert j != k && Moved(journal, k, FailedUnsent, None)[j] == journal[j];
  }

  lemma RowStays(ledger: seq<Entry>, journal: seq<Row>, k: nat, j: nat)
    requires ledger != [] && k < |journal| && j < |journal| && j != k && journal[j].status == Confirmed
    requires ConfirmedDiffer(journal)
    requires InLedger(journal[j], ledger) && Records(ledger[|ledger| - 1], journal[k])
    ensures InLedger(journal[j], ledger[..|ledger| - 1])
  {
    var m :| 0 <= m < |ledger| && Records(ledger[m], journal[j]);
    assert m != |ledger| - 1;
    assert Records(ledger[..|ledger| - 1][m], journal[j]);
  }

  // ----- a quiet reconcile keeps the agreement and completes the ledger -----

  lemma {:induction false} QuietReconcileAgrees(w: World, aged: set<Uuid>, n: nat)
    requires Agree(w) && w.forwards == map[] && n <= |w.books.rows|
    ensures
      var after := ReconcileTo(w.books, w.signer.rows, aged, n);
      Agree(w.(books := after)) && (AmountsTrue(after.ledger, w.signer.rows) <==> AmountsTrue(w.books.ledger, w.signer.rows))
  {
    hide Agree, AmountsTrue;
    if n == 0 {
      assert w.(books := w.books) == w;
    } else {
      QuietReconcileAgrees(w, aged, n - 1);
      var w1 := w.(books := ReconcileTo(w.books, w.signer.rows, aged, n - 1));
      var seen := w.books.rows[n - 1];
      if InFlight(seen.status) {
        RowsSound(w);
        ReconcileToFollows(w.books, w.signer.rows, aged, n - 1);
        assert w1.books.rows[n - 1] == seen;
        QuietRow(w1, n - 1, seen.id in aged);
      }
    }
  }

  /** One row, from a copy of it as it is. */
  lemma QuietRow(w: World, i: nat, aged: bool)
    requires Agree(w) && w.forwards == map[] && i < |w.books.rows|
    ensures
      var seen := w.books.rows[i];
      var after := Reconciled(w.books, i, seen, Dictate(seen, w.signer.rows, aged));
      Agree(w.(books := after)) && (AmountsTrue(after.ledger, w.signer.rows) <==> AmountsTrue(w.books.ledger, w.signer.rows))
  {
    hide Agree, AmountsTrue, SweepFits, Dictate;
    var seen := w.books.rows[i];
    var sw := Sweep(map[i := seen], Some(w.signer.rows));
    SweepOfNow(w, sw, i);
    DictatedAgrees(w, sw, i, aged);
    if Dictate(seen, w.signer.rows, aged).ToPaid? {
      var k := ConfirmedStill(w, sw, i, aged);
      PaidAmounts(w, i, seen, k);
    }
  }

  lemma SweepOfNow(w: World, sw: Sweep, i: nat)
    requires Agree(w) && i < |w.books.rows| && sw == Sweep(map[i := w.books.rows[i]], Some(w.signer.rows))
    ensures SweepFits(w, sw)
    ensures Dictate(w.books.rows[i], w.signer.rows, true) == Release ==> NoRecord(w.signer.rows, w.books.rows[i].id)
  {
    hide TablesFit, ForwardsFit, CallsFit, LedgerTrue;
  }

  /** At the end of an orderly run with no approval under way, one reconcile leaves the ledger with exactly one entry
      for each payment the journal confirms, of the same winner, money and transaction. The amounts are right, and so the
      totals equal, when no earlier reconcile entered an out-of-date copy; otherwise some amount is wrong for good. */
  lemma LedgerMatchesJournal(steps: seq<Step>, aged: set<Uuid>)
    requires OrderlyRun(steps) && Exec(steps).forwards == map[]
    ensures
      var w := Exec(steps);
      var ledger := Reconcile(w.books, w.signer.rows, aged).ledger;
      && OneForOne(ledger, w.signer.rows)
      && (AmountsTrue(ledger, w.signer.rows) <==> NeverStale(steps))
      && (NeverStale(steps) ==> LedgerSum(ledger) == ConfirmedSum(w.signer.rows))
  {
    hide OrderlyRun, Agree, NeverStale, AmountsTrue, OneForOne;
    var w := Exec(steps);
    EveryOrderlyRun(steps);
    RowsSound(w);
    ReconciledMatches(w, aged);
    QuietReconcileAgrees(w, aged, |w.books.rows|);
    AmountsOverRuns(steps);
    if NeverStale(steps) { EqualTotals(Reconcile(w.books, w.signer.rows, aged).ledger, w.signer.rows); }
  }

  lemma ReconciledMatches(w: World, aged: set<Uuid>)
    requires Agree(w) && w.forwards == map[]
    ensures OneForOne(Reconcile(w.books, w.signer.rows, aged).ledger, w.signer.rows)
  {
    var r := Reconcile(w.books, w.signer.rows, aged);
    var w' := w.(books := r);
    assert r == ReconcileTo(w.books, w.signer.rows, aged, |w.books.rows|);
    hide Agree, Reconcile, Records;
    assert Agree(w') by { QuietReconcileAgrees(w, aged, |w.books.rows|); }
    forall j | 0 <= j < |w.signer.rows| && w.signer.rows[j].status == Confirmed ensures InLedger(w.signer.rows[j], r.ledger) {
      ConfirmedIsEntered(w, w', aged, j);
    }
    LedgerOf(w');
  }

  lemma LedgerOf(w: World)
    requires Agree(w)
    ensures forall k :: 0 <= k < |w.books.ledger| ==> Recorded(w.books.ledger[k], w.signer.rows)
    ensures EntriesDiffer(w.books.ledger) && ConfirmedDiffer(w.signer.rows)
  {
    hide TablesFit, ForwardsFit, CallsFit;
    forall k | 0 <= k < |w.books.ledger| ensures Recorded(w.books.ledger[k], w.signer.rows) {
      EntryRecorded(w.books.ledger[k], w.signer.rows);
    }
    forall i, j | 0 <= i < |w.signer.rows| && 0 <= j < |w.signer.rows| && i != j ensures w.signer.rows[i].order.payout != w.signer.rows[j].order.payout {
      Run.RowsDiffer(w.signer.rows, i, j);
    }
  }

  lemma EntryRecorded(e: Entry, journal: seq<Row>)
    requires EntryTrue(e, journal)
    ensures Recorded(e, journal)
  {
    var j :| 0 <= j < |journal| && journal[j].status == Confirmed && journal[j].order.payout == e.payout
      && journal[j].order.winner == e.winner && journal[j].order.money == e.money && journal[j].tx == e.tx;
    assert Records(e, journal[j]);
  }

  /** A confirmed payment's row is paid after the reconcile, so the ledger has it. */
  lemma ConfirmedIsEntered(w: World, w': World, aged: set<Uuid>, j: nat)
    requires Agree(w) && Agree(w') && w' == w.(books := Reconcile(w.books, w.signer.rows, aged))
    requires j < |w.signer.rows| && w.signer.rows[j].status == Confirmed
    ensures InLedger(w.signer.rows[j], w'.books.ledger)
  {
    var i := OwnerOf(w, j);
    RowsSound(w);
    ReconcileToFollows(w.books, w.signer.rows, aged, |w.books.rows|);
    hide Agree;
    var row := w.books.rows[i];
    assert FollowsJournal(row, w'.books.rows[i], w.signer.rows, row.id in aged);
    OnlyRecord(w, j, row.id);
    AgreedRow(w, i);
    AgreedRow(w', i);
    EnteredRecords(w', j);
  }

  lemma OwnerOf(w: World, j: nat) returns (i: nat)
    requires Agree(w) && j < |w.signer.rows|
    ensures i < |w.books.rows| && Owns(w.books.rows[i], w.signer.rows[j])
  {
    i :| 0 <= i < |w.books.rows| && Owns(w.books.rows[i], w.signer.rows[j]);
  }

  lemma OnlyRecord(w: World, j: nat, payout: Uuid)
    requires Agree(w) && j < |w.signer.rows| && w.signer.rows[j].order.payout == payout
    ensures Find(w.signer.rows, ByPayout(payout)) == Some(j)
    ensures forall k :: 0 <= k < |w.signer.rows| && w.signer.rows[k].order.payout == payout ==> k == j
  {
    forall k | 0 <= k < |w.signer.rows| && w.signer.rows[k].order.payout == payout ensures k == j {
      if k != j { Run.RowsDiffer(w.signer.rows, k, j); }
    }
  }

  lemma EnteredRecords(w: World, j: nat)
    requires Agree(w) && j < |w.signer.rows| && Entered(w.books.ledger, w.signer.rows[j].order.payout)
    ensures InLedger(w.signer.rows[j], w.books.ledger)
  {
    var k :| 0 <= k < |w.books.ledger| && w.books.ledger[k].payout == w.signer.rows[j].order.payout;
    LedgerOf(w);
    assert Recorded(w.books.ledger[k], w.signer.rows);
    var m :| 0 <= m < |w.signer.rows| && Records(w.books.ledger[k], w.signer.rows[m]);
    OnlyRecord(w, j, w.signer.rows[j].order.payout);
    assert Records(w.books.ledger[k], w.signer.rows[j]);
  }
}
