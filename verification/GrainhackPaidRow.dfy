/** What can still happen to a row the agent has marked paid: its status can be lost, its ledger entry cannot. */
module GrainhackPaidRow {
  import opened Basics
  import opened GrainhackJournal
  import opened GrainhackStatement
  import opened GrainhackSigner
  import opened GrainhackAgent
  import opened GrainhackBooks
  import opened GrainhackAgreement
  import opened GrainhackOrderly
  import opened GrainhackOrderlyAgent
  import opened GrainhackAmounts
  import Run = GrainhackRun

  /** The writes of `unknown`, none of which has a guard on the row's status: for a reply that is no payment, a request given up,
      and a reconcile whose journal is from before the payment was confirmed. */
  predicate Unsettles(w: World, s: Step, i: nat) {
    match s
    case Reply(c) => c in w.forwards && Waited(w.forwards[c]) && w.forwards[c].row == i && c in w.signer.calls && w.signer.calls[c].Answered? && !w.signer.calls[c].outcome.Paid?
    case LoseReply(c) => c in w.forwards && Waited(w.forwards[c]) && w.forwards[c].row == i
    case SweepRow(k, j, aged) =>
      && j == i && k in w.sweeps && w.sweeps[k].journal.Some? && i in w.sweeps[k].seen
      && w.sweeps[k].seen[i].status != OutcomeUnknown && Dictate(w.sweeps[k].seen[i], w.sweeps[k].journal.value, aged) == ToUnknown
    case _ => false
  }

  /** Over every orderly run a paid row changes by exactly these steps, and then only to unknown: never back to approval,
      and with its transaction, its ledger entry and the journal's confirmation still there. */
  lemma PaidRowMoves(steps: seq<Step>, s: Step, i: nat)
    requires OrderlyRun(steps) && Orderly(Exec(steps), s)
    requires i < |Exec(steps).books.rows| && Exec(steps).books.rows[i].status == RowStatus.Paid
    ensures
      var w := Exec(steps);
      var w' := Do(w, s);
      && i < |w'.books.rows|
      && w'.books.rows[i] == (if Unsettles(w, s, i) then w.books.rows[i].(status := OutcomeUnknown) else w.books.rows[i])
      && Entered(w'.books.ledger, w.books.rows[i].id)
      && RecordedAs(w'.signer.rows, w.books.rows[i], Confirmed)
  {
    hide OrderlyRun, Exec, Agree, Orderly;
    EveryOrderlyRun(steps);
    PaidRowStep(Exec(steps), s, i);
  }

  lemma PaidRowStep(w: World, s: Step, i: nat)
    requires Agree(w) && Orderly(w, s) && i < |w.books.rows| && w.books.rows[i].status == RowStatus.Paid
    ensures
      var w' := Do(w, s);
      && i < |w'.books.rows|
      && w'.books.rows[i] == (if Unsettles(w, s, i) then w.books.rows[i].(status := OutcomeUnknown) else w.books.rows[i])
      && Entered(w'.books.ledger, w.books.rows[i].id)
      && RecordedAs(w'.signer.rows, w.books.rows[i], Confirmed)
  {
    hide Agree, Orderly, Do, RecordedAs, Entered, Unsettles;
    AgreedRow(w, i);
    JournalExtends(w, s);
    RecordSurvives(w.books.rows[i], w.signer.rows, Do(w, s).signer.rows);
    LedgerGrows(w, s);
    EnteredStill(w.books.ledger, Do(w, s).books.ledger, w.books.rows[i].id);
    match s
    case ImportStatement(st, verifies, cfg) => PaidThroughImport(w, s, i);
    case Reply(c) => PaidThroughReply(w, c, i);
    case LoseReply(c) => PaidThroughLost(w, c, i);
    case SweepRow(k, j, aged) => PaidThroughSweep(w, s, i);
    case RefreezeWrite(k) => PaidThroughRewrite(w, k, i);
    case _ => PaidThroughRest(w, s, i);
  }

  lemma RecordSurvives(row: PayoutRow, a: seq<Row>, b: seq<Row>)
    requires RecordedAs(a, row, Confirmed) && Extends(a, b)
    ensures RecordedAs(b, row, Confirmed)
  {
    var k :| 0 <= k < |a| && a[k].order.payout == row.id && a[k].status == Confirmed && a[k].order.winner == row.winner
      && a[k].order.amount == row.amount && a[k].order.money == row.money && row.recipient == Some(a[k].order.recipient) && row.tx == Some(a[k].tx);
    assert b[k].order == a[k].order;
  }

  lemma LedgerGrows(w: World, s: Step)
    ensures w.books.ledger <= Do(w, s).books.ledger
  {
    hide Run.Do, Dictate, Forwardable;
  }

  lemma EnteredStill(a: seq<Entry>, b: seq<Entry>, payout: Uuid)
    requires Entered(a, payout) && a <= b
    ensures Entered(b, payout)
  {
    var k :| 0 <= k < |a| && a[k].payout == payout;
    assert b[k].payout == payout;
  }

  lemma PaidThroughImport(w: World, s: Step, i: nat)
    requires Agree(w) && s.ImportStatement? && i < |w.books.rows| && w.books.rows[i].status == RowStatus.Paid
    ensures i < |Do(w, s).books.rows| && Do(w, s).books.rows[i] == w.books.rows[i] && !Unsettles(w, s, i)
  {
    hide Agree, Do;
    ImportAgrees(w, s.s, s.verifies, s.cfg);
    assert Do(w, s) == Importing(w, s.s, s.verifies, s.cfg) by { ImportIs(w, s); }
  }

  lemma ImportIs(w: World, s: Step)
    requires s.ImportStatement?
    ensures Do(w, s) == Importing(w, s.s, s.verifies, s.cfg)
  {
  }

  lemma PaidHasRecord(w: World, i: nat)
    requires Agree(w) && i < |w.books.rows| && w.books.rows[i].status == RowStatus.Paid
    ensures !NoRecord(w.signer.rows, w.books.rows[i].id) && w.books.rows[i].recipient.Some?
  {
    hide Agree;
    AgreedRow(w, i);
  }

  lemma PaidThroughReply(w: World, c: nat, i: nat)
    requires Agree(w) && i < |w.books.rows| && w.books.rows[i].status == RowStatus.Paid
    ensures
      var rows := Do(w, Reply(c)).books.rows;
      i < |rows| && rows[i] == if Unsettles(w, Reply(c), i) then w.books.rows[i].(status := OutcomeUnknown) else w.books.rows[i]
  {
    hide Agree, NoRecord, LedgerWith, Settled, Active;
    PaidHasRecord(w, i);
    if c in w.forwards && Waited(w.forwards[c]) && c in w.signer.calls && w.signer.calls[c].Answered? {
      CallAt(w, c);
      ReplyIs(w, c);
      hide Do;
    }
  }

  lemma PaidThroughLost(w: World, c: nat, i: nat)
    requires Agree(w) && i < |w.books.rows| && w.books.rows[i].status == RowStatus.Paid
    ensures
      var rows := Do(w, LoseReply(c)).books.rows;
      i < |rows| && rows[i] == if Unsettles(w, LoseReply(c), i) then w.books.rows[i].(status := OutcomeUnknown) else w.books.rows[i]
  {
    hide Agree, NoRecord, Active;
    PaidHasRecord(w, i);
    if c in w.forwards && w.forwards[c].row == i && w.forwards[c].stage == Claimed { ForwardAt(w, c); }
  }

  lemma PaidThroughSweep(w: World, s: Step, i: nat)
    requires Agree(w) && s.SweepRow? && i < |w.books.rows| && w.books.rows[i].status == RowStatus.Paid
    ensures
      var rows := Do(w, s).books.rows;
      i < |rows| && rows[i] == if Unsettles(w, s, i) then w.books.rows[i].(status := OutcomeUnknown) else w.books.rows[i]
  {
    hide Agree, Dictate, Do, NoRecord, SweepFits, LedgerWith;
    SweepIs(w, s);
    PaidHasRecord(w, i);
    if s.row == i && s.sweep in w.sweeps && w.sweeps[s.sweep].journal.Some? && i in w.sweeps[s.sweep].seen {
      StillFits(w, s.sweep);
      NeverAnother(w, w.sweeps[s.sweep], i, s.aged);
    }
  }

  /** The winner has no journal row under another payout. */
  lemma WinnersRow(w: World, i: nat, k: nat)
    requires Agree(w) && i < |w.books.rows| && k < |w.signer.rows| && w.signer.rows[k].order.winner == w.books.rows[i].winner
    ensures w.signer.rows[k].order.payout == w.books.rows[i].id
  {
    var o :| 0 <= o < |w.books.rows| && Owns(w.books.rows[o], w.signer.rows[k]);
    RowsApart(w, o, i);
  }

  lemma NeverAnother(w: World, sw: Sweep, i: nat, aged: bool)
    requires Agree(w) && SweepFits(w, sw) && sw.journal.Some? && i in sw.seen
    ensures Dictate(sw.seen[i], sw.journal.value, aged) != OtherPayout
  {
    hide Agree;
    var journal, seen := sw.journal.value, sw.seen[i];
    forall k | 0 <= k < |journal| && journal[k].order.winner == seen.winner ensures journal[k].order.payout == seen.id {
      assert w.signer.rows[k].order == journal[k].order;
      WinnersRow(w, i, k);
    }
  }

  lemma PaidThroughRewrite(w: World, k: nat, i: nat)
    requires Agree(w) && Orderly(w, RefreezeWrite(k)) && i < |w.books.rows| && w.books.rows[i].status == RowStatus.Paid
    ensures
      var w' := Do(w, RefreezeWrite(k));
      i < |w'.books.rows| && w'.books.rows[i] == w.books.rows[i] && !Unsettles(w, RefreezeWrite(k), i)
  {
    hide Agree;
    AgreedRow(w, i);
  }

  lemma PaidThroughRest(w: World, s: Step, i: nat)
    requires !s.ImportStatement? && !s.Reply? && !s.LoseReply? && !s.SweepRow? && !s.RefreezeWrite?
    requires i < |w.books.rows| && w.books.rows[i].status == RowStatus.Paid
    ensures i < |Do(w, s).books.rows| && Do(w, s).books.rows[i] == w.books.rows[i] && !Unsettles(w, s, i)
  {
    hide Run.Do, Forwardable, Dictate;
  }
}
