/** The agent's steps keep its rows and the signer's journal in agreement. */
module GrainhackOrderlyAgent {
  import opened Basics
  import opened GrainhackJournal
  import opened GrainhackStatement
  import opened GrainhackSigner
  import opened GrainhackAgent
  import opened GrainhackBooks
  import opened GrainhackChain
  import opened GrainhackIntake
  import opened GrainhackAgreement
  import opened GrainhackOrderly
  import Run = GrainhackRun

  // ----- reading the invariant -----

  /** The journal row of a payout is the record of the agent row with that id. */
  lemma RecordOfRow(w: World, i: nat, k: nat)
    requires Agree(w) && i < |w.books.rows| && k < |w.signer.rows| && w.signer.rows[k].order.payout == w.books.rows[i].id
    ensures Owns(w.books.rows[i], w.signer.rows[k])
  {
    var o :| 0 <= o < |w.books.rows| && Owns(w.books.rows[o], w.signer.rows[k]);
    RowsApart(w, o, i);
  }

  /** A row nobody has sent has no journal row under its payout id. */
  lemma UnpaidHasNoRecord(w: World, i: nat)
    requires Agree(w) && i < |w.books.rows| && Unpaid(w.books.rows[i].status)
    ensures NoRecord(w.signer.rows, w.books.rows[i].id)
  {
    forall k | 0 <= k < |w.signer.rows| ensures w.signer.rows[k].order.payout != w.books.rows[i].id {
      if w.signer.rows[k].order.payout == w.books.rows[i].id { RecordOfRow(w, i, k); }
    }
  }

  // ----- changes to the forwards -----

  /** The call and what the agent knew of it, gone. */
  function Without(w: World, c: nat): World {
    w.(forwards := w.forwards - {c}, signer := w.signer.(calls := w.signer.calls - {c}))
  }

  lemma ForwardDropped(w: World, c: nat)
    requires Agree(w)
    ensures Agree(Without(w, c))
  {
    hide TablesFit, LedgerTrue, ForwardFits, CallFits;
    DroppedForwardsFit(w, c);
    hide ForwardsFit;
    SamePlaces(w, Without(w, c));
  }

  lemma DroppedForwardsFit(w: World, c: nat)
    requires ForwardsFit(w)
    ensures ForwardsFit(Without(w, c))
  {
    forall d | d in w.forwards && d != c ensures ForwardFits(Without(w, c), d) { assert ForwardFits(w, d); }
  }

  /** Nothing but forwards and calls changed. */
  lemma SamePlaces(w: World, w': World)
    requires Agree(w) && w'.books == w.books && w'.signer.rows == w.signer.rows && w'.nextId == w.nextId && w'.sweeps == w.sweeps
    requires ForwardsFit(w') && CallsFit(w')
    ensures Agree(w')
  {
    forall k | k in w'.sweeps ensures SweepFits(w', w'.sweeps[k]) { assert SweepFits(w, w.sweeps[k]); }
  }

  /** One forward new or at another stage; its call, if it gets one, is about what it forwards. */
  ghost predicate SetsForward(w: World, w': World, c: nat) {
    && c in w'.forwards && w'.forwards == w.forwards[c := w'.forwards[c]]
    && w'.books == w.books && w'.signer.rows == w.signer.rows && w'.nextId == w.nextId && w'.sweeps == w.sweeps
    && (w'.signer.calls == w.signer.calls || (c in w'.signer.calls && w'.signer.calls == w.signer.calls[c := w'.signer.calls[c]]))
    && (c in w'.signer.calls ==> w'.forwards[c].stage.Posted?)
  }

  lemma ForwardSet(w: World, w': World, c: nat)
    requires Agree(w) && SetsForward(w, w', c) && ForwardFits(w', c)
    requires Active(w', c) ==> forall d :: d in w.forwards && d != c && Active(w, d) ==> w.forwards[d].row != w'.forwards[c].row
    requires c in w'.signer.calls ==> CallFits(w.signer.rows, w'.forwards[c], w'.signer.calls[c])
    ensures Agree(w')
  {
    hide Agree, ForwardsFit, CallsFit, ForwardFits, CallFits;
    ForwardSetForwards(w, w', c);
    ForwardSetCalls(w, w', c);
    SamePlaces(w, w');
  }

  lemma ForwardSetForwards(w: World, w': World, c: nat)
    requires Agree(w) && SetsForward(w, w', c) && ForwardFits(w', c)
    requires Active(w', c) ==> forall d :: d in w.forwards && d != c && Active(w, d) ==> w.forwards[d].row != w'.forwards[c].row
    ensures ForwardsFit(w')
  {
    hide Agree;
    forall d | d in w'.forwards ensures ForwardFits(w', d) && (d in w'.signer.calls ==> w'.forwards[d].stage.Posted?) {
      if d != c { ForwardAt(w, d); }
    }
    hide ForwardFits;
    forall d, e | d in w'.forwards && e in w'.forwards && d != e && Active(w', d) && Active(w', e) ensures w'.forwards[d].row != w'.forwards[e].row {
      if d != c && e != c { ActiveApart(w, d, e); }
    }
  }

  lemma ForwardSetCalls(w: World, w': World, c: nat)
    requires Agree(w) && SetsForward(w, w', c)
    requires c in w'.signer.calls ==> CallFits(w.signer.rows, w'.forwards[c], w'.signer.calls[c])
    ensures CallsFit(w')
  {
    hide Agree;
    forall d | d in w'.signer.calls ensures d in w'.forwards && w'.forwards[d].stage.Posted? && CallFits(w'.signer.rows, w'.forwards[d], w'.signer.calls[d]) {
      if d != c { CallAt(w, d); }
    }
  }

  // ----- changes to the rows -----

  /** What changing rows nobody has sent leaves in order. */
  ghost predicate OnlyUnpaidChanged(before: seq<PayoutRow>, after: seq<PayoutRow>) {
    && |before| <= |after|
    && (forall i :: 0 <= i < |before| ==> if Unpaid(before[i].status) then SameRow(before[i], after[i]) && Unpaid(after[i].status) else after[i] == before[i])
    && (forall i :: |before| <= i < |after| ==> Unpaid(after[i].status))
  }

  lemma UnpaidRowsChanged(w: World, w': World)
    requires Agree(w) && OnlyUnpaidChanged(w.books.rows, w'.books.rows) && RowsDistinct(w'.books.rows)
    requires RecipientsFrozen(w'.books.rows)
    requires w.nextId <= w'.nextId && forall i :: |w.books.rows| <= i < |w'.books.rows| ==> w'.books.rows[i].id.n < w'.nextId
    requires w'.signer == w.signer && w'.forwards == w.forwards && w'.sweeps == w.sweeps && w'.books.ledger == w.books.ledger
    ensures Agree(w')
  {
    UnpaidRowsTables(w, w');
    UnpaidRowsForwards(w, w');
    LedgerStill(w, w');
    hide TablesFit, ForwardsFit, LedgerTrue;
    forall k | k in w'.sweeps ensures SweepFits(w', w'.sweeps[k]) { assert SweepFits(w, w.sweeps[k]); }
  }

  lemma UnpaidRowsTables(w: World, w': World)
    requires TablesFit(w) && OnlyUnpaidChanged(w.books.rows, w'.books.rows) && RowsDistinct(w'.books.rows)
    requires RecipientsFrozen(w'.books.rows)
    requires w.nextId <= w'.nextId && forall i :: |w.books.rows| <= i < |w'.books.rows| ==> w'.books.rows[i].id.n < w'.nextId
    requires w'.signer == w.signer
    ensures TablesFit(w')
  {
    forall k | 0 <= k < |w.signer.rows| ensures Owned(w'.books.rows, w.signer.rows[k]) {
      var i :| 0 <= i < |w.books.rows| && Owns(w.books.rows[i], w.signer.rows[k]);
      assert Owns(w'.books.rows[i], w.signer.rows[k]);
    }
    forall i | 0 <= i < |w'.books.rows| ensures w'.books.rows[i].id.n < w'.nextId && RowTold(w'.books.rows[i], w.signer.rows) {
      if i < |w.books.rows| { assert RowTold(w.books.rows[i], w.signer.rows); }
    }
  }

  lemma UnpaidRowsForwards(w: World, w': World)
    requires ForwardsFit(w) && OnlyUnpaidChanged(w.books.rows, w'.books.rows) && w'.signer == w.signer
    requires w'.forwards == w.forwards
    ensures ForwardsFit(w')
  {
    forall c | c in w.forwards ensures ForwardFits(w', c) { assert ForwardFits(w, c); }
  }

  lemma LedgerStill(w: World, w': World)
    requires LedgerTrue(w) && OnlyUnpaidChanged(w.books.rows, w'.books.rows) && w'.signer == w.signer
    requires w'.books.ledger == w.books.ledger
    ensures LedgerTrue(w')
  {
    forall i | 0 <= i < |w'.books.rows| && w'.books.rows[i].status == RowStatus.Paid ensures Entered(w'.books.ledger, w'.books.rows[i].id) {
      assert i < |w.books.rows| && w'.books.rows[i] == w.books.rows[i];
    }
  }

  /** One row with a recipient changed its status; if it is open to approval again, nothing of it is recorded or on its way. */
  ghost predicate MayBecome(w: World, i: nat, to: PayoutRow) {
    && i < |w.books.rows| && w.books.rows[i].recipient.Some? && HasRecipient(to.status)
    && to == w.books.rows[i].(status := to.status, tx := to.tx) && RowTold(to, w.signer.rows)
    && (Unpaid(to.status) ==> NoRecord(w.signer.rows, to.id) && forall c :: c in w.forwards && w.forwards[c].row == i ==> !Active(w, c))
  }

  lemma RowChanged(w: World, i: nat, to: PayoutRow, ledger: seq<Entry>)
    requires Agree(w) && MayBecome(w, i, to) && LedgerTrue(w.(books := Books(w.books.rows[i := to], ledger)))
    ensures Agree(w.(books := Books(w.books.rows[i := to], ledger)))
  {
    var w' := w.(books := Books(w.books.rows[i := to], ledger));
    hide RowTold, CallFits, EntryTrue, Entered;
    RowChangedTables(w, w', i, to);
    RowChangedForwards(w, w', i, to);
    hide TablesFit, ForwardsFit, LedgerTrue;
    forall k | k in w'.sweeps ensures SweepFits(w', w'.sweeps[k]) { assert SweepFits(w, w.sweeps[k]); }
  }

  lemma RowChangedTables(w: World, w': World, i: nat, to: PayoutRow)
    requires TablesFit(w) && MayBecome(w, i, to) && w'.books.rows == w.books.rows[i := to] && w'.signer == w.signer
    requires w'.nextId == w.nextId
    ensures TablesFit(w')
  {
    forall k | 0 <= k < |w.signer.rows| ensures Owned(w'.books.rows, w.signer.rows[k]) {
      var o :| 0 <= o < |w.books.rows| && Owns(w.books.rows[o], w.signer.rows[k]);
      assert Owns(w'.books.rows[o], w.signer.rows[k]);
    }
  }

  lemma RowChangedForwards(w: World, w': World, i: nat, to: PayoutRow)
    requires ForwardsFit(w) && MayBecome(w, i, to) && w'.books.rows == w.books.rows[i := to] && w'.signer == w.signer
    requires w'.forwards == w.forwards
    ensures ForwardsFit(w')
  {
    forall c | c in w.forwards ensures ForwardFits(w', c) { assert ForwardFits(w, c); }
  }

  /** The ledger is untouched and the row is not paid afterwards. */
  lemma RowRestatused(w: World, i: nat, s: RowStatus)
    requires Agree(w) && i < |w.books.rows| && w.books.rows[i].recipient.Some? && HasRecipient(s) && s != RowStatus.Paid
    requires RowTold(w.books.rows[i].(status := s), w.signer.rows)
    requires Unpaid(s) ==> NoRecord(w.signer.rows, w.books.rows[i].id) && forall c :: c in w.forwards && w.forwards[c].row == i ==> !Active(w, c)
    ensures Agree(w.(books := SetStatus(w.books, i, s)))
  {
    hide TablesFit, ForwardsFit, CallsFit, SweepFits;
    RowChanged(w, i, w.books.rows[i].(status := s), w.books.ledger);
  }

  lemma OverwriteAgrees(w: World, i: nat, s: RowStatus)
    requires Agree(w) && (s == OutcomeUnknown || s == AwaitingApproval)
    requires s == AwaitingApproval && i < |w.books.rows| ==>
      NoRecord(w.signer.rows, w.books.rows[i].id) && forall c :: c in w.forwards && w.forwards[c].row == i ==> !Active(w, c)
    ensures Agree(w.(books := Overwrite(w.books, i, s)))
  {
    hide Agree;
    if i < |w.books.rows| && w.books.rows[i].recipient.Some? { RowRestatused(w, i, s); }
  }

  /** Recording a payment the journal confirms: the ledger gains exactly one true entry, or had it. */
  lemma MarkPaidAgrees(w: World, i: nat, seen: PayoutRow, k: nat)
    requires Agree(w) && i < |w.books.rows| && SameRow(seen, w.books.rows[i])
    requires k < |w.signer.rows| && w.signer.rows[k].order.payout == seen.id && w.signer.rows[k].status == Confirmed
    ensures Agree(w.(books := MarkPaid(w.books, i, seen, w.signer.rows[k].tx)))
  {
    if InFlight(w.books.rows[i].status) {
      var tx := w.signer.rows[k].tx;
      var to := w.books.rows[i].(status := RowStatus.Paid, tx := Some(tx));
      assert Settled(w.signer.rows, to.id, Confirmed, tx);
      RecordOfRow(w, i, k);
      var e := EntryFor(seen, tx);
      assert EntryTrue(e, w.signer.rows);
      LedgerGains(w, i, to, e);
      RowChanged(w, i, to, LedgerWith(w.books.ledger, e));
    }
  }

  lemma LedgerGains(w: World, i: nat, to: PayoutRow, e: Entry)
    requires Agree(w) && i < |w.books.rows| && to == w.books.rows[i].(status := to.status, tx := to.tx)
    requires e.payout == to.id && EntryTrue(e, w.signer.rows)
    ensures LedgerTrue(w.(books := Books(w.books.rows[i := to], LedgerWith(w.books.ledger, e))))
  {
    hide TablesFit, ForwardsFit, CallsFit, SweepFits;
    var before, after := w.books.ledger, LedgerWith(w.books.ledger, e);
    assert Entered(after, e.payout) by {
      if Conflicts(before, e) {
        var k :| 0 <= k < |before| && (before[k].payout == e.payout || before[k].tx == e.tx);
        SameTransferSamePayout(w.signer.rows, before[k], e);
        assert after[k].payout == e.payout;
      } else {
        assert after[|before|].payout == e.payout;
      }
    }
    forall j | 0 <= j < |w.books.rows| && j != i && w.books.rows[j].status == RowStatus.Paid ensures Entered(after, w.books.rows[j].id) {
      var k :| 0 <= k < |before| && before[k].payout == w.books.rows[j].id;
      assert after[k].payout == w.books.rows[j].id;
    }
  }

  lemma SameTransferSamePayout(journal: seq<Row>, a: Entry, b: Entry)
    requires Distinct(journal) && EntryTrue(a, journal) && EntryTrue(b, journal) && a.tx == b.tx
    ensures a.payout == b.payout
  {
    var i :| 0 <= i < |journal| && journal[i].order.payout == a.payout && journal[i].tx == a.tx;
    var j :| 0 <= j < |journal| && journal[j].order.payout == b.payout && journal[j].tx == b.tx;
    if i != j { Run.RowsDiffer(journal, i, j); }
  }

  // ----- the steps -----

  lemma FreshIdsFresh(w: World, n: nat)
    requires Agree(w)
    ensures Fresh(w.books.rows, FreshIds(w.nextId, n))
  {
  }

  lemma ImportAgrees(w: World, s: Statement, verifies: bool, cfg: AgentConfig)
    requires Agree(w)
    ensures Agree(Importing(w, s, verifies, cfg)) && OnlyUnpaidChanged(w.books.rows, Importing(w, s, verifies, cfg).books.rows)
  {
    hide Agree;
    var t := Tables(w.books.rows, w.held, w.nextId);
    match AnswerTo(t, s, verifies, cfg)
    case AlreadyImported => RefreshAgrees(w, Some(s.pool.hackathon));
    case Imported =>
      var m := Import(s, cfg.mints[s.money.currency], w.wallets);
      RowsSound(w);
      FreshIdsFresh(w, |s.lines|);
      ImportedRowsFit(m, w.books.rows, w.nextId);
      ImportKeepsDistinct(m, w.books.rows, FreshIds(w.nextId, |s.lines|));
      ImportKeepsRecipients(m, w.books.rows, FreshIds(w.nextId, |s.lines|));
      UnpaidRowsChanged(w, Importing(w, s, verifies, cfg));
    case _ =>
      assert Importing(w, s, verifies, cfg) == w;
  }

  lemma RowsSound(w: World)
    requires Agree(w)
    ensures RowsDistinct(w.books.rows) && RecipientsFrozen(w.books.rows)
  {
  }

  lemma ImportedRowsFit(m: Import, before: seq<PayoutRow>, next: nat)
    requires WellFormed(m.s) && RowsDistinct(before) && Fresh(before, FreshIds(next, |m.s.lines|))
    ensures
      var after := AfterImport(m, before, FreshIds(next, |m.s.lines|));
      OnlyUnpaidChanged(before, after) && forall i :: |before| <= i < |after| ==> after[i].id.n < next + |m.s.lines|
  {
    var ids := FreshIds(next, |m.s.lines|);
    var after := AfterImport(m, before, ids);
    ImportAt(m, before, ids);
    hide AfterImport;
    forall i | 0 <= i < |before| ensures if Unpaid(before[i].status) then SameRow(before[i], after[i]) && Unpaid(after[i].status) else after[i] == before[i] {
      assert ImportedFrom(m, before[i], after[i]);
    }
    forall i | |before| <= i < |after| ensures Unpaid(after[i].status) && after[i].id.n < next + |ids| {
      assert NewFrom(m, before, m.s.lines, ids, after[i]);
    }
  }

  lemma RefreshAgrees(w: World, hackathon: Option<Uuid>)
    requires Agree(w)
    ensures Agree(w.(books := w.books.(rows := RefreshRows(w.books.rows, w.wallets, hackathon))))
  {
    hide Agree;
    RowsSound(w);
    UnpaidRowsChanged(w, w.(books := w.books.(rows := RefreshRows(w.books.rows, w.wallets, hackathon))));
  }

  /** A row nothing is out for is written over, whatever it was; its winner stays. */
  lemma RowReset(w: World, i: nat, to: PayoutRow)
    requires Agree(w) && i < |w.books.rows| && Unclaimed(w, i)
    requires SameRow(w.books.rows[i], to) && Unpaid(to.status) && (to.recipient.Some? <==> HasRecipient(to.status))
    ensures Agree(w.(books := w.books.(rows := w.books.rows[i := to])))
  {
    var w' := w.(books := w.books.(rows := w.books.rows[i := to]));
    RowResetTables(w, w', i, to);
    RowResetForwards(w, w', i, to);
    RowResetLedger(w, w', i, to);
    hide TablesFit, ForwardsFit, LedgerTrue, Unclaimed;
    forall k | k in w'.sweeps ensures SweepFits(w', w'.sweeps[k]) { assert SweepFits(w, w.sweeps[k]); }
  }

  lemma RowResetTables(w: World, w': World, i: nat, to: PayoutRow)
    requires TablesFit(w) && i < |w.books.rows| && w'.books.rows == w.books.rows[i := to] && w'.signer == w.signer && w'.nextId == w.nextId
    requires i < |w.books.rows| && NoRecord(w.signer.rows, w.books.rows[i].id)
    requires SameRow(w.books.rows[i], to) && Unpaid(to.status) && (to.recipient.Some? <==> HasRecipient(to.status))
    ensures TablesFit(w')
  {
    forall k | 0 <= k < |w.signer.rows| ensures Owned(w'.books.rows, w.signer.rows[k]) {
      var o :| 0 <= o < |w.books.rows| && Owns(w.books.rows[o], w.signer.rows[k]);
      assert Owns(w'.books.rows[o], w.signer.rows[k]);
    }
  }

  lemma RowResetForwards(w: World, w': World, i: nat, to: PayoutRow)
    requires ForwardsFit(w) && i < |w.books.rows| && w'.books.rows == w.books.rows[i := to] && w'.signer == w.signer && w'.forwards == w.forwards
    requires i < |w.books.rows| && Unclaimed(w, i) && SameRow(w.books.rows[i], to)
    ensures ForwardsFit(w')
  {
    forall c | c in w.forwards ensures ForwardFits(w', c) { assert ForwardFits(w, c); }
  }

  lemma RowResetLedger(w: World, w': World, i: nat, to: PayoutRow)
    requires LedgerTrue(w) && i < |w.books.rows| && w'.books == w.books.(rows := w.books.rows[i := to]) && w'.signer == w.signer
    requires i < |w.books.rows| && Unpaid(to.status)
    ensures LedgerTrue(w')
  {
    hide EntryTrue, Entered;
  }

  lemma RewriteAgrees(w: World, k: nat)
    requires Agree(w) && Orderly(w, RefreezeWrite(k))
    ensures Agree(Do(w, RefreezeWrite(k)))
  {
    hide Agree;
    if Rewriting(w, k) {
      var i := w.refreezes[k].row;
      RowReset(w, i, FrozenWith(w.books.rows[i], w.refreezes[k].wallet));
      var w1 := w.(books := w.books.(rows := w.books.rows[i := FrozenWith(w.books.rows[i], w.refreezes[k].wallet)]));
      NotesAgree(w1, w1.(refreezes := w.refreezes - {k}));
    }
  }

  lemma ReadAgrees(w: World, s: Step)
    requires Agree(w) && s.ReadForApproval?
    ensures Agree(Do(w, s))
  {
    hide Agree, FindHeld;
    var w' := Do(w, s);
    if w' != w {
      ForwardSet(w, w', s.call);
    }
  }

  lemma CheckWalletAgrees(w: World, c: nat)
    requires Agree(w)
    ensures Agree(Do(w, CheckWallet(c)))
  {
    hide Agree;
    if c in w.forwards && w.forwards[c].stage == Read {
      ForwardAt(w, c);
      if Wallet(w.wallets, w.forwards[c].seen.winner.user) == w.forwards[c].seen.recipient {
        ForwardSet(w, Do(w, CheckWallet(c)), c);
      } else {
        assert w.signer.calls - {c} == w.signer.calls;
        ForwardDropped(w, c);
      }
    }
  }

  lemma ClaimAgrees(w: World, c: nat)
    requires Agree(w) && Orderly(w, Claim(c))
    ensures Agree(Do(w, Claim(c)))
  {
    hide Agree;
    if c in w.forwards && w.forwards[c].stage == Checked && w.forwards[c].row < |w.books.rows| {
      var f := w.forwards[c];
      ForwardAt(w, c);
      assert c !in w.signer.calls;
      if w.books.rows[f.row].status == AwaitingApproval {
        var w1 := w.(books := SetStatus(w.books, f.row, Submitted));
        var w2 := w1.(forwards := w.forwards[c := f.(stage := Claimed)]);
        assert Do(w, Claim(c)) == w2;
        assert StillAsRead(f.seen, w.books.rows[f.row]);
        hide Do, Orderly, NoRecord;
        UnpaidHasNoRecord(w, f.row);
        RowsSound(w);
        forall d | d in w.forwards && Active(w, d) ensures w.forwards[d].row != f.row { ForwardAt(w, d); }
        RowRestatused(w, f.row, Submitted);
        ForwardSet(w1, w2, c);
      } else {
        assert w.signer.calls - {c} == w.signer.calls;
        ForwardDropped(w, c);
      }
    }
  }

  lemma PostAgrees(w: World, c: nat)
    requires Agree(w)
    ensures Agree(Do(w, Post(c)))
  {
    hide Agree;
    var w' := Do(w, Post(c));
    if w' != w {
      ForwardAt(w, c);
      assert forall d :: d in w.forwards && d != c && Active(w, d) ==> w.forwards[d].row != w.forwards[c].row by {
        forall d | d in w.forwards && d != c && Active(w, d) ensures w.forwards[d].row != w.forwards[c].row { ActiveApart(w, c, d); }
      }
      ForwardSet(w, w', c);
    }
  }

  lemma ReplyIs(w: World, c: nat)
    requires c in w.forwards && Waited(w.forwards[c]) && c in w.signer.calls && w.signer.calls[c].Answered?
    ensures Do(w, Reply(c)) == Without(w, c).(books := Answered(w.books, w.forwards[c], w.signer.calls[c].outcome))
  {
    hide Answered;
  }

  /** The reply, taken once its call is gone: a payment is recorded, a certain refusal opens the row again, anything else leaves it unknown. */
  lemma ReplyAgrees(w: World, c: nat)
    requires Agree(w)
    ensures Agree(Do(w, Reply(c)))
  {
    hide Agree, Answered;
    if c in w.forwards && w.forwards[c].stage == Posted(true) && c in w.signer.calls && w.signer.calls[c].Answered? {
      ReplyIs(w, c);
      hide Do;
      ForwardDropped(w, c);
      if w.signer.calls[c].outcome.Paid? {
        PaidReplyAgrees(w, c);
      } else {
        OtherReplyAgrees(w, c);
      }
    }
  }

  lemma PaidReplyAgrees(w: World, c: nat)
    requires Agree(w) && Agree(Without(w, c)) && c in w.forwards && Waited(w.forwards[c])
    requires c in w.signer.calls && w.signer.calls[c].Answered? && w.signer.calls[c].outcome.Paid?
    ensures Agree(Without(w, c).(books := Answered(w.books, w.forwards[c], w.signer.calls[c].outcome)))
  {
    hide Agree, MarkPaid;
    var f, o := w.forwards[c], w.signer.calls[c].outcome;
    CallAt(w, c);
    var k :| 0 <= k < |w.signer.rows| && w.signer.rows[k].order.payout == f.seen.id && w.signer.rows[k].status == Confirmed && w.signer.rows[k].tx == o.tx;
    MarkPaidAgrees(Without(w, c), f.row, f.seen, k);
  }

  lemma OtherReplyAgrees(w: World, c: nat)
    requires Agree(w) && Agree(Without(w, c)) && c in w.forwards && Waited(w.forwards[c])
    requires c in w.signer.calls && w.signer.calls[c].Answered? && !w.signer.calls[c].outcome.Paid?
    ensures Agree(Without(w, c).(books := Answered(w.books, w.forwards[c], w.signer.calls[c].outcome)))
  {
    hide Agree, Overwrite;
    var f, o, w1 := w.forwards[c], w.signer.calls[c].outcome, Without(w, c);
    CallAt(w, c);
    if ReadAsRefused(o) {
      forall d | d in w1.forwards && w1.forwards[d].row == f.row ensures !Active(w1, d) {
        if Active(w, d) { ActiveApart(w, c, d); }
      }
    }
    OverwriteAgrees(w1, f.row, if ReadAsRefused(o) then AwaitingApproval else OutcomeUnknown);
  }

  /** The agent stops listening to a call that may still be running. */
  lemma Unlisten(w: World, c: nat)
    requires Agree(w) && c in w.forwards && w.forwards[c].stage.Posted?
    ensures Agree(w.(forwards := w.forwards[c := w.forwards[c].(stage := Posted(false))]))
  {
    hide Agree;
    var w' := w.(forwards := w.forwards[c := w.forwards[c].(stage := Posted(false))]);
    ForwardAt(w, c);
    if c in w.signer.calls { CallAt(w, c); }
    if Active(w', c) {
      forall d | d in w.forwards && d != c && Active(w, d) ensures w.forwards[d].row != w.forwards[c].row { ActiveApart(w, c, d); }
    }
    ForwardSet(w, w', c);
  }

  lemma LoseReplyAgrees(w: World, c: nat)
    requires Agree(w)
    ensures Agree(Do(w, LoseReply(c)))
  {
    hide Agree;
    if c in w.forwards && w.forwards[c].stage in {Claimed, Posted(true)} {
      ForwardAt(w, c);
      var w1 := w.(books := Overwrite(w.books, w.forwards[c].row, OutcomeUnknown));
      OverwriteAgrees(w, w.forwards[c].row, OutcomeUnknown);
      if w.forwards[c].stage == Claimed {
        assert w1.signer.calls - {c} == w1.signer.calls;
        ForwardDropped(w1, c);
      } else {
        Unlisten(w1, c);
      }
    }
  }

  lemma StopAgrees(w: World, c: nat)
    requires Agree(w)
    ensures Agree(Do(w, StopWaiting(c)))
  {
    hide Agree;
    if c in w.forwards {
      ForwardAt(w, c);
      if w.forwards[c].stage.Posted? {
        Unlisten(w, c);
      } else {
        assert w.signer.calls - {c} == w.signer.calls;
        ForwardDropped(w, c);
      }
    }
  }

  lemma ForgetAgrees(w: World, c: nat)
    requires Agree(w)
    ensures Agree(Do(w, Forget(c)))
  {
    hide Agree;
    ForwardDropped(w, c);
  }

  // ----- a reconcile -----

  lemma SweepSet(w: World, w': World, k: nat)
    requires Agree(w) && w' == w.(sweeps := w'.sweeps)
    requires w'.sweeps == w.sweeps - {k} || (k in w'.sweeps && w'.sweeps == w.sweeps[k := w'.sweeps[k]] && SweepFits(w, w'.sweeps[k]))
    ensures Agree(w')
  {
    hide RowTold, Owned, EntryTrue, Entered, CallFits, ForwardFits, RecipientsFrozen, RowsDistinct, Distinct;
    SameForwardsFit(w, w');
    SameSweepsFit(w, w', k);
    hide ForwardsFit, SweepFits;
  }

  lemma SameSweepsFit(w: World, w': World, k: nat)
    requires (forall j :: j in w.sweeps ==> SweepFits(w, w.sweeps[j])) && w' == w.(sweeps := w'.sweeps)
    requires w'.sweeps == w.sweeps - {k} || (k in w'.sweeps && w'.sweeps == w.sweeps[k := w'.sweeps[k]] && SweepFits(w, w'.sweeps[k]))
    ensures forall j :: j in w'.sweeps ==> SweepFits(w', w'.sweeps[j])
  {
    forall j | j in w'.sweeps ensures SweepFits(w', w'.sweeps[j]) {
      if j in w.sweeps && w'.sweeps[j] == w.sweeps[j] { assert SweepFits(w, w.sweeps[j]); }
    }
  }

  lemma SameForwardsFit(w: World, w': World)
    requires ForwardsFit(w) && w'.signer == w.signer && w'.books == w.books && w'.forwards == w.forwards
    ensures ForwardsFit(w')
  {
    forall c | c in w.forwards ensures ForwardFits(w', c) { assert ForwardFits(w, c); }
  }

  lemma SweepJournalAgrees(w: World, k: nat)
    requires Agree(w)
    ensures Agree(Do(w, SweepJournal(k)))
  {
    if k in w.sweeps && w.sweeps[k].journal.None? {
      assert SweepFits(w, w.sweeps[k]);
      hide Agree;
      SweepSet(w, Do(w, SweepJournal(k)), k);
    }
  }

  /** One row of a reconcile, written from its copies over the row as it now is. */
  lemma SweepRowAgrees(w: World, k: nat, i: nat, aged: bool)
    requires Agree(w) && Orderly(w, SweepRow(k, i, aged))
    ensures Agree(Sweeping(w, k, i, aged))
  {
    hide Agree, Do;
    if k in w.sweeps && w.sweeps[k].journal.Some? && i in w.sweeps[k].seen && i < |w.books.rows| {
      var sw := w.sweeps[k];
      StillFits(w, k);
      DictatedAgrees(w, sw, i, aged);
      hide Dictate, Reconciled, Orderly;
      var w1 := w.(books := Reconciled(w.books, i, sw.seen[i], Dictate(sw.seen[i], sw.journal.value, aged)));
      StillFits(w1, k);
      SweepSet(w1, Sweeping(w, k, i, aged), k);
    }
  }

  lemma StillFits(w: World, k: nat)
    requires Agree(w) && k in w.sweeps
    ensures SweepFits(w, w.sweeps[k]) && forall i :: SweepFits(w, w.sweeps[k].(seen := w.sweeps[k].seen - {i}))
  {
    assert SweepFits(w, w.sweeps[k]);
  }

  lemma DictatedAgrees(w: World, sw: Sweep, i: nat, aged: bool)
    requires Agree(w) && SweepFits(w, sw) && sw.journal.Some? && i in sw.seen && i < |w.books.rows|
    requires aged && Dictate(sw.seen[i], sw.journal.value, true) == Release ==> Unclaimed(w, i)
    ensures Agree(w.(books := Reconciled(w.books, i, sw.seen[i], Dictate(sw.seen[i], sw.journal.value, aged))))
  {
    hide Agree;
    var seen := sw.seen[i];
    RowsSound(w);
    match Dictate(seen, sw.journal.value, aged)
    case ToPaid(tx) =>
      var k := Find(sw.journal.value, ByPayout(seen.id)).value;
      assert w.signer.rows[k].order == sw.journal.value[k].order && w.signer.rows[k].tx == tx;
      MarkPaidAgrees(w, i, seen, k);
    case ToFailed =>
      var k := Find(sw.journal.value, ByPayout(seen.id)).value;
      assert w.signer.rows[k].order == sw.journal.value[k].order;
      if InFlight(w.books.rows[i].status) { RowRestatused(w, i, RowStatus.Failed); }
    case ToUnknown => if seen.status != OutcomeUnknown { OverwriteAgrees(w, i, OutcomeUnknown); }
    case OtherPayout => OverwriteAgrees(w, i, OutcomeUnknown);
    case Release => if InFlight(w.books.rows[i].status) { RowRestatused(w, i, AwaitingApproval); }
    case Wait =>
  }

  /** Nothing but the wallets and what refreezes have read changed. */
  lemma NotesAgree(w: World, w': World)
    requires Agree(w) && w' == w.(wallets := w'.wallets, refreezes := w'.refreezes)
    ensures Agree(w')
  {
    SameForwardsFit(w, w');
    hide ForwardsFit, ForwardFits, TablesFit, LedgerTrue, CallFits;
    SamePlaces(w, w');
  }

  // ----- every orderly run -----

  lemma StepAgrees(w: World, s: Step)
    requires Agree(w) && Orderly(w, s)
    ensures Agree(Do(w, s))
  {
    hide Agree;
    match s
    case Signer(step) => SignerStepAgrees(w, step);
    case ImportStatement(st, verifies, cfg) => ImportAgrees(w, st, verifies, cfg);
    case Relink(_, _) => NotesAgree(w, Do(w, s));
    case Refresh(hackathon) => RefreshAgrees(w, hackathon);
    case RefreezeRow(_, _) => NotesAgree(w, Do(w, s));
    case RefreezeWallet(_) => NotesAgree(w, Do(w, s));
    case RefreezeWrite(k) => RewriteAgrees(w, k);
    case ReadForApproval(_, _, _, _, _, _) => ReadAgrees(w, s);
    case CheckWallet(c) => CheckWalletAgrees(w, c);
    case Claim(c) => ClaimAgrees(w, c);
    case Post(c) => PostAgrees(w, c);
    case Reply(c) => ReplyAgrees(w, c);
    case LoseReply(c) => LoseReplyAgrees(w, c);
    case StopWaiting(c) => StopAgrees(w, c);
    case Forget(c) => ForgetAgrees(w, c);
    case SweepRows(k, hackathon) => SweepRowsAgrees(w, k, hackathon);
    case SweepJournal(k) => SweepJournalAgrees(w, k);
    case SweepRow(k, i, aged) => SweepRowAgrees(w, k, i, aged);
    case SweepEnd(k) => SweepSet(w, Do(w, s), k);
  }

  lemma SweepRowsAgrees(w: World, k: nat, hackathon: Option<Uuid>)
    requires Agree(w)
    ensures Agree(Do(w, SweepRows(k, hackathon)))
  {
    hide Agree;
    if k !in w.sweeps { SweepSet(w, Do(w, SweepRows(k, hackathon)), k); }
  }

  lemma {:induction false} EveryOrderlyRun(steps: seq<Step>)
    requires OrderlyRun(steps)
    ensures Agree(Exec(steps))
  {
    if steps != [] {
      var before := steps[..|steps| - 1];
      assert OrderlyRun(before) by {
        forall n | 0 <= n < |before| ensures Orderly(Exec(before[..n]), before[n]) { assert before[..n] == steps[..n]; }
      }
      EveryOrderlyRun(before);
      StepAgrees(Exec(before), steps[|steps| - 1]);
    }
  }

  // ----- what it says of each row -----

  ghost predicate RecordedAs(journal: seq<Row>, row: PayoutRow, s: Status) {
    exists k :: 0 <= k < |journal| && journal[k].order.payout == row.id && journal[k].status == s && journal[k].order.winner == row.winner
      && journal[k].order.amount == row.amount && journal[k].order.money == row.money && row.recipient == Some(journal[k].order.recipient)
      && (s == Confirmed ==> row.tx == Some(journal[k].tx))
  }

  /** An unpaid row has no journal row, a paid row has a confirmed one for the same winner, amount, recipient and
      transaction, and is in the ledger, a failed row has one that sent nothing; a recipient is set exactly while the row
      awaits approval or was sent. */
  ghost predicate RowAgreed(row: PayoutRow, journal: seq<Row>, ledger: seq<Entry>) {
    && (Unpaid(row.status) ==> NoRecord(journal, row.id))
    && (row.status == RowStatus.Paid ==> RecordedAs(journal, row, Confirmed) && Entered(ledger, row.id))
    && (row.status == RowStatus.Failed ==> RecordedAs(journal, row, FailedUnsent))
    && (row.recipient.Some? <==> HasRecipient(row.status))
  }

  /** What anybody can check by reading the three tables: every row is agreed, and every ledger entry is of a different
      payment the journal confirms. */
  ghost predicate VisiblyAgrees(w: World) {
    && (forall i :: 0 <= i < |w.books.rows| ==> RowAgreed(w.books.rows[i], w.signer.rows, w.books.ledger))
    && LedgerTrue(w)
  }

  /** In every orderly run rows, ledger and journal visibly agree. */
  lemma AgreementOverRuns(steps: seq<Step>)
    requires OrderlyRun(steps)
    ensures VisiblyAgrees(Exec(steps))
  {
    EveryOrderlyRun(steps);
    AgreeIsVisible(Exec(steps));
  }

  lemma AgreeIsVisible(w: World)
    requires Agree(w)
    ensures VisiblyAgrees(w)
  {
    assert LedgerTrue(w);
    hide Agree;
    forall i | 0 <= i < |w.books.rows| ensures RowAgreed(w.books.rows[i], w.signer.rows, w.books.ledger) { AgreedRow(w, i); }
  }

  lemma AgreedRow(w: World, i: nat)
    requires Agree(w) && i < |w.books.rows|
    ensures RowAgreed(w.books.rows[i], w.signer.rows, w.books.ledger)
  {
    var row := w.books.rows[i];
    hide ForwardsFit, CallsFit;
    assert RowTold(row, w.signer.rows);
    if Unpaid(row.status) {
      UnpaidHasNoRecord(w, i);
    } else if row.status == RowStatus.Paid {
      var k :| 0 <= k < |w.signer.rows| && w.signer.rows[k].order.payout == row.id && w.signer.rows[k].status == Confirmed && w.signer.rows[k].tx == row.tx.value;
      RecordOfRow(w, i, k);
    } else if row.status == RowStatus.Failed {
      var k :| 0 <= k < |w.signer.rows| && w.signer.rows[k].order.payout == row.id && w.signer.rows[k].status == FailedUnsent;
      RecordOfRow(w, i, k);
    }
  }
}
