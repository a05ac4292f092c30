/**
 * When the agent's rows and the signer's journal agree. Four things must not happen; without them every reachable
 * state agrees. For each of the four GrainhackRaces has a run in which it happens once and nothing else does, and they part.
 */
module GrainhackOrderly {
  import opened Basics
  import opened GrainhackJournal
  import opened GrainhackStatement
  import opened GrainhackSigner
  import opened GrainhackAgent
  import opened GrainhackBooks
  import opened GrainhackChain
  import opened GrainhackIntake
  import opened GrainhackAgreement
  import Run = GrainhackRun

  // ----- the assumptions -----

  /** The pay call for this payout is between its reserve and its last mark. */
  predicate Running(w: Run.World, c: nat, payout: Uuid) {
    && c in w.calls && (w.calls[c].Holding? || w.calls[c].Marked? || w.calls[c].Broadcasting?)
    && w.calls[c].id < |w.rows| && w.rows[w.calls[c].id].order.payout == payout
  }

  predicate StillAsRead(seen: PayoutRow, row: PayoutRow) {
    row.amount == seen.amount && row.recipient == seen.recipient
  }

  predicate NoRecord(rows: seq<Row>, payout: Uuid) {
    forall k :: 0 <= k < |rows| ==> rows[k].order.payout != payout
  }

  /** An answer that is filed as unknown, whatever has become of the row. */
  predicate LeavesUnknown(o: Outcome) {
    !o.Paid? && !ReadAsRefused(o)
  }

  /** Of a request posted nothing more can come but a write of `unknown`: the signer's call is over, and the agent has
      stopped waiting for it, or it was dropped unanswered, or its answer is filed as unknown. */
  predicate Spent(w: World, c: nat)
    requires c in w.forwards
  {
    && w.forwards[c].stage.Posted?
    && (c in w.signer.calls ==> w.signer.calls[c].Answered? && (Waited(w.forwards[c]) ==> LeavesUnknown(w.signer.calls[c].outcome)))
  }

  /** The row was claimed for this request, and a payment or a refusal may yet come of it. */
  predicate Active(w: World, c: nat)
    requires c in w.forwards
  {
    !w.forwards[c].stage.Read? && !w.forwards[c].stage.Checked? && !Spent(w, c)
  }

  /** No pay request is out for this row of which a payment or a refusal may yet come, and the journal has none of its payout. */
  predicate Unclaimed(w: World, i: nat)
    requires i < |w.books.rows|
  {
    && (forall c :: c in w.forwards && w.forwards[c].row == i ==> !Active(w, c))
    && NoRecord(w.signer.rows, w.books.rows[i].id)
  }

  /** The agent is waiting for this call's answer; once it has stopped it never starts again. */
  predicate Waited(f: Forward) {
    f.stage == Posted(true)
  }

  /**
   * Only the agent sends pay requests; a payout is not resolved while the agent waits for its running pay call; when a
   * row is claimed it still has the amount and recipient `approve` read; and a row is opened to approval, by a reconcile
   * that takes it for an orphan or by a refreeze, only while no pay request for it is out and none is recorded.
   */
  predicate Orderly(w: World, s: Step) {
    match s
    case Signer(Arrive(_, _)) => false
    case Signer(Resolve(payout, _, _)) => forall c :: c in w.forwards && Running(w.signer, c, payout) ==> !Waited(w.forwards[c])
    case Claim(c) => c in w.forwards && w.forwards[c].row < |w.books.rows| ==> StillAsRead(w.forwards[c].seen, w.books.rows[w.forwards[c].row])
    case SweepRow(k, i, true) =>
      i < |w.books.rows| && k in w.sweeps && w.sweeps[k].journal.Some? && i in w.sweeps[k].seen && Dictate(w.sweeps[k].seen[i], w.sweeps[k].journal.value, true) == Release ==>
        Unclaimed(w, i)
    case RefreezeWrite(k) => Rewriting(w, k) ==> Unclaimed(w, w.refreezes[k].row)
    case _ => true
  }

  ghost predicate OrderlyRun(steps: seq<Step>) {
    forall n :: 0 <= n < |steps| ==> Orderly(Exec(steps[..n]), steps[n])
  }

  // ----- the invariant -----

  /** Journal row j is the record of agent row r's payment. */
  ghost predicate Owns(r: PayoutRow, j: Row) {
    && j.order.payout == r.id && j.order.winner == r.winner && j.order.amount == r.amount && j.order.money == r.money
    && r.recipient == Some(j.order.recipient) && !Unpaid(r.status)
  }

  ghost predicate Owned(rows: seq<PayoutRow>, j: Row) {
    exists i :: 0 <= i < |rows| && Owns(rows[i], j)
  }

  ghost predicate SameOrder(req: Request, r: PayoutRow) {
    var t := req.approval.terms;
    t.payout == r.id && t.winner == r.winner && t.amount == r.amount && t.money == r.money && Some(t.recipient) == r.recipient
  }

  ghost predicate SameRow(a: PayoutRow, b: PayoutRow) {
    a.id == b.id && a.winner == b.winner && a.money == b.money
  }

  /** Some journal row of this payout is settled this way, with this transfer. */
  ghost predicate Settled(rows: seq<Row>, payout: Uuid, s: Status, tx: Transfer) {
    exists k :: 0 <= k < |rows| && rows[k].order.payout == payout && rows[k].status == s && rows[k].tx == tx
  }

  ghost predicate RowTold(r: PayoutRow, journal: seq<Row>) {
    && (r.status == RowStatus.Paid ==> r.tx.Some? && Settled(journal, r.id, Confirmed, r.tx.value))
    && (r.status == RowStatus.Failed ==> exists k :: 0 <= k < |journal| && journal[k].order.payout == r.id && journal[k].status == FailedUnsent)
  }

  ghost predicate ForwardFits(w: World, c: nat)
    requires c in w.forwards
  {
    var f := w.forwards[c];
    && f.row < |w.books.rows|
    && SameRow(f.seen, w.books.rows[f.row]) && SameOrder(f.req, f.seen)
    && (Active(w, c) ==> !Unpaid(w.books.rows[f.row].status) && f.seen.amount == w.books.rows[f.row].amount && f.seen.recipient == w.books.rows[f.row].recipient)
    && (f.stage == Claimed ==> NoRecord(w.signer.rows, w.books.rows[f.row].id))
  }

  /** The signer's call is about the row that was forwarded; while the agent waits for it, nobody else has moved the
      journal row it holds, and its answer tells whether the journal has one. */
  ghost predicate CallFits(journal: seq<Row>, f: Forward, c: Run.Call) {
    var id := f.seen.id;
    match c
    case Arrived(req) => req == f.req && NoRecord(journal, id)
    case Building(o, _, _) => o == OrderFor(f.req, o.day) && NoRecord(journal, id)
    case Holding(k) => k < |journal| && journal[k].order.payout == id && (Waited(f) ==> journal[k].status == Reserved)
    case Marked(k) => k < |journal| && journal[k].order.payout == id && (Waited(f) ==> journal[k].status == Status.Sent)
    case Broadcasting(k) => k < |journal| && journal[k].order.payout == id && (Waited(f) ==> journal[k].status == Status.Sent)
    case Answered(o) =>
      Waited(f) ==> (o.Paid? ==> Settled(journal, id, Confirmed, o.tx)) && (ReadAsRefused(o) ==> NoRecord(journal, id))
  }

  ghost predicate CallsFit(w: World) {
    forall c :: c in w.signer.calls ==> c in w.forwards && w.forwards[c].stage.Posted? && CallFits(w.signer.rows, w.forwards[c], w.signer.calls[c])
  }

  ghost predicate ForwardsFit(w: World) {
    && (forall c :: c in w.forwards ==> ForwardFits(w, c) && (c in w.signer.calls ==> w.forwards[c].stage.Posted?))
    && (forall c, d :: c in w.forwards && d in w.forwards && c != d && Active(w, c) && Active(w, d) ==> w.forwards[c].row != w.forwards[d].row)
  }

  /** The entry is of a payment the journal confirms. Its amount is a matter of its own: see GrainhackAmounts. */
  ghost predicate EntryTrue(e: Entry, journal: seq<Row>) {
    exists k :: 0 <= k < |journal| && journal[k].status == Confirmed && journal[k].order.payout == e.payout
      && journal[k].order.winner == e.winner && journal[k].order.money == e.money && journal[k].tx == e.tx
  }

  ghost predicate LedgerTrue(w: World) {
    && (forall k :: 0 <= k < |w.books.ledger| ==> EntryTrue(w.books.ledger[k], w.signer.rows))
    && (forall k, m :: 0 <= k < m < |w.books.ledger| ==> w.books.ledger[k].payout != w.books.ledger[m].payout)
    && (forall i :: 0 <= i < |w.books.rows| && w.books.rows[i].status == RowStatus.Paid ==> Entered(w.books.ledger, w.books.rows[i].id))
  }

  ghost predicate Entered(ledger: seq<Entry>, payout: Uuid) {
    exists k :: 0 <= k < |ledger| && ledger[k].payout == payout
  }

  /** A sweep's copies are of the rows they were read from, and its journal is an earlier one. */
  ghost predicate SweepFits(w: World, sw: Sweep) {
    && (forall i :: i in sw.seen ==> i < |w.books.rows| && SameRow(sw.seen[i], w.books.rows[i]))
    && (sw.journal.Some? ==> Extends(sw.journal.value, w.signer.rows))
  }

  ghost predicate TablesFit(w: World) {
    && RowsDistinct(w.books.rows) && RecipientsFrozen(w.books.rows)
    && (forall i :: 0 <= i < |w.books.rows| ==> w.books.rows[i].id.n < w.nextId && RowTold(w.books.rows[i], w.signer.rows))
    && (forall k :: 0 <= k < |w.signer.rows| ==> Owned(w.books.rows, w.signer.rows[k]))
  }

  ghost predicate Agree(w: World) {
    && Distinct(w.signer.rows)
    && TablesFit(w) && ForwardsFit(w) && CallsFit(w) && LedgerTrue(w)
    && forall k :: k in w.sweeps ==> SweepFits(w, w.sweeps[k])
  }

  // ----- journal changes -----

  /** A row of the journal changed its status, and not a settled one. */
  lemma SettledSurvives(a: seq<Row>, b: seq<Row>, payout: Uuid, s: Status, tx: Transfer)
    requires Extends(a, b) && Final(s) && Settled(a, payout, s, tx)
    ensures Settled(b, payout, s, tx)
  {
    var k :| 0 <= k < |a| && a[k].order.payout == payout && a[k].status == s && a[k].tx == tx;
    assert b[k].order.payout == payout;
  }

  lemma ToldSurvives(r: PayoutRow, a: seq<Row>, b: seq<Row>)
    requires Extends(a, b) && RowTold(r, a)
    ensures RowTold(r, b)
  {
    if r.status == RowStatus.Paid { SettledSurvives(a, b, r.id, Confirmed, r.tx.value); }
    if r.status == RowStatus.Failed {
      var k :| 0 <= k < |a| && a[k].order.payout == r.id && a[k].status == FailedUnsent;
      assert b[k].order.payout == r.id;
    }
  }

  lemma EntrySurvives(e: Entry, a: seq<Row>, b: seq<Row>)
    requires Extends(a, b) && EntryTrue(e, a)
    ensures EntryTrue(e, b)
  {
    var k :| 0 <= k < |a| && a[k].status == Confirmed && a[k].order.payout == e.payout
      && a[k].order.winner == e.winner && a[k].order.money == e.money && a[k].tx == e.tx;
    assert b[k].order == a[k].order;
  }

  /** What a journal that only grew leaves in order: everything but the calls, as long as new rows have owners. */
  lemma JournalGrew(w: World, w': World)
    requires Agree(w) && Extends(w.signer.rows, w'.signer.rows) && Distinct(w'.signer.rows)
    requires w'.books == w.books && w'.nextId == w.nextId && w'.sweeps == w.sweeps
    requires forall k :: |w.signer.rows| <= k < |w'.signer.rows| ==> Owned(w.books.rows, w'.signer.rows[k])
    requires ForwardsFit(w') && CallsFit(w')
    ensures Agree(w')
  {
    assert TablesFit(w') by {
      forall i | 0 <= i < |w.books.rows| ensures RowTold(w.books.rows[i], w'.signer.rows) { ToldSurvives(w.books.rows[i], w.signer.rows, w'.signer.rows); }
      forall k | 0 <= k < |w'.signer.rows| ensures Owned(w.books.rows, w'.signer.rows[k]) {
        if k < |w.signer.rows| {
          var i :| 0 <= i < |w.books.rows| && Owns(w.books.rows[i], w.signer.rows[k]);
          assert Owns(w.books.rows[i], w'.signer.rows[k]);
        }
      }
    }
    assert LedgerTrue(w') by {
      forall k | 0 <= k < |w.books.ledger| ensures EntryTrue(w.books.ledger[k], w'.signer.rows) { EntrySurvives(w.books.ledger[k], w.signer.rows, w'.signer.rows); }
    }
    forall k | k in w'.sweeps ensures SweepFits(w', w'.sweeps[k]) {
      assert SweepFits(w, w.sweeps[k]);
      if w.sweeps[k].journal.Some? { ExtendsTransitive(w.sweeps[k].journal.value, w.signer.rows, w'.signer.rows); }
    }
  }

  /** Calls may end or move on, but an answer stays what it is. */
  predicate AnswersStay(a: map<nat, Run.Call>, b: map<nat, Run.Call>) {
    forall c :: c in b ==> c in a && (a[c].Answered? ==> b[c] == a[c])
  }

  /** One status moved. */
  lemma StatusMoved(w: World, w': World, k: nat, to: Status, resolver: Option<Actor>)
    requires Agree(w) && CanMove(w.signer.rows, k, ResolveFrom) && to != Reserved
    requires w'.signer.rows == Moved(w.signer.rows, k, to, resolver)
    requires w'.books == w.books && w'.nextId == w.nextId && w'.sweeps == w.sweeps && w'.forwards == w.forwards
    requires AnswersStay(w.signer.calls, w'.signer.calls) && CallsFit(w')
    ensures Agree(w')
  {
    MoveKeepsDistinct(w.signer.rows, k, to, resolver);
    ForwardsStay(w, w');
    hide ForwardsFit, CallsFit, TablesFit, LedgerTrue, SweepFits;
    JournalGrew(w, w');
  }

  /** No payout came to the journal, and no answered call changed its answer. */
  lemma ForwardsStay(w: World, w': World)
    requires ForwardsFit(w) && w'.books == w.books && w'.forwards == w.forwards && AnswersStay(w.signer.calls, w'.signer.calls)
    requires |w'.signer.rows| == |w.signer.rows| && forall k :: 0 <= k < |w.signer.rows| ==> w'.signer.rows[k].order == w.signer.rows[k].order
    ensures ForwardsFit(w')
  {
    forall c | c in w.forwards ensures ForwardFits(w', c) { assert ForwardFits(w, c); }
  }

  lemma RowsApart(w: World, i: nat, j: nat)
    requires Agree(w) && i < |w.books.rows| && j < |w.books.rows|
    ensures i != j ==> w.books.rows[i].id != w.books.rows[j].id && w.books.rows[i].winner != w.books.rows[j].winner
  {
    hide TablesFit, ForwardsFit, CallsFit, LedgerTrue, SweepFits;
    assert RowsDistinct(w.books.rows) by { TablesOf(w); }
    assert i < j ==> w.books.rows[i].id != w.books.rows[j].id;
    assert j < i ==> w.books.rows[j].id != w.books.rows[i].id;
  }

  lemma TablesOf(w: World)
    requires Agree(w)
    ensures RowsDistinct(w.books.rows) && RecipientsFrozen(w.books.rows) && Distinct(w.signer.rows)
  {
    hide ForwardsFit, CallsFit, LedgerTrue, SweepFits;
  }

  lemma ActiveApart(w: World, c: nat, d: nat)
    requires Agree(w) && c in w.forwards && d in w.forwards && c != d && Active(w, c) && Active(w, d)
    ensures w.forwards[c].row != w.forwards[d].row
  {
    hide TablesFit, CallsFit, LedgerTrue, SweepFits;
  }

  lemma ForwardAt(w: World, c: nat)
    requires Agree(w) && c in w.forwards
    ensures ForwardFits(w, c) && (c in w.signer.calls ==> w.forwards[c].stage.Posted?)
    ensures Active(w, c) ==> w.books.rows[w.forwards[c].row].recipient.Some?
  {
    hide CallsFit, LedgerTrue, SweepFits;
  }

  lemma CallAt(w: World, c: nat)
    requires Agree(w) && c in w.signer.calls
    ensures c in w.forwards && w.forwards[c].stage.Posted?
    ensures CallFits(w.signer.rows, w.forwards[c], w.signer.calls[c]) && ForwardFits(w, c)
  {
    hide TablesFit, LedgerTrue, SweepFits;
  }

  /** Two calls at the signer that may yet matter are about two different payouts. */
  lemma CallsApart(w: World, c: nat, d: nat)
    requires Agree(w) && c in w.signer.calls && d in w.signer.calls && c != d
    ensures c in w.forwards && d in w.forwards
    ensures Active(w, c) && Active(w, d) ==> w.forwards[c].seen.id != w.forwards[d].seen.id
  {
    hide Agree, CallFits;
    CallAt(w, c);
    CallAt(w, d);
    if Active(w, c) && Active(w, d) { ActiveApart(w, c, d); }
    RowsApart(w, w.forwards[c].row, w.forwards[d].row);
  }

  lemma SpentFits(w: World, c: nat, journal: seq<Row>)
    requires c in w.forwards && c in w.signer.calls && Spent(w, c)
    ensures CallFits(journal, w.forwards[c], w.signer.calls[c])
  {
  }

  /** A call's own mark, where the row still stands where the call left it. */
  lemma MarkAgrees(w: World, c: nat, k: nat, to: Status, next: Run.Call)
    requires Agree(w) && c in w.signer.calls
    requires (w.signer.calls[c].Holding? || w.signer.calls[c].Marked? || w.signer.calls[c].Broadcasting?)
    requires w.signer.calls[c].id == k
    requires CanMove(w.signer.rows, k, AutoFrom(to))
    requires CallFits(Moved(w.signer.rows, k, to, None), w.forwards[c], next)
    ensures Agree(w.(signer := Run.Marking(w.signer, c, k, to, next)))
  {
    hide TablesFit, LedgerTrue, SweepFits, ForwardsFit;
    var w' := w.(signer := Run.Marking(w.signer, c, k, to, next));
    forall d | d in w'.signer.calls ensures d in w.forwards && w.forwards[d].stage.Posted? && CallFits(w'.signer.rows, w.forwards[d], w'.signer.calls[d]) {
      if d != c {
        CallsApart(w, c, d);
        if Spent(w, d) {
          SpentFits(w, d, w'.signer.rows);
        } else {
          assert CallFits(w.signer.rows, w.forwards[c], w.signer.calls[c]);
          OtherCallFits(w.signer.rows, k, to, None, w.forwards[d], w.signer.calls[d]);
        }
      }
    }
    StatusMoved(w, w', k, to, None);
  }

  lemma OtherCallFits(journal: seq<Row>, k: nat, to: Status, resolver: Option<Actor>, f: Forward, c: Run.Call)
    requires CanMove(journal, k, ResolveFrom) && CallFits(journal, f, c)
    requires Waited(f) && (c.Holding? || c.Marked? || c.Broadcasting?) ==> c.id != k
    ensures CallFits(Moved(journal, k, to, resolver), f, c)
  {
    var after := Moved(journal, k, to, resolver);
    if c.Answered? && c.outcome.Paid? && Waited(f) {
      var j :| 0 <= j < |journal| && journal[j].order.payout == f.seen.id && journal[j].status == Confirmed && journal[j].tx == c.outcome.tx;
      assert after[j] == journal[j];
    }
  }

  // ----- the signer's steps -----

  /** Only the calls at the signer changed. */
  lemma CallsChanged(w: World, w': World)
    requires Agree(w) && w'.signer.rows == w.signer.rows
    requires w'.books == w.books && w'.nextId == w.nextId && w'.sweeps == w.sweeps && w'.forwards == w.forwards
    requires AnswersStay(w.signer.calls, w'.signer.calls) && CallsFit(w')
    ensures Agree(w')
  {
    ForwardsStay(w, w');
    hide ForwardsFit, CallsFit, TablesFit, LedgerTrue;
    forall k | k in w'.sweeps ensures SweepFits(w', w'.sweeps[k]) { assert SweepFits(w, w.sweeps[k]); }
  }

  /** One call moved on, and nothing else did. */
  lemma CallMoved(w: World, v: Run.World, c: nat, next: Run.Call)
    requires Agree(w) && c in w.signer.calls && !w.signer.calls[c].Answered? && CallFits(w.signer.rows, w.forwards[c], next)
    requires v.rows == w.signer.rows && v.calls == w.signer.calls[c := next]
    ensures Agree(w.(signer := v))
  {
    hide TablesFit, LedgerTrue, SweepFits, ForwardsFit;
    assert CallsFit(w.(signer := v));
    CallsChanged(w, w.(signer := v));
  }

  lemma CheckAgrees(w: World, s: Run.Step)
    requires Agree(w) && s.Check?
    ensures Agree(w.(signer := Run.Do(w.signer, s)))
  {
    hide Agree, Begin;
    var c := s.call;
    if c in w.signer.calls && w.signer.calls[c].Arrived? {
      var req := w.signer.calls[c].req;
      CallAt(w, c);
      BeginForNew(w.signer.rows, s.cfg, req, s.now, s.day);
      var v := Run.Do(w.signer, s);
      CallMoved(w, v, c, v.calls[c]);
    } else {
      assert w.(signer := Run.Do(w.signer, s)) == w;
    }
  }

  /** A first request for a payout is either built or declined; it is never answered from another payment. */
  lemma BeginForNew(rows: seq<Row>, cfg: Config, req: Request, now: int, day: nat)
    requires NoRecord(rows, req.approval.terms.payout)
    ensures Begin(rows, cfg, req, now, day).Answer? ==> Begin(rows, cfg, req, now, day).outcome.Declined?
    ensures Begin(rows, cfg, req, now, day).Build? ==> Begin(rows, cfg, req, now, day).order == OrderFor(req, day)
  {
  }

  lemma InsertAgrees(w: World, c: nat, o: Order, limits: Limits, grant: Grant, tx: Transfer, lastValid: Option<nat>)
    requires Agree(w) && c in w.signer.calls && w.signer.calls[c] == Run.Building(o, limits, grant)
    requires ReserveResult(w.signer.rows, o, tx, limits).Inserted?
    ensures Agree(w.(signer := Run.Reserving(w.signer, c, o, limits, grant, tx, lastValid)))
  {
    assert Distinct(w.signer.rows);
    hide Agree, ReserveResult, CallFits, ForwardFits;
    var row := NewRow(o, tx, lastValid);
    CallAt(w, c);
    assert AfterReserve(w.signer.rows, o, tx, lastValid, limits) == w.signer.rows + [row];
    assert Distinct(w.signer.rows + [row]) && row.order.payout == w.forwards[c].seen.id && Owned(w.books.rows, row) by {
      BuiltOwned(w, c, row);
      ReserveKeepsDistinct(w.signer.rows, o, tx, lastValid, limits);
    }
    assert ReserveResult(w.signer.rows, o, tx, limits) == Inserted(|w.signer.rows|) by { InsertedAt(w.signer.rows, o, tx, limits); }
    RowAdded(w, Run.Reserving(w.signer, c, o, limits, grant, tx, lastValid), c, row);
  }

  lemma InsertedAt(rows: seq<Row>, o: Order, tx: Transfer, limits: Limits)
    requires ReserveResult(rows, o, tx, limits).Inserted?
    ensures ReserveResult(rows, o, tx, limits).id == |rows|
  {
  }

  /** What a call is building is what its row was forwarded for. */
  lemma BuiltOwned(w: World, c: nat, row: Row)
    requires Agree(w) && c in w.signer.calls && w.signer.calls[c].Building? && w.signer.calls[c].order == row.order
    ensures c in w.forwards && w.forwards[c].row < |w.books.rows|
    ensures row.order.payout == w.forwards[c].seen.id && Owned(w.books.rows, row)
  {
    hide Agree;
    CallAt(w, c);
    var i := w.forwards[c].row;
    assert Owns(w.books.rows[i], row);
  }

  lemma RowAdded(w: World, v: Run.World, c: nat, row: Row)
    requires Agree(w) && c in w.signer.calls && w.signer.calls[c].Building? && c in w.forwards && w.forwards[c].row < |w.books.rows|
    requires v.rows == w.signer.rows + [row] && v.calls == w.signer.calls[c := Run.Holding(|w.signer.rows|)]
    requires Distinct(v.rows) && row.status == Reserved && row.order.payout == w.forwards[c].seen.id
    requires Owned(w.books.rows, row)
    ensures Agree(w.(signer := v))
  {
    hide Agree, Owned, ForwardsFit, CallsFit, Distinct;
    var w' := w.(signer := v);
    InsertedForwardsFit(w, w', c);
    InsertedCallsFit(w, w', c, row);
    JournalGrew(w, w');
  }

  lemma InsertedForwardsFit(w: World, w': World, c: nat)
    requires Agree(w) && c in w.signer.calls && w.signer.calls[c].Building? && w'.books == w.books && w'.forwards == w.forwards
    requires w'.signer.calls == w.signer.calls[c := Run.Holding(|w.signer.rows|)]
    requires |w'.signer.rows| == |w.signer.rows| + 1 && w'.signer.rows[..|w.signer.rows|] == w.signer.rows
    requires w'.signer.rows[|w.signer.rows|].order.payout == w.forwards[c].seen.id
    ensures ForwardsFit(w')
  {
    hide Agree;
    CallAt(w, c);
    forall d | d in w.forwards ensures ForwardFits(w', d) && (d in w'.signer.calls ==> w.forwards[d].stage.Posted?) {
      ForwardAt(w, d);
      if w.forwards[d].stage == Claimed { InsertedElsewhere(w, w', c, d); }
    }
    hide ForwardFits;
    forall d, e | d in w.forwards && e in w.forwards && d != e && Active(w', d) && Active(w', e) ensures w.forwards[d].row != w.forwards[e].row {
      ActiveApart(w, d, e);
    }
  }

  lemma InsertedElsewhere(w: World, w': World, c: nat, d: nat)
    requires Agree(w) && c in w.signer.calls && w.signer.calls[c].Building? && c in w.forwards && d in w.forwards && w.forwards[d].stage == Claimed
    requires ForwardFits(w, c) && ForwardFits(w, d) && w.forwards[c].stage.Posted?
    requires |w'.signer.rows| == |w.signer.rows| + 1 && w'.signer.rows[..|w.signer.rows|] == w.signer.rows
    requires w'.signer.rows[|w.signer.rows|].order.payout == w.forwards[c].seen.id
    ensures NoRecord(w'.signer.rows, w.books.rows[w.forwards[d].row].id)
  {
    hide Agree;
    ActiveApart(w, c, d);
    RowsApart(w, w.forwards[c].row, w.forwards[d].row);
    forall k | 0 <= k < |w'.signer.rows| ensures w'.signer.rows[k].order.payout != w.books.rows[w.forwards[d].row].id {
      if k < |w.signer.rows| { assert w'.signer.rows[k] == w.signer.rows[k]; }
    }
  }

  lemma InsertedCallsFit(w: World, w': World, c: nat, row: Row)
    requires Agree(w) && c in w.signer.calls && w.signer.calls[c].Building? && w'.forwards == w.forwards
    requires w'.signer.rows == w.signer.rows + [row] && row.status == Reserved && row.order.payout == w.forwards[c].seen.id
    requires w'.signer.calls == w.signer.calls[c := Run.Holding(|w.signer.rows|)]
    ensures CallsFit(w')
  {
    hide TablesFit, LedgerTrue, SweepFits, ForwardsFit;
    forall d | d in w'.signer.calls ensures d in w.forwards && w.forwards[d].stage.Posted? && CallFits(w'.signer.rows, w.forwards[d], w'.signer.calls[d]) {
      if d != c {
        CallsApart(w, c, d);
        if Spent(w, d) {
          SpentFits(w, d, w'.signer.rows);
        } else {
          assert CallFits(w.signer.rows, w.forwards[d], w.signer.calls[d]);
          CallOutlivesInsert(w.signer.rows, row, w.forwards[d], w.signer.calls[d]);
        }
      }
    }
  }

  lemma CallOutlivesInsert(journal: seq<Row>, row: Row, f: Forward, c: Run.Call)
    requires CallFits(journal, f, c) && row.order.payout != f.seen.id
    ensures CallFits(journal + [row], f, c)
  {
    var after := journal + [row];
    if c.Answered? && c.outcome.Paid? && Waited(f) {
      var j :| 0 <= j < |journal| && journal[j].order.payout == f.seen.id && journal[j].status == Confirmed && journal[j].tx == c.outcome.tx;
      assert after[j] == journal[j];
    }
  }

  lemma PreparedAgrees(w: World, s: Run.Step)
    requires Agree(w) && s.Prepared?
    ensures Agree(w.(signer := Run.Do(w.signer, s)))
  {
    hide TablesFit, LedgerTrue, SweepFits, ForwardsFit, ReserveResult;
    var c := s.call;
    var v := Run.Do(w.signer, s);
    if c in w.signer.calls && w.signer.calls[c].Building? {
      var call := w.signer.calls[c];
      var o, limits, grant := call.order, call.limits, call.grant;
      assert CallFits(w.signer.rows, w.forwards[c], call);
      if s.built.Some? && Run.BuiltFor(s.built.value.0, o) && ReserveResult(w.signer.rows, o, s.built.value.0, limits).Inserted? {
        InsertAgrees(w, c, o, limits, grant, s.built.value.0, if s.built.value.1 then Some(s.built.value.0.expires) else None);
      } else if s.built.Some? && !Run.BuiltFor(s.built.value.0, o) {
        assert w.(signer := v) == w;
      } else {
        CallMoved(w, v, c, v.calls[c]);
      }
    } else {
      assert w.(signer := v) == w;
    }
  }

  /** The mark of a call nobody waits for may have become illegal: it throws, and nobody hears it. */
  lemma MarkOrThrow(w: World, c: nat, k: nat, to: Status, next: Run.Call)
    requires Agree(w) && c in w.signer.calls
    requires (w.signer.calls[c].Holding? || w.signer.calls[c].Marked? || w.signer.calls[c].Broadcasting?)
    requires w.signer.calls[c].id == k && k < |w.signer.rows|
    requires CanMove(w.signer.rows, k, AutoFrom(to)) || !Waited(w.forwards[c])
    requires CanMove(w.signer.rows, k, AutoFrom(to)) ==> CallFits(Moved(w.signer.rows, k, to, None), w.forwards[c], next)
    ensures Agree(w.(signer := Run.Marking(w.signer, c, k, to, next)))
  {
    hide Agree, CallFits;
    if CanMove(w.signer.rows, k, AutoFrom(to)) {
      MarkAgrees(w, c, k, to, next);
    } else {
      CallAt(w, c);
      Thrown(w.signer.rows, w.forwards[c]);
      CallMoved(w, Run.Answering(w.signer, c, Threw), c, Run.Answered(Threw));
    }
  }

  lemma Thrown(journal: seq<Row>, f: Forward)
    requires !Waited(f)
    ensures CallFits(journal, f, Run.Answered(Threw))
  {
  }

  lemma MarkStepsAgree(w: World, s: Run.Step)
    requires Agree(w) && (s.MarkSent? || s.Send? || s.BroadcastReturns? || s.BroadcastThrows?)
    ensures Agree(w.(signer := Run.Do(w.signer, s)))
  {
    hide TablesFit, LedgerTrue, SweepFits, ForwardsFit;
    var c := s.call;
    var v := Run.Do(w.signer, s);
    if c in w.signer.calls && (w.signer.calls[c].Holding? || w.signer.calls[c].Marked? || w.signer.calls[c].Broadcasting?) {
      var k := w.signer.calls[c].id;
      assert CallFits(w.signer.rows, w.forwards[c], w.signer.calls[c]);
      if s.MarkSent? && w.signer.calls[c].Holding? {
        MarkOrThrow(w, c, k, Status.Sent, Run.Marked(k));
      } else if s.BroadcastThrows? && !w.signer.calls[c].Holding? {
        MarkOrThrow(w, c, k, Unknown, Run.Answered(Uncertain(w.signer.rows[k].tx)));
      } else if s.BroadcastReturns? && w.signer.calls[c].Broadcasting? && MovedTokens(w.signer.chain, w.signer.rows[k].tx) {
        assert Moved(w.signer.rows, k, Confirmed, None)[k].status == Confirmed;
        MarkOrThrow(w, c, k, Confirmed, Run.Answered(Outcome.Paid(w.signer.rows[k].tx)));
      } else if s.Send? && w.signer.calls[c].Marked? {
        CallMoved(w, v, c, Run.Broadcasting(k));
      } else {
        assert w.(signer := v) == w;
      }
    } else {
      assert w.(signer := v) == w;
    }
  }

  lemma ResolveAgrees(w: World, s: Run.Step)
    requires Agree(w) && s.Resolve? && Orderly(w, Signer(s))
    ensures Agree(w.(signer := Run.Do(w.signer, s)))
  {
    hide TablesFit, LedgerTrue, SweepFits, ForwardsFit;
    var w' := w.(signer := Run.Do(w.signer, s));
    if w'.signer.rows != w.signer.rows {
      var k := Find(w.signer.rows, ByPayout(s.payout)).value;
      var to := Decide(w.signer.rows[k].status, w.signer.rows[k].lastValid, s.status).value;
      forall c | c in w'.signer.calls ensures c in w.forwards && w.forwards[c].stage.Posted? && CallFits(w'.signer.rows, w.forwards[c], w'.signer.calls[c]) {
        assert Running(w.signer, c, s.payout) ==> !Waited(w.forwards[c]);
        OtherCallFits(w.signer.rows, k, to, Some(s.actor), w.forwards[c], w.signer.calls[c]);
      }
      StatusMoved(w, w', k, to, Some(s.actor));
    }
  }

  lemma SignerStepAgrees(w: World, s: Run.Step)
    requires Agree(w) && Orderly(w, Signer(s))
    ensures Agree(Do(w, Signer(s)))
  {
    hide Agree, Run.Do;
    assert Do(w, Signer(s)) == w.(signer := Run.Do(w.signer, s));
    match s
    case Check(_, _, _, _) => CheckAgrees(w, s);
    case Prepared(_, _) => PreparedAgrees(w, s);
    case MarkSent(_) => MarkStepsAgree(w, s);
    case Send(_) => MarkStepsAgree(w, s);
    case BroadcastReturns(_) => MarkStepsAgree(w, s);
    case BroadcastThrows(_) => MarkStepsAgree(w, s);
    case Resolve(_, _, _) => ResolveAgrees(w, s);
    case _ => QuietStepAgrees(w, s);
  }

  lemma QuietStepAgrees(w: World, s: Run.Step)
    requires Agree(w) && (s.Drop? || s.Land? || s.Tick?)
    ensures Agree(w.(signer := Run.Do(w.signer, s)))
  {
    hide TablesFit, LedgerTrue, SweepFits, ForwardsFit;
    CallsChanged(w, w.(signer := Run.Do(w.signer, s)));
  }
}
