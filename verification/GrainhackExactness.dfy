/**
 * When breaking an assumption does harm: when, from a state of an orderly run, the step can be followed by steps that are
 * all in order and end with tables that visibly disagree. Here for a resolution and a claim; GrainhackReopening has the rest.
 */
module GrainhackExactness {
  import opened Basics
  import opened GrainhackJournal
  import opened GrainhackStatement
  import opened GrainhackSigner
  import opened GrainhackAgent
  import opened GrainhackBooks
  import opened GrainhackAgreement
  import opened GrainhackOrderly
  import opened GrainhackOrderlyAgent
  import opened GrainhackPath
  import Run = GrainhackRun

  // ----- a resolution -----

  ghost predicate RunningAndWaited(w: World, c: nat, payout: Uuid) {
    c in w.forwards && Waited(w.forwards[c]) && Running(w.signer, c, payout)
  }

  /** A resolution that settles something does harm exactly when the agent is waiting for a running pay call of that
      payout: the call's next mark throws, the answer reads as a refusal, and the row is open to approval again. */
  lemma ResolveHarmsExactly(steps: seq<Step>, payout: Uuid, status: ChainStatus, actor: Actor)
    requires OrderlyRun(steps) && Run.Resolving(Exec(steps).signer, payout, status, actor) != Exec(steps).signer
    ensures
      var w := Exec(steps);
      Harmed(Do(w, Signer(Run.Resolve(payout, status, actor)))) <==> exists c :: RunningAndWaited(w, c, payout)
  {
    hide Agree, OrderlyRun, Harmed, Exec, Run.Resolving, Orderly;
    var w := Exec(steps);
    var s := Signer(Run.Resolve(payout, status, actor));
    EveryOrderlyRun(steps);
    if c :| RunningAndWaited(w, c, payout) {
      ResolvedUnderCall(w, c, payout, status, actor);
    } else {
      assert Orderly(w, s) by { NobodyWaits(w, payout, status, actor); }
      StepAgrees(w, s);
      AgreeIsUnharmed(Do(w, s));
    }
  }

  lemma NobodyWaits(w: World, payout: Uuid, status: ChainStatus, actor: Actor)
    requires forall c :: !RunningAndWaited(w, c, payout)
    ensures Orderly(w, Signer(Run.Resolve(payout, status, actor)))
  {
    forall c | c in w.forwards && Running(w.signer, c, payout) ensures !Waited(w.forwards[c]) { assert !RunningAndWaited(w, c, payout); }
  }

  /** What a resolution does to the one journal row of a payout. */
  lemma Settles(v: Run.World, id: nat, payout: Uuid, status: ChainStatus, actor: Actor)
    requires Distinct(v.rows) && id < |v.rows| && v.rows[id].order.payout == payout && Run.Resolving(v, payout, status, actor) != v
    ensures
      var after := Run.Resolving(v, payout, status, actor);
      after.calls == v.calls && |after.rows| == |v.rows| && Final(after.rows[id].status) && after.rows[id].order == v.rows[id].order
  {
    var k := Find(v.rows, ByPayout(payout)).value;
    if k != id { Run.RowsDiffer(v.rows, k, id); }
  }

  /** The call's own mark, whichever it is, finds the row settled and throws. */
  function NextMark(call: Run.Call, c: nat): Run.Step {
    if call.Holding? then Run.MarkSent(c) else Run.BroadcastThrows(c)
  }

  lemma MarkThrows(v: Run.World, c: nat, payout: Uuid)
    requires Running(v, c, payout) && Final(v.rows[v.calls[c].id].status)
    ensures Run.Do(v, NextMark(v.calls[c], c)) == v.(calls := v.calls[c := Run.Answered(Threw)])
  {
  }

  lemma WaitedIsRecorded(w: World, c: nat, payout: Uuid)
    requires Agree(w) && RunningAndWaited(w, c, payout)
    ensures Distinct(w.signer.rows) && w.forwards[c].row < |w.books.rows| && w.books.rows[w.forwards[c].row].recipient.Some?
    ensures w.signer.rows[w.signer.calls[c].id].order.payout == w.books.rows[w.forwards[c].row].id
  {
    hide Agree;
    TablesOf(w);
    CallAt(w, c);
    ForwardAt(w, c);
  }

  lemma ResolvedUnderCall(w: World, c: nat, payout: Uuid, status: ChainStatus, actor: Actor)
    requires Agree(w) && RunningAndWaited(w, c, payout) && Run.Resolving(w.signer, payout, status, actor) != w.signer
    ensures Harmed(Do(w, Signer(Run.Resolve(payout, status, actor))))
  {
    hide Agree, Run.Resolving, Harmed;
    var k := w.signer.calls[c].id;
    WaitedIsRecorded(w, c, payout);
    Settles(w.signer, k, payout, status, actor);
    MarkThrows(Run.Resolving(w.signer, payout, status, actor), c, payout);
    ThrownThenFiled(w.(signer := Run.Resolving(w.signer, payout, status, actor)), c, k);
  }

  lemma ThrownThenFiled(w: World, c: nat, k: nat)
    requires c in w.forwards && Waited(w.forwards[c]) && c in w.signer.calls
    requires Run.Do(w.signer, NextMark(w.signer.calls[c], c)) == w.signer.(calls := w.signer.calls[c := Run.Answered(Threw)])
    requires w.forwards[c].row < |w.books.rows| && w.books.rows[w.forwards[c].row].recipient.Some?
    requires k < |w.signer.rows| && w.signer.rows[k].order.payout == w.books.rows[w.forwards[c].row].id
    ensures Harmed(w)
  {
    hide Run.Do, OrderlyFrom, ExecFrom, Harmed, VisiblyAgrees;
    var s := NextMark(w.signer.calls[c], c);
    var thrown := w.(signer := w.signer.(calls := w.signer.calls[c := Run.Answered(Threw)]));
    ReopenedThough(thrown, c, k);
    StartsOrderly(w);
    SignerMore(w, [], s);
    OneMore(w, [] + [Signer(s)], Reply(c));
    HarmedBy(w, [] + [Signer(s)] + [Reply(c)]);
  }

  predicate IsRefusal(call: Run.Call) {
    call.Answered? && ReadAsRefused(call.outcome)
  }

  /** A refusal is filed while the journal has the payment. */
  lemma ReopenedThough(w: World, c: nat, k: nat)
    requires c in w.forwards && Waited(w.forwards[c]) && c in w.signer.calls && IsRefusal(w.signer.calls[c])
    requires w.forwards[c].row < |w.books.rows| && w.books.rows[w.forwards[c].row].recipient.Some?
    requires k < |w.signer.rows| && w.signer.rows[k].order.payout == w.books.rows[w.forwards[c].row].id
    ensures !VisiblyAgrees(Do(w, Reply(c)))
  {
    hide LedgerTrue;
    var i, after := w.forwards[c].row, Do(w, Reply(c));
    assert after.books.rows[i] == w.books.rows[i].(status := AwaitingApproval) && after.signer.rows == w.signer.rows;
    assert !NoRecord(after.signer.rows, after.books.rows[i].id);
    assert !RowAgreed(after.books.rows[i], after.signer.rows, after.books.ledger);
  }

  // ----- a claim -----

  /** There is a configuration and a clock under which the signer accepts the request now. */
  ghost predicate WouldPay(rows: seq<Row>, req: Request) {
    exists cfg, now, day :: Begin(rows, cfg, req, now, day).Build?
  }

  /** A claim that takes the row does no harm when the row still has the amount and recipient `approve` read; when it does
      not, and the signer would accept the request, the row ends up paid for what it does not say. */
  lemma ClaimHarmsExactly(steps: seq<Step>, c: nat)
    requires OrderlyRun(steps) && c in Exec(steps).forwards && Exec(steps).forwards[c].stage == Checked
    requires
      var w := Exec(steps);
      w.forwards[c].row < |w.books.rows| && w.books.rows[w.forwards[c].row].status == AwaitingApproval
    ensures
      var w := Exec(steps);
      var f := w.forwards[c];
      && (StillAsRead(f.seen, w.books.rows[f.row]) ==> !Harmed(Do(w, Claim(c))))
      && (WouldPay(w.signer.rows, f.req) ==> (Harmed(Do(w, Claim(c))) <==> !StillAsRead(f.seen, w.books.rows[f.row])))
  {
    hide Agree, OrderlyRun, Harmed, Exec, WouldPay;
    var w := Exec(steps);
    var f := w.forwards[c];
    EveryOrderlyRun(steps);
    if StillAsRead(f.seen, w.books.rows[f.row]) {
      StepAgrees(w, Claim(c));
      AgreeIsUnharmed(Do(w, Claim(c)));
    } else if WouldPay(w.signer.rows, f.req) {
      SignerHalf(steps);
      ClaimedChanged(w, c);
    }
  }

  // a transfer the journal has not seen

  function Above(rows: seq<Row>): (n: nat)
    ensures forall i :: 0 <= i < |rows| ==> rows[i].tx.blockhash < n
  {
    if rows == [] then 0
    else
      var n, last := Above(rows[..|rows| - 1]), rows[|rows| - 1].tx.blockhash;
      if n <= last then last + 1 else n
  }

  function NewTransfer(v: Run.World, o: Order): Transfer {
    Transfer(o.mint, o.recipient, o.amount, Above(v.rows), v.chain.height)
  }

  lemma NewIsBuildable(v: Run.World, o: Order)
    requires Run.Inv(v)
    ensures Buildable(v, o, NewTransfer(v, o))
  {
    var tx := NewTransfer(v, o);
    assert tx in v.chain.onWire ==> Run.Journalled(v, tx);
  }

  lemma Accepting(rows: seq<Row>, req: Request) returns (cfg: Config, now: int, day: nat)
    requires WouldPay(rows, req)
    ensures Begin(rows, cfg, req, now, day).Build?
  {
    hide Begin;
    cfg, now, day :| Begin(rows, cfg, req, now, day).Build?;
  }

  lemma ClaimedChanged(w: World, c: nat)
    requires Agree(w) && Run.Inv(w.signer) && c in w.forwards && w.forwards[c].stage == Checked
    requires w.forwards[c].row < |w.books.rows| && w.books.rows[w.forwards[c].row].status == AwaitingApproval
    requires !StillAsRead(w.forwards[c].seen, w.books.rows[w.forwards[c].row]) && WouldPay(w.signer.rows, w.forwards[c].req)
    ensures Harmed(Do(w, Claim(c)))
  {
    hide Agree, Run.Inv, Begin, Buildable, Harmed, StillAsRead, Do, WouldPay, NoRecord;
    var f := w.forwards[c];
    var cfg, now, day := Accepting(w.signer.rows, f.req);
    ForwardAt(w, c);
    UnpaidHasNoRecord(w, f.row);
    NewIsBuildable(w.signer, OrderFor(f.req, day));
    ClaimDoes(w, c);
    var w1 := w.(books := SetStatus(w.books, f.row, Submitted), forwards := w.forwards[c := f.(stage := Claimed)]);
    PostDoes(w1, c);
    assert w1.forwards[c := f.(stage := Posted(true))] == w.forwards[c := f.(stage := Posted(true))];
    ThenPaid(w, w1, c, cfg, now, day, NewTransfer(w.signer, OrderFor(f.req, day)));
  }

  lemma ThenPaid(w: World, w1: World, c: nat, cfg: Config, now: int, day: nat, tx: Transfer)
    requires c in w.forwards && w.forwards[c].row < |w.books.rows|
    requires
      var f, w2 := w.forwards[c], Do(w1, Post(c));
      && SameRow(f.seen, w.books.rows[f.row]) && SameOrder(f.req, f.seen)
      && !StillAsRead(f.seen, w.books.rows[f.row]) && NoRecord(w.signer.rows, w.books.rows[f.row].id)
      && w2 == w.(books := SetStatus(w.books, f.row, Submitted),
        forwards := w.forwards[c := f.(stage := Posted(true))], signer := w.signer.(calls := w.signer.calls[c := Run.Arrived(f.req)]))
      && Begin(w.signer.rows, cfg, f.req, now, day).Build? && Buildable(w.signer, OrderFor(f.req, day), tx)
    ensures Harmed(w1)
  {
    var f, w2 := w.forwards[c], Do(w1, Post(c));
    var o, g := OrderFor(f.req, day), Grant(f.req, cfg, now);
    assert Buildable(w2.signer, o, tx);
    var landed := w2.(signer := AfterLanding(w2.signer, c, o, g, tx));
    PaidForAnother(w, landed, c, o, g, tx);
    hide Run.Do, Begin, Buildable, OrderlyFrom, ExecFrom, Harmed, VisiblyAgrees, AfterLanding, StillAsRead, Do;
    StartsOrderly(w1);
    ReplyIsOrderly(w1, c);
    OneMore(w1, [], Post(c));
    var more := Landing(w2, c, cfg, now, day, tx);
    AfterMore(w1, [] + [Post(c)], more);
    var steps := ([] + [Post(c)]) + more;
    SignerMore(w1, steps, Run.BroadcastReturns(c));
    steps := steps + [Signer(Run.BroadcastReturns(c))];
    ReplyIsOrderly(ExecFrom(w1, steps), c);
    OneMore(w1, steps, Reply(c));
    HarmedBy(w1, steps + [Reply(c)]);
  }

  lemma ReplyIsOrderly(w: World, c: nat)
    ensures Orderly(w, Reply(c)) && Orderly(w, Post(c))
  {
  }

  lemma ClaimDoes(w: World, c: nat)
    requires c in w.forwards && w.forwards[c].stage == Checked
    requires w.forwards[c].row < |w.books.rows| && w.books.rows[w.forwards[c].row].status == AwaitingApproval
    ensures Do(w, Claim(c)) == w.(books := SetStatus(w.books, w.forwards[c].row, Submitted), forwards := w.forwards[c := w.forwards[c].(stage := Claimed)])
  {
  }

  lemma PostDoes(w: World, c: nat)
    requires c in w.forwards && w.forwards[c].stage == Claimed && c !in w.signer.calls
    ensures
      Do(w, Post(c)) == w.(signer := w.signer.(calls := w.signer.calls[c := Run.Arrived(w.forwards[c].req)]),
        forwards := w.forwards[c := w.forwards[c].(stage := Posted(true))])
  {
  }

  lemma ReplyPays(w: World, c: nat, tx: Transfer)
    requires c in w.forwards && Waited(w.forwards[c]) && c in w.signer.calls && w.signer.calls[c] == Run.Answered(Outcome.Paid(tx))
    requires w.forwards[c].row < |w.books.rows| && w.books.rows[w.forwards[c].row].status == Submitted
    ensures
      var i, after := w.forwards[c].row, Do(w, Reply(c));
      && after.signer.rows == w.signer.rows && |after.books.rows| == |w.books.rows|
      && after.books.rows[i] == w.books.rows[i].(status := RowStatus.Paid, tx := Some(tx))
  {
    hide LedgerWith;
  }

  /** The broadcast returns and the reply is filed: the row is paid, and the journal's only row of it is for other terms. */
  lemma PaidForAnother(w: World, landed: World, c: nat, o: Order, g: Grant, tx: Transfer)
    requires c in w.forwards && w.forwards[c].row < |w.books.rows| && Run.BuiltFor(tx, o)
    requires
      var f := w.forwards[c];
      && o == OrderFor(f.req, o.day) && SameRow(f.seen, w.books.rows[f.row]) && SameOrder(f.req, f.seen)
      && !StillAsRead(f.seen, w.books.rows[f.row]) && NoRecord(w.signer.rows, w.books.rows[f.row].id)
      && landed.forwards == w.forwards[c := f.(stage := Posted(true))] && landed.books == SetStatus(w.books, f.row, Submitted)
      && landed.signer.rows == w.signer.rows + [NewRow(o, tx, Some(tx.expires)).(status := Status.Sent)]
      && c in landed.signer.calls && landed.signer.calls[c] == Run.Broadcasting(|w.signer.rows|) && MovedTokens(landed.signer.chain, tx)
    ensures
      var returned := landed.(signer := Run.Do(landed.signer, Run.BroadcastReturns(c)));
      !VisiblyAgrees(Do(returned, Reply(c)))
  {
    var f, k := w.forwards[c], |w.signer.rows|;
    var confirmed := w.signer.rows + [NewRow(o, tx, Some(tx.expires)).(status := Confirmed)];
    var returned := landed.(signer := Run.Do(landed.signer, Run.BroadcastReturns(c)));
    assert returned.signer.rows == confirmed && returned.signer.calls[c] == Run.Answered(Outcome.Paid(tx)) by {
      assert Moved(landed.signer.rows, k, Confirmed, None) == confirmed;
    }
    hide Run.Do, LedgerTrue, Entered;
    ReplyPays(returned, c, tx);
    var after := Do(returned, Reply(c));
    hide Do;
    var row := after.books.rows[f.row];
    assert row.id == w.books.rows[f.row].id && row.amount == w.books.rows[f.row].amount && row.recipient == w.books.rows[f.row].recipient;
    assert !RecordedAs(confirmed, row, Confirmed) by {
      forall j | 0 <= j < |confirmed| && confirmed[j].order.payout == row.id ensures j == k {}
    }
    assert !RowAgreed(row, after.signer.rows, after.books.ledger);
  }
}
