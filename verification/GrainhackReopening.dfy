/**
 * When opening a row to approval, by a reconcile or a refreeze, does harm: when the journal has the payment, when a request
 * is coming, or when a refusal may be read too late. Last, a request from elsewhere.
 */
module GrainhackReopening {
  import opened Basics
  import opened GrainhackJournal
  import opened GrainhackStatement
  import opened GrainhackSigner
  import opened GrainhackAgent
  import opened GrainhackBooks
  import opened GrainhackChain
  import opened GrainhackIntake
  import opened GrainhackAgreement
  import opened GrainhackOrderly
  import opened GrainhackOrderlyAgent
  import opened GrainhackPath
  import opened GrainhackExactness
  import Run = GrainhackRun

  // ----- opening a row to approval again -----

  /** A reconcile about to release this row, or a refreeze about to write it. */
  predicate Reopens(w: World, s: Step, i: nat) {
    && i < |w.books.rows|
    && match s
       case SweepRow(k, j, aged) =>
         && j == i && aged && k in w.sweeps && w.sweeps[k].journal.Some? && i in w.sweeps[k].seen && InFlight(w.books.rows[i].status)
         && Dictate(w.sweeps[k].seen[i], w.sweeps[k].journal.value, true) == Release
       case RefreezeWrite(k) => Rewriting(w, k) && w.refreezes[k].row == i
       case _ => false
  }

  /** A pay request for the row is on its way to the journal, and the signer would record it now. */
  ghost predicate Coming(w: World, c: nat, i: nat) {
    && c in w.forwards && w.forwards[c].row == i
    && if c in w.signer.calls then
         match w.signer.calls[c]
         case Arrived(req) => WouldPay(w.signer.rows, req)
         case Building(o, limits, _) => Check(w.signer.rows, o, limits).None?
         case _ => false
       else w.forwards[c].stage == Claimed && WouldPay(w.signer.rows, w.forwards[c].req)
  }

  /** The agent waits for the answer to this request, and it is a refusal or can become one. */
  predicate Refusable(w: World, c: nat, i: nat) {
    && c in w.forwards && w.forwards[c].row == i
    && if c in w.signer.calls
       then Waited(w.forwards[c]) && (w.signer.calls[c].Arrived? || w.signer.calls[c].Building? || IsRefusal(w.signer.calls[c]))
       else w.forwards[c].stage == Claimed
  }

  function Opened(row: PayoutRow, wallet: Address): PayoutRow {
    row.(status := AwaitingApproval, recipient := Some(wallet))
  }

  /** An approval of the open row, at the wallet it has or one its winner has yet to link, that the agent would forward and
      the signer would accept now. */
  ghost predicate SecondFits(w: World, i: nat, wallet: Address, approval: Approval, cfg: AgentConfig, now: int)
    requires i < |w.books.rows|
  {
    var row := w.books.rows[i];
    && (row.status == AwaitingWallet || (row.status == AwaitingApproval && row.recipient == Some(wallet)))
    && Forwardable(w, Opened(row, wallet), approval, cfg, now)
    && WouldPay(w.signer.rows, Request(approval, w.held[FindHeld(w.held, row.statement).value].statement, true))
  }

  ghost predicate PayableAgain(w: World, i: nat) {
    i < |w.books.rows| && exists wallet, approval, cfg, now :: SecondFits(w, i, wallet, approval, cfg, now)
  }

  /** As the journal stands the signer accepts what is out for the row, or what may be approved while a refusal of it is
      unread. */
  ghost predicate SignerAccepts(w: World, after: World, i: nat) {
    forall c :: c in w.forwards && w.forwards[c].row == i && Active(w, c) ==> Coming(w, c, i) || (Refusable(w, c, i) && PayableAgain(after, i))
  }

  /**
   * Opening a row to approval does no harm when no request of it is out and the journal has none. It does when the journal
   * has one; when one is coming; and when a request may be refused whose refusal the agent files only after a second
   * approval was recorded. Where the signer refuses nothing of this as the journal stands, that is all there is.
   */
  lemma ReopeningHarms(steps: seq<Step>, s: Step, i: nat)
    requires OrderlyRun(steps) && Reopens(Exec(steps), s, i)
    ensures
      var w, after := Exec(steps), Do(Exec(steps), s);
      && (Unclaimed(w, i) ==> !Harmed(after))
      && (!NoRecord(w.signer.rows, w.books.rows[i].id) ==> Harmed(after))
      && ((exists c :: Coming(w, c, i)) ==> Harmed(after))
      && ((exists c :: Refusable(w, c, i)) && PayableAgain(after, i) ==> Harmed(after))
      && (SignerAccepts(w, after, i) ==> (Harmed(after) <==> !Unclaimed(w, i)))
  {
    hide Agree, OrderlyRun, Harmed, Exec, NoRecord, Coming, Refusable, PayableAgain, Run.Inv, Reopened, Active;
    var w, after := Exec(steps), Do(Exec(steps), s);
    EveryOrderlyRun(steps);
    SignerHalf(steps);
    IsReopened(w, s, i);
    UnclaimedIsOrderly(w, s, i);
    hide Do, Orderly, Reopens;
    if Unclaimed(w, i) {
      StepAgrees(w, s);
      AgreeIsUnharmed(after);
    }
    if !NoRecord(w.signer.rows, w.books.rows[i].id) {
      AlreadyRecorded(w, after, i);
    }
    if c :| Coming(w, c, i) {
      ComesAnyway(w, after, c, i);
    }
    if PayableAgain(after, i) {
      if c :| Refusable(w, c, i) { RefusedAfterwards(w, after, c, i); }
    }
  }

  /** The same but for one row, which is open to approval, and for what agent's jobs under way have read. */
  ghost predicate Reopened(w: World, w': World, i: nat) {
    && i < |w.books.rows| == |w'.books.rows| && w'.books.rows[i].id == w.books.rows[i].id && Unpaid(w'.books.rows[i].status)
    && w'.signer == w.signer && w'.forwards == w.forwards
  }

  lemma IsReopened(w: World, s: Step, i: nat)
    requires Reopens(w, s, i)
    ensures Reopened(w, Do(w, s), i)
  {
    hide Dictate;
  }

  lemma UnclaimedIsOrderly(w: World, s: Step, i: nat)
    requires Reopens(w, s, i)
    ensures Orderly(w, s) <==> Unclaimed(w, i)
  {
    hide Dictate, Unclaimed;
  }

  lemma AlreadyRecorded(w: World, w1: World, i: nat)
    requires Reopened(w, w1, i) && !NoRecord(w.signer.rows, w.books.rows[i].id)
    ensures Harmed(w1)
  {
    hide Harmed;
    StartsOrderly(w1);
    OpenThough(w1, i);
    HarmedBy(w1, []);
  }

  lemma OpenThough(w: World, i: nat)
    requires i < |w.books.rows| && Unpaid(w.books.rows[i].status) && !NoRecord(w.signer.rows, w.books.rows[i].id)
    ensures !VisiblyAgrees(w)
  {
    hide LedgerTrue, NoRecord;
    assert !RowAgreed(w.books.rows[i], w.signer.rows, w.books.ledger);
  }

  /** Whatever stage it is at, a coming request is for this row's payout. */
  lemma ComingFits(w: World, c: nat, i: nat)
    requires Agree(w) && Coming(w, c, i)
    ensures i < |w.books.rows| && w.forwards[c].req.approval.terms.payout == w.books.rows[i].id
    ensures c in w.signer.calls && w.signer.calls[c].Arrived? ==> w.signer.calls[c].req == w.forwards[c].req
    ensures c in w.signer.calls && w.signer.calls[c].Building? ==> w.signer.calls[c].order.payout == w.books.rows[i].id
  {
    hide WouldPay, Check;
    ForwardAt(w, c);
    if c in w.signer.calls { CallAt(w, c); }
    hide Agree;
  }

  lemma ComesAnyway(w: World, w1: World, c: nat, i: nat)
    requires Agree(w) && Run.Inv(w.signer) && Coming(w, c, i) && Reopened(w, w1, i)
    ensures Harmed(w1)
  {
    hide Agree, Harmed, Run.Inv, WouldPay, Do, Check, OrderlyFrom;
    ComingFits(w, c, i);
    if c !in w.signer.calls {
      PostedAnyway(w1, c, i);
    } else if w.signer.calls[c].Arrived? {
      NewSurvives(w.signer, w1.signer);
      StartsOrderly(w1);
      RecordedAnyway(w1, [], c, i);
    } else {
      BuiltAnyway(w1, c, i);
    }
  }

  lemma PostedAnyway(w: World, c: nat, i: nat)
    requires Run.Inv(w.signer) && c in w.forwards && w.forwards[c].stage == Claimed && c !in w.signer.calls
    requires i < |w.books.rows| && Unpaid(w.books.rows[i].status)
    requires w.forwards[c].req.approval.terms.payout == w.books.rows[i].id && WouldPay(w.signer.rows, w.forwards[c].req)
    ensures Harmed(w)
  {
    var after := Do(w, Post(c));
    assert after == w.(signer := w.signer.(calls := w.signer.calls[c := Run.Arrived(w.forwards[c].req)]), forwards := after.forwards);
    hide Harmed, Run.Inv, WouldPay, Do, OrderlyFrom, ExecFrom;
    NewSurvives(w.signer, after.signer);
    StartsOrderly(w);
    ReplyIsOrderly(w, c);
    OneMore(w, [], Post(c));
    RecordedAnyway(w, [] + [Post(c)], c, i);
  }

  lemma NewSurvives(v: Run.World, v': Run.World)
    requires Run.Inv(v) && v' == v.(calls := v'.calls)
    ensures forall o :: Buildable(v', o, NewTransfer(v', o))
  {
    forall o ensures Buildable(v', o, NewTransfer(v', o)) { NewIsBuildable(v, o); }
  }

  lemma RecordedAnyway(w: World, steps: seq<Step>, c: nat, i: nat)
    requires
      var at := ExecFrom(w, steps);
      && OrderlyFrom(w, steps) && i < |at.books.rows| && Unpaid(at.books.rows[i].status)
      && c in at.signer.calls && at.signer.calls[c].Arrived? && WouldPay(at.signer.rows, at.signer.calls[c].req)
      && at.signer.calls[c].req.approval.terms.payout == at.books.rows[i].id
      && forall o :: Buildable(at.signer, o, NewTransfer(at.signer, o))
    ensures Harmed(w)
  {
    var at := ExecFrom(w, steps);
    var req := at.signer.calls[c].req;
    hide Begin, WouldPay, Buildable, OrderlyFrom, ExecFrom, Harmed, VisiblyAgrees;
    var cfg, now, day := Accepting(at.signer.rows, req);
    var tx := NewTransfer(at.signer, OrderFor(req, day));
    var more := Recording(at, c, cfg, now, day, tx);
    AfterMore(w, steps, more);
    var after := ExecFrom(at, more);
    assert after.signer.rows[|at.signer.rows|].order.payout == after.books.rows[i].id;
    OpenThough(after, i);
    HarmedBy(w, steps + more);
  }

  lemma BuiltAnyway(w: World, c: nat, i: nat)
    requires Run.Inv(w.signer) && c in w.signer.calls && w.signer.calls[c].Building? && i < |w.books.rows|
    requires Check(w.signer.rows, w.signer.calls[c].order, w.signer.calls[c].limits).None?
    requires Unpaid(w.books.rows[i].status) && w.signer.calls[c].order.payout == w.books.rows[i].id
    ensures Harmed(w)
  {
    var call := w.signer.calls[c];
    var tx := NewTransfer(w.signer, call.order);
    NewIsBuildable(w.signer, call.order);
    hide Check, Run.Inv, Run.Do, Buildable, OrderlyFrom, ExecFrom, Harmed, VisiblyAgrees;
    Reserves(w.signer, c, call.order, call.limits, call.grant, tx);
    StartsOrderly(w);
    SignerMore(w, [], Run.Prepared(c, Some((tx, true))));
    var steps := [] + [Signer(Run.Prepared(c, Some((tx, true))))];
    var after := ExecFrom(w, steps);
    assert after.signer.rows[|w.signer.rows|].order.payout == after.books.rows[i].id;
    OpenThough(after, i);
    HarmedBy(w, steps);
  }

  // a refusal read too late

  const NOBODY: Config := Config(Devnet, map[], map[], {}, Solana(0))

  lemma NobodyIsTrusted(rows: seq<Row>, req: Request)
    ensures
      var b := Begin(rows, NOBODY, req, 0, 0);
      b.Answer? && ReadAsRefused(b.outcome)
  {
  }

  /** The world, but for one call that is now refused, and waited for. */
  ghost predicate RefusedIn(w: World, w': World, c: nat, i: nat) {
    && c in w.forwards && w'.forwards.Keys == w.forwards.Keys && Waited(w'.forwards[c]) && w'.forwards[c].row == i
    && w' == w.(signer := w.signer.(calls := w'.signer.calls), forwards := w'.forwards)
    && c in w'.signer.calls && w'.signer.calls.Keys == w.signer.calls.Keys + {c} && IsRefusal(w'.signer.calls[c])
  }

  lemma GetsRefused(w: World, c: nat, i: nat) returns (w': World)
    requires Refusable(w, c, i)
    ensures Leads(w, w') && RefusedIn(w, w', c, i)
  {
    hide Leads;
    LeadsNowhere(w);
    if c !in w.signer.calls {
      PostDoes(w, c);
      ReplyIsOrderly(w, c);
      hide Do, Orderly;
      LeadsThen(w, w, Post(c));
      var w1 := Do(w, Post(c));
      w' := RefusedAtSigner(w1, c);
      LeadsOn(w, w1, w');
    } else if IsRefusal(w.signer.calls[c]) {
      w' := w;
      assert w.signer.calls.Keys == w.signer.calls.Keys + {c};
    } else {
      w' := RefusedAtSigner(w, c);
      assert w.signer.calls.Keys == w.signer.calls.Keys + {c};
    }
  }

  /** Whatever the request is, a check can refuse it, and a build can fail. */
  lemma RefusedAtSigner(w: World, c: nat) returns (w': World)
    requires c in w.signer.calls && (w.signer.calls[c].Arrived? || w.signer.calls[c].Building?)
    ensures Leads(w, w') && w' == w.(signer := w.signer.(calls := w'.signer.calls))
    ensures c in w'.signer.calls && w'.signer.calls.Keys == w.signer.calls.Keys && IsRefusal(w'.signer.calls[c])
  {
    hide Leads, Begin;
    var call := w.signer.calls[c];
    var s := if call.Arrived? then Run.Check(c, NOBODY, 0, 0) else Run.Prepared(c, None);
    if call.Arrived? { NobodyIsTrusted(w.signer.rows, call.req); }
    w' := w.(signer := Run.Do(w.signer, s));
    assert w'.signer.calls == w.signer.calls[c := w'.signer.calls[c]];
    hide Run.Do;
    SignerLeads(w, s);
  }

  lemma SignerLeads(w: World, s: Run.Step)
    requires !s.Arrive? && !s.Resolve?
    ensures Leads(w, w.(signer := Run.Do(w.signer, s)))
  {
    hide Run.Do, OrderlyFrom, ExecFrom;
    StartsOrderly(w);
    SignerMore(w, [], s);
    LeadsBy(w, [] + [Signer(s)]);
  }

  /** The winner links the wallet, and a row that waited for one is open to approval. */
  lemma OpensAt(w: World, i: nat, wallet: Address) returns (w': World)
    requires i < |w.books.rows|
    requires w.books.rows[i].status == AwaitingWallet || (w.books.rows[i].status == AwaitingApproval && w.books.rows[i].recipient == Some(wallet))
    ensures Leads(w, w') && w' == w.(wallets := w'.wallets, books := w'.books) && |w'.books.rows| == |w.books.rows|
    ensures w'.books.rows[i] == Opened(w.books.rows[i], wallet) && Wallet(w'.wallets, w.books.rows[i].winner.user) == Some(wallet)
  {
    hide Leads;
    var user := w.books.rows[i].winner.user;
    var w1 := w.(wallets := w.wallets[user := wallet]);
    w' := w1.(books := w1.books.(rows := RefreshRows(w1.books.rows, w1.wallets, None)));
    LeadsNowhere(w);
    LinkDoes(w, user, wallet);
    hide Do, Orderly;
    LeadsThen(w, w, Relink(user, Some(wallet)));
    LeadsThen(w, w1, Refresh(None));
  }

  lemma LinkDoes(w: World, user: nat, wallet: Address)
    ensures
      var w1 := w.(wallets := w.wallets[user := wallet]);
      && Do(w, Relink(user, Some(wallet))) == w1 && Orderly(w, Relink(user, Some(wallet)))
      && Do(w1, Refresh(None)) == w1.(books := w1.books.(rows := RefreshRows(w1.books.rows, w1.wallets, None))) && Orderly(w1, Refresh(None))
  {
  }

  /** No forward and no call has this number. */
  lemma Unused(s: set<nat>) returns (d: nat)
    ensures d !in s
  {
    d := 0;
    var rest := s;
    while rest != {}
      invariant forall x :: x in s && x !in rest ==> x < d
      decreases rest
    {
      var x :| x in rest;
      d := if d <= x then x + 1 else d;
      rest := rest - {x};
    }
  }

  /** A refusal waits to be read, and the row is ready for its second approval. */
  ghost predicate SecondReady(w: World, c: nat, i: nat, approval: Approval, cfg: AgentConfig, now: int) {
    && RefusalWaits(w, c, i) && w.books.rows[i].recipient.Some?
    && Forwardable(w, w.books.rows[i], approval, cfg, now)
    && Wallet(w.wallets, w.books.rows[i].winner.user) == w.books.rows[i].recipient
    && WouldPay(w.signer.rows, Request(approval, w.held[FindHeld(w.held, w.books.rows[i].statement).value].statement, true))
  }

  predicate RefusalWaits(w: World, c: nat, i: nat) {
    && i < |w.books.rows| && c in w.forwards && Waited(w.forwards[c]) && w.forwards[c].row == i
    && c in w.signer.calls && IsRefusal(w.signer.calls[c])
  }

  /** ... and the second request is at the signer, which would pay it. */
  ghost predicate SecondPosted(w: World, c: nat, d: nat, i: nat) {
    && RefusalWaits(w, c, i) && w.books.rows[i].recipient.Some?
    && d != c && d in w.signer.calls && w.signer.calls[d].Arrived? && WouldPay(w.signer.rows, w.signer.calls[d].req)
    && w.signer.calls[d].req.approval.terms.payout == w.books.rows[i].id
  }

  lemma RefusedAfterwards(w: World, w1: World, c: nat, i: nat)
    requires Run.Inv(w.signer) && Refusable(w, c, i) && Reopened(w, w1, i) && PayableAgain(w1, i)
    ensures Harmed(w1)
  {
    hide Harmed, Leads, Run.Inv, SecondFits, SecondReady, SecondPosted, Refusable, VisiblyAgrees, Do;
    var wallet, approval, cfg, now :| SecondFits(w1, i, wallet, approval, cfg, now);
    assert Refusable(w1, c, i) by { StillRefusable(w, w1, c, i); }
    var w2 := GetsRefused(w1, c, i);
    StillFitting(w1, w2, i, wallet, approval, cfg, now);
    var w3 := OpensFor(w2, c, i, wallet, approval, cfg, now);
    LeadsOn(w1, w2, w3);
    var w4, d := SecondApproved(w3, c, i, approval, cfg, now);
    LeadsOn(w1, w3, w4);
    NewSurvives(w.signer, w4.signer);
    var w5, k := SecondRecorded(w4, c, d, i);
    LeadsOn(w1, w4, w5);
    ReplyIsOrderly(w5, c);
    LeadsThen(w1, w5, Reply(c));
    ReopenedThough(w5, c, k);
    HarmedVia(w1, Do(w5, Reply(c)));
  }

  lemma StillRefusable(w: World, w1: World, c: nat, i: nat)
    requires Refusable(w, c, i) && Reopened(w, w1, i)
    ensures Refusable(w1, c, i)
  {
  }

  lemma StillFitting(w: World, w': World, i: nat, wallet: Address, approval: Approval, cfg: AgentConfig, now: int)
    requires i < |w.books.rows| && SecondFits(w, i, wallet, approval, cfg, now)
    requires w' == w.(signer := w.signer.(calls := w'.signer.calls), forwards := w'.forwards)
    ensures SecondFits(w', i, wallet, approval, cfg, now)
  {
    hide WouldPay, ApprovalHolds, FindHeld;
  }

  lemma OpensFor(w: World, c: nat, i: nat, wallet: Address, approval: Approval, cfg: AgentConfig, now: int) returns (w': World)
    requires RefusalWaits(w, c, i) && SecondFits(w, i, wallet, approval, cfg, now)
    ensures Leads(w, w') && SecondReady(w', c, i, approval, cfg, now) && w'.signer == w.signer
  {
    hide WouldPay, ApprovalHolds, FindHeld, Leads;
    w' := OpensAt(w, i, wallet);
  }

  lemma SecondApproved(w: World, c: nat, i: nat, approval: Approval, cfg: AgentConfig, now: int) returns (w': World, d: nat)
    requires SecondReady(w, c, i, approval, cfg, now)
    ensures Leads(w, w') && SecondPosted(w', c, d, i) && w'.signer == w.signer.(calls := w'.signer.calls)
  {
    hide WouldPay, ApprovalHolds, FindHeld, Leads, Do, Orderly;
    d := Unused(w.forwards.Keys + w.signer.calls.Keys);
    var row, st := w.books.rows[i], w.held[FindHeld(w.held, w.books.rows[i].statement).value].statement;
    var f := Forward(i, row, Request(approval, st, true), Read);
    var w1 := w.(forwards := w.forwards[d := f]);
    var w2 := w.(forwards := w.forwards[d := f.(stage := Checked)]);
    ReadDoes(w, d, i, approval, cfg, now);
    CheckDoes(w1, d);
    assert w1.forwards[d := f.(stage := Checked)] == w2.forwards;
    LeadsNowhere(w);
    LeadsThen(w, w, ReadForApproval(d, i, approval, true, cfg, now));
    LeadsThen(w, w1, CheckWallet(d));
    var w3 := w2.(books := SetStatus(w.books, i, Submitted), forwards := w2.forwards[d := f.(stage := Claimed)]);
    ClaimDoes(w2, d);
    ClaimIsOrderly(w2, d);
    LeadsThen(w, w2, Claim(d));
    PostDoes(w3, d);
    ReplyIsOrderly(w3, d);
    LeadsThen(w, w3, Post(d));
    w' := Do(w3, Post(d));
  }

  lemma ReadDoes(w: World, d: nat, i: nat, approval: Approval, cfg: AgentConfig, now: int)
    requires d !in w.forwards && d !in w.signer.calls && i < |w.books.rows| && Forwardable(w, w.books.rows[i], approval, cfg, now)
    ensures
      var s := ReadForApproval(d, i, approval, true, cfg, now);
      var st := w.held[FindHeld(w.held, w.books.rows[i].statement).value].statement;
      && Orderly(w, s) && Do(w, s) == w.(forwards := w.forwards[d := Forward(i, w.books.rows[i], Request(approval, st, true), Read)])
  {
    hide ApprovalHolds, FindHeld;
  }

  lemma CheckDoes(w: World, d: nat)
    requires d in w.forwards && w.forwards[d].stage == Read && Wallet(w.wallets, w.forwards[d].seen.winner.user) == w.forwards[d].seen.recipient
    ensures Orderly(w, CheckWallet(d)) && Do(w, CheckWallet(d)) == w.(forwards := w.forwards[d := w.forwards[d].(stage := Checked)])
  {
  }

  lemma ClaimIsOrderly(w: World, d: nat)
    requires d in w.forwards && w.forwards[d].row < |w.books.rows| && w.books.rows[w.forwards[d].row] == w.forwards[d].seen
    ensures Orderly(w, Claim(d))
  {
  }

  lemma SecondRecorded(w: World, c: nat, d: nat, i: nat) returns (w': World, k: nat)
    requires SecondPosted(w, c, d, i) && forall o :: Buildable(w.signer, o, NewTransfer(w.signer, o))
    ensures Leads(w, w') && RefusalWaits(w', c, i) && w'.books == w.books && w.books.rows[i].recipient.Some?
    ensures k < |w'.signer.rows| && w'.signer.rows[k].order.payout == w.books.rows[i].id
  {
    var req := w.signer.calls[d].req;
    hide Begin, WouldPay, Buildable, OrderlyFrom, ExecFrom;
    var cfg, now, day := Accepting(w.signer.rows, req);
    var tx := NewTransfer(w.signer, OrderFor(req, day));
    var more := Recording(w, d, cfg, now, day, tx);
    LeadsBy(w, more);
    w', k := ExecFrom(w, more), |w.signer.rows|;
  }

  // ----- a request from elsewhere -----

  /** A request for a row open to approval that somebody else sends does harm when the signer would accept it. */
  lemma ForeignHarms(steps: seq<Step>, c: nat, req: Request, i: nat)
    requires OrderlyRun(steps) && c !in Exec(steps).forwards && c !in Exec(steps).signer.calls
    requires
      var w := Exec(steps);
      && i < |w.books.rows| && Unpaid(w.books.rows[i].status) && req.approval.terms.payout == w.books.rows[i].id
      && WouldPay(w.signer.rows, req)
    ensures Harmed(Do(Exec(steps), Signer(Run.Arrive(c, req))))
  {
    hide OrderlyRun, Exec, Harmed, WouldPay, Run.Inv, OrderlyFrom;
    var w := Exec(steps);
    SignerHalf(steps);
    var after := Do(w, Signer(Run.Arrive(c, req)));
    assert after == w.(signer := w.signer.(calls := w.signer.calls[c := Run.Arrived(req)]));
    NewSurvives(w.signer, after.signer);
    hide Do;
    StartsOrderly(after);
    RecordedAnyway(after, [], c, i);
  }
}
