/**
 * Concrete runs. In five of them one step is out of order, a different one each time, and the agent's rows part from the
 * signer's journal. In three nothing is: the winner is paid, a ledger entry is wrong, a paid row becomes unknown.
 */
module GrainhackRaces {
  import opened Basics
  import opened GrainhackJournal
  import opened GrainhackStatement
  import opened GrainhackSigner
  import opened GrainhackAgent
  import opened GrainhackBooks
  import opened GrainhackChain
  import opened GrainhackIntake
  import opened GrainhackAgreement
  import opened GrainhackOrderly
  import opened GrainhackPath
  import opened GrainhackAmounts
  import Run = GrainhackRun

  const EMPTY: World := GrainhackAgreement.Start

  /** Everything before this step and everything after it keeps to the assumptions. */
  ghost predicate OneOutOfOrder(before: seq<Step>, s: Step, after: seq<Step>) {
    OrderlyRun(before) && OrderlyFrom(Exec(before + [s]), after)
  }

  lemma RunThrough(w: World, s: Step, w': World) returns (before: seq<Step>, after: seq<Step>)
    requires Leads(EMPTY, w) && Leads(Do(w, s), w')
    ensures OneOutOfOrder(before, s, after) && Exec(before + [s] + after) == w'
  {
    hide Do, OrderlyFrom, OrderlyRun;
    before := RunTo(w);
    assert (before + [s])[..|before|] == before;
    after :| OrderlyFrom(Do(w, s), after) && ExecFrom(Do(w, s), after) == w';
    ExecSplit(before + [s], after);
  }

  // ----- one winner, two statements, and an approval for each -----

  const POOL: EventPool := EventPool(Uuid(100), Contributor)
  const MONEY: Money := Money(USDC, Devnet)
  const MINT: Address := Solana(9)
  const WALLET: Address := Solana(1)
  const APPROVER: Address := Solana(7)
  const AGENT: AgentConfig := AgentConfig(Devnet, map[USDC := MINT], {APPROVER})
  const SIGNER: Config := Config(Devnet, map[USDC := MINT], map[], {APPROVER}, Solana(8))

  function Paying(id: nat, supersedes: Option<Uuid>, amount: nat): Statement {
    Statement(Uuid(id), supersedes, POOL, Uuid(50), MONEY, amount, [Line(1, Login(1), amount, Payable)], Digest(id))
  }

  const FIRST: Statement := Paying(1, None, 5)
  const SECOND: Statement := Paying(2, Some(Uuid(1)), 7)

  predicate OneOfTwo(st: Statement) {
    st == FIRST || st == SECOND
  }

  function RowFor(st: Statement): PayoutRow {
    PayoutRow(Uuid(0), Winner(POOL, 1), Login(1), st.id, st.poolMinor, MONEY, MINT, Some(WALLET), AwaitingApproval, None)
  }

  function ApprovalOf(st: Statement): Approval {
    Approval(Terms(Uuid(0), st.id, st.digest, Winner(POOL, 1), Login(1), WALLET, st.poolMinor, MONEY, MINT), APPROVER, Some(0), Some(1000), Signature(st.id.n), true)
  }

  function RequestFor(st: Statement): Request {
    Request(ApprovalOf(st), st, true)
  }

  function Forwarding(st: Statement, stage: Stage): Forward {
    Forward(0, RowFor(st), RequestFor(st), stage)
  }

  function TransferFor(st: Statement): Transfer {
    Transfer(MINT, WALLET, st.poolMinor, 1, 10)
  }

  const OPEN: World := World(Run.Start, Books([RowFor(FIRST)], []), [Held(FIRST, None)], map[1 := WALLET], 1, map[], map[], map[])

  /** The winner links a wallet and the first statement is imported. */
  lemma Opening()
    ensures Leads(EMPTY, OPEN)
  {
    hide Leads;
    var linked := EMPTY.(wallets := map[1 := WALLET]);
    LeadsNowhere(EMPTY);
    LeadsThen(EMPTY, EMPTY, Relink(1, Some(WALLET)));
    assert Do(EMPTY, Relink(1, Some(WALLET))) == linked;
    FirstImport(linked);
    LeadsThen(EMPTY, linked, ImportStatement(FIRST, true, AGENT));
  }

  lemma PayingIsWellFormed(id: nat, supersedes: Option<Uuid>, amount: nat)
    requires supersedes != Some(Uuid(id))
    ensures WellFormed(Paying(id, supersedes, amount))
  {
    assert [Line(1, Login(1), amount, Payable)][..0] == [];
  }

  lemma FirstImport(w: World)
    requires w == EMPTY.(wallets := map[1 := WALLET])
    ensures Importing(w, FIRST, true, AGENT) == OPEN
  {
    PayingIsWellFormed(1, None, 5);
    var m := Import(FIRST, MINT, w.wallets);
    var row := RowFor(FIRST);
    assert FIRST.lines[..0] == [];
    assert ImportLines(m, [], FIRST.lines, FreshIds(0, 1)) == ImportLine(m, [], [], FIRST.lines[0], Uuid(0)) == [row];
    assert AfterImport(m, [], FreshIds(0, 1)) == [row];
  }

  /** The second statement pays the same winner 7 instead of 5. */
  function WithSecond(w: World): World {
    Importing(w, SECOND, true, AGENT)
  }

  lemma SecondImport(w: World)
    requires w.books == OPEN.books && w.held == OPEN.held && w.wallets == OPEN.wallets
    ensures
      var w' := WithSecond(w);
      && w' == w.(books := Books([RowFor(SECOND)], []), held := w'.held, nextId := w'.nextId)
      && FindHeld(w'.held, SECOND.id).Some? && w'.held[FindHeld(w'.held, SECOND.id).value].statement == SECOND
  {
    PayingIsWellFormed(2, Some(Uuid(1)), 7);
    var m := Import(SECOND, MINT, w.wallets);
    var ids := FreshIds(w.nextId, 1);
    var row := RowFor(FIRST);
    assert w.held[..0] == [];
    assert Judge(w.held, SECOND, Devnet, AGENT.mints) == Accept;
    assert SECOND.lines[..0] == [];
    assert FindWinner([row], Winner(POOL, 1)) == Some(0);
    assert ImportLines(m, [row], SECOND.lines, ids) == ImportLine(m, [row], [row], SECOND.lines[0], ids[0]);
    assert Listed(SECOND, 1);
    assert AfterImport(m, [row], ids) == [RowFor(SECOND)];
  }

  // ----- the row is approved, claimed and sent to the signer -----

  predicate Ready(w: World, st: Statement) {
    && w.signer == Run.Start && w.books == Books([RowFor(st)], []) && w.wallets == map[1 := WALLET] && w.forwards == map[]
    && FindHeld(w.held, st.id).Some? && w.held[FindHeld(w.held, st.id).value].statement == st
  }

  lemma OpenIsReady()
    ensures Ready(OPEN, FIRST)
  {
    assert FindHeld([Held(FIRST, None)], Uuid(1)) == Some(0);
  }

  function ReadStep(st: Statement, c: nat): Step {
    ReadForApproval(c, 0, ApprovalOf(st), true, AGENT, 0)
  }

  lemma Approved(w: World, c: nat, st: Statement)
    requires OneOfTwo(st) && Ready(w, st)
    ensures Leads(w, w.(forwards := map[c := Forwarding(st, Checked)]))
  {
    hide Leads;
    LeadsNowhere(w);
    LeadsThen(w, w, ReadStep(st, c));
    var read := w.(forwards := map[c := Forwarding(st, Read)]);
    assert Do(w, ReadStep(st, c)) == read by { hide FindHeld; }
    hide FindHeld;
    LeadsThen(w, read, CheckWallet(c));
    assert Do(read, CheckWallet(c)) == w.(forwards := map[c := Forwarding(st, Checked)]);
  }

  function AfterClaim(w: World, c: nat, st: Statement): World
    requires |w.books.rows| == 1
  {
    w.(books := Books([w.books.rows[0].(status := Submitted)], w.books.ledger), forwards := map[c := Forwarding(st, Claimed)])
  }

  lemma Claims(w: World, c: nat, st: Statement)
    requires |w.books.rows| == 1 && w.books.rows[0].status == AwaitingApproval && w.forwards == map[c := Forwarding(st, Checked)]
    ensures Do(w, Claim(c)) == AfterClaim(w, c, st)
  {
  }

  function AfterPost(w: World, c: nat, st: Statement): World {
    w.(forwards := map[c := Forwarding(st, Posted(true))], signer := Run.Start.(calls := map[c := Run.Arrived(RequestFor(st))]))
  }

  lemma Posts(w: World, c: nat, st: Statement)
    requires w.forwards == map[c := Forwarding(st, Claimed)] && w.signer == Run.Start
    ensures Leads(w, AfterPost(w, c, st))
  {
    hide Leads;
    LeadsNowhere(w);
    LeadsThen(w, w, Post(c));
    var calls: map<nat, Run.Call> := map[];
    assert calls[c := Run.Arrived(RequestFor(st))] == map[c := Run.Arrived(RequestFor(st))];
    assert Do(w, Post(c)) == AfterPost(w, c, st);
  }

  // ----- the signer pays it -----

  function Journalled(st: Statement, status: Status, resolver: Option<Actor>): Row {
    Row(OrderFor(RequestFor(st), 0), TransferFor(st), Some(10), status, resolver)
  }

  /** The signer with one payment in its journal, landed. */
  function Paid1(c: nat, st: Statement, row: Row, call: Run.Call): Run.World {
    Run.World([row], [Grant(RequestFor(st), SIGNER, 0)], Chain(0, {TransferFor(st)}, map[TransferFor(st) := true]), map[c := call])
  }

  /** ... its broadcast not yet back. */
  function AtSea(c: nat, st: Statement): Run.World {
    Paid1(c, st, Journalled(st, Status.Sent, None), Run.Broadcasting(0))
  }

  function Returned(c: nat, st: Statement): Run.World {
    Paid1(c, st, Journalled(st, Confirmed, None), Run.Answered(Outcome.Paid(TransferFor(st))))
  }

  lemma BeginBuilds(st: Statement)
    requires OneOfTwo(st)
    ensures Begin([], SIGNER, RequestFor(st), 0, 0) == Build(OrderFor(RequestFor(st), 0), Limits(st.poolMinor, 2_500_000_000))
  {
    assert LineFor(st.lines, 1) == Some(st.lines[0]);
  }

  lemma LandsAtSigner(w: World, c: nat, st: Statement)
    requires OneOfTwo(st) && w.signer == Run.Start.(calls := map[c := Run.Arrived(RequestFor(st))])
    ensures Leads(w, w.(signer := AtSea(c, st)))
  {
    BeginBuilds(st);
    var o, g, tx := OrderFor(RequestFor(st), 0), Grant(RequestFor(st), SIGNER, 0), TransferFor(st);
    assert Buildable(w.signer, o, tx);
    assert AfterLanding(w.signer, c, o, g, tx) == AtSea(c, st);
    hide Begin, OrderlyFrom, ExecFrom, AfterLanding, Buildable, OneOfTwo;
    var steps := Landing(w, c, SIGNER, 0, 0, tx);
    LeadsBy(w, steps);
  }

  lemma ReturnsAtSigner(w: World, c: nat, st: Statement)
    requires w.signer == AtSea(c, st)
    ensures Leads(w, w.(signer := Returned(c, st)))
  {
    hide Leads;
    LeadsNowhere(w);
    LeadsThen(w, w, Signer(Run.BroadcastReturns(c)));
    assert Moved([Journalled(st, Status.Sent, None)], 0, Confirmed, None) == [Journalled(st, Confirmed, None)];
    assert Run.Do(AtSea(c, st), Run.BroadcastReturns(c)) == Returned(c, st);
  }

  lemma PaysAtSigner(w: World, c: nat, st: Statement)
    requires OneOfTwo(st) && w.signer == Run.Start.(calls := map[c := Run.Arrived(RequestFor(st))])
    ensures Leads(w, w.(signer := Returned(c, st)))
  {
    hide Leads;
    LandsAtSigner(w, c, st);
    ReturnsAtSigner(w.(signer := AtSea(c, st)), c, st);
    LeadsOn(w, w.(signer := AtSea(c, st)), w.(signer := Returned(c, st)));
  }

  // ----- single steps -----

  lemma SignerDoes(w: World, s: Run.Step)
    requires !s.Arrive?
    ensures Do(w, Signer(s)) == w.(signer := Run.Do(w.signer, s))
  {
    hide Run.Do;
  }

  lemma RowsFetched(w: World, k: nat, copy: PayoutRow)
    requires k !in w.sweeps && w.books.rows == [copy] && InFlight(copy.status)
    ensures Do(w, SweepRows(k, None)) == w.(sweeps := w.sweeps[k := Sweep(map[0 := copy], None)])
  {
    assert InFlightRows([copy], None) == map[0 := copy];
  }

  lemma JournalFetched(w: World, k: nat)
    requires k in w.sweeps && w.sweeps[k].journal.None?
    ensures Do(w, SweepJournal(k)) == w.(sweeps := w.sweeps[k := w.sweeps[k].(journal := Some(w.signer.rows))])
  {
  }

  lemma RowSwept(w: World, k: nat, copy: PayoutRow, journal: seq<Row>, aged: bool)
    requires k in w.sweeps && w.sweeps[k] == Sweep(map[0 := copy], Some(journal)) && |w.books.rows| == 1
    ensures
      Do(w, SweepRow(k, 0, aged)) ==
        w.(books := Reconciled(w.books, 0, copy, Dictate(copy, journal, aged)), sweeps := w.sweeps[k := Sweep(map[], Some(journal))])
  {
    hide Reconciled, Dictate;
    assert map[0 := copy] - {0} == map[];
  }

  // ----- one step out of order -----

  /** The row is paid and in the ledger for what was approved and sent, 5, while it says 7. */
  ghost predicate AmountsPart(w: World) {
    && |w.books.rows| == 1 && w.books.rows[0].status == RowStatus.Paid && w.books.rows[0].amount == 7
    && |w.signer.rows| == 1 && w.signer.rows[0].status == Confirmed && w.signer.rows[0].order.payout == w.books.rows[0].id && w.signer.rows[0].order.amount == 5
  }

  /** The row is open to approval, and its payment is confirmed and landed. */
  ghost predicate PaidYetOpen(w: World) {
    && |w.books.rows| == 1 && w.books.rows[0].status == AwaitingApproval
    && |w.signer.rows| == 1 && w.signer.rows[0].status == Confirmed && w.signer.rows[0].order.payout == w.books.rows[0].id
    && MovedTokens(w.signer.chain, w.signer.rows[0].tx)
  }

  lemma OpenApproved(c: nat)
    ensures Leads(EMPTY, OPEN.(forwards := map[c := Forwarding(FIRST, Checked)]))
  {
    hide Leads, Ready;
    Opening();
    OpenIsReady();
    Approved(OPEN, c, FIRST);
    LeadsOn(EMPTY, OPEN, OPEN.(forwards := map[c := Forwarding(FIRST, Checked)]));
  }

  /** A superseding statement is imported between approve's read and its claim, which guards only the status. */
  lemma ImportDuringApproval()
    ensures exists before, s, after :: OneOutOfOrder(before, s, after) && s.Claim? && AmountsPart(Exec(before + [s] + after))
  {
    hide Leads, OneOutOfOrder, Exec, Importing;
    var w0 := OPEN.(forwards := map[0 := Forwarding(FIRST, Checked)]);
    OpenApproved(0);
    SecondImport(w0);
    var w1 := WithSecond(w0);
    LeadsThen(EMPTY, w0, ImportStatement(SECOND, true, AGENT));
    Claims(w1, 0, FIRST);
    var w2 := AfterClaim(w1, 0, FIRST);
    Posts(w2, 0, FIRST);
    var w3 := AfterPost(w2, 0, FIRST);
    PaysAtSigner(w3, 0, FIRST);
    var w4 := w3.(signer := Returned(0, FIRST));
    LeadsOn(w2, w3, w4);
    LeadsThen(w2, w4, Reply(0));
    PaidForFive(w4);
    hide Do;
    var before, after := RunThrough(w1, Claim(0), Do(w4, Reply(0)));
    assert AmountsPart(Exec(before + [Claim(0)] + after));
  }

  lemma PaidForFive(w: World)
    requires w.signer == Returned(0, FIRST) && w.forwards == map[0 := Forwarding(FIRST, Posted(true))]
    requires w.books == Books([RowFor(SECOND).(status := Submitted)], [])
    ensures AmountsPart(Do(w, Reply(0)))
  {
  }

  lemma OpenPosted(c: nat)
    ensures Leads(EMPTY, AfterPost(AfterClaim(OPEN, c, FIRST), c, FIRST))
  {
    hide Leads;
    var w0 := OPEN.(forwards := map[c := Forwarding(FIRST, Checked)]);
    OpenApproved(c);
    LeadsThen(EMPTY, w0, Claim(c));
    Claims(w0, c, FIRST);
    Posts(AfterClaim(OPEN, c, FIRST), c, FIRST);
    LeadsOn(EMPTY, AfterClaim(OPEN, c, FIRST), AfterPost(AfterClaim(OPEN, c, FIRST), c, FIRST));
  }

  /** A resolution while the agent waits for a call whose broadcast is not back: the call's own mark is then illegal, it
      throws, and the server answers 400, which the agent takes for a refusal. */
  lemma ResolvedWhilePaying()
    ensures exists before, s, after :: OneOutOfOrder(before, s, after) && s.Signer? && s.step.Resolve? && PaidYetOpen(Exec(before + [s] + after))
  {
    hide Leads, OneOutOfOrder, Exec;
    var w0 := AfterPost(AfterClaim(OPEN, 0, FIRST), 0, FIRST);
    OpenPosted(0);
    LandsAtSigner(w0, 0, FIRST);
    var w1 := w0.(signer := AtSea(0, FIRST));
    LeadsOn(EMPTY, w0, w1);
    var s := Run.Resolve(Uuid(0), Found(false, Some(Finalized)), Named(3));
    var settled := Journalled(FIRST, Confirmed, Some(Named(3)));
    var w2 := w1.(signer := Paid1(0, FIRST, settled, Run.Broadcasting(0)));
    var w3 := w1.(signer := Paid1(0, FIRST, settled, Run.Answered(Threw)));
    ResolvesThenThrows(settled);
    RefusedReply(w3, settled);
    hide Run.Do, Do;
    SignerDoes(w1, s);
    LeadsNowhere(w2);
    LeadsThen(w2, w2, Signer(Run.BroadcastReturns(0)));
    SignerDoes(w2, Run.BroadcastReturns(0));
    LeadsThen(w2, w3, Reply(0));
    var before, after := RunThrough(w1, Signer(s), Do(w3, Reply(0)));
    assert PaidYetOpen(Exec(before + [Signer(s)] + after));
  }

  lemma ResolvesThenThrows(settled: Row)
    requires settled == Journalled(FIRST, Confirmed, Some(Named(3)))
    ensures
      var resolved := Paid1(0, FIRST, settled, Run.Broadcasting(0));
      && Run.Do(AtSea(0, FIRST), Run.Resolve(Uuid(0), Found(false, Some(Finalized)), Named(3))) == resolved
      && Run.Do(resolved, Run.BroadcastReturns(0)) == Paid1(0, FIRST, settled, Run.Answered(Threw))
  {
    assert Find(AtSea(0, FIRST).rows, ByPayout(Uuid(0))) == Some(0);
  }

  lemma RefusedReply(w: World, settled: Row)
    requires settled == Journalled(FIRST, Confirmed, Some(Named(3))) && w.signer == Paid1(0, FIRST, settled, Run.Answered(Threw))
    requires w.forwards == map[0 := Forwarding(FIRST, Posted(true))] && w.books == Books([RowFor(FIRST).(status := Submitted)], [])
    ensures PaidYetOpen(Do(w, Reply(0)))
  {
  }

  /** A reconcile has the rows, and the journal from before the signer records the request. */
  function Early(w: World, copy: PayoutRow): World {
    w.(sweeps := map[9 := Sweep(map[0 := copy], Some([]))])
  }

  lemma ReadsEarly(w: World, copy: PayoutRow)
    requires w.sweeps == map[] && w.books == Books([copy], []) && w.signer.rows == [] && InFlight(copy.status)
    ensures Leads(w, Early(w, copy))
  {
    var w1 := w.(sweeps := map[9 := Sweep(map[0 := copy], None)]);
    RowsFetched(w, 9, copy);
    JournalFetched(w1, 9);
    hide Leads, Do, Orderly;
    assert w.sweeps[9 := Sweep(map[0 := copy], None)] == w1.sweeps;
    assert w1.sweeps[9 := Sweep(map[0 := copy], Some([]))] == Early(w, copy).sweeps;
    LeadsNowhere(w);
    Unconditional(w, SweepRows(9, None));
    LeadsThen(w, w, SweepRows(9, None));
    Unconditional(w1, SweepJournal(9));
    LeadsThen(w, w1, SweepJournal(9));
  }

  /** A reconcile releases as an orphan a row whose request the signer has and has not recorded yet. */
  lemma ReleasedWhilePosted()
    ensures exists before, s, after :: OneOutOfOrder(before, s, after) && s.SweepRow? && PaidYetOpen(Exec(before + [s] + after))
  {
    hide Leads, OneOutOfOrder, Exec;
    var copy := RowFor(FIRST).(status := Submitted);
    var w0 := AfterPost(AfterClaim(OPEN, 0, FIRST), 0, FIRST);
    OpenPosted(0);
    ReadsEarly(w0, copy);
    var w1 := Early(w0, copy);
    LeadsOn(EMPTY, w0, w1);
    RowSwept(w1, 9, copy, [], true);
    hide Do;
    var s := SweepRow(9, 0, true);
    var w2 := Do(w1, s);
    assert w2.books == OPEN.books && w2.signer == w0.signer by { assert Dictate(copy, [], true) == Release; }
    PaysAtSigner(w2, 0, FIRST);
    var before, after := RunThrough(w1, s, w2.(signer := Returned(0, FIRST)));
    assert PaidYetOpen(Exec(before + [s] + after));
  }

  /** A refreeze that found the row not yet approved writes after it has been approved and sent to the signer. */
  lemma RefrozenWhilePosted()
    ensures exists before, s, after :: OneOutOfOrder(before, s, after) && s.RefreezeWrite? && PaidYetOpen(Exec(before + [s] + after))
  {
    hide Leads, OneOutOfOrder, Exec;
    var w0 := OPEN.(forwards := map[0 := Forwarding(FIRST, Checked)]);
    OpenApproved(0);
    Refreezes(w0);
    var w1 := w0.(refreezes := map[3 := FoundWallet(0, Some(WALLET))]);
    LeadsOn(EMPTY, w0, w1);
    Claims(w1, 0, FIRST);
    LeadsThen(EMPTY, w1, Claim(0));
    var w2 := AfterClaim(w1, 0, FIRST);
    Posts(w2, 0, FIRST);
    var w3 := AfterPost(w2, 0, FIRST);
    LeadsOn(EMPTY, w2, w3);
    Rewrites(w3);
    hide Do;
    var s := RefreezeWrite(3);
    var w4 := Do(w3, s);
    PaysAtSigner(w4, 0, FIRST);
    var before, after := RunThrough(w3, s, w4.(signer := Returned(0, FIRST)));
    assert PaidYetOpen(Exec(before + [s] + after));
  }

  lemma Refreezes(w: World)
    requires w == OPEN.(forwards := map[0 := Forwarding(FIRST, Checked)])
    ensures Leads(w, w.(refreezes := map[3 := FoundWallet(0, Some(WALLET))]))
  {
    hide Leads;
    var w1 := w.(refreezes := map[3 := FoundRow(0, 1)]);
    LeadsNowhere(w);
    LeadsThen(w, w, RefreezeRow(3, 0));
    assert Do(w, RefreezeRow(3, 0)) == w1;
    LeadsThen(w, w1, RefreezeWallet(3));
    assert Do(w1, RefreezeWallet(3)) == w.(refreezes := map[3 := FoundWallet(0, Some(WALLET))]);
  }

  lemma Rewrites(w: World)
    requires w.books == Books([RowFor(FIRST).(status := Submitted)], []) && w.refreezes == map[3 := FoundWallet(0, Some(WALLET))]
    ensures Do(w, RefreezeWrite(3)) == w.(books := OPEN.books, refreezes := map[])
  {
    assert w.refreezes - {3} == map[];
    assert [RowFor(FIRST).(status := Submitted)][0 := RowFor(FIRST)] == [RowFor(FIRST)];
  }

  /** The approved request, sent to the signer by somebody else. */
  lemma SentByAnother()
    ensures exists before, s, after :: OneOutOfOrder(before, s, after) && s.Signer? && s.step.Arrive? && PaidYetOpen(Exec(before + [s] + after))
  {
    hide Leads, OneOutOfOrder, Exec;
    Opening();
    var s := Signer(Run.Arrive(5, RequestFor(FIRST)));
    var w1 := OPEN.(signer := Run.Start.(calls := map[5 := Run.Arrived(RequestFor(FIRST))]));
    assert Do(OPEN, s) == w1;
    PaysAtSigner(w1, 5, FIRST);
    var w2 := w1.(signer := Returned(5, FIRST));
    hide Do;
    var before, after := RunThrough(OPEN, s, w2);
    assert PaidYetOpen(Exec(before + [s] + after));
  }

  // ----- nothing out of order -----

  /** The row is paid, with one ledger entry, for the payment the journal confirms and the chain shows. */
  ghost predicate PaidAndRecorded(w: World) {
    && |w.books.rows| == 1 && w.books.rows[0].status == RowStatus.Paid && w.books.rows[0].amount == 5
    && w.books.ledger == [EntryFor(RowFor(FIRST), TransferFor(FIRST))]
    && w.signer.rows == [Journalled(FIRST, Confirmed, None)] && MovedTokens(w.signer.chain, TransferFor(FIRST))
  }

  lemma OpenReturned()
    ensures Leads(EMPTY, AfterPost(AfterClaim(OPEN, 0, FIRST), 0, FIRST).(signer := Returned(0, FIRST)))
  {
    hide Leads;
    var w0 := AfterPost(AfterClaim(OPEN, 0, FIRST), 0, FIRST);
    OpenPosted(0);
    PaysAtSigner(w0, 0, FIRST);
    LeadsOn(EMPTY, w0, w0.(signer := Returned(0, FIRST)));
  }

  /** The assumptions do not rule out paying: an orderly run gets a winner paid, on every side. */
  lemma OrderlyPayment()
    ensures exists steps: seq<Step> :: OrderlyRun(steps) && PaidAndRecorded(Exec(steps))
  {
    hide Leads, Exec, OrderlyRun;
    var w := AfterPost(AfterClaim(OPEN, 0, FIRST), 0, FIRST).(signer := Returned(0, FIRST));
    OpenReturned();
    LeadsThen(EMPTY, w, Reply(0));
    RecordedReply(w);
    hide Do;
    var steps := RunTo(Do(w, Reply(0)));
    assert PaidAndRecorded(Exec(steps));
  }

  lemma RecordedReply(w: World)
    requires w.signer == Returned(0, FIRST)
    requires w.forwards == map[0 := Forwarding(FIRST, Posted(true))] && w.books == Books([RowFor(FIRST).(status := Submitted)], [])
    ensures PaidAndRecorded(Do(w, Reply(0)))
  {
  }

  ghost predicate BecomesUnknown(w: World, s: Step) {
    PaidAndRecorded(w) && Do(w, s).books == SetStatus(w.books, 0, OutcomeUnknown)
  }

  /** Paid is not final: a reconcile records the payment, and then the request it was for times out. */
  lemma PaidThenUnknown()
    ensures exists steps: seq<Step>, s: Step :: OrderlyRun(steps) && s.LoseReply? && Orderly(Exec(steps), s) && BecomesUnknown(Exec(steps), s)
  {
    hide Leads, Exec, OrderlyRun, Orderly;
    var w := AfterPost(AfterClaim(OPEN, 0, FIRST), 0, FIRST).(signer := Returned(0, FIRST));
    OpenReturned();
    SweptPaid(w, 0, FIRST, RowFor(FIRST).(status := Submitted));
    var paid := Swept(w, FIRST, RowFor(FIRST).(status := Submitted));
    LeadsOn(EMPTY, w, paid);
    var steps := RunTo(paid);
    assert Orderly(paid, LoseReply(0)) by { Unconditional(paid, LoseReply(0)); }
    assert BecomesUnknown(Exec(steps), LoseReply(0));
  }

  lemma Unconditional(w: World, s: Step)
    requires s.LoseReply? || s.SweepRows? || s.SweepJournal? || s.SweepEnd? || s.ImportStatement? || (s.SweepRow? && !s.aged)
    ensures Orderly(w, s)
  {
  }

  /** One row recorded as paid by a reconcile, from the copy it read. */
  function Swept(w: World, st: Statement, copy: PayoutRow): World
    requires |w.books.rows| == 1
  {
    var tx := TransferFor(st);
    w.(books := Books([w.books.rows[0].(status := RowStatus.Paid, tx := Some(tx))], [EntryFor(copy, tx)]), sweeps := map[9 := Sweep(map[], Some(w.signer.rows))])
  }

  /** A reconcile that has its rows fetches the journal and records the payment. */
  lemma SweptFrom(w: World, c: nat, st: Statement, copy: PayoutRow)
    requires w.signer == Returned(c, st) && w.sweeps == map[9 := Sweep(map[0 := copy], None)] && copy.id == Uuid(0)
    requires |w.books.rows| == 1 && InFlight(w.books.rows[0].status) && w.books.ledger == []
    ensures Leads(w, Swept(w, st, copy))
  {
    hide Leads;
    LeadsNowhere(w);
    var w1 := w.(sweeps := map[9 := Sweep(map[0 := copy], Some(w.signer.rows))]);
    JournalFetched(w, 9);
    Unconditional(w, SweepJournal(9));
    hide Do, Orderly;
    assert w.sweeps[9 := Sweep(map[0 := copy], Some(w.signer.rows))] == w1.sweeps;
    LeadsThen(w, w, SweepJournal(9));
    CopySwept(w1, c, st, copy);
    Unconditional(w1, SweepRow(9, 0, false));
    LeadsThen(w, w1, SweepRow(9, 0, false));
    assert Swept(w1, st, copy) == Swept(w, st, copy);
  }

  lemma CopySwept(w: World, c: nat, st: Statement, copy: PayoutRow)
    requires w.signer == Returned(c, st) && w.sweeps == map[9 := Sweep(map[0 := copy], Some(w.signer.rows))] && copy.id == Uuid(0)
    requires |w.books.rows| == 1 && InFlight(w.books.rows[0].status) && w.books.ledger == []
    ensures Do(w, SweepRow(9, 0, false)) == Swept(w, st, copy)
  {
    RowSwept(w, 9, copy, w.signer.rows, false);
    hide Do;
    assert w.sweeps[9 := Sweep(map[], Some(w.signer.rows))] == map[9 := Sweep(map[], Some(w.signer.rows))];
    RecordsCopy(w, c, st, copy);
  }

  lemma RecordsCopy(w: World, c: nat, st: Statement, copy: PayoutRow)
    requires w.signer == Returned(c, st) && copy.id == Uuid(0) && |w.books.rows| == 1 && InFlight(w.books.rows[0].status) && w.books.ledger == []
    ensures Reconciled(w.books, 0, copy, Dictate(copy, w.signer.rows, false)) == Swept(w, st, copy).books
  {
    assert Dictate(copy, w.signer.rows, false) == ToPaid(TransferFor(st));
    assert w.books.rows[0 := w.books.rows[0].(status := RowStatus.Paid, tx := Some(TransferFor(st)))] == Swept(w, st, copy).books.rows;
    assert [] + [EntryFor(copy, TransferFor(st))] == [EntryFor(copy, TransferFor(st))];
  }

  lemma SweptPaid(w: World, c: nat, st: Statement, row: PayoutRow)
    requires w.signer == Returned(c, st) && w.sweeps == map[] && w.books == Books([row], []) && InFlight(row.status) && row.id == Uuid(0)
    ensures Leads(w, Swept(w, st, row))
  {
    hide Leads;
    LeadsNowhere(w);
    Unconditional(w, SweepRows(9, None));
    RowsFetched(w, 9, row);
    hide Do, Orderly;
    LeadsThen(w, w, SweepRows(9, None));
    var w1 := w.(sweeps := map[9 := Sweep(map[0 := row], None)]);
    SweptFrom(w1, c, st, row);
    LeadsOn(w, w1, Swept(w, st, row));
  }

  /** A reconcile reads the row at 5 and waits; another releases it, it is superseded to 7, approved again and paid; the
      first then fetches the journal and enters 5 for a payment of 7. */
  ghost predicate EnteredFive(w: World) {
    && |w.books.rows| == 1 && w.books.rows[0].status == RowStatus.Paid && w.books.rows[0].amount == 7
    && |w.signer.rows| == 1 && w.signer.rows[0].status == Confirmed && w.signer.rows[0].order.payout == w.books.rows[0].id && w.signer.rows[0].order.amount == 7
    && |w.books.ledger| == 1 && w.books.ledger[0].payout == w.books.rows[0].id && w.books.ledger[0].amount == 5
  }

  lemma StaleEntry()
    ensures exists steps: seq<Step> :: OrderlyRun(steps) && EnteredFive(Exec(steps)) && !NeverStale(steps)
  {
    hide Leads, Exec, OrderlyRun, Orderly, Importing, Ready, NeverStale;
    var copy := RowFor(FIRST).(status := Submitted);
    var w1 := OPEN.(sweeps := map[9 := Sweep(map[0 := copy], None)]);
    OrphanReleased(copy);
    SecondImport(w1);
    Unconditional(w1, ImportStatement(SECOND, true, AGENT));
    LeadsThen(EMPTY, w1, ImportStatement(SECOND, true, AGENT));
    var w2 := WithSecond(w1);
    assert Ready(w2, SECOND) by { SecondIsReady(w1); }
    PaidAtSeven(w2);
    var w3 := AfterPost(AfterClaim(w2, 1, SECOND), 1, SECOND).(signer := Returned(1, SECOND));
    LeadsOn(EMPTY, w2, w3);
    SweptFrom(w3, 1, SECOND, copy);
    LeadsOn(EMPTY, w3, Swept(w3, SECOND, copy));
    hide Do;
    var steps := RunTo(Swept(w3, SECOND, copy));
    assert EnteredFive(Exec(steps));
    AmountsOverRuns(steps);
    assert !AmountTrue(Exec(steps).books.ledger[0], Exec(steps).signer.rows) by { assert Exec(steps).signer.rows[0].order.amount == 7; }
  }

  lemma SecondIsReady(w: World)
    requires w.books == OPEN.books && w.held == OPEN.held && w.wallets == OPEN.wallets && w.signer == OPEN.signer && w.forwards == map[]
    ensures Ready(WithSecond(w), SECOND)
  {
    hide Importing;
    SecondImport(w);
  }

  /** The agent stops after its claim; one reconcile has read its rows, and another releases the orphan. */
  lemma OrphanReleased(copy: PayoutRow)
    requires copy == RowFor(FIRST).(status := Submitted)
    ensures Leads(EMPTY, OPEN.(sweeps := map[9 := Sweep(map[0 := copy], None)]))
  {
    hide Leads;
    var w0 := OPEN.(forwards := map[0 := Forwarding(FIRST, Checked)]);
    OpenApproved(0);
    LeadsThen(EMPTY, w0, Claim(0));
    Claims(w0, 0, FIRST);
    var w1 := AfterClaim(OPEN, 0, FIRST);
    var w2 := OPEN.(books := Books([copy], []));
    LeadsThen(EMPTY, w1, StopWaiting(0));
    assert Do(w1, StopWaiting(0)) == w2 by { assert w1.forwards - {0} == map[]; }
    var w3 := w2.(sweeps := map[9 := Sweep(map[0 := copy], None)]);
    RowsFetched(w2, 9, copy);
    LeadsThen(EMPTY, w2, SweepRows(9, None));
    ReleasedByEight(w3, copy);
    LeadsOn(EMPTY, w3, OPEN.(sweeps := w3.sweeps));
  }

  lemma ReleasedByEight(w: World, copy: PayoutRow)
    requires copy == RowFor(FIRST).(status := Submitted)
    requires w == OPEN.(books := Books([copy], []), sweeps := map[9 := Sweep(map[0 := copy], None)])
    ensures Leads(w, OPEN.(sweeps := w.sweeps))
  {
    hide Leads;
    var w1 := w.(sweeps := w.sweeps[8 := Sweep(map[0 := copy], None)]);
    var w2 := w.(sweeps := w.sweeps[8 := Sweep(map[0 := copy], Some([]))]);
    var w3 := OPEN.(sweeps := w.sweeps[8 := Sweep(map[], Some([]))]);
    EightReleases(w, w1, w2, w3, copy);
    LeadsNowhere(w);
    LeadsThen(w, w, SweepRows(8, None));
    LeadsThen(w, w1, SweepJournal(8));
    assert Orderly(w2, SweepRow(8, 0, true));
    hide Do, Orderly;
    LeadsThen(w, w2, SweepRow(8, 0, true));
    Unconditional(w3, SweepEnd(8));
    LeadsThen(w, w3, SweepEnd(8));
  }

  lemma EightReleases(w: World, w1: World, w2: World, w3: World, copy: PayoutRow)
    requires copy == RowFor(FIRST).(status := Submitted)
    requires w == OPEN.(books := Books([copy], []), sweeps := map[9 := Sweep(map[0 := copy], None)])
    requires w1 == w.(sweeps := w.sweeps[8 := Sweep(map[0 := copy], None)]) && w2 == w.(sweeps := w.sweeps[8 := Sweep(map[0 := copy], Some([]))])
    requires w3 == OPEN.(sweeps := w.sweeps[8 := Sweep(map[], Some([]))])
    ensures Do(w, SweepRows(8, None)) == w1 && Do(w1, SweepJournal(8)) == w2 && Do(w2, SweepRow(8, 0, true)) == w3
    ensures Do(w3, SweepEnd(8)) == OPEN.(sweeps := w.sweeps)
  {
    SweepEnds(w3, 8);
    RowsFetched(w, 8, copy);
    JournalFetched(w1, 8);
    RowSwept(w2, 8, copy, [], true);
    hide Do, RowFor;
    assert w3.sweeps - {8} == w.sweeps;
    assert w1.sweeps[8 := Sweep(map[0 := copy], Some([]))] == w2.sweeps;
    assert w2.sweeps[8 := Sweep(map[], Some([]))] == w3.sweeps;
    assert Reconciled(w2.books, 0, copy, Release) == OPEN.books by { hide *; BackToOpen(copy); }
    assert Dictate(copy, [], true) == Release;
  }

  lemma SweepEnds(w: World, k: nat)
    ensures Do(w, SweepEnd(k)) == w.(sweeps := w.sweeps - {k})
  {
  }

  lemma BackToOpen(copy: PayoutRow)
    requires copy == RowFor(FIRST).(status := Submitted)
    ensures Reconciled(Books([copy], []), 0, copy, Release) == OPEN.books
  {
  }

  lemma PaidAtSeven(w: World)
    requires Ready(w, SECOND)
    ensures Leads(w, AfterPost(AfterClaim(w, 1, SECOND), 1, SECOND).(signer := Returned(1, SECOND)))
  {
    hide Leads, FindHeld;
    var w0 := w.(forwards := map[1 := Forwarding(SECOND, Checked)]);
    Approved(w, 1, SECOND);
    LeadsThen(w, w0, Claim(1));
    Claims(w0, 1, SECOND);
    var w1 := AfterClaim(w, 1, SECOND);
    Posts(w1, 1, SECOND);
    var w2 := AfterPost(w1, 1, SECOND);
    LeadsOn(w, w1, w2);
    PaysAtSigner(w2, 1, SECOND);
    LeadsOn(w, w2, w2.(signer := Returned(1, SECOND)));
  }
}
