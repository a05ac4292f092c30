/** How the agent's rows and ledger follow the signer's journal, as functions of the tables. */
module GrainhackBooks {
  import opened Basics
  import opened GrainhackJournal
  import opened GrainhackStatement
  import opened GrainhackAgent

  // ----- wallets -----

  function Refreshed(row: PayoutRow, wallets: map<nat, Address>, hackathon: Option<Uuid>): PayoutRow {
    if row.status == AwaitingWallet && row.winner.user in wallets && (hackathon.Some? ==> row.winner.pool.hackathon == hackathon.value)
      then row.(status := AwaitingApproval, recipient := Some(wallets[row.winner.user]))
      else row
  }

  function RefreshRows(rows: seq<PayoutRow>, wallets: map<nat, Address>, hackathon: Option<Uuid>): seq<PayoutRow> {
    seq(|rows|, i requires 0 <= i < |rows| => Refreshed(rows[i], wallets, hackathon))
  }

  predicate CanRefreeze(s: RowStatus) {
    s == AwaitingApproval || s == AwaitingWallet
  }

  function Refrozen(row: PayoutRow, wallets: map<nat, Address>): PayoutRow {
    FrozenWith(row, Wallet(wallets, row.winner.user))
  }

  function FrozenWith(row: PayoutRow, wallet: Option<Address>): PayoutRow {
    row.(recipient := wallet, status := if wallet.Some? then AwaitingApproval else AwaitingWallet)
  }

  // ----- recording what the signer did -----

  predicate InFlight(s: RowStatus) {
    s == Submitted || s == OutcomeUnknown
  }

  function EntryFor(row: PayoutRow, tx: Transfer): Entry {
    Entry(row.id, row.winner, row.amount, row.money, tx)
  }

  predicate Conflicts(ledger: seq<Entry>, e: Entry) {
    exists k :: 0 <= k < |ledger| && (ledger[k].payout == e.payout || ledger[k].tx == e.tx)
  }

  /** ON CONFLICT DO NOTHING. */
  function LedgerWith(ledger: seq<Entry>, e: Entry): seq<Entry> {
    if Conflicts(ledger, e) then ledger else ledger + [e]
  }

  datatype Books = Books(rows: seq<PayoutRow>, ledger: seq<Entry>)

  /** One transaction: the row, if still in flight, becomes paid, and the ledger gains what the caller's copy of it says. */
  function MarkPaid(b: Books, i: nat, seen: PayoutRow, tx: Transfer): Books
    requires i < |b.rows|
  {
    if InFlight(b.rows[i].status)
      then Books(b.rows[i := b.rows[i].(status := Paid, tx := Some(tx))], LedgerWith(b.ledger, EntryFor(seen, tx)))
      else b
  }

  function SetStatus(b: Books, i: nat, s: RowStatus): Books
    requires i < |b.rows|
  {
    b.(rows := b.rows[i := b.rows[i].(status := s)])
  }

  /** What the signer's journal says should become of an in-flight row. */
  datatype Dictated = ToPaid(tx: Transfer) | ToFailed | ToUnknown | OtherPayout | Release | Wait

  function Dictate(row: PayoutRow, journal: seq<Row>, aged: bool): Dictated {
    var j := Find(journal, ByPayout(row.id));
    if j.Some? then
      if journal[j.value].status == Confirmed then ToPaid(journal[j.value].tx)
      else if journal[j.value].status == FailedUnsent then ToFailed
      else ToUnknown
    else if Find(journal, ByWinner(row.winner)).Some? then OtherPayout
    else if aged then Release
    else Wait
  }

  /** One row of a reconcile, decided from the copies it read, written over the row as it now is. The two writes of
      `unknown` have no status guard; the table's CHECK makes them throw on a row with no recipient. */
  function Reconciled(b: Books, i: nat, seen: PayoutRow, d: Dictated): Books
    requires i < |b.rows|
  {
    match d
    case ToPaid(tx) => MarkPaid(b, i, seen, tx)
    case ToFailed => if InFlight(b.rows[i].status) then SetStatus(b, i, Failed) else b
    case ToUnknown => if seen.status != OutcomeUnknown && b.rows[i].recipient.Some? then SetStatus(b, i, OutcomeUnknown) else b
    case OtherPayout => if b.rows[i].recipient.Some? then SetStatus(b, i, OutcomeUnknown) else b
    case Release => if InFlight(b.rows[i].status) then SetStatus(b, i, AwaitingApproval) else b
    case Wait => b
  }

  /** A whole reconcile with nothing else running: the in-flight rows, in order. */
  function ReconcileTo(b: Books, journal: seq<Row>, aged: set<Uuid>, n: nat): (r: Books)
    requires n <= |b.rows|
    ensures |r.rows| == |b.rows|
  {
    if n == 0 then b
    else
      var r := ReconcileTo(b, journal, aged, n - 1);
      var seen := b.rows[n - 1];
      if InFlight(seen.status) then Reconciled(r, n - 1, seen, Dictate(seen, journal, seen.id in aged)) else r
  }

  function Reconcile(b: Books, journal: seq<Row>, aged: set<Uuid>): Books {
    ReconcileTo(b, journal, aged, |b.rows|)
  }

  // ----- what a quiet reconcile achieves -----

  /** The status the journal dictates for an in-flight row. */
  function StatusDictated(row: PayoutRow, journal: seq<Row>, aged: bool): RowStatus {
    match Dictate(row, journal, aged)
    case ToPaid(_) => Paid
    case ToFailed => Failed
    case ToUnknown => OutcomeUnknown
    case OtherPayout => OutcomeUnknown
    case Release => AwaitingApproval
    case Wait => row.status
  }

  ghost predicate FollowsJournal(earlier: PayoutRow, later: PayoutRow, journal: seq<Row>, aged: bool) {
    if InFlight(earlier.status) then
      && later == earlier.(status := StatusDictated(earlier, journal, aged), tx := later.tx)
      && (later.status == Paid ==> exists j :: (0 <= j < |journal| && journal[j].order.payout == earlier.id && journal[j].status == Confirmed && later.tx == Some(journal[j].tx)))
      && (later.status != Paid ==> later.tx == earlier.tx)
    else later == earlier
  }

  lemma {:induction false} ReconcileToFollows(b: Books, journal: seq<Row>, aged: set<Uuid>, n: nat)
    requires n <= |b.rows| && RecipientsFrozen(b.rows)
    ensures
      var r := ReconcileTo(b, journal, aged, n);
      && (forall i :: 0 <= i < n ==> FollowsJournal(b.rows[i], r.rows[i], journal, b.rows[i].id in aged))
      && (forall i :: n <= i < |b.rows| ==> r.rows[i] == b.rows[i])
  {
    if n > 0 {
      ReconcileToFollows(b, journal, aged, n - 1);
      var r := ReconcileTo(b, journal, aged, n - 1);
      var seen := b.rows[n - 1];
      assert r.rows[n - 1] == seen;
      if InFlight(seen.status) {
        assert seen.recipient.Some?;
        OneRowFollows(r, n - 1, journal, seen.id in aged);
      }
    }
  }

  lemma OneRowFollows(b: Books, i: nat, journal: seq<Row>, aged: bool)
    requires i < |b.rows| && InFlight(b.rows[i].status) && b.rows[i].recipient.Some?
    ensures
      var seen := b.rows[i];
      var r := Reconciled(b, i, seen, Dictate(seen, journal, aged));
      FollowsJournal(seen, r.rows[i], journal, aged) && r.rows == b.rows[i := r.rows[i]]
  {
    var seen := b.rows[i];
    var j := Find(journal, ByPayout(seen.id));
    if j.Some? {
      assert journal[j.value].order.payout == seen.id;
    }
  }

  /** With nothing in flight and every orphan past its age, one reconcile gives every row the status the journal
      dictates, and a second one over the same journal changes no row and adds nothing to the ledger. */
  lemma ReconcileIsFixpoint(b: Books, journal: seq<Row>, aged: set<Uuid>)
    requires RecipientsFrozen(b.rows)
    requires forall i :: 0 <= i < |b.rows| && InFlight(b.rows[i].status) ==> b.rows[i].id in aged
    ensures
      var r := Reconcile(b, journal, aged);
      && (forall i :: 0 <= i < |b.rows| ==> FollowsJournal(b.rows[i], r.rows[i], journal, true))
      && Reconcile(r, journal, aged) == r
  {
    var r := Reconcile(b, journal, aged);
    ReconcileToFollows(b, journal, aged, |b.rows|);
    forall i | 0 <= i < |b.rows| ensures FollowsJournal(b.rows[i], r.rows[i], journal, true) {
      assert FollowsJournal(b.rows[i], r.rows[i], journal, b.rows[i].id in aged);
    }
    forall i | 0 <= i < |r.rows| && InFlight(r.rows[i].status)
      ensures r.rows[i].status == OutcomeUnknown && Dictate(r.rows[i], journal, true) in {ToUnknown, OtherPayout}
      ensures r.rows[i].recipient.Some?
    {
      assert FollowsJournal(b.rows[i], r.rows[i], journal, true);
      assert Dictate(r.rows[i], journal, true) == Dictate(b.rows[i], journal, true);
      assert InFlight(b.rows[i].status);
    }
    QuietReconcile(r, journal, aged, |r.rows|);
  }

  lemma {:induction false} QuietReconcile(b: Books, journal: seq<Row>, aged: set<Uuid>, n: nat)
    requires n <= |b.rows|
    requires forall i :: 0 <= i < |b.rows| && InFlight(b.rows[i].status) ==>
      b.rows[i].status == OutcomeUnknown && Dictate(b.rows[i], journal, true) in {ToUnknown, OtherPayout} && b.rows[i].recipient.Some?
    ensures ReconcileTo(b, journal, aged, n) == b
  {
    if n > 0 {
      QuietReconcile(b, journal, aged, n - 1);
      var seen := b.rows[n - 1];
      if InFlight(seen.status) {
        assert Dictate(seen, journal, seen.id in aged) in {ToUnknown, OtherPayout};
        assert b.rows[n - 1 := seen] == b.rows;
      }
    }
  }
}
