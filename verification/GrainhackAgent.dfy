/**
 * The agent's own records of GrainHack payouts: the statements it holds, one row per winner, the wallet each
 * row is frozen with, and the public ledger. It decides nothing about money; it must not lose track of it.
 */
module GrainhackAgent {
  import opened Basics
  import opened GrainhackJournal
  import opened GrainhackStatement

  datatype RowStatus = HeldBack | AwaitingWallet | AwaitingApproval | Submitted | Paid | OutcomeUnknown | Failed | Removed

  datatype PayoutRow = PayoutRow(
    id: Uuid, winner: Winner, login: Login, statement: Uuid, amount: nat, money: Money, mint: Address,
    recipient: Option<Address>, status: RowStatus, tx: Option<Transfer>)

  datatype Held = Held(statement: Statement, supersededBy: Option<Uuid>)

  datatype Entry = Entry(payout: Uuid, winner: Winner, amount: nat, money: Money, tx: Transfer)

  /** Nothing has been sent for a row in one of these. */
  predicate Unpaid(s: RowStatus) {
    s in {HeldBack, AwaitingWallet, AwaitingApproval, Removed}
  }

  /** The statuses a row has a frozen recipient in. */
  predicate HasRecipient(s: RowStatus) {
    s in {AwaitingApproval, Submitted, Paid, OutcomeUnknown, Failed}
  }

  ghost predicate RowsDistinct(rows: seq<PayoutRow>) {
    forall i, j :: 0 <= i < j < |rows| ==> rows[i].winner != rows[j].winner && rows[i].id != rows[j].id
  }

  ghost predicate RecipientsFrozen(rows: seq<PayoutRow>) {
    forall i :: 0 <= i < |rows| ==> (rows[i].recipient.Some? <==> HasRecipient(rows[i].status))
  }

  function FindWinner(rows: seq<PayoutRow>, w: Winner): (i: Option<nat>)
    ensures i.Some? ==> i.value < |rows| && rows[i.value].winner == w
    ensures i.None? ==> forall j :: 0 <= j < |rows| ==> rows[j].winner != w
  {
    if rows == [] then None
    else
      var n := |rows| - 1;
      if rows[n].winner == w then Some(n) else FindWinner(rows[..n], w)
  }

  lemma FindWinnerAt(rows: seq<PayoutRow>, i: nat)
    requires RowsDistinct(rows) && i < |rows|
    ensures FindWinner(rows, rows[i].winner) == Some(i)
  {
    var j := FindWinner(rows, rows[i].winner).value;
    assert i == j;
  }

  // ----- importing a statement -----

  function Wallet(wallets: map<nat, Address>, user: nat): Option<Address> {
    if user in wallets then Some(wallets[user]) else None
  }

  function StatusFor(line: Line, wallets: map<nat, Address>): RowStatus {
    if line.status == HeldKyc then HeldBack
    else if line.user in wallets then AwaitingApproval
    else AwaitingWallet
  }

  /** A row that awaits approval has its address already and keeps it; only a new one takes the linked wallet. */
  function RecipientFor(line: Line, row: Option<PayoutRow>, wallets: map<nat, Address>): Option<Address> {
    if StatusFor(line, wallets) != AwaitingApproval then None
    else if row.Some? && row.value.status == AwaitingApproval && row.value.recipient.Some? then row.value.recipient
    else Wallet(wallets, line.user)
  }

  datatype Import = Import(s: Statement, mint: Address, wallets: map<nat, Address>)

  function Created(m: Import, line: Line, id: Uuid): PayoutRow {
    PayoutRow(id, Winner(m.s.pool, line.user), line.login, m.s.id, line.amount, m.s.money, m.mint,
              RecipientFor(line, None, m.wallets), StatusFor(line, m.wallets), None)
  }

  function Revised(m: Import, line: Line, row: PayoutRow): PayoutRow {
    row.(statement := m.s.id, login := line.login, amount := line.amount, mint := m.mint,
         recipient := RecipientFor(line, Some(row), m.wallets), status := StatusFor(line, m.wallets))
  }

  function ImportLine(m: Import, before: seq<PayoutRow>, rows: seq<PayoutRow>, line: Line, id: Uuid): seq<PayoutRow>
    requires |before| <= |rows|
  {
    if line.amount == 0 then rows
    else
      match FindWinner(before, Winner(m.s.pool, line.user))
      case None => rows + [Created(m, line, id)]
      case Some(i) => if Unpaid(before[i].status) then rows[i := Revised(m, line, before[i])] else rows
  }

  function ImportLines(m: Import, before: seq<PayoutRow>, lines: seq<Line>, ids: seq<Uuid>): (rows: seq<PayoutRow>)
    requires |lines| <= |ids|
    ensures |before| <= |rows|
  {
    if lines == [] then before
    else
      var n := |lines| - 1;
      ImportLine(m, before, ImportLines(m, before, lines[..n], ids), lines[n], ids[n])
  }

  /** Listed with something to pay. */
  predicate Listed(s: Statement, user: nat) {
    LineFor(s.lines, user).Some? && 0 < LineFor(s.lines, user).value.amount
  }

  function Dropped(m: Import, row: PayoutRow): PayoutRow {
    if row.winner.pool == m.s.pool && !Listed(m.s, row.winner.user) && Unpaid(row.status) && row.status != Removed
      then row.(status := Removed, statement := m.s.id, recipient := None)
      else row
  }

  function AfterImport(m: Import, before: seq<PayoutRow>, ids: seq<Uuid>): seq<PayoutRow>
    requires |m.s.lines| <= |ids|
  {
    var lined := ImportLines(m, before, m.s.lines, ids);
    seq(|lined|, i requires 0 <= i < |lined| => if i < |before| then Dropped(m, lined[i]) else lined[i])
  }

  /** What import leaves of one row it found. */
  ghost predicate ImportedFrom(m: Import, earlier: PayoutRow, later: PayoutRow) {
    if earlier.winner.pool != m.s.pool || !Unpaid(earlier.status) then later == earlier
    else if Listed(m.s, earlier.winner.user) then
      later == Revised(m, LineFor(m.s.lines, earlier.winner.user).value, earlier)
    else
      && later.status == Removed && later.recipient == (if earlier.status == Removed then earlier.recipient else None)
      && later.id == earlier.id && later.winner == earlier.winner && later.amount == earlier.amount && later.tx == earlier.tx && later.money == earlier.money
  }

  ghost predicate Fresh(rows: seq<PayoutRow>, ids: seq<Uuid>) {
    && (forall k, j :: 0 <= k < |ids| && 0 <= j < |rows| ==> rows[j].id != ids[k])
    && (forall k, j :: 0 <= k < j < |ids| ==> ids[k] != ids[j])
  }

  /** The rows found at the start, after the loop over these lines: revised at most by their own line. */
  ghost predicate FoundDone(m: Import, before: seq<PayoutRow>, lines: seq<Line>, rows: seq<PayoutRow>) {
    && |before| <= |rows|
    && forall i :: 0 <= i < |before| ==> rows[i] == AfterLines(m, lines, before[i])
  }

  function AfterLines(m: Import, lines: seq<Line>, row: PayoutRow): PayoutRow {
    var line := LineFor(lines, row.winner.user);
    if row.winner.pool == m.s.pool && Unpaid(row.status) && line.Some? && 0 < line.value.amount then Revised(m, line.value, row) else row
  }

  /** The rows added: one for a line of a winner who had none. */
  ghost predicate NewFrom(m: Import, before: seq<PayoutRow>, lines: seq<Line>, ids: seq<Uuid>, row: PayoutRow)
    requires |lines| <= |ids|
  {
    exists k :: 0 <= k < |lines| && NewFromLine(m, before, lines[k], ids[k], row)
  }

  predicate NewFromLine(m: Import, before: seq<PayoutRow>, line: Line, id: Uuid, row: PayoutRow) {
    0 < line.amount && row == Created(m, line, id) && FindWinner(before, row.winner).None?
  }

  ghost predicate NewDone(m: Import, before: seq<PayoutRow>, lines: seq<Line>, ids: seq<Uuid>, rows: seq<PayoutRow>)
    requires |lines| <= |ids|
  {
    && |before| <= |rows|
    && (forall i :: |before| <= i < |rows| ==> NewFrom(m, before, lines, ids, rows[i]))
    && (forall i, j :: |before| <= i < j < |rows| ==> rows[i].winner != rows[j].winner && rows[i].id != rows[j].id)
  }

  ghost predicate HasRow(rows: seq<PayoutRow>, w: Winner) {
    exists i :: 0 <= i < |rows| && rows[i].winner == w
  }

  ghost predicate Covered(m: Import, lines: seq<Line>, rows: seq<PayoutRow>) {
    forall k :: 0 <= k < |lines| && 0 < lines[k].amount ==> HasRow(rows, Winner(m.s.pool, lines[k].user))
  }

  lemma {:induction false} LineForAppend(lines: seq<Line>, user: nat)
    requires lines != [] && Ascending(lines)
    ensures LineFor(lines, user) ==
      if lines[|lines| - 1].user == user then Some(lines[|lines| - 1]) else LineFor(lines[..|lines| - 1], user)
  {
    var n := |lines| - 1;
    var init := lines[..n];
    if lines[n].user == user {
      LineForIsTheLine(lines, n);
    } else if LineFor(lines, user).Some? {
      var i :| 0 <= i < |lines| && lines[i].user == user;
      LineForIsTheLine(lines, i);
      LineForIsTheLine(init, i);
    } else {
      assert forall i :: 0 <= i < |init| ==> init[i] == lines[i];
    }
  }

  lemma OneMoreLineFound(m: Import, before: seq<PayoutRow>, lines: seq<Line>, rows: seq<PayoutRow>, id: Uuid)
    requires lines != [] && Ascending(lines) && RowsDistinct(before) && FoundDone(m, before, lines[..|lines| - 1], rows)
    ensures FoundDone(m, before, lines, ImportLine(m, before, rows, lines[|lines| - 1], id))
  {
    var n := |lines| - 1;
    var line := lines[n];
    var after := ImportLine(m, before, rows, line, id);
    forall i | 0 <= i < |before| ensures after[i] == AfterLines(m, lines, before[i]) {
      LineForAppend(lines, before[i].winner.user);
      LineForNone(lines[..n], line.user);
      if before[i].winner == Winner(m.s.pool, line.user) { FindWinnerAt(before, i); }
    }
  }

  lemma LineForNone(init: seq<Line>, user: nat)
    requires forall i :: 0 <= i < |init| ==> init[i].user != user
    ensures LineFor(init, user).None?
  {
  }

  lemma OneMoreLineNew(m: Import, before: seq<PayoutRow>, lines: seq<Line>, ids: seq<Uuid>, rows: seq<PayoutRow>)
    requires lines != [] && |lines| <= |ids| && Ascending(lines) && Fresh(before, ids)
    requires NewDone(m, before, lines[..|lines| - 1], ids, rows)
    ensures NewDone(m, before, lines, ids, ImportLine(m, before, rows, lines[|lines| - 1], ids[|lines| - 1]))
  {
    var n := |lines| - 1;
    var init := lines[..n];
    var after := ImportLine(m, before, rows, lines[n], ids[n]);
    forall i | |before| <= i < |rows|
      ensures NewFrom(m, before, lines, ids, rows[i])
      ensures after[i] == rows[i] && rows[i].winner != Winner(m.s.pool, lines[n].user) && rows[i].id != ids[n]
    {
      var k :| 0 <= k < |init| && NewFromLine(m, before, init[k], ids[k], rows[i]);
      assert lines[k] == init[k] && lines[k].user < lines[n].user;
      assert NewFromLine(m, before, lines[k], ids[k], rows[i]);
    }
    if |rows| < |after| {
      assert NewFromLine(m, before, lines[n], ids[n], after[|rows|]);
    }
  }

  lemma OneMoreLineCovered(m: Import, before: seq<PayoutRow>, lines: seq<Line>, rows: seq<PayoutRow>, id: Uuid)
    requires lines != [] && FoundDone(m, before, lines[..|lines| - 1], rows) && Covered(m, lines[..|lines| - 1], rows)
    ensures Covered(m, lines, ImportLine(m, before, rows, lines[|lines| - 1], id))
  {
    var n := |lines| - 1;
    var w := Winner(m.s.pool, lines[n].user);
    var after := ImportLine(m, before, rows, lines[n], id);
    forall k | 0 <= k < |lines| && 0 < lines[k].amount ensures HasRow(after, Winner(m.s.pool, lines[k].user)) {
      if k < n {
        assert lines[..n][k] == lines[k];
        var i :| 0 <= i < |rows| && rows[i].winner == Winner(m.s.pool, lines[k].user);
        assert after[i].winner == rows[i].winner;
      } else {
        var at := if FindWinner(before, w).None? then |rows| else FindWinner(before, w).value;
        assert after[at].winner == w;
      }
    }
  }

  lemma {:induction false} ImportLinesDone(m: Import, before: seq<PayoutRow>, lines: seq<Line>, ids: seq<Uuid>)
    requires |lines| <= |ids| && Ascending(lines) && RowsDistinct(before) && Fresh(before, ids)
    ensures
      var rows := ImportLines(m, before, lines, ids);
      FoundDone(m, before, lines, rows) && NewDone(m, before, lines, ids, rows) && Covered(m, lines, rows)
  {
    if lines != [] {
      var n := |lines| - 1;
      var rows := ImportLines(m, before, lines[..n], ids);
      ImportLinesDone(m, before, lines[..n], ids);
      OneMoreLineFound(m, before, lines, rows, ids[n]);
      OneMoreLineNew(m, before, lines, ids, rows);
      OneMoreLineCovered(m, before, lines, rows, ids[n]);
    }
  }

  /** The whole import, row by row. */
  ghost predicate Imported(m: Import, before: seq<PayoutRow>, ids: seq<Uuid>, after: seq<PayoutRow>)
    requires |m.s.lines| <= |ids|
  {
    && |before| <= |after|
    && (forall i :: 0 <= i < |before| ==> ImportedFrom(m, before[i], after[i]))
    && (forall i :: |before| <= i < |after| ==> NewFrom(m, before, m.s.lines, ids, after[i]))
    && (forall u :: Listed(m.s, u) ==> HasRow(after, Winner(m.s.pool, u)))
  }

  /** Importing any statement leaves every sent row untouched, makes every other row of the pool match its line or
      be removed, adds a row for every listed winner that had none, and touches no other pool. */
  lemma ImportAt(m: Import, before: seq<PayoutRow>, ids: seq<Uuid>)
    requires |m.s.lines| <= |ids| && WellFormed(m.s) && RowsDistinct(before) && Fresh(before, ids)
    ensures Imported(m, before, ids, AfterImport(m, before, ids))
  {
    var after := AfterImport(m, before, ids);
    var lined := ImportLines(m, before, m.s.lines, ids);
    ImportLinesDone(m, before, m.s.lines, ids);
    forall i | 0 <= i < |before| ensures ImportedFrom(m, before[i], after[i]) {
      assert after[i] == Dropped(m, AfterLines(m, m.s.lines, before[i]));
    }
    forall u | Listed(m.s, u) ensures HasRow(after, Winner(m.s.pool, u)) {
      var k :| 0 <= k < |m.s.lines| && m.s.lines[k] == LineFor(m.s.lines, u).value;
      assert HasRow(lined, Winner(m.s.pool, m.s.lines[k].user));
      var i :| 0 <= i < |lined| && lined[i].winner == Winner(m.s.pool, u);
      assert after[i].winner == lined[i].winner;
    }
  }

  lemma ImportKeepsDistinct(m: Import, before: seq<PayoutRow>, ids: seq<Uuid>)
    requires |m.s.lines| <= |ids| && WellFormed(m.s) && RowsDistinct(before) && Fresh(before, ids)
    ensures RowsDistinct(AfterImport(m, before, ids))
  {
    var after := AfterImport(m, before, ids);
    var lined := ImportLines(m, before, m.s.lines, ids);
    ImportLinesDone(m, before, m.s.lines, ids);
    forall i | 0 <= i < |after| ensures after[i].winner == lined[i].winner && after[i].id == lined[i].id {}
    forall i, j | 0 <= i < |before| <= j < |after| ensures after[i].winner != after[j].winner && after[i].id != after[j].id {
      var k :| 0 <= k < |m.s.lines| && NewFromLine(m, before, m.s.lines[k], ids[k], lined[j]);
      assert lined[i].winner == before[i].winner && lined[i].id == before[i].id;
    }
    forall i, j | 0 <= i < j < |before| ensures after[i].winner != after[j].winner && after[i].id != after[j].id {
      assert lined[i].winner == before[i].winner && lined[j].id == before[j].id;
    }
  }

  lemma ImportKeepsRecipients(m: Import, before: seq<PayoutRow>, ids: seq<Uuid>)
    requires |m.s.lines| <= |ids| && WellFormed(m.s) && RowsDistinct(before) && Fresh(before, ids) && RecipientsFrozen(before)
    ensures RecipientsFrozen(AfterImport(m, before, ids))
  {
    var after := AfterImport(m, before, ids);
    ImportAt(m, before, ids);
    forall i | 0 <= i < |after| ensures after[i].recipient.Some? <==> HasRecipient(after[i].status) {
      if i < |before| {
        assert ImportedFrom(m, before[i], after[i]);
      } else {
        assert NewFrom(m, before, m.s.lines, ids, after[i]);
      }
    }
  }
}
