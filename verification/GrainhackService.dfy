/** The agent's service as the object it is: its tables updated in place, statement by statement and row by row. */
module GrainhackService {
  import opened Basics
  import opened GrainhackJournal
  import opened GrainhackStatement
  import opened GrainhackSigner
  import opened GrainhackAgent
  import opened GrainhackBooks
  import opened GrainhackChain
  import opened GrainhackIntake
  import Agreement = GrainhackAgreement

  datatype Counts = Counts(created: nat, updated: nat, kept: nat, removed: nat)

  function Owed(lines: seq<Line>): nat {
    if lines == [] then 0 else Owed(lines[..|lines| - 1]) + if lines[|lines| - 1].amount == 0 then 0 else 1
  }

  function RemovedBetween(before: seq<PayoutRow>, after: seq<PayoutRow>): nat
    requires |before| <= |after|
  {
    if before == [] then 0
    else
      var n := |before| - 1;
      RemovedBetween(before[..n], after) + if before[n].status != Removed && after[n].status == Removed then 1 else 0
  }

  /** What came back from the signer: its answer, or no connection. */
  datatype Reply = Answered(outcome: Outcome) | NoReply

  function StatusAfter(reply: Reply): RowStatus {
    match reply
    case NoReply => OutcomeUnknown
    case Answered(o) => if o.Paid? then RowStatus.Paid else if Agreement.ReadAsRefused(o) then AwaitingApproval else OutcomeUnknown
  }

  /** A winner of the event who waits for a wallet link and has one. */
  predicate WaitsInVain(row: PayoutRow, wallets: map<nat, Address>, hackathon: Option<Uuid>) {
    row.status == AwaitingWallet && row.winner.user in wallets && (hackathon.Some? ==> row.winner.pool.hackathon == hackathon.value)
  }

  function Changed(before: seq<PayoutRow>, after: seq<PayoutRow>): set<nat> {
    set i: nat | i < |before| && i < |after| && before[i] != after[i]
  }

  lemma NothingChanged(rows: seq<PayoutRow>)
    ensures Changed(rows, rows) == {}
  {
  }

  lemma OneChanged(before: seq<PayoutRow>, rows: seq<PayoutRow>, i: nat, row: PayoutRow)
    requires |before| == |rows| && i < |rows| && rows[i] == before[i] != row
    ensures |Changed(before, rows[i := row])| == |Changed(before, rows)| + 1
  {
    assert Changed(before, rows[i := row]) == Changed(before, rows) + {i};
  }

  lemma RefreshedRows(before: seq<PayoutRow>, rows: seq<PayoutRow>, wallets: map<nat, Address>, hackathon: Option<Uuid>)
    requires |rows| == |before| && forall k :: 0 <= k < |rows| ==> rows[k] == Refreshed(before[k], wallets, hackathon)
    ensures rows == RefreshRows(before, wallets, hackathon)
    ensures forall i :: i in Changed(before, rows) ==>
      && WaitsInVain(before[i], wallets, hackathon)
      && rows[i] == before[i].(status := AwaitingApproval, recipient := Some(wallets[before[i].winner.user]))
  {
  }

  lemma RefreshKeepsSound(t: Tables, wallets: map<nat, Address>, hackathon: Option<Uuid>)
    requires Sound(t)
    ensures Sound(t.(rows := RefreshRows(t.rows, wallets, hackathon)))
  {
  }

  class Service {
    var rows: seq<PayoutRow>
    var held: seq<Held>
    var nextId: nat
    var ledger: seq<Entry>
    var wallets: map<nat, Address>

    function TheTables(): Tables
      reads this
    {
      Tables(rows, held, nextId)
    }

    ghost predicate Valid()
      reads this
    {
      Sound(TheTables())
    }

    constructor ()
      ensures Valid() && rows == [] && held == [] && ledger == [] && wallets == map[]
    {
      rows, held, nextId, ledger, wallets := [], [], 0, [], map[];
      new;
      assert forall pool :: OfPool([], pool) == [];
    }

    /** One transaction: all of it, or a refusal and nothing. */
    method ImportStatement(s: Statement, verifies: bool, cfg: AgentConfig) returns (answer: Answer, counts: Counts)
      requires Valid()
      modifies this
      ensures Valid()
      ensures answer == AnswerTo(old(TheTables()), s, verifies, cfg)
      ensures TheTables() == AfterIntake(old(TheTables()), wallets, s, verifies, cfg)
      ensures ledger == old(ledger) && wallets == old(wallets)
      ensures answer.Imported? ==>
        && counts.created == |rows| - |old(rows)|
        && counts.created + counts.updated + counts.kept == Owed(s.lines)
        && counts.removed == RemovedBetween(old(rows), rows)
    {
      counts := Counts(0, 0, 0, 0);
      IntakeKeepsSound(TheTables(), wallets, s, verifies, cfg);
      if !verifies {
        return Unverified, counts;
      }
      var shape := CheckShape(s);
      if !shape.Fine? {
        return Unverified, counts;
      }
      var verdict := Judge(held, s, cfg.network, cfg.mints);
      match verdict {
        case Refuse(why) =>
          answer := Rejected(why);
        case AlreadyHeld =>
          var moved := RefreshWallets(Some(s.pool.hackathon));
          answer := AlreadyImported;
        case Accept =>
          counts := ImportRows(Import(s, cfg.mints[s.money.currency], wallets));
          held := AfterHold(held, s);
          nextId := nextId + |s.lines|;
          answer := Imported;
      }
    }

    /** The rows a statement makes of the rows of its pool, with what was done to them. */
    method ImportRows(m: Import) returns (counts: Counts)
      requires Valid() && WellFormed(m.s)
      modifies this`rows
      ensures rows == AfterImport(m, old(rows), FreshIds(nextId, |m.s.lines|))
      ensures counts.created == |rows| - |old(rows)|
      ensures counts.created + counts.updated + counts.kept == Owed(m.s.lines)
      ensures counts.removed == RemovedBetween(old(rows), rows)
    {
      var existing := rows;
      var listed, created, updated, kept := ImportEachLine(m);
      AfterTheLines(m, existing, nextId, rows);
      ListedAre(m.s, listed);
      hide ImportLines, AfterImport, Owed;
      var removed := DropUnlisted(m, existing, listed);
      assert rows == AfterImport(m, existing, FreshIds(nextId, |m.s.lines|)) by { AfterImportIs(m, existing, FreshIds(nextId, |m.s.lines|), rows); }
      counts := Counts(created, updated, kept, removed);
    }

    method ImportEachLine(m: Import) returns (listed: set<nat>, created: nat, updated: nat, kept: nat)
      modifies this`rows
      ensures rows == ImportLines(m, old(rows), m.s.lines, FreshIds(nextId, |m.s.lines|))
      ensures listed == set k | 0 <= k < |m.s.lines| && m.s.lines[k].amount != 0 :: m.s.lines[k].user
      ensures created == |rows| - |old(rows)| && created + updated + kept == Owed(m.s.lines)
    {
      var lines := m.s.lines;
      var existing := rows;
      ghost var ids := FreshIds(nextId, |lines|);
      listed, created, updated, kept := {}, 0, 0, 0;
      for i := 0 to |lines|
        invariant rows == ImportLines(m, existing, lines[..i], ids)
        invariant listed == set k | 0 <= k < i && lines[k].amount != 0 :: lines[k].user
        invariant created == |rows| - |existing| && created + updated + kept == Owed(lines[..i])
      {
        var line := lines[i];
        assert lines[..i + 1][..i] == lines[..i];
        if line.amount != 0 {
          listed := listed + {line.user};
          var row := FindWinner(existing, Winner(m.s.pool, line.user));
          if row.None? {
            rows := rows + [Created(m, line, Uuid(nextId + i))];
            created := created + 1;
          } else if Unpaid(existing[row.value].status) {
            rows := rows[row.value := Revised(m, line, existing[row.value])];
            updated := updated + 1;
          } else {
            kept := kept + 1;
          }
        }
      }
      assert lines[..|lines|] == lines;
    }

    /** The loop over the rows found at the start. */
    method DropUnlisted(m: Import, existing: seq<PayoutRow>, listed: set<nat>) returns (removed: nat)
      requires |existing| <= |rows| && forall i :: 0 <= i < |existing| ==> LinedFrom(m.s, existing[i], rows[i])
      requires forall u :: u in listed <==> Listed(m.s, u)
      modifies this`rows
      ensures |rows| == |old(rows)| && forall j :: 0 <= j < |rows| ==> rows[j] == if j < |existing| then Dropped(m, old(rows)[j]) else old(rows)[j]
      ensures removed == RemovedBetween(existing, rows)
    {
      ghost var lined := rows;
      removed := 0;
      for i := 0 to |existing|
        invariant |rows| == |lined| && (forall j :: 0 <= j < i ==> rows[j] == Dropped(m, lined[j])) && (forall j :: i <= j < |lined| ==> rows[j] == lined[j])
        invariant removed == RemovedBetween(existing[..i], rows)
      {
        var row := existing[i];
        assert LinedFrom(m.s, row, lined[i]);
        assert existing[..i + 1][..i] == existing[..i];
        ghost var before := rows;
        if row.winner.pool == m.s.pool && row.winner.user !in listed && Unpaid(row.status) && row.status != Removed {
          rows := rows[i := row.(status := Removed, statement := m.s.id, recipient := None)];
          removed := removed + 1;
        }
        SameCount(existing[..i], before, rows);
      }
      assert existing[..|existing|] == existing;
    }

    /** The guarded update, row by row: afterwards nobody in the event waits for a wallet they have linked, each row that
        changed did for that reason and holds that wallet, and the answer is how many did. */
    method RefreshWallets(hackathon: Option<Uuid>) returns (moved: nat)
      requires Valid()
      modifies this`rows
      ensures Valid() && rows == RefreshRows(old(rows), wallets, hackathon)
      ensures forall i :: 0 <= i < |rows| ==> !WaitsInVain(rows[i], wallets, hackathon)
      ensures forall i :: i in Changed(old(rows), rows) ==>
        && WaitsInVain(old(rows)[i], wallets, hackathon)
        && rows[i] == old(rows)[i].(status := AwaitingApproval, recipient := Some(wallets[old(rows)[i].winner.user]))
      ensures moved == |Changed(old(rows), rows)|
    {
      ghost var before, tables := rows, TheTables();
      RefreshKeepsSound(tables, wallets, hackathon);
      hide Sound, Changed, RefreshRows;
      moved := 0;
      var i := 0;
      assert Changed(before, before) == {} by { NothingChanged(before); }
      while i < |rows|
        invariant i <= |rows| == |before|
        invariant forall k :: 0 <= k < i ==> rows[k] == Refreshed(before[k], wallets, hackathon)
        invariant forall k :: i <= k < |rows| ==> rows[k] == before[k]
        invariant moved == |Changed(before, rows)|
      {
        if WaitsInVain(rows[i], wallets, hackathon) {
          var next := rows[i].(status := AwaitingApproval, recipient := Some(wallets[rows[i].winner.user]));
          OneChanged(before, rows, i, next);
          rows := rows[i := next];
          moved := moved + 1;
        }
        i := i + 1;
      }
      RefreshedRows(before, rows, wallets, hackathon);
    }

    /** A person re-reads the live link of a row not yet approved. */
    method Refreeze(i: nat, actor: Actor, reason: Actor) returns (ok: bool)
      requires Valid() && i < |rows|
      modifies this`rows
      ensures Valid() && ok == (!actor.Blank? && !reason.Blank? && CanRefreeze(old(rows)[i].status))
      ensures rows == if ok then old(rows)[i := Refrozen(old(rows)[i], wallets)] else old(rows)
    {
      ok := !actor.Blank? && !reason.Blank? && CanRefreeze(rows[i].status);
      if ok {
        rows := rows[i := Refrozen(rows[i], wallets)];
      }
    }

    /** The agent's own checks of an approval, in their order. */
    predicate Forwards(i: nat, approval: Approval, cfg: AgentConfig, now: int)
      reads this
    {
      && i < |rows| && rows[i].status == AwaitingApproval && FindHeld(held, rows[i].statement).Some?
      && var st := held[FindHeld(held, rows[i].statement).value].statement;
      && Agreement.TermsFor(rows[i], st) == Some(approval.terms)
      && st.money.network == cfg.network
      && ApprovalHolds(approval, cfg.approvers, now)
      && Wallet(wallets, rows[i].winner.user) == rows[i].recipient
    }

    /** Claim, forward, record, with nothing else running in between. */
    method Approve(i: nat, approval: Approval, cfg: AgentConfig, now: int, reply: Reply) returns (forwarded: bool)
      requires Valid()
      modifies this`rows, this`ledger
      ensures Valid() && forwarded == old(Forwards(i, approval, cfg, now))
      ensures !forwarded ==> rows == old(rows) && ledger == old(ledger)
      ensures forwarded ==>
        && rows == old(rows)[i := old(rows)[i].(status := StatusAfter(reply), tx := if StatusAfter(reply) == RowStatus.Paid then Some(reply.outcome.tx) else old(rows)[i].tx)]
        && ledger == if StatusAfter(reply) == RowStatus.Paid then LedgerWith(old(ledger), EntryFor(old(rows)[i], reply.outcome.tx)) else old(ledger)
    {
      forwarded := Forwards(i, approval, cfg, now);
      if !forwarded {
        return;
      }
      var row := rows[i];
      rows := rows[i := row.(status := Submitted)];
      if reply.Answered? && reply.outcome.Paid? {
        RecordPaid(i, row, reply.outcome.tx);
      } else {
        var refused := reply.Answered? && Agreement.ReadAsRefused(reply.outcome);
        rows := rows[i := rows[i].(status := if refused then AwaitingApproval else OutcomeUnknown)];
      }
    }

    method RecordPaid(i: nat, seen: PayoutRow, tx: Transfer)
      requires Valid() && i < |rows|
      modifies this`rows, this`ledger
      ensures Valid() && Books(rows, ledger) == MarkPaid(old(Books(rows, ledger)), i, seen, tx)
    {
      if InFlight(rows[i].status) {
        rows := rows[i := rows[i].(status := RowStatus.Paid, tx := Some(tx))];
        ledger := LedgerWith(ledger, EntryFor(seen, tx));
      }
    }

    /** The rows in flight, one after the other, from one copy of the rows and one of the journal. */
    method ReconcileRows(journal: seq<Row>, aged: set<Uuid>)
      requires Valid()
      modifies this`rows, this`ledger
      ensures Valid() && Books(rows, ledger) == Reconcile(old(Books(rows, ledger)), journal, aged)
    {
      var seen := rows;
      ghost var before := Books(rows, ledger);
      for i := 0 to |seen|
        invariant Books(rows, ledger) == ReconcileTo(before, journal, aged, i) && Valid()
      {
        if InFlight(seen[i].status) {
          ReconcileToFollows(before, journal, aged, i);
          ReconcileRow(i, seen[i], Dictate(seen[i], journal, seen[i].id in aged));
        }
      }
    }

    method ReconcileRow(i: nat, seen: PayoutRow, d: Dictated)
      requires Valid() && i < |rows|
      modifies this`rows, this`ledger
      ensures Valid() && Books(rows, ledger) == Reconciled(old(Books(rows, ledger)), i, seen, d)
    {
      match d {
        case ToPaid(tx) => RecordPaid(i, seen, tx);
        case ToFailed =>
          if InFlight(rows[i].status) { rows := rows[i := rows[i].(status := RowStatus.Failed)]; }
        case ToUnknown =>
          if seen.status != OutcomeUnknown && rows[i].recipient.Some? { rows := rows[i := rows[i].(status := OutcomeUnknown)]; }
        case OtherPayout =>
          if rows[i].recipient.Some? { rows := rows[i := rows[i].(status := OutcomeUnknown)]; }
        case Release =>
          if InFlight(rows[i].status) { rows := rows[i := rows[i].(status := AwaitingApproval)]; }
        case Wait =>
      }
    }

    /** The poll: walks the chain back in an array grown at its front, then imports it oldest first. */
    method Discover(src: Source, cfg: AgentConfig) returns (imported: seq<Uuid>, failed: bool)
      requires Valid()
      modifies this
      ensures Valid() && TheTables() == Discovered(old(TheTables()), wallets, cfg, src)
      ensures ledger == old(ledger) && wallets == old(wallets)
      ensures forall k :: 0 <= k < |imported| ==> FindHeld(held, imported[k]).Some?
    {
      imported, failed := [], false;
      if src.latest.None? {
        return;
      }
      ghost var start := [src.latest.value];
      var chain := [src.latest.value];
      var depth := 0;
      while depth < MAX_WALK
        invariant depth <= MAX_WALK && chain != []
        invariant Walk(src, held, chain, MAX_WALK - depth) == Walk(src, held, start, MAX_WALK)
        decreases MAX_WALK - depth
      {
        if FindHeld(held, chain[0].id).Some? {
          chain := chain[1..];
          break;
        }
        if chain[0].supersedes.None? {
          break;
        }
        if chain[0].supersedes.value !in src.byId {
          failed := true;
          return;
        }
        chain := [src.byId[chain[0].supersedes.value]] + chain;
        depth := depth + 1;
      }
      assert Walk(src, held, start, MAX_WALK) == Some(chain);
      imported, failed := ImportChain(chain, cfg);
    }

    method ImportChain(chain: seq<Statement>, cfg: AgentConfig) returns (imported: seq<Uuid>, failed: bool)
      requires Valid()
      modifies this
      ensures Valid() && TheTables() == ImportAll(old(TheTables()), wallets, cfg, chain)
      ensures ledger == old(ledger) && wallets == old(wallets)
      ensures forall k :: 0 <= k < |imported| ==> FindHeld(held, imported[k]).Some?
    {
      hide Sound, Judge, FindHeld;
      imported, failed := [], false;
      ghost var before := TheTables();
      for i := 0 to |chain|
        invariant Valid() && !failed && ledger == old(ledger) && wallets == old(wallets)
        invariant ImportAll(TheTables(), wallets, cfg, chain[i..]) == ImportAll(before, wallets, cfg, chain)
        invariant forall k :: 0 <= k < |imported| ==> FindHeld(held, imported[k]).Some?
      {
        ghost var t := TheTables();
        assert chain[i..][1..] == chain[i + 1..];
        var answer, counts := ImportStatement(chain[i], true, cfg);
        if answer.Unverified? || answer.Rejected? {
          failed := true;
          return;
        }
        forall k | 0 <= k < |imported| ensures FindHeld(held, imported[k]).Some? { StillHeld(t, wallets, chain[i], cfg, imported[k]); }
        if answer.Imported? {
          StillHeld(t, wallets, chain[i], cfg, chain[i].id);
          imported := imported + [chain[i].id];
        }
      }
    }
  }

  lemma StillHeld(t: Tables, wallets: map<nat, Address>, s: Statement, cfg: AgentConfig, id: Uuid)
    requires FindHeld(t.held, id).Some? || (AnswerTo(t, s, true, cfg).Imported? && id == s.id)
    ensures FindHeld(AfterIntake(t, wallets, s, true, cfg).held, id).Some?
  {
    if AnswerTo(t, s, true, cfg).Imported? { FoundAfterHold(t.held, s, id); }
  }

  /** A row the statement does not list is after the lines as it was before them; the others stay removed or not. */
  predicate LinedFrom(s: Statement, earlier: PayoutRow, later: PayoutRow) {
    && later.winner == earlier.winner && (later.status == Removed ==> earlier.status == Removed) && (Unpaid(later.status) <==> Unpaid(earlier.status))
    && (!Listed(s, earlier.winner.user) ==> later == earlier)
  }

  lemma AfterTheLines(m: Import, existing: seq<PayoutRow>, next: nat, lined: seq<PayoutRow>)
    requires WellFormed(m.s) && RowsDistinct(existing) && forall i :: 0 <= i < |existing| ==> existing[i].id.n < next
    requires lined == ImportLines(m, existing, m.s.lines, FreshIds(next, |m.s.lines|))
    ensures |existing| <= |lined| && forall i :: 0 <= i < |existing| ==> LinedFrom(m.s, existing[i], lined[i])
  {
    ImportLinesDone(m, existing, m.s.lines, FreshIds(next, |m.s.lines|));
  }

  lemma ListedAre(s: Statement, listed: set<nat>)
    requires WellFormed(s) && listed == set k | 0 <= k < |s.lines| && s.lines[k].amount != 0 :: s.lines[k].user
    ensures forall u :: u in listed <==> Listed(s, u)
  {
    forall u ensures u in listed <==> Listed(s, u) {
      forall k | 0 <= k < |s.lines| && s.lines[k].user == u ensures LineFor(s.lines, u) == Some(s.lines[k]) { LineForIsTheLine(s.lines, k); }
    }
  }

  lemma AfterImportIs(m: Import, before: seq<PayoutRow>, ids: seq<Uuid>, after: seq<PayoutRow>)
    requires |m.s.lines| <= |ids| && |after| == |ImportLines(m, before, m.s.lines, ids)|
    requires forall j :: 0 <= j < |after| ==> after[j] == if j < |before| then Dropped(m, ImportLines(m, before, m.s.lines, ids)[j]) else ImportLines(m, before, m.s.lines, ids)[j]
    ensures after == AfterImport(m, before, ids)
  {
  }

  lemma {:induction false} SameCount(before: seq<PayoutRow>, a: seq<PayoutRow>, b: seq<PayoutRow>)
    requires |before| <= |a| && |before| <= |b| && forall i :: 0 <= i < |before| ==> a[i] == b[i]
    ensures RemovedBetween(before, a) == RemovedBetween(before, b)
  {
    if before != [] { SameCount(before[..|before| - 1], a, b); }
  }
}
