/** What an import does to the money the agent's rows add up to, and the import as the service runs it. */
module GrainhackImport {
  import opened Basics
  import opened GrainhackJournal
  import opened GrainhackStatement
  import opened GrainhackAgent

  /** Everything the agent thinks an event pool owes or has paid. */
  function PoolTotal(rows: seq<PayoutRow>, pool: EventPool): nat {
    if rows == [] then 0
    else
      var last := rows[|rows| - 1];
      PoolTotal(rows[..|rows| - 1], pool) + if last.winner.pool == pool && last.status != Removed then last.amount else 0
  }

  function LineAmount(lines: seq<Line>, user: nat): nat {
    var line := LineFor(lines, user);
    if line.Some? then line.value.amount else 0
  }

  /** How far the sent rows, which an import leaves alone, are from what the statement says of their winners. */
  function KeptExcess(rows: seq<PayoutRow>, s: Statement): int {
    if rows == [] then 0
    else
      var last := rows[|rows| - 1];
      KeptExcess(rows[..|rows| - 1], s)
      + if last.winner.pool == s.pool && !Unpaid(last.status) then last.amount - LineAmount(s.lines, last.winner.user) else 0
  }

  /** The statement's amounts, read off row by row. */
  function ByRows(rows: seq<PayoutRow>, pool: EventPool, lines: seq<Line>): nat {
    if rows == [] then 0
    else
      var last := rows[|rows| - 1];
      ByRows(rows[..|rows| - 1], pool, lines) + if last.winner.pool == pool then LineAmount(lines, last.winner.user) else 0
  }

  lemma {:induction false} ByRowsOfNothing(rows: seq<PayoutRow>, pool: EventPool)
    ensures ByRows(rows, pool, []) == 0
  {
    if rows != [] { ByRowsOfNothing(rows[..|rows| - 1], pool); }
  }

  /** One more line is read off exactly one row: the one of its winner. */
  lemma {:induction false} OneMoreLineByRows(rows: seq<PayoutRow>, pool: EventPool, lines: seq<Line>)
    requires RowsDistinct(rows) && lines != [] && Ascending(lines)
    ensures
      var last := lines[|lines| - 1];
      ByRows(rows, pool, lines) == ByRows(rows, pool, lines[..|lines| - 1]) + if HasRow(rows, Winner(pool, last.user)) then last.amount else 0
  {
    if rows != [] {
      var n := |rows| - 1;
      var last := lines[|lines| - 1];
      var w := Winner(pool, last.user);
      OneMoreLineByRows(rows[..n], pool, lines);
      LineForAppend(lines, rows[n].winner.user);
      if rows[n].winner == w {
        assert forall i :: 0 <= i < n ==> rows[..n][i].winner != w;
        LineForNone(lines[..|lines| - 1], last.user);
      } else if HasRow(rows, w) {
        var i :| 0 <= i < |rows| && rows[i].winner == w;
        assert rows[..n][i].winner == w;
      }
    }
  }

  lemma {:induction false} ByRowsIsTheSum(m: Import, rows: seq<PayoutRow>, lines: seq<Line>)
    requires RowsDistinct(rows) && Ascending(lines) && Covered(m, lines, rows)
    ensures ByRows(rows, m.s.pool, lines) == LineSum(lines)
  {
    if lines == [] {
      ByRowsOfNothing(rows, m.s.pool);
    } else {
      var n := |lines| - 1;
      assert forall k :: 0 <= k < n ==> lines[..n][k] == lines[k];
      ByRowsIsTheSum(m, rows, lines[..n]);
      OneMoreLineByRows(rows, m.s.pool, lines);
    }
  }

  /** Rows found at the start add up to their lines plus the excess of the kept ones. */
  lemma {:induction false} FoundRowsTotal(m: Import, before: seq<PayoutRow>, after: seq<PayoutRow>)
    requires |before| == |after| && forall i :: 0 <= i < |before| ==> ImportedFrom(m, before[i], after[i])
    ensures PoolTotal(after, m.s.pool) == ByRows(after, m.s.pool, m.s.lines) + KeptExcess(before, m.s)
  {
    if before != [] {
      var n := |before| - 1;
      FoundRowsTotal(m, before[..n], after[..n]);
      assert ImportedFrom(m, before[n], after[n]);
    }
  }

  predicate PaysItsLine(row: PayoutRow, s: Statement) {
    row.winner.pool == s.pool && row.status != Removed && row.amount == LineAmount(s.lines, row.winner.user)
  }

  lemma NewRowPaysItsLine(m: Import, before: seq<PayoutRow>, ids: seq<Uuid>, row: PayoutRow)
    requires |m.s.lines| <= |ids| && Ascending(m.s.lines) && NewFrom(m, before, m.s.lines, ids, row)
    ensures PaysItsLine(row, m.s)
  {
    var k :| 0 <= k < |m.s.lines| && NewFromLine(m, before, m.s.lines[k], ids[k], row);
    LineForIsTheLine(m.s.lines, k);
  }

  /** New rows add their lines' amounts. */
  lemma {:induction false} AllRowsTotal(m: Import, before: seq<PayoutRow>, rows: seq<PayoutRow>)
    requires |before| <= |rows|
    requires forall i :: 0 <= i < |before| ==> ImportedFrom(m, before[i], rows[i])
    requires forall i :: |before| <= i < |rows| ==> PaysItsLine(rows[i], m.s)
    ensures PoolTotal(rows, m.s.pool) == ByRows(rows, m.s.pool, m.s.lines) + KeptExcess(before, m.s)
    decreases |rows|
  {
    if |rows| == |before| {
      FoundRowsTotal(m, before, rows);
    } else {
      AllRowsTotal(m, before, rows[..|rows| - 1]);
      assert PaysItsLine(rows[|rows| - 1], m.s);
    }
  }

  /**
   * After an import the rows of the pool add up to the statement's pool, off by exactly what the sent rows differ
   * from their lines: so they add up to it precisely when those differences cancel, and in particular whenever every
   * sent row's amount is its line's.
   */
  lemma ImportedRowsAddUp(m: Import, before: seq<PayoutRow>, ids: seq<Uuid>)
    requires |m.s.lines| <= |ids| && WellFormed(m.s) && RowsDistinct(before) && Fresh(before, ids)
    ensures PoolTotal(AfterImport(m, before, ids), m.s.pool) == m.s.poolMinor + KeptExcess(before, m.s)
    ensures (forall i :: 0 <= i < |before| && before[i].winner.pool == m.s.pool && !Unpaid(before[i].status)
              ==> before[i].amount == LineAmount(m.s.lines, before[i].winner.user))
      ==> PoolTotal(AfterImport(m, before, ids), m.s.pool) == m.s.poolMinor
  {
    var after := AfterImport(m, before, ids);
    ImportAt(m, before, ids);
    ImportKeepsDistinct(m, before, ids);
    forall i | |before| <= i < |after| ensures PaysItsLine(after[i], m.s) {
      NewRowPaysItsLine(m, before, ids, after[i]);
    }
    AllRowsTotal(m, before, after);
    forall k | 0 <= k < |m.s.lines| && 0 < m.s.lines[k].amount ensures HasRow(after, Winner(m.s.pool, m.s.lines[k].user)) {
      LineForIsTheLine(m.s.lines, k);
      assert Listed(m.s, m.s.lines[k].user);
    }
    ByRowsIsTheSum(m, after, m.s.lines);
    if forall i :: 0 <= i < |before| && before[i].winner.pool == m.s.pool && !Unpaid(before[i].status)
        ==> before[i].amount == LineAmount(m.s.lines, before[i].winner.user) {
      NoExcess(before, m.s);
    }
  }

  lemma {:induction false} NoExcess(rows: seq<PayoutRow>, s: Statement)
    requires forall i :: 0 <= i < |rows| && rows[i].winner.pool == s.pool && !Unpaid(rows[i].status) ==> rows[i].amount == LineAmount(s.lines, rows[i].winner.user)
    ensures KeptExcess(rows, s) == 0
  {
    if rows != [] { NoExcess(rows[..|rows| - 1], s); }
  }
}
