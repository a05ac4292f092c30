/** The results statement: what each winner of an event pool is owed, and the arithmetic it must satisfy. */
module GrainhackStatement {
  import opened Basics
  import opened GrainhackJournal

  datatype LineStatus = Payable | HeldKyc

  datatype Line = Line(user: nat, login: Login, amount: nat, status: LineStatus)

  datatype Statement = Statement(
    id: Uuid, supersedes: Option<Uuid>, pool: EventPool, computation: Uuid, money: Money, poolMinor: nat, lines: seq<Line>, digest: Digest)

  function LineSum(lines: seq<Line>): nat {
    if lines == [] then 0 else LineSum(lines[..|lines| - 1]) + lines[|lines| - 1].amount
  }

  /** Ascending by a positive user id, so no winner is listed twice. */
  predicate Ascending(lines: seq<Line>) {
    && (forall i :: 0 <= i < |lines| ==> 0 < lines[i].user)
    && (forall i, j :: 0 <= i < j < |lines| ==> lines[i].user < lines[j].user)
  }

  predicate WellFormed(s: Statement) {
    Ascending(s.lines) && LineSum(s.lines) == s.poolMinor && s.supersedes != Some(s.id)
  }

  datatype ShapeCheck = Fine | SelfSuperseding | UnsortedAt(line: nat) | NotPositiveAt(line: nat) | WrongTotal(sum: nat)

  /** The loop over lines of the shape check: sorted by id, and adding up to the pool. */
  method CheckShape(s: Statement) returns (r: ShapeCheck)
    ensures r == Fine <==> WellFormed(s)
    ensures r.WrongTotal? ==> r.sum == LineSum(s.lines) != s.poolMinor
  {
    if s.supersedes == Some(s.id) {
      return SelfSuperseding;
    }
    var sum := 0;
    var prev := 0;
    for i := 0 to |s.lines|
      invariant sum == LineSum(s.lines[..i])
      invariant prev == if i == 0 then 0 else s.lines[i - 1].user
      invariant Ascending(s.lines[..i])
    {
      var line := s.lines[i];
      if line.user == 0 {
        return NotPositiveAt(i);
      }
      if line.user <= prev {
        return UnsortedAt(i);
      }
      prev := line.user;
      assert s.lines[..i + 1][..i] == s.lines[..i];
      assert forall k :: 0 <= k < i ==> s.lines[..i][k] == s.lines[k];
      assert i > 0 ==> s.lines[..i][i - 1].user < line.user;
      sum := sum + line.amount;
    }
    assert s.lines[..|s.lines|] == s.lines;
    r := if sum != s.poolMinor then WrongTotal(sum) else Fine;
  }

  /** The first line for this user, as `find` returns it. */
  function LineFor(lines: seq<Line>, user: nat): (r: Option<Line>)
    ensures r.Some? <==> exists i :: 0 <= i < |lines| && lines[i].user == user
    ensures r.Some? ==> r.value in lines && r.value.user == user
  {
    if lines == [] then None
    else if lines[0].user == user then Some(lines[0])
    else
      var r := LineFor(lines[1..], user);
      assert forall i :: 0 < i < |lines| ==> lines[i] == lines[1..][i - 1];
      r
  }

  /** In a sorted statement there is at most one line per winner, so `find` returns the line that names them. */
  lemma LineForIsTheLine(lines: seq<Line>, i: nat)
    requires Ascending(lines) && i < |lines|
    ensures LineFor(lines, lines[i].user) == Some(lines[i])
  {
    var r := LineFor(lines, lines[i].user);
    var j :| 0 <= j < |lines| && lines[j] == r.value;
    if j < i { assert lines[j].user < lines[i].user; } else if i < j { assert lines[i].user < lines[j].user; }
  }

  // ----- the event cap never blocks a winner the statement lists -----

  /** What the rows that count in this scope pay to one user. */
  function PaidTo(rows: seq<Row>, s: Scope, user: nat): nat {
    if rows == [] then 0
    else
      var last := rows[|rows| - 1];
      PaidTo(rows[..|rows| - 1], s, user) + if Counts(last, s) && last.order.winner.user == user then last.order.amount else 0
  }

  function PaidToLines(rows: seq<Row>, s: Scope, lines: seq<Line>): nat {
    if lines == [] then 0 else PaidToLines(rows, s, lines[..|lines| - 1]) + PaidTo(rows, s, lines[|lines| - 1].user)
  }

  /** Every counted row of the event pays a line of this statement, for that line's amount. */
  ghost predicate AgreesWith(rows: seq<Row>, s: Scope, lines: seq<Line>) {
    forall i :: 0 <= i < |rows| && Counts(rows[i], s) ==>
      exists k :: 0 <= k < |lines| && lines[k].user == rows[i].order.winner.user && lines[k].amount == rows[i].order.amount
  }

  lemma {:induction false} UserPaidOnce(rows: seq<Row>, pool: EventPool, money: Money, lines: seq<Line>, k: nat)
    requires Distinct(rows) && Ascending(lines) && k < |lines| && AgreesWith(rows, OfEvent(pool, money), lines)
    ensures PaidTo(rows, OfEvent(pool, money), lines[k].user) <= lines[k].amount
    ensures (forall i :: 0 <= i < |rows| && Counts(rows[i], OfEvent(pool, money)) ==> rows[i].order.winner.user != lines[k].user)
      ==> PaidTo(rows, OfEvent(pool, money), lines[k].user) == 0
  {
    var s := OfEvent(pool, money);
    if rows != [] {
      var n := |rows| - 1;
      var last := rows[n];
      UserPaidOnce(rows[..n], pool, money, lines, k);
      if Counts(last, s) && last.order.winner.user == lines[k].user {
        forall i | 0 <= i < n && Counts(rows[..n][i], s) ensures rows[..n][i].order.winner.user != lines[k].user {
          assert !SharesKey(rows[i], rows[n]);
        }
        var m :| 0 <= m < |lines| && lines[m].user == last.order.winner.user && lines[m].amount == last.order.amount;
        assert m == k;
      }
    }
  }

  /** One more counted row adds its amount to the total of the lines exactly once. */
  lemma {:induction false} OneRowInLines(rows: seq<Row>, s: Scope, lines: seq<Line>)
    requires rows != [] && Ascending(lines)
    ensures
      var last := rows[|rows| - 1];
      PaidToLines(rows, s, lines) == PaidToLines(rows[..|rows| - 1], s, lines)
        + if Counts(last, s) && LineFor(lines, last.order.winner.user).Some? then last.order.amount else 0
  {
    if lines != [] {
      var m := |lines| - 1;
      var init := lines[..m];
      OneRowInLines(rows, s, init);
      var user := rows[|rows| - 1].order.winner.user;
      if LineFor(init, user).Some? {
        var i :| 0 <= i < |init| && init[i].user == user;
        assert lines[i].user == user && lines[i].user < lines[m].user;
      } else if LineFor(lines, user).Some? {
        var i :| 0 <= i < |lines| && lines[i].user == user;
        assert i < m ==> init[i].user == user;
      }
    }
  }

  lemma {:induction false} CommittedIsPaidToLines(rows: seq<Row>, s: Scope, lines: seq<Line>)
    requires Ascending(lines) && AgreesWith(rows, s, lines)
    ensures Committed(rows, s) == PaidToLines(rows, s, lines)
  {
    if rows == [] {
      NothingPaid(s, lines);
    } else {
      var init := rows[..|rows| - 1];
      assert forall i :: 0 <= i < |init| ==> init[i] == rows[i];
      CommittedIsPaidToLines(init, s, lines);
      OneRowInLines(rows, s, lines);
    }
  }

  lemma {:induction false} NothingPaid(s: Scope, lines: seq<Line>)
    ensures PaidToLines([], s, lines) == 0
  {
    if lines != [] {
      NothingPaid(s, lines[..|lines| - 1]);
    }
  }

  /** Where no line is overpaid and user `u` is paid nothing, their line still fits beside what was paid. */
  lemma {:induction false} LinesCoverPayments(rows: seq<Row>, s: Scope, lines: seq<Line>, u: nat)
    requires Ascending(lines)
    requires forall k :: 0 <= k < |lines| ==> PaidTo(rows, s, lines[k].user) <= lines[k].amount
    requires PaidTo(rows, s, u) == 0
    ensures PaidToLines(rows, s, lines) + (if LineFor(lines, u).Some? then LineFor(lines, u).value.amount else 0) <= LineSum(lines)
  {
    if lines != [] {
      var m := |lines| - 1;
      var init := lines[..m];
      LinesCoverPayments(rows, s, init, u);
      if lines[m].user == u {
        LineForIsTheLine(lines, m);
        assert LineFor(init, u) == None;
      } else if LineFor(lines, u).Some? {
        var i :| 0 <= i < |lines| && lines[i].user == u;
        LineForIsTheLine(lines, i);
        LineForIsTheLine(init, i);
        assert init[i] == lines[i];
      }
    }
  }

  /** While the journal agrees with the statement, every winner it lists and has not paid still fits under the pool. */
  lemma {:induction false} EventCapNeverBlocksAWinner(rows: seq<Row>, s: Statement, user: nat)
    requires WellFormed(s) && Distinct(rows)
    requires AgreesWith(rows, OfEvent(s.pool, s.money), s.lines)
    requires LineFor(s.lines, user).Some?
    requires forall i :: 0 <= i < |rows| && Counts(rows[i], OfEvent(s.pool, s.money)) ==> rows[i].order.winner.user != user
    ensures Committed(rows, OfEvent(s.pool, s.money)) + LineFor(s.lines, user).value.amount <= s.poolMinor
  {
    CommittedIsPaidToLines(rows, OfEvent(s.pool, s.money), s.lines);
    var scope := OfEvent(s.pool, s.money);
    forall k | 0 <= k < |s.lines| ensures PaidTo(rows, scope, s.lines[k].user) <= s.lines[k].amount {
      UserPaidOnce(rows, s.pool, s.money, s.lines, k);
    }
    var k :| 0 <= k < |s.lines| && s.lines[k].user == user;
    UserPaidOnce(rows, s.pool, s.money, s.lines, k);
    LinesCoverPayments(rows, scope, s.lines, user);
  }
}
