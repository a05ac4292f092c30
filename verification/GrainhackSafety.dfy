/** What every run of the signer, the chain and the people around them guarantees about money. */
module GrainhackSafety {
  import opened Basics
  import opened GrainhackJournal
  import opened GrainhackSigner
  import opened GrainhackRun

  /** Read from the chain alone: the transfers that executed without error during a run, in order. */
  function Landings(steps: seq<Step>): seq<Transfer> {
    if steps == [] then []
    else
      var before := steps[..|steps| - 1];
      var last := steps[|steps| - 1];
      Landings(before) + if last.Land? && last.ok && CanLand(Exec(before).chain, last.tx) then [last.tx] else []
  }

  function TotalOf(txs: seq<Transfer>): nat {
    if txs == [] then 0 else TotalOf(txs[..|txs| - 1]) + txs[|txs| - 1].amount
  }

  /** Read from the journal: the amounts of the rows whose transfer executed. */
  function LandedTotal(rows: seq<Row>, c: Chain): nat {
    if rows == [] then 0
    else
      var last := rows[|rows| - 1];
      LandedTotal(rows[..|rows| - 1], c) + if MovedTokens(c, last.tx) then last.order.amount else 0
  }

  function LandedIn(rows: seq<Row>, c: Chain, s: Scope): nat {
    if rows == [] then 0
    else
      var last := rows[|rows| - 1];
      LandedIn(rows[..|rows| - 1], c, s) + if MovedTokens(c, last.tx) && InScope(last.order, s) then last.order.amount else 0
  }

  /** Row k is the journal's record of this transfer: amount, recipient and mint are the row's own. */
  ghost predicate Records(w: World, k: int, tx: Transfer) {
    && 0 <= k < |w.rows| && k < |w.granted|
    && w.rows[k].tx == tx && BuiltFor(tx, w.rows[k].order)
    && Authorises(w.granted[k], w.rows[k].order)
  }

  // ----- the journal only grows -----

  lemma MovedExtends(rows: seq<Row>, id: nat, to: Status, resolver: Option<Actor>, from: set<Status>)
    requires CanMove(rows, id, from) && to != Reserved && (forall f :: f in from ==> !Final(f))
    ensures Extends(rows, Moved(rows, id, to, resolver))
  {
  }

  lemma DoExtends(w: World, s: Step)
    ensures Extends(w.rows, Do(w, s).rows)
  {
    var w' := Do(w, s);
    if w'.rows != w.rows && !s.Prepared? {
      var id, to, resolver := RowMoved(w, s);
      MovedExtends(w.rows, id, to, resolver, ResolveFrom);
    }
  }

  /** A step other than a reserve changes at most one row's status, and only one that is not final. */
  lemma RowMoved(w: World, s: Step) returns (id: nat, to: Status, resolver: Option<Actor>)
    requires !s.Prepared? && Do(w, s).rows != w.rows
    ensures CanMove(w.rows, id, ResolveFrom) && to != Reserved && Do(w, s).rows == Moved(w.rows, id, to, resolver)
  {
    match s
    case MarkSent(c) => id, to, resolver := w.calls[c].id, Sent, None;
    case BroadcastReturns(c) => id, to, resolver := w.calls[c].id, Confirmed, None;
    case BroadcastThrows(c) => id, to, resolver := w.calls[c].id, Unknown, None;
    case Resolve(payout, status, actor) =>
      id := Find(w.rows, ByPayout(payout)).value;
      to, resolver := Decide(w.rows[id].status, w.rows[id].lastValid, status).value, Some(actor);
  }

  lemma {:induction false} RunExtends(a: seq<Step>, b: seq<Step>)
    ensures Extends(Exec(a).rows, Exec(a + b).rows)
  {
    if b == [] {
      assert a + b == a;
    } else {
      hide Extends, Do;
      var n := |b| - 1;
      assert (a + b)[..|a + b| - 1] == a + b[..n];
      RunExtends(a, b[..n]);
      DoExtends(Exec(a + b[..n]), b[n]);
      ExtendsTransitive(Exec(a).rows, Exec(a + b[..n]).rows, Exec(a + b).rows);
    }
  }

  // ----- what landed, from the run and from the state -----

  lemma {:induction false} LandingsAreLanded(steps: seq<Step>)
    ensures forall i :: 0 <= i < |Landings(steps)| ==> MovedTokens(Exec(steps).chain, Landings(steps)[i])
    ensures forall i, j :: 0 <= i < j < |Landings(steps)| ==> Landings(steps)[i] != Landings(steps)[j]
    ensures forall tx :: MovedTokens(Exec(steps).chain, tx) ==> tx in Landings(steps)
  {
    if steps != [] {
      var before := steps[..|steps| - 1];
      LandingsAreLanded(before);
      EveryRun(before);
      LandedOnlyGrows(Exec(before), steps[|steps| - 1]);
    }
  }

  lemma LandedOnlyGrows(w: World, s: Step)
    ensures
      var c' := Do(w, s).chain;
      if s.Land? && CanLand(w.chain, s.tx) then c'.landed == w.chain.landed[s.tx := s.ok] else c'.landed == w.chain.landed
  {
  }

  ghost predicate Recorded(w: World, tx: Transfer) {
    exists k :: Records(w, k, tx)
  }

  /** Two transfers are never recorded for one winner. */
  ghost predicate DifferentWinners(w: World, a: Transfer, b: Transfer) {
    forall k, m :: Records(w, k, a) && Records(w, m, b) ==> w.rows[k].order.winner != w.rows[m].order.winner
  }

  /**
   * At most one transfer per (hackathon, pool, winner) ever lands, whatever the calls, crashes, lost replies,
   * re-approvals and resolutions; and each one that lands is the one its winner's single journal row records,
   * with the amount and recipient a trusted approver and the signed statement named.
   */
  lemma PayOnce(steps: seq<Step>)
    ensures forall i :: 0 <= i < |Landings(steps)| ==> Recorded(Exec(steps), Landings(steps)[i])
    ensures forall i, j :: 0 <= i < j < |Landings(steps)| ==> DifferentWinners(Exec(steps), Landings(steps)[i], Landings(steps)[j])
  {
    var w := Exec(steps);
    var landed := Landings(steps);
    LandingsAreLanded(steps);
    forall i | 0 <= i < |landed| ensures Recorded(w, landed[i]) {
      EveryRun(steps);
      LandedIsRecorded(w, landed[i]);
    }
    forall i, j | 0 <= i < j < |landed| ensures DifferentWinners(w, landed[i], landed[j]) {
      EveryRun(steps);
      DifferentTransfersDifferentWinners(w, landed[i], landed[j]);
    }
  }

  lemma LandedIsRecorded(w: World, tx: Transfer)
    requires Inv(w) && tx in w.chain.landed
    ensures Recorded(w, tx)
  {
    assert tx in w.chain.onWire;
    assert Journalled(w, tx);
    var k :| 0 <= k < |w.rows| && w.rows[k].tx == tx;
    assert RowMatchesTransfer(w.rows[k]);
    assert Records(w, k, tx);
  }

  lemma DifferentTransfersDifferentWinners(w: World, a: Transfer, b: Transfer)
    requires Distinct(w.rows) && a != b
    ensures DifferentWinners(w, a, b)
  {
    forall k, m | Records(w, k, a) && Records(w, m, b) ensures w.rows[k].order.winner != w.rows[m].order.winner {
      RowsDiffer(w.rows, k, m);
    }
  }

  // ----- caps -----

  lemma {:induction false} LandedWithinCommitted(rows: seq<Row>, c: Chain, s: Scope)
    requires forall i :: 0 <= i < |rows| ==> StatusTellsChain(rows[i], c)
    ensures LandedIn(rows, c, s) <= Committed(rows, s)
  {
    if rows != [] {
      LandedWithinCommitted(rows[..|rows| - 1], c, s);
      assert StatusTellsChain(rows[|rows| - 1], c);
    }
  }

  /** In every reachable state: tokens landed for an event are at most its committed sum, which is at most the hard
      cap and the pool of a statement it was paid from; and each day's sum is at most the daily cap. */
  lemma CapsHold(steps: seq<Step>, pool: EventPool, money: Money, day: nat)
    ensures
      var w := Exec(steps);
      var event := Committed(w.rows, OfEvent(pool, money));
      var today := Committed(w.rows, OfDay(money, day));
      && LandedIn(w.rows, w.chain, OfEvent(pool, money)) <= event
      && LandedIn(w.rows, w.chain, OfDay(money, day)) <= today
      && (event > 0 ==>
            && money.currency == USDC && event <= 5_000_000_000
            && exists i :: 0 <= i < |w.rows| && i < |w.granted| && InScope(w.rows[i].order, OfEvent(pool, money)) && event <= w.granted[i].req.statement.poolMinor)
      && (today > 0 ==> money.currency == USDC && today <= 2_500_000_000)
  {
    EveryRun(steps);
    var w := Exec(steps);
    LandedWithinCommitted(w.rows, w.chain, OfEvent(pool, money));
    LandedWithinCommitted(w.rows, w.chain, OfDay(money, day));
    assert WithinCaps(w, OfEvent(pool, money));
    assert WithinCaps(w, OfDay(money, day));
  }

  /** A settled row stays settled: failed_unsent has moved nothing and never will, and confirmed has landed, whatever happens next. */
  lemma SettledForGood(a: seq<Step>, b: seq<Step>, k: nat)
    requires k < |Exec(a).rows| && Final(Exec(a).rows[k].status)
    ensures
      var before := Exec(a);
      var after := Exec(a + b);
      && k < |after.rows| && after.rows[k].order == before.rows[k].order && after.rows[k].tx == before.rows[k].tx
      && after.rows[k].status == before.rows[k].status
      && (before.rows[k].status == FailedUnsent ==> before.rows[k].tx !in Landings(a + b))
      && (before.rows[k].status == Confirmed ==> before.rows[k].tx in Landings(a))
  {
    RunExtends(a, b);
    EveryRun(a);
    EveryRun(a + b);
    LandingsAreLanded(a);
    LandingsAreLanded(a + b);
    assert StatusTellsChain(Exec(a).rows[k], Exec(a).chain);
    assert StatusTellsChain(Exec(a + b).rows[k], Exec(a + b).chain);
  }

  // ----- conservation -----

  lemma {:induction false} LandingAddsOneRow(rows: seq<Row>, c: Chain, tx: Transfer, ok: bool)
    requires tx !in c.landed
    requires forall i, j :: 0 <= i < j < |rows| ==> rows[i].tx != rows[j].tx
    requires forall i :: 0 <= i < |rows| && rows[i].tx == tx ==> rows[i].order.amount == tx.amount
    ensures LandedTotal(rows, c.(landed := c.landed[tx := ok])) ==
      LandedTotal(rows, c) + if ok && (exists i :: 0 <= i < |rows| && rows[i].tx == tx) then tx.amount else 0
  {
    if rows != [] {
      var n := |rows| - 1;
      LandingAddsOneRow(rows[..n], c, tx, ok);
      if rows[n].tx == tx {
        assert forall i :: 0 <= i < n ==> rows[..n][i].tx != tx;
      } else if exists i :: 0 <= i < |rows| && rows[i].tx == tx {
        var i :| 0 <= i < |rows| && rows[i].tx == tx;
        assert rows[..n][i].tx == tx;
      }
    }
  }

  lemma {:induction false} LandedTotalReads(a: seq<Row>, b: seq<Row>, c: Chain, d: Chain)
    requires |a| == |b| && c.landed == d.landed
    requires forall i :: 0 <= i < |a| ==> a[i].tx == b[i].tx && a[i].order == b[i].order
    ensures LandedTotal(a, c) == LandedTotal(b, d)
  {
    if a != [] {
      LandedTotalReads(a[..|a| - 1], b[..|b| - 1], c, d);
    }
  }

  lemma LandedTotalAfter(w: World, s: Step)
    requires Inv(w) && !(s.Land? && CanLand(w.chain, s.tx))
    ensures LandedTotal(Do(w, s).rows, Do(w, s).chain) == LandedTotal(w.rows, w.chain)
  {
    hide WithinCaps, CallsSound, Do, Extends;
    var w' := Do(w, s);
    StepKeepsInv(w, s);
    DoExtends(w, s);
    LandedOnlyGrows(w, s);
    DoAddsAtMostOneRow(w, s);
    LandedTotalReads(w.rows, w'.rows[..|w.rows|], w.chain, w'.chain);
    if |w'.rows| == |w.rows| {
      assert w'.rows[..|w.rows|] == w'.rows;
    } else {
      var n := |w.rows|;
      assert StatusTellsChain(w'.rows[n], w'.chain);
      assert w'.rows[..|w'.rows| - 1] == w'.rows[..n];
    }
  }

  lemma DoAddsAtMostOneRow(w: World, s: Step)
    ensures
      var w' := Do(w, s);
      |w.rows| <= |w'.rows| <= |w.rows| + 1 && (|w'.rows| == |w.rows| + 1 ==> w'.rows[|w.rows|].status == Reserved)
  {
  }

  lemma LandedTotalAfterLanding(w: World, tx: Transfer, ok: bool)
    requires Inv(w) && CanLand(w.chain, tx)
    ensures
      var w' := Do(w, Land(tx, ok));
      LandedTotal(w'.rows, w'.chain) == LandedTotal(w.rows, w.chain) + if ok then tx.amount else 0
  {
    TxsDiffer(w);
    assert Journalled(w, tx);
    LandingAddsOneRow(w.rows, w.chain, tx, ok);
  }

  lemma TotalOfAppend(txs: seq<Transfer>, tx: Transfer)
    ensures TotalOf(txs + [tx]) == TotalOf(txs) + tx.amount
  {
    assert (txs + [tx])[..|txs|] == txs;
  }

  /** Everything that left the float during a run is exactly what the journal's landed rows add up to. */
  lemma {:induction false} OutflowIsJournalled(steps: seq<Step>)
    ensures TotalOf(Landings(steps)) == LandedTotal(Exec(steps).rows, Exec(steps).chain)
  {
    if steps != [] {
      var before := steps[..|steps| - 1];
      var s := steps[|steps| - 1];
      var w := Exec(before);
      OutflowIsJournalled(before);
      if s.Land? && CanLand(w.chain, s.tx) {
        assert LandedTotal(Do(w, s).rows, Do(w, s).chain) == LandedTotal(w.rows, w.chain) + if s.ok then s.tx.amount else 0 by {
          EveryRun(before);
          LandedTotalAfterLanding(w, s.tx, s.ok);
        }
        TotalOfAppend(Landings(before), s.tx);
        assert Landings(before) + [] == Landings(before);
      } else {
        assert LandedTotal(Do(w, s).rows, Do(w, s).chain) == LandedTotal(w.rows, w.chain) by {
          EveryRun(before);
          LandedTotalAfter(w, s);
        }
        assert Landings(steps) == Landings(before) + [] == Landings(before);
      }
    }
  }

  lemma TxsDiffer(w: World)
    requires Inv(w)
    ensures forall i, j :: 0 <= i < j < |w.rows| ==> w.rows[i].tx != w.rows[j].tx
    ensures forall i :: 0 <= i < |w.rows| ==> w.rows[i].order.amount == w.rows[i].tx.amount
  {
    forall i, j | 0 <= i < j < |w.rows| ensures w.rows[i].tx != w.rows[j].tx {
      assert !SharesKey(w.rows[i], w.rows[j]);
    }
    forall i | 0 <= i < |w.rows| ensures w.rows[i].order.amount == w.rows[i].tx.amount {
      assert RowMatchesTransfer(w.rows[i]);
    }
  }
}
