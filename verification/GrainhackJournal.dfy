/**
 * The grainhack-signer's payment journal: one row per winner ever, never deleted, moved through its
 * statuses by guarded transitions, with every transition logged.
 */
module GrainhackJournal {
  import opened Basics

  datatype Status = Reserved | Sent | Confirmed | Unknown | FailedUnsent

  /** A signed token transfer. It is named by its signature, so two transfers are equal exactly when
      their signatures are. `expires` is the last block height at which the chain can still include it. */
  datatype Transfer = Transfer(mint: Address, recipient: Address, amount: nat, blockhash: nat, expires: nat)

  datatype PoolName = Contributor | OtherPool(n: nat)
  datatype EventPool = EventPool(hackathon: Uuid, name: PoolName)
  datatype Winner = Winner(pool: EventPool, user: nat)
  datatype Money = Money(currency: Currency, network: Network)

  /** Everything the signer knows about a payment before its transfer is built. */
  datatype Order = Order(
    payout: Uuid, approval: Signature, approver: Address, statement: Uuid, digest: Digest,
    winner: Winner, login: Login, recipient: Address, money: Money, mint: Address, amount: nat, day: nat)

  datatype Row = Row(order: Order, tx: Transfer, lastValid: Option<nat>, status: Status, resolvedBy: Option<Actor>)

  datatype Transition = Transition(row: nat, from: Option<Status>, to: Status, actor: Actor)

  const TheSigner: Actor := Named(0)

  /** min(per-event cap, statement pool), and the daily cap. */
  datatype Limits = Limits(eventMax: nat, dailyMax: nat)

  // ----- reading -----

  datatype Scope = OfEvent(pool: EventPool, money: Money) | OfDay(money: Money, day: nat)

  predicate InScope(o: Order, s: Scope) {
    match s
    case OfEvent(pool, money) => o.winner.pool == pool && o.money == money
    case OfDay(money, day) => o.money == money && o.day == day
  }

  /** Only a row that provably sent nothing stops counting. */
  predicate Counts(r: Row, s: Scope) {
    InScope(r.order, s) && r.status != FailedUnsent
  }

  function Committed(rows: seq<Row>, s: Scope): nat {
    if rows == [] then 0
    else
      var last := rows[|rows| - 1];
      Committed(rows[..|rows| - 1], s) + if Counts(last, s) then last.order.amount else 0
  }

  datatype Key = ByWinner(winner: Winner) | ByPayout(payout: Uuid) | ByPayoutOrApproval(payout: Uuid, approval: Signature) | ByTransfer(tx: Transfer)

  predicate Matches(r: Row, k: Key) {
    match k
    case ByWinner(w) => r.order.winner == w
    case ByPayout(p) => r.order.payout == p
    case ByPayoutOrApproval(p, a) => r.order.payout == p || r.order.approval == a
    case ByTransfer(tx) => r.tx == tx
  }

  /** The first row with this key, in insertion order. */
  function Find(rows: seq<Row>, k: Key): (i: Option<nat>)
    ensures i.Some? ==> i.value < |rows| && Matches(rows[i.value], k) && forall j :: 0 <= j < i.value ==> !Matches(rows[j], k)
    ensures i.None? ==> forall j :: 0 <= j < |rows| ==> !Matches(rows[j], k)
  {
    FindFrom(rows, k, 0)
  }

  function FindFrom(rows: seq<Row>, k: Key, from: nat): (i: Option<nat>)
    requires from <= |rows|
    ensures i.Some? ==> from <= i.value < |rows| && Matches(rows[i.value], k) && forall j :: from <= j < i.value ==> !Matches(rows[j], k)
    ensures i.None? ==> forall j :: from <= j < |rows| ==> !Matches(rows[j], k)
    decreases |rows| - from
  {
    if from == |rows| then None
    else if Matches(rows[from], k) then Some(from)
    else FindFrom(rows, k, from + 1)
  }

  // ----- the steps, as functions of the rows -----

  datatype Refusal =
    | EventCap
    | DailyCap
    | WinnerRecorded(existing: nat)
    | AlreadyRecorded(existing: nat)

  function HttpStatus(r: Refusal): nat {
    match r
    case EventCap => 403
    case DailyCap => 403
    case WinnerRecorded(_) => 409
    case AlreadyRecorded(_) => 409
  }

  function Check(rows: seq<Row>, o: Order, limits: Limits): (r: Option<Refusal>)
    ensures r.Some? && r.value.WinnerRecorded? ==> r.value.existing < |rows|
    ensures r.Some? && r.value.AlreadyRecorded? ==> r.value.existing < |rows|
  {
    if Committed(rows, OfEvent(o.winner.pool, o.money)) + o.amount > limits.eventMax then Some(EventCap)
    else if Committed(rows, OfDay(o.money, o.day)) + o.amount > limits.dailyMax then Some(DailyCap)
    else
      var w := Find(rows, ByWinner(o.winner));
      if w.Some? then Some(WinnerRecorded(w.value))
      else
        var same := Find(rows, ByPayoutOrApproval(o.payout, o.approval));
        if same.Some? then Some(AlreadyRecorded(same.value)) else None
  }

  /** `Violates` is the schema's UNIQUE constraint on the transaction signature: the insert throws. */
  datatype Reservation = Inserted(id: nat) | Refused(why: Refusal) | Violates

  function ReserveResult(rows: seq<Row>, o: Order, tx: Transfer, limits: Limits): Reservation {
    var c := Check(rows, o, limits);
    if c.Some? then Refused(c.value)
    else if Find(rows, ByTransfer(tx)).Some? then Violates
    else Inserted(|rows|)
  }

  function NewRow(o: Order, tx: Transfer, lastValid: Option<nat>): Row {
    Row(o, tx, lastValid, Reserved, None)
  }

  function AfterReserve(rows: seq<Row>, o: Order, tx: Transfer, lastValid: Option<nat>, limits: Limits): seq<Row> {
    if ReserveResult(rows, o, tx, limits).Inserted? then rows + [NewRow(o, tx, lastValid)] else rows
  }

  /** Where a running payment may move a row to each status from. */
  function AutoFrom(to: Status): set<Status> {
    match to
    case Sent => {Reserved}
    case Confirmed => {Sent}
    case Unknown => {Sent}
    case Reserved => {}
    case FailedUnsent => {}
  }

  const ResolveFrom: set<Status> := {Reserved, Sent, Unknown}

  predicate CanMove(rows: seq<Row>, id: nat, from: set<Status>) {
    id < |rows| && rows[id].status in from
  }

  function Moved(rows: seq<Row>, id: nat, to: Status, resolver: Option<Actor>): seq<Row>
    requires id < |rows|
  {
    rows[id := rows[id].(status := to, resolvedBy := if resolver.Some? then resolver else rows[id].resolvedBy)]
  }

  predicate Final(s: Status) {
    s == Confirmed || s == FailedUnsent
  }

  // ----- what always holds of the rows -----

  ghost predicate SharesKey(a: Row, b: Row) {
    || a.order.winner == b.order.winner
    || a.order.payout == b.order.payout
    || a.order.approval == b.order.approval
    || a.tx == b.tx
  }

  /** The four UNIQUE constraints. */
  ghost predicate Distinct(rows: seq<Row>) {
    forall i, j :: 0 <= i < j < |rows| ==> !SharesKey(rows[i], rows[j])
  }

  /** What a later state of the journal keeps from an earlier one. */
  ghost predicate Extends(earlier: seq<Row>, later: seq<Row>) {
    && |earlier| <= |later|
    && forall i :: 0 <= i < |earlier| ==>
      && later[i].order == earlier[i].order && later[i].tx == earlier[i].tx && later[i].lastValid == earlier[i].lastValid
      && (Final(earlier[i].status) ==> later[i].status == earlier[i].status)
      && (earlier[i].status != Reserved ==> later[i].status != Reserved)
  }

  lemma ReserveKeepsDistinct(rows: seq<Row>, o: Order, tx: Transfer, lastValid: Option<nat>, limits: Limits)
    requires Distinct(rows)
    ensures Distinct(AfterReserve(rows, o, tx, lastValid, limits))
  {
    var after := AfterReserve(rows, o, tx, lastValid, limits);
    forall i, j | 0 <= i < j < |after| ensures !SharesKey(after[i], after[j]) {
      if j == |rows| {
        assert !Matches(rows[i], ByWinner(o.winner));
        assert !Matches(rows[i], ByPayoutOrApproval(o.payout, o.approval));
        assert !Matches(rows[i], ByTransfer(tx));
      }
    }
  }

  lemma MoveKeepsDistinct(rows: seq<Row>, id: nat, to: Status, resolver: Option<Actor>)
    requires Distinct(rows) && id < |rows|
    ensures Distinct(Moved(rows, id, to, resolver))
  {
    var after := Moved(rows, id, to, resolver);
    forall i, j | 0 <= i < j < |after| ensures !SharesKey(after[i], after[j]) {
      assert !SharesKey(rows[i], rows[j]);
    }
  }

  lemma ExtendsTransitive(a: seq<Row>, b: seq<Row>, c: seq<Row>)
    requires Extends(a, b) && Extends(b, c)
    ensures Extends(a, c)
  {
    forall i | 0 <= i < |a|
      ensures c[i].order == a[i].order && c[i].tx == a[i].tx && c[i].lastValid == a[i].lastValid
      ensures Final(a[i].status) ==> c[i].status == a[i].status
      ensures a[i].status != Reserved ==> c[i].status != Reserved
    {
      assert b[i].order == a[i].order;
    }
  }

  // ----- committed sums -----

  lemma {:induction false} CommittedAfterMove(rows: seq<Row>, id: nat, to: Status, resolver: Option<Actor>, s: Scope)
    requires id < |rows|
    ensures Committed(Moved(rows, id, to, resolver), s) ==
      Committed(rows, s)
      - (if Counts(rows[id], s) then rows[id].order.amount else 0)
      + (if InScope(rows[id].order, s) && to != FailedUnsent then rows[id].order.amount else 0)
  {
    var after := Moved(rows, id, to, resolver);
    var n := |rows| - 1;
    if id == n {
      assert after[..n] == rows[..n];
    } else {
      assert after[..n] == Moved(rows[..n], id, to, resolver);
      CommittedAfterMove(rows[..n], id, to, resolver, s);
    }
  }

  lemma CommittedAfterReserve(rows: seq<Row>, o: Order, tx: Transfer, lastValid: Option<nat>, limits: Limits, s: Scope)
    ensures Committed(AfterReserve(rows, o, tx, lastValid, limits), s) ==
      Committed(rows, s) + if ReserveResult(rows, o, tx, limits).Inserted? && InScope(o, s) then o.amount else 0
  {
    if ReserveResult(rows, o, tx, limits).Inserted? {
      var after := rows + [NewRow(o, tx, lastValid)];
      assert after[..|after| - 1] == rows;
    }
  }

  // ----- the journal object -----

  /** The status a row's own log entries lead to. */
  function LoggedStatus(log: seq<Transition>, row: nat): Option<Status> {
    if log == [] then None
    else if log[|log| - 1].row == row then Some(log[|log| - 1].to)
    else LoggedStatus(log[..|log| - 1], row)
  }

  predicate LegalMove(from: Option<Status>, to: Status) {
    match from
    case None => to == Reserved
    case Some(f) => f in AutoFrom(to) || (Final(to) && f in ResolveFrom)
  }

  /** Every row's status is what the append-only log says, and every logged step was legal from where the row stood. */
  ghost predicate LogExplains(rows: seq<Row>, log: seq<Transition>) {
    && (forall i :: 0 <= i < |rows| ==> LoggedStatus(log, i) == Some(rows[i].status))
    && (forall k :: 0 <= k < |log| ==> log[k].row < |rows| && log[k].from == LoggedStatus(log[..k], log[k].row) && LegalMove(log[k].from, log[k].to))
  }

  lemma LogExplainsAppend(rows: seq<Row>, log: seq<Transition>, after: seq<Row>, t: Transition)
    requires LogExplains(rows, log)
    requires t.row < |after| && |rows| <= |after| <= |rows| + 1
    requires t.from == LoggedStatus(log, t.row) && LegalMove(t.from, t.to) && after[t.row].status == t.to
    requires forall i :: 0 <= i < |after| && i != t.row ==> i < |rows| && after[i].status == rows[i].status
    ensures LogExplains(after, log + [t])
  {
    var log' := log + [t];
    assert log'[..|log'| - 1] == log;
    forall k | 0 <= k < |log'| ensures log'[k].row < |after| && log'[k].from == LoggedStatus(log'[..k], log'[k].row) && LegalMove(log'[k].from, log'[k].to) {
      if k < |log| {
        assert log'[..k] == log[..k];
      }
    }
  }

  lemma {:induction false} UnloggedRow(log: seq<Transition>, n: nat)
    requires forall k :: 0 <= k < |log| ==> log[k].row < n
    ensures LoggedStatus(log, n) == None
  {
    if log != [] {
      UnloggedRow(log[..|log| - 1], n);
    }
  }

  class Journal {
    var rows: seq<Row>
    var log: seq<Transition>

    ghost predicate Valid()
      reads this
    {
      Distinct(rows) && LogExplains(rows, log)
    }

    constructor ()
      ensures Valid() && rows == [] && log == []
    {
      rows := [];
      log := [];
    }

    /** Insert, after the caps and keys have been looked at once more in the same transaction. */
    method Reserve(o: Order, tx: Transfer, lastValid: Option<nat>, limits: Limits) returns (res: Reservation)
      requires Valid()
      modifies this
      ensures Valid()
      ensures res == ReserveResult(old(rows), o, tx, limits)
      ensures rows == AfterReserve(old(rows), o, tx, lastValid, limits)
      ensures old(log) <= log && Extends(old(rows), rows)
    {
      var refused := Check(rows, o, limits);
      if refused.Some? {
        return Refused(refused.value);
      }
      var duplicate := Find(rows, ByTransfer(tx));
      if duplicate.Some? {
        return Violates;
      }
      var id := |rows|;
      ReserveKeepsDistinct(rows, o, tx, lastValid, limits);
      UnloggedRow(log, id);
      LogExplainsAppend(rows, log, rows + [NewRow(o, tx, lastValid)], Transition(id, None, Reserved, TheSigner));
      rows := rows + [NewRow(o, tx, lastValid)];
      log := log + [Transition(id, None, Reserved, TheSigner)];
      res := Inserted(id);
    }

    /** A move made by a running payment. `ok` is false where the source throws. */
    method Mark(id: nat, to: Status) returns (ok: bool)
      requires Valid()
      modifies this
      ensures Valid()
      ensures ok == CanMove(old(rows), id, AutoFrom(to))
      ensures rows == if ok then Moved(old(rows), id, to, None) else old(rows)
      ensures old(log) <= log && Extends(old(rows), rows)
    {
      ok := Move(id, to, AutoFrom(to), TheSigner, None);
    }

    /** Somebody decides an open row, and says who they are and why. */
    method Resolve(payout: Uuid, to: Status, actor: Actor, reason: Actor) returns (ok: bool)
      requires Valid() && Final(to)
      modifies this
      ensures Valid()
      ensures ok == (!actor.Blank? && !reason.Blank? && exists id :: 0 <= id < |old(rows)| && old(rows)[id].order.payout == payout && old(rows)[id].status in ResolveFrom)
      ensures !ok ==> rows == old(rows)
      ensures ok ==> exists id :: 0 <= id < |old(rows)| && old(rows)[id].order.payout == payout && rows == Moved(old(rows), id, to, Some(actor))
      ensures old(log) <= log && Extends(old(rows), rows)
    {
      var found := Find(rows, ByPayout(payout));
      if actor.Blank? || reason.Blank? || found.None? {
        return false;
      }
      var id := found.value;
      assert forall j :: 0 <= j < |rows| && rows[j].order.payout == payout ==> j == id by {
        forall j | 0 <= j < |rows| && rows[j].order.payout == payout ensures j == id {
          if j < id { assert SharesKey(rows[j], rows[id]); } else if id < j { assert SharesKey(rows[id], rows[j]); }
        }
      }
      ok := Move(id, to, ResolveFrom, actor, Some(actor));
    }

    method Move(id: nat, to: Status, from: set<Status>, actor: Actor, resolver: Option<Actor>) returns (ok: bool)
      requires Valid()
      requires forall f :: f in from ==> LegalMove(Some(f), to) && !Final(f) && to != Reserved
      modifies this
      ensures Valid()
      ensures ok == CanMove(old(rows), id, from)
      ensures rows == if ok then Moved(old(rows), id, to, resolver) else old(rows)
      ensures log == if ok then old(log) + [Transition(id, Some(old(rows)[id].status), to, actor)] else old(log)
      ensures Extends(old(rows), rows)
    {
      if |rows| <= id || rows[id].status !in from {
        return false;
      }
      var t := Transition(id, Some(rows[id].status), to, actor);
      MoveKeepsDistinct(rows, id, to, resolver);
      LogExplainsAppend(rows, log, Moved(rows, id, to, resolver), t);
      rows := Moved(rows, id, to, resolver);
      log := log + [t];
      ok := true;
    }
  }
}
