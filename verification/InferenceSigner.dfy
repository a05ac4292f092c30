/** The inference signer: its own journal, its own ceiling, and the fee arithmetic both sides reserve with. */
module InferenceSigner {
  import opened Basics
  import Budget = InferenceBudget

  const FEE_RESERVE_LAMPORTS: nat := 10_000

  function Ceil(x: real): int {
    -((-x).Floor)
  }

  /** Micro-USD for a fee in lamports at a price in USD per SOL, rounded up. */
  function LamportsToMicroCeil(lamports: nat, price: real): nat
    requires 0.0 <= price
  {
    var exact := lamports as real * price / 1000.0;
    assert 0.0 <= lamports as real * price;
    Ceil(exact)
  }

  /** The reserve is never short of the fee, and less than one unit over it. */
  lemma MicroIsCeiling(lamports: nat, price: real)
    requires 0.0 <= price
    ensures
      var micro := LamportsToMicroCeil(lamports, price) as real;
      lamports as real * price / 1000.0 <= micro < lamports as real * price / 1000.0 + 1.0
  {
    CeilIs(lamports as real * price / 1000.0);
  }

  lemma CeilIs(x: real)
    ensures x <= Ceil(x) as real < x + 1.0
  {
  }

  /** A fee within the reserve costs no more than the reserve was counted at. */
  lemma FeeWithinReserve(lamports: nat, price: real)
    requires 0.0 <= price && lamports <= FEE_RESERVE_LAMPORTS
    ensures LamportsToMicroCeil(lamports, price) <= LamportsToMicroCeil(FEE_RESERVE_LAMPORTS, price)
  {
    var fee, reserve := lamports as real * price, FEE_RESERVE_LAMPORTS as real * price;
    ScaleUp(lamports as real, FEE_RESERVE_LAMPORTS as real, price);
    CeilGrows(fee / 1000.0, reserve / 1000.0);
  }

  lemma ScaleUp(x: real, y: real, price: real)
    requires x <= y && 0.0 <= price
    ensures x * price <= y * price
  {
    assert (y - x) * price >= 0.0;
  }

  lemma CeilGrows(x: real, y: real)
    requires x <= y
    ensures Ceil(x) <= Ceil(y)
  {
  }

  datatype Status = Reserved | Sent | Confirmed | FailedUnsent

  datatype Payment = Payment(quote: Budget.Quote, amount: nat, feeReserve: nat, fee: Option<nat>, status: Status)

  function Counts(p: Payment): nat {
    match p.status
    case FailedUnsent => 0
    case Confirmed => p.amount + (if p.fee.Some? then p.fee.value else p.feeReserve)
    case _ => p.amount + p.feeReserve
  }

  function Committed(rows: seq<Payment>): nat {
    if rows == [] then 0 else Committed(rows[..|rows| - 1]) + Counts(rows[|rows| - 1])
  }

  function ByQuote(rows: seq<Payment>, quote: Budget.Quote): (i: Option<nat>)
    ensures i.Some? ==> i.value < |rows| && rows[i.value].quote == quote
    ensures i.None? ==> forall j :: 0 <= j < |rows| ==> rows[j].quote != quote
  {
    if rows == [] then None
    else if rows[|rows| - 1].quote == quote then Some(|rows| - 1)
    else ByQuote(rows[..|rows| - 1], quote)
  }

  datatype Reservation = Inserted(id: nat) | Existing(id: nat) | OverCeiling

  function ReserveResult(rows: seq<Payment>, quote: Budget.Quote, amount: nat, feeReserve: nat, ceiling: nat): Reservation {
    var same := ByQuote(rows, quote);
    if same.Some? then Existing(same.value)
    else if Committed(rows) + amount + feeReserve > ceiling then OverCeiling
    else Inserted(|rows|)
  }

  function AfterReserve(rows: seq<Payment>, quote: Budget.Quote, amount: nat, feeReserve: nat, ceiling: nat): seq<Payment> {
    if ReserveResult(rows, quote, amount, feeReserve, ceiling).Inserted? then rows + [Payment(quote, amount, feeReserve, None, Reserved)] else rows
  }

  ghost predicate QuotesDiffer(rows: seq<Payment>) {
    forall i, j :: 0 <= i < j < |rows| ==> rows[i].quote != rows[j].quote
  }

  lemma {:induction false} CommittedChanged(rows: seq<Payment>, i: nat, p: Payment)
    requires i < |rows|
    ensures Committed(rows[i := p]) == Committed(rows) - Counts(rows[i]) + Counts(p)
  {
    var n := |rows| - 1;
    if i == n {
      assert rows[i := p][..n] == rows[..n];
    } else {
      assert rows[i := p][..n] == rows[..n][i := p];
      CommittedChanged(rows[..n], i, p);
    }
  }

  lemma ReserveWithinCeiling(rows: seq<Payment>, quote: Budget.Quote, amount: nat, feeReserve: nat, ceiling: nat)
    ensures
      var after := AfterReserve(rows, quote, amount, feeReserve, ceiling);
      after == rows || (Committed(after) == Committed(rows) + amount + feeReserve <= ceiling)
  {
    var after := AfterReserve(rows, quote, amount, feeReserve, ceiling);
    if after != rows { assert after[..|after| - 1] == rows; }
  }

  lemma ReplaceLast(rows: seq<Payment>, p: Payment, q: Payment)
    ensures (rows + [p])[|rows| := q] == rows + [q]
  {
  }

  // ----- the objects -----

  /** A spend of credit moves no money, but there is none once the ceiling is reached. */
  predicate MayProve(rows: seq<Payment>, ceiling: nat) {
    Committed(rows) < ceiling
  }

  class Journal {
    var rows: seq<Payment>
    var proofs: set<Budget.Quote>

    ghost predicate Valid()
      reads this
    {
      QuotesDiffer(rows) && Committed(rows) <= Budget.HARD_LIFETIME_CEILING
    }

    constructor ()
      ensures Valid() && rows == [] && proofs == {}
    {
      rows, proofs := [], {};
    }

    /** Check and insert under one write lock. */
    method Reserve(quote: Budget.Quote, amount: nat, feeReserve: nat, ceiling: nat) returns (r: Reservation)
      requires Valid() && ceiling <= Budget.HARD_LIFETIME_CEILING
      modifies this`rows
      ensures Valid() && r == ReserveResult(old(rows), quote, amount, feeReserve, ceiling)
      ensures rows == AfterReserve(old(rows), quote, amount, feeReserve, ceiling)
    {
      ReserveWithinCeiling(rows, quote, amount, feeReserve, ceiling);
      var same := ByQuote(rows, quote);
      if same.Some? {
        return Existing(same.value);
      }
      if Committed(rows) + amount + feeReserve > ceiling {
        return OverCeiling;
      }
      r := Inserted(|rows|);
      rows := rows + [Payment(quote, amount, feeReserve, None, Reserved)];
    }

    /** A guarded update; `ok` is false where the source throws. The row may not come to count for more. */
    method Update(id: nat, from: Status, to: Status, fee: Option<nat>) returns (ok: bool)
      requires Valid()
      requires id < |rows| && rows[id].status == from ==> Counts(rows[id].(status := to, fee := fee)) <= Counts(rows[id])
      modifies this`rows
      ensures Valid() && ok == (id < |old(rows)| && old(rows)[id].status == from)
      ensures rows == if ok then old(rows)[id := old(rows)[id].(status := to, fee := fee)] else old(rows)
    {
      ok := id < |rows| && rows[id].status == from;
      if ok {
        CommittedChanged(rows, id, rows[id].(status := to, fee := fee));
        rows := rows[id := rows[id].(status := to, fee := fee)];
      }
    }
  }

  datatype SignerConfig = SignerConfig(ceiling: nat, maxPerCall: nat, price: real)

  datatype Answer = Paid(amount: nat, fee: nat) | Refused(status: nat) | Uncertain

  /** What the rail did: could not build, broadcast and saw this fee, or lost track of a broadcast. */
  datatype Rail = BuildThrew | Returned(lamports: nat) | BroadcastThrew

  class Signer {
    const cfg: SignerConfig
    const journal: Journal

    constructor (cfg: SignerConfig, journal: Journal)
      ensures this.cfg == cfg && this.journal == journal
    {
      this.cfg := cfg;
      this.journal := journal;
    }

    /** `wellFormed`: a UUID, mainnet, USDC, an allowlisted payee, not about to expire. A refusal leaves nothing new that
        counts; a payment for a new quote adds exactly what it cost; an uncertain one the most it can cost. */
    method PayQuote(quote: Budget.Quote, amount: int, wellFormed: bool, rail: Rail) returns (a: Answer)
      requires journal.Valid() && 0.0 <= cfg.price && cfg.ceiling <= Budget.HARD_LIFETIME_CEILING
      requires rail.Returned? ==> rail.lamports <= FEE_RESERVE_LAMPORTS
      modifies journal`rows
      ensures journal.Valid()
      ensures a.Refused? ==> journal.rows == old(journal.rows) || (amount > 0 && journal.rows == old(journal.rows) + [NewRow(quote, amount).(status := FailedUnsent)])
      ensures a.Paid? && ByQuote(old(journal.rows), quote).Some? ==> journal.rows == old(journal.rows)
      ensures a.Paid? && ByQuote(old(journal.rows), quote).None? ==>
        amount > 0 && a.amount == amount && journal.rows == old(journal.rows) + [NewRow(quote, amount).(status := Confirmed, fee := Some(a.fee))]
      ensures a.Uncertain? ==> amount > 0 && journal.rows == old(journal.rows) + [NewRow(quote, amount).(status := Sent)]
    {
      hide LamportsToMicroCeil, Ceil;
      if !wellFormed || amount <= 0 {
        return Refused(400);
      }
      if amount > cfg.maxPerCall {
        return Refused(403);
      }
      var r := journal.Reserve(quote, amount, LamportsToMicroCeil(FEE_RESERVE_LAMPORTS, cfg.price), cfg.ceiling);
      match r {
        case Existing(id) =>
          var ex := journal.rows[id];
          if ex.status == Confirmed {
            return Paid(ex.amount, if ex.fee.Some? then ex.fee.value else 0);
          }
          return Refused(409);
        case OverCeiling =>
          return Refused(403);
        case Inserted(id) =>
          ghost var reserved := NewRow(quote, amount);
          assert journal.rows == old(journal.rows) + [reserved];
          a := PayReserved(id, rail);
          ReplaceLast(old(journal.rows), reserved, journal.rows[id]);
      }
    }

    /** What a new quote is reserved at. */
    function NewRow(quote: Budget.Quote, amount: nat): Payment
      requires 0.0 <= cfg.price
    {
      Payment(quote, amount, LamportsToMicroCeil(FEE_RESERVE_LAMPORTS, cfg.price), None, Reserved)
    }

    /** After the reservation: build, mark sent, broadcast, mark what came of it. */
    method PayReserved(id: nat, rail: Rail) returns (a: Answer)
      requires journal.Valid() && 0.0 <= cfg.price && id < |journal.rows| && journal.rows[id].status == Reserved
      requires journal.rows[id].feeReserve == LamportsToMicroCeil(FEE_RESERVE_LAMPORTS, cfg.price)
      requires rail.Returned? ==> rail.lamports <= FEE_RESERVE_LAMPORTS
      modifies journal`rows
      ensures journal.Valid()
      ensures (a.Paid? ==> rail.Returned? && a.amount == old(journal.rows)[id].amount && a.fee == LamportsToMicroCeil(rail.lamports, cfg.price))
      ensures
        var p := old(journal.rows)[id];
        journal.rows == old(journal.rows)[id := match a
          case Refused(_) => p.(status := FailedUnsent, fee := None)
          case Uncertain => p.(status := Sent, fee := None)
          case Paid(_, fee) => p.(status := Confirmed, fee := Some(fee))]
    {
      ghost var before := journal.rows;
      var p := journal.rows[id];
      if rail.BuildThrew? {
        CommittedChanged(before, id, p.(status := FailedUnsent, fee := None));
        var ok := journal.Update(id, Reserved, FailedUnsent, None);
        return Refused(422);
      }
      CommittedChanged(before, id, p.(status := Sent, fee := None));
      var sent := journal.Update(id, Reserved, Sent, None);
      if rail.BroadcastThrew? {
        return Uncertain;
      }
      FeeWithinReserve(rail.lamports, cfg.price);
      var fee := LamportsToMicroCeil(rail.lamports, cfg.price);
      hide LamportsToMicroCeil;
      CommittedChanged(journal.rows, id, journal.rows[id].(status := Confirmed, fee := Some(fee)));
      var confirmed := journal.Update(id, Sent, Confirmed, Some(fee));
      a := Paid(p.amount, fee);
    }

    /** Signs, and keeps on record, a proof for a spend of credit. The payments stay as they are. */
    method BalanceProof(quote: Budget.Quote, wellFormed: bool) returns (ok: bool)
      modifies journal`proofs
      ensures ok == (wellFormed && MayProve(journal.rows, cfg.ceiling))
      ensures journal.proofs == old(journal.proofs) + if ok then {quote} else {}
    {
      if !wellFormed || Committed(journal.rows) >= cfg.ceiling {
        return false;
      }
      journal.proofs := journal.proofs + {quote};
      ok := true;
    }
  }
}
