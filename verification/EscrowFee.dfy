/** What a funded bounty costs: the program's fixed-width arithmetic and the quote the website shows. */
module EscrowFee {
  import opened Basics

  const U64: nat := 0x1_0000_0000_0000_0000
  const U128: nat := 0x1_0000_0000_0000_0000_0000_0000_0000_0000
  const MAX_FEE_BPS: nat := 1_000

  /** The least whole number of units that is not short of the percentage. */
  ghost predicate IsCeiling(x: nat, amount: nat, bps: nat) {
    amount * bps <= x * 10_000 && (x == 0 || (x - 1) * 10_000 < amount * bps)
  }

  function Percentage(product: nat): nat {
    (product + 9_999) / 10_000
  }

  /** What initialize computes, or nothing where it refuses or its arithmetic panics. */
  function ProgramFee(amount: nat, bps: nat, floor: nat): Option<(nat, nat)> {
    if amount == 0 || MAX_FEE_BPS < bps then None
    else
      var product := amount * bps;
      if U128 <= product || U128 <= product + 9_999 then None
      else
        var fee := Max(Percentage(product) % U64, floor);
        if U64 <= amount + fee then None else Some((fee, amount + fee))
  }

  /** The website's arithmetic, on unbounded integers. */
  function QuotedFee(amount: int, bps: nat, floor: nat): Option<(int, int)> {
    if amount <= 0 then None
    else
      var pct := (amount * bps + 9_999) / 10_000;
      var fee := if pct > floor then pct else floor;
      Some((fee, amount + fee))
  }

  lemma CeilingOf(amount: nat, bps: nat)
    ensures IsCeiling(Percentage(amount * bps), amount, bps)
  {
    var n := amount * bps;
    var x := Percentage(n);
    assert 10_000 * x <= n + 9_999 < 10_000 * x + 10_000;
  }

  lemma ProductBound(amount: nat, bps: nat)
    requires bps <= MAX_FEE_BPS
    ensures amount * bps <= 1_000 * amount
  {
    assert amount * (1_000 - bps) >= 0;
  }

  lemma PercentageBound(product: nat, amount: nat)
    requires 0 < amount && product <= 1_000 * amount
    ensures Percentage(product) <= amount
  {
  }

  /** For every amount, rate and floor the program's types admit: its wide product never overflows and its narrowing
      cast never truncates; the fee is the exact ceiling of the percentage, or the floor; and it aborts only when the
      total does not fit. */
  lemma FeeIsExact(amount: nat, bps: nat, floor: nat)
    requires 0 < amount < U64 && bps <= MAX_FEE_BPS && floor < U64
    ensures
      var pct := Percentage(amount * bps);
      && amount * bps + 9_999 < U128 && pct < U64 && IsCeiling(pct, amount, bps)
      && (ProgramFee(amount, bps, floor).Some? <==> amount + Max(pct, floor) < U64)
      && (ProgramFee(amount, bps, floor).Some? ==> ProgramFee(amount, bps, floor).value == (Max(pct, floor), amount + Max(pct, floor)))
  {
    CeilingOf(amount, bps);
    ProductBound(amount, bps);
    PercentageBound(amount * bps, amount);
    hide Percentage, IsCeiling;
    Narrow(Percentage(amount * bps));
  }

  lemma Narrow(x: nat)
    requires x < U64
    ensures x % U64 == x
  {
  }

  /** The screen quotes what the chain charges, whenever the program does not abort. */
  lemma QuoteMatchesProgram(amount: nat, bps: nat, floor: nat)
    requires amount < U64 && bps <= MAX_FEE_BPS && floor < U64 && ProgramFee(amount, bps, floor).Some?
    ensures QuotedFee(amount, bps, floor) == Some((ProgramFee(amount, bps, floor).value.0 as int, ProgramFee(amount, bps, floor).value.1 as int))
  {
    FeeIsExact(amount, bps, floor);
    hide ProgramFee, IsCeiling;
  }
}
