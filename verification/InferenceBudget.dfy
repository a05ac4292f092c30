/** The agent's side of the inference budget: the governor's decision and the ledger it decides from. */
module InferenceBudget {
  import opened Basics

  const HARD_LIFETIME_CEILING: nat := 5_000_000

  datatype Phase = P1 | P2P3 | P4 | LIVE

  function Allocation(p: Phase): nat {
    match p
    case P1 => 500_000
    case P2P3 => 1_000_000
    case P4 => 1_500_000
    case LIVE => 2_000_000
  }

  /** A configured ceiling counts only where it is the lower one. */
  function CeilingFor(requested: Option<nat>): nat {
    Min(if requested.Some? then requested.value else HARD_LIFETIME_CEILING, HARD_LIFETIME_CEILING)
  }

  datatype Quote = Quote(n: nat)

  datatype SpendStatus = Reserved | Settled(amount: nat, fee: nat) | Released

  /** `quote` is the quote of the call that made the entry. */
  datatype Spend = Spend(quote: Quote, phase: Phase, reserved: nat, status: SpendStatus)

  function Committed(e: Spend): nat {
    match e.status
    case Released => 0
    case Reserved => e.reserved
    case Settled(amount, fee) => amount + fee
  }

  function Lifetime(entries: seq<Spend>): nat {
    if entries == [] then 0 else Lifetime(entries[..|entries| - 1]) + Committed(entries[|entries| - 1])
  }

  function InPhase(entries: seq<Spend>, p: Phase): nat {
    if entries == [] then 0
    else
      var last := entries[|entries| - 1];
      InPhase(entries[..|entries| - 1], p) + if last.phase == p then Committed(last) else 0
  }

  datatype Totals = Totals(lifetime: nat, byPhase: map<Phase, nat>)

  datatype Decision = Allowed(lifetimeAfter: nat, phaseAfter: nat) | InvalidAmount | CeilingReached | OverLifetime | OverPhase

  function Decide(ceiling: nat, t: Totals, p: Phase, amount: int): Decision {
    var cap := Min(ceiling, HARD_LIFETIME_CEILING);
    if amount <= 0 then InvalidAmount
    else if t.lifetime >= cap then CeilingReached
    else if t.lifetime + amount > cap then OverLifetime
    else
      var phaseAfter := (if p in t.byPhase then t.byPhase[p] else 0) + amount;
      if phaseAfter > Allocation(p) then OverPhase else Allowed(t.lifetime + amount, phaseAfter)
  }

  function TotalsOf(entries: seq<Spend>): Totals {
    Totals(Lifetime(entries), map[P1 := InPhase(entries, P1), P2P3 := InPhase(entries, P2P3), P4 := InPhase(entries, P4), LIVE := InPhase(entries, LIVE)])
  }

  function AfterReserve(entries: seq<Spend>, ceiling: nat, quote: Quote, p: Phase, amount: int): seq<Spend> {
    if Decide(ceiling, TotalsOf(entries), p, amount).Allowed? then entries + [Spend(quote, p, amount, Reserved)] else entries
  }

  /** The budget: under the ceiling for ever, and each phase within its allocation. */
  ghost predicate WithinBudget(entries: seq<Spend>) {
    Lifetime(entries) <= HARD_LIFETIME_CEILING && forall p :: InPhase(entries, p) <= Allocation(p)
  }

  lemma ReserveKeepsBudget(entries: seq<Spend>, ceiling: nat, quote: Quote, p: Phase, amount: int)
    requires WithinBudget(entries)
    ensures WithinBudget(AfterReserve(entries, ceiling, quote, p, amount))
  {
    var after := AfterReserve(entries, ceiling, quote, p, amount);
    if after != entries {
      assert after[..|after| - 1] == entries;
    }
  }

  lemma {:induction false} ChangeTotals(entries: seq<Spend>, i: nat, e: Spend, p: Phase)
    requires i < |entries| && e.phase == entries[i].phase
    ensures Lifetime(entries[i := e]) == Lifetime(entries) - Committed(entries[i]) + Committed(e)
    ensures InPhase(entries[i := e], p) == InPhase(entries, p) - (if e.phase == p then Committed(entries[i]) - Committed(e) else 0)
  {
    var n := |entries| - 1;
    if i == n {
      assert entries[i := e][..n] == entries[..n];
    } else {
      assert entries[i := e][..n] == entries[..n][i := e];
      ChangeTotals(entries[..n], i, e, p);
    }
  }

  /** Settling for at most what was reserved, or releasing, never takes the ledger over its limits. */
  lemma ChangeKeepsBudget(entries: seq<Spend>, i: nat, e: Spend)
    requires WithinBudget(entries) && i < |entries| && e.phase == entries[i].phase && Committed(e) <= Committed(entries[i])
    ensures WithinBudget(entries[i := e])
  {
    forall p ensures InPhase(entries[i := e], p) <= Allocation(p) { ChangeTotals(entries, i, e, p); }
    ChangeTotals(entries, i, e, P1);
  }

  /** The four allocations sum to the ceiling. */
  lemma {:induction false} PhasesAddUp(entries: seq<Spend>)
    ensures Lifetime(entries) == InPhase(entries, P1) + InPhase(entries, P2P3) + InPhase(entries, P4) + InPhase(entries, LIVE)
    ensures Allocation(P1) + Allocation(P2P3) + Allocation(P4) + Allocation(LIVE) == HARD_LIFETIME_CEILING
  {
    if entries != [] { PhasesAddUp(entries[..|entries| - 1]); }
  }

  class SpendLedger {
    var rows: seq<Spend>
    const ceiling: nat

    ghost predicate Valid()
      reads this
    {
      WithinBudget(rows)
    }

    constructor (requested: Option<nat>)
      ensures Valid() && rows == [] && ceiling == CeilingFor(requested)
    {
      rows := [];
      ceiling := CeilingFor(requested);
    }

    /** One pass over the rows with two accumulators. */
    method SumTotals() returns (t: Totals)
      ensures t == TotalsOf(rows)
    {
      var byPhase: map<Phase, nat> := map[P1 := 0, P2P3 := 0, P4 := 0, LIVE := 0];
      var lifetime := 0;
      for i := 0 to |rows|
        invariant lifetime == Lifetime(rows[..i])
        invariant Totals(lifetime, byPhase) == TotalsOf(rows[..i])
      {
        var c := Committed(rows[i]);
        var p := rows[i].phase;
        assert p == P1 || p == P2P3 || p == P4 || p == LIVE;
        assert rows[..i + 1][..i] == rows[..i];
        lifetime := lifetime + c;
        byPhase := byPhase[p := byPhase[p] + c];
      }
      assert rows[..|rows|] == rows;
      t := Totals(lifetime, byPhase);
    }

    /** Decision and insert in one step, so two callers cannot both fit under the same headroom. */
    method Reserve(quote: Quote, p: Phase, amount: int) returns (d: Decision, entry: Option<nat>)
      requires Valid()
      modifies this
      ensures Valid() && rows == AfterReserve(old(rows), ceiling, quote, p, amount)
      ensures d == Decide(ceiling, TotalsOf(old(rows)), p, amount)
      ensures entry == if d.Allowed? then Some(|old(rows)|) else None
      ensures d.Allowed? ==> Lifetime(rows) == d.lifetimeAfter && InPhase(rows, p) == d.phaseAfter
    {
      var t := SumTotals();
      d := Decide(ceiling, t, p, amount);
      entry := None;
      ReserveKeepsBudget(rows, ceiling, quote, p, amount);
      if d.Allowed? {
        entry := Some(|rows|);
        ghost var before := rows;
        rows := rows + [Spend(quote, p, amount, Reserved)];
        assert rows[..|rows| - 1] == before;
      }
    }

    /** `ok` is false where the source throws: an entry that is not there or no longer reserved. The amounts are taken as
        they come; the ledger stays within budget when they are within what was reserved. */
    method Settle(entry: nat, amount: nat, fee: nat) returns (ok: bool)
      requires Valid()
      modifies this
      ensures ok == (entry < |old(rows)| && old(rows)[entry].status.Reserved?)
      ensures rows == if ok then old(rows)[entry := old(rows)[entry].(status := Settled(amount, fee))] else old(rows)
      ensures (ok ==> amount + fee <= old(rows)[entry].reserved) ==> Valid()
    {
      ok := entry < |rows| && rows[entry].status.Reserved?;
      if ok {
        if amount + fee <= rows[entry].reserved {
          ChangeKeepsBudget(rows, entry, rows[entry].(status := Settled(amount, fee)));
        }
        rows := rows[entry := rows[entry].(status := Settled(amount, fee))];
      }
    }

    method Release(entry: nat) returns (ok: bool)
      requires Valid()
      modifies this
      ensures Valid() && ok == (entry < |old(rows)| && old(rows)[entry].status.Reserved?)
      ensures rows == if ok then old(rows)[entry := old(rows)[entry].(status := Released)] else old(rows)
    {
      ok := entry < |rows| && rows[entry].status.Reserved?;
      if ok {
        ChangeKeepsBudget(rows, entry, rows[entry].(status := Released));
        rows := rows[entry := rows[entry].(status := Released)];
      }
    }
  }
}
