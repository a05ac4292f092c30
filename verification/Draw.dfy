/** Tickets, and picking a winner by them. */
module Draw {
  /** Product of the factors, as the loop multiplies them. */
  function Product(w: seq<real>): real {
    if w == [] then 1.0 else Product(w[..|w| - 1]) * w[|w| - 1]
  }

  /** The sum of the first n tickets. */
  function Prefix(tickets: seq<real>, n: nat): real
    requires n <= |tickets|
  {
    if n == 0 then 0.0 else Prefix(tickets, n - 1) + tickets[n - 1]
  }

  function Total(tickets: seq<real>): real {
    Prefix(tickets, |tickets|)
  }

  method TicketsFrom(weights: seq<real>) returns (t: real)
    ensures t == Product(weights)
    ensures (forall k :: 0 <= k < |weights| ==> 0.0 < weights[k]) ==> 0.0 < t
  {
    t := 1.0;
    for i := 0 to |weights|
      invariant t == Product(weights[..i])
      invariant (forall k :: 0 <= k < i ==> 0.0 < weights[k]) ==> 0.0 < t
    {
      assert weights[..i + 1][..i] == weights[..i];
      t := t * weights[i];
    }
    assert weights[..|weights|] == weights;
  }

  /** The first candidate whose running total reaches the drawn point; -1 when there are no tickets at all. */
  method PickWeighted(draw: real, tickets: seq<real>) returns (winner: int)
    ensures Total(tickets) <= 0.0 ==> winner == -1
    ensures Total(tickets) > 0.0 ==> 0 <= winner < |tickets|
    ensures Total(tickets) > 0.0 ==> forall j :: 0 < j <= winner ==> Prefix(tickets, j) < draw * Total(tickets)
    ensures Total(tickets) > 0.0 && draw <= 1.0 ==> draw * Total(tickets) <= Prefix(tickets, winner + 1)
  {
    var total := 0.0;
    for i := 0 to |tickets|
      invariant total == Prefix(tickets, i)
    {
      total := total + tickets[i];
    }
    if total <= 0.0 {
      return -1;
    }
    var r := draw * total;
    ghost var point := r;
    assert point == draw * Total(tickets);
    if draw <= 1.0 { AtMostAll(draw, total); }
    for i := 0 to |tickets|
      invariant r == point - Prefix(tickets, i)
      invariant forall j :: 0 < j <= i ==> Prefix(tickets, j) < point
    {
      r := r - tickets[i];
      if r <= 0.0 {
        return i;
      }
    }
    winner := |tickets| - 1;
  }

  lemma AtMostAll(draw: real, total: real)
    requires draw <= 1.0 && 0.0 <= total
    ensures draw * total <= total
  {
    assert (1.0 - draw) * total >= 0.0;
  }

  // ----- who wins for which draw -----

  predicate NonNegative(tickets: seq<real>) {
    forall k :: 0 <= k < |tickets| ==> 0.0 <= tickets[k]
  }

  /** What the loop returns, for a draw up to 1. */
  ghost predicate Wins(draw: real, tickets: seq<real>, i: nat) {
    && i < |tickets| && draw * Total(tickets) <= Prefix(tickets, i + 1)
    && forall j :: 0 < j <= i ==> Prefix(tickets, j) < draw * Total(tickets)
  }

  /** The draw falls in this candidate's stretch of the line. */
  predicate InStretch(draw: real, tickets: seq<real>, i: nat)
    requires i < |tickets|
  {
    Prefix(tickets, i) < draw * Total(tickets) <= Prefix(tickets, i + 1)
  }

  lemma {:induction false} PrefixGrows(tickets: seq<real>, m: nat, n: nat)
    requires NonNegative(tickets) && m <= n <= |tickets|
    ensures Prefix(tickets, m) <= Prefix(tickets, n)
  {
    if m < n { PrefixGrows(tickets, m, n - 1); }
  }

  /** For a draw strictly between 0 and 1 the winner is exactly the candidate whose stretch contains it. */
  lemma WinnerByStretch(draw: real, tickets: seq<real>, i: nat)
    requires NonNegative(tickets) && 0.0 < Total(tickets) && 0.0 < draw < 1.0 && i < |tickets|
    ensures Wins(draw, tickets, i) <==> InStretch(draw, tickets, i)
  {
    assert 0.0 < draw * Total(tickets);
    if InStretch(draw, tickets, i) {
      forall j | 0 < j <= i ensures Prefix(tickets, j) < draw * Total(tickets) { PrefixGrows(tickets, j, i); }
    }
    assert Prefix(tickets, 0) < draw * Total(tickets);
  }

  lemma OneWinner(draw: real, tickets: seq<real>, i: nat, j: nat)
    requires Wins(draw, tickets, i) && Wins(draw, tickets, j)
    ensures i == j
  {
    var reachedByI, reachedByJ := Prefix(tickets, i + 1), Prefix(tickets, j + 1);
    assert reachedByI >= draw * Total(tickets) && reachedByJ >= draw * Total(tickets);
  }

  /** The stretch is a share of the line as long as the candidate's share of the tickets, so it is also their chance; the
      stretches lie end to end from 0 to 1. */
  lemma StretchIsShare(tickets: seq<real>, i: nat)
    requires NonNegative(tickets) && 0.0 < Total(tickets) && i < |tickets|
    ensures
      var from, to := Prefix(tickets, i) / Total(tickets), Prefix(tickets, i + 1) / Total(tickets);
      && 0.0 <= from <= to <= 1.0 && to - from == tickets[i] / Total(tickets)
      && (forall draw :: InStretch(draw, tickets, i) <==> from < draw <= to)
      && (i == 0 ==> from == 0.0) && (i == |tickets| - 1 ==> to == 1.0)
  {
    var total := Total(tickets);
    PrefixGrows(tickets, 0, i);
    PrefixGrows(tickets, i + 1, |tickets|);
    Shares(Prefix(tickets, i), tickets[i], total);
    forall draw ensures InStretch(draw, tickets, i) <==> Prefix(tickets, i) / total < draw <= Prefix(tickets, i + 1) / total {
      Scaled(draw, Prefix(tickets, i), total);
      Scaled(draw, Prefix(tickets, i + 1), total);
    }
  }

  lemma Shares(before: real, more: real, total: real)
    requires 0.0 <= before && 0.0 <= more && before + more <= total && 0.0 < total
    ensures 0.0 <= before / total <= (before + more) / total <= 1.0
    ensures (before + more) / total - before / total == more / total && 0.0 / total == 0.0 && total / total == 1.0
  {
  }

  lemma Scaled(draw: real, p: real, total: real)
    requires 0.0 < total
    ensures draw * total < p <==> draw < p / total
    ensures p < draw * total <==> p / total < draw
  {
    assert p / total * total == p;
    if draw < p / total { assert (p / total - draw) * total > 0.0; }
    if p / total < draw { assert (draw - p / total) * total > 0.0; }
  }

  /** A candidate without tickets wins exactly when the draw is 0 and they come first: the generator can return 0, and the
      loop then stops at the first candidate whoever that is. */
  lemma ZeroTickets(draw: real, tickets: seq<real>, i: nat)
    requires NonNegative(tickets) && 0.0 < Total(tickets) && 0.0 <= draw < 1.0 && i < |tickets| && tickets[i] == 0.0
    ensures Wins(draw, tickets, i) <==> draw == 0.0 && i == 0
  {
    if draw > 0.0 {
      WinnerByStretch(draw, tickets, i);
    } else {
      assert draw * Total(tickets) == 0.0;
      PrefixGrows(tickets, 0, 1);
      assert Prefix(tickets, 1) >= 0.0;
    }
  }
}
