/** The statements an agent holds: for every event pool one line of supersessions with one current head. */
module GrainhackChain {
  import opened Basics
  import opened GrainhackJournal
  import opened GrainhackStatement
  import opened GrainhackAgent

  function OfPool(held: seq<Held>, pool: EventPool): seq<Held> {
    if held == [] then []
    else
      var last := held[|held| - 1];
      OfPool(held[..|held| - 1], pool) + if last.statement.pool == pool then [last] else []
  }

  predicate Linked(a: Held, b: Held) {
    a.supersededBy == Some(b.statement.id) && b.statement.supersedes == Some(a.statement.id)
  }

  /** Each statement names the one before it, is named by the one after it, and only the last is current. */
  ghost predicate Linear(chain: seq<Held>) {
    && (forall k :: 0 <= k < |chain| - 1 ==> Linked(chain[k], chain[k + 1]))
    && (chain != [] ==> chain[|chain| - 1].supersededBy == None)
  }

  ghost predicate ChainsSound(held: seq<Held>) {
    && (forall pool :: Linear(OfPool(held, pool)))
    && (forall i, j :: 0 <= i < j < |held| ==> held[i].statement.id != held[j].statement.id)
  }

  function FindHeld(held: seq<Held>, id: Uuid): (i: Option<nat>)
    ensures i.Some? ==> i.value < |held| && held[i.value].statement.id == id
    ensures i.None? ==> forall j :: 0 <= j < |held| ==> held[j].statement.id != id
  {
    if held == [] then None
    else if held[|held| - 1].statement.id == id then Some(|held| - 1)
    else FindHeld(held[..|held| - 1], id)
  }

  /** The one nothing supersedes yet. */
  function Current(held: seq<Held>, pool: EventPool): (i: Option<nat>)
    ensures i.Some? ==> i.value < |held| && held[i.value].statement.pool == pool && held[i.value].supersededBy == None
    ensures i.None? ==> forall j :: 0 <= j < |held| ==> !(held[j].statement.pool == pool && held[j].supersededBy == None)
  {
    if held == [] then None
    else
      var n := |held| - 1;
      if held[n].statement.pool == pool && held[n].supersededBy == None then Some(n) else Current(held[..n], pool)
  }

  datatype Refusal = WrongNetwork | NoMint | DifferentContent | NotTheNext | OtherComputation | OtherMoney

  datatype Verdict = Refuse(why: Refusal) | AlreadyHeld | Accept

  function Judge(held: seq<Held>, s: Statement, network: Network, mints: map<Currency, Address>): Verdict {
    if s.money.network != network then Refuse(WrongNetwork)
    else if s.money.currency !in mints then Refuse(NoMint)
    else
      var same := FindHeld(held, s.id);
      if same.Some? then
        if held[same.value].statement.digest != s.digest then Refuse(DifferentContent) else AlreadyHeld
      else
        var cur := Current(held, s.pool);
        if cur.None? then Accept
        else
          var c := held[cur.value].statement;
          if s.supersedes != Some(c.id) then Refuse(NotTheNext)
          else if s.computation != c.computation then Refuse(OtherComputation)
          else if s.money != c.money then Refuse(OtherMoney)
          else Accept
  }

  function AfterHold(held: seq<Held>, s: Statement): seq<Held> {
    var cur := Current(held, s.pool);
    (if cur.Some? then held[cur.value := held[cur.value].(supersededBy := Some(s.id))] else held) + [Held(s, None)]
  }

  // ----- the chains stay chains -----

  lemma {:induction false} InPoolChain(held: seq<Held>, i: nat)
    requires i < |held|
    ensures held[i] in OfPool(held, held[i].statement.pool)
  {
    if i < |held| - 1 {
      InPoolChain(held[..|held| - 1], i);
    }
  }

  /** In a linear chain the statement nothing supersedes is the last of its pool, so replacing it replaces the chain's end. */
  lemma {:induction false} ReplaceCurrent(held: seq<Held>, i: nat, replacement: Held)
    requires i < |held| && held[i].supersededBy == None && replacement.statement == held[i].statement
    requires Linear(OfPool(held, held[i].statement.pool))
    ensures
      var chain := OfPool(held, held[i].statement.pool);
      && chain != [] && chain[|chain| - 1] == held[i]
      && OfPool(held[i := replacement], held[i].statement.pool) == chain[..|chain| - 1] + [replacement]
  {
    var pool := held[i].statement.pool;
    var n := |held| - 1;
    var init := held[..n];
    var chain := OfPool(held, pool);
    if i == n {
      assert held[i := replacement][..n] == init;
    } else {
      assert held[i := replacement][..n] == init[i := replacement];
      assert OfPool(held[i := replacement], pool) == OfPool(init[i := replacement], pool) + if held[n].statement.pool == pool then [held[n]] else [];
      InPoolChain(init, i);
      assert OfPool(init, pool) <= chain;
      var k :| 0 <= k < |OfPool(init, pool)| && OfPool(init, pool)[k] == held[i];
      assert chain[k] == held[i];
      assert k < |chain| - 1 ==> Linked(chain[k], chain[k + 1]);
      assert held[n].statement.pool != pool;
      assert OfPool(init, pool) == chain;
      ReplaceCurrent(init, i, replacement);
    }
  }

  lemma {:induction false} OtherPoolUntouched(held: seq<Held>, i: nat, replacement: Held, pool: EventPool)
    requires i < |held| && replacement.statement == held[i].statement && held[i].statement.pool != pool
    ensures OfPool(held[i := replacement], pool) == OfPool(held, pool)
  {
    var n := |held| - 1;
    if i == n {
      assert held[i := replacement][..n] == held[..n];
    } else {
      assert held[i := replacement][..n] == held[..n][i := replacement];
      OtherPoolUntouched(held[..n], i, replacement, pool);
    }
  }

  lemma OfPoolAppend(held: seq<Held>, h: Held, pool: EventPool)
    ensures OfPool(held + [h], pool) == OfPool(held, pool) + if h.statement.pool == pool then [h] else []
  {
    assert (held + [h])[..|held|] == held;
  }

  /** In a sound table, a pool with a statement has a current one: the end of its chain. */
  lemma CurrentIsTheEnd(held: seq<Held>, pool: EventPool)
    requires ChainsSound(held)
    ensures Current(held, pool).None? <==> OfPool(held, pool) == []
    ensures Current(held, pool).Some? ==>
      OfPool(held, pool) != [] && OfPool(held, pool)[|OfPool(held, pool)| - 1] == held[Current(held, pool).value]
  {
    var chain := OfPool(held, pool);
    assert Linear(chain);
    var cur := Current(held, pool);
    if cur.Some? {
      ReplaceCurrent(held, cur.value, held[cur.value]);
    } else if chain != [] {
      FromHeld(held, pool, |chain| - 1);
    }
  }

  lemma {:induction false} FromHeld(held: seq<Held>, pool: EventPool, k: nat)
    requires k < |OfPool(held, pool)|
    ensures exists i :: 0 <= i < |held| && held[i] == OfPool(held, pool)[k] && held[i].statement.pool == pool
  {
    var n := |held| - 1;
    var init := OfPool(held[..n], pool);
    if k < |init| {
      FromHeld(held[..n], pool, k);
      var i :| 0 <= i < n && held[..n][i] == init[k] && held[..n][i].statement.pool == pool;
      assert held[i] == OfPool(held, pool)[k];
    } else {
      assert held[n] == OfPool(held, pool)[k];
    }
  }

  /** The pool's chain with one more statement at its end. */
  function Extended(chain: seq<Held>, s: Statement): seq<Held> {
    if chain == [] then [Held(s, None)]
    else
      var n := |chain| - 1;
      chain[..n] + [chain[n].(supersededBy := Some(s.id)), Held(s, None)]
  }

  /** An accepted statement extends its pool's chain by one, and no other. */
  lemma AcceptExtends(held: seq<Held>, s: Statement, pool: EventPool)
    requires ChainsSound(held)
    ensures OfPool(AfterHold(held, s), pool) == if pool == s.pool then Extended(OfPool(held, pool), s) else OfPool(held, pool)
  {
    assert Linear(OfPool(held, s.pool));
    hide ChainsSound, OfPool, Linear, Current;
    CurrentIsTheEnd(held, s.pool);
    var cur := Current(held, s.pool);
    if cur.None? {
      OfPoolAppend(held, Held(s, None), pool);
    } else {
      var replacement := held[cur.value].(supersededBy := Some(s.id));
      OfPoolAppend(held[cur.value := replacement], Held(s, None), pool);
      if pool == s.pool {
        ReplaceCurrent(held, cur.value, replacement);
        ExtendedBy(OfPool(held, pool), s);
      } else {
        OtherPoolUntouched(held, cur.value, replacement, pool);
      }
    }
  }

  lemma ExtendedBy(chain: seq<Held>, s: Statement)
    requires chain != []
    ensures
      var n := |chain| - 1;
      Extended(chain, s) == chain[n := chain[n].(supersededBy := Some(s.id))] + [Held(s, None)]
  {
  }

  lemma ExtendedIsLinear(chain: seq<Held>, s: Statement)
    requires Linear(chain) && (chain != [] ==> s.supersedes == Some(chain[|chain| - 1].statement.id))
    ensures Linear(Extended(chain, s))
  {
  }

  lemma AcceptKeepsChains(held: seq<Held>, s: Statement, network: Network, mints: map<Currency, Address>)
    requires ChainsSound(held) && Judge(held, s, network, mints) == Accept
    ensures ChainsSound(AfterHold(held, s))
  {
    forall pool ensures Linear(OfPool(AfterHold(held, s), pool)) {
      AcceptExtends(held, s, pool);
      assert Linear(OfPool(held, pool));
      CurrentIsTheEnd(held, s.pool);
      if pool == s.pool { ExtendedIsLinear(OfPool(held, pool), s); }
    }
  }
}
