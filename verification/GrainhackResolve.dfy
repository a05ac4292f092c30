/** Settling an outcome from two reads of the chain, the status and then the finalized height, with anything in between. */
module GrainhackResolve {
  import opened Basics
  import opened GrainhackJournal
  import opened GrainhackSigner
  import Run = GrainhackRun

  // ----- a chain that goes on -----

  datatype Event = Broadcast(tx: Transfer) | Execute(tx: Transfer, ok: bool) | Advance(height: nat)

  function Happens(c: Chain, e: Event): Chain {
    match e
    case Broadcast(tx) => c.(onWire := c.onWire + {tx})
    case Execute(tx, ok) => if CanLand(c, tx) then c.(landed := c.landed[tx := ok]) else c
    case Advance(h) => if c.height < h then c.(height := h) else c
  }

  function Onward(c: Chain, events: seq<Event>): Chain {
    if events == [] then c else Happens(Onward(c, events[..|events| - 1]), events[|events| - 1])
  }

  /** Every step of the signer's machine is for the chain at most one of these. */
  lemma StepIsEvent(w: Run.World, s: Run.Step)
    ensures exists events :: Run.Do(w, s).chain == Onward(w.chain, events)
  {
    assert Onward(w.chain, []) == w.chain;
    match s
    case Send(c) =>
      if c in w.calls && w.calls[c].Marked? && w.calls[c].id < |w.rows| { One(w.chain, Broadcast(w.rows[w.calls[c].id].tx)); }
    case Land(tx, ok) => One(w.chain, Execute(tx, ok));
    case Tick(h) => One(w.chain, Advance(h));
    case _ => hide Begin, ReserveResult, AfterReserve, Decide, Find;
  }

  lemma One(c: Chain, e: Event)
    ensures Onward(c, [e]) == Happens(c, e)
  {
    assert [e][..0] == [];
  }

  /** It has not executed, and it can only if it is broadcast while the chain may still include it. */
  predicate Barred(c: Chain, tx: Transfer, sending: bool) {
    tx !in c.landed && (tx.expires < c.height || (!sending && tx !in c.onWire))
  }

  lemma {:induction false} StaysBarred(c: Chain, tx: Transfer, sending: bool, events: seq<Event>)
    requires Barred(c, tx, sending) && (sending || Broadcast(tx) !in events)
    ensures Barred(Onward(c, events), tx, sending)
  {
    if events != [] {
      var before := events[..|events| - 1];
      assert forall e :: e in before ==> e in events;
      StaysBarred(c, tx, sending, before);
      assert events[|events| - 1] in events;
    }
  }

  lemma {:induction false} HeightGrows(c: Chain, events: seq<Event>)
    ensures c.height <= Onward(c, events).height
  {
    if events != [] { HeightGrows(c, events[..|events| - 1]); }
  }

  lemma {:induction false} StaysDead(c: Chain, tx: Transfer, events: seq<Event>)
    requires Dead(c, tx)
    ensures Dead(Onward(c, events), tx)
  {
    if events != [] { StaysDead(c, tx, events[..|events| - 1]); }
  }

  // ----- the two reads -----

  /** The code reads the status and then the height. Read apart, "not found" can be paired with a later height:
      here the transfer lands in between, at its last valid block, and the tool records it as never sent. */
  lemma TwoReadsCanMisjudge(r: Row)
    requires r.status == Unknown && r.lastValid == Some(r.tx.expires)
    ensures
      var before := Chain(r.tx.expires, {r.tx}, map[]);
      var after := Onward(before, [Execute(r.tx, true), Advance(r.tx.expires + 1)]);
      && r.tx !in before.landed
      && Decide(r.status, r.lastValid, NotFound(after.height)) == Some(FailedUnsent)
      && MovedTokens(after, r.tx)
  {
    LandsThenExpires(Chain(r.tx.expires, {r.tx}, map[]), r.tx, []);
  }

  lemma LandsThenExpires(c: Chain, tx: Transfer, first: seq<Event>)
    requires CanLand(Onward(c, first), tx)
    ensures
      var after := Onward(c, first + [Execute(tx, true), Advance(tx.expires + 1)]);
      after.height == tx.expires + 1 && MovedTokens(after, tx)
  {
    var events := first + [Execute(tx, true), Advance(tx.expires + 1)];
    assert events[..|events| - 1] == first + [Execute(tx, true)];
    assert events[..|events| - 1][..|first|] == first;
  }

  /** The status was read at `first` and showed nothing. Whatever height is read later, a verdict of failed_unsent is
      right. `sending`: a pay call may broadcast the transfer in the meantime. */
  ghost predicate SafeToReadLater(first: Chain, r: Row, sending: bool) {
    forall events, h :: (sending || Broadcast(r.tx) !in events) ==> RightAt(Onward(first, events), r, h)
  }

  predicate RightAt(second: Chain, r: Row, h: nat) {
    h <= second.height && Decide(r.status, r.lastValid, NotFound(h)) == Some(FailedUnsent) ==> Dead(second, r.tx)
  }

  /** Exactly when that is so, told from the first read alone: the transfer is past its last block already, or, when
      nothing sends it any more, it is not on the wire. */
  lemma TwoReadsSafeExactly(first: Chain, r: Row)
    requires r.tx !in first.landed && r.lastValid == Some(r.tx.expires) && !Final(r.status)
    ensures SafeToReadLater(first, r, true) <==> r.tx.expires < first.height
    ensures SafeToReadLater(first, r, false) <==> !CanLand(first, r.tx)
  {
    forall sending ensures SafeToReadLater(first, r, sending) <==> Barred(first, r.tx, sending) {
      if Barred(first, r.tx, sending) {
        forall events, h | sending || Broadcast(r.tx) !in events ensures RightAt(Onward(first, events), r, h) {
          StaysBarred(first, r.tx, sending, events);
        }
      } else {
        LandsInBetween(first, r, sending);
      }
    }
  }

  lemma LandsInBetween(first: Chain, r: Row, sending: bool)
    requires r.tx !in first.landed && r.lastValid == Some(r.tx.expires) && !Final(r.status) && !Barred(first, r.tx, sending)
    ensures !SafeToReadLater(first, r, sending)
  {
    var sent := if sending then [Broadcast(r.tx)] else [];
    if sending { One(first, Broadcast(r.tx)); }
    LandsThenExpires(first, r.tx, sent);
    var events := sent + [Execute(r.tx, true), Advance(r.tx.expires + 1)];
    assert sending || Broadcast(r.tx) !in events;
    assert !RightAt(Onward(first, events), r, r.tx.expires + 1);
  }

  /** Read the other way round, the height and then the status, the verdict is always right, and for good. */
  lemma HeightFirstIsRight(first: Chain, between: seq<Event>, later: seq<Event>, r: Row, h: nat)
    requires h <= first.height && r.lastValid == Some(r.tx.expires)
    requires r.tx !in Onward(first, between).landed && Decide(r.status, r.lastValid, NotFound(h)) == Some(FailedUnsent)
    ensures Dead(Onward(Onward(first, between), later), r.tx)
  {
    HeightGrows(first, between);
    StaysDead(Onward(first, between), r.tx, later);
  }
}
