/** `pay` as the signer runs it when nothing interrupts it, over the journal object. */
module GrainhackPay {
  import opened Basics
  import opened GrainhackJournal
  import opened GrainhackSigner
  import opened GrainhackRun

  /** What the rail did for one call: the transfer it built, and whether its broadcast returned or threw. */
  datatype Rail = BuildThrew | Built(tx: Transfer, reported: bool, returned: bool)

  function LastValid(rail: Rail): Option<nat>
    requires rail.Built?
  {
    if rail.reported then Some(rail.tx.expires) else None
  }

  /** The row a call that got as far as the network leaves behind. */
  function SettledRow(o: Order, rail: Rail): Row
    requires rail.Built?
  {
    Row(o, rail.tx, LastValid(rail), if rail.returned then Confirmed else Unknown, None)
  }

  class Signer {
    const journal: Journal

    constructor (journal: Journal)
      ensures this.journal == journal
    {
      this.journal := journal;
    }

    /** Reports a payment exactly when it added one confirmed row; adds a row only for an order every check let
        through; and any other answer leaves the journal as it was. */
    method Pay(req: Request, cfg: Config, now: int, day: nat, rail: Rail) returns (out: Outcome)
      requires journal.Valid()
      modifies journal
      ensures journal.Valid() && old(journal.log) <= journal.log
      ensures
        var start := Begin(old(journal.rows), cfg, req, now, day);
        if start.Answer? then out == start.outcome && journal.rows == old(journal.rows)
        else if rail.BuildThrew? then out == Declined(422) && journal.rows == old(journal.rows)
        else
          match ReserveResult(old(journal.rows), start.order, rail.tx, start.limits)
          case Refused(why) => out == Declined(HttpStatus(why)) && journal.rows == old(journal.rows)
          case Violates => out == Threw && journal.rows == old(journal.rows)
          case Inserted(_) =>
            && out == (if rail.returned then Paid(rail.tx) else Uncertain(rail.tx))
            && journal.rows == old(journal.rows) + [SettledRow(start.order, rail)]
    {
      var start := Begin(journal.rows, cfg, req, now, day);
      if start.Answer? {
        return start.outcome;
      }
      if rail.BuildThrew? {
        return Declined(422);
      }
      out := PayOrder(start.order, start.limits, rail);
    }

    /** After the first await: reserve, mark sent, broadcast, mark what came of it. */
    method PayOrder(o: Order, limits: Limits, rail: Rail) returns (out: Outcome)
      requires journal.Valid() && rail.Built?
      modifies journal
      ensures journal.Valid() && old(journal.log) <= journal.log
      ensures
        match ReserveResult(old(journal.rows), o, rail.tx, limits)
        case Refused(why) => out == Declined(HttpStatus(why)) && journal.rows == old(journal.rows)
        case Violates => out == Threw && journal.rows == old(journal.rows)
        case Inserted(_) =>
          && out == (if rail.returned then Paid(rail.tx) else Uncertain(rail.tx))
          && journal.rows == old(journal.rows) + [SettledRow(o, rail)]
    {
      var res := journal.Reserve(o, rail.tx, LastValid(rail), limits);
      match res {
        case Refused(why) => return Declined(HttpStatus(why));
        case Violates => return Threw;
        case Inserted(id) =>
          assert journal.rows == old(journal.rows) + [NewRow(o, rail.tx, LastValid(rail))];
          Broadcast(id, rail);
          return if rail.returned then Paid(rail.tx) else Uncertain(rail.tx);
      }
    }

    method Broadcast(id: nat, rail: Rail)
      requires journal.Valid() && CanMove(journal.rows, id, {Reserved}) && rail.Built?
      modifies journal
      ensures journal.Valid() && old(journal.log) <= journal.log
      ensures journal.rows == old(journal.rows)[id := old(journal.rows)[id].(status := if rail.returned then Confirmed else Unknown)]
    {
      hide LogExplains, Distinct;
      var sent := journal.Mark(id, Sent);
      assert journal.rows == Moved(old(journal.rows), id, Sent, None);
      var settled := journal.Mark(id, if rail.returned then Confirmed else Unknown);
    }
  }

  /** The machine's steps for one call that nothing else interleaves with, up to handing the transfer to the network. */
  function SentAlone(w: World, c: nat, cfg: Config, now: int, day: nat, tx: Transfer, reported: bool): World {
    Do(Do(Do(Do(w, Step.Check(c, cfg, now, day)), Prepared(c, Some((tx, reported)))), MarkSent(c)), Send(c))
  }

  lemma SentAloneIs(w: World, c: nat, req: Request, cfg: Config, now: int, day: nat, tx: Transfer, reported: bool)
    requires At(w, c) == Some(Arrived(req)) && BuiltFor(tx, OrderFor(req, day))
    requires Begin(w.rows, cfg, req, now, day).Build?
    requires ReserveResult(w.rows, OrderFor(req, day), tx, Begin(w.rows, cfg, req, now, day).limits).Inserted?
    ensures
      var lastValid := if reported then Some(tx.expires) else None;
      var w' := SentAlone(w, c, cfg, now, day, tx, reported);
      && w'.rows == w.rows + [Row(OrderFor(req, day), tx, lastValid, Sent, None)]
      && At(w', c) == Some(Broadcasting(|w.rows|))
      && w'.chain == w.chain.(onWire := w.chain.onWire + {tx})
  {
    var b := Begin(w.rows, cfg, req, now, day);
    assert b.order == OrderFor(req, day);
    var checked := Do(w, Step.Check(c, cfg, now, day));
    assert At(checked, c) == Some(Building(b.order, b.limits, Grant(req, cfg, now)));
    var prepared := Do(checked, Prepared(c, Some((tx, reported))));
    assert At(prepared, c) == Some(Holding(|w.rows|));
    var marked := Do(prepared, MarkSent(c));
    assert At(marked, c) == Some(Marked(|w.rows|));
  }

  lemma BroadcastReturned(sent: World, c: nat, id: nat)
    requires At(sent, c) == Some(Broadcasting(id)) && id < |sent.rows| && sent.rows[id].status == Sent
    requires CanLand(sent.chain, sent.rows[id].tx)
    ensures
      var done := Do(Do(sent, Land(sent.rows[id].tx, true)), BroadcastReturns(c));
      done.rows == Moved(sent.rows, id, Confirmed, None) && At(done, c) == Some(Answered(Paid(sent.rows[id].tx)))
  {
    var landed := Do(sent, Land(sent.rows[id].tx, true));
    assert MovedTokens(landed.chain, sent.rows[id].tx) && landed.rows == sent.rows;
  }

  lemma BroadcastThrew(sent: World, c: nat, id: nat)
    requires At(sent, c) == Some(Broadcasting(id)) && id < |sent.rows| && sent.rows[id].status == Sent
    ensures
      var done := Do(sent, BroadcastThrows(c));
      done.rows == Moved(sent.rows, id, Unknown, None) && At(done, c) == Some(Answered(Uncertain(sent.rows[id].tx)))
  {
  }

  /** What the method above does to the journal is what those machine steps do: the sequential signer is one run of the machine. */
  lemma PayIsARun(w: World, c: nat, req: Request, cfg: Config, now: int, day: nat, rail: Rail)
    requires WireJournalled(w) && At(w, c) == Some(Arrived(req))
    requires rail.Built? && BuiltFor(rail.tx, OrderFor(req, day)) && (rail.returned ==> w.chain.height <= rail.tx.expires)
    requires Begin(w.rows, cfg, req, now, day).Build?
    requires ReserveResult(w.rows, OrderFor(req, day), rail.tx, Begin(w.rows, cfg, req, now, day).limits).Inserted?
    ensures
      var sent := SentAlone(w, c, cfg, now, day, rail.tx, rail.reported);
      var done := if rail.returned then Do(Do(sent, Land(rail.tx, true)), BroadcastReturns(c)) else Do(sent, BroadcastThrows(c));
      && done.rows == w.rows + [SettledRow(OrderFor(req, day), rail)]
      && At(done, c) == Some(Answered(if rail.returned then Paid(rail.tx) else Uncertain(rail.tx)))
  {
    var sent := SentAlone(w, c, cfg, now, day, rail.tx, rail.reported);
    var o := OrderFor(req, day);
    assert sent.rows == w.rows + [Row(o, rail.tx, LastValid(rail), Sent, None)] && At(sent, c) == Some(Broadcasting(|w.rows|))
      && sent.chain == w.chain.(onWire := w.chain.onWire + {rail.tx}) by {
      SentAloneIs(w, c, req, cfg, now, day, rail.tx, rail.reported);
    }
    assert rail.tx !in w.chain.landed by {
      InsertedIsNew(w, o, Begin(w.rows, cfg, req, now, day).limits, rail.tx);
    }
    if rail.returned {
      BroadcastReturned(sent, c, |w.rows|);
    } else {
      BroadcastThrew(sent, c, |w.rows|);
    }
  }
}
