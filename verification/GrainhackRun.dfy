/**
 * The signer, the chain and the people who resolve, as one state machine. Pay calls interleave at every
 * await, the process can stop anywhere, replies can be lost, and anybody may send any request.
 */
module GrainhackRun {
  import opened Basics
  import opened GrainhackJournal
  import opened GrainhackStatement
  import opened GrainhackSigner

  /** Where one `pay` call stands. */
  datatype Call =
    | Arrived(req: Request)
    | Building(order: Order, limits: Limits, grant: Grant)
    | Holding(id: nat)
    | Marked(id: nat)
    | Broadcasting(id: nat)
    | Answered(outcome: Outcome)

  /** `granted[i]` is the request that created row i: a history variable, read by no step. */
  datatype World = World(rows: seq<Row>, granted: seq<Grant>, chain: Chain, calls: map<nat, Call>)

  const Start: World := World([], [], Chain(0, {}, map[]), map[])

  datatype Step =
    | Arrive(call: nat, req: Request)
    | Check(call: nat, cfg: Config, now: int, day: nat)
    /** `prepareTransfer` returned: the transfer it signed, and the last valid height it reported; or it threw. */
    | Prepared(call: nat, built: Option<(Transfer, bool)>)
    | MarkSent(call: nat)
    | Send(call: nat)
    | BroadcastReturns(call: nat)
    | BroadcastThrows(call: nat)
    | Drop(call: nat)
    | Resolve(payout: Uuid, status: ChainStatus, actor: Actor)
    | Land(tx: Transfer, ok: bool)
    | Tick(height: nat)

  function At(w: World, call: nat): Option<Call> {
    if call in w.calls then Some(w.calls[call]) else None
  }

  function Answering(w: World, call: nat, o: Outcome): World {
    w.(calls := w.calls[call := Answered(o)])
  }

  /** The rail signs what it was asked to: same mint, recipient and amount. */
  predicate BuiltFor(tx: Transfer, o: Order) {
    tx.mint == o.mint && tx.recipient == o.recipient && tx.amount == o.amount
  }

  /** Reserve under the write lock once the transfer is built; the answer when it is refused or throws. */
  function Reserving(w: World, call: nat, o: Order, limits: Limits, grant: Grant, tx: Transfer, lastValid: Option<nat>): World {
    match ReserveResult(w.rows, o, tx, limits)
    case Inserted(id) =>
      w.(rows := AfterReserve(w.rows, o, tx, lastValid, limits), granted := w.granted + [grant], calls := w.calls[call := Holding(id)])
    case Refused(why) => Answering(w, call, Declined(HttpStatus(why)))
    case Violates => Answering(w, call, Threw)
  }

  /** One of the payment path's own transitions, and what the call does next; an illegal one throws out of `pay`. */
  function Marking(w: World, call: nat, id: nat, to: Status, next: Call): World {
    if CanMove(w.rows, id, AutoFrom(to))
      then w.(rows := Moved(w.rows, id, to, None), calls := w.calls[call := next])
      else Answering(w, call, Threw)
  }

  function Resolving(w: World, payout: Uuid, status: ChainStatus, actor: Actor): World {
    var i := Find(w.rows, ByPayout(payout));
    if i.None? || actor.Blank? || !Truthful(w.chain, w.rows[i.value].tx, status) then w
    else
      var r := w.rows[i.value];
      var d := Decide(r.status, r.lastValid, status);
      if d.Some? && CanMove(w.rows, i.value, ResolveFrom) then w.(rows := Moved(w.rows, i.value, d.value, Some(actor))) else w
  }

  /** One step. A step that is not possible in this state leaves it as it is. */
  function Do(w: World, s: Step): World {
    match s
    case Arrive(c, req) => if c in w.calls then w else w.(calls := w.calls[c := Arrived(req)])
    case Check(c, cfg, now, day) =>
      (match At(w, c)
       case Some(Arrived(req)) =>
         (match Begin(w.rows, cfg, req, now, day)
          case Answer(o) => Answering(w, c, o)
          case Build(o, limits) => w.(calls := w.calls[c := Building(o, limits, Grant(req, cfg, now))]))
       case _ => w)
    case Prepared(c, built) =>
      (match At(w, c)
       case Some(Building(o, limits, grant)) =>
         (match built
          case None => Answering(w, c, Declined(422))
          case Some((tx, reported)) =>
            if !BuiltFor(tx, o) then w
            else Reserving(w, c, o, limits, grant, tx, if reported then Some(tx.expires) else None))
       case _ => w)
    case MarkSent(c) =>
      (match At(w, c)
       case Some(Holding(id)) => Marking(w, c, id, Sent, Marked(id))
       case _ => w)
    case Send(c) =>
      (match At(w, c)
       case Some(Marked(id)) =>
         if id < |w.rows|
           then w.(chain := w.chain.(onWire := w.chain.onWire + {w.rows[id].tx}), calls := w.calls[c := Broadcasting(id)])
           else w
       case _ => w)
    case BroadcastReturns(c) =>
      (match At(w, c)
       case Some(Broadcasting(id)) =>
         if id < |w.rows| && MovedTokens(w.chain, w.rows[id].tx)
           then Marking(w, c, id, Confirmed, Answered(Paid(w.rows[id].tx)))
           else w
       case _ => w)
    case BroadcastThrows(c) =>
      (match At(w, c)
       case Some(Marked(id)) => if id < |w.rows| then Marking(w, c, id, Unknown, Answered(Uncertain(w.rows[id].tx))) else w
       case Some(Broadcasting(id)) => if id < |w.rows| then Marking(w, c, id, Unknown, Answered(Uncertain(w.rows[id].tx))) else w
       case _ => w)
    case Drop(c) => w.(calls := w.calls - {c})
    case Resolve(payout, status, actor) => Resolving(w, payout, status, actor)
    case Land(tx, ok) => if CanLand(w.chain, tx) then w.(chain := w.chain.(landed := w.chain.landed[tx := ok])) else w
    case Tick(h) => if w.chain.height < h then w.(chain := w.chain.(height := h)) else w
  }

  /** The state after a whole run: any steps, in any order. */
  function Exec(steps: seq<Step>): World {
    if steps == [] then Start else Do(Exec(steps[..|steps| - 1]), steps[|steps| - 1])
  }

  // ----- the invariant, piece by piece -----

  ghost predicate RowMatchesTransfer(r: Row) {
    && BuiltFor(r.tx, r.order)
    && (r.lastValid.Some? ==> r.lastValid.value == r.tx.expires)
  }

  /** What a row's status says about the chain. */
  ghost predicate StatusTellsChain(r: Row, c: Chain) {
    && (r.status == Reserved ==> r.tx !in c.onWire)
    && (r.status == Confirmed ==> MovedTokens(c, r.tx))
    && (r.status == FailedUnsent ==> Dead(c, r.tx))
  }

  ghost predicate RowsTrue(w: World) {
    && |w.granted| == |w.rows|
    && forall i :: 0 <= i < |w.rows| ==>
      RowMatchesTransfer(w.rows[i]) && StatusTellsChain(w.rows[i], w.chain) && Authorises(w.granted[i], w.rows[i].order)
  }

  ghost predicate Journalled(w: World, tx: Transfer) {
    exists i :: 0 <= i < |w.rows| && w.rows[i].tx == tx
  }

  /** Nothing reaches the network before the journal has it, and nothing executes that did not reach the network. */
  ghost predicate WireJournalled(w: World) {
    && (forall tx :: tx in w.chain.onWire ==> Journalled(w, tx))
    && w.chain.landed.Keys <= w.chain.onWire
  }

  ghost predicate CallSound(w: World, c: Call) {
    match c
    case Arrived(_) => true
    case Building(o, limits, grant) => Authorises(grant, o) && LimitsHard(limits, grant, o)
    case Holding(id) => id < |w.rows|
    case Marked(id) => id < |w.rows| && w.rows[id].status != Reserved
    case Broadcasting(id) => id < |w.rows| && w.rows[id].status != Reserved
    case Answered(Paid(tx)) => exists i :: 0 <= i < |w.rows| && w.rows[i].tx == tx && w.rows[i].status == Confirmed
    case Answered(_) => true
  }

  ghost predicate CallsSound(w: World) {
    forall c :: c in w.calls ==> CallSound(w, w.calls[c])
  }

  /** A positive sum stays within the hard cap of its currency; an event's also within the pool of some statement paid from. */
  ghost predicate WithinCaps(w: World, s: Scope) {
    Committed(w.rows, s) > 0 ==>
      match s
      case OfEvent(pool, money) =>
        && HardCaps(money.currency).Some?
        && Committed(w.rows, s) <= HardCaps(money.currency).value.perEvent
        && exists i :: 0 <= i < |w.rows| && i < |w.granted| && InScope(w.rows[i].order, s) && Committed(w.rows, s) <= w.granted[i].req.statement.poolMinor
      case OfDay(money, day) =>
        HardCaps(money.currency).Some? && Committed(w.rows, s) <= HardCaps(money.currency).value.daily
  }

  ghost predicate Inv(w: World) {
    Distinct(w.rows) && RowsTrue(w) && WireJournalled(w) && CallsSound(w) && forall s :: WithinCaps(w, s)
  }

  // ----- each kind of change keeps it -----

  lemma RowsDiffer(rows: seq<Row>, i: int, j: int)
    requires Distinct(rows) && 0 <= i < |rows| && 0 <= j < |rows| && i != j
    ensures !SharesKey(rows[i], rows[j])
  {
    assert i < j ==> !SharesKey(rows[i], rows[j]);
    assert j < i ==> !SharesKey(rows[j], rows[i]);
  }

  /** Only the calls changed. */
  lemma CallChangeKeepsInv(w: World, w': World, c: nat)
    requires Inv(w)
    requires w'.rows == w.rows && w'.granted == w.granted && w'.chain == w.chain
    requires w'.calls == w.calls - {c} || (c in w'.calls && w'.calls == w.calls[c := w'.calls[c]] && CallSound(w, w'.calls[c]))
    ensures Inv(w')
  {
    forall s ensures WithinCaps(w', s) {
      assert WithinCaps(w, s);
    }
    forall tx | tx in w'.chain.onWire ensures Journalled(w', tx) {
      assert Journalled(w, tx);
    }
    forall k | k in w'.calls ensures CallSound(w', w'.calls[k]) {
      if k in w.calls && w'.calls[k] == w.calls[k] {
        assert CallSound(w, w.calls[k]);
      }
    }
  }

  lemma CallsOutliveMove(w: World, id: nat, to: Status, resolver: Option<Actor>, c: Call)
    requires id < |w.rows| && CallSound(w, c) && to != Reserved && !Final(w.rows[id].status)
    ensures CallSound(w.(rows := Moved(w.rows, id, to, resolver)), c)
  {
    var after := Moved(w.rows, id, to, resolver);
    if c.Answered? && c.outcome.Paid? {
      var i :| 0 <= i < |w.rows| && w.rows[i].tx == c.outcome.tx && w.rows[i].status == Confirmed;
      assert after[i] == w.rows[i];
    }
  }

  lemma MoveKeepsCaps(w: World, id: nat, to: Status, resolver: Option<Actor>, s: Scope)
    requires id < |w.rows| && |w.granted| == |w.rows| && !Final(w.rows[id].status) && WithinCaps(w, s)
    ensures WithinCaps(w.(rows := Moved(w.rows, id, to, resolver)), s)
  {
    CommittedAfterMove(w.rows, id, to, resolver, s);
    var after := Moved(w.rows, id, to, resolver);
    if Committed(after, s) > 0 && s.OfEvent? {
      var i :| 0 <= i < |w.rows| && InScope(w.rows[i].order, s) && Committed(w.rows, s) <= w.granted[i].req.statement.poolMinor;
      assert InScope(after[i].order, s);
    }
  }

  /** A status change that tells the truth about the chain. */
  lemma MoveKeepsInv(w: World, id: nat, to: Status, resolver: Option<Actor>)
    requires Inv(w) && id < |w.rows| && !Final(w.rows[id].status) && to != Reserved
    requires to == Confirmed ==> MovedTokens(w.chain, w.rows[id].tx)
    requires to == FailedUnsent ==> Dead(w.chain, w.rows[id].tx)
    ensures Inv(w.(rows := Moved(w.rows, id, to, resolver)))
  {
    var w' := w.(rows := Moved(w.rows, id, to, resolver));
    MoveKeepsDistinct(w.rows, id, to, resolver);
    forall s ensures WithinCaps(w', s) {
      MoveKeepsCaps(w, id, to, resolver, s);
    }
    forall tx | tx in w'.chain.onWire ensures Journalled(w', tx) {
      var i :| 0 <= i < |w.rows| && w.rows[i].tx == tx;
      assert w'.rows[i].tx == tx;
    }
    forall k | k in w'.calls ensures CallSound(w', w'.calls[k]) {
      CallsOutliveMove(w, id, to, resolver, w.calls[k]);
    }
  }

  lemma ReserveKeepsCaps(w: World, o: Order, tx: Transfer, lastValid: Option<nat>, limits: Limits, grant: Grant, s: Scope)
    requires |w.granted| == |w.rows| && WithinCaps(w, s)
    requires ReserveResult(w.rows, o, tx, limits).Inserted? && LimitsHard(limits, grant, o)
    ensures WithinCaps(w.(rows := AfterReserve(w.rows, o, tx, lastValid, limits), granted := w.granted + [grant]), s)
  {
    CommittedAfterReserve(w.rows, o, tx, lastValid, limits, s);
    var w' := w.(rows := AfterReserve(w.rows, o, tx, lastValid, limits), granted := w.granted + [grant]);
    if Committed(w'.rows, s) > 0 && s.OfEvent? {
      if InScope(o, s) {
        assert InScope(w'.rows[|w.rows|].order, s) && w'.granted[|w.rows|] == grant;
      } else {
        var i :| 0 <= i < |w.rows| && InScope(w.rows[i].order, s) && Committed(w.rows, s) <= w.granted[i].req.statement.poolMinor;
        assert w'.rows[i] == w.rows[i] && w'.granted[i] == w.granted[i];
      }
    }
  }

  ghost predicate Kept(before: World, after: World) {
    && |before.rows| <= |after.rows|
    && forall i :: 0 <= i < |before.rows| ==> after.rows[i] == before.rows[i]
  }

  lemma CallsOutliveInsert(before: World, after: World, c: Call)
    requires Kept(before, after) && CallSound(before, c)
    ensures CallSound(after, c)
  {
    if c.Answered? && c.outcome.Paid? {
      var i :| 0 <= i < |before.rows| && before.rows[i].tx == c.outcome.tx && before.rows[i].status == Confirmed;
      assert after.rows[i] == before.rows[i];
    }
  }

  lemma InsertedIsNew(w: World, o: Order, limits: Limits, tx: Transfer)
    requires WireJournalled(w) && ReserveResult(w.rows, o, tx, limits).Inserted?
    ensures tx !in w.chain.onWire
  {
    assert forall i :: 0 <= i < |w.rows| ==> w.rows[i].tx != tx;
    assert !Journalled(w, tx);
  }

  lemma InsertKeepsWire(w: World, w': World)
    requires WireJournalled(w) && Kept(w, w') && w'.chain == w.chain
    ensures WireJournalled(w')
  {
    forall t | t in w'.chain.onWire ensures Journalled(w', t) {
      assert Journalled(w, t);
      var i :| 0 <= i < |w.rows| && w.rows[i].tx == t;
      assert w'.rows[i].tx == t;
    }
  }

  lemma InsertKeepsCalls(w: World, w': World)
    requires CallsSound(w) && Kept(w, w') && w'.calls == w.calls
    ensures CallsSound(w')
  {
    forall k | k in w'.calls ensures CallSound(w', w'.calls[k]) {
      CallsOutliveInsert(w, w', w.calls[k]);
    }
  }

  /** The row a successful reserve adds: new to the chain, and authorised. */
  lemma InsertKeepsInv(w: World, o: Order, limits: Limits, grant: Grant, tx: Transfer, lastValid: Option<nat>)
    requires Inv(w) && Authorises(grant, o) && LimitsHard(limits, grant, o)
    requires BuiltFor(tx, o) && (lastValid.Some? ==> lastValid.value == tx.expires)
    requires ReserveResult(w.rows, o, tx, limits).Inserted?
    ensures Inv(w.(rows := AfterReserve(w.rows, o, tx, lastValid, limits), granted := w.granted + [grant]))
  {
    var w' := w.(rows := AfterReserve(w.rows, o, tx, lastValid, limits), granted := w.granted + [grant]);
    assert Kept(w, w');
    assert Distinct(w'.rows) by { ReserveKeepsDistinct(w.rows, o, tx, lastValid, limits); }
    forall s ensures WithinCaps(w', s) {
      ReserveKeepsCaps(w, o, tx, lastValid, limits, grant, s);
    }
    InsertKeepsWire(w, w');
    InsertKeepsCalls(w, w');
    assert RowsTrue(w') by { InsertedIsNew(w, o, limits, tx); }
  }

  lemma ReservingKeepsInv(w: World, c: nat, o: Order, limits: Limits, grant: Grant, tx: Transfer, lastValid: Option<nat>)
    requires Inv(w) && BuiltFor(tx, o) && Authorises(grant, o) && LimitsHard(limits, grant, o)
    requires lastValid.Some? ==> lastValid.value == tx.expires
    ensures Inv(Reserving(w, c, o, limits, grant, tx, lastValid))
  {
    hide Inv, Authorises, LimitsHard, Find;
    match ReserveResult(w.rows, o, tx, limits)
    case Refused(why) => CallChangeKeepsInv(w, Answering(w, c, Declined(HttpStatus(why))), c);
    case Violates => CallChangeKeepsInv(w, Answering(w, c, Threw), c);
    case Inserted(id) =>
      InsertKeepsInv(w, o, limits, grant, tx, lastValid);
      var inserted := w.(rows := AfterReserve(w.rows, o, tx, lastValid, limits), granted := w.granted + [grant]);
      CallChangeKeepsInv(inserted, inserted.(calls := inserted.calls[c := Holding(id)]), c);
  }

  lemma MarkingKeepsInv(w: World, c: nat, id: nat, to: Status, next: Call)
    requires Inv(w) && (to == Confirmed ==> id < |w.rows| && MovedTokens(w.chain, w.rows[id].tx))
    requires CanMove(w.rows, id, AutoFrom(to)) ==> CallSound(w.(rows := Moved(w.rows, id, to, None)), next)
    ensures Inv(Marking(w, c, id, to, next))
  {
    var w' := Marking(w, c, id, to, next);
    if CanMove(w.rows, id, AutoFrom(to)) {
      var mid := w.(rows := Moved(w.rows, id, to, None));
      MoveKeepsInv(w, id, to, None);
      CallChangeKeepsInv(mid, w', c);
    } else {
      CallChangeKeepsInv(w, w', c);
    }
  }

  /** The chain moved on: more on the wire or landed, a greater height. */
  lemma ChainChangeKeepsInv(w: World, chain: Chain)
    requires Inv(w)
    requires forall tx :: tx in chain.onWire ==> Journalled(w, tx)
    requires chain.landed.Keys <= chain.onWire
    requires forall i :: 0 <= i < |w.rows| ==> StatusTellsChain(w.rows[i], chain)
    ensures Inv(w.(chain := chain))
  {
    var w' := w.(chain := chain);
    forall s ensures WithinCaps(w', s) {
      assert WithinCaps(w, s);
    }
    forall tx | tx in chain.onWire ensures Journalled(w', tx) {
      assert Journalled(w, tx);
    }
    forall k | k in w'.calls ensures CallSound(w', w'.calls[k]) {
      assert CallSound(w, w.calls[k]);
    }
  }

  lemma LandingTellsTruth(r: Row, c: Chain, tx: Transfer, ok: bool)
    requires StatusTellsChain(r, c) && CanLand(c, tx)
    ensures StatusTellsChain(r, c.(landed := c.landed[tx := ok]))
  {
  }

  lemma LandKeepsInv(w: World, tx: Transfer, ok: bool)
    requires Inv(w)
    ensures Inv(Do(w, Land(tx, ok)))
  {
    if CanLand(w.chain, tx) {
      var chain := w.chain.(landed := w.chain.landed[tx := ok]);
      forall i | 0 <= i < |w.rows| ensures StatusTellsChain(w.rows[i], chain) {
        LandingTellsTruth(w.rows[i], w.chain, tx, ok);
      }
      assert Inv(w.(chain := chain)) by { ChainChangeKeepsInv(w, chain); }
    }
  }

  lemma TickKeepsInv(w: World, h: nat)
    requires Inv(w)
    ensures Inv(Do(w, Tick(h)))
  {
    if w.chain.height < h {
      ChainChangeKeepsInv(w, w.chain.(height := h));
    }
  }

  lemma WireKeepsInv(w: World, id: nat)
    requires Inv(w) && id < |w.rows| && w.rows[id].status != Reserved
    ensures Inv(w.(chain := w.chain.(onWire := w.chain.onWire + {w.rows[id].tx})))
  {
    var tx := w.rows[id].tx;
    var chain := w.chain.(onWire := w.chain.onWire + {tx});
    forall i | 0 <= i < |w.rows| ensures StatusTellsChain(w.rows[i], chain) {
      assert StatusTellsChain(w.rows[i], w.chain);
      if i != id { RowsDiffer(w.rows, i, id); }
    }
    assert Journalled(w, tx);
    ChainChangeKeepsInv(w, chain);
  }

  lemma SendKeepsInv(w: World, c: nat)
    requires Inv(w)
    ensures Inv(Do(w, Send(c)))
  {
    if c in w.calls && w.calls[c].Marked? {
      var id := w.calls[c].id;
      assert CallSound(w, w.calls[c]);
      WireKeepsInv(w, id);
      CallChangeKeepsInv(w.(chain := w.chain.(onWire := w.chain.onWire + {w.rows[id].tx})), Do(w, Send(c)), c);
    }
  }

  lemma ResolvingKeepsInv(w: World, payout: Uuid, status: ChainStatus, actor: Actor)
    requires Inv(w)
    ensures Inv(Resolving(w, payout, status, actor))
  {
    var i := Find(w.rows, ByPayout(payout));
    if i.Some? && Truthful(w.chain, w.rows[i.value].tx, status) {
      var r := w.rows[i.value];
      assert RowMatchesTransfer(r);
      DecideIsRight(w.chain, r, status);
      var d := Decide(r.status, r.lastValid, status);
      if d.Some? {
        MoveKeepsInv(w, i.value, d.value, Some(actor));
      }
    }
  }

  lemma BroadcastReturnsKeepsInv(w: World, c: nat)
    requires Inv(w)
    ensures Inv(Do(w, BroadcastReturns(c)))
  {
    if c in w.calls && w.calls[c].Broadcasting? {
      var id := w.calls[c].id;
      assert CallSound(w, w.calls[c]);
      if MovedTokens(w.chain, w.rows[id].tx) {
        assert Moved(w.rows, id, Confirmed, None)[id].status == Confirmed;
        MarkingKeepsInv(w, c, id, Confirmed, Answered(Paid(w.rows[id].tx)));
      }
    }
  }

  lemma BroadcastThrowsKeepsInv(w: World, c: nat)
    requires Inv(w)
    ensures Inv(Do(w, BroadcastThrows(c)))
  {
    if c in w.calls && (w.calls[c].Broadcasting? || w.calls[c].Marked?) {
      assert CallSound(w, w.calls[c]);
      MarkingKeepsInv(w, c, w.calls[c].id, Unknown, Answered(Uncertain(w.rows[w.calls[c].id].tx)));
    }
  }

  lemma CheckKeepsInv(w: World, c: nat, cfg: Config, now: int, day: nat)
    requires Inv(w)
    ensures Inv(Do(w, Step.Check(c, cfg, now, day)))
  {
    if c in w.calls && w.calls[c].Arrived? {
      var req := w.calls[c].req;
      BeginChecks(w.rows, cfg, req, now, day);
      var b := Begin(w.rows, cfg, req, now, day);
      if b.Answer? && b.outcome.Paid? { BeginAnswers(w.rows, cfg, req, now, day, b.outcome.tx); }
      CallChangeKeepsInv(w, Do(w, Step.Check(c, cfg, now, day)), c);
    }
  }

  lemma PreparedKeepsInv(w: World, c: nat, built: Option<(Transfer, bool)>)
    requires Inv(w)
    ensures Inv(Do(w, Prepared(c, built)))
  {
    if c in w.calls && w.calls[c].Building? {
      var Building(o, limits, grant) := w.calls[c];
      assert CallSound(w, w.calls[c]);
      if built.None? {
        CallChangeKeepsInv(w, Do(w, Prepared(c, built)), c);
      } else if BuiltFor(built.value.0, o) {
        ReservingKeepsInv(w, c, o, limits, grant, built.value.0, if built.value.1 then Some(built.value.0.expires) else None);
      }
    }
  }

  lemma MarkSentKeepsInv(w: World, c: nat)
    requires Inv(w)
    ensures Inv(Do(w, MarkSent(c)))
  {
    if c in w.calls && w.calls[c].Holding? {
      var id := w.calls[c].id;
      if CanMove(w.rows, id, AutoFrom(Sent)) {
        assert Moved(w.rows, id, Sent, None)[id].status == Sent;
      }
      MarkingKeepsInv(w, c, id, Sent, Marked(id));
    }
  }

  lemma ArriveKeepsInv(w: World, c: nat, req: Request)
    requires Inv(w)
    ensures Inv(Do(w, Arrive(c, req)))
  {
    if c !in w.calls { CallChangeKeepsInv(w, Do(w, Arrive(c, req)), c); }
  }

  lemma StepKeepsInv(w: World, s: Step)
    requires Inv(w)
    ensures Inv(Do(w, s))
  {
    match s
    case Arrive(c, req) => ArriveKeepsInv(w, c, req);
    case Check(c, cfg, now, day) => CheckKeepsInv(w, c, cfg, now, day);
    case Prepared(c, built) => PreparedKeepsInv(w, c, built);
    case MarkSent(c) => MarkSentKeepsInv(w, c);
    case Send(c) => SendKeepsInv(w, c);
    case BroadcastReturns(c) => BroadcastReturnsKeepsInv(w, c);
    case BroadcastThrows(c) => BroadcastThrowsKeepsInv(w, c);
    case Drop(c) => CallChangeKeepsInv(w, Do(w, s), c);
    case Resolve(payout, status, actor) => ResolvingKeepsInv(w, payout, status, actor);
    case Land(tx, ok) => LandKeepsInv(w, tx, ok);
    case Tick(h) => TickKeepsInv(w, h);
  }

  lemma {:induction false} EveryRun(steps: seq<Step>)
    ensures Inv(Exec(steps))
  {
    if steps != [] {
      EveryRun(steps[..|steps| - 1]);
      StepKeepsInv(Exec(steps[..|steps| - 1]), steps[|steps| - 1]);
    }
  }
}
