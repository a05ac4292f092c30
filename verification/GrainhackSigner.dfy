/**
 * The grainhack-signer's decisions: the ordered checks a payment request goes through, the caps, and
 * what each point between two awaits of `pay` does to the journal.
 */
module GrainhackSigner {
  import opened Basics
  import opened GrainhackJournal
  import opened GrainhackStatement

  // ----- caps: configuration may only lower them -----

  datatype Caps = Caps(perPayout: nat, perEvent: nat, daily: nat)

  /** What configuration asks for; a missing value asks for nothing. */
  datatype Wanted = Wanted(perPayout: Option<nat>, perEvent: Option<nat>, daily: Option<nat>)

  function HardCaps(currency: Currency): Option<Caps> {
    if currency == USDC then Some(Caps(500_000_000, 5_000_000_000, 2_500_000_000)) else None
  }

  function Lower(hard: nat, wanted: Option<nat>): nat {
    if wanted.Some? && 0 < wanted.value < hard then wanted.value else hard
  }

  function CapsFor(currency: Currency, wanted: Option<Wanted>): Option<Caps> {
    var hard := HardCaps(currency);
    if hard.None? then None
    else
      var w := if wanted.Some? then wanted.value else Wanted(None, None, None);
      Some(Caps(Lower(hard.value.perPayout, w.perPayout), Lower(hard.value.perEvent, w.perEvent), Lower(hard.value.daily, w.daily)))
  }

  // ----- requests -----

  datatype Terms = Terms(
    payout: Uuid, statement: Uuid, digest: Digest, winner: Winner, login: Login, recipient: Address,
    amount: nat, money: Money, mint: Address)

  /** Times are milliseconds; None is a date that does not parse. `genuine` is the verdict of the Ed25519
      check of the envelope under the approver's key. */
  datatype Approval = Approval(terms: Terms, approver: Address, approvedAt: Option<int>, expiresAt: Option<int>, signature: Signature, genuine: bool)

  /** `verifies` is the verdict of the results-key signature, canonical form and shape together. */
  datatype Request = Request(approval: Approval, statement: Statement, verifies: bool)

  datatype Config = Config(network: Network, mints: map<Currency, Address>, caps: map<Currency, Wanted>, approvers: set<Address>, float: Address)

  const ApprovalTtlMs: int := 60 * 60 * 1000

  predicate TermsShaped(t: Terms) {
    0 < t.amount && 0 < t.winner.user && t.mint.Solana?
  }

  /** A missing approval date makes the lifetime comparison NaN, which the source lets through. */
  predicate ApprovalHolds(a: Approval, approvers: set<Address>, now: int) {
    && a.approver in approvers
    && a.expiresAt.Some? && now < a.expiresAt.value
    && (a.approvedAt.Some? ==> a.expiresAt.value - a.approvedAt.value <= ApprovalTtlMs)
    && a.genuine
  }

  /** However they were approved and whenever they are checked, approvals with this approval date are over by then. */
  ghost predicate OverBy(approvedAt: Option<int>, bound: int) {
    forall a: Approval, approvers: set<Address>, now: int ::
      a.approvedAt == approvedAt && ApprovalHolds(a, approvers, now) ==> a.expiresAt.value <= bound
  }

  /** An approval date bounds the life of what it is on exactly when it parses; and then to ApprovalTtlMs. */
  lemma LifetimeBounded(approvedAt: Option<int>)
    ensures (exists bound :: OverBy(approvedAt, bound)) <==> approvedAt.Some?
    ensures approvedAt.Some? ==> OverBy(approvedAt, approvedAt.value + ApprovalTtlMs)
  {
    if approvedAt.None? {
      forall bound ensures !OverBy(approvedAt, bound) { Outlives(bound); }
    } else {
      assert OverBy(approvedAt, approvedAt.value + ApprovalTtlMs);
    }
  }

  /** Signed by a trusted approver, with a date that does not parse: accepted, and still good after any given time. */
  lemma Outlives(bound: int)
    ensures
      var u := Uuid(0);
      var terms := Terms(u, u, Digest(0), Winner(EventPool(u, Contributor), 1), Login(1), Solana(1), 1, Money(USDC, Devnet), Solana(2));
      var a := Approval(terms, Solana(3), None, Some(bound + 1), Signature(0), true);
      ApprovalHolds(a, {Solana(3)}, bound) && a.expiresAt.value > bound
    ensures !OverBy(None, bound)
  {
    var u := Uuid(0);
    var terms := Terms(u, u, Digest(0), Winner(EventPool(u, Contributor), 1), Login(1), Solana(1), 1, Money(USDC, Devnet), Solana(2));
    var a := Approval(terms, Solana(3), None, Some(bound + 1), Signature(0), true);
    assert a.approvedAt == None && ApprovalHolds(a, {Solana(3)}, bound);
  }

  function OrderFor(req: Request, day: nat): Order {
    var t := req.approval.terms;
    Order(t.payout, req.approval.signature, req.approval.approver, t.statement, t.digest, t.winner, t.login, t.recipient, t.money, t.mint, t.amount, day)
  }

  datatype Outcome =
    | Paid(tx: Transfer)
    | Declined(status: nat)
    | Uncertain(tx: Transfer)
    | Threw

  datatype Start = Answer(outcome: Outcome) | Build(order: Order, limits: Limits)

  /** `pay` up to its first await: every check, in the contract's order, then the journal's own. */
  function Begin(rows: seq<Row>, cfg: Config, req: Request, now: int, day: nat): Start {
    var t := req.approval.terms;
    var st := req.statement;
    if !TermsShaped(t) then Answer(Declined(400))
    else if !ApprovalHolds(req.approval, cfg.approvers, now) then Answer(Declined(403))
    else if !req.verifies || st.digest != t.digest || st.id != t.statement || st.pool != t.winner.pool then Answer(Declined(403))
    else if st.money.network != cfg.network || t.money.network != cfg.network then Answer(Declined(403))
    else if st.money.currency != t.money.currency then Answer(Declined(403))
    else if t.money.currency !in cfg.mints || cfg.mints[t.money.currency] != t.mint then Answer(Declined(403))
    else
      var line := LineFor(st.lines, t.winner.user);
      if line.None? || line.value.status != Payable || line.value.amount != t.amount || line.value.login != t.login then Answer(Declined(403))
      else if !t.recipient.Solana? then Answer(Declined(400))
      else if t.recipient == cfg.float then Answer(Declined(403))
      else
        var caps := CapsFor(t.money.currency, if t.money.currency in cfg.caps then Some(cfg.caps[t.money.currency]) else None);
        if caps.None? || caps.value.perPayout < t.amount then Answer(Declined(403))
        else
          var limits := Limits(Min(st.poolMinor, caps.value.perEvent), caps.value.daily);
          var o := OrderFor(req, day);
          var replay := Find(rows, ByPayout(t.payout));
          if replay.Some? && rows[replay.value].order.approval == req.approval.signature && rows[replay.value].status == Confirmed
            then Answer(Paid(rows[replay.value].tx))
          else
            var refused := Check(rows, o, limits);
            if refused.Some? then Answer(Declined(HttpStatus(refused.value))) else Build(o, limits)
  }

  /** The request that created a row, with the configuration and clock it was judged by. */
  datatype Grant = Grant(req: Request, cfg: Config, now: int)

  /** What a person and the backend must both have signed for this exact payment. */
  predicate Authorises(g: Grant, o: Order) {
    var t := g.req.approval.terms;
    && ApprovalHolds(g.req.approval, g.cfg.approvers, g.now)
    && g.req.verifies && g.req.statement.digest == t.digest && g.req.statement.id == t.statement
    && g.req.statement.pool == o.winner.pool && g.req.statement.money == o.money && o.money.network == g.cfg.network
    && o == OrderFor(g.req, o.day)
    && LineFor(g.req.statement.lines, o.winner.user) == Some(Line(o.winner.user, o.login, o.amount, Payable))
    && 0 < o.amount && o.recipient.Solana? && o.recipient != g.cfg.float
  }

  ghost predicate LimitsHard(limits: Limits, g: Grant, o: Order) {
    && HardCaps(o.money.currency).Some?
    && limits.eventMax <= HardCaps(o.money.currency).value.perEvent
    && limits.eventMax <= g.req.statement.poolMinor
    && limits.dailyMax <= HardCaps(o.money.currency).value.daily
    && o.amount <= HardCaps(o.money.currency).value.perPayout
  }

  /** Only a request that both a trusted approver and the results key stand behind gets as far as building a transfer. */
  lemma BeginChecks(rows: seq<Row>, cfg: Config, req: Request, now: int, day: nat)
    ensures
      var s := Begin(rows, cfg, req, now, day);
      s.Build? ==>
        && Authorises(Grant(req, cfg, now), s.order)
        && LimitsHard(s.limits, Grant(req, cfg, now), s.order)
        && Check(rows, s.order, s.limits).None?
  {
    var t := req.approval.terms;
    var line := LineFor(req.statement.lines, t.winner.user);
    if Begin(rows, cfg, req, now, day).Build? {
      assert line.value == Line(t.winner.user, t.login, t.amount, Payable);
    }
  }

  /** An answer before the first await never claims a payment the journal does not show as confirmed under this approval. */
  lemma BeginAnswers(rows: seq<Row>, cfg: Config, req: Request, now: int, day: nat, tx: Transfer)
    requires Begin(rows, cfg, req, now, day) == Answer(Paid(tx))
    ensures exists i :: (0 <= i < |rows| && rows[i].tx == tx && rows[i].status == Confirmed
      && rows[i].order.payout == req.approval.terms.payout && rows[i].order.approval == req.approval.signature)
  {
    var i := Find(rows, ByPayout(req.approval.terms.payout));
    assert rows[i.value].tx == tx;
  }

  // ----- the chain, and settling an outcome from it -----

  /** `onWire` were handed to the network at least once; `landed` says which executed, and whether without error. */
  datatype Chain = Chain(height: nat, onWire: set<Transfer>, landed: map<Transfer, bool>)

  predicate MovedTokens(c: Chain, tx: Transfer) {
    tx in c.landed && c.landed[tx]
  }

  /** It has not moved tokens, and never can. */
  predicate Dead(c: Chain, tx: Transfer) {
    if tx in c.landed then !c.landed[tx] else tx.expires < c.height
  }

  predicate CanLand(c: Chain, tx: Transfer) {
    tx in c.onWire && tx !in c.landed && c.height <= tx.expires
  }

  datatype Commitment = Processed | ConfirmedAt | Finalized

  datatype ChainStatus = NotFound(finalizedHeight: nat) | Found(err: bool, commitment: Option<Commitment>)

  /** One consistent snapshot: a status seen at confirmed or finalized commitment is what executed, and
      "not found" goes with a height the chain had then. */
  predicate Truthful(c: Chain, tx: Transfer, s: ChainStatus) {
    match s
    case NotFound(h) => tx !in c.landed && h <= c.height
    case Found(err, Some(ConfirmedAt)) => tx in c.landed && c.landed[tx] == !err
    case Found(err, Some(Finalized)) => tx in c.landed && c.landed[tx] == !err
    case Found(_, _) => true
  }

  function Decide(status: Status, lastValid: Option<nat>, s: ChainStatus): Option<Status> {
    if Final(status) then None
    else
      match s
      case Found(err, c) =>
        if c != Some(ConfirmedAt) && c != Some(Finalized) then None
        else if !err then Some(Confirmed) else Some(FailedUnsent)
      case NotFound(h) =>
        if lastValid.Some? && lastValid.value < h then Some(FailedUnsent) else None
  }

  /** On a consistent snapshot the decision is right for good: confirmed has landed, and failed_unsent never will. */
  lemma DecideIsRight(c: Chain, r: Row, s: ChainStatus)
    requires Truthful(c, r.tx, s)
    requires r.lastValid.Some? ==> r.lastValid.value == r.tx.expires
    ensures Decide(r.status, r.lastValid, s) == Some(Confirmed) ==> MovedTokens(c, r.tx)
    ensures Decide(r.status, r.lastValid, s) == Some(FailedUnsent) ==> Dead(c, r.tx)
    ensures Decide(r.status, r.lastValid, s) in {None, Some(Confirmed), Some(FailedUnsent)}
  {
  }

  /** What the tool can settle: everything not final that either landed, or whose recorded expiry is behind the finalized height. */
  lemma DecideSettlesExactly(c: Chain, r: Row, finalized: nat)
    requires finalized <= c.height
    ensures
      var s := if r.tx in c.landed then Found(!c.landed[r.tx], Some(Finalized)) else NotFound(finalized);
      Decide(r.status, r.lastValid, s).Some? <==>
        !Final(r.status) && (r.tx in c.landed || (r.lastValid.Some? && r.lastValid.value < finalized))
  {
  }
}
