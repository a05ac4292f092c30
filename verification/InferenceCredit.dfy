/** Surplus credit: the gateway's account of what a wallet has paid in, and the client's estimate of it. */
module InferenceCredit {
  import opened Basics
  import Budget = InferenceBudget
  import Signer = InferenceSigner

  // ----- the gateway -----

  datatype Scheme = Balance | Onchain

  datatype StoredQuote = StoredQuote(cap: nat, body: nat, expires: int)

  datatype Transfer = Transfer(toGateway: bool, amount: nat, visibleAt: int)

  /** `counted` is what an on-chain payment brings in: the cap, or all of it where the policy credits overpayment. */
  datatype Settlement = Settlement(quote: Budget.Quote, scheme: Scheme, wallet: nat, counted: nat, charged: nat)

  datatype Failure = UnknownQuote | QuoteMismatch | QuoteExpired | BadProof | BalanceInsufficient | TxNotFound | SignatureReplayed | Underpaid

  datatype Settled = Served(charged: nat, credited: nat, balance: nat) | Fails(why: Failure)

  function PaidIn(done: seq<Settlement>, wallet: nat): nat {
    if done == [] then 0
    else
      var last := done[|done| - 1];
      PaidIn(done[..|done| - 1], wallet) + if last.wallet == wallet && last.scheme == Onchain then last.counted else 0
  }

  function Charged(done: seq<Settlement>, wallet: nat): nat {
    if done == [] then 0
    else
      var last := done[|done| - 1];
      Charged(done[..|done| - 1], wallet) + if last.wallet == wallet then last.charged else 0
  }

  function BalanceIn(balances: map<nat, nat>, wallet: nat): nat {
    if wallet in balances then balances[wallet] else 0
  }

  /** Every balance is exactly what was paid in on-chain less what was charged. */
  ghost predicate BalancesTrue(balances: map<nat, nat>, done: seq<Settlement>) {
    forall w: nat :: BalanceIn(balances, w) == PaidIn(done, w) - Charged(done, w)
  }

  /** No quote is served twice. */
  ghost predicate ServedOnce(done: seq<Settlement>, quotes: set<Budget.Quote>) {
    && (forall k :: 0 <= k < |done| ==> done[k].quote in quotes)
    && (forall j, k :: 0 <= j < k < |done| ==> done[j].quote != done[k].quote)
  }

  lemma BalancesAfter(balances: map<nat, nat>, done: seq<Settlement>, s: Settlement, left: nat)
    requires BalancesTrue(balances, done)
    requires left == BalanceIn(balances, s.wallet) + (if s.scheme == Onchain then s.counted else 0) - s.charged
    ensures BalancesTrue(balances[s.wallet := left], done + [s])
  {
    assert (done + [s])[..|done|] == done;
    forall w: nat ensures BalanceIn(balances[s.wallet := left], w) == PaidIn(done + [s], w) - Charged(done + [s], w) {
      assert BalanceIn(balances, w) == PaidIn(done, w) - Charged(done, w);
    }
  }

  lemma ServedAfter(done: seq<Settlement>, quotes: set<Budget.Quote>, s: Settlement)
    requires ServedOnce(done, quotes) && s.quote !in quotes
    ensures ServedOnce(done + [s], quotes + {s.quote})
  {
  }

  class Gateway {
    var quotes: map<Budget.Quote, StoredQuote>
    var transfers: map<nat, Transfer>
    var used: set<nat>
    var settledQuotes: set<Budget.Quote>
    var balances: map<nat, nat>
    var settlements: seq<Settlement>
    const creditsOverpay: bool

    ghost predicate Valid()
      reads this
    {
      BalancesTrue(balances, settlements) && ServedOnce(settlements, settledQuotes)
    }

    constructor (creditsOverpay: bool)
      ensures Valid() && balances == map[] && settlements == [] && this.creditsOverpay == creditsOverpay
    {
      quotes, transfers, used, settledQuotes, balances, settlements := map[], map[], {}, {}, map[], [];
      this.creditsOverpay := creditsOverpay;
    }

    /** The second request for a quote. `price` is what the tokens cost; never more than the cap is charged. */
    method Settle(now: int, quote: Budget.Quote, body: nat, scheme: Scheme, wallet: nat, proofOk: bool, sig: nat, price: nat) returns (r: Settled)
      requires Valid()
      modifies this`used, this`settledQuotes, this`balances, this`settlements
      ensures Valid()
      ensures r.Fails? ==> balances == old(balances) && settlements == old(settlements) && settledQuotes == old(settledQuotes) && used == old(used)
      ensures r.Fails? && r.why == BalanceInsufficient ==> scheme == Balance && quote in quotes && BalanceIn(balances, wallet) < quotes[quote].cap
      ensures r.Served? ==>
        && quote in quotes && quote !in old(settledQuotes) && quote in settledQuotes && now < quotes[quote].expires
        && r.charged == Min(price, quotes[quote].cap) && r.balance == BalanceIn(balances, wallet)
        && |settlements| == |old(settlements)| + 1
        && (forall w: nat :: w != wallet ==> BalanceIn(balances, w) == BalanceIn(old(balances), w))
      ensures r.Served? && scheme == Balance ==>
        BalanceIn(old(balances), wallet) >= quotes[quote].cap && BalanceIn(balances, wallet) == BalanceIn(old(balances), wallet) - r.charged
      ensures r.Served? && scheme == Onchain ==>
        && sig !in old(used) && sig in used && sig in transfers && transfers[sig].amount >= quotes[quote].cap
        && BalanceIn(balances, wallet) == BalanceIn(old(balances), wallet) + (if creditsOverpay then transfers[sig].amount else quotes[quote].cap) - r.charged
    {
      hide BalancesTrue, ServedOnce;
      if quote !in quotes || quote in settledQuotes {
        return Fails(UnknownQuote);
      }
      var q := quotes[quote];
      if q.body != body {
        return Fails(QuoteMismatch);
      }
      if q.expires <= now {
        return Fails(QuoteExpired);
      }
      var counted := q.cap;
      var held := BalanceIn(balances, wallet);
      if scheme == Balance {
        if !proofOk {
          return Fails(BadProof);
        }
        if held < q.cap {
          return Fails(BalanceInsufficient);
        }
        held := held - q.cap;
      } else {
        if sig !in transfers || transfers[sig].visibleAt > now {
          return Fails(TxNotFound);
        }
        if sig in used {
          return Fails(SignatureReplayed);
        }
        if !transfers[sig].toGateway || transfers[sig].amount < q.cap {
          return Fails(Underpaid);
        }
        used := used + {sig};
        if creditsOverpay {
          counted := transfers[sig].amount;
        }
      }
      var actual := Min(price, q.cap);
      var credited := q.cap - actual + (counted - q.cap);
      var done := Settlement(quote, scheme, wallet, counted, actual);
      BalancesAfter(balances, settlements, done, held + credited);
      ServedAfter(settlements, settledQuotes, done);
      balances := balances[wallet := held + credited];
      settledQuotes := settledQuotes + {quote};
      settlements := settlements + [done];
      r := Served(actual, credited, balances[wallet]);
    }
  }

  // ----- the client's estimate -----

  /** None is "unknown, so try": the client starts there. */
  predicate Covers(estimate: Option<nat>, balance: nat) {
    estimate.None? || balance <= estimate.value
  }

  predicate WorthTrying(estimate: Option<nat>, cap: nat) {
    estimate.None? || cap <= estimate.value
  }

  /** Told that its credit does not cover this cap, the client assumes one unit less. */
  function AfterRefusal(cap: nat): Option<nat> {
    Some(Max(0, cap - 1))
  }

  /** What a served call's receipt does to the estimate; either figure may be missing from it. */
  function AfterReceipt(estimate: Option<nat>, scheme: Scheme, cap: nat, reported: Option<nat>, charged: Option<nat>): Option<nat> {
    if reported.Some? then reported
    else if estimate.None? then None
    else if scheme == Balance then Some(Max(0, estimate.value - if charged.Some? then charged.value else cap))
    else if charged.Some? && charged.value < cap then Some(estimate.value + cap - charged.value)
    else estimate
  }

  /** A receipt keeps the estimate at or above the balance exactly when it carries the balance, or the charge, or the
      charge was the whole cap, or there was slack enough. */
  lemma ReceiptKeepsCover(estimate: Option<nat>, before: nat, scheme: Scheme, cap: nat, charged: nat, balanceReported: bool, chargeReported: bool)
    requires Covers(estimate, before) && charged <= cap && (scheme == Balance ==> cap <= before)
    ensures
      var after := if scheme == Balance then before - charged else before + cap - charged;
      var next := AfterReceipt(estimate, scheme, cap, if balanceReported then Some(after) else None, if chargeReported then Some(charged) else None);
      Covers(next, after) <==> estimate.None? || balanceReported || chargeReported || charged == cap || after <= (if scheme == Balance then estimate.value - cap else estimate.value)
  {
  }

  // ----- the estimate and the balance over whole runs -----

  datatype Credit = Credit(estimate: Option<nat>, balance: nat)

  /** One call: what it may cost and does cost, and how it goes. `credible`: the gateway answers a spend of credit, and
      refuses it only for want of credit. `served`: an on-chain payment is made and served. `delivered`: the reply of a
      served call arrives, with the figures it reports. */
  datatype CallEvent = CallEvent(cap: nat, cost: nat, credible: bool, served: bool, delivered: bool, reportsBalance: bool, reportsCharge: bool) {
    function Charged(): nat {
      Min(cost, cap)
    }
  }

  datatype Way = Broken | FromCredit | ToChain

  function WayOf(c: Credit, e: CallEvent): Way {
    if !WorthTrying(c.estimate, e.cap) then ToChain
    else if !e.credible then Broken
    else if e.cap <= c.balance then FromCredit
    else ToChain
  }

  /** A client that goes on to pay has either just been refused, or known better than to ask. */
  function EstimateAtChain(c: Credit, e: CallEvent): (estimate: Option<nat>)
    ensures estimate.Some?
  {
    if WorthTrying(c.estimate, e.cap) then AfterRefusal(e.cap) else c.estimate
  }

  function Receipted(estimate: Option<nat>, e: CallEvent, scheme: Scheme, balance: nat): Option<nat> {
    if e.delivered
      then AfterReceipt(estimate, scheme, e.cap, if e.reportsBalance then Some(balance) else None, if e.reportsCharge then Some(e.Charged()) else None)
      else estimate
  }

  function AfterCall(c: Credit, e: CallEvent): Credit {
    match WayOf(c, e)
    case Broken => c
    case FromCredit =>
      var left := c.balance - e.Charged();
      Credit(Receipted(c.estimate, e, Balance, left), left)
    case ToChain =>
      var left := if e.served then c.balance + e.cap - e.Charged() else c.balance;
      Credit(if e.served then Receipted(EstimateAtChain(c, e), e, Onchain, left) else EstimateAtChain(c, e), left)
  }

  /** The three ways, each with what decides it; and a call that is not served. */
  lemma CallCases(c: Credit, e: CallEvent)
    ensures WorthTrying(c.estimate, e.cap) ==> AfterCall(c, e.(credible := false, served := false)) == c
    ensures WorthTrying(c.estimate, e.cap) && e.credible && e.cap <= c.balance ==>
      && AfterCall(c, e) == AfterCall(c, e.(served := false))
      && AfterCall(c, e) == Credit(Receipted(c.estimate, e, Balance, c.balance - e.Charged()), c.balance - e.Charged())
    ensures !WorthTrying(c.estimate, e.cap) || (e.credible && c.balance < e.cap) ==>
      && AfterCall(c, e.(served := false)) == Credit(EstimateAtChain(c, e), c.balance)
      && AfterCall(c, e.(served := true)) ==
           Credit(Receipted(EstimateAtChain(c, e), e, Onchain, c.balance + e.cap - e.Charged()), c.balance + e.cap - e.Charged())
  {
  }

  /** A new client, at a gateway that holds nothing for its wallet. */
  function CreditAfter(events: seq<CallEvent>): Credit {
    if events == [] then Credit(None, 0) else AfterCall(CreditAfter(events[..|events| - 1]), events[|events| - 1])
  }

  /** It pays on-chain for what its credit would have covered. */
  predicate Wasteful(c: Credit, e: CallEvent) {
    WayOf(c, e) == ToChain && e.cap <= c.balance
  }

  /** The gateway serves the call, no figure of what it left reaches the client, and it left more than the client assumes. */
  predicate LosesCredit(c: Credit, e: CallEvent) {
    match WayOf(c, e)
    case Broken => false
    case FromCredit => e.delivered && !e.reportsBalance && !e.reportsCharge && c.estimate.Some? && c.estimate.value - e.cap < c.balance - e.Charged()
    case ToChain => e.served && !(e.delivered && (e.reportsBalance || e.reportsCharge)) && EstimateAtChain(c, e).value < c.balance + e.cap - e.Charged()
  }

  lemma CoverIsThrift(c: Credit)
    ensures Covers(c.estimate, c.balance) <==> forall e :: !Wasteful(c, e)
  {
    if !Covers(c.estimate, c.balance) {
      assert Wasteful(c, CallEvent(c.balance, 0, true, true, true, true, true));
    }
  }

  lemma CallCovers(c: Credit, e: CallEvent)
    requires Covers(c.estimate, c.balance)
    ensures
      var after := AfterCall(c, e);
      Covers(after.estimate, after.balance) <==> !LosesCredit(c, e)
  {
  }

  ghost predicate ThriftyThroughout(events: seq<CallEvent>) {
    forall n: nat, e :: n <= |events| ==> !Wasteful(CreditAfter(events[..n]), e)
  }

  ghost predicate NeverLoses(events: seq<CallEvent>) {
    forall n :: 0 <= n < |events| ==> !LosesCredit(CreditAfter(events[..n]), events[n])
  }

  /** Over every sequence of calls from a new client: at no point would it pay on-chain for what its credit covers,
      whatever it is asked next, exactly when no call lost sight of credit. */
  lemma ThriftyExactly(events: seq<CallEvent>)
    ensures ThriftyThroughout(events) <==> NeverLoses(events)
  {
    hide Wasteful, LosesCredit, Covers, AfterCall;
    if NeverLoses(events) {
      forall n: nat, e | n <= |events| ensures !Wasteful(CreditAfter(events[..n]), e) {
        CoversWhileNothingLost(events, n);
        CoverIsThrift(CreditAfter(events[..n]));
      }
    } else {
      var n := FirstLoss(events);
      CoversWhileNothingLost(events, n);
      CallCovers(CreditAfter(events[..n]), events[n]);
      assert events[..n + 1][..n] == events[..n];
      CoverIsThrift(CreditAfter(events[..n + 1]));
    }
  }

  lemma {:induction false} CoversWhileNothingLost(events: seq<CallEvent>, n: nat)
    requires n <= |events| && forall m :: 0 <= m < n ==> !LosesCredit(CreditAfter(events[..m]), events[m])
    ensures
      var c := CreditAfter(events[..n]);
      Covers(c.estimate, c.balance)
  {
    if n > 0 {
      CoversWhileNothingLost(events, n - 1);
      assert events[..n][..n - 1] == events[..n - 1];
      CallCovers(CreditAfter(events[..n - 1]), events[n - 1]);
    }
  }

  lemma FirstLoss(events: seq<CallEvent>) returns (n: nat)
    requires !NeverLoses(events)
    ensures n < |events| && LosesCredit(CreditAfter(events[..n]), events[n])
    ensures forall m :: 0 <= m < n ==> !LosesCredit(CreditAfter(events[..m]), events[m])
  {
    hide LosesCredit, CreditAfter;
    n := 0;
    while n < |events| && !LosesCredit(CreditAfter(events[..n]), events[n])
      invariant n <= |events| && forall m :: 0 <= m < n ==> !LosesCredit(CreditAfter(events[..m]), events[m])
    {
      n := n + 1;
    }
  }

  /** So with every reply delivered and its charge or balance reported, it never does. */
  lemma ThriftyWhenTold(events: seq<CallEvent>)
    requires forall k :: 0 <= k < |events| ==> events[k].delivered && (events[k].reportsBalance || events[k].reportsCharge)
    ensures ThriftyThroughout(events)
  {
    ThriftyExactly(events);
    assert NeverLoses(events);
  }

  /** One lost reply is enough: a payment of 20 that cost 1 is served, the reply is lost, and the next call, which the 19
      left would cover, is paid on-chain. */
  lemma LostReplyCosts()
    ensures
      var first := CallEvent(10, 10, true, true, true, false, true);
      var lost := CallEvent(20, 1, true, true, false, false, true);
      var next := CallEvent(15, 15, true, true, true, false, true);
      CreditAfter([first, lost]) == Credit(Some(9), 19) && Wasteful(CreditAfter([first, lost]), next)
  {
    var first := CallEvent(10, 10, true, true, true, false, true);
    var lost := CallEvent(20, 1, true, true, false, false, true);
    assert [first][..0] == [] && [first, lost][..1] == [first];
    assert CreditAfter([first]) == Credit(Some(9), 0);
  }

  // ----- the client -----

  datatype CallResult =
    | ServedFromCredit | ServedOnchain | Failed | RefusedBudget | RefusedSigner | PaymentUnknown | Overpaid | PaidNotServed
    | LostFromCredit | LostOnchain

  const MAX_RETRIES: nat := 8

  class Client {
    var surplus: Option<nat>
    const wallet: nat
    const price: real

    constructor (wallet: nat, price: real)
      ensures surplus == None && this.wallet == wallet && this.price == price
    {
      surplus := None;
      this.wallet := wallet;
      this.price := price;
    }

    /** What the client believes and what the gateway holds. */
    ghost function CreditAt(g: Gateway): Credit
      reads this, g
    {
      Credit(surplus, BalanceIn(g.balances, wallet))
    }

    /** One call after its quote, by the wallet's only spender: it is one call of the runs above, and what the budget
        counts grows by at most the cap and the fee reserve, only for an on-chain payment, unless the signer overpaid. No
        credit is spent without the signer's proof. */
    method Call(g: Gateway, ledger: Budget.SpendLedger, signer: Signer.Signer, quote: Budget.Quote, body: nat, p: Budget.Phase, wellFormed: bool, proofOk: bool,
                pay: Signer.Answer, sig: nat, cost: nat, delivered: bool, reportsBalance: bool, reportsCharge: bool, clock: seq<int>) returns (r: CallResult)
      requires g.Valid() && ledger.Valid() && 0.0 <= price && |clock| == MAX_RETRIES + 2
      requires quote in g.quotes
      requires pay.Paid? ==> pay.fee <= Signer.LamportsToMicroCeil(Signer.FEE_RESERVE_LAMPORTS, price)
      requires pay.Paid? && sig in g.transfers ==> g.transfers[sig].amount == pay.amount
      modifies this`surplus, g, ledger, signer.journal`proofs
      ensures g.Valid() && (r != Overpaid ==> ledger.Valid())
      ensures CreditAt(g) == AfterCall(old(CreditAt(g)),
        CallEvent(old(g.quotes)[quote].cap, cost, r != Failed, r in {ServedOnchain, LostOnchain}, delivered, reportsBalance, reportsCharge))
      ensures r in {ServedFromCredit, LostFromCredit, Failed} ==> WorthTrying(old(surplus), old(g.quotes)[quote].cap) && ledger.rows == old(ledger.rows)
      ensures r in {ServedFromCredit, LostFromCredit} ==>
        old(g.quotes)[quote].cap <= old(BalanceIn(g.balances, wallet)) && Signer.MayProve(signer.journal.rows, signer.cfg.ceiling)
      ensures r in {ServedOnchain, LostOnchain, RefusedBudget, RefusedSigner, PaymentUnknown, Overpaid, PaidNotServed} ==>
        !WorthTrying(old(surplus), old(g.quotes)[quote].cap) || old(BalanceIn(g.balances, wallet)) < old(g.quotes)[quote].cap
      ensures r in {ServedFromCredit, ServedOnchain, LostFromCredit, LostOnchain} <==> |g.settlements| == |old(g.settlements)| + 1
      ensures r in {ServedFromCredit, ServedOnchain} ==> delivered
      ensures r in {LostFromCredit, LostOnchain} ==> !delivered
      ensures !(r in {ServedFromCredit, LostFromCredit, Failed}) ==>
        BudgetAfter(old(ledger.rows), ledger.rows, pay, old(g.quotes)[quote].cap, Signer.LamportsToMicroCeil(Signer.FEE_RESERVE_LAMPORTS, price), r)
    {
      hide Signer.LamportsToMicroCeil, AfterCall, BudgetAfter, BalancesTrue, ServedOnce, Receipted;
      var cap := g.quotes[quote].cap;
      ghost var before, e := CreditAt(g), CallEvent(cap, cost, true, true, delivered, reportsBalance, reportsCharge);
      CallCases(before, e);
      if WorthTrying(surplus, cap) {
        var spent := SpendCredit(g, signer, quote, body, wellFormed, proofOk, sig, cost, delivered, reportsBalance, reportsCharge, clock[0]);
        if spent.Some? {
          return spent.value;
        }
      }
      r := PayOnchain(g, ledger, quote, body, p, pay, sig, cost, delivered, reportsBalance, reportsCharge, clock[1..]);
    }

    /** The signer's proof and a request with it: served, lost, broken off, or refused because there is too little. */
    method SpendCredit(g: Gateway, signer: Signer.Signer, quote: Budget.Quote, body: nat, wellFormed: bool, proofOk: bool, sig: nat,
                       cost: nat, delivered: bool, reportsBalance: bool, reportsCharge: bool, now: int) returns (r: Option<CallResult>)
      requires g.Valid() && quote in g.quotes
      modifies this`surplus, g`used, g`settledQuotes, g`balances, g`settlements, signer.journal`proofs
      ensures g.Valid() && r in {None, Some(Failed), Some(ServedFromCredit), Some(LostFromCredit)}
      ensures r == None ==>
        && old(BalanceIn(g.balances, wallet)) < g.quotes[quote].cap && g.settlements == old(g.settlements)
        && CreditAt(g) == Credit(AfterRefusal(g.quotes[quote].cap), old(BalanceIn(g.balances, wallet)))
      ensures r == Some(Failed) ==> CreditAt(g) == old(CreditAt(g)) && g.settlements == old(g.settlements)
      ensures r in {Some(ServedFromCredit), Some(LostFromCredit)} ==>
        var e := CallEvent(g.quotes[quote].cap, cost, true, true, delivered, reportsBalance, reportsCharge);
        var left := old(BalanceIn(g.balances, wallet)) - e.Charged();
        && e.cap <= old(BalanceIn(g.balances, wallet)) && (r == Some(ServedFromCredit) <==> delivered)
        && |g.settlements| == |old(g.settlements)| + 1 && Signer.MayProve(signer.journal.rows, signer.cfg.ceiling)
        && CreditAt(g) == Credit(Receipted(old(surplus), e, Balance, left), left)
    {
      hide BalancesTrue, ServedOnce;
      var proof := signer.BalanceProof(quote, wellFormed);
      if !proof {
        return Some(Failed);
      }
      var cap := g.quotes[quote].cap;
      var spent := g.Settle(now, quote, body, Balance, wallet, proofOk, sig, cost);
      if spent.Served? {
        if !delivered {
          return Some(LostFromCredit);
        }
        surplus := AfterReceipt(surplus, Balance, cap, if reportsBalance then Some(spent.balance) else None, if reportsCharge then Some(spent.charged) else None);
        return Some(ServedFromCredit);
      }
      if spent.why != BalanceInsufficient {
        return Some(Failed);
      }
      surplus := AfterRefusal(cap);
      r := None;
    }

    /** What the budget counts once a call has tried to pay on-chain. */
    ghost predicate BudgetAfter(before: seq<Budget.Spend>, after: seq<Budget.Spend>, pay: Signer.Answer, cap: nat, reserve: nat, r: CallResult) {
      && (r == RefusedBudget ==> after == before)
      && (r == RefusedSigner ==> Budget.Lifetime(after) == Budget.Lifetime(before))
      && (r in {ServedOnchain, LostOnchain, Overpaid, PaidNotServed} ==> pay.Paid? && Budget.Lifetime(after) == Budget.Lifetime(before) + pay.amount + pay.fee)
      && (r == Overpaid ==> pay.Paid? && cap < pay.amount)
      && (r == PaymentUnknown ==> Budget.Lifetime(after) == Budget.Lifetime(before) + cap + reserve)
    }

    /** Reserve, pay, settle with the ledger. None: exactly the cap or less was paid, and it is the gateway's turn. */
    method PayFromBudget(ledger: Budget.SpendLedger, quote: Budget.Quote, p: Budget.Phase, cap: nat, pay: Signer.Answer) returns (r: Option<CallResult>)
      requires ledger.Valid() && 0.0 <= price
      requires pay.Paid? ==> pay.fee <= Signer.LamportsToMicroCeil(Signer.FEE_RESERVE_LAMPORTS, price)
      modifies ledger
      ensures r in {None, Some(RefusedBudget), Some(RefusedSigner), Some(PaymentUnknown), Some(Overpaid)}
      ensures r != Some(Overpaid) ==> ledger.Valid()
      ensures r == None ==> pay.Paid? && pay.amount <= cap
      ensures BudgetAfter(old(ledger.rows), ledger.rows, pay, cap, Signer.LamportsToMicroCeil(Signer.FEE_RESERVE_LAMPORTS, price), if r.Some? then r.value else PaidNotServed)
    {
      hide Signer.LamportsToMicroCeil, Budget.Lifetime;
      var reserve := Signer.LamportsToMicroCeil(Signer.FEE_RESERVE_LAMPORTS, price);
      var d, entry := ledger.Reserve(quote, p, cap + reserve);
      if entry.None? {
        return Some(RefusedBudget);
      }
      if pay.Refused? {
        Budget.ChangeTotals(ledger.rows, entry.value, ledger.rows[entry.value].(status := Budget.Released), p);
        var ok := ledger.Release(entry.value);
        return Some(RefusedSigner);
      }
      if pay.Uncertain? {
        return Some(PaymentUnknown);
      }
      Budget.ChangeTotals(ledger.rows, entry.value, ledger.rows[entry.value].(status := Budget.Settled(pay.amount, pay.fee)), p);
      var ok := ledger.Settle(entry.value, pay.amount, pay.fee);
      r := if pay.amount > cap then Some(Overpaid) else None;
    }

    /** Pay out of the budget, then ask the gateway until the transfer is visible. */
    method PayOnchain(g: Gateway, ledger: Budget.SpendLedger, quote: Budget.Quote, body: nat, p: Budget.Phase, pay: Signer.Answer, sig: nat,
                      cost: nat, delivered: bool, reportsBalance: bool, reportsCharge: bool, clock: seq<int>) returns (r: CallResult)
      requires g.Valid() && ledger.Valid() && 0.0 <= price && |clock| == MAX_RETRIES + 1
      requires quote in g.quotes
      requires pay.Paid? ==> pay.fee <= Signer.LamportsToMicroCeil(Signer.FEE_RESERVE_LAMPORTS, price)
      requires pay.Paid? && sig in g.transfers ==> g.transfers[sig].amount == pay.amount
      modifies this`surplus, g, ledger
      ensures g.Valid() && (r != Overpaid ==> ledger.Valid())
      ensures r in {ServedOnchain, LostOnchain, RefusedBudget, RefusedSigner, PaymentUnknown, Overpaid, PaidNotServed}
      ensures r !in {ServedOnchain, LostOnchain} ==> CreditAt(g) == old(CreditAt(g)) && g.settlements == old(g.settlements)
      ensures r in {ServedOnchain, LostOnchain} ==>
        (r == ServedOnchain <==> delivered) && |g.settlements| == |old(g.settlements)| + 1
        && OnchainLeft(old(CreditAt(g)), CreditAt(g), CallEvent(old(g.quotes)[quote].cap, cost, true, true, delivered, reportsBalance, reportsCharge))
      ensures BudgetAfter(old(ledger.rows), ledger.rows, pay, old(g.quotes)[quote].cap, Signer.LamportsToMicroCeil(Signer.FEE_RESERVE_LAMPORTS, price), r)
    {
      hide Signer.LamportsToMicroCeil, Budget.Lifetime, OnchainLeft, BalancesTrue, ServedOnce;
      var paid := PayFromBudget(ledger, quote, p, g.quotes[quote].cap, pay);
      if paid.Some? {
        return paid.value;
      }
      r := AskUntilVisible(g, quote, body, sig, cost, delivered, reportsBalance, reportsCharge, clock);
    }

    /** The gateway served an on-chain payment of the cap: it holds what that left, and the client knows what it was told. */
    ghost predicate OnchainLeft(before: Credit, after: Credit, e: CallEvent) {
      after.balance == before.balance + e.cap - e.Charged() && after.estimate == Receipted(before.estimate, e, Onchain, after.balance)
    }

    method AskUntilVisible(g: Gateway, quote: Budget.Quote, body: nat, sig: nat, cost: nat, delivered: bool, reportsBalance: bool, reportsCharge: bool,
                           clock: seq<int>) returns (r: CallResult)
      requires g.Valid() && |clock| == MAX_RETRIES + 1 && quote in g.quotes
      requires sig in g.transfers ==> g.transfers[sig].amount <= g.quotes[quote].cap
      modifies this`surplus, g`used, g`settledQuotes, g`balances, g`settlements
      ensures g.Valid() && r in {ServedOnchain, LostOnchain, PaidNotServed}
      ensures r == PaidNotServed ==> g.settlements == old(g.settlements) && CreditAt(g) == old(CreditAt(g))
      ensures r != PaidNotServed ==>
        (r == ServedOnchain <==> delivered) && |g.settlements| == |old(g.settlements)| + 1
        && OnchainLeft(old(CreditAt(g)), CreditAt(g), CallEvent(g.quotes[quote].cap, cost, true, true, delivered, reportsBalance, reportsCharge))
    {
      var cap := g.quotes[quote].cap;
      var attempt := 0;
      while true
        invariant attempt <= MAX_RETRIES && g.Valid() && surplus == old(surplus)
        invariant g.settlements == old(g.settlements) && g.balances == old(g.balances)
        decreases MAX_RETRIES - attempt
      {
        var res := g.Settle(clock[attempt], quote, body, Onchain, wallet, true, sig, cost);
        if res.Served? {
          if !delivered {
            return LostOnchain;
          }
          surplus := AfterReceipt(surplus, Onchain, cap, if reportsBalance then Some(res.balance) else None, if reportsCharge then Some(res.charged) else None);
          return ServedOnchain;
        }
        if res.why != TxNotFound || attempt >= MAX_RETRIES || g.quotes[quote].expires <= clock[attempt] {
          return PaidNotServed;
        }
        attempt := attempt + 1;
      }
    }
  }
}
