/** What holds over every trace of any number of escrows. */
module EscrowRun {
  import opened Basics
  import opened EscrowFee
  import opened Escrow

  // ----- the assumption -----

  /** Nobody names a vault as the account to pay into. */
  predicate NoVaultDeposit(s: Step) {
    match s
    case DoRelease(_, _, contributorToken, feeToken) => !contributorToken.VaultAt? && !feeToken.VaultAt?
    case Transfer(_, _, to, _) => !to.VaultAt?
    case _ => true
  }

  // ----- the invariant -----

  ghost predicate KeysDiffer(accounts: seq<Account>) {
    forall i, j :: 0 <= i < |accounts| && 0 <= j < |accounts| && i != j ==> accounts[i].key != accounts[j].key
  }

  /** Fixed at funding: the fee of these very terms; and the state says whether there is a contributor. */
  ghost predicate RecordSound(e: Record) {
    && ProgramFee(e.amount, e.feeBps, e.feeMinimum) == Some((e.feeAmount, e.amount + e.feeAmount))
    && e.amount + e.feeAmount < U64 && 0 < e.amount
    && (e.state == Assigned <==> e.contributor.Some?) && (e.contributor.Some? ==> e.everAssigned)
  }

  ghost predicate VaultHolds(accounts: seq<Account>, b: nat, e: Record) {
    && IsOpen(accounts, VaultAt(b))
    && At(accounts, VaultAt(b)).owner == EscrowAt(b) && At(accounts, VaultAt(b)).mint == e.mint && At(accounts, VaultAt(b)).balance == e.amount + e.feeAmount
  }

  function EndingsOf(endings: seq<Ending>, b: nat): nat {
    if endings == [] then 0 else EndingsOf(endings[..|endings| - 1], b) + if endings[|endings| - 1].bounty == b then 1 else 0
  }

  function Lifetimes(w: World, b: nat): nat {
    if b in w.lifetimes then w.lifetimes[b] else 0
  }

  /** Each lifetime of a bounty's escrow has ended once, except the one that is open. */
  ghost predicate EndsOnce(w: World, b: nat) {
    Lifetimes(w, b) == EndingsOf(w.endings, b) + if b in w.escrows then 1 else 0
  }

  ghost predicate BountySound(w: World, b: nat) {
    && EndsOnce(w, b)
    && if b in w.escrows then RecordSound(w.escrows[b]) && VaultHolds(w.accounts, b, w.escrows[b])
       else !IsOpen(w.accounts, VaultAt(b)) && Balance(w.accounts, VaultAt(b)) == 0
  }

  ghost predicate Sound(w: World) {
    KeysDiffer(w.accounts) && forall b: nat :: BountySound(w, b)
  }

  function Supply(accounts: seq<Account>, mint: nat): nat {
    if accounts == [] then 0
    else
      var last := accounts[|accounts| - 1];
      Supply(accounts[..|accounts| - 1], mint) + if last.mint == mint then last.balance else 0
  }

  // ----- token accounts -----

  lemma {:induction false} SupplySet(accounts: seq<Account>, i: nat, a: Account, mint: nat)
    requires i < |accounts|
    ensures Supply(accounts[i := a], mint) ==
      Supply(accounts, mint) - (if accounts[i].mint == mint then accounts[i].balance else 0) + (if a.mint == mint then a.balance else 0)
  {
    var n := |accounts| - 1;
    if i == n {
      assert accounts[i := a][..n] == accounts[..n];
    } else {
      assert accounts[i := a][..n] == accounts[..n][i := a];
      SupplySet(accounts[..n], i, a, mint);
    }
  }

  /** What is the same account, whatever it holds. */
  ghost predicate SameAccounts(a: seq<Account>, b: seq<Account>) {
    |a| == |b| && forall i :: 0 <= i < |a| ==> b[i] == a[i].(balance := b[i].balance)
  }

  /** A transfer takes from one account, gives to the other, and nothing else changes. */
  lemma MoveEffects(accounts: seq<Account>, from: Key, to: Key, amount: nat, mint: nat)
    requires KeysDiffer(accounts) && CanMove(accounts, from, to, amount) && from != to
    ensures
      var after := Move(accounts, from, to, amount);
      && SameAccounts(accounts, after) && Supply(after, mint) == Supply(accounts, mint)
      && forall k :: Balance(after, k) == Balance(accounts, k) + (if k == to then amount else 0) - (if k == from then amount else 0)
  {
    var i, j := IndexOf(accounts, from).value, IndexOf(accounts, to).value;
    IndexStable(accounts, from, accounts[i].balance - amount, to);
    var taken := SetBalance(accounts, from, accounts[i].balance - amount);
    var after := Move(accounts, from, to, amount);
    assert after == taken[j := taken[j].(balance := taken[j].balance + amount)];
    SupplySet(accounts, i, taken[i], mint);
    SupplySet(taken, j, after[j], mint);
    forall k ensures Balance(after, k) == Balance(accounts, k) + (if k == to then amount else 0) - (if k == from then amount else 0) {
      SameKeysSameIndex(accounts, after, k);
    }
  }

  lemma SameAccountsKeys(a: seq<Account>, b: seq<Account>)
    requires SameAccounts(a, b) && KeysDiffer(a)
    ensures KeysDiffer(b) && forall k :: IndexOf(b, k) == IndexOf(a, k)
  {
    forall k ensures IndexOf(b, k) == IndexOf(a, k) { SameKeysSameIndex(a, b, k); }
  }

  function PaidTo(payments: seq<(Key, nat)>, k: Key): nat {
    if payments == [] then 0 else PaidTo(payments[1..], k) + if payments[0].0 == k then payments[0].1 else 0
  }

  function TotalOf(payments: seq<(Key, nat)>): nat {
    if payments == [] then 0 else payments[0].1 + TotalOf(payments[1..])
  }

  ghost predicate NoVaults(payments: seq<(Key, nat)>) {
    forall k :: 0 <= k < |payments| ==> !payments[k].0.VaultAt?
  }

  /** What a payout leaves: everyone as they were but for what they were paid, and the vault empty and closed. */
  ghost predicate PaidFrom(before: seq<Account>, after: seq<Account>, b: nat, payments: seq<(Key, nat)>) {
    && |before| == |after| && (forall k :: IndexOf(after, k) == IndexOf(before, k))
    && (forall i :: 0 <= i < |before| ==> after[i] == before[i].(balance := after[i].balance, open := before[i].open && before[i].key != VaultAt(b)))
    && (forall k :: k != VaultAt(b) ==> Balance(after, k) == Balance(before, k) + PaidTo(payments, k))
    && Balance(before, VaultAt(b)) == TotalOf(payments) && Balance(after, VaultAt(b)) == 0
  }

  lemma {:induction false} PayOutEffects(accounts: seq<Account>, b: nat, payments: seq<(Key, nat)>, mint: nat)
    requires KeysDiffer(accounts) && NoVaults(payments) && PayOutAndClose(accounts, b, payments).Some?
    ensures
      var after := PayOutAndClose(accounts, b, payments).value;
      PaidFrom(accounts, after, b, payments) && Supply(after, mint) == Supply(accounts, mint)
    decreases |payments|
  {
    if payments == [] {
      CloseEffects(accounts, VaultAt(b), mint);
    } else {
      var to, amount := payments[0].0, payments[0].1;
      var moved := Move(accounts, VaultAt(b), to, amount);
      MoveEffects(accounts, VaultAt(b), to, amount, mint);
      SameAccountsKeys(accounts, moved);
      hide Move, CanMove, Supply, IndexOf, KeysDiffer, Close, PaidFrom, SameAccounts, Balance;
      PayOutEffects(moved, b, payments[1..], mint);
      PaidFromFirst(accounts, moved, PayOutAndClose(accounts, b, payments).value, b, payments);
    }
  }

  /** One payment made, and the rest from there. */
  lemma PaidFromFirst(accounts: seq<Account>, moved: seq<Account>, after: seq<Account>, b: nat, payments: seq<(Key, nat)>)
    requires payments != [] && payments[0].0 != VaultAt(b) && SameAccounts(accounts, moved)
    requires forall k :: IndexOf(moved, k) == IndexOf(accounts, k)
    requires forall k ::
      Balance(moved, k) == Balance(accounts, k) + (if k == payments[0].0 then payments[0].1 else 0) - (if k == VaultAt(b) then payments[0].1 else 0)
    requires PaidFrom(moved, after, b, payments[1..])
    ensures PaidFrom(accounts, after, b, payments)
  {
    hide IndexOf, Balance;
  }

  lemma CloseEffects(accounts: seq<Account>, key: Key, mint: nat)
    requires KeysDiffer(accounts) && IsOpen(accounts, key)
    ensures
      var after := Close(accounts, key);
      && |after| == |accounts| && (forall k :: IndexOf(after, k) == IndexOf(accounts, k) && Balance(after, k) == Balance(accounts, k))
      && (forall i :: 0 <= i < |accounts| ==> after[i] == accounts[i].(open := accounts[i].open && accounts[i].key != key))
      && Supply(after, mint) == Supply(accounts, mint)
  {
    var i := IndexOf(accounts, key).value;
    var after := Close(accounts, key);
    SupplySet(accounts, i, after[i], mint);
    forall k ensures IndexOf(after, k) == IndexOf(accounts, k) { SameKeysSameIndex(accounts, after, k); }
    forall j | 0 <= j < |accounts| && j != i ensures accounts[j].key != key {}
  }

  // ----- each instruction -----

  /** Every other bounty is as it was, if its vault is. */
  lemma OthersSound(w: World, w': World, b: nat)
    requires Sound(w) && BountySound(w', b) && KeysDiffer(w'.accounts)
    requires w'.escrows - {b} == w.escrows - {b} && forall d: nat :: d != b ==> Lifetimes(w', d) == Lifetimes(w, d) && EndingsOf(w'.endings, d) == EndingsOf(w.endings, d)
    requires forall d: nat :: d != b ==> VaultSame(w.accounts, w'.accounts, d)
    ensures Sound(w')
  {
    forall d: nat ensures BountySound(w', d) {
      if d != b {
        assert BountySound(w, d) && VaultSame(w.accounts, w'.accounts, d);
        assert d in w.escrows <==> d in w'.escrows by {
          assert d in w.escrows <==> d in w.escrows - {b};
          assert d in w'.escrows <==> d in w'.escrows - {b};
        }
        if d in w.escrows { assert (w.escrows - {b})[d] == (w'.escrows - {b})[d]; }
      }
    }
  }

  ghost predicate VaultSame(a: seq<Account>, c: seq<Account>, d: nat) {
    var i, j := IndexOf(a, VaultAt(d)), IndexOf(c, VaultAt(d));
    (i.Some? <==> j.Some?) && (i.Some? ==> a[i.value] == c[j.value])
  }

  lemma InitializeSound(w: World, f: Funding, now: int, mint: nat)
    requires Sound(w) && Initialize(w, f, now).Done?
    ensures Sound(Initialize(w, f, now).w) && Supply(Initialize(w, f, now).w.accounts, mint) == Supply(w.accounts, mint)
  {
    var b := f.bounty;
    var w' := Initialize(w, f, now).w;
    assert BountySound(w, b);
    FunderNotVault(w, f.funderToken, f.funder);
    FundingEffects(w.accounts, b, f.funderToken, f.mint, ProgramFee(f.amount, f.feeBps, f.feeMinimum).value.1, mint);
    hide Move, CanMove, Sound, VaultSame, OpenVault;
    assert BountySound(w', b);
    OthersSound(w, w', b);
  }

  /** The vault opens and gets exactly the total; no other vault changes. */
  lemma FundingEffects(accounts: seq<Account>, b: nat, from: Key, vaultMint: nat, total: nat, mint: nat)
    requires KeysDiffer(accounts) && !IsOpen(accounts, VaultAt(b)) && Balance(accounts, VaultAt(b)) == 0 && !from.VaultAt?
    requires CanMove(OpenVault(accounts, b, vaultMint), from, VaultAt(b), total)
    ensures
      var after := Move(OpenVault(accounts, b, vaultMint), from, VaultAt(b), total);
      && KeysDiffer(after) && Supply(after, mint) == Supply(accounts, mint)
      && IndexOf(after, VaultAt(b)).Some? && At(after, VaultAt(b)) == Account(VaultAt(b), EscrowAt(b), vaultMint, total, true)
      && forall d: nat :: d != b ==> VaultSame(accounts, after, d)
  {
    var vaulted := OpenVault(accounts, b, vaultMint);
    var after := Move(vaulted, from, VaultAt(b), total);
    OpenVaultEffects(accounts, b, vaultMint, mint);
    hide OpenVault, CanMove;
    MoveEffects(vaulted, from, VaultAt(b), total, mint);
    hide Move, Supply;
    SameAccountsKeys(vaulted, after);
    assert At(after, VaultAt(b)) == Account(VaultAt(b), EscrowAt(b), vaultMint, total, true) by {
      assert Balance(after, VaultAt(b)) == Balance(vaulted, VaultAt(b)) + total;
    }
    forall d: nat | d != b ensures VaultSame(accounts, after, d) { VaultUnmoved(accounts, vaulted, after, d); }
  }

  lemma VaultUnmoved(accounts: seq<Account>, vaulted: seq<Account>, after: seq<Account>, d: nat)
    requires IndexOf(vaulted, VaultAt(d)) == IndexOf(accounts, VaultAt(d))
    requires (IndexOf(accounts, VaultAt(d)).Some? ==> At(vaulted, VaultAt(d)) == At(accounts, VaultAt(d)))
    requires SameAccounts(vaulted, after) && IndexOf(after, VaultAt(d)) == IndexOf(vaulted, VaultAt(d))
    requires Balance(after, VaultAt(d)) == Balance(vaulted, VaultAt(d))
    ensures VaultSame(accounts, after, d)
  {
  }

  lemma VaultOwner(w: World, b: nat)
    requires Sound(w)
    ensures IsOpen(w.accounts, VaultAt(b)) ==> At(w.accounts, VaultAt(b)).owner == EscrowAt(b)
  {
    assert BountySound(w, b);
  }

  /** A token account that belongs to a wallet is no vault. */
  lemma FunderNotVault(w: World, key: Key, owner: Key)
    requires Sound(w) && owner.Wallet? && IsOpen(w.accounts, key) && At(w.accounts, key).owner == owner
    ensures !key.VaultAt?
  {
    if key.VaultAt? { VaultOwner(w, key.bounty); }
  }

  lemma OpenVaultEffects(accounts: seq<Account>, b: nat, vaultMint: nat, mint: nat)
    requires KeysDiffer(accounts) && !IsOpen(accounts, VaultAt(b)) && Balance(accounts, VaultAt(b)) == 0
    ensures
      var after := OpenVault(accounts, b, vaultMint);
      && KeysDiffer(after) && Supply(after, mint) == Supply(accounts, mint)
      && IndexOf(after, VaultAt(b)).Some? && At(after, VaultAt(b)) == Account(VaultAt(b), EscrowAt(b), vaultMint, 0, true)
      && (forall k :: k != VaultAt(b) ==> (IndexOf(after, k) == IndexOf(accounts, k) && (IndexOf(accounts, k).Some? ==> At(after, k) == At(accounts, k))))
  {
    var after := OpenVault(accounts, b, vaultMint);
    var i := IndexOf(accounts, VaultAt(b));
    if i.Some? {
      SupplySet(accounts, i.value, after[i.value], mint);
      forall k ensures IndexOf(after, k) == IndexOf(accounts, k) { SameKeysSameIndex(accounts, after, k); }
    } else {
      assert after[..|accounts|] == accounts;
    }
  }

  /** Only the record changed, and stays in order. */
  lemma RecordChanged(w: World, b: nat, e: Record)
    requires Sound(w) && b in w.escrows && RecordSound(e) && e.mint == w.escrows[b].mint
    requires e.amount == w.escrows[b].amount && e.feeAmount == w.escrows[b].feeAmount
    ensures Sound(w.(escrows := w.escrows[b := e]))
  {
    var w' := w.(escrows := w.escrows[b := e]);
    assert BountySound(w, b);
    assert w'.escrows - {b} == w.escrows - {b};
    OthersSound(w, w', b);
  }

  /** An escrow paid out in full: its vault empties and closes, and its lifetime has one ending. */
  lemma EndedSound(w: World, b: nat, payments: seq<(Key, nat)>, ending: Ending, mint: nat)
    requires Sound(w) && b in w.escrows && NoVaults(payments) && ending.bounty == b
    requires PayOutAndClose(w.accounts, b, payments).Some?
    ensures
      var after := PayOutAndClose(w.accounts, b, payments).value;
      Sound(w.(accounts := after, escrows := w.escrows - {b}, endings := w.endings + [ending])) && Supply(after, mint) == Supply(w.accounts, mint)
  {
    var after := PayOutAndClose(w.accounts, b, payments).value;
    var w' := w.(accounts := after, escrows := w.escrows - {b}, endings := w.endings + [ending]);
    PayOutEffects(w.accounts, b, payments, mint);
    hide PayOutAndClose;
    assert w'.endings[..|w.endings|] == w.endings;
    assert BountySound(w, b);
    forall d: nat | d != b ensures VaultSame(w.accounts, after, d) {
      NothingTo(payments, VaultAt(d));
      assert Balance(after, VaultAt(d)) == Balance(w.accounts, VaultAt(d));
    }
    OthersSound(w, w', b);
  }

  lemma {:induction false} NothingTo(payments: seq<(Key, nat)>, key: Key)
    requires NoVaults(payments) && key.VaultAt?
    ensures PaidTo(payments, key) == 0
  {
    if payments != [] { NothingTo(payments[1..], key); }
  }

  lemma TransferSound(w: World, from: Key, to: Key, amount: nat, mint: nat)
    requires Sound(w) && CanMove(w.accounts, from, to, amount) && !from.VaultAt? && !to.VaultAt?
    ensures Sound(w.(accounts := Move(w.accounts, from, to, amount)))
    ensures Supply(Move(w.accounts, from, to, amount), mint) == Supply(w.accounts, mint)
  {
    var after := Move(w.accounts, from, to, amount);
    if from == to {
      ToItself(w.accounts, from, amount);
    } else {
      MoveEffects(w.accounts, from, to, amount, mint);
      SameAccountsKeys(w.accounts, after);
      hide Move, CanMove;
      forall d: nat ensures BountySound(w.(accounts := after), d) {
        assert BountySound(w, d);
        assert Balance(after, VaultAt(d)) == Balance(w.accounts, VaultAt(d));
      }
    }
  }

  lemma ToItself(accounts: seq<Account>, key: Key, amount: nat)
    requires CanMove(accounts, key, key, amount)
    ensures Move(accounts, key, key, amount) == accounts
  {
    IndexStable(accounts, key, At(accounts, key).balance - amount, key);
  }

  function Payments(e: Ending): seq<(Key, nat)> {
    match e
    case PaidOut(_, r, to, feeTo) => [(to, r.amount)] + if r.feeAmount > 0 then [(feeTo, r.feeAmount)] else []
    case GivenBack(_, r, to) => [(to, r.amount + r.feeAmount)]
  }

  lemma ReleaseSound(w: World, s: Step, mint: nat)
    requires Sound(w) && NoVaultDeposit(s) && s.DoRelease? && Attempt(w, s).Done?
    ensures Sound(Do(w, s)) && Supply(Do(w, s).accounts, mint) == Supply(w.accounts, mint)
  {
    hide Sound, PayOutAndClose;
    var e := w.escrows[s.b];
    EndedSound(w, s.b, Payments(PaidOut(s.b, e, s.contributorToken, s.feeToken)), PaidOut(s.b, e, s.contributorToken, s.feeToken), mint);
  }

  lemma GiveBackSound(w: World, b: nat, funder: Key, funderToken: Key, mint: nat)
    requires Sound(w) && b in w.escrows && FunderSigns(w, b, funder, funderToken) && GiveBack(w, b, funderToken).Done?
    ensures Sound(GiveBack(w, b, funderToken).w)
    ensures Supply(GiveBack(w, b, funderToken).w.accounts, mint) == Supply(w.accounts, mint)
  {
    hide Sound, PayOutAndClose;
    FunderNotVault(w, funderToken, funder);
    EndedSound(w, b, Payments(GivenBack(b, w.escrows[b], funderToken)), GivenBack(b, w.escrows[b], funderToken), mint);
  }

  lemma AssignmentSound(w: World, s: Step, mint: nat)
    requires Sound(w) && (s.DoAssign? || s.DoUnassign?) && Attempt(w, s).Done?
    ensures Sound(Do(w, s)) && Supply(Do(w, s).accounts, mint) == Supply(w.accounts, mint)
  {
    RecordOf(w, s.b);
    hide Sound;
    RecordChanged(w, s.b, Do(w, s).escrows[s.b]);
  }

  lemma StepSound(w: World, s: Step, mint: nat)
    requires Sound(w) && NoVaultDeposit(s)
    ensures Sound(Do(w, s)) && Supply(Do(w, s).accounts, mint) == Supply(w.accounts, mint)
  {
    if Attempt(w, s).Done? {
      hide Sound, PayOutAndClose, Move, CanMove, Initialize, Release, GiveBack, Assign, Unassign;
      match s
      case DoInitialize(f, now) => InitializeSound(w, f, now, mint);
      case DoAssign(b, signer, contributor) => AssignmentSound(w, s, mint);
      case DoUnassign(b, signer) => AssignmentSound(w, s, mint);
      case DoRelease(b, attestor, contributorToken, feeToken) => ReleaseSound(w, s, mint);
      case DoRefund(b, funder, funderToken, now) => GiveBackSound(w, b, funder, funderToken, mint);
      case DoCancel(b, funder, funderToken) => GiveBackSound(w, b, funder, funderToken, mint);
      case Transfer(signer, from, to, amount) =>
        TransferFromWallet(w, signer, from, to, amount);
        TransferSound(w, from, to, amount, mint);
    }
  }

  lemma TransferFromWallet(w: World, signer: Key, from: Key, to: Key, amount: nat)
    requires Sound(w) && signer.Wallet? && CanMove(w.accounts, from, to, amount) && At(w.accounts, from).owner == signer
    ensures !from.VaultAt?
  {
    FunderNotVault(w, from, signer);
  }

  lemma RecordOf(w: World, b: nat)
    requires Sound(w) && b in w.escrows
    ensures RecordSound(w.escrows[b]) && VaultHolds(w.accounts, b, w.escrows[b])
  {
    assert BountySound(w, b);
  }

  /** A fresh program: accounts with distinct addresses, no vaults, nothing ever funded. */
  ghost predicate Fresh(w: World) {
    KeysDiffer(w.accounts) && w.escrows == map[] && w.endings == [] && w.lifetimes == map[] && forall i :: 0 <= i < |w.accounts| ==> !w.accounts[i].key.VaultAt?
  }

  ghost predicate NoVaultDeposits(steps: seq<Step>) {
    forall k :: 0 <= k < |steps| ==> NoVaultDeposit(steps[k])
  }

  /** Over every trace of any number of escrows: tokens are conserved, every open vault holds exactly the amount and
      the fee of the terms it was funded under, and each lifetime ends at most once. */
  lemma {:induction false} EveryTrace(start: World, steps: seq<Step>, mint: nat)
    requires Fresh(start) && NoVaultDeposits(steps)
    ensures Sound(Exec(start, steps)) && Supply(Exec(start, steps).accounts, mint) == Supply(start.accounts, mint)
  {
    if steps != [] {
      EveryTrace(start, steps[..|steps| - 1], mint);
      StepSound(Exec(start, steps[..|steps| - 1]), steps[|steps| - 1], mint);
    } else {
      forall b: nat ensures BountySound(start, b) {
        assert IndexOf(start.accounts, VaultAt(b)).None?;
      }
    }
  }

  // ----- how a lifetime ends -----

  /** Exactly these payments were made, from this vault, and no other balance changed. */
  ghost predicate ExactlyPaid(before: World, after: World, b: nat, payments: seq<(Key, nat)>) {
    && Balance(before.accounts, VaultAt(b)) == TotalOf(payments) && Balance(after.accounts, VaultAt(b)) == 0
    && forall k :: k != VaultAt(b) ==> Balance(after.accounts, k) == Balance(before.accounts, k) + PaidTo(payments, k)
  }

  /** Whatever ends a lifetime pays the whole vault at once: to the recorded contributor's account and the one
      that was named for the fee when it was funded, or in full to an account of the funder. */
  lemma EndingPays(w: World, s: Step)
    requires Sound(w) && NoVaultDeposit(s) && Do(w, s).endings != w.endings
    ensures
      var w' := Do(w, s);
      && |w'.endings| == |w.endings| + 1
      && var e := w'.endings[|w.endings|];
      && w'.endings == w.endings + [e] && e.bounty in w.escrows && e.escrow == w.escrows[e.bounty] && e.bounty !in w'.escrows
      && ExactlyPaid(w, w', e.bounty, Payments(e))
      && IndexOf(w.accounts, e.to).Some?
      && (e.PaidOut? ==> e.escrow.contributor == Some(At(w.accounts, e.to).owner) && e.feeTo == e.escrow.feeDestination)
      && (e.GivenBack? ==> At(w.accounts, e.to).owner == e.escrow.funder)
  {
    SomethingEnds(w, s);
    var w', e := Do(w, s), EndingOf(w, s);
    assert w'.endings[|w.endings|] == e;
    assert KeysDiffer(w.accounts);
    assert NoVaults(Payments(e)) by { OnlyToPayees(w, s); }
    hide Do, EndingOf, Sound, KeysDiffer, PayOutAndClose, PaidFrom, ExactlyPaid, NoVaultDeposit, NoVaults, Payments;
    PayOutEffects(w.accounts, e.bounty, Payments(e), 0);
    PaidIsExact(w, w', e.bounty, Payments(e));
  }

  /** The ending a closing instruction records. */
  function EndingOf(w: World, s: Step): Ending
    requires (s.DoRelease? || s.DoRefund? || s.DoCancel?) && s.b in w.escrows
  {
    if s.DoRelease? then PaidOut(s.b, w.escrows[s.b], s.contributorToken, s.feeToken) else GivenBack(s.b, w.escrows[s.b], s.funderToken)
  }

  /** The step ends the lifetime of its bounty: recorded, no longer open, and its vault paid out as the ending says. */
  ghost predicate Ends(w: World, w': World, e: Ending) {
    && w'.endings == w.endings + [e] && e.bounty in w.escrows && e.escrow == w.escrows[e.bounty] && e.bounty !in w'.escrows
    && PayOutAndClose(w.accounts, e.bounty, Payments(e)) == Some(w'.accounts) && IndexOf(w.accounts, e.to).Some?
    && (e.PaidOut? ==> e.escrow.contributor == Some(At(w.accounts, e.to).owner) && e.feeTo == e.escrow.feeDestination)
    && (e.GivenBack? ==> At(w.accounts, e.to).owner == e.escrow.funder)
  }

  lemma SomethingEnds(w: World, s: Step)
    requires Do(w, s).endings != w.endings
    ensures (s.DoRelease? || s.DoRefund? || s.DoCancel?) && s.b in w.escrows && Ends(w, Do(w, s), EndingOf(w, s))
  {
    hide PayOutAndClose, Move, CanMove, ProgramFee, OpenVault;
    if s.DoRelease? { ReleaseEnds(w, s); }
    if s.DoRefund? || s.DoCancel? { GiveBackEnds(w, s); }
  }

  lemma ReleaseEnds(w: World, s: Step)
    requires s.DoRelease? && Attempt(w, s).Done?
    ensures s.b in w.escrows && Ends(w, Do(w, s), EndingOf(w, s))
  {
    hide PayOutAndClose;
  }

  lemma GiveBackEnds(w: World, s: Step)
    requires (s.DoRefund? || s.DoCancel?) && Attempt(w, s).Done?
    ensures s.b in w.escrows && FunderSigns(w, s.b, s.funder, s.funderToken) && Ends(w, Do(w, s), EndingOf(w, s))
  {
    hide PayOutAndClose;
  }

  /** A payee is nobody's vault: the step names none, and a funder owns none. */
  lemma OnlyToPayees(w: World, s: Step)
    requires Sound(w) && NoVaultDeposit(s) && (s.DoRelease? || s.DoRefund? || s.DoCancel?) && Attempt(w, s).Done? && s.b in w.escrows
    ensures NoVaults(Payments(EndingOf(w, s)))
  {
    hide Sound;
    if !s.DoRelease? {
      GiveBackEnds(w, s);
      hide Attempt;
      FunderNotVault(w, s.funderToken, s.funder);
    }
  }

  lemma PaidIsExact(before: World, after: World, b: nat, payments: seq<(Key, nat)>)
    requires PaidFrom(before.accounts, after.accounts, b, payments)
    ensures ExactlyPaid(before, after, b, payments)
  {
    hide Balance, IndexOf;
  }

  // ----- the lock -----

  /** Still the same lifetime, on the terms it was funded under, with somebody having been assigned in it. */
  ghost predicate SameTerms(w: World, w': World, b: nat) {
    && b in w.escrows && b in w'.escrows && Lifetimes(w', b) == Lifetimes(w, b) && w'.escrows[b].everAssigned
    && w'.escrows[b] == w.escrows[b].(state := w'.escrows[b].state, contributor := w'.escrows[b].contributor, everAssigned := true)
  }

  /** ... and its vault full. */
  ghost predicate StillLocked(w: World, w': World, b: nat) {
    SameTerms(w, w', b) && VaultHolds(w'.accounts, b, w.escrows[b])
  }

  /** This step releases b to the contributor recorded on it at that moment. */
  ghost predicate ReleasesToContributor(w: World, s: Step, b: nat) {
    && s.DoRelease? && s.b == b && Attempt(w, s).Done? && b in w.escrows && w.escrows[b].contributor.Some?
    && IndexOf(w.accounts, s.contributorToken).Some? && At(w.accounts, s.contributorToken).owner == w.escrows[b].contributor.value
  }

  lemma OnlyReleaseCloses(w: World, s: Step, b: nat)
    requires b in w.escrows && w.escrows[b].everAssigned && (s.DoRefund? && s.b == b ==> s.now < w.escrows[b].deadline)
    ensures SameTerms(w, Do(w, s), b) || ReleasesToContributor(w, s, b)
  {
    hide PayOutAndClose, Move, CanMove, ProgramFee, OpenVault, TokenOf;
  }

  lemma LockStep(w: World, s: Step, b: nat)
    requires Sound(w) && NoVaultDeposit(s) && b in w.escrows && w.escrows[b].everAssigned
    requires s.DoRefund? && s.b == b ==> s.now < w.escrows[b].deadline
    ensures StillLocked(w, Do(w, s), b) || ReleasesToContributor(w, s, b)
  {
    hide Sound, Do, Attempt;
    OnlyReleaseCloses(w, s, b);
    StepSound(w, s, 0);
    if SameTerms(w, Do(w, s), b) { RecordOf(Do(w, s), b); }
  }

  lemma LockedOn(w: World, current: World, s: Step, b: nat)
    requires Sound(current) && NoVaultDeposit(s) && StillLocked(w, current, b)
    requires BeforeDeadline(w, s, b)
    ensures StillLocked(w, Do(current, s), b) || ReleasesToContributor(current, s, b)
  {
    hide Sound, Do, Attempt;
    LockStep(current, s, b);
  }

  /** At step k the lifetime was still locked, and the step released it to its contributor. */
  ghost predicate ReleasedAt(w: World, steps: seq<Step>, b: nat, k: nat) {
    k < |steps| && StillLocked(w, Exec(w, steps[..k]), b) && ReleasesToContributor(Exec(w, steps[..k]), steps[k], b)
  }

  ghost predicate BeforeDeadline(w: World, s: Step, b: nat) {
    s.DoRefund? && s.b == b ==> b in w.escrows && s.now < w.escrows[b].deadline
  }

  /** Once anybody was ever assigned, then for as long as the deadline has not passed the only thing that empties the vault
      is a release to whoever is recorded as the contributor at that moment. */
  lemma {:induction false} LockedUntilDeadline(w: World, steps: seq<Step>, b: nat)
    requires Sound(w) && NoVaultDeposits(steps) && b in w.escrows && w.escrows[b].everAssigned
    requires forall k :: 0 <= k < |steps| ==> BeforeDeadline(w, steps[k], b)
    ensures Sound(Exec(w, steps))
    ensures StillLocked(w, Exec(w, steps), b) || exists k: nat :: ReleasedAt(w, steps, b, k)
  {
    hide Sound, Do, StillLocked, ReleasesToContributor, NoVaultDeposit, BeforeDeadline, ReleasedAt;
    if steps == [] {
      LockedNow(w, b);
    } else {
      var n := |steps| - 1;
      var before := Exec(w, steps[..n]);
      LockedUntilDeadline(w, steps[..n], b);
      assert Exec(w, steps) == Do(before, steps[n]);
      hide Exec;
      StepSound(before, steps[n], 0);
      if StillLocked(w, before, b) {
        LockedOn(w, before, steps[n], b);
        if ReleasesToContributor(before, steps[n], b) { ReleasedLast(w, steps, b); }
      } else {
        var k: nat :| ReleasedAt(w, steps[..n], b, k);
        ReleasedBefore(w, steps, b, k);
      }
    }
  }

  lemma LockedNow(w: World, b: nat)
    requires Sound(w) && b in w.escrows && w.escrows[b].everAssigned
    ensures StillLocked(w, w, b)
  {
    RecordOf(w, b);
  }

  lemma ReleasedLast(w: World, steps: seq<Step>, b: nat)
    requires steps != [] && StillLocked(w, Exec(w, steps[..|steps| - 1]), b)
    requires ReleasesToContributor(Exec(w, steps[..|steps| - 1]), steps[|steps| - 1], b)
    ensures ReleasedAt(w, steps, b, |steps| - 1)
  {
    hide StillLocked, ReleasesToContributor, Exec;
  }

  lemma ReleasedBefore(w: World, steps: seq<Step>, b: nat, k: nat)
    requires steps != [] && ReleasedAt(w, steps[..|steps| - 1], b, k)
    ensures ReleasedAt(w, steps, b, k)
  {
    hide StillLocked, ReleasesToContributor, Exec;
    assert steps[..|steps| - 1][..k] == steps[..k];
  }
}
