/** The escrow program: instructions over token accounts and escrow accounts, each all or nothing. */
module Escrow {
  import opened Basics
  import opened EscrowFee

  /** A wallet can sign; the two kinds of program address cannot. */
  datatype Key = Wallet(n: nat) | EscrowAt(bounty: nat) | VaultAt(bounty: nat)

  datatype Account = Account(key: Key, owner: Key, mint: nat, balance: nat, open: bool)

  datatype Mode = Draw | SelfAssign
  datatype State = Funded | Assigned

  /** An open escrow; released and refunded ones are closed and gone. */
  datatype Record = Record(
    funder: Key, mint: nat, amount: nat, feeBps: nat, feeMinimum: nat, feeAmount: nat, feeDestination: Key, attestor: Key,
    mode: Mode, state: State, contributor: Option<Key>, everAssigned: bool, deadline: int)

  /** How one lifetime of an escrow ended. */
  datatype Ending = PaidOut(bounty: nat, escrow: Record, to: Key, feeTo: Key) | GivenBack(bounty: nat, escrow: Record, to: Key)

  datatype World = World(accounts: seq<Account>, escrows: map<nat, Record>, endings: seq<Ending>, lifetimes: map<nat, nat>)

  datatype Error =
    | FeeTooHigh | ZeroAmount | DeadlineInPast | AlreadyAssigned | NotAssigned | AttestorOnly | FunderOnly | DeadlineNotReached
    | NotOpen | WrongContributor | WrongFeeDestination | AlreadyHasContributor | BadAccounts | Panicked

  datatype Result = Done(w: World) | Failed(why: Error)

  // ----- token accounts -----

  function IndexOf(accounts: seq<Account>, key: Key): (i: Option<nat>)
    ensures i.Some? ==> i.value < |accounts| && accounts[i.value].key == key
    ensures i.None? ==> forall j :: 0 <= j < |accounts| ==> accounts[j].key != key
  {
    if accounts == [] then None
    else if accounts[|accounts| - 1].key == key then Some(|accounts| - 1)
    else IndexOf(accounts[..|accounts| - 1], key)
  }

  predicate IsOpen(accounts: seq<Account>, key: Key) {
    IndexOf(accounts, key).Some? && accounts[IndexOf(accounts, key).value].open
  }

  function At(accounts: seq<Account>, key: Key): Account
    requires IndexOf(accounts, key).Some?
  {
    accounts[IndexOf(accounts, key).value]
  }

  function Balance(accounts: seq<Account>, key: Key): nat {
    if IndexOf(accounts, key).Some? then At(accounts, key).balance else 0
  }

  predicate CanMove(accounts: seq<Account>, from: Key, to: Key, amount: nat) {
    IsOpen(accounts, from) && IsOpen(accounts, to) && At(accounts, from).mint == At(accounts, to).mint && amount <= At(accounts, from).balance
  }

  function SetBalance(accounts: seq<Account>, key: Key, balance: nat): seq<Account>
    requires IndexOf(accounts, key).Some?
  {
    var i := IndexOf(accounts, key).value;
    accounts[i := accounts[i].(balance := balance)]
  }

  function Move(accounts: seq<Account>, from: Key, to: Key, amount: nat): seq<Account>
    requires CanMove(accounts, from, to, amount)
  {
    var taken := SetBalance(accounts, from, At(accounts, from).balance - amount);
    IndexStable(accounts, from, At(accounts, from).balance - amount, to);
    SetBalance(taken, to, At(taken, to).balance + amount)
  }

  lemma {:induction false} IndexStable(accounts: seq<Account>, key: Key, balance: nat, other: Key)
    requires IndexOf(accounts, key).Some?
    ensures IndexOf(SetBalance(accounts, key, balance), other) == IndexOf(accounts, other)
  {
    var i := IndexOf(accounts, key).value;
    SameKeysSameIndex(accounts, SetBalance(accounts, key, balance), other);
  }

  lemma {:induction false} SameKeysSameIndex(a: seq<Account>, b: seq<Account>, key: Key)
    requires |a| == |b| && forall i :: 0 <= i < |a| ==> a[i].key == b[i].key
    ensures IndexOf(a, key) == IndexOf(b, key)
  {
    if a != [] { SameKeysSameIndex(a[..|a| - 1], b[..|b| - 1], key); }
  }

  /** A vault opens empty at its own address, reusing the entry of an earlier lifetime. */
  function OpenVault(accounts: seq<Account>, b: nat, mint: nat): seq<Account> {
    var vault := Account(VaultAt(b), EscrowAt(b), mint, 0, true);
    var i := IndexOf(accounts, VaultAt(b));
    if i.Some? then accounts[i.value := vault] else accounts + [vault]
  }

  function Close(accounts: seq<Account>, key: Key): seq<Account>
    requires IndexOf(accounts, key).Some?
  {
    var i := IndexOf(accounts, key).value;
    accounts[i := accounts[i].(open := false)]
  }

  /** Pays out of a vault, then closes it: the token program refuses to close an account that still holds something. */
  function PayOutAndClose(accounts: seq<Account>, b: nat, payments: seq<(Key, nat)>): Option<seq<Account>>
    decreases |payments|
  {
    if payments == [] then
      if IsOpen(accounts, VaultAt(b)) && At(accounts, VaultAt(b)).balance == 0 then Some(Close(accounts, VaultAt(b))) else None
    else if CanMove(accounts, VaultAt(b), payments[0].0, payments[0].1)
      then PayOutAndClose(Move(accounts, VaultAt(b), payments[0].0, payments[0].1), b, payments[1..])
      else None
  }

  // ----- the instructions -----

  datatype Funding = Funding(
    bounty: nat, funder: Key, funderToken: Key, mint: nat, amount: nat, feeBps: nat, feeMinimum: nat, deadline: int, mode: Mode, feeDestination: Key, attestor: Key)

  predicate TokenOf(accounts: seq<Account>, key: Key, owner: Key, mint: nat) {
    IsOpen(accounts, key) && At(accounts, key).owner == owner && At(accounts, key).mint == mint
  }

  function Initialize(w: World, f: Funding, now: int): Result {
    if f.bounty in w.escrows || !f.funder.Wallet? || !TokenOf(w.accounts, f.funderToken, f.funder, f.mint) then Failed(BadAccounts)
    else if f.amount == 0 then Failed(ZeroAmount)
    else if MAX_FEE_BPS < f.feeBps then Failed(FeeTooHigh)
    else if f.deadline <= now then Failed(DeadlineInPast)
    else
      var fee := ProgramFee(f.amount, f.feeBps, f.feeMinimum);
      if fee.None? then Failed(Panicked)
      else
        var withVault := OpenVault(w.accounts, f.bounty, f.mint);
        if !CanMove(withVault, f.funderToken, VaultAt(f.bounty), fee.value.1) then Failed(BadAccounts)
        else
          var record := Record(f.funder, f.mint, f.amount, f.feeBps, f.feeMinimum, fee.value.0, f.feeDestination, f.attestor, f.mode, Funded, None, false, f.deadline);
          Done(w.(accounts := Move(withVault, f.funderToken, VaultAt(f.bounty), fee.value.1), escrows := w.escrows[f.bounty := record],
                  lifetimes := w.lifetimes[f.bounty := 1 + if f.bounty in w.lifetimes then w.lifetimes[f.bounty] else 0]))
  }

  /** Who may assign and unassign: the mode decides. */
  predicate MaySign(e: Record, signer: Key) {
    signer.Wallet? && signer == if e.mode == Draw then e.attestor else e.funder
  }

  function SignerError(e: Record): Error {
    if e.mode == Draw then AttestorOnly else FunderOnly
  }

  function Assign(w: World, b: nat, signer: Key, contributor: Key): Result {
    if b !in w.escrows then Failed(BadAccounts)
    else
      var e := w.escrows[b];
      if e.state != Funded then Failed(NotOpen)
      else if e.contributor.Some? then Failed(AlreadyAssigned)
      else if !MaySign(e, signer) then Failed(SignerError(e))
      else Done(w.(escrows := w.escrows[b := e.(contributor := Some(contributor), everAssigned := true, state := Assigned)]))
  }

  function Unassign(w: World, b: nat, signer: Key): Result {
    if b !in w.escrows then Failed(BadAccounts)
    else
      var e := w.escrows[b];
      if e.state != Assigned then Failed(NotAssigned)
      else if !MaySign(e, signer) then Failed(SignerError(e))
      else Done(w.(escrows := w.escrows[b := e.(contributor := None, state := Funded)]))
  }

  function Release(w: World, b: nat, attestor: Key, contributorToken: Key, feeToken: Key): Result {
    if b !in w.escrows then Failed(BadAccounts)
    else
      var e := w.escrows[b];
      if !IsOpen(w.accounts, contributorToken) || At(w.accounts, contributorToken).mint != e.mint then Failed(BadAccounts)
      else if !IsOpen(w.accounts, feeToken) || At(w.accounts, feeToken).mint != e.mint then Failed(BadAccounts)
      else if e.state != Assigned then Failed(NotAssigned)
      else if attestor != e.attestor || !attestor.Wallet? then Failed(AttestorOnly)
      else if e.contributor.None? then Failed(NotAssigned)
      else if At(w.accounts, contributorToken).owner != e.contributor.value then Failed(WrongContributor)
      else if feeToken != e.feeDestination then Failed(WrongFeeDestination)
      else
        var paid := PayOutAndClose(w.accounts, b, [(contributorToken, e.amount)] + if e.feeAmount > 0 then [(feeToken, e.feeAmount)] else []);
        if paid.None? then Failed(BadAccounts)
        else Done(w.(accounts := paid.value, escrows := w.escrows - {b}, endings := w.endings + [PaidOut(b, e, contributorToken, feeToken)]))
  }

  /** The common end of refund and cancel. */
  function GiveBack(w: World, b: nat, funderToken: Key): Result
    requires b in w.escrows
  {
    var e := w.escrows[b];
    if U64 <= e.amount + e.feeAmount then Failed(Panicked)
    else
      var paid := PayOutAndClose(w.accounts, b, [(funderToken, e.amount + e.feeAmount)]);
      if paid.None? then Failed(BadAccounts)
      else Done(w.(accounts := paid.value, escrows := w.escrows - {b}, endings := w.endings + [GivenBack(b, e, funderToken)]))
  }

  predicate FunderSigns(w: World, b: nat, funder: Key, funderToken: Key)
    requires b in w.escrows
  {
    funder == w.escrows[b].funder && funder.Wallet? && TokenOf(w.accounts, funderToken, funder, w.escrows[b].mint)
  }

  function Refund(w: World, b: nat, funder: Key, funderToken: Key, now: int): Result {
    if b !in w.escrows || !FunderSigns(w, b, funder, funderToken) then Failed(BadAccounts)
    else if now < w.escrows[b].deadline then Failed(DeadlineNotReached)
    else GiveBack(w, b, funderToken)
  }

  function Cancel(w: World, b: nat, funder: Key, funderToken: Key): Result {
    if b !in w.escrows || !FunderSigns(w, b, funder, funderToken) then Failed(BadAccounts)
    else if w.escrows[b].state != Funded then Failed(NotOpen)
    else if w.escrows[b].everAssigned then Failed(AlreadyHasContributor)
    else GiveBack(w, b, funderToken)
  }

  datatype Step =
    | DoInitialize(f: Funding, now: int)
    | DoAssign(b: nat, signer: Key, contributor: Key)
    | DoUnassign(b: nat, signer: Key)
    | DoRelease(b: nat, attestor: Key, contributorToken: Key, feeToken: Key)
    | DoRefund(b: nat, funder: Key, funderToken: Key, now: int)
    | DoCancel(b: nat, funder: Key, funderToken: Key)
    /** Anything else a wallet does with its own tokens. */
    | Transfer(signer: Key, from: Key, to: Key, amount: nat)

  function Attempt(w: World, s: Step): Result {
    match s
    case DoInitialize(f, now) => Initialize(w, f, now)
    case DoAssign(b, signer, contributor) => Assign(w, b, signer, contributor)
    case DoUnassign(b, signer) => Unassign(w, b, signer)
    case DoRelease(b, attestor, contributorToken, feeToken) => Release(w, b, attestor, contributorToken, feeToken)
    case DoRefund(b, funder, funderToken, now) => Refund(w, b, funder, funderToken, now)
    case DoCancel(b, funder, funderToken) => Cancel(w, b, funder, funderToken)
    case Transfer(signer, from, to, amount) =>
      if signer.Wallet? && CanMove(w.accounts, from, to, amount) && At(w.accounts, from).owner == signer then Done(w.(accounts := Move(w.accounts, from, to, amount)))
      else Failed(BadAccounts)
  }

  /** A failed instruction changes nothing. */
  function Do(w: World, s: Step): World {
    var r := Attempt(w, s);
    if r.Done? then r.w else w
  }

  function Exec(w: World, steps: seq<Step>): World {
    if steps == [] then w else Do(Exec(w, steps[..|steps| - 1]), steps[|steps| - 1])
  }
}
