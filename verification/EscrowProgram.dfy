/** The program as it runs: instructions that check, move tokens and write the escrow, undone as a whole when any part fails. */
module EscrowProgram {
  import opened Basics
  import opened EscrowFee
  import opened Escrow

  function FailureOf(r: Result): Option<Error> {
    if r.Done? then None else Some(r.why)
  }

  class Program {
    var accounts: seq<Account>
    var escrows: map<nat, Record>
    var endings: seq<Ending>
    var lifetimes: map<nat, nat>

    function State(): World
      reads this
    {
      World(accounts, escrows, endings, lifetimes)
    }

    constructor (accounts: seq<Account>)
      ensures State() == World(accounts, map[], [], map[])
    {
      this.accounts := accounts;
      escrows, endings, lifetimes := map[], [], map[];
    }

    method TransferChecked(from: Key, to: Key, amount: nat) returns (ok: bool)
      modifies this`accounts
      ensures ok == CanMove(old(accounts), from, to, amount)
      ensures accounts == if ok then Move(old(accounts), from, to, amount) else old(accounts)
    {
      ok := CanMove(accounts, from, to, amount);
      if ok {
        var source := IndexOf(accounts, from).value;
        IndexStable(accounts, from, accounts[source].balance - amount, to);
        accounts := accounts[source := accounts[source].(balance := accounts[source].balance - amount)];
        var target := IndexOf(accounts, to).value;
        accounts := accounts[target := accounts[target].(balance := accounts[target].balance + amount)];
      }
    }

    method CloseVault(b: nat) returns (ok: bool)
      modifies this`accounts
      ensures ok == (IsOpen(old(accounts), VaultAt(b)) && At(old(accounts), VaultAt(b)).balance == 0)
      ensures accounts == if ok then Close(old(accounts), VaultAt(b)) else old(accounts)
    {
      ok := IsOpen(accounts, VaultAt(b)) && At(accounts, VaultAt(b)).balance == 0;
      if ok {
        accounts := Close(accounts, VaultAt(b));
      }
    }

    /** The payments in order, then the close; the accounts are as before if any of it fails. */
    method PayOut(b: nat, payments: seq<(Key, nat)>) returns (ok: bool)
      modifies this`accounts
      ensures ok == PayOutAndClose(old(accounts), b, payments).Some?
      ensures accounts == if ok then PayOutAndClose(old(accounts), b, payments).value else old(accounts)
    {
      ghost var start := accounts;
      var saved := accounts;
      for i := 0 to |payments|
        invariant saved == start && PayOutAndClose(accounts, b, payments[i..]) == PayOutAndClose(start, b, payments)
      {
        assert payments[i..][1..] == payments[i + 1..] && payments[i..][0] == payments[i];
        var moved := TransferChecked(VaultAt(b), payments[i].0, payments[i].1);
        if !moved {
          accounts := saved;
          return false;
        }
      }
      ok := CloseVault(b);
      if !ok {
        accounts := saved;
      }
    }

    method Initialize(f: Funding, now: int) returns (failure: Option<Error>)
      modifies this
      ensures State() == Do(old(State()), DoInitialize(f, now))
      ensures failure == FailureOf(Attempt(old(State()), DoInitialize(f, now)))
    {
      if f.bounty in escrows || !f.funder.Wallet? || !TokenOf(accounts, f.funderToken, f.funder, f.mint) { return Some(BadAccounts); }
      if f.amount == 0 { return Some(ZeroAmount); }
      if MAX_FEE_BPS < f.feeBps { return Some(FeeTooHigh); }
      if f.deadline <= now { return Some(DeadlineInPast); }
      var fee := ProgramFee(f.amount, f.feeBps, f.feeMinimum);
      if fee.None? { return Some(Panicked); }
      var saved := accounts;
      accounts := OpenVault(accounts, f.bounty, f.mint);
      var funded := TransferChecked(f.funderToken, VaultAt(f.bounty), fee.value.1);
      if !funded {
        accounts := saved;
        return Some(BadAccounts);
      }
      escrows := escrows[f.bounty := Record(f.funder, f.mint, f.amount, f.feeBps, f.feeMinimum, fee.value.0, f.feeDestination, f.attestor, f.mode, Funded, None, false, f.deadline)];
      lifetimes := lifetimes[f.bounty := 1 + if f.bounty in lifetimes then lifetimes[f.bounty] else 0];
      failure := None;
    }

    method Assign(b: nat, signer: Key, contributor: Key) returns (failure: Option<Error>)
      modifies this
      ensures State() == Do(old(State()), DoAssign(b, signer, contributor))
      ensures failure == FailureOf(Attempt(old(State()), DoAssign(b, signer, contributor)))
    {
      if b !in escrows { return Some(BadAccounts); }
      var e := escrows[b];
      if e.state != Funded { return Some(NotOpen); }
      if e.contributor.Some? { return Some(AlreadyAssigned); }
      if !MaySign(e, signer) { return Some(SignerError(e)); }
      e := e.(contributor := Some(contributor));
      e := e.(everAssigned := true);
      e := e.(state := Assigned);
      escrows := escrows[b := e];
      failure := None;
    }

    method Unassign(b: nat, signer: Key) returns (failure: Option<Error>)
      modifies this
      ensures State() == Do(old(State()), DoUnassign(b, signer))
      ensures failure == FailureOf(Attempt(old(State()), DoUnassign(b, signer)))
    {
      if b !in escrows { return Some(BadAccounts); }
      var e := escrows[b];
      if e.state != Assigned { return Some(NotAssigned); }
      if !MaySign(e, signer) { return Some(SignerError(e)); }
      e := e.(contributor := None);
      e := e.(state := Funded);
      escrows := escrows[b := e];
      failure := None;
    }

    method Release(b: nat, attestor: Key, contributorToken: Key, feeToken: Key) returns (failure: Option<Error>)
      modifies this
      ensures State() == Do(old(State()), DoRelease(b, attestor, contributorToken, feeToken))
      ensures failure == FailureOf(Attempt(old(State()), DoRelease(b, attestor, contributorToken, feeToken)))
    {
      if b !in escrows { return Some(BadAccounts); }
      var e := escrows[b];
      if !IsOpen(accounts, contributorToken) || At(accounts, contributorToken).mint != e.mint { return Some(BadAccounts); }
      if !IsOpen(accounts, feeToken) || At(accounts, feeToken).mint != e.mint { return Some(BadAccounts); }
      if e.state != Assigned { return Some(NotAssigned); }
      if attestor != e.attestor || !attestor.Wallet? { return Some(AttestorOnly); }
      if e.contributor.None? { return Some(NotAssigned); }
      if At(accounts, contributorToken).owner != e.contributor.value { return Some(WrongContributor); }
      if feeToken != e.feeDestination { return Some(WrongFeeDestination); }
      var paid := PayOut(b, [(contributorToken, e.amount)] + if e.feeAmount > 0 then [(feeToken, e.feeAmount)] else []);
      if !paid { return Some(BadAccounts); }
      escrows := escrows - {b};
      endings := endings + [PaidOut(b, e, contributorToken, feeToken)];
      failure := None;
    }

    method Refund(b: nat, funder: Key, funderToken: Key, now: int) returns (failure: Option<Error>)
      modifies this
      ensures State() == Do(old(State()), DoRefund(b, funder, funderToken, now))
      ensures failure == FailureOf(Attempt(old(State()), DoRefund(b, funder, funderToken, now)))
    {
      if b !in escrows || !FunderSigns(State(), b, funder, funderToken) { return Some(BadAccounts); }
      if now < escrows[b].deadline { return Some(DeadlineNotReached); }
      failure := Return(b, funderToken);
    }

    method Cancel(b: nat, funder: Key, funderToken: Key) returns (failure: Option<Error>)
      modifies this
      ensures State() == Do(old(State()), DoCancel(b, funder, funderToken))
      ensures failure == FailureOf(Attempt(old(State()), DoCancel(b, funder, funderToken)))
    {
      if b !in escrows || !FunderSigns(State(), b, funder, funderToken) { return Some(BadAccounts); }
      if escrows[b].state != Funded { return Some(NotOpen); }
      if escrows[b].everAssigned { return Some(AlreadyHasContributor); }
      failure := Return(b, funderToken);
    }

    method Return(b: nat, funderToken: Key) returns (failure: Option<Error>)
      requires b in escrows
      modifies this
      ensures State() == if GiveBack(old(State()), b, funderToken).Done? then GiveBack(old(State()), b, funderToken).w else old(State())
      ensures failure == FailureOf(GiveBack(old(State()), b, funderToken))
    {
      var e := escrows[b];
      if U64 <= e.amount + e.feeAmount { return Some(Panicked); }
      var paid := PayOut(b, [(funderToken, e.amount + e.feeAmount)]);
      if !paid { return Some(BadAccounts); }
      escrows := escrows - {b};
      endings := endings + [GivenBack(b, e, funderToken)];
      failure := None;
    }
  }
}
