/** The funded-bounty service as it runs: rows updated one after the other, the attestor called in between. */
module FundedService {
  import opened Basics
  import opened FundedMirror

  class Funded {
    const mode: Mode
    var chain: Option<ChainEscrow>
    var mirror: EscrowState
    var mirrorWallet: Option<nat>
    var status: BountyStatus
    var holders: seq<Holder>
    var proposals: seq<Proposal>
    var wallets: map<nat, nat>
    var applicants: seq<nat>
    var releasing: bool
    ghost var attests: seq<Attest>

    ghost function State(): World
      reads this
    {
      World(mode, chain, mirror, mirrorWallet, status, holders, proposals, wallets, applicants, releasing, attests)
    }

    constructor (mode: Mode)
      ensures State() == Start(mode)
    {
      this.mode := mode;
      chain, mirror, mirrorWallet, status := Some(ChainEscrow(None)), MirrorFunded, None, Posted;
      holders, proposals, wallets, applicants, releasing, attests := [], [], map[], [], false, [];
    }

    function Wallet(user: nat): Option<nat>
      reads this
    {
      if user in wallets then Some(wallets[user]) else None
    }

    method Release(i: nat, proposal: Option<nat>, direct: bool)
      requires i < |holders|
      modifies this`holders, this`proposals
      ensures State() == Released(old(State()), i, proposal, direct)
    {
      holders := holders[i := holders[i].(status := Ended, onChainDirect := direct)];
      if proposal.Some? && proposal.value < |proposals| {
        proposals := proposals[proposal.value := proposals[proposal.value].(carriedOut := true)];
      }
    }

    method RecordAssigned(wallet: nat)
      modifies this`mirror, this`mirrorWallet
      ensures State() == RecordedAssigned(old(State()), wallet)
    {
      mirror := MirrorAssigned;
      mirrorWallet := Some(wallet);
    }

    method RecordUnassigned()
      modifies this`mirror, this`mirrorWallet
      ensures State() == RecordedUnassigned(old(State()))
    {
      mirror := MirrorFunded;
      mirrorWallet := None;
    }

    method RecordAssignment(user: nat, wallet: nat)
      modifies this`holders, this`mirror, this`mirrorWallet
      ensures State() == Assigned(old(State()), user, wallet)
    {
      holders := holders + [Holder(user, Active, false)];
      RecordAssigned(wallet);
    }

    /** The attestor reads the escrow first, and refuses what it may not sign. */
    method TryAttestAssign(wallet: nat, reachable: bool) returns (ok: bool)
      modifies this`chain, this`mirror, this`mirrorWallet
      ensures State() == AttestAssign(old(State()), wallet, reachable)
      ensures ok ==> chain == Some(ChainEscrow(Some(wallet)))
    {
      ok := reachable && mode == Draw && chain.Some? && chain.value.contributor.None?;
      if ok {
        chain := Some(ChainEscrow(Some(wallet)));
        RecordAssigned(wallet);
      }
    }

    method TryAttestUnassign(i: nat, reachable: bool) returns (ok: bool)
      requires i < |holders|
      modifies this`chain, this`mirror, this`mirrorWallet, this`attests
      ensures ok == CanAttestUnassign(old(State()), reachable)
      ensures State() == if ok then AttestUnassign(old(State()), i) else old(State())
    {
      ok := reachable && mode == Draw && chain.Some? && chain.value.contributor.Some?;
      if ok {
        chain := Some(ChainEscrow(None));
        attests := attests + [Attest(i, holders[i].status == PrSubmitted)];
        RecordUnassigned();
      }
    }

    /** `released` is false where nobody holds it, the pull request needs the other side, the attestor failed, or the
        funder's own signature is needed. */
    method Unassign(reachable: bool) returns (released: bool)
      modifies this
      ensures State() == Unassigned(old(State()), reachable)
      ensures released <==> State() != old(State())
    {
      var i := LiveHolder(holders);
      if i.None? { return false; }
      var agreed := Agreed(proposals, i.value);
      if holders[i.value].status == PrSubmitted && agreed.None? { return false; }
      ghost var before := holders;
      if mirror == MirrorAssigned {
        if mode == SelfAssign { return false; }
        var signed := TryAttestUnassign(i.value, reachable);
        if !signed { return false; }
      }
      Release(i.value, agreed, false);
      assert holders[i.value] != before[i.value];
      released := true;
    }

    method ConfirmUnassign()
      modifies this
      ensures State() == UnassignConfirmed(old(State()))
    {
      var i := LiveHolder(holders);
      if i.None? || chain != Some(ChainEscrow(None)) { return; }
      var agreed := Agreed(proposals, i.value);
      RecordUnassigned();
      if holders[i.value].status == PrSubmitted && agreed.None? {
        Release(i.value, None, true);
      } else {
        Release(i.value, agreed, false);
      }
    }

    method CarryOut(p: nat, reachable: bool)
      requires p < |proposals|
      modifies this
      ensures State() == CarriedOut(old(State()), p, reachable) && |proposals| == |old(proposals)|
    {
      var i := LiveHolder(holders);
      if i != Some(proposals[p].holder) { return; }
      if mirror == MirrorAssigned {
        if mode == SelfAssign { return; }
        var signed := TryAttestUnassign(i.value, reachable);
        if !signed { return; }
      }
      Release(i.value, Some(p), false);
    }

    method Propose(side: Side, now: int) returns (ok: bool)
      modifies this`proposals
      ensures State() == Proposed(old(State()), side, now)
      ensures ok <==> |proposals| == |old(proposals)| + 1
    {
      var i := LiveHolder(holders);
      ok := i.Some? && holders[i.value].status == PrSubmitted && !AnyPending(proposals, i.value);
      if ok {
        proposals := proposals + [Proposal(i.value, side, Pending, now, None, 0, false)];
      }
    }

    method Respond(p: nat, side: Side, accept: bool, now: int, reachable: bool)
      modifies this
      ensures State() == Responded(old(State()), p, side, accept, now, reachable)
    {
      if p >= |proposals| || proposals[p].status != Pending { return; }
      if LiveHolder(holders) != Some(proposals[p].holder) || side == proposals[p].proposer { return; }
      proposals := proposals[p := proposals[p].(status := if accept then Accepted else Refused, answeredBy := Some(side), answeredAt := now)];
      if accept { CarryOut(p, reachable); }
    }

    /** One UPDATE that returns what it changed, a loop over that, then a SELECT and a loop over what is outstanding. */
    method TakeSilence(now: int, reachable: bool)
      modifies this
      ensures State() == SilenceTaken(old(State()), now, reachable)
    {
      ghost var start := State();
      var due := set k: nat | k < |proposals| && proposals[k].status == Pending && proposals[k].proposedAt + RESPOND_MS <= now;
      ghost var n := |proposals|;
      for k := 0 to |proposals|
        invariant |proposals| == n == |start.proposals| && mode == start.mode
        invariant State() == start.(proposals := proposals)
        invariant forall j :: 0 <= j < k ==> proposals[j] == Expire(start.proposals[j], now)
        invariant forall j :: k <= j < n ==> proposals[j] == start.proposals[j]
      {
        proposals := proposals[k := Expire(proposals[k], now)];
      }
      assert proposals == ExpiredAll(start, now).proposals;
      assert State() == ExpiredAll(start, now);
      assert due == Due(start, now);
      CarryAll(due, reachable);
      var outstanding := set k: nat | k < |proposals| && mode == Draw && AgreedStatus(proposals[k].status) && !proposals[k].carriedOut;
      assert outstanding == Outstanding(State());
      CarryAll(outstanding, reachable);
    }

    method CarryAll(which: set<nat>, reachable: bool)
      modifies this
      ensures State() == CarryEach(old(State()), which, |old(proposals)|, reachable)
    {
      ghost var start := State();
      var n := |proposals|;
      for k := 0 to n
        invariant State() == CarryEach(start, which, k, reachable) && |proposals| == n
      {
        if k in which { CarryOut(k, reachable); }
      }
    }

    method ReconcileOne(prepared: bool, reachable: bool) returns (what: What)
      modifies this
      ensures (State(), what) == Reconciling(old(State()), prepared, reachable)
    {
      var i := LiveHolder(holders);
      if chain.None? {
        if releasing { return Nothing; }
        mirror := MirrorRefunded;
        status := if holders != [] then Expired else Cancelled;
        if i.Some? { Release(i.value, None, false); }
        return Took(status);
      }
      if chain.value.contributor.Some? {
        var named := chain.value.contributor.value;
        if i.Some? {
          var wallet := if mirrorWallet.Some? then mirrorWallet else Wallet(holders[i.value].user);
          if mirror == MirrorAssigned || wallet != Some(named) { return Nothing; }
          RecordAssigned(named);
          return AssignRecorded;
        }
        var app := ApplicantIn(applicants, wallets, named);
        if app.None? { return AssignedToUnknown; }
        RecordAssignment(app.value, named);
        return AssignedOutside;
      }
      if i.None? {
        if mirror == MirrorAssigned { RecordUnassigned(); }
        return Nothing;
      }
      if mirror == MirrorFunded && mode == Draw {
        var wallet := Wallet(holders[i.value].user);
        if wallet.Some? { var _ := TryAttestAssign(wallet.value, reachable); }
        return AssignRetried;
      }
      if mirror != MirrorAssigned { return Nothing; }
      var agreed := Agreed(proposals, i.value);
      RecordUnassigned();
      if prepared && (holders[i.value].status != PrSubmitted || agreed.Some?) {
        Release(i.value, agreed, false);
        return UnassignRecorded;
      }
      Release(i.value, None, true);
      what := UnassignedOutside;
    }
  }
}
