/**
 * One funded bounty: the escrow on-chain, the agent's mirror of it, who holds the bounty, and the proposals to end an
 * assignment. The chain is the truth; how far `reconcileOne` follows it is what FundedRun is about.
 */
module FundedMirror {
  import opened Basics

  datatype Mode = Draw | SelfAssign
  datatype Side = Funder | Contributor
  datatype BountyStatus = Posted | InReview | Payable | Expired | Cancelled
  datatype EscrowState = MirrorFunded | MirrorAssigned | MirrorRefunded

  /** An open escrow account, and whom it names; closed accounts are gone. */
  datatype ChainEscrow = ChainEscrow(contributor: Option<nat>)

  datatype HolderStatus = Active | PrSubmitted | Ended
  datatype Holder = Holder(user: nat, status: HolderStatus, onChainDirect: bool)

  datatype ProposalStatus = Pending | Accepted | AcceptedBySilence | Refused | Withdrawn
  datatype Proposal = Proposal(holder: nat, proposer: Side, status: ProposalStatus, proposedAt: int, answeredBy: Option<Side>, answeredAt: int, carriedOut: bool)

  /** History: one entry for each unassign the attestor signed. */
  datatype Attest = Attest(holder: nat, prSubmitted: bool)

  datatype World = World(
    mode: Mode, chain: Option<ChainEscrow>, mirror: EscrowState, mirrorWallet: Option<nat>, status: BountyStatus,
    holders: seq<Holder>, proposals: seq<Proposal>, wallets: map<nat, nat>, applicants: seq<nat>, releasing: bool, attests: seq<Attest>)

  const RESPOND_MS: int := 7 * 86_400_000

  // ----- who holds it, and what was agreed -----

  function LiveHolder(holders: seq<Holder>): (i: Option<nat>)
    ensures i.Some? ==> i.value < |holders| && holders[i.value].status != Ended
    ensures i.None? ==> forall j :: 0 <= j < |holders| ==> holders[j].status == Ended
  {
    if holders == [] then None
    else if holders[|holders| - 1].status != Ended then Some(|holders| - 1)
    else LiveHolder(holders[..|holders| - 1])
  }

  predicate AgreedStatus(s: ProposalStatus) {
    s == Accepted || s == AcceptedBySilence
  }

  /** The newest agreed proposal on this assignment not yet carried out. */
  function Agreed(proposals: seq<Proposal>, holder: nat): (p: Option<nat>)
    ensures p.Some? ==> p.value < |proposals| && proposals[p.value].holder == holder && AgreedStatus(proposals[p.value].status)
  {
    if proposals == [] then None
    else
      var last := proposals[|proposals| - 1];
      if last.holder == holder && AgreedStatus(last.status) && !last.carriedOut then Some(|proposals| - 1) else Agreed(proposals[..|proposals| - 1], holder)
  }

  function WalletOf(w: World, user: nat): Option<nat> {
    if user in w.wallets then Some(w.wallets[user]) else None
  }

  /** The applicant who has this wallet linked. */
  function ApplicantWith(w: World, wallet: nat): (i: Option<nat>)
    ensures i.Some? ==> i.value in w.applicants && i.value in w.wallets && w.wallets[i.value] == wallet
    ensures i.None? ==> forall u :: u in w.applicants && u in w.wallets ==> w.wallets[u] != wallet
  {
    ApplicantIn(w.applicants, w.wallets, wallet)
  }

  function ApplicantIn(applicants: seq<nat>, wallets: map<nat, nat>, wallet: nat): (i: Option<nat>)
    ensures i.Some? ==> i.value in applicants && i.value in wallets && wallets[i.value] == wallet
    ensures i.None? ==> forall u :: u in applicants && u in wallets ==> wallets[u] != wallet
  {
    if applicants == [] then None
    else if applicants[0] in wallets && wallets[applicants[0]] == wallet then Some(applicants[0])
    else ApplicantIn(applicants[1..], wallets, wallet)
  }

  // ----- the pieces the operations are made of -----

  function RecordedAssigned(w: World, wallet: nat): World {
    w.(mirror := MirrorAssigned, mirrorWallet := Some(wallet))
  }

  function RecordedUnassigned(w: World): World {
    w.(mirror := MirrorFunded, mirrorWallet := None)
  }

  function Assigned(w: World, user: nat, wallet: nat): World {
    RecordedAssigned(w.(holders := w.holders + [Holder(user, Active, false)]), wallet)
  }

  function Released(w: World, i: nat, proposal: Option<nat>, direct: bool): World
    requires i < |w.holders|
  {
    var ended := w.(holders := w.holders[i := w.holders[i].(status := Ended, onChainDirect := direct)]);
    if proposal.Some? && proposal.value < |w.proposals| then ended.(proposals := w.proposals[proposal.value := w.proposals[proposal.value].(carriedOut := true)])
    else ended
  }

  /** The attestor assigns in draw mode, and only an open escrow that names nobody. */
  function AttestAssign(w: World, wallet: nat, reachable: bool): World {
    if reachable && w.mode == Draw && w.chain.Some? && w.chain.value.contributor.None?
      then RecordedAssigned(w.(chain := Some(ChainEscrow(Some(wallet)))), wallet)
      else w
  }

  predicate CanAttestUnassign(w: World, reachable: bool) {
    reachable && w.mode == Draw && w.chain.Some? && w.chain.value.contributor.Some?
  }

  function AttestUnassign(w: World, i: nat): World
    requires i < |w.holders|
  {
    RecordedUnassigned(w.(chain := Some(ChainEscrow(None)), attests := w.attests + [Attest(i, w.holders[i].status == PrSubmitted)]))
  }

  // ----- the operations -----

  function Drawn(w: World, user: nat, reachable: bool): World {
    if w.mode != Draw || w.status != Posted || LiveHolder(w.holders).Some? || w.mirror != MirrorFunded || user !in w.applicants || user !in w.wallets then w
    else AttestAssign(w.(holders := w.holders + [Holder(user, Active, false)]), w.wallets[user], reachable)
  }

  function AssignConfirmed(w: World, user: nat): World {
    if user !in w.applicants || LiveHolder(w.holders).Some? || user !in w.wallets then w
    else if w.chain != Some(ChainEscrow(Some(w.wallets[user]))) then w
    else Assigned(w, user, w.wallets[user])
  }

  /** The funder ends an assignment: alone before a pull request, with the other side's agreement after. */
  function Unassigned(w: World, reachable: bool): World {
    var i := LiveHolder(w.holders);
    if i.None? then w
    else
      var agreed := Agreed(w.proposals, i.value);
      if w.holders[i.value].status == PrSubmitted && agreed.None? then w
      else if w.mirror != MirrorAssigned then Released(w, i.value, agreed, false)
      else if w.mode == Draw && CanAttestUnassign(w, reachable) then Released(AttestUnassign(w, i.value), i.value, agreed, false)
      else w
  }

  /** The record of an unassign that the funder made from their own wallet. */
  function UnassignConfirmed(w: World): World {
    var i := LiveHolder(w.holders);
    if i.None? || w.chain != Some(ChainEscrow(None)) then w
    else
      var agreed := Agreed(w.proposals, i.value);
      if w.holders[i.value].status == PrSubmitted && agreed.None? then Released(RecordedUnassigned(w), i.value, None, true)
      else Released(RecordedUnassigned(w), i.value, agreed, false)
  }

  function CarriedOut(w: World, p: nat, reachable: bool): World
    requires p < |w.proposals|
  {
    var i := LiveHolder(w.holders);
    if i != Some(w.proposals[p].holder) || (w.mode == SelfAssign && w.mirror == MirrorAssigned) then w
    else if w.mirror != MirrorAssigned then Released(w, i.value, Some(p), false)
    else if CanAttestUnassign(w, reachable) then Released(AttestUnassign(w, i.value), i.value, Some(p), false)
    else w
  }

  function Proposed(w: World, side: Side, now: int): World {
    var i := LiveHolder(w.holders);
    if i.None? || w.holders[i.value].status != PrSubmitted || AnyPending(w.proposals, i.value) then w
    else w.(proposals := w.proposals + [Proposal(i.value, side, Pending, now, None, 0, false)])
  }

  predicate AnyPending(proposals: seq<Proposal>, holder: nat) {
    exists k :: 0 <= k < |proposals| && proposals[k].holder == holder && proposals[k].status == Pending
  }

  function Responded(w: World, p: nat, side: Side, accept: bool, now: int, reachable: bool): World {
    if p >= |w.proposals| || w.proposals[p].status != Pending || LiveHolder(w.holders) != Some(w.proposals[p].holder) || side == w.proposals[p].proposer then w
    else
      var answered := w.(proposals := w.proposals[p := w.proposals[p].(status := if accept then Accepted else Refused, answeredBy := Some(side), answeredAt := now)]);
      if accept then CarriedOut(answered, p, reachable) else answered
  }

  function Withdrew(w: World, p: nat): World {
    if p < |w.proposals| && w.proposals[p].status == Pending then w.(proposals := w.proposals[p := w.proposals[p].(status := Withdrawn)]) else w
  }

  function Expire(p: Proposal, now: int): Proposal {
    if p.status == Pending && p.proposedAt + RESPOND_MS <= now then p.(status := AcceptedBySilence, answeredAt := now) else p
  }

  /** Everything overdue is accepted by silence in one UPDATE. */
  function ExpiredAll(w: World, now: int): World {
    w.(proposals := seq(|w.proposals|, k requires 0 <= k < |w.proposals| => Expire(w.proposals[k], now)))
  }

  function CarryEach(w: World, which: set<nat>, n: nat, reachable: bool): (r: World)
    requires n <= |w.proposals|
    ensures |r.proposals| == |w.proposals|
  {
    if n == 0 then w
    else
      var done := CarryEach(w, which, n - 1, reachable);
      if n - 1 in which then CarriedOut(done, n - 1, reachable) else done
  }

  /** What an expiry newly agrees to. */
  function Due(w: World, now: int): set<nat> {
    set k: nat | k < |w.proposals| && w.proposals[k].status == Pending && w.proposals[k].proposedAt + RESPOND_MS <= now
  }

  /** Agreed in draw mode, and not carried out yet. */
  function Outstanding(w: World): set<nat> {
    set k: nat | k < |w.proposals| && w.mode == Draw && AgreedStatus(w.proposals[k].status) && !w.proposals[k].carriedOut
  }

  /** What silence has agreed to is carried out, then what is outstanding in draw mode is tried again. */
  function SilenceTaken(w: World, now: int, reachable: bool): World {
    var first := CarryEach(ExpiredAll(w, now), Due(w, now), |w.proposals|, reachable);
    CarryEach(first, Outstanding(first), |first.proposals|, reachable)
  }

  datatype What =
    | Nothing | Took(back: BountyStatus) | AssignRecorded | AssignedToUnknown | AssignedOutside | AssignRetried | UnassignRecorded | UnassignedOutside

  /** The rows reconcile looks at. */
  predicate Reconcilable(w: World) {
    w.status in {Posted, InReview, Payable} && w.mirror != MirrorRefunded
  }

  function Reconciling(w: World, prepared: bool, reachable: bool): (World, What) {
    var i := LiveHolder(w.holders);
    if w.chain.None? then
      if w.releasing then (w, Nothing)
      else
        var back := if w.holders != [] then Expired else Cancelled;
        var closed := w.(mirror := MirrorRefunded, status := back);
        (if i.Some? then Released(closed, i.value, None, false) else closed, Took(back))
    else if w.chain.value.contributor.Some? then
      var named := w.chain.value.contributor.value;
      if i.Some? then
        var wallet := if w.mirrorWallet.Some? then w.mirrorWallet else WalletOf(w, w.holders[i.value].user);
        if w.mirror != MirrorAssigned && wallet == Some(named) then (RecordedAssigned(w, named), AssignRecorded) else (w, Nothing)
      else
        var app := ApplicantWith(w, named);
        if app.None? then (w, AssignedToUnknown) else (Assigned(w, app.value, named), AssignedOutside)
    else if i.None? then
      (if w.mirror == MirrorAssigned then RecordedUnassigned(w) else w, Nothing)
    else if w.mirror == MirrorFunded && w.mode == Draw then
      var wallet := WalletOf(w, w.holders[i.value].user);
      (if wallet.Some? then AttestAssign(w, wallet.value, reachable) else w, AssignRetried)
    else if w.mirror == MirrorAssigned then
      var agreed := Agreed(w.proposals, i.value);
      if prepared && (w.holders[i.value].status != PrSubmitted || agreed.Some?)
        then (Released(RecordedUnassigned(w), i.value, agreed, false), UnassignRecorded)
        else (Released(RecordedUnassigned(w), i.value, None, true), UnassignedOutside)
    else (w, Nothing)
  }

  datatype Step =
    | Apply(user: nat)
    | Link(user: nat, wallet: nat)
    | Unlink(user: nat)
    | RunDraw(user: nat, reachable: bool)
    | AssignConfirm(user: nat)
    | Unassign(reachable: bool)
    | UnassignConfirm
    | Propose(side: Side, now: int)
    | Respond(p: nat, side: Side, accept: bool, now: int, reachable: bool)
    | Withdraw(p: nat)
    | ExpireProposals(now: int, reachable: bool)
    | PrArrives
    | PrClosesUnmerged
    | ReleaseStarts
    | Reconcile(prepared: bool, reachable: bool)
    /** On-chain, outside the agent. */
    | FunderAssigns(wallet: nat)
    | FunderUnassigns
    | EscrowCloses

  function Do(w: World, s: Step): World {
    match s
    case Apply(user) => w.(applicants := w.applicants + [user])
    case Link(user, wallet) => if wallet in w.wallets.Values then w else w.(wallets := w.wallets[user := wallet])
    case Unlink(user) => w.(wallets := w.wallets - {user})
    case RunDraw(user, reachable) => Drawn(w, user, reachable)
    case AssignConfirm(user) => AssignConfirmed(w, user)
    case Unassign(reachable) => Unassigned(w, reachable)
    case UnassignConfirm => UnassignConfirmed(w)
    case Propose(side, now) => Proposed(w, side, now)
    case Respond(p, side, accept, now, reachable) => Responded(w, p, side, accept, now, reachable)
    case Withdraw(p) => Withdrew(w, p)
    case ExpireProposals(now, reachable) => SilenceTaken(w, now, reachable)
    case PrArrives =>
      (match LiveHolder(w.holders)
       case Some(i) => w.(holders := w.holders[i := w.holders[i].(status := PrSubmitted)], status := if w.status == Posted then InReview else w.status)
       case None => w)
    case PrClosesUnmerged =>
      (match LiveHolder(w.holders)
       case Some(i) => w.(holders := w.holders[i := w.holders[i].(status := Active)], status := if w.status == InReview then Posted else w.status)
       case None => w)
    case ReleaseStarts => w.(releasing := true)
    case Reconcile(prepared, reachable) => if Reconcilable(w) then Reconciling(w, prepared, reachable).0 else w
    case FunderAssigns(wallet) => if w.mode == SelfAssign && w.chain == Some(ChainEscrow(None)) then w.(chain := Some(ChainEscrow(Some(wallet)))) else w
    case FunderUnassigns => if w.mode == SelfAssign && w.chain.Some? && w.chain.value.contributor.Some? then w.(chain := Some(ChainEscrow(None))) else w
    case EscrowCloses => w.(chain := None)
  }

  function Start(mode: Mode): World {
    World(mode, Some(ChainEscrow(None)), MirrorFunded, None, Posted, [], [], map[], [], false, [])
  }

  function Exec(mode: Mode, steps: seq<Step>): World {
    if steps == [] then Start(mode) else Do(Exec(mode, steps[..|steps| - 1]), steps[|steps| - 1])
  }
}
