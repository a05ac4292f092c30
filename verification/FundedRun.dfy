/** What every run of a funded bounty keeps, and what a reconcile achieves. */
module FundedRun {
  import opened Basics
  import opened FundedMirror

  // ----- one reconcile -----

  predicate LiveIffNamed(w: World) {
    LiveHolder(w.holders).Some? <==> w.chain.Some? && w.chain.value.contributor.Some?
  }

  /** A holder the chain never named, in self-assign mode: reconcile has no branch for it. */
  predicate Stuck(w: World) {
    w.mode == SelfAssign && w.mirror == MirrorFunded && w.chain == Some(ChainEscrow(None)) && LiveHolder(w.holders).Some?
  }

  /** The chain names a wallet that no applicant has linked. */
  predicate NamesUnknown(w: World) {
    w.chain.Some? && w.chain.value.contributor.Some? && LiveHolder(w.holders).None? && ApplicantWith(w, w.chain.value.contributor.value).None?
  }

  /** A release has closed the account and its payout row is not confirmed yet. */
  predicate MidRelease(w: World) {
    w.chain.None? && w.releasing && LiveHolder(w.holders).Some?
  }

  /** The wallet the agent goes by for a holder: the one recorded when they were assigned, or the one they have linked. */
  function WalletOnFile(w: World, user: nat): Option<nat> {
    if w.mirrorWallet.Some? then w.mirrorWallet else WalletOf(w, user)
  }

  /** Somebody holds the bounty exactly when the chain names somebody, and it names the holder's wallet. */
  predicate HolderNamed(w: World) {
    var i := LiveHolder(w.holders);
    LiveIffNamed(w) && (i.Some? ==> w.chain.value.contributor == WalletOnFile(w, w.holders[i.value].user))
  }

  /** Somebody holds the bounty, and the chain names a wallet that is not theirs. */
  predicate NamesAnother(w: World) {
    var i := LiveHolder(w.holders);
    i.Some? && w.chain.Some? && w.chain.value.contributor.Some? && w.chain.value.contributor != WalletOnFile(w, w.holders[i.value].user)
  }

  ghost predicate OneLive(holders: seq<Holder>) {
    forall i, j :: 0 <= i < j < |holders| ==> holders[i].status == Ended || holders[j].status == Ended
  }

  lemma OneOfTwoEnded(holders: seq<Holder>, i: nat, j: nat)
    requires OneLive(holders) && i < |holders| && j < |holders| && i != j
    ensures holders[i].status == Ended || holders[j].status == Ended
  {
    assert i < j ==> holders[i].status == Ended || holders[j].status == Ended;
    assert j < i ==> holders[j].status == Ended || holders[i].status == Ended;
  }

  lemma EndingTheLive(holders: seq<Holder>, direct: bool)
    requires OneLive(holders) && LiveHolder(holders).Some?
    ensures
      var i := LiveHolder(holders).value;
      LiveHolder(holders[i := holders[i].(status := Ended, onChainDirect := direct)]).None?
  {
    var i := LiveHolder(holders).value;
    var after := holders[i := holders[i].(status := Ended, onChainDirect := direct)];
    forall j | 0 <= j < |after| ensures after[j].status == Ended {
      if j != i { OneOfTwoEnded(holders, i, j); }
    }
  }

  /** With the attestor reachable and the holder's wallet linked, a reconcile leaves somebody holding the bounty exactly
      when the chain names somebody, but for three situations: and in each of those three it does not. */
  lemma ReconcileAgrees(w: World, prepared: bool)
    requires Reconcilable(w) && OneLive(w.holders)
    requires LiveHolder(w.holders).Some? ==> w.holders[LiveHolder(w.holders).value].user in w.wallets
    ensures LiveIffNamed(Reconciling(w, prepared, true).0) <==> !Stuck(w) && !NamesUnknown(w) && !MidRelease(w)
  {
    if w.chain.None? {
      ClosedAgrees(w, prepared);
    } else if w.chain.value.contributor.Some? {
      NamedAgrees(w, prepared);
    } else {
      UnnamedAgrees(w, prepared);
    }
  }

  lemma ClosedAgrees(w: World, prepared: bool)
    requires Reconcilable(w) && OneLive(w.holders) && w.chain.None?
    ensures LiveIffNamed(Reconciling(w, prepared, true).0) <==> !MidRelease(w)
  {
    if LiveHolder(w.holders).Some? { EndingTheLive(w.holders, false); }
    hide OneLive, LiveHolder;
  }

  lemma NamedAgrees(w: World, prepared: bool)
    requires Reconcilable(w) && w.chain.Some? && w.chain.value.contributor.Some?
    ensures LiveIffNamed(Reconciling(w, prepared, true).0) <==> !NamesUnknown(w)
  {
    hide ApplicantIn;
  }

  lemma UnnamedAgrees(w: World, prepared: bool)
    requires Reconcilable(w) && OneLive(w.holders) && w.chain == Some(ChainEscrow(None))
    requires LiveHolder(w.holders).Some? ==> w.holders[LiveHolder(w.holders).value].user in w.wallets
    ensures LiveIffNamed(Reconciling(w, prepared, true).0) <==> !Stuck(w)
  {
    if LiveHolder(w.holders).Some? {
      EndingTheLive(w.holders, true);
      EndingTheLive(w.holders, false);
    }
    hide OneLive, LiveHolder, Agreed;
  }

  /** Whose wallet it is, too: a reconcile leaves the chain naming the holder, and nobody holding when it names nobody, but
      for a fourth situation, in which it leaves the wrong holder where they are. */
  lemma ReconcileIdentifies(w: World, prepared: bool)
    requires Reconcilable(w) && OneLive(w.holders)
    requires LiveHolder(w.holders).Some? ==> w.holders[LiveHolder(w.holders).value].user in w.wallets
    ensures HolderNamed(Reconciling(w, prepared, true).0) <==> !Stuck(w) && !NamesUnknown(w) && !MidRelease(w) && !NamesAnother(w)
  {
    ReconcileAgrees(w, prepared);
    var i := LiveHolder(w.holders);
    if i.Some? {
      EndingTheLive(w.holders, true);
      EndingTheLive(w.holders, false);
    } else if w.chain.Some? && w.chain.value.contributor.Some? && ApplicantWith(w, w.chain.value.contributor.value).Some? {
      assert Reconciling(w, prepared, true).0.mirrorWallet == w.chain.value.contributor;
    }
  }

  /** A closed escrow that no release of ours closed leaves nobody holding the bounty, and the bounty expired, or
      cancelled when nobody ever held it. */
  lemma ClosedEscrowClosesBounty(w: World, prepared: bool, reachable: bool)
    requires Reconcilable(w) && OneLive(w.holders) && w.chain.None? && !w.releasing
    ensures
      var after := Reconciling(w, prepared, reachable).0;
      LiveHolder(after.holders).None? && after.status == (if w.holders == [] then Cancelled else Expired) && after.mirror == MirrorRefunded
  {
    if LiveHolder(w.holders).Some? { EndingTheLive(w.holders, false); }
  }

  // ----- every run -----

  function Other(s: Side): Side {
    if s == Funder then Contributor else Funder
  }

  /** Accepted by the other side, or left unanswered for seven days. */
  predicate BothSides(p: Proposal) {
    || (p.status == Accepted && p.answeredBy == Some(Other(p.proposer)))
    || (p.status == AcceptedBySilence && p.answeredBy == None && p.proposedAt + RESPOND_MS <= p.answeredAt)
  }

  ghost predicate ProposalsTrue(proposals: seq<Proposal>) {
    forall k :: 0 <= k < |proposals| ==> ProposalTrue(proposals[k])
  }

  predicate ProposalTrue(p: Proposal) {
    && (AgreedStatus(p.status) ==> BothSides(p))
    && (p.status == Pending ==> p.answeredBy == None)
  }

  ghost predicate AgreedOn(proposals: seq<Proposal>, holder: nat) {
    exists k :: 0 <= k < |proposals| && proposals[k].holder == holder && BothSides(proposals[k])
  }

  ghost predicate AttestsAgreed(w: World) {
    forall k :: 0 <= k < |w.attests| && w.attests[k].prSubmitted ==> AgreedOn(w.proposals, w.attests[k].holder)
  }

  /** A self-assign holder came from the chain, so the mirror says assigned. */
  predicate NotStuck(w: World) {
    w.mode == SelfAssign && LiveHolder(w.holders).Some? ==> w.mirror == MirrorAssigned
  }

  ghost predicate Sound(w: World) {
    OneLive(w.holders) && ProposalsTrue(w.proposals) && AttestsAgreed(w) && NotStuck(w)
  }

  /** Agreed proposals stay agreed. */
  ghost predicate AgreementsKept(a: seq<Proposal>, b: seq<Proposal>) {
    |a| <= |b| && forall k :: 0 <= k < |a| && BothSides(a[k]) ==> b[k].holder == a[k].holder && BothSides(b[k])
  }

  lemma StillAgreed(a: seq<Proposal>, b: seq<Proposal>, holder: nat)
    requires AgreementsKept(a, b) && AgreedOn(a, holder)
    ensures AgreedOn(b, holder)
  {
    var k :| 0 <= k < |a| && a[k].holder == holder && BothSides(a[k]);
    assert b[k].holder == holder;
  }

  lemma AttestsKept(w: World, w': World)
    requires AttestsAgreed(w) && w'.attests == w.attests && AgreementsKept(w.proposals, w'.proposals)
    ensures AttestsAgreed(w')
  {
    forall k | 0 <= k < |w'.attests| && w'.attests[k].prSubmitted ensures AgreedOn(w'.proposals, w'.attests[k].holder) {
      StillAgreed(w.proposals, w'.proposals, w.attests[k].holder);
    }
  }

  /** The live assignment ends; a proposal may be marked as carried out. */
  lemma ReleasedSound(w: World, i: nat, proposal: Option<nat>, direct: bool)
    requires OneLive(w.holders) && ProposalsTrue(w.proposals) && AttestsAgreed(w) && LiveHolder(w.holders) == Some(i)
    ensures Sound(Released(w, i, proposal, direct))
  {
    EndingTheLive(w.holders, direct);
    AttestsKept(w, Released(w, i, proposal, direct));
  }

  /** The attestor's unassign: recorded, and agreed to if a pull request was in. */
  lemma AttestedSound(w: World, i: nat)
    requires OneLive(w.holders) && ProposalsTrue(w.proposals) && AttestsAgreed(w) && i < |w.holders|
    requires w.holders[i].status == PrSubmitted ==> AgreedOn(w.proposals, i)
    ensures AttestsAgreed(AttestUnassign(w, i)) && AttestUnassign(w, i).holders == w.holders
    ensures AttestUnassign(w, i).proposals == w.proposals
  {
  }

  lemma AgreedIsBoth(proposals: seq<Proposal>, holder: nat)
    requires ProposalsTrue(proposals) && Agreed(proposals, holder).Some?
    ensures AgreedOn(proposals, holder)
  {
    var p := Agreed(proposals, holder).value;
    assert ProposalTrue(proposals[p]);
  }

  lemma UnassignedSound(w: World, reachable: bool)
    requires Sound(w)
    ensures Sound(Unassigned(w, reachable))
  {
    var i := LiveHolder(w.holders);
    if i.Some? {
      var agreed := Agreed(w.proposals, i.value);
      if agreed.Some? { AgreedIsBoth(w.proposals, i.value); }
      if w.holders[i.value].status != PrSubmitted || agreed.Some? {
        AttestedSound(w, i.value);
        ReleasedSound(AttestUnassign(w, i.value), i.value, agreed, false);
        ReleasedSound(w, i.value, agreed, false);
      }
    }
  }

  lemma CarriedOutSound(w: World, p: nat, reachable: bool)
    requires Sound(w) && p < |w.proposals| && BothSides(w.proposals[p])
    ensures Sound(CarriedOut(w, p, reachable)) && AgreementsKept(w.proposals, CarriedOut(w, p, reachable).proposals)
    ensures |CarriedOut(w, p, reachable).proposals| == |w.proposals|
  {
    var i := LiveHolder(w.holders);
    if i == Some(w.proposals[p].holder) {
      assert AgreedOn(w.proposals, i.value);
      AttestedSound(w, i.value);
      ReleasedSound(AttestUnassign(w, i.value), i.value, Some(p), false);
      ReleasedSound(w, i.value, Some(p), false);
    }
  }

  lemma UnassignConfirmedSound(w: World)
    requires Sound(w)
    ensures Sound(UnassignConfirmed(w))
  {
    var i := LiveHolder(w.holders);
    if i.Some? {
      AttestsKept(w, RecordedUnassigned(w));
      ReleasedSound(RecordedUnassigned(w), i.value, Agreed(w.proposals, i.value), false);
      ReleasedSound(RecordedUnassigned(w), i.value, None, true);
    }
  }

  lemma NewHolderSound(holders: seq<Holder>, user: nat)
    requires LiveHolder(holders).None?
    ensures OneLive(holders + [Holder(user, Active, false)])
  {
  }

  lemma AssignedSound(w: World, user: nat, wallet: nat, reachable: bool)
    requires Sound(w)
    ensures LiveHolder(w.holders).None? ==> Sound(Assigned(w, user, wallet))
    ensures Sound(Drawn(w, user, reachable)) && Sound(AssignConfirmed(w, user))
  {
    AttestsKept(w, Drawn(w, user, reachable));
    AttestsKept(w, AssignConfirmed(w, user));
    AttestsKept(w, Assigned(w, user, wallet));
    if LiveHolder(w.holders).None? { NewHolderSound(w.holders, user); }
  }

  lemma RespondedSound(w: World, p: nat, side: Side, accept: bool, now: int, reachable: bool)
    requires Sound(w)
    ensures Sound(Responded(w, p, side, accept, now, reachable))
  {
    if p < |w.proposals| && w.proposals[p].status == Pending && side != w.proposals[p].proposer {
      var answered := w.(proposals := w.proposals[p := w.proposals[p].(status := if accept then Accepted else Refused, answeredBy := Some(side), answeredAt := now)]);
      assert ProposalTrue(w.proposals[p]) && Other(w.proposals[p].proposer) == side;
      AttestsKept(w, answered);
      if accept { CarriedOutSound(answered, p, reachable); }
    }
  }

  lemma ExpiredSound(w: World, now: int)
    requires Sound(w)
    ensures Sound(ExpiredAll(w, now))
  {
    var after := ExpiredAll(w, now);
    forall k | 0 <= k < |after.proposals| ensures ProposalTrue(after.proposals[k]) { assert ProposalTrue(w.proposals[k]); }
    AttestsKept(w, after);
  }

  lemma {:induction false} CarryEachSound(w: World, which: set<nat>, n: nat, reachable: bool)
    requires Sound(w) && n <= |w.proposals| && forall k :: k in which ==> k < |w.proposals| && BothSides(w.proposals[k])
    ensures Sound(CarryEach(w, which, n, reachable)) && AgreementsKept(w.proposals, CarryEach(w, which, n, reachable).proposals)
  {
    if n > 0 {
      CarryEachSound(w, which, n - 1, reachable);
      if n - 1 in which { CarriedOutSound(CarryEach(w, which, n - 1, reachable), n - 1, reachable); }
    }
  }

  lemma SilenceSound(w: World, now: int, reachable: bool)
    requires Sound(w)
    ensures Sound(SilenceTaken(w, now, reachable))
  {
    ExpiredSound(w, now);
    var expired := ExpiredAll(w, now);
    forall k | k in Due(w, now) ensures BothSides(expired.proposals[k]) { assert ProposalTrue(expired.proposals[k]); }
    CarryEachSound(expired, Due(w, now), |w.proposals|, reachable);
    var first := CarryEach(expired, Due(w, now), |w.proposals|, reachable);
    forall k | k in Outstanding(first) ensures BothSides(first.proposals[k]) { assert ProposalTrue(first.proposals[k]); }
    CarryEachSound(first, Outstanding(first), |first.proposals|, reachable);
  }

  lemma ReconcilingSound(w: World, prepared: bool, reachable: bool)
    requires Sound(w)
    ensures Sound(Reconciling(w, prepared, reachable).0)
  {
    var i := LiveHolder(w.holders);
    var closed := w.(mirror := MirrorRefunded, status := if w.holders != [] then Expired else Cancelled);
    AttestsKept(w, closed);
    AttestsKept(w, RecordedUnassigned(w));
    if i.Some? {
      ReleasedSound(closed, i.value, None, false);
      ReleasedSound(RecordedUnassigned(w), i.value, Agreed(w.proposals, i.value), false);
      ReleasedSound(RecordedUnassigned(w), i.value, None, true);
      if i.value < |w.holders| && w.holders[i.value].user in w.wallets { AttestsKept(w, AttestAssign(w, w.wallets[w.holders[i.value].user], reachable)); }
      if w.chain.Some? && w.chain.value.contributor.Some? { AttestsKept(w, RecordedAssigned(w, w.chain.value.contributor.value)); }
    } else if w.chain.Some? && w.chain.value.contributor.Some? && ApplicantWith(w, w.chain.value.contributor.value).Some? {
      AssignedSound(w, ApplicantWith(w, w.chain.value.contributor.value).value, w.chain.value.contributor.value, reachable);
    }
  }

  lemma PullRequestSound(w: World, s: Step)
    requires Sound(w) && (s.PrArrives? || s.PrClosesUnmerged?)
    ensures Sound(Do(w, s))
  {
    AttestsKept(w, Do(w, s));
    var i := LiveHolder(w.holders);
    if i.Some? { LiveStatusChanged(w.holders, i.value, if s.PrArrives? then PrSubmitted else Active); }
  }

  lemma LiveStatusChanged(holders: seq<Holder>, i: nat, to: HolderStatus)
    requires OneLive(holders) && i < |holders| && holders[i].status != Ended
    ensures OneLive(holders[i := holders[i].(status := to)])
  {
    var after := holders[i := holders[i].(status := to)];
    forall j, k | 0 <= j < k < |after| ensures after[j].status == Ended || after[k].status == Ended {
      assert holders[j].status == Ended || holders[k].status == Ended;
    }
  }

  lemma StepSound(w: World, s: Step)
    requires Sound(w)
    ensures Sound(Do(w, s))
  {
    hide Sound;
    match s
    case RunDraw(user, reachable) => AssignedSound(w, user, 0, reachable);
    case AssignConfirm(user) => AssignedSound(w, user, 0, true);
    case Unassign(reachable) => UnassignedSound(w, reachable);
    case UnassignConfirm => UnassignConfirmedSound(w);
    case Respond(p, side, accept, now, reachable) => RespondedSound(w, p, side, accept, now, reachable);
    case ExpireProposals(now, reachable) => SilenceSound(w, now, reachable);
    case PrArrives => PullRequestSound(w, s);
    case PrClosesUnmerged => PullRequestSound(w, s);
    case Reconcile(prepared, reachable) => ReconcilingSound(w, prepared, reachable);
    case _ => QuietStepSound(w, s);
  }

  lemma QuietStepSound(w: World, s: Step)
    requires Sound(w)
    requires s.Apply? || s.Link? || s.Unlink? || s.Propose? || s.Withdraw? || s.ReleaseStarts? || s.FunderAssigns? || s.FunderUnassigns? || s.EscrowCloses?
    ensures Sound(Do(w, s))
  {
    AttestsKept(w, Do(w, s));
  }

  lemma {:induction false} EveryRun(mode: Mode, steps: seq<Step>)
    ensures Sound(Exec(mode, steps)) && Exec(mode, steps).mode == mode
  {
    if steps != [] {
      EveryRun(mode, steps[..|steps| - 1]);
      StepSound(Exec(mode, steps[..|steps| - 1]), steps[|steps| - 1]);
      SameMode(Exec(mode, steps[..|steps| - 1]), steps[|steps| - 1]);
    }
  }

  lemma SameMode(w: World, s: Step)
    ensures Do(w, s).mode == w.mode
  {
    if s.ExpireProposals? {
      var first := CarryEach(ExpiredAll(w, s.now), Due(w, s.now), |w.proposals|, s.reachable);
      SameModeEach(ExpiredAll(w, s.now), Due(w, s.now), |w.proposals|, s.reachable);
      SameModeEach(first, Outstanding(first), |first.proposals|, s.reachable);
    }
  }

  lemma {:induction false} SameModeEach(w: World, which: set<nat>, n: nat, reachable: bool)
    requires n <= |w.proposals|
    ensures CarryEach(w, which, n, reachable).mode == w.mode
  {
    if n > 0 { SameModeEach(w, which, n - 1, reachable); }
  }

  /** Over every run of proposing, answering, withdrawing, expiring and retrying: the attestor has unassigned somebody whose
      pull request was in only where a proposal on that very assignment was accepted by the other side or left
      unanswered for seven days. */
  lemma AttestorNeedsBothSides(mode: Mode, steps: seq<Step>, k: nat)
    requires k < |Exec(mode, steps).attests| && Exec(mode, steps).attests[k].prSubmitted
    ensures AgreedOn(Exec(mode, steps).proposals, Exec(mode, steps).attests[k].holder)
  {
    EveryRun(mode, steps);
  }

  /** In every run, after a reconcile with the attestor reachable and the holder's wallet linked, somebody holds the bounty
      exactly when the chain names somebody, unless the named wallet is no applicant's or a release is under way. */
  lemma ReconcileOverRuns(mode: Mode, steps: seq<Step>, prepared: bool)
    requires Reconcilable(Exec(mode, steps))
    requires var w := Exec(mode, steps); LiveHolder(w.holders).Some? ==> w.holders[LiveHolder(w.holders).value].user in w.wallets
    ensures
      var w := Exec(mode, steps);
      LiveIffNamed(Do(w, Reconcile(prepared, true))) <==> !NamesUnknown(w) && !MidRelease(w)
  {
    EveryRun(mode, steps);
    ReconcileAgrees(Exec(mode, steps), prepared);
  }

  // ----- whom it names -----

  /** In every run, after such a reconcile the chain names the holder's wallet or nobody holds the bounty and it names
      nobody, unless one of three situations was there before: and in those three it does not. */
  lemma IdentityOverRuns(mode: Mode, steps: seq<Step>, prepared: bool)
    requires Reconcilable(Exec(mode, steps))
    requires var w := Exec(mode, steps); LiveHolder(w.holders).Some? ==> w.holders[LiveHolder(w.holders).value].user in w.wallets
    ensures
      var w := Exec(mode, steps);
      && (HolderNamed(Do(w, Reconcile(prepared, true))) <==> !NamesUnknown(w) && !MidRelease(w) && !NamesAnother(w))
      && (mode == Draw ==> !NamesAnother(w))
  {
    EveryRun(mode, steps);
    DrawNamesOnFile(mode, steps);
    ReconcileIdentifies(Exec(mode, steps), prepared);
  }

  /** In draw mode only the attestor assigns, and what it signs is what the agent records. */
  predicate NamesOnFile(w: World) {
    w.mode == Draw && w.chain.Some? && w.chain.value.contributor.Some? ==> w.mirrorWallet == w.chain.value.contributor
  }

  lemma {:induction false} DrawNamesOnFile(mode: Mode, steps: seq<Step>)
    ensures NamesOnFile(Exec(mode, steps))
  {
    if steps != [] {
      DrawNamesOnFile(mode, steps[..|steps| - 1]);
      StepNamesOnFile(Exec(mode, steps[..|steps| - 1]), steps[|steps| - 1]);
    }
  }

  lemma StepNamesOnFile(w: World, s: Step)
    requires NamesOnFile(w)
    ensures NamesOnFile(Do(w, s))
  {
    hide CarryEach, Agreed, LiveHolder, ApplicantWith, AnyPending, Due, Outstanding;
    if s.ExpireProposals? { ExpiryNamesOnFile(w, s); }
  }

  lemma ExpiryNamesOnFile(w: World, s: Step)
    requires NamesOnFile(w) && s.ExpireProposals?
    ensures NamesOnFile(Do(w, s))
  {
    hide CarryEach, Due, Outstanding;
    var first := CarryEach(ExpiredAll(w, s.now), Due(w, s.now), |w.proposals|, s.reachable);
    EachNamesOnFile(ExpiredAll(w, s.now), Due(w, s.now), |w.proposals|, s.reachable);
    EachNamesOnFile(first, Outstanding(first), |first.proposals|, s.reachable);
  }

  lemma {:induction false} EachNamesOnFile(w: World, which: set<nat>, n: nat, reachable: bool)
    requires NamesOnFile(w) && n <= |w.proposals|
    ensures NamesOnFile(CarryEach(w, which, n, reachable))
  {
    if n > 0 { EachNamesOnFile(w, which, n - 1, reachable); }
  }

  const REASSIGNED: seq<Step> :=
    [Apply(1), Apply(2), Link(1, 10), Link(2, 20), FunderAssigns(10), AssignConfirm(1), FunderUnassigns, FunderAssigns(20)]

  /** The funder unassigns and assigns again on-chain before the agent looks: user 1 goes on holding the bounty while the
      chain names user 2, and reconciling changes nothing. */
  lemma ReassignedOutside(prepared: bool)
    ensures
      var w := Exec(SelfAssign, REASSIGNED);
      && w.holders == [Holder(1, Active, false)] && w.chain == Some(ChainEscrow(Some(20))) && w.wallets == map[1 := 10, 2 := 20]
      && Do(w, Reconcile(prepared, true)) == w && NamesAnother(w)
  {
    var w4 := Start(SelfAssign).(applicants := [1, 2], wallets := map[1 := 10, 2 := 20]);
    var held := w4.(holders := [Holder(1, Active, false)], mirror := MirrorAssigned, mirrorWallet := Some(10));
    FirstFour(w4);
    hide Exec;
    Next(REASSIGNED[..4], FunderAssigns(10));
    assert REASSIGNED[..4] + [FunderAssigns(10)] == REASSIGNED[..5];
    Next(REASSIGNED[..5], AssignConfirm(1));
    assert REASSIGNED[..5] + [AssignConfirm(1)] == REASSIGNED[..6];
    assert Exec(SelfAssign, REASSIGNED[..6]) == held.(chain := Some(ChainEscrow(Some(10)))) by { Confirmed(w4, held); }
    Next(REASSIGNED[..6], FunderUnassigns);
    assert REASSIGNED[..6] + [FunderUnassigns] == REASSIGNED[..7];
    Next(REASSIGNED[..7], FunderAssigns(20));
    assert REASSIGNED[..7] + [FunderAssigns(20)] == REASSIGNED;
    Reassigned(held, prepared);
  }

  lemma Next(steps: seq<Step>, s: Step)
    ensures Exec(SelfAssign, steps + [s]) == Do(Exec(SelfAssign, steps), s)
  {
    assert (steps + [s])[..|steps|] == steps;
  }

  lemma Confirmed(w: World, held: World)
    requires w == Start(SelfAssign).(applicants := [1, 2], wallets := map[1 := 10, 2 := 20])
    requires held == w.(holders := [Holder(1, Active, false)], mirror := MirrorAssigned, mirrorWallet := Some(10))
    ensures Do(Do(w, FunderAssigns(10)), AssignConfirm(1)) == held.(chain := Some(ChainEscrow(Some(10))))
  {
  }

  lemma Reassigned(held: World, prepared: bool)
    requires held.mode == SelfAssign && held.holders == [Holder(1, Active, false)] && held.mirror == MirrorAssigned && held.mirrorWallet == Some(10)
    ensures
      var before := held.(chain := Some(ChainEscrow(Some(10))));
      var after := held.(chain := Some(ChainEscrow(Some(20))));
      && Do(Do(before, FunderUnassigns), FunderAssigns(20)) == after
      && Do(after, Reconcile(prepared, true)) == after && NamesAnother(after)
  {
    var after := held.(chain := Some(ChainEscrow(Some(20))));
    assert Reconciling(after, prepared, true) == (after, Nothing);
  }

  lemma FirstFour(w: World)
    requires w == Start(SelfAssign).(applicants := [1, 2], wallets := map[1 := 10, 2 := 20])
    ensures Exec(SelfAssign, REASSIGNED[..4]) == w
  {
    assert REASSIGNED[..4][..3] == REASSIGNED[..3] && REASSIGNED[..3][..2] == REASSIGNED[..2] && REASSIGNED[..2][..1] == REASSIGNED[..1];
    assert REASSIGNED[..1][..0] == [];
    assert Exec(SelfAssign, REASSIGNED[..1]) == Start(SelfAssign).(applicants := [1]);
    assert Exec(SelfAssign, REASSIGNED[..2]) == Start(SelfAssign).(applicants := [1, 2]);
    assert Exec(SelfAssign, REASSIGNED[..3]) == Start(SelfAssign).(applicants := [1, 2], wallets := map[1 := 10]);
  }
}
