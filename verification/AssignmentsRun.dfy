/** What every run of the assignment lifecycle keeps. */
module AssignmentsRun {
  import opened Basics
  import opened Assignments

  lemma ChangeNeverRevives(w: World, c: Change, a: Assignment)
    ensures Changed(w, c, a).bounty == a.bounty && Changed(w, c, a).user == a.user && (Live(Changed(w, c, a)) ==> Live(a))
  {
  }

  lemma UpdatedOneHolder(w: World, c: Change)
    requires OneHolder(w)
    ensures OneHolder(Updated(w, c))
  {
    var after := Updated(w, c).assignments;
    forall i, j | 0 <= i < j < |after| && after[i].bounty == after[j].bounty ensures !(Live(after[i]) && Live(after[j])) {
      ChangeNeverRevives(w, c, w.assignments[i]);
      ChangeNeverRevives(w, c, w.assignments[j]);
    }
  }

  /** A change that marks nobody as having submitted. */
  lemma UpdatedBacked(w: World, c: Change)
    requires SubmittedBacked(w) && !c.Submits?
    ensures SubmittedBacked(Updated(w, c))
  {
    var after := Updated(w, c).assignments;
    forall i | 0 <= i < |after| && after[i].status == PrSubmitted ensures Backed(w.submissions, after[i]) {
      assert after[i] == w.assignments[i];
    }
  }

  /** Nothing about pull requests changed, and no bounty newly says it is in review. */
  lemma QuietSound(w: World, w': World)
    requires Sound(w) && w'.submissions == w.submissions && OneHolder(w') && SubmittedBacked(w')
    requires forall b :: b in w'.bounties && w'.bounties[b].status == InReview ==> b in w.bounties && w.bounties[b].status == InReview
    ensures Sound(w')
  {
  }

  lemma DrawnSound(w: World, b: nat, user: nat, staleAt: int)
    requires Sound(w)
    ensures Sound(Drawn(w, b, user, staleAt))
  {
    QuietSound(w, Drawn(w, b, user, staleAt));
  }

  lemma UnassignedSound(w: World, b: nat)
    requires Sound(w)
    ensures Sound(Unassigned(w, b)) && Sound(ClosedDown(w, b))
  {
    UpdatedOneHolder(w, ReleasedByDecision(b));
    UpdatedBacked(w, ReleasedByDecision(b));
    QuietSound(w, Unassigned(w, b));
    QuietSound(w, ClosedDown(w, b));
  }

  lemma ReopenedSound(w: World, b: nat, hold: bool)
    requires OneHolder(w) && SubmittedBacked(w) && SubsDistinct(w.submissions)
    requires forall c :: c in w.bounties && c != b && w.bounties[c].status == InReview ==> AnyIn(w.submissions, c, Open) || AnyIn(w.submissions, c, Merged)
    requires AnyIn(w.submissions, b, Closed) || ReviewBacked(w)
    ensures Sound(Reopened(w, b, hold))
  {
    UpdatedOneHolder(w, ResetSubmitted(b));
    UpdatedBacked(w, ResetSubmitted(b));
  }

  lemma OthersBacked(w: World, b: nat, pr: nat, author: nat, state: SubState)
    requires ReviewBacked(w)
    ensures
      var after := Upsert(w.submissions, b, pr, author, state);
      forall c :: c in w.bounties && c != b && w.bounties[c].status == InReview ==> AnyIn(after, c, Open) || AnyIn(after, c, Merged)
  {
    var after := Upsert(w.submissions, b, pr, author, state);
    forall c | c in w.bounties && c != b && w.bounties[c].status == InReview ensures AnyIn(after, c, Open) || AnyIn(after, c, Merged) {
      if AnyIn(w.submissions, c, Open) {
        OthersStillIn(w.submissions, b, pr, author, state, c, Open);
      } else {
        OthersStillIn(w.submissions, b, pr, author, state, c, Merged);
      }
    }
  }

  /** Recording a pull request leaves everyone who had submitted backed, unless it closes the one they submitted. */
  lemma RecordedBacked(w: World, b: nat, pr: nat, author: nat, state: SubState, i: nat)
    requires Sound(w) && i < |w.assignments| && w.assignments[i].status == PrSubmitted
    requires state == Closed ==> !(w.assignments[i].bounty == b && w.assignments[i].pr == Some(pr))
    ensures Backed(Upsert(w.submissions, b, pr, author, state), w.assignments[i])
  {
    UpsertEffects(w.submissions, b, pr, author, state);
    assert Backed(w.submissions, w.assignments[i]);
  }

  lemma ArrivedSound(w: World, b: nat, pr: nat, author: nat)
    requires Sound(w) && Plausible(w, PrActivity(b, pr, author))
    ensures Sound(Arrived(w, b, pr, author))
  {
    if b in w.bounties && Reviewable(w.bounties[b].status) {
      var w' := Arrived(w, b, pr, author);
      var subs := Upsert(w.submissions, b, pr, author, Open);
      UpsertEffects(w.submissions, b, pr, author, Open);
      OthersBacked(w, b, pr, author, Open);
      hide Upsert;
      assert OneHolder(w') by { UpdatedOneHolder(w.(submissions := subs, bounties := w'.bounties), Submits(b, author, pr)); }
      forall i | 0 <= i < |w'.assignments| && w'.assignments[i].status == PrSubmitted ensures Backed(subs, w'.assignments[i]) {
        if w.assignments[i].status == PrSubmitted { RecordedBacked(w, b, pr, author, Open, i); }
      }
    }
  }

  lemma MergedSound(w: World, b: nat, pr: nat, author: nat, gatePasses: bool)
    requires Sound(w) && b in w.bounties && Reviewable(w.bounties[b].status)
    ensures Sound(ClosedPr(w, b, pr, author, true, gatePasses))
  {
    var subs := Upsert(w.submissions, b, pr, author, Merged);
    UpsertEffects(w.submissions, b, pr, author, Merged);
    OthersBacked(w, b, pr, author, Merged);
    forall i | 0 <= i < |w.assignments| && w.assignments[i].status == PrSubmitted ensures Backed(subs, w.assignments[i]) {
      RecordedBacked(w, b, pr, author, Merged, i);
    }
    hide Upsert, Backed;
  }

  /** What closing a pull request unmerged does: whoever had submitted it is active again, the bounty leaves review exactly
      when nothing open or merged is left for it, and then nobody on it counts as having submitted. */
  ghost predicate UnmergedDoes(w: World, w': World, b: nat, pr: nat)
    requires b in w.bounties
  {
    && b in w'.bounties && |w'.assignments| == |w.assignments|
    && (forall i :: 0 <= i < |w.assignments| && w.assignments[i].bounty == b && w.assignments[i].status == PrSubmitted && w.assignments[i].pr == Some(pr) ==>
          w'.assignments[i] == w.assignments[i].(status := Active))
    && (forall i :: 0 <= i < |w.assignments| && (w.assignments[i].bounty != b || w.assignments[i].status != PrSubmitted) ==> w'.assignments[i] == w.assignments[i])
    && (w.bounties[b].status == InReview ==>
          && (w'.bounties[b].status == Posted <==> !AnyIn(w'.submissions, b, Open) && !AnyIn(w'.submissions, b, Merged))
          && (w'.bounties[b].status == Posted ==> !HasSubmittedLive(w', b)))
    && (w.bounties[b].status != InReview ==> w'.bounties == w.bounties)
  }

  lemma UnmergedEffects(w: World, b: nat, pr: nat, author: nat)
    requires Sound(w) && b in w.bounties && Reviewable(w.bounties[b].status)
    ensures UnmergedDoes(w, ClosedPr(w, b, pr, author, false, false), b, pr)
  {
    UpsertEffects(w.submissions, b, pr, author, Closed);
    hide Upsert, AnyIn, Sound, FindSub;
    var recorded := w.(submissions := Upsert(w.submissions, b, pr, author, Closed));
    var live := Updated(recorded, Reactivates(b, pr));
    assert |live.assignments| == |w.assignments| && live.bounties == w.bounties && live.submissions == recorded.submissions;
    assert ClosedPr(w, b, pr, author, false, false) == Reopened(live, b, false);
  }

  lemma UnmergedSound(w: World, b: nat, pr: nat, author: nat)
    requires Sound(w) && b in w.bounties && Reviewable(w.bounties[b].status)
    ensures Sound(ClosedPr(w, b, pr, author, false, false)) && UnmergedDoes(w, ClosedPr(w, b, pr, author, false, false), b, pr)
  {
    UnmergedEffects(w, b, pr, author);
    hide UnmergedDoes;
    var recorded := w.(submissions := Upsert(w.submissions, b, pr, author, Closed));
    UpsertEffects(w.submissions, b, pr, author, Closed);
    OthersBacked(w, b, pr, author, Closed);
    hide Upsert, Backed, Reopened;
    var live := Updated(recorded, Reactivates(b, pr));
    UpdatedOneHolder(recorded, Reactivates(b, pr));
    forall i | 0 <= i < |live.assignments| && live.assignments[i].status == PrSubmitted ensures Backed(recorded.submissions, live.assignments[i]) {
      assert live.assignments[i] == w.assignments[i];
      RecordedBacked(w, b, pr, author, Closed, i);
    }
    ReopenedSound(live, b, false);
  }

  lemma ClosedSound(w: World, b: nat, pr: nat, author: nat, merged: bool, gatePasses: bool)
    requires Sound(w) && Plausible(w, PrClosed(b, pr, author, merged, gatePasses))
    ensures Sound(ClosedPr(w, b, pr, author, merged, gatePasses))
  {
    if b in w.bounties && Reviewable(w.bounties[b].status) {
      if merged {
        MergedSound(w, b, pr, author, gatePasses);
      } else {
        hide Sound, Reopened, Updated, Plausible;
        UnmergedSound(w, b, pr, author);
      }
    }
  }

  lemma StepSound(w: World, s: Step)
    requires Sound(w) && Plausible(w, s)
    ensures Sound(Do(w, s))
  {
    hide Sound, Plausible;
    match s
    case DrawWinner(b, user, staleAt) => DrawnSound(w, b, user, staleAt);
    case PrActivity(b, pr, author) => ArrivedSound(w, b, pr, author);
    case PrClosed(b, pr, author, merged, gatePasses) => ClosedSound(w, b, pr, author, merged, gatePasses);
    case UnassignByDecision(b) => UnassignedSound(w, b);
    case CloseByDecision(b) => UnassignedSound(w, b);
    case _ => OtherStepSound(w, s);
  }

  lemma OtherStepSound(w: World, s: Step)
    requires Sound(w) && (s.Post? || s.Reopen? || s.RecordSubmitted? || s.ReleaseStale? || s.Extend? || s.Finish?)
    ensures Sound(Do(w, s))
  {
    match s
    case Post(b, funded) => QuietSound(w, Do(w, s));
    case Reopen(b, hold) => ReopenedSound(w, b, hold);
    case RecordSubmitted(i, pr) => QuietSound(w, Do(w, s));
    case ReleaseStale(now) =>
      UpdatedOneHolder(w, GoesStale(now));
      UpdatedBacked(w, GoesStale(now));
      QuietSound(w, Do(w, s));
    case Extend(i, staleAt) =>
      assert SubmittedBacked(Do(w, s)) by {
        forall k | 0 <= k < |Do(w, s).assignments| && Do(w, s).assignments[k].status == PrSubmitted ensures Backed(w.submissions, Do(w, s).assignments[k]) {
          assert Backed(w.submissions, w.assignments[k]);
        }
      }
      QuietSound(w, Do(w, s));
    case Finish(b, to) => QuietSound(w, Do(w, s));
  }

  ghost predicate PlausibleRun(steps: seq<Step>) {
    forall n :: 0 <= n < |steps| ==> Plausible(Exec(steps[..n]), steps[n])
  }

  /** At every step: one holder per bounty; a bounty in review has an open or merged pull request on record; and anybody
      marked as having submitted has theirs on record, not closed. */
  lemma {:induction false} EveryRun(steps: seq<Step>)
    requires PlausibleRun(steps)
    ensures Sound(Exec(steps))
  {
    if steps != [] {
      var before := steps[..|steps| - 1];
      assert PlausibleRun(before) by {
        forall n | 0 <= n < |before| ensures Plausible(Exec(before[..n]), before[n]) { assert before[..n] == steps[..n]; }
      }
      EveryRun(before);
      StepSound(Exec(before), steps[|steps| - 1]);
    }
  }

  // ----- abandons -----

  /** The only step that counts an abandon is the stale release of an assignment without a pull request, of somebody who
      had nothing on record for the bounty, not even a closed one; and an unfunded bounty's, past its deadline. */
  lemma AbandonOnlyIfSilent(w: World, s: Step, i: nat)
    requires i < |w.assignments| && i < |Do(w, s).assignments| && Live(w.assignments[i]) && !w.assignments[i].abandon
    requires Do(w, s).assignments[i].abandon
    ensures
      var a := w.assignments[i];
      && s.ReleaseStale? && a.status == Active && a.staleAt <= s.now && !HasSubmitted(w.submissions, a.bounty, a.user)
      && !(a.bounty in w.bounties && w.bounties[a.bounty].funded)
  {
    hide Upsert, HasLive, HolderFrom, AnyIn;
  }

  lemma {:induction false} LiveHasNoAbandon(steps: seq<Step>)
    ensures forall i :: 0 <= i < |Exec(steps).assignments| && Live(Exec(steps).assignments[i]) ==> !Exec(steps).assignments[i].abandon
  {
    if steps != [] {
      LiveHasNoAbandon(steps[..|steps| - 1]);
      LiveStepNoAbandon(Exec(steps[..|steps| - 1]), steps[|steps| - 1]);
    }
  }

  lemma LiveStepNoAbandon(w: World, s: Step)
    requires forall i :: 0 <= i < |w.assignments| && Live(w.assignments[i]) ==> !w.assignments[i].abandon
    ensures forall i :: 0 <= i < |Do(w, s).assignments| && Live(Do(w, s).assignments[i]) ==> !Do(w, s).assignments[i].abandon
  {
    hide Upsert, HasLive, HolderFrom, AnyIn, HasOpen, HasSubmitted;
  }

  lemma AssignmentsStay(w: World, s: Step)
    ensures |w.assignments| <= |Do(w, s).assignments|
    ensures forall i :: 0 <= i < |w.assignments| ==> Do(w, s).assignments[i].bounty == w.assignments[i].bounty && Do(w, s).assignments[i].user == w.assignments[i].user
    ensures forall i :: 0 <= i < |w.assignments| && !Live(w.assignments[i]) ==> Do(w, s).assignments[i].abandon == w.assignments[i].abandon
  {
    hide Upsert, HasLive, HolderFrom, AnyIn, HasOpen, HasSubmitted;
  }

  lemma NewHasNoAbandon(w: World, s: Step)
    ensures forall i :: |w.assignments| <= i < |Do(w, s).assignments| ==> !Do(w, s).assignments[i].abandon
  {
    hide Upsert, HasLive, HolderFrom, AnyIn, HasOpen, HasSubmitted;
  }

  /** At step n a stale release takes this live assignment and counts an abandon. */
  ghost predicate AbandonsAt(steps: seq<Step>, n: nat, i: nat) {
    n < |steps| && steps[n].ReleaseStale? &&
    var before, after := Exec(steps[..n]), Exec(steps[..n + 1]);
    && i < |before.assignments| && i < |after.assignments|
    && Live(before.assignments[i]) && !before.assignments[i].abandon && after.assignments[i].abandon
    && !HasSubmitted(before.submissions, before.assignments[i].bounty, before.assignments[i].user)
  }

  /** Over every run, an abandon on record was put there by one step, which ended a live assignment whose holder had no
      pull request on record for that bounty. */
  lemma {:induction false} AbandonsOverRuns(steps: seq<Step>, i: nat)
    requires i < |Exec(steps).assignments| && Exec(steps).assignments[i].abandon
    ensures exists n: nat :: AbandonsAt(steps, n, i)
  {
    var n := |steps| - 1;
    var before := Exec(steps[..n]);
    AssignmentsStay(before, steps[n]);
    NewHasNoAbandon(before, steps[n]);
    LiveHasNoAbandon(steps[..n]);
    hide Do, HasSubmitted;
    if before.assignments[i].abandon {
      AbandonsOverRuns(steps[..n], i);
      var m: nat :| AbandonsAt(steps[..n], m, i);
      assert steps[..n][..m] == steps[..m] && steps[..n][..m + 1] == steps[..m + 1];
      assert AbandonsAt(steps, m, i);
    } else {
      AbandonOnlyIfSilent(before, steps[n], i);
      assert steps[..n + 1] == steps;
      assert AbandonsAt(steps, n, i);
    }
  }
}
