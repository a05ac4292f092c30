/** The same lifecycle as the services run it: tables updated row by row, and a draw that picks by tickets. */
module AssignmentBoard {
  import opened Basics
  import opened Assignments
  import Draw

  function AllArrived(w: World, bs: seq<nat>, pr: nat, author: nat): World {
    if bs == [] then w else Arrived(AllArrived(w, bs[..|bs| - 1], pr, author), bs[|bs| - 1], pr, author)
  }

  function AllClosed(w: World, bs: seq<nat>, pr: nat, author: nat, merged: bool, gatePasses: bool): World {
    if bs == [] then w else ClosedPr(AllClosed(w, bs[..|bs| - 1], pr, author, merged, gatePasses), bs[|bs| - 1], pr, author, merged, gatePasses)
  }

  datatype Reopening = Done | NoSuchBounty | NotInReview | PrOpen | PrMerged | NoClosedPr

  datatype DrawOutcome = NoBounty | AlreadyAssigned | NoApplicants | Won(user: nat, firstCome: bool)

  datatype Decision = Decided | ReasonRequired | NobodyHolds | HasPr | NotFound | NotOpen

  class Board {
    var bounties: map<nat, Bounty>
    var assignments: seq<Assignment>
    var submissions: seq<Submission>

    function State(): World
      reads this
    {
      World(bounties, assignments, submissions)
    }

    constructor ()
      ensures State() == Start
    {
      bounties, assignments, submissions := map[], [], [];
    }

    /** One guarded UPDATE over the assignments, row by row. */
    method Update(c: Change)
      modifies this`assignments
      ensures State() == Updated(old(State()), c)
    {
      var before := State();
      for i := 0 to |before.assignments|
        invariant |assignments| == |before.assignments|
        invariant forall j :: 0 <= j < i ==> assignments[j] == Changed(before, c, before.assignments[j])
        invariant forall j :: i <= j < |assignments| ==> assignments[j] == before.assignments[j]
      {
        assignments := assignments[i := Changed(before, c, assignments[i])];
      }
      assert assignments == Updated(before, c).assignments;
    }

    method OnPullRequestActivity(closes: seq<nat>, pr: nat, author: nat)
      modifies this
      ensures State() == AllArrived(old(State()), closes, pr, author)
    {
      for i := 0 to |closes|
        invariant State() == AllArrived(old(State()), closes[..i], pr, author)
      {
        var b := closes[i];
        assert closes[..i + 1][..i] == closes[..i];
        if b in bounties && Reviewable(bounties[b].status) {
          submissions := Upsert(submissions, b, pr, author, Open);
          if bounties[b].status == Posted {
            bounties := bounties[b := bounties[b].(status := InReview)];
          }
          Update(Submits(b, author, pr));
        }
      }
      assert closes[..|closes|] == closes;
    }

    method OnPullRequestClosed(closes: seq<nat>, pr: nat, author: nat, merged: bool, gatePasses: bool)
      modifies this
      ensures State() == AllClosed(old(State()), closes, pr, author, merged, gatePasses)
    {
      for i := 0 to |closes|
        invariant State() == AllClosed(old(State()), closes[..i], pr, author, merged, gatePasses)
      {
        var b := closes[i];
        assert closes[..i + 1][..i] == closes[..i];
        if b in bounties && Reviewable(bounties[b].status) {
          submissions := Upsert(submissions, b, pr, author, if merged then Merged else Closed);
          if !merged {
            Update(Reactivates(b, pr));
            var _ := ReopenAfterUnmergedClose(b, false);
          } else if gatePasses {
            bounties := bounties[b := bounties[b].(status := Payable)];
          }
        }
      }
      assert closes[..|closes|] == closes;
    }

    method ReopenAfterUnmergedClose(b: nat, hold: bool) returns (r: Reopening)
      modifies this
      ensures State() == Reopened(old(State()), b, hold)
      ensures r != Done ==> State() == old(State())
      ensures r == Done <==>
        old(b in bounties && bounties[b].status == InReview && !AnyIn(submissions, b, Open) && !AnyIn(submissions, b, Merged) && AnyIn(submissions, b, Closed))
    {
      if b !in bounties { return NoSuchBounty; }
      if bounties[b].status != InReview { return NotInReview; }
      if AnyIn(submissions, b, Open) { return PrOpen; }
      if AnyIn(submissions, b, Merged) { return PrMerged; }
      if !AnyIn(submissions, b, Closed) { return NoClosedPr; }
      Update(ResetSubmitted(b));
      bounties := bounties[b := bounties[b].(status := Posted, awaitingRedraw := bounties[b].awaitingRedraw || hold)];
      r := Done;
    }

    /** Draws among those in the pool who are not left out of this draw; with no tickets at all, the first to apply. */
    method RunDrawFor(b: nat, applicants: seq<nat>, tickets: seq<real>, draw: real, staleAt: int) returns (r: DrawOutcome)
      requires |applicants| == |tickets|
      requires b in bounties && bounties[b].excluded.Some? ==> bounties[b].excluded.value !in applicants
      modifies this
      ensures r.Won? ==> State() == Drawn(old(State()), b, r.user, staleAt) != old(State()) && r.user in applicants
      ensures !r.Won? ==> State() == old(State())
      ensures r == AlreadyAssigned <==> b in old(bounties) && HasLive(old(State()), b)
      ensures r.Won? && !r.firstCome && draw <= 1.0 ==> exists i: nat :: i < |applicants| && r.user == applicants[i] && Draw.Wins(draw, tickets, i)
      ensures r.Won? && r.firstCome ==> Draw.Total(tickets) <= 0.0 && r.user == applicants[0]
    {
      if b !in bounties { return NoBounty; }
      if HasLive(State(), b) { return AlreadyAssigned; }
      if applicants == [] { return NoApplicants; }
      var i := Draw.PickWeighted(draw, tickets);
      var winner := if i < 0 then applicants[0] else applicants[i];
      bounties := bounties[b := bounties[b].(awaitingRedraw := false, excluded := None)];
      assignments := assignments + [Assignment(b, winner, Active, staleAt, None, false)];
      r := Won(winner, i < 0);
      if i >= 0 && draw <= 1.0 { assert Draw.Wins(draw, tickets, i); }
    }

    method UnassignByDecision(b: nat, reasonGiven: bool) returns (r: Decision)
      modifies this
      ensures r == Decided ==> State() == Unassigned(old(State()), b)
      ensures r != Decided ==> State() == old(State())
      ensures r == Decided <==> reasonGiven && b in old(bounties) && HasLive(old(State()), b) && !HasSubmittedLive(old(State()), b)
    {
      if !reasonGiven { return ReasonRequired; }
      if b !in bounties || !HasLive(State(), b) { return NobodyHolds; }
      if HasSubmittedLive(State(), b) { return HasPr; }
      var holder := HolderOf(State(), b);
      Update(ReleasedByDecision(b));
      bounties := bounties[b := bounties[b].(excluded := holder, awaitingRedraw := true)];
      r := Decided;
    }

    method CloseByDecision(b: nat, reasonGiven: bool) returns (r: Decision)
      modifies this
      ensures r == Decided ==> State() == ClosedDown(old(State()), b) && !HasLive(State(), b)
      ensures r != Decided ==> State() == old(State())
      ensures r == Decided <==> reasonGiven && b in old(bounties) && old(bounties)[b].status == Posted && !HasSubmittedLive(old(State()), b)
    {
      if !reasonGiven { return ReasonRequired; }
      if b !in bounties { return NotFound; }
      if bounties[b].status != Posted { return NotOpen; }
      if HasSubmittedLive(State(), b) { return HasPr; }
      bounties := bounties[b := bounties[b].(status := Cancelled)];
      Update(ReleasedByDecision(b));
      r := Decided;
    }

    method ReleaseStaleAssignments(now: int) returns (released: nat)
      modifies this`assignments
      ensures State() == Updated(old(State()), GoesStale(now))
      ensures released == 0 ==> assignments == old(assignments)
    {
      var before := State();
      released := 0;
      for i := 0 to |before.assignments|
        invariant |assignments| == |before.assignments|
        invariant forall j :: 0 <= j < i ==> assignments[j] == Changed(before, GoesStale(now), before.assignments[j])
        invariant forall j :: i <= j < |assignments| ==> assignments[j] == before.assignments[j]
        invariant released == 0 ==> assignments == before.assignments
      {
        var a := assignments[i];
        var funded := a.bounty in bounties && bounties[a.bounty].funded;
        if a.status == Active && a.staleAt <= now && !funded && !HasOpen(submissions, a.bounty, a.user) {
          assignments := assignments[i := a.(status := ReleasedStale, abandon := !HasSubmitted(submissions, a.bounty, a.user))];
          released := released + 1;
        }
      }
      assert assignments == Updated(before, GoesStale(now)).assignments;
    }
  }
}
