/** Who holds a bounty: draws, pull requests arriving and closing, releases and closures, each one atomic step. */
module Assignments {
  import opened Basics

  datatype BountyStatus = Posted | InReview | Payable | Paid | Cancelled | Expired

  datatype Bounty = Bounty(status: BountyStatus, funded: bool, awaitingRedraw: bool, excluded: Option<nat>)

  datatype AssignmentStatus = Active | PrSubmitted | ReleasedStale | ReleasedVoluntary

  datatype Assignment = Assignment(bounty: nat, user: nat, status: AssignmentStatus, staleAt: int, pr: Option<nat>, abandon: bool)

  datatype SubState = Open | Closed | Merged

  datatype Submission = Submission(bounty: nat, pr: nat, author: nat, state: SubState)

  datatype World = World(bounties: map<nat, Bounty>, assignments: seq<Assignment>, submissions: seq<Submission>)

  predicate Live(a: Assignment) {
    a.status == Active || a.status == PrSubmitted
  }

  /** The statuses in which a pull request still counts for a bounty. */
  predicate Reviewable(s: BountyStatus) {
    s == Posted || s == InReview || s == Payable
  }

  // ----- submissions -----

  function FindSub(subs: seq<Submission>, b: nat, pr: nat): (i: Option<nat>)
    ensures i.Some? ==> i.value < |subs| && subs[i.value].bounty == b && subs[i.value].pr == pr
    ensures i.None? ==> forall j :: 0 <= j < |subs| ==> !(subs[j].bounty == b && subs[j].pr == pr)
  {
    if subs == [] then None
    else if subs[|subs| - 1].bounty == b && subs[|subs| - 1].pr == pr then Some(|subs| - 1)
    else FindSub(subs[..|subs| - 1], b, pr)
  }

  /** One row per bounty and pull request; the author stays who it was first recorded for. */
  function Upsert(subs: seq<Submission>, b: nat, pr: nat, author: nat, state: SubState): seq<Submission> {
    var i := FindSub(subs, b, pr);
    if i.Some? then subs[i.value := subs[i.value].(state := state)] else subs + [Submission(b, pr, author, state)]
  }

  predicate AnyIn(subs: seq<Submission>, b: nat, state: SubState) {
    exists i :: 0 <= i < |subs| && subs[i].bounty == b && subs[i].state == state
  }

  predicate HasSubmitted(subs: seq<Submission>, b: nat, user: nat) {
    exists i :: 0 <= i < |subs| && subs[i].bounty == b && subs[i].author == user
  }

  predicate HasOpen(subs: seq<Submission>, b: nat, user: nat) {
    exists i :: 0 <= i < |subs| && subs[i].bounty == b && subs[i].author == user && subs[i].state == Open
  }

  // ----- UPDATE ... WHERE over the assignments -----

  datatype Change =
    /** The holder's pull request arrived. */
    | Submits(bounty: nat, user: nat, pr: nat)
    /** The holder's own pull request was closed without a merge. */
    | Reactivates(bounty: nat, pr: nat)
    /** A holder marked as having submitted goes back to active. */
    | ResetSubmitted(bounty: nat)
    | ReleasedByDecision(bounty: nat)
    | GoesStale(now: int)

  function Changed(w: World, c: Change, a: Assignment): Assignment {
    match c
    case Submits(b, user, pr) => if a.bounty == b && a.user == user && a.status == Active then a.(status := PrSubmitted, pr := Some(pr)) else a
    case Reactivates(b, pr) => if a.bounty == b && a.status == PrSubmitted && a.pr == Some(pr) then a.(status := Active) else a
    case ResetSubmitted(b) => if a.bounty == b && a.status == PrSubmitted then a.(status := Active) else a
    case ReleasedByDecision(b) => if a.bounty == b && Live(a) then a.(status := ReleasedVoluntary, abandon := false) else a
    case GoesStale(now) =>
      if a.status == Active && a.staleAt <= now && !(a.bounty in w.bounties && w.bounties[a.bounty].funded) && !HasOpen(w.submissions, a.bounty, a.user)
        then a.(status := ReleasedStale, abandon := !HasSubmitted(w.submissions, a.bounty, a.user))
        else a
  }

  function Updated(w: World, c: Change): World {
    w.(assignments := seq(|w.assignments|, i requires 0 <= i < |w.assignments| => Changed(w, c, w.assignments[i])))
  }

  predicate HasLive(w: World, b: nat) {
    exists i :: 0 <= i < |w.assignments| && w.assignments[i].bounty == b && Live(w.assignments[i])
  }

  predicate HasSubmittedLive(w: World, b: nat) {
    exists i :: 0 <= i < |w.assignments| && w.assignments[i].bounty == b && w.assignments[i].status == PrSubmitted
  }

  function SetStatus(w: World, b: nat, s: BountyStatus): World
    requires b in w.bounties
  {
    w.(bounties := w.bounties[b := w.bounties[b].(status := s)])
  }

  // ----- the operations -----

  /** A bounty stops saying "in review" once none of its pull requests is open or merged and one was closed. */
  function Reopened(w: World, b: nat, hold: bool): World {
    if b !in w.bounties || w.bounties[b].status != InReview then w
    else if AnyIn(w.submissions, b, Open) || AnyIn(w.submissions, b, Merged) || !AnyIn(w.submissions, b, Closed) then w
    else
      var reset := Updated(w, ResetSubmitted(b));
      reset.(bounties := w.bounties[b := w.bounties[b].(status := Posted, awaitingRedraw := w.bounties[b].awaitingRedraw || hold)])
  }

  function Arrived(w: World, b: nat, pr: nat, author: nat): World {
    if b !in w.bounties || !Reviewable(w.bounties[b].status) then w
    else
      var recorded := w.(submissions := Upsert(w.submissions, b, pr, author, Open));
      Updated(if w.bounties[b].status == Posted then SetStatus(recorded, b, InReview) else recorded, Submits(b, author, pr))
  }

  function ClosedPr(w: World, b: nat, pr: nat, author: nat, merged: bool, gatePasses: bool): World {
    if b !in w.bounties || !Reviewable(w.bounties[b].status) then w
    else
      var recorded := w.(submissions := Upsert(w.submissions, b, pr, author, if merged then Merged else Closed));
      if !merged then Reopened(Updated(recorded, Reactivates(b, pr)), b, false)
      else if gatePasses then SetStatus(recorded, b, Payable)
      else recorded
  }

  /** A draw that found a winner: refused while somebody holds the bounty. The bounty's status is not looked at. */
  function Drawn(w: World, b: nat, user: nat, staleAt: int): World {
    if b !in w.bounties || HasLive(w, b) || w.bounties[b].excluded == Some(user) then w
    else
      w.(bounties := w.bounties[b := w.bounties[b].(awaitingRedraw := false, excluded := None)],
         assignments := w.assignments + [Assignment(b, user, Active, staleAt, None, false)])
  }

  function HolderOf(w: World, b: nat): Option<nat> {
    HolderFrom(w.assignments, b)
  }

  function HolderFrom(assignments: seq<Assignment>, b: nat): Option<nat> {
    if assignments == [] then None
    else
      var last := assignments[|assignments| - 1];
      if last.bounty == b && Live(last) then Some(last.user) else HolderFrom(assignments[..|assignments| - 1], b)
  }

  /** One side's decision; not once the holder's pull request is open. */
  function Unassigned(w: World, b: nat): World {
    if b !in w.bounties || !HasLive(w, b) || HasSubmittedLive(w, b) then w
    else
      var released := Updated(w, ReleasedByDecision(b));
      released.(bounties := w.bounties[b := w.bounties[b].(excluded := HolderOf(w, b), awaitingRedraw := true)])
  }

  function ClosedDown(w: World, b: nat): World {
    if b !in w.bounties || w.bounties[b].status != Posted || HasSubmittedLive(w, b) then w
    else SetStatus(Updated(w, ReleasedByDecision(b)), b, Cancelled)
  }

  datatype Step =
    | Post(b: nat, funded: bool)
    | DrawWinner(b: nat, user: nat, staleAt: int)
    | PrActivity(b: nat, pr: nat, author: nat)
    | PrClosed(b: nat, pr: nat, author: nat, merged: bool, gatePasses: bool)
    | Reopen(b: nat, hold: bool)
    | UnassignByDecision(b: nat)
    | CloseByDecision(b: nat)
    /** The sweep's repair of one assignment whose holder has this pull request open. */
    | RecordSubmitted(i: nat, pr: nat)
    | ReleaseStale(now: int)
    | Extend(i: nat, staleAt: int)
    /** The payout path and expiry. */
    | Finish(b: nat, to: BountyStatus)

  /** On record under the same author, and not merged before unless it is merged now. */
  predicate SameAuthor(subs: seq<Submission>, b: nat, pr: nat, author: nat, mergedNow: bool) {
    var i := FindSub(subs, b, pr);
    i.Some? ==> subs[i.value].author == author && (subs[i.value].state == Merged ==> mergedNow)
  }

  /** What GitHub guarantees: a pull request keeps its author, and a merge is for good. */
  predicate Plausible(w: World, s: Step) {
    match s
    case PrActivity(b, pr, author) => SameAuthor(w.submissions, b, pr, author, false)
    case PrClosed(b, pr, author, merged, _) => SameAuthor(w.submissions, b, pr, author, merged)
    case _ => true
  }

  function Do(w: World, s: Step): World {
    match s
    case Post(b, funded) => if b in w.bounties then w else w.(bounties := w.bounties[b := Bounty(Posted, funded, false, None)])
    case DrawWinner(b, user, staleAt) => Drawn(w, b, user, staleAt)
    case PrActivity(b, pr, author) => Arrived(w, b, pr, author)
    case PrClosed(b, pr, author, merged, gatePasses) => ClosedPr(w, b, pr, author, merged, gatePasses)
    case Reopen(b, hold) => Reopened(w, b, hold)
    case UnassignByDecision(b) => Unassigned(w, b)
    case CloseByDecision(b) => ClosedDown(w, b)
    case RecordSubmitted(i, pr) =>
      if i < |w.assignments| && w.assignments[i].status == Active
        && FindSub(w.submissions, w.assignments[i].bounty, pr).Some?
        && w.submissions[FindSub(w.submissions, w.assignments[i].bounty, pr).value].author == w.assignments[i].user
        && w.submissions[FindSub(w.submissions, w.assignments[i].bounty, pr).value].state == Open
        then w.(assignments := w.assignments[i := w.assignments[i].(status := PrSubmitted, pr := Some(pr))])
        else w
    case ReleaseStale(now) => Updated(w, GoesStale(now))
    case Extend(i, staleAt) => if i < |w.assignments| then w.(assignments := w.assignments[i := w.assignments[i].(staleAt := staleAt)]) else w
    case Finish(b, to) => if b in w.bounties && to in {Paid, Cancelled, Expired} then SetStatus(w, b, to) else w
  }

  const Start: World := World(map[], [], [])

  function Exec(steps: seq<Step>): World {
    if steps == [] then Start else Do(Exec(steps[..|steps| - 1]), steps[|steps| - 1])
  }

  // ----- what holds at every step -----

  ghost predicate OneHolder(w: World) {
    forall i, j :: 0 <= i < j < |w.assignments| && w.assignments[i].bounty == w.assignments[j].bounty ==> !(Live(w.assignments[i]) && Live(w.assignments[j]))
  }

  ghost predicate ReviewBacked(w: World) {
    forall b :: b in w.bounties && w.bounties[b].status == InReview ==> AnyIn(w.submissions, b, Open) || AnyIn(w.submissions, b, Merged)
  }

  /** Somebody marked as having submitted has that very pull request on record, not closed. */
  ghost predicate SubmittedBacked(w: World) {
    forall i :: 0 <= i < |w.assignments| && w.assignments[i].status == PrSubmitted ==> Backed(w.submissions, w.assignments[i])
  }

  predicate Backed(subs: seq<Submission>, a: Assignment) {
    && a.pr.Some? && FindSub(subs, a.bounty, a.pr.value).Some?
    && var s := subs[FindSub(subs, a.bounty, a.pr.value).value];
    s.author == a.user && s.state != Closed
  }

  ghost predicate SubsDistinct(subs: seq<Submission>) {
    forall i, j :: 0 <= i < j < |subs| ==> !(subs[i].bounty == subs[j].bounty && subs[i].pr == subs[j].pr)
  }

  ghost predicate Sound(w: World) {
    OneHolder(w) && ReviewBacked(w) && SubmittedBacked(w) && SubsDistinct(w.submissions)
  }

  lemma FindIs(subs: seq<Submission>, i: nat)
    requires SubsDistinct(subs) && i < |subs|
    ensures FindSub(subs, subs[i].bounty, subs[i].pr) == Some(i)
  {
    var j := FindSub(subs, subs[i].bounty, subs[i].pr).value;
    assert i == j;
  }

  /** After an upsert that row has the new state and every other row is as it was. */
  lemma UpsertEffects(subs: seq<Submission>, b: nat, pr: nat, author: nat, state: SubState)
    requires SubsDistinct(subs)
    ensures
      var after := Upsert(subs, b, pr, author, state);
      && SubsDistinct(after) && AnyIn(after, b, state)
      && FindSub(after, b, pr).Some? && after[FindSub(after, b, pr).value].state == state
      && after[FindSub(after, b, pr).value].author == (if FindSub(subs, b, pr).Some? then subs[FindSub(subs, b, pr).value].author else author)
      && forall c, p :: (c != b || p != pr) ==>
           FindSub(after, c, p) == FindSub(subs, c, p)
           && (FindSub(subs, c, p).Some? ==> after[FindSub(subs, c, p).value] == subs[FindSub(subs, c, p).value])
  {
    var after := Upsert(subs, b, pr, author, state);
    var at := if FindSub(subs, b, pr).Some? then FindSub(subs, b, pr).value else |subs|;
    assert after[at].bounty == b && after[at].state == state;
    FindIs(after, at);
    forall c, p | c != b || p != pr
      ensures FindSub(after, c, p) == FindSub(subs, c, p)
      ensures (FindSub(subs, c, p).Some? ==> after[FindSub(subs, c, p).value] == subs[FindSub(subs, c, p).value])
    {
      if FindSub(subs, c, p).Some? { FindIs(after, FindSub(subs, c, p).value); }
      if FindSub(after, c, p).Some? { FindIs(subs, FindSub(after, c, p).value); }
    }
  }

  /** Other bounties' submissions, and this bounty's in other states, are found as before. */
  lemma OthersStillIn(subs: seq<Submission>, b: nat, pr: nat, author: nat, state: SubState, c: nat, was: SubState)
    requires AnyIn(subs, c, was) && (c == b ==> FindSub(subs, b, pr).None? || subs[FindSub(subs, b, pr).value].state != was)
    ensures AnyIn(Upsert(subs, b, pr, author, state), c, was)
  {
    var i :| 0 <= i < |subs| && subs[i].bounty == c && subs[i].state == was;
    assert Upsert(subs, b, pr, author, state)[i] == subs[i];
  }
}
