/**
 * The agent beside the signer: imports, wallet changes, approvals forwarded and answered, reconciles, crashes and
 * lost replies, at every await. Its signer half is the machine of GrainhackRun.
 */
module GrainhackAgreement {
  import opened Basics
  import opened GrainhackJournal
  import opened GrainhackStatement
  import opened GrainhackSigner
  import opened GrainhackAgent
  import opened GrainhackBooks
  import opened GrainhackChain
  import opened GrainhackIntake
  import Run = GrainhackRun

  /** `Read`: row, statement and approval fit together. `Checked`: the live wallet fits too. `Claimed`: the row is
      submitted, the request not yet out. `Posted`: the signer has it; the agent may have stopped waiting for the reply. */
  datatype Stage = Read | Checked | Claimed | Posted(waiting: bool)

  datatype Forward = Forward(row: nat, seen: PayoutRow, req: Request, stage: Stage)

  /** A reconcile under way: the rows it read, then the journal it fetched. */
  datatype Sweep = Sweep(seen: map<nat, PayoutRow>, journal: Option<seq<Row>>)

  /** A refreeze under way: it has found its row not yet approved, then the winner's wallet. */
  datatype Refreezing = FoundRow(row: nat, user: nat) | FoundWallet(row: nat, wallet: Option<Address>)

  datatype World = World(
    signer: Run.World, books: Books, held: seq<Held>, wallets: map<nat, Address>, nextId: nat,
    forwards: map<nat, Forward>, sweeps: map<nat, Sweep>, refreezes: map<nat, Refreezing>)

  const Start: World := World(Run.Start, Books([], []), [], map[], 0, map[], map[], map[])

  datatype Step =
    /** Anything on the signer's side: other calls, resolutions, the chain, a dropped connection. */
    | Signer(step: Run.Step)
    | ImportStatement(s: Statement, verifies: bool, cfg: AgentConfig)
    | Relink(user: nat, wallet: Option<Address>)
    | Refresh(hackathon: Option<Uuid>)
    | RefreezeRow(refreeze: nat, row: nat)
    | RefreezeWallet(refreeze: nat)
    | RefreezeWrite(refreeze: nat)
    | ReadForApproval(call: nat, row: nat, approval: Approval, verifies: bool, cfg: AgentConfig, now: int)
    | CheckWallet(call: nat)
    | Claim(call: nat)
    | Post(call: nat)
    | Reply(call: nat)
    | LoseReply(call: nat)
    | StopWaiting(call: nat)
    | Forget(call: nat)
    | SweepRows(sweep: nat, hackathon: Option<Uuid>)
    | SweepJournal(sweep: nat)
    | SweepRow(sweep: nat, row: nat, aged: bool)
    | SweepEnd(sweep: nat)

  function Importing(w: World, s: Statement, verifies: bool, cfg: AgentConfig): World {
    var t := AfterIntake(Tables(w.books.rows, w.held, w.nextId), w.wallets, s, verifies, cfg);
    w.(books := w.books.(rows := t.rows), held := t.held, nextId := t.nextId)
  }

  /** What an approval of this row has to say, none of it taken from the approver. */
  function TermsFor(row: PayoutRow, st: Statement): Option<Terms> {
    if row.recipient.None? then None
    else Some(Terms(row.id, st.id, st.digest, row.winner, row.login, row.recipient.value, row.amount, row.money, row.mint))
  }

  predicate Forwardable(w: World, row: PayoutRow, approval: Approval, cfg: AgentConfig, now: int) {
    var i := FindHeld(w.held, row.statement);
    && row.status == AwaitingApproval
    && i.Some?
    && TermsFor(row, w.held[i.value].statement) == Some(approval.terms)
    && w.held[i.value].statement.money.network == cfg.network
    && ApprovalHolds(approval, cfg.approvers, now)
  }

  /** Answers the agent takes as certain that nothing was recorded: a refusal that is neither 409 nor 5xx. */
  predicate ReadAsRefused(o: Outcome) {
    match o
    case Declined(status) => status != 409 && status < 500
    case Threw => true
    case _ => false
  }

  /** An UPDATE without a status guard; the table's CHECK stops it on a row with no recipient. */
  function Overwrite(b: Books, i: nat, s: RowStatus): Books {
    if i < |b.rows| && b.rows[i].recipient.Some? then SetStatus(b, i, s) else b
  }

  function Answered(b: Books, f: Forward, o: Outcome): Books {
    if f.row >= |b.rows| then b
    else if o.Paid? then MarkPaid(b, f.row, f.seen, o.tx)
    else Overwrite(b, f.row, if ReadAsRefused(o) then AwaitingApproval else OutcomeUnknown)
  }

  function InFlightRows(rows: seq<PayoutRow>, hackathon: Option<Uuid>): map<nat, PayoutRow> {
    map i: nat | 0 <= i < |rows| && InFlight(rows[i].status) && (hackathon.Some? ==> rows[i].winner.pool.hackathon == hackathon.value) :: rows[i]
  }

  function Sweeping(w: World, k: nat, i: nat, aged: bool): World {
    if k !in w.sweeps || w.sweeps[k].journal.None? || i !in w.sweeps[k].seen || i >= |w.books.rows| then w
    else
      var sw := w.sweeps[k];
      var d := Dictate(sw.seen[i], sw.journal.value, aged);
      w.(books := Reconciled(w.books, i, sw.seen[i], d), sweeps := w.sweeps[k := sw.(seen := sw.seen - {i})])
  }

  predicate Rewriting(w: World, k: nat) {
    k in w.refreezes && w.refreezes[k].FoundWallet? && w.refreezes[k].row < |w.books.rows|
  }

  predicate Idle(w: World, c: nat) {
    c !in w.signer.calls || w.signer.calls[c].Answered?
  }

  function Do(w: World, s: Step): World {
    match s
    case Signer(step) =>
      if step.Arrive? && step.call in w.forwards then w else w.(signer := Run.Do(w.signer, step))
    case ImportStatement(st, verifies, cfg) => Importing(w, st, verifies, cfg)
    case Relink(user, wallet) => w.(wallets := if wallet.Some? then w.wallets[user := wallet.value] else w.wallets - {user})
    case Refresh(hackathon) => w.(books := w.books.(rows := RefreshRows(w.books.rows, w.wallets, hackathon)))
    case RefreezeRow(k, i) =>
      if k !in w.refreezes && i < |w.books.rows| && CanRefreeze(w.books.rows[i].status)
        then w.(refreezes := w.refreezes[k := FoundRow(i, w.books.rows[i].winner.user)])
        else w
    case RefreezeWallet(k) =>
      if k in w.refreezes && w.refreezes[k].FoundRow?
        then w.(refreezes := w.refreezes[k := FoundWallet(w.refreezes[k].row, Wallet(w.wallets, w.refreezes[k].user))])
        else w
    case RefreezeWrite(k) =>
      if Rewriting(w, k)
        then w.(books := w.books.(rows := w.books.rows[w.refreezes[k].row := FrozenWith(w.books.rows[w.refreezes[k].row], w.refreezes[k].wallet)]), refreezes := w.refreezes - {k})
        else w
    case ReadForApproval(c, i, approval, verifies, cfg, now) =>
      if i < |w.books.rows| && c !in w.forwards && c !in w.signer.calls && Forwardable(w, w.books.rows[i], approval, cfg, now)
        then
          var st := w.held[FindHeld(w.held, w.books.rows[i].statement).value].statement;
          w.(forwards := w.forwards[c := Forward(i, w.books.rows[i], Request(approval, st, verifies), Read)])
        else w
    case CheckWallet(c) =>
      if c in w.forwards && w.forwards[c].stage == Read then
        if Wallet(w.wallets, w.forwards[c].seen.winner.user) == w.forwards[c].seen.recipient
          then w.(forwards := w.forwards[c := w.forwards[c].(stage := Checked)])
          else w.(forwards := w.forwards - {c})
      else w
    case Claim(c) =>
      if c in w.forwards && w.forwards[c].stage == Checked && w.forwards[c].row < |w.books.rows| then
        if w.books.rows[w.forwards[c].row].status == AwaitingApproval
          then w.(books := SetStatus(w.books, w.forwards[c].row, Submitted), forwards := w.forwards[c := w.forwards[c].(stage := Claimed)])
          else w.(forwards := w.forwards - {c})
      else w
    case Post(c) =>
      if c in w.forwards && w.forwards[c].stage == Claimed && c !in w.signer.calls
        then w.(signer := Run.Do(w.signer, Run.Arrive(c, w.forwards[c].req)), forwards := w.forwards[c := w.forwards[c].(stage := Posted(true))])
        else w
    case Reply(c) =>
      if c in w.forwards && w.forwards[c].stage == Posted(true) && c in w.signer.calls && w.signer.calls[c].Answered?
        then w.(books := Answered(w.books, w.forwards[c], w.signer.calls[c].outcome), signer := Run.Do(w.signer, Run.Drop(c)), forwards := w.forwards - {c})
        else w
    case LoseReply(c) =>
      if c in w.forwards && w.forwards[c].stage in {Claimed, Posted(true)} then
        var w' := w.(books := Overwrite(w.books, w.forwards[c].row, OutcomeUnknown));
        if w.forwards[c].stage == Claimed then w'.(forwards := w.forwards - {c})
        else w'.(forwards := w.forwards[c := w.forwards[c].(stage := Posted(false))])
      else w
    case StopWaiting(c) =>
      if c in w.forwards then
        if w.forwards[c].stage.Posted? then w.(forwards := w.forwards[c := w.forwards[c].(stage := Posted(false))])
        else w.(forwards := w.forwards - {c})
      else w
    case Forget(c) =>
      if c in w.forwards && w.forwards[c].stage == Posted(false) && Idle(w, c)
        then w.(signer := Run.Do(w.signer, Run.Drop(c)), forwards := w.forwards - {c})
        else w
    case SweepRows(k, hackathon) => if k in w.sweeps then w else w.(sweeps := w.sweeps[k := Sweep(InFlightRows(w.books.rows, hackathon), None)])
    case SweepJournal(k) =>
      if k in w.sweeps && w.sweeps[k].journal.None? then w.(sweeps := w.sweeps[k := w.sweeps[k].(journal := Some(w.signer.rows))]) else w
    case SweepRow(k, i, aged) => Sweeping(w, k, i, aged)
    case SweepEnd(k) => w.(sweeps := w.sweeps - {k})
  }

  function Exec(steps: seq<Step>): World {
    if steps == [] then Start else Do(Exec(steps[..|steps| - 1]), steps[|steps| - 1])
  }

  // ----- the signer's half is a run of the signer's machine -----

  /** The signer steps one combined step makes. */
  function SignerSteps(w: World, s: Step): seq<Run.Step> {
    match s
    case Signer(step) => if step.Arrive? && step.call in w.forwards then [] else [step]
    case Post(c) => if Do(w, s) == w then [] else [Run.Arrive(c, w.forwards[c].req)]
    case Reply(c) => if Do(w, s) == w then [] else [Run.Drop(c)]
    case Forget(c) => if Do(w, s) == w then [] else [Run.Drop(c)]
    case _ => []
  }

  function SignerRun(steps: seq<Step>): seq<Run.Step> {
    if steps == [] then []
    else SignerRun(steps[..|steps| - 1]) + SignerSteps(Exec(steps[..|steps| - 1]), steps[|steps| - 1])
  }

  /** So everything proved of every signer run, pay-once and the caps first, holds whatever the agent does. */
  lemma {:induction false} SignerHalf(steps: seq<Step>)
    ensures Exec(steps).signer == Run.Exec(SignerRun(steps)) && Run.Inv(Exec(steps).signer)
  {
    Run.EveryRun(SignerRun(steps));
    if steps != [] {
      var before := steps[..|steps| - 1];
      var s := steps[|steps| - 1];
      SignerHalf(before);
      var more := SignerSteps(Exec(before), s);
      SignerStepsDo(Exec(before), s);
      if more == [] {
        assert SignerRun(steps) == SignerRun(before);
      } else {
        assert SignerRun(steps)[..|SignerRun(steps)| - 1] == SignerRun(before);
      }
    }
  }

  lemma SignerStepsDo(w: World, s: Step)
    ensures
      var more := SignerSteps(w, s);
      |more| <= 1 && Do(w, s).signer == if more == [] then w.signer else Run.Do(w.signer, more[0])
  {
  }

  // ----- the statements held -----

  /** In every run, orderly or not, the statements the agent holds form one line of supersessions per pool, with one head. */
  lemma {:induction false} ChainsOverRuns(steps: seq<Step>)
    ensures ChainsSound(Exec(steps).held)
  {
    if steps == [] {
      assert forall pool :: OfPool([], pool) == [];
    } else {
      ChainsOverRuns(steps[..|steps| - 1]);
      StepKeepsChains(Exec(steps[..|steps| - 1]), steps[|steps| - 1]);
    }
  }

  lemma StepKeepsChains(w: World, s: Step)
    requires ChainsSound(w.held)
    ensures ChainsSound(Do(w, s).held)
  {
    hide ChainsSound, Run.Do;
    if s.ImportStatement? {
      if AnswerTo(Tables(w.books.rows, w.held, w.nextId), s.s, s.verifies, s.cfg).Imported? {
        AcceptKeepsChains(w.held, s.s, s.cfg.network, s.cfg.mints);
      }
    } else {
      assert Do(w, s).held == w.held;
    }
  }
}
