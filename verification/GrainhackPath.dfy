/** Runs continued from any state, and the ordinary way a request at the signer becomes a landed transfer. */
module GrainhackPath {
  import opened Basics
  import opened GrainhackJournal
  import opened GrainhackStatement
  import opened GrainhackSigner
  import opened GrainhackAgent
  import opened GrainhackBooks
  import opened GrainhackAgreement
  import opened GrainhackOrderly
  import opened GrainhackOrderlyAgent
  import Run = GrainhackRun

  // ----- continuing a run -----

  function ExecFrom(w: World, steps: seq<Step>): World {
    if steps == [] then w else Do(ExecFrom(w, steps[..|steps| - 1]), steps[|steps| - 1])
  }

  ghost predicate OrderlyFrom(w: World, steps: seq<Step>) {
    forall n :: 0 <= n < |steps| ==> Orderly(ExecFrom(w, steps[..n]), steps[n])
  }

  lemma {:induction false} ExecSplit(a: seq<Step>, b: seq<Step>)
    ensures Exec(a + b) == ExecFrom(Exec(a), b)
  {
    if b == [] {
      assert a + b == a;
    } else {
      assert (a + b)[..|a + b| - 1] == a + b[..|b| - 1];
      ExecSplit(a, b[..|b| - 1]);
    }
  }

  lemma OneMore(w: World, steps: seq<Step>, s: Step)
    requires OrderlyFrom(w, steps) && Orderly(ExecFrom(w, steps), s)
    ensures OrderlyFrom(w, steps + [s]) && ExecFrom(w, steps + [s]) == Do(ExecFrom(w, steps), s)
  {
    var more := steps + [s];
    assert more[..|more| - 1] == steps;
    forall n | 0 <= n < |more| ensures Orderly(ExecFrom(w, more[..n]), more[n]) {
      assert n < |steps| ==> more[..n] == steps[..n];
    }
  }

  lemma {:induction false} AfterMore(w: World, a: seq<Step>, b: seq<Step>)
    requires OrderlyFrom(w, a) && OrderlyFrom(ExecFrom(w, a), b)
    ensures OrderlyFrom(w, a + b) && ExecFrom(w, a + b) == ExecFrom(ExecFrom(w, a), b)
  {
    hide Do, Orderly;
    if b == [] {
      assert a + b == a;
    } else {
      var n := |b| - 1;
      assert OrderlyFrom(ExecFrom(w, a), b[..n]) by {
        forall m | 0 <= m < n ensures Orderly(ExecFrom(ExecFrom(w, a), b[..n][..m]), b[..n][m]) { assert b[..n][..m] == b[..m]; }
      }
      AfterMore(w, a, b[..n]);
      assert a + b == (a + b[..n]) + [b[n]];
      OneMore(w, a + b[..n], b[n]);
    }
  }

  lemma {:induction false} AgreeFrom(w: World, steps: seq<Step>)
    requires Agree(w) && OrderlyFrom(w, steps)
    ensures Agree(ExecFrom(w, steps))
  {
    hide Agree, Do, Orderly;
    if steps != [] {
      var before := steps[..|steps| - 1];
      assert OrderlyFrom(w, before) by {
        forall n | 0 <= n < |before| ensures Orderly(ExecFrom(w, before[..n]), before[n]) { assert before[..n] == steps[..n]; }
      }
      AgreeFrom(w, before);
      StepAgrees(ExecFrom(w, before), steps[|steps| - 1]);
    }
  }

  /** Somebody reading the tables can come to see them disagree, though from here on nothing goes out of order. */
  ghost predicate Harmed(w: World) {
    exists steps :: OrderlyFrom(w, steps) && !VisiblyAgrees(ExecFrom(w, steps))
  }

  lemma AgreeIsUnharmed(w: World)
    requires Agree(w)
    ensures !Harmed(w)
  {
    forall steps | OrderlyFrom(w, steps) ensures VisiblyAgrees(ExecFrom(w, steps)) {
      AgreeFrom(w, steps);
      AgreeIsVisible(ExecFrom(w, steps));
    }
  }

  lemma HarmedBy(w: World, steps: seq<Step>)
    requires OrderlyFrom(w, steps) && !VisiblyAgrees(ExecFrom(w, steps))
    ensures Harmed(w)
  {
  }

  // ----- from one state to another -----

  /** Some steps in order lead from here to there. */
  ghost predicate Leads(w: World, w': World) {
    exists steps :: OrderlyFrom(w, steps) && ExecFrom(w, steps) == w'
  }

  lemma LeadsBy(w: World, steps: seq<Step>)
    requires OrderlyFrom(w, steps)
    ensures Leads(w, ExecFrom(w, steps))
  {
  }

  lemma HarmedVia(w: World, w': World)
    requires Leads(w, w') && !VisiblyAgrees(w')
    ensures Harmed(w)
  {
    hide OrderlyFrom, ExecFrom, VisiblyAgrees;
    var steps :| OrderlyFrom(w, steps) && ExecFrom(w, steps) == w';
    HarmedBy(w, steps);
  }

  lemma LeadsNowhere(w: World)
    ensures Leads(w, w)
  {
    StartsOrderly(w);
    LeadsBy(w, []);
  }

  lemma LeadsOn(w: World, w1: World, w2: World)
    requires Leads(w, w1) && Leads(w1, w2)
    ensures Leads(w, w2)
  {
    hide OrderlyFrom, ExecFrom;
    var a :| OrderlyFrom(w, a) && ExecFrom(w, a) == w1;
    var b :| OrderlyFrom(w1, b) && ExecFrom(w1, b) == w2;
    AfterMore(w, a, b);
  }

  lemma LeadsThen(w: World, w1: World, s: Step)
    requires Leads(w, w1) && Orderly(w1, s)
    ensures Leads(w, Do(w1, s))
  {
    hide OrderlyFrom, ExecFrom, Orderly, Do;
    var steps :| OrderlyFrom(w, steps) && ExecFrom(w, steps) == w1;
    OneMore(w, steps, s);
  }

  /** ... from the empty state, so an orderly run does. */
  lemma RunTo(w: World) returns (steps: seq<Step>)
    requires Leads(GrainhackAgreement.Start, w)
    ensures OrderlyRun(steps) && Exec(steps) == w
  {
    hide Orderly, Do;
    steps :| OrderlyFrom(GrainhackAgreement.Start, steps) && ExecFrom(GrainhackAgreement.Start, steps) == w;
    FromStart(steps);
    forall n | 0 <= n < |steps| ensures Orderly(Exec(steps[..n]), steps[n]) { FromStart(steps[..n]); }
  }

  lemma FromStart(steps: seq<Step>)
    ensures Exec(steps) == ExecFrom(GrainhackAgreement.Start, steps)
  {
    ExecSplit([], steps);
    assert [] + steps == steps;
  }

  // ----- from a request at the signer to a landed transfer -----

  function AfterRecord(v: Run.World, c: nat, o: Order, g: Grant, tx: Transfer): Run.World {
    v.(rows := v.rows + [NewRow(o, tx, Some(tx.expires))], granted := v.granted + [g], calls := v.calls[c := Run.Holding(|v.rows|)])
  }

  function AfterLanding(v: Run.World, c: nat, o: Order, g: Grant, tx: Transfer): Run.World {
    Run.World(v.rows + [NewRow(o, tx, Some(tx.expires)).(status := Status.Sent)], v.granted + [g],
      Chain(v.chain.height, v.chain.onWire + {tx}, v.chain.landed[tx := true]), v.calls[c := Run.Broadcasting(|v.rows|)])
  }

  /** The rail can build this transfer now, and it is not one the journal has. */
  predicate Buildable(v: Run.World, o: Order, tx: Transfer) {
    Run.BuiltFor(tx, o) && Find(v.rows, ByTransfer(tx)).None? && tx !in v.chain.landed && v.chain.height <= tx.expires
  }

  lemma Checks(v: Run.World, c: nat, cfg: Config, now: int, day: nat)
    requires c in v.calls && v.calls[c].Arrived? && Begin(v.rows, cfg, v.calls[c].req, now, day).Build?
    ensures
      var req := v.calls[c].req;
      var b := Begin(v.rows, cfg, req, now, day);
      && Run.Do(v, Run.Check(c, cfg, now, day)) == v.(calls := v.calls[c := Run.Building(b.order, b.limits, Grant(req, cfg, now))])
      && Check(v.rows, b.order, b.limits).None? && b.order == OrderFor(req, day)
  {
    BeginChecks(v.rows, cfg, v.calls[c].req, now, day);
    hide Begin, Check, Authorises;
    assert Begin(v.rows, cfg, v.calls[c].req, now, day).order == OrderFor(v.calls[c].req, day) by { BuildsItsOrder(v.rows, cfg, v.calls[c].req, now, day); }
  }

  lemma BuildsItsOrder(rows: seq<Row>, cfg: Config, req: Request, now: int, day: nat)
    requires Begin(rows, cfg, req, now, day).Build?
    ensures Begin(rows, cfg, req, now, day).order == OrderFor(req, day)
  {
    hide Check, ApprovalHolds, LineFor;
  }

  lemma Reserves(v: Run.World, c: nat, o: Order, limits: Limits, g: Grant, tx: Transfer)
    requires c in v.calls && v.calls[c] == Run.Building(o, limits, g) && Check(v.rows, o, limits).None? && Buildable(v, o, tx)
    ensures Run.Do(v, Run.Prepared(c, Some((tx, true)))) == AfterRecord(v, c, o, g, tx)
  {
    hide Check, Find;
  }

  lemma Lands(v: Run.World, c: nat, o: Order, g: Grant, tx: Transfer)
    requires Buildable(v, o, tx)
    ensures
      var held := AfterRecord(v, c, o, g, tx);
      var marked := Run.Do(held, Run.MarkSent(c));
      Run.Do(Run.Do(marked, Run.Send(c)), Run.Land(tx, true)) == AfterLanding(v, c, o, g, tx)
  {
    var k := |v.rows|;
    var held := AfterRecord(v, c, o, g, tx);
    var sent := v.rows + [NewRow(o, tx, Some(tx.expires)).(status := Status.Sent)];
    assert Moved(held.rows, k, Status.Sent, None) == sent;
    var marked := held.(rows := sent, calls := v.calls[c := Run.Marked(k)]);
    assert Run.Do(held, Run.MarkSent(c)) == marked by { assert held.calls[c := Run.Marked(k)] == v.calls[c := Run.Marked(k)]; }
    var sending := marked.(chain := v.chain.(onWire := v.chain.onWire + {tx}), calls := v.calls[c := Run.Broadcasting(k)]);
    assert Run.Do(marked, Run.Send(c)) == sending by { assert marked.calls[c := Run.Broadcasting(k)] == v.calls[c := Run.Broadcasting(k)]; }
  }

  /** A step of the signer or the chain that no assumption is about. */
  lemma SignerMore(w: World, steps: seq<Step>, s: Run.Step)
    requires OrderlyFrom(w, steps) && !s.Arrive? && !s.Resolve?
    ensures
      var before := ExecFrom(w, steps);
      OrderlyFrom(w, steps + [Signer(s)]) && ExecFrom(w, steps + [Signer(s)]) == before.(signer := Run.Do(before.signer, s))
  {
    hide Run.Do, OrderlyFrom, ExecFrom;
    OneMore(w, steps, Signer(s));
  }

  /** A request the signer accepts is built and recorded. */
  lemma Recording(w: World, c: nat, cfg: Config, now: int, day: nat, tx: Transfer) returns (steps: seq<Step>)
    requires c in w.signer.calls && w.signer.calls[c].Arrived? && Begin(w.signer.rows, cfg, w.signer.calls[c].req, now, day).Build?
    requires Buildable(w.signer, OrderFor(w.signer.calls[c].req, day), tx)
    ensures |steps| == 2 && OrderlyFrom(w, steps)
    ensures
      var req := w.signer.calls[c].req;
      ExecFrom(w, steps) == w.(signer := AfterRecord(w.signer, c, OrderFor(req, day), Grant(req, cfg, now), tx))
  {
    var req := w.signer.calls[c].req;
    var b := Begin(w.signer.rows, cfg, req, now, day);
    var g := Grant(req, cfg, now);
    var building := w.signer.(calls := w.signer.calls[c := Run.Building(b.order, b.limits, g)]);
    Checks(w.signer, c, cfg, now, day);
    Reserves(building, c, b.order, b.limits, g, tx);
    assert AfterRecord(building, c, b.order, g, tx) == AfterRecord(w.signer, c, b.order, g, tx) by {
      assert building.calls[c := Run.Holding(|w.signer.rows|)] == w.signer.calls[c := Run.Holding(|w.signer.rows|)];
    }
    hide Begin, Run.Do, OrderlyFrom, AfterRecord, Check, Buildable;
    assert OrderlyFrom(w, []) && ExecFrom(w, []) == w by { StartsOrderly(w); }
    SignerMore(w, [], Run.Check(c, cfg, now, day));
    steps := [] + [Signer(Run.Check(c, cfg, now, day))];
    SignerMore(w, steps, Run.Prepared(c, Some((tx, true))));
    steps := steps + [Signer(Run.Prepared(c, Some((tx, true))))];
  }

  lemma StartsOrderly(w: World)
    ensures OrderlyFrom(w, []) && ExecFrom(w, []) == w
  {
  }

  /** ... then sent, and it executes while its broadcast still waits. */
  lemma Landing(w: World, c: nat, cfg: Config, now: int, day: nat, tx: Transfer) returns (steps: seq<Step>)
    requires c in w.signer.calls && w.signer.calls[c].Arrived? && Begin(w.signer.rows, cfg, w.signer.calls[c].req, now, day).Build?
    requires Buildable(w.signer, OrderFor(w.signer.calls[c].req, day), tx)
    ensures |steps| == 5 && OrderlyFrom(w, steps)
    ensures
      var req := w.signer.calls[c].req;
      ExecFrom(w, steps) == w.(signer := AfterLanding(w.signer, c, OrderFor(req, day), Grant(req, cfg, now), tx))
  {
    var req := w.signer.calls[c].req;
    Lands(w.signer, c, OrderFor(req, day), Grant(req, cfg, now), tx);
    hide Begin, Run.Do, OrderlyFrom, ExecFrom, AfterRecord, AfterLanding, Buildable;
    steps := Recording(w, c, cfg, now, day, tx);
    SignerMore(w, steps, Run.MarkSent(c));
    steps := steps + [Signer(Run.MarkSent(c))];
    SignerMore(w, steps, Run.Send(c));
    steps := steps + [Signer(Run.Send(c))];
    SignerMore(w, steps, Run.Land(tx, true));
    steps := steps + [Signer(Run.Land(tx, true))];
  }
}
