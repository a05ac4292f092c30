/** What `importStatement` does to the agent's tables as a whole, and how the polling walk brings it up to the backend. */
module GrainhackIntake {
  import opened Basics
  import opened GrainhackJournal
  import opened GrainhackStatement
  import opened GrainhackAgent
  import opened GrainhackBooks
  import opened GrainhackChain

  datatype AgentConfig = AgentConfig(network: Network, mints: map<Currency, Address>, approvers: set<Address>)

  datatype Tables = Tables(rows: seq<PayoutRow>, held: seq<Held>, nextId: nat)

  datatype Answer = Unverified | Rejected(why: GrainhackChain.Refusal) | AlreadyImported | Imported

  function FreshIds(next: nat, n: nat): seq<Uuid> {
    seq(n, k requires 0 <= k < n => Uuid(next + k))
  }

  function AnswerTo(t: Tables, s: Statement, verifies: bool, cfg: AgentConfig): Answer {
    if !verifies || !WellFormed(s) then Unverified
    else
      match Judge(t.held, s, cfg.network, cfg.mints)
      case Refuse(why) => Rejected(why)
      case AlreadyHeld => AlreadyImported
      case Accept => Imported
  }

  function AfterIntake(t: Tables, wallets: map<nat, Address>, s: Statement, verifies: bool, cfg: AgentConfig): Tables {
    match AnswerTo(t, s, verifies, cfg)
    case Unverified => t
    case Rejected(_) => t
    case AlreadyImported => t.(rows := RefreshRows(t.rows, wallets, Some(s.pool.hackathon)))
    case Imported =>
      var m := Import(s, cfg.mints[s.money.currency], wallets);
      Tables(AfterImport(m, t.rows, FreshIds(t.nextId, |s.lines|)), AfterHold(t.held, s), t.nextId + |s.lines|)
  }

  ghost predicate Sound(t: Tables) {
    && RowsDistinct(t.rows) && RecipientsFrozen(t.rows) && ChainsSound(t.held)
    && forall i :: 0 <= i < |t.rows| ==> t.rows[i].id.n < t.nextId
  }

  lemma NewIds(t: Tables, n: nat)
    requires Sound(t)
    ensures Fresh(t.rows, FreshIds(t.nextId, n))
  {
  }

  lemma RowIds(m: Import, before: seq<PayoutRow>, next: nat)
    requires WellFormed(m.s) && RowsDistinct(before) && (forall i :: 0 <= i < |before| ==> before[i].id.n < next)
    ensures
      var after := AfterImport(m, before, FreshIds(next, |m.s.lines|));
      forall i :: 0 <= i < |after| ==> after[i].id.n < next + |m.s.lines|
  {
    var ids := FreshIds(next, |m.s.lines|);
    ImportAt(m, before, ids);
    hide AfterImport;
    var after := AfterImport(m, before, ids);
    forall i | 0 <= i < |after| ensures after[i].id.n < next + |ids| {
      if i < |before| {
        assert ImportedFrom(m, before[i], after[i]);
      } else {
        assert NewFrom(m, before, m.s.lines, ids, after[i]);
      }
    }
  }

  /** Whatever is sent to it, importing keeps one row per winner, frozen recipients and linear chains. */
  lemma IntakeKeepsSound(t: Tables, wallets: map<nat, Address>, s: Statement, verifies: bool, cfg: AgentConfig)
    requires Sound(t)
    ensures Sound(AfterIntake(t, wallets, s, verifies, cfg))
  {
    if AnswerTo(t, s, verifies, cfg).Imported? {
      var m := Import(s, cfg.mints[s.money.currency], wallets);
      var ids := FreshIds(t.nextId, |s.lines|);
      NewIds(t, |s.lines|);
      hide ChainsSound, AfterImport, AfterHold;
      ImportKeepsDistinct(m, t.rows, ids);
      ImportKeepsRecipients(m, t.rows, ids);
      RowIds(m, t.rows, t.nextId);
      AcceptKeepsChains(t.held, s, cfg.network, cfg.mints);
    }
  }

  // ----- the polling walk -----

  /** What the backend answers: the newest statement of the event, and any statement by its id. */
  datatype Source = Source(latest: Option<Statement>, byId: map<Uuid, Statement>)

  const MAX_WALK: nat := 50

  /** The statements still to import, newest last, found by following `supersedes` from the newest; None where a fetch throws. */
  function Walk(src: Source, held: seq<Held>, chain: seq<Statement>, left: nat): Option<seq<Statement>>
    requires chain != []
    decreases left
  {
    if left == 0 then Some(chain)
    else if FindHeld(held, chain[0].id).Some? then Some(chain[1..])
    else if chain[0].supersedes.None? then Some(chain)
    else if chain[0].supersedes.value !in src.byId then None
    else Walk(src, held, [src.byId[chain[0].supersedes.value]] + chain, left - 1)
  }

  /** Oldest first, stopping at the first refusal. */
  function ImportAll(t: Tables, wallets: map<nat, Address>, cfg: AgentConfig, todo: seq<Statement>): Tables
    decreases |todo|
  {
    if todo == [] || AnswerTo(t, todo[0], true, cfg).Unverified? || AnswerTo(t, todo[0], true, cfg).Rejected? then t
    else ImportAll(AfterIntake(t, wallets, todo[0], true, cfg), wallets, cfg, todo[1..])
  }

  function Discovered(t: Tables, wallets: map<nat, Address>, cfg: AgentConfig, src: Source): Tables {
    if src.latest.None? then t
    else
      match Walk(src, t.held, [src.latest.value], MAX_WALK)
      case None => t
      case Some(todo) => ImportAll(t, wallets, cfg, todo)
  }

  // ----- what the walk finds -----

  function Statements(chain: seq<Held>): seq<Statement> {
    seq(|chain|, k requires 0 <= k < |chain| => chain[k].statement)
  }

  /** The backend's statements of one pool: one line of supersessions, each of them importable by this agent. */
  ghost predicate BackendChain(line: seq<Statement>, src: Source, cfg: AgentConfig, pool: EventPool) {
    && line != [] && src.latest == Some(line[|line| - 1]) && line[0].supersedes.None?
    && (forall k :: 0 <= k < |line| ==> Importable(line[k], line[0], cfg, pool) && line[k].id in src.byId && src.byId[line[k].id] == line[k])
    && (forall k :: 0 < k < |line| ==> line[k].supersedes == Some(line[k - 1].id))
    && (forall j, k :: 0 <= j < k < |line| ==> line[j].id != line[k].id)
  }

  predicate Importable(s: Statement, first: Statement, cfg: AgentConfig, pool: EventPool) {
    && WellFormed(s) && s.pool == pool && s.money.network == cfg.network && s.money.currency in cfg.mints
    && s.computation == first.computation && s.money == first.money
  }

  /** For this pool the agent holds the statements lo to hi of the line, in that order, and under no pool another of the line's. */
  ghost predicate HoldsSpan(t: Tables, line: seq<Statement>, pool: EventPool, lo: nat, hi: nat) {
    && Sound(t) && lo <= hi <= |line| && Statements(OfPool(t.held, pool)) == line[lo..hi]
    && forall k :: 0 <= k < |line| ==> (FindHeld(t.held, line[k].id).Some? <==> lo <= k < hi)
  }

  /** Where in the line a walk that stands at `from` ends up, when the first h are held. */
  function WalkEnd(from: nat, left: nat, h: nat): nat {
    if from < h && 0 < left then from + 1
    else if 0 < h <= from && from - h + 2 <= left then h
    else Max(from - left, 0)
  }

  lemma {:induction false} WalkStops(src: Source, t: Tables, line: seq<Statement>, cfg: AgentConfig, pool: EventPool, h: nat, from: nat, left: nat)
    requires BackendChain(line, src, cfg, pool) && HoldsSpan(t, line, pool, 0, h) && from < |line|
    ensures WalkEnd(from, left, h) <= |line| && Walk(src, t.held, line[from..], left) == Some(line[WalkEnd(from, left, h)..])
    decreases left
  {
    assert FindHeld(t.held, line[from].id).Some? <==> from < h;
    assert line[from..][1..] == line[from + 1..];
    if left > 0 && h <= from && 0 < from {
      StepBack(src, line, cfg, pool, from);
      WalkStops(src, t, line, cfg, pool, h, from - 1, left - 1);
    } else {
      assert from == 0 ==> line[from].supersedes.None?;
      hide BackendChain, HoldsSpan, Sound;
    }
  }

  lemma StepBack(src: Source, line: seq<Statement>, cfg: AgentConfig, pool: EventPool, from: nat)
    requires BackendChain(line, src, cfg, pool) && 0 < from < |line|
    ensures line[from].supersedes.Some? && line[from].supersedes.value in src.byId
    ensures [src.byId[line[from].supersedes.value]] + line[from..] == line[from - 1..]
  {
    assert line[from].supersedes == Some(line[from - 1].id);
    assert [line[from - 1]] + line[from..] == line[from - 1..];
  }

  // ----- importing what it found -----

  lemma EndOfSpan(t: Tables, line: seq<Statement>, pool: EventPool, lo: nat, hi: nat)
    requires HoldsSpan(t, line, pool, lo, hi)
    ensures
      var cur := Current(t.held, pool);
      if lo == hi then cur.None? else cur.Some? && t.held[cur.value].statement == line[hi - 1]
  {
    CurrentIsTheEnd(t.held, pool);
    var chain := OfPool(t.held, pool);
    assert |chain| == hi - lo;
    if lo < hi { assert Statements(chain)[hi - lo - 1] == line[lo..hi][hi - lo - 1]; }
  }

  lemma {:induction false} FindAfterHold(held: seq<Held>, i: nat, replacement: Held, id: Uuid)
    requires i < |held| && replacement.statement == held[i].statement
    ensures FindHeld(held[i := replacement], id) == FindHeld(held, id)
  {
    var n := |held| - 1;
    if i < n {
      assert held[i := replacement][..n] == held[..n][i := replacement];
      FindAfterHold(held[..n], i, replacement, id);
    } else {
      assert held[i := replacement][..n] == held[..n];
    }
  }

  lemma FoundAfterHold(held: seq<Held>, s: Statement, id: Uuid)
    ensures FindHeld(AfterHold(held, s), id).Some? <==> id == s.id || FindHeld(held, id).Some?
  {
    var cur := Current(held, s.pool);
    var marked := if cur.Some? then held[cur.value := held[cur.value].(supersededBy := Some(s.id))] else held;
    if cur.Some? { FindAfterHold(held, cur.value, held[cur.value].(supersededBy := Some(s.id)), id); }
    assert AfterHold(held, s)[..|marked|] == marked;
  }

  lemma StatementsExtended(chain: seq<Held>, s: Statement)
    ensures Statements(Extended(chain, s)) == Statements(chain) + [s]
  {
  }

  lemma NextAnswer(t: Tables, src: Source, cfg: AgentConfig, line: seq<Statement>, pool: EventPool, lo: nat, hi: nat)
    requires BackendChain(line, src, cfg, pool) && HoldsSpan(t, line, pool, lo, hi) && hi < |line|
    ensures AnswerTo(t, line[hi], true, cfg).Imported? && line[hi].pool == pool && ChainsSound(t.held)
  {
    EndOfSpan(t, line, pool, lo, hi);
    assert Importable(line[hi], line[0], cfg, pool);
    assert hi > 0 ==> Importable(line[hi - 1], line[0], cfg, pool);
  }

  /** The next statement of the line, or any of it when nothing is held, is imported and becomes the current one. */
  lemma ImportNext(t: Tables, wallets: map<nat, Address>, src: Source, cfg: AgentConfig, line: seq<Statement>, pool: EventPool, lo: nat, hi: nat)
    requires BackendChain(line, src, cfg, pool) && HoldsSpan(t, line, pool, lo, hi) && hi < |line|
    ensures AnswerTo(t, line[hi], true, cfg).Imported?
    ensures HoldsSpan(AfterIntake(t, wallets, line[hi], true, cfg), line, pool, lo, hi + 1)
    ensures forall p :: p != pool ==> OfPool(AfterIntake(t, wallets, line[hi], true, cfg).held, p) == OfPool(t.held, p)
  {
    var s := line[hi];
    NextAnswer(t, src, cfg, line, pool, lo, hi);
    var t' := AfterIntake(t, wallets, s, true, cfg);
    assert t'.held == AfterHold(t.held, s);
    IntakeKeepsSound(t, wallets, s, true, cfg);
    hide Sound, BackendChain, AfterIntake, AnswerTo, AfterHold, ChainsSound;
    forall p ensures OfPool(t'.held, p) == if p == pool then Extended(OfPool(t.held, p), s) else OfPool(t.held, p) { AcceptExtends(t.held, s, p); }
    StatementsExtended(OfPool(t.held, pool), s);
    assert line[lo..hi + 1] == line[lo..hi] + [s];
    forall k | 0 <= k < |line| ensures FindHeld(t'.held, line[k].id).Some? <==> lo <= k < hi + 1 {
      FoundAfterHold(t.held, s, line[k].id);
      if k != hi { IdsApart(line, src, cfg, pool, k, hi); }
    }
  }

  lemma IdsApart(line: seq<Statement>, src: Source, cfg: AgentConfig, pool: EventPool, j: nat, k: nat)
    requires BackendChain(line, src, cfg, pool) && j < |line| && k < |line| && j != k
    ensures line[j].id != line[k].id
  {
    assert j < k ==> line[j].id != line[k].id;
    assert k < j ==> line[k].id != line[j].id;
  }

  lemma HeldApart(held: seq<Held>, i: nat, j: nat)
    requires ChainsSound(held) && i < |held| && j < |held| && i != j
    ensures held[i].statement.id != held[j].statement.id
  {
    assert i < j ==> held[i].statement.id != held[j].statement.id;
    assert j < i ==> held[j].statement.id != held[i].statement.id;
  }

  lemma {:induction false} ImportRest(t: Tables, wallets: map<nat, Address>, src: Source, cfg: AgentConfig, line: seq<Statement>, pool: EventPool, lo: nat, hi: nat)
    requires BackendChain(line, src, cfg, pool) && HoldsSpan(t, line, pool, lo, hi)
    ensures HoldsSpan(ImportAll(t, wallets, cfg, line[hi..]), line, pool, lo, |line|)
    ensures forall p :: p != pool ==> OfPool(ImportAll(t, wallets, cfg, line[hi..]).held, p) == OfPool(t.held, p)
    decreases |line| - hi
  {
    hide HoldsSpan, BackendChain, AnswerTo, AfterIntake;
    assert hi <= |line| by { SpanFits(t, line, pool, lo, hi); }
    if hi < |line| {
      ImportNext(t, wallets, src, cfg, line, pool, lo, hi);
      assert line[hi..][1..] == line[hi + 1..];
      ImportRest(AfterIntake(t, wallets, line[hi], true, cfg), wallets, src, cfg, line, pool, lo, hi + 1);
    } else {
      assert line[hi..] == [];
    }
  }

  lemma SpanFits(t: Tables, line: seq<Statement>, pool: EventPool, lo: nat, hi: nat)
    requires HoldsSpan(t, line, pool, lo, hi)
    ensures lo <= hi <= |line|
  {
  }

  /** The walk may pick up the current statement once more: importing it again changes no statement. */
  lemma ImportHeadAgain(t: Tables, wallets: map<nat, Address>, src: Source, cfg: AgentConfig, line: seq<Statement>, pool: EventPool, h: nat)
    requires BackendChain(line, src, cfg, pool) && HoldsSpan(t, line, pool, 0, h) && 0 < h
    ensures AnswerTo(t, line[h - 1], true, cfg).AlreadyImported?
    ensures HoldsSpan(AfterIntake(t, wallets, line[h - 1], true, cfg), line, pool, 0, h)
    ensures AfterIntake(t, wallets, line[h - 1], true, cfg).held == t.held
  {
    var s := line[h - 1];
    EndOfSpan(t, line, pool, 0, h);
    assert Importable(s, line[0], cfg, pool);
    var i, j := FindHeld(t.held, s.id).value, Current(t.held, pool).value;
    if i != j { HeldApart(t.held, i, j); }
    IntakeKeepsSound(t, wallets, s, true, cfg);
  }

  /** A poll imports the line from where its walk ended. */
  lemma DiscoveredFrom(t: Tables, wallets: map<nat, Address>, cfg: AgentConfig, src: Source, line: seq<Statement>, pool: EventPool, h: nat)
    requires BackendChain(line, src, cfg, pool) && HoldsSpan(t, line, pool, 0, h)
    ensures WalkEnd(|line| - 1, MAX_WALK, h) <= |line|
    ensures Discovered(t, wallets, cfg, src) == ImportAll(t, wallets, cfg, line[WalkEnd(|line| - 1, MAX_WALK, h)..])
  {
    WalkStops(src, t, line, cfg, pool, h, |line| - 1, MAX_WALK);
    assert line[|line| - 1..] == [line[|line| - 1]];
    hide HoldsSpan, Walk, WalkEnd, ImportAll;
  }

  /** Importing from one before what is missing: the current statement again, then the rest. */
  lemma ImportFromHead(t: Tables, wallets: map<nat, Address>, src: Source, cfg: AgentConfig, line: seq<Statement>, pool: EventPool, h: nat)
    requires BackendChain(line, src, cfg, pool) && HoldsSpan(t, line, pool, 0, h) && 0 < h && h <= |line|
    ensures HoldsSpan(ImportAll(t, wallets, cfg, line[h - 1..]), line, pool, 0, |line|)
    ensures forall p :: p != pool ==> OfPool(ImportAll(t, wallets, cfg, line[h - 1..]).held, p) == OfPool(t.held, p)
  {
    ImportHeadAgain(t, wallets, src, cfg, line, pool, h);
    hide HoldsSpan, BackendChain, AnswerTo, AfterIntake;
    assert line[h - 1..][1..] == line[h..];
    ImportRest(AfterIntake(t, wallets, line[h - 1], true, cfg), wallets, src, cfg, line, pool, 0, h);
  }

  /** With at most 51 statements missing, one poll imports exactly those, oldest first, and ends at the backend's newest. With
      more, the walk stops short: an agent that holds some of the line is refused and keeps what it had; one that holds
      none silently starts in the middle and never gets the older ones. */
  lemma DiscoverCatchesUp(t: Tables, wallets: map<nat, Address>, cfg: AgentConfig, src: Source, line: seq<Statement>, pool: EventPool, h: nat)
    requires BackendChain(line, src, cfg, pool) && HoldsSpan(t, line, pool, 0, h)
    ensures
      var t' := Discovered(t, wallets, cfg, src);
      && (|line| - h <= MAX_WALK + 1 ==> HoldsSpan(t', line, pool, 0, |line|))
      && (|line| - h > MAX_WALK + 1 && h > 0 ==> t' == t)
      && (|line| - h > MAX_WALK + 1 && h == 0 ==> HoldsSpan(t', line, pool, |line| - MAX_WALK - 1, |line|))
      && (forall p :: p != pool ==> OfPool(t'.held, p) == OfPool(t.held, p))
  {
    hide HoldsSpan, Discovered, ImportAll, OfPool;
    assert |line| > 0;
    hide BackendChain;
    SpanFits(t, line, pool, 0, h);
    DiscoveredFrom(t, wallets, cfg, src, line, pool, h);
    var at := WalkEnd(|line| - 1, MAX_WALK, h);
    if at == h {
      ImportRest(t, wallets, src, cfg, line, pool, 0, h);
    } else if at < h {
      ImportFromHead(t, wallets, src, cfg, line, pool, h);
    } else if h == 0 {
      HoldsNone(t, line, pool, at);
      ImportRest(t, wallets, src, cfg, line, pool, at, at);
    } else {
      TooFarRefused(t, wallets, src, cfg, line, pool, h, at);
    }
  }

  lemma HoldsNone(t: Tables, line: seq<Statement>, pool: EventPool, at: nat)
    requires HoldsSpan(t, line, pool, 0, 0) && at <= |line|
    ensures HoldsSpan(t, line, pool, at, at)
  {
  }

  lemma TooFarRefused(t: Tables, wallets: map<nat, Address>, src: Source, cfg: AgentConfig, line: seq<Statement>, pool: EventPool, h: nat, at: nat)
    requires BackendChain(line, src, cfg, pool) && HoldsSpan(t, line, pool, 0, h) && 0 < h < at < |line|
    ensures ImportAll(t, wallets, cfg, line[at..]) == t
  {
    EndOfSpan(t, line, pool, 0, h);
    assert Importable(line[at], line[0], cfg, pool);
    assert line[at].supersedes == Some(line[at - 1].id) && line[h - 1].id != line[at - 1].id;
    assert AnswerTo(t, line[at], true, cfg) == Rejected(NotTheNext);
  }
}
