/**
 * A run in which a quote id is handed out twice. The machine's quotes are fresh; here the second call is given one that is
 * not, and everything else is a step of the machine.
 */
module InferenceRepeat {
  import opened Basics
  import opened InferenceBudget
  import opened InferenceRun
  import Signer = InferenceSigner

  const PRICE: real := 400.0
  const LIMIT: nat := HARD_LIFETIME_CEILING

  const ASKED: Order := Order(Quote(7), P1, 5)
  const HELD: Spend := Spend(Quote(7), P1, 4_005, SpendStatus.Reserved)
  const PAYING: Signer.Payment := Signer.Payment(Quote(7), 5, 4_000, None, Signer.Sent)

  /** The first call's payment has been sent and has executed; its reply is still out. */
  const PAID_ONCE: seq<Step> :=
    [GetQuote(0, ASKED), Reserve(0, LIMIT), Post(0), Check(0, true, LIMIT, 5), Prepared(0, true), Land(0, 5_000)]

  function Seen(entries: seq<Spend>, rows: seq<Signer.Payment>, clients: map<nat, Client>, pays: map<nat, Pay>): World {
    World(entries, rows, map[], {Quote(7)}, clients, pays)
  }

  const LANDED: World := World([HELD], [PAYING], map[0 := 5_000], {Quote(7)}, map[0 := Waiting(ASKED, 0)], map[0 := Broadcasting(0)])

  lemma FeesAt400()
    ensures FeeReserve(PRICE) == 4_000 && Signer.LamportsToMicroCeil(5_000, PRICE) == 2_000
  {
  }

  lemma UpTo(steps: seq<Step>, k: nat)
    requires k < |steps|
    ensures Exec(PRICE, steps[..k + 1]) == Do(Exec(PRICE, steps[..k]), PRICE, steps[k])
  {
    assert steps[..k + 1][..k] == steps[..k];
  }

  lemma FirstQuoted()
    ensures Exec(PRICE, PAID_ONCE[..1]) == Seen([], [], map[0 := Quoted(ASKED)], map[])
  {
    UpTo(PAID_ONCE, 0);
  }

  lemma FirstHeld()
    ensures Exec(PRICE, PAID_ONCE[..2]) == Seen([HELD], [], map[0 := Holding(ASKED, 0)], map[])
  {
    UpTo(PAID_ONCE, 1);
    FirstQuoted();
    FeesAt400();
    hide FeeReserve, Exec;
  }

  lemma FirstPosted()
    ensures Exec(PRICE, PAID_ONCE[..3]) == Seen([HELD], [], map[0 := Waiting(ASKED, 0)], map[0 := Arrived(ASKED)])
  {
    UpTo(PAID_ONCE, 2);
    FirstHeld();
    hide Exec;
  }

  lemma FirstReserved()
    ensures Signer.ReserveResult([], Quote(7), 5, 4_000, LIMIT) == Signer.Inserted(0)
    ensures Signer.AfterReserve([], Quote(7), 5, 4_000, LIMIT) == [PAYING.(status := Signer.Reserved)]
  {
  }

  lemma FirstChecked()
    ensures Exec(PRICE, PAID_ONCE[..4]) == Seen([HELD], [PAYING.(status := Signer.Reserved)], map[0 := Waiting(ASKED, 0)], map[0 := Preparing(0)])
  {
    UpTo(PAID_ONCE, 3);
    FirstPosted();
    FeesAt400();
    FirstReserved();
    hide FeeReserve, Exec, Signer.ReserveResult, Signer.AfterReserve;
  }

  lemma FirstSent()
    ensures Exec(PRICE, PAID_ONCE[..5]) == Seen([HELD], [PAYING], map[0 := Waiting(ASKED, 0)], map[0 := Broadcasting(0)])
  {
    UpTo(PAID_ONCE, 4);
    FirstChecked();
    hide Exec;
  }

  lemma FirstLands()
    ensures Exec(PRICE, PAID_ONCE) == LANDED
  {
    UpTo(PAID_ONCE, 5);
    assert PAID_ONCE[..6] == PAID_ONCE;
    FirstSent();
    hide Exec;
  }

  /** A second call, quoted the id of the first: first with nothing reserved, then with its request at the signer. */
  const ASKED_AGAIN: World := LANDED.(clients := LANDED.clients[1 := Quoted(ASKED)])
  const POSTED_AGAIN: World :=
    ASKED_AGAIN.(entries := [HELD, HELD], clients := ASKED_AGAIN.clients[1 := Waiting(ASKED, 1)], pays := LANDED.pays[1 := Arrived(ASKED)])

  lemma SecondReserved()
    ensures AfterReserve([HELD], LIMIT, Quote(7), P1, 4_005) == [HELD, HELD]
  {
    var one := [HELD];
    assert one[..|one| - 1] == [];
    assert Lifetime(one) == 4_005;
    assert InPhase(one, P1) == 4_005;
    assert [HELD] + [HELD] == [HELD, HELD];
  }

  lemma SecondPosts()
    ensures Do(Do(ASKED_AGAIN, PRICE, Reserve(1, LIMIT)), PRICE, Post(1)) == POSTED_AGAIN
  {
    FeesAt400();
    hide FeeReserve;
    var reserved := ASKED_AGAIN.(entries := [HELD, HELD], clients := ASKED_AGAIN.clients[1 := Holding(ASKED, 1)]);
    SecondReserved();
    hide AfterReserve;
    assert Do(ASKED_AGAIN, PRICE, Reserve(1, LIMIT)) == reserved;
    assert reserved.clients[1 := Waiting(ASKED, 1)] == POSTED_AGAIN.clients;
  }

  lemma SecondRefused()
    ensures
      var told := Do(Do(POSTED_AGAIN, PRICE, Check(1, true, LIMIT, 5)), PRICE, Reply(1));
      told.entries == [HELD, HELD.(status := Released)] && told.rows == [PAYING] && told.landed == map[0 := 5_000]
  {
    hide FeeReserve;
    assert Do(POSTED_AGAIN, PRICE, Check(1, true, LIMIT, 5)) == Answering(POSTED_AGAIN, 1, Quote(7), Signer.Refused(409));
  }

  /** It is reached: were the id of a payment that has executed quoted to a second call, that call would be told the
      payment was refused, and its entry released, with the money gone. */
  lemma RepeatedQuoteReached()
    ensures
      var w := Exec(PRICE, PAID_ONCE);
      var asked := w.(clients := w.clients[1 := Quoted(ASKED)]);
      var posted := Do(Do(asked, PRICE, Reserve(1, LIMIT)), PRICE, Post(1));
      var told := Do(Do(posted, PRICE, Check(1, true, LIMIT, 5)), PRICE, Reply(1));
      && told.entries == [HELD, HELD.(status := Released)] && told.rows == [PAYING] && told.landed == map[0 := 5_000]
      && Signer.Counts(PAYING) == 4_005 && ChainSpend(told.rows, told.landed, PRICE) == 2_005
  {
    FirstLands();
    SecondPosts();
    SecondRefused();
    FeesAt400();
    hide Do, Exec, FeeReserve, Signer.LamportsToMicroCeil;
    assert [PAYING][..0] == [];
  }
}
