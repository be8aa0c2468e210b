/** Concrete runs that begin alike: a checkout is paid and its usage ends CANCELED. Then a BillionConnect SIM
    goes from COMPLETED back to NOTIFY_COUPON; or the order ends COMPLETED with that SIM FAILED; or a JoyTel
    SIM gets its coupon. */
module Witness {
  import opened Tables
  import opened Protocol

  lemma Extend(w: World, es: seq<Event>, e: Event, after: World)
    requires Allowed(w, es) && Enabled(Exec(w, es), e) && Next(Exec(w, es), e) == after
    ensures Allowed(w, es + [e]) && Exec(w, es + [e]) == after
    decreases |es|
  {
    if es == [] {
      assert es + [e] == [e];
      assert [e][1..] == [];
    } else {
      assert (es + [e])[1..] == es[1..] + [e];
      Extend(Next(w, es[0]), es[1..], e, after);
    }
  }

  const OFFER := Some(Offer(7, 0, 10))
  const TX := Tx(TxPending, Some(1), None, None, 0, None)
  const LINKED := TX.(order := Some(0))
  const PAID := LINKED.(status := TxSuccess, paymentId := Some(9), launched := Some(2))
  const ORDER := Order(Created, 0, false, false)
  const USAGE := Usage(UsagePending, 7, 1, 0, 0, 10)
  const SIM := NewSim(BillionConnect, 0)
  const CLAIMED := SIM.(status := Pending, owner := Some(2))
  const SENT := CLAIMED.(submits := 1)
  const DONE := SENT.(status := Completed, iccid := Some("8901"), qrcode := Some("LPA:1"))
  const RUN := Run(0, 0, [], false, [], {0})
  const READY := ORDER.(prepared := true)
  const BOTH := RUN.(todo := [0])
  const CALLBACK := BcCallback(0, Some("8901"), Some("LPA:1"))
  const CALLBACK_EVENT := BcDone(0, Some("8901"), Some("LPA:1"))

  // Nobody has bought anything yet.
  const START := World(
    "G", map[], map[], map[], map[], map[7 := Promo(true, None, 0, Some(5), 10)], map[], map[],
    0, 0, 0, 0, {}, 0, [], {})

  // The checkout of one eSIM with a promo code, call by call, until the bank has accepted Init.

  // The rows written so far, the number of each kind, and where the checkout stands.
  function Buying(
    txs: map<nat, Tx>, orders: map<nat, Order>, usages: map<nat, Usage>, sims: map<nat, Sim>,
    nextTx: nat, nextOrder: nat, nextSim: nat, checkout: Actor): World
  {
    World(
      "G", txs, orders, sims, usages, START.promos, map[], map[0 := checkout],
      nextTx, nextOrder, nextSim, 1, {}, 0, [], {})
  }

  function W1(p: Provider): World {
    Buying(map[], map[], map[], map[], 0, 0, 0, MakeTx(1, [p], OFFER))
  }

  function W2(p: Provider): World {
    Buying(map[0 := TX], map[], map[], map[], 1, 0, 0, MakeOrder(0, 1, [p], OFFER))
  }

  function W3(p: Provider): World {
    Buying(map[0 := TX], map[0 := ORDER], map[], map[], 1, 1, 0, LinkOrder(0, 0, 1, [p], OFFER))
  }

  function W4(p: Provider): World {
    Buying(map[0 := LINKED], map[0 := ORDER], map[], map[], 1, 1, 0, MakeUsage(0, 0, 1, [p], OFFER))
  }

  function W5(p: Provider): World {
    Buying(map[0 := LINKED], map[0 := ORDER], map[0 := USAGE], map[], 1, 1, 0, MakeSims(0, 0, [p]))
  }

  function W6(p: Provider): World {
    Buying(map[0 := LINKED], map[0 := ORDER], map[0 := USAGE], map[0 := NewSim(p, 0)], 1, 1, 1, MakeSims(0, 0, []))
  }

  function W7(p: Provider): World {
    Buying(map[0 := LINKED], map[0 := READY], map[0 := USAGE], map[0 := NewSim(p, 0)], 1, 1, 1, InitPayment(0))
  }

  // From here on every row is there: the transaction, its usage, the SIM, and the actors so far.
  function Rows(tx: Tx, usage: Usage, sim: Sim, actors: map<nat, Actor>, next: nat, wins: nat): World {
    World(
      "G", map[0 := tx], map[0 := READY], map[0 := sim], map[0 := usage], START.promos, map[], actors,
      1, 1, 1, next, {0}, wins, [], {})
  }

  function W8(p: Provider): World {
    Rows(LINKED, USAGE, NewSim(p, 0), map[0 := Finished({})], 1, 0)
  }

  // The webhook confirms; a refusal loses its update and cancels the usage all the same.

  function W9(p: Provider): World {
    Rows(LINKED, USAGE, NewSim(p, 0), map[0 := Finished({}), 1 := ConfirmTx(0, Some(1), 9)], 2, 0)
  }

  function W10(p: Provider): World {
    Rows(PAID, USAGE, NewSim(p, 0), map[0 := Finished({}), 1 := Finished({}), 2 := ReadUsage(0)], 3, 1)
  }

  // The refusal, and where it stands.
  function Refusing(p: Provider, refusal: Actor): World {
    Rows(
      PAID, USAGE, NewSim(p, 0),
      map[0 := Finished({}), 1 := Finished({}), 2 := ReadUsage(0), 3 := refusal], 4, 1)
  }

  function W11(p: Provider): World {
    Refusing(p, RefuseTx(0, 9))
  }

  function W12(p: Provider): World {
    Refusing(p, DropUsage(0))
  }

  function W13(p: Provider): World {
    Issuing(NewSim(p, 0), ReadUsage(0))
  }

  // The issue: the callback comes between BillionConnect's answer and the update that follows it.

  // The SIM, and the actor that the payment has launched.
  function Issuing(sim: Sim, first: Actor): World {
    Rows(
      PAID, USAGE.(status := UsageCanceled), sim,
      map[0 := Finished({}), 1 := Finished({}), 2 := first, 3 := Finished({})], 4, 1)
  }

  // The same with a callback on its way.
  function CalledBack(sim: Sim, first: Actor, callback: Actor): World {
    var w := Issuing(sim, first);
    w.(actors := w.actors[4 := callback], nextActor := 5)
  }

  function W14(p: Provider): World {
    Issuing(NewSim(p, 0), ReadOrder(0, [], {0}))
  }

  function W15(p: Provider): World {
    Issuing(NewSim(p, 0), Provision(BOTH))
  }

  function W16(): World {
    Issuing(CLAIMED, BcSubmit(0, RUN))
  }

  function W17(): World {
    Issuing(SENT, BcAccept(0, RUN))
  }

  function W18(): World {
    CalledBack(SENT, BcAccept(0, RUN), CALLBACK)
  }

  function W19(): World {
    CalledBack(DONE, BcAccept(0, RUN), EsimDeliver(0))
  }

  function W20(): World {
    CalledBack(DONE.(status := NotifyCoupon), Provision(RUN), EsimDeliver(0))
  }

  lemma Step1(p: Provider)
    requires Supported(p)
    ensures Enabled(START, Checkout(1, [p], OFFER)) && Next(START, Checkout(1, [p], OFFER)) == W1(p)
  {
  }

  lemma Step2(p: Provider)
    requires Supported(p)
    ensures Enabled(W1(p), Move(0, Go)) && Next(W1(p), Move(0, Go)) == W2(p)
  {
  }

  lemma Step3(p: Provider)
    requires Supported(p)
    ensures Enabled(W2(p), Move(0, Go)) && Next(W2(p), Move(0, Go)) == W3(p)
  {
  }

  lemma Step4(p: Provider)
    requires Supported(p)
    ensures Enabled(W3(p), Move(0, Go)) && Next(W3(p), Move(0, Go)) == W4(p)
  {
  }

  lemma Step5(p: Provider)
    requires Supported(p)
    ensures Enabled(W4(p), Move(0, Go)) && Next(W4(p), Move(0, Go)) == W5(p)
  {
  }

  lemma Step6(p: Provider)
    requires Supported(p)
    ensures Enabled(W5(p), Move(0, Go)) && Next(W5(p), Move(0, Go)) == W6(p)
  {
    assert [p][1..] == [];
  }

  lemma Step7(p: Provider)
    requires Supported(p)
    ensures Enabled(W6(p), Move(0, Go)) && Next(W6(p), Move(0, Go)) == W7(p)
  {
  }

  lemma Step8(p: Provider)
    requires Supported(p)
    ensures Enabled(W7(p), Move(0, InitAccepted(None))) && Next(W7(p), Move(0, InitAccepted(None))) == W8(p)
  {
  }

  lemma Step9(p: Provider)
    requires Supported(p)
    ensures Enabled(W8(p), BankConfirms(0, 9)) && Next(W8(p), BankConfirms(0, 9)) == W9(p)
  {
  }

  lemma Step10(p: Provider)
    requires Supported(p)
    ensures Enabled(W9(p), Move(1, Go)) && Next(W9(p), Move(1, Go)) == W10(p)
  {
  }

  lemma Step11(p: Provider)
    requires Supported(p)
    ensures Enabled(W10(p), BankRefuses(0, 9)) && Next(W10(p), BankRefuses(0, 9)) == W11(p)
  {
  }

  lemma Step12(p: Provider)
    requires Supported(p)
    ensures Enabled(W11(p), Move(3, Go)) && Next(W11(p), Move(3, Go)) == W12(p)
  {
  }

  lemma Step13(p: Provider)
    requires Supported(p)
    ensures Enabled(W12(p), Move(3, Go)) && Next(W12(p), Move(3, Go)) == W13(p)
  {
  }

  lemma Step14(p: Provider)
    requires Supported(p)
    ensures Enabled(W13(p), Move(2, Go)) && Next(W13(p), Move(2, Go)) == W14(p)
  {
  }

  lemma Row14(p: Provider)
    ensures IsOrderRow(W14(p), 0, 0, [0])
  {
  }

  lemma Step15(p: Provider)
    requires Supported(p)
    ensures Enabled(W14(p), Move(2, OrderRow(0, [0]))) && Next(W14(p), Move(2, OrderRow(0, [0]))) == W15(p)
  {
    Row14(p);
  }

  lemma Step16()
    ensures Enabled(W15(BillionConnect), Move(2, Go)) && Next(W15(BillionConnect), Move(2, Go)) == W16()
  {
    assert [0][1..] == [];
  }

  lemma Step17()
    ensures Enabled(W16(), Move(2, BcAccepted)) && Next(W16(), Move(2, BcAccepted)) == W17()
  {
  }

  lemma Step18()
    ensures Enabled(W17(), CALLBACK_EVENT) && Next(W17(), CALLBACK_EVENT) == W18()
  {
  }

  lemma Step19()
    ensures Enabled(W18(), Move(4, Go)) && Next(W18(), Move(4, Go)) == W19()
  {
  }

  lemma Step20()
    ensures Enabled(W19(), Move(2, Go)) && Next(W19(), Move(2, Go)) == W20()
  {
  }

  lemma CheckoutRun(p: Provider) returns (es: seq<Event>)
    requires Supported(p)
    ensures Allowed(START, es) && Exec(START, es) == W8(p)
  {
    es := [];
    Step1(p);
    Extend(START, es, Checkout(1, [p], OFFER), W1(p));
    es := es + [Checkout(1, [p], OFFER)];
    Step2(p);
    Extend(START, es, Move(0, Go), W2(p));
    es := es + [Move(0, Go)];
    Step3(p);
    Extend(START, es, Move(0, Go), W3(p));
    es := es + [Move(0, Go)];
    Step4(p);
    Extend(START, es, Move(0, Go), W4(p));
    es := es + [Move(0, Go)];
    Step5(p);
    Extend(START, es, Move(0, Go), W5(p));
    es := es + [Move(0, Go)];
    Step6(p);
    Extend(START, es, Move(0, Go), W6(p));
    es := es + [Move(0, Go)];
    Step7(p);
    Extend(START, es, Move(0, Go), W7(p));
    es := es + [Move(0, Go)];
    Step8(p);
    Extend(START, es, Move(0, InitAccepted(None)), W8(p));
    es := es + [Move(0, InitAccepted(None))];
  }

  lemma PaymentRun(p: Provider) returns (es: seq<Event>)
    requires Supported(p)
    ensures Allowed(START, es) && Exec(START, es) == W13(p)
  {
    es := CheckoutRun(p);
    Step9(p);
    Extend(START, es, BankConfirms(0, 9), W9(p));
    es := es + [BankConfirms(0, 9)];
    Step10(p);
    Extend(START, es, Move(1, Go), W10(p));
    es := es + [Move(1, Go)];
    Step11(p);
    Extend(START, es, BankRefuses(0, 9), W11(p));
    es := es + [BankRefuses(0, 9)];
    Step12(p);
    Extend(START, es, Move(3, Go), W12(p));
    es := es + [Move(3, Go)];
    Step13(p);
    Extend(START, es, Move(3, Go), W13(p));
    es := es + [Move(3, Go)];
  }

  lemma CreateRun(p: Provider) returns (es: seq<Event>)
    requires Supported(p)
    ensures Allowed(START, es) && Exec(START, es) == W15(p)
  {
    es := PaymentRun(p);
    Step14(p);
    Extend(START, es, Move(2, Go), W14(p));
    es := es + [Move(2, Go)];
    Step15(p);
    Extend(START, es, Move(2, OrderRow(0, [0])), W15(p));
    es := es + [Move(2, OrderRow(0, [0]))];
  }

  lemma IssueRun() returns (es: seq<Event>)
    ensures Allowed(START, es) && Exec(START, es) == W19()
  {
    es := CreateRun(BillionConnect);
    Step16();
    Extend(START, es, Move(2, Go), W16());
    es := es + [Move(2, Go)];
    Step17();
    Extend(START, es, Move(2, BcAccepted), W17());
    es := es + [Move(2, BcAccepted)];
    Step18();
    Extend(START, es, CALLBACK_EVENT, W18());
    es := es + [CALLBACK_EVENT];
    Step19();
    Extend(START, es, Move(4, Go), W19());
    es := es + [Move(4, Go)];
  }

  // What the last two worlds hold.
  lemma BeforeAndAfter()
    ensures 0 in W19().sims && W19().sims[0] == DONE
    ensures 0 in W20().sims && W20().sims[0] == DONE.(status := NotifyCoupon)
    ensures 0 in W20().txs && W20().txs[0] == PAID
    ensures 0 in W20().usages && W20().usages[0] == USAGE.(status := UsageCanceled)
  {
  }

  /** The early callback of BillionConnect completes the SIM, and the answer to the submission puts it
      back to NOTIFY_COUPON; its transaction is paid and its usage is CANCELED. */
  lemma CompletedIsOverwritten() returns (es: seq<Event>, e: Event)
    ensures Initial(START) && Allowed(START, es) && Enabled(Exec(START, es), e)
    ensures var before, after := Exec(START, es), Next(Exec(START, es), e);
            && 0 in before.sims && before.sims[0].provider == BillionConnect && before.sims[0].status == Completed
            && 0 in after.sims && after.sims[0].status == NotifyCoupon
            && 0 in after.txs && after.txs[0].status == TxSuccess
            && 0 in after.usages && after.usages[0].status == UsageCanceled
  {
    es := IssueRun();
    e := Move(2, Go);
    Step20();
    BeforeAndAfter();
  }

  // ---------- the other end ----------

  const REFUSED := SENT.(status := Failed)

  // The world once the recovery job has started a second run: the order, its SIM, and the two runs.
  function Two(order: Order, sim: Sim, first: Actor, second: Actor, drained: set<nat>): World {
    World(
      "G", map[0 := PAID], map[0 := order], map[0 := sim], map[0 := USAGE.(status := UsageCanceled)],
      START.promos, map[],
      map[0 := Finished({}), 1 := Finished({}), 2 := first, 3 := Finished({}), 4 := second],
      1, 1, 1, 5, {0}, 1, [], drained)
  }

  lemma Batch15()
    ensures IsBatch(W15(BillionConnect), [0])
  {
    assert 0 in W15(BillionConnect).sims && W15(BillionConnect).sims[0] == SIM;
  }

  lemma RunOfOne()
    ensures var batch: seq<nat> := [0]; NextRun(batch, set t | t in batch) == ReadOrder(0, [], {0})
  {
    var batch: seq<nat> := [0];
    assert (set t | t in batch) == {0} && batch[1..] == [];
  }

  lemma Turn1()
    ensures Enabled(W15(BillionConnect), RecoveryTick([0]))
    ensures Next(W15(BillionConnect), RecoveryTick([0])) == Two(READY, SIM, Provision(BOTH), ReadOrder(0, [], {0}), {})
  {
    Batch15();
    RunOfOne();
  }

  // Both runs list the SIM; the first claims it.
  lemma Turn2()
    ensures var w, e := Two(READY, SIM, Provision(BOTH), ReadOrder(0, [], {0}), {}), Move(4, OrderRow(0, [0]));
            Enabled(w, e) && Next(w, e) == Two(READY, SIM, Provision(BOTH), Provision(BOTH), {})
  {
    assert IsOrderRow(Two(READY, SIM, Provision(BOTH), ReadOrder(0, [], {0}), {}), 0, 0, [0]);
  }

  lemma Turn3()
    ensures var w := Two(READY, SIM, Provision(BOTH), Provision(BOTH), {});
            && Enabled(w, Move(2, Go))
            && Next(w, Move(2, Go)) == Two(READY, CLAIMED, BcSubmit(0, RUN), Provision(BOTH), {})
  {
    assert [0][1..] == [];
  }

  // BillionConnect refuses it, and the order is FAILED.
  lemma Turn4()
    ensures var w := Two(READY, CLAIMED, BcSubmit(0, RUN), Provision(BOTH), {});
            Enabled(w, Move(2, Go)) && Next(w, Move(2, Go)) == Two(READY, SENT, BcFail(0, RUN), Provision(BOTH), {})
  {
  }

  lemma Turn5()
    ensures var w, lost := Two(READY, SENT, BcFail(0, RUN), Provision(BOTH), {}), Provision(RUN.(failed := true));
            Enabled(w, Move(2, Go)) && Next(w, Move(2, Go)) == Two(READY, REFUSED, lost, Provision(BOTH), {})
  {
  }

  lemma Turn6()
    ensures var w := Two(READY, REFUSED, Provision(RUN.(failed := true)), Provision(BOTH), {});
            && Enabled(w, Move(2, Go))
            && Next(w, Move(2, Go)) == Two(READY.(status := Failed), REFUSED, Finished({0}), Provision(BOTH), {0})
  {
  }

  // The second run loses the claim, which is no failure to it, and the order is COMPLETED.
  lemma Turn7()
    ensures var w := Two(READY.(status := Failed), REFUSED, Finished({0}), Provision(BOTH), {0});
            && Enabled(w, Move(4, Go))
            && Next(w, Move(4, Go)) == Two(READY.(status := Failed), REFUSED, Finished({0}), Provision(RUN), {0})
  {
    assert [0][1..] == [];
  }

  lemma Turn8()
    ensures var w := Two(READY.(status := Failed), REFUSED, Finished({0}), Provision(RUN), {0});
            && Enabled(w, Move(4, Go))
            && Next(w, Move(4, Go)) == Two(READY.(status := Completed), REFUSED, Finished({0}), Finished({0}), {0})
  {
  }

  lemma FirstVerdict() returns (es: seq<Event>)
    ensures Allowed(START, es)
    ensures Exec(START, es) == Two(READY.(status := Failed), REFUSED, Finished({0}), Provision(BOTH), {0})
  {
    var lost := Provision(RUN.(failed := true));
    es := CreateRun(BillionConnect);
    Turn1();
    Extend(START, es, RecoveryTick([0]), Two(READY, SIM, Provision(BOTH), ReadOrder(0, [], {0}), {}));
    es := es + [RecoveryTick([0])];
    Turn2();
    Extend(START, es, Move(4, OrderRow(0, [0])), Two(READY, SIM, Provision(BOTH), Provision(BOTH), {}));
    es := es + [Move(4, OrderRow(0, [0]))];
    Turn3();
    Extend(START, es, Move(2, Go), Two(READY, CLAIMED, BcSubmit(0, RUN), Provision(BOTH), {}));
    es := es + [Move(2, Go)];
    Turn4();
    Extend(START, es, Move(2, Go), Two(READY, SENT, BcFail(0, RUN), Provision(BOTH), {}));
    es := es + [Move(2, Go)];
    Turn5();
    Extend(START, es, Move(2, Go), Two(READY, REFUSED, lost, Provision(BOTH), {}));
    es := es + [Move(2, Go)];
    Turn6();
    Extend(START, es, Move(2, Go), Two(READY.(status := Failed), REFUSED, Finished({0}), Provision(BOTH), {0}));
    es := es + [Move(2, Go)];
  }

  lemma SecondVerdict() returns (es: seq<Event>)
    ensures var w := Two(READY.(status := Failed), REFUSED, Finished({0}), Provision(BOTH), {0});
            && Allowed(w, es)
            && Exec(w, es) == Two(READY.(status := Completed), REFUSED, Finished({0}), Finished({0}), {0})
  {
    var w := Two(READY.(status := Failed), REFUSED, Finished({0}), Provision(BOTH), {0});
    Turn7();
    Extend(w, [], Move(4, Go), Two(READY.(status := Failed), REFUSED, Finished({0}), Provision(RUN), {0}));
    es := [Move(4, Go)];
    Turn8();
    Extend(w, es, Move(4, Go), Two(READY.(status := Completed), REFUSED, Finished({0}), Finished({0}), {0}));
    es := es + [Move(4, Go)];
  }

  /** Two runs of create for the same order: the one that submits its only SIM fails and writes FAILED, the
      other claims nothing and writes COMPLETED over it, although the SIM is FAILED. */
  lemma CompletedWithFailedSim() returns (es: seq<Event>, more: seq<Event>)
    ensures Initial(START) && Allowed(START, es) && Allowed(Exec(START, es), more)
    ensures var before, after := Exec(START, es), Exec(Exec(START, es), more);
            && 0 in before.orders && before.orders[0].status == Failed
            && 0 in after.orders && after.orders[0].status == Completed
            && 0 in after.sims && after.sims[0].order == 0 && after.sims[0].status == Failed
  {
    es := FirstVerdict();
    more := SecondVerdict();
  }

  // ---------- a JoyTel SIM gets its coupon ----------

  const TICKET := Ticket("tid", "code")
  const JOY := NewSim(JoyTel, 0).(status := Pending, owner := Some(2))
  const ORDERED := JOY.(submits := 1)
  const TICKETED := ORDERED.(status := RedeemCoupon, ticket := Some(TICKET))
  const COUPONED := TICKETED.(status := NotifyCoupon, snPin := Some("pin"), qrBy := Some(2))

  lemma Joy1()
    ensures Enabled(W15(JoyTel), Move(2, Go))
    ensures Next(W15(JoyTel), Move(2, Go)) == Issuing(JOY, JoySubmit(0, RUN))
  {
    assert [0][1..] == [];
  }

  lemma Joy2()
    ensures var w, e := Issuing(JOY, JoySubmit(0, RUN)), Move(2, JoyAccepted(TICKET));
            Enabled(w, e) && Next(w, e) == Issuing(ORDERED, JoyAccept(0, TICKET, RUN))
  {
  }

  lemma Joy3()
    ensures var w := Issuing(ORDERED, JoyAccept(0, TICKET, RUN));
            Enabled(w, Move(2, Go)) && Next(w, Move(2, Go)) == Issuing(TICKETED, JoyQuery(0, RUN))
  {
  }

  lemma Joy4()
    ensures var w, e := Issuing(TICKETED, JoyQuery(0, RUN)), Move(2, PinReady(Some("pin")));
            Enabled(w, e) && Next(w, e) == Issuing(TICKETED, JoyClaim(0, Some("pin"), RUN))
  {
  }

  lemma Joy5()
    ensures var w := Issuing(TICKETED, JoyClaim(0, Some("pin"), RUN));
            Enabled(w, Move(2, Go)) && Next(w, Move(2, Go)) == Issuing(COUPONED, JoyQr(0, RUN))
  {
  }

  lemma CouponRun() returns (es: seq<Event>)
    ensures Allowed(START, es) && Exec(START, es) == Issuing(COUPONED, JoyQr(0, RUN))
  {
    es := CreateRun(JoyTel);
    Joy1();
    Extend(START, es, Move(2, Go), Issuing(JOY, JoySubmit(0, RUN)));
    es := es + [Move(2, Go)];
    Joy2();
    Extend(START, es, Move(2, JoyAccepted(TICKET)), Issuing(ORDERED, JoyAccept(0, TICKET, RUN)));
    es := es + [Move(2, JoyAccepted(TICKET))];
    Joy3();
    Extend(START, es, Move(2, Go), Issuing(TICKETED, JoyQuery(0, RUN)));
    es := es + [Move(2, Go)];
    Joy4();
    Extend(START, es, Move(2, PinReady(Some("pin"))), Issuing(TICKETED, JoyClaim(0, Some("pin"), RUN)));
    es := es + [Move(2, PinReady(Some("pin")))];
    Joy5();
    Extend(START, es, Move(2, Go), Issuing(COUPONED, JoyQr(0, RUN)));
    es := es + [Move(2, Go)];
  }

  // A callback of the provider can find the SIM.
  predicate Findable(w: World, x: nat) {
    && x in w.sims
    && ((w.sims[x].provider == JoyTel && w.sims[x].snPin.Some?)
        || (w.sims[x].provider == BillionConnect && w.sims[x].submits > 0))
  }

  lemma JoyIsFindable()
    ensures Findable(Issuing(COUPONED, JoyQr(0, RUN)), 0) && COUPONED.provider == JoyTel
  {
  }

  lemma BillionIsFindable()
    ensures Findable(W19(), 0) && W19().sims[0].provider == BillionConnect
  {
  }

  /** For JoyTel and BillionConnect there are runs after which a callback finds the SIM. */
  lemma FindableRun(p: Provider) returns (es: seq<Event>)
    requires p == JoyTel || p == BillionConnect
    ensures Initial(START) && Allowed(START, es)
    ensures Findable(Exec(START, es), 0) && Exec(START, es).sims[0].provider == p
  {
    if p == JoyTel {
      es := CouponRun();
      JoyIsFindable();
    } else {
      es := IssueRun();
      BillionIsFindable();
    }
  }
}
