/** Every step of checkout, of the bank's answers and of the polling job keeps the invariant. */
module PaymentSteps {
  import opened Tables
  import opened Protocol
  import opened Invariant
  import opened SimSteps

  ghost predicate Moving(w: World, a: nat) {
    Inv(w) && a in w.actors && !Calls(w.actors[a])
  }

  // ---------- one transaction row ----------

  /** The worlds `a` can reach by writing the row of `t`, without paying it, and moving on. */
  ghost function TxWrites(w: World, a: nat, t: nat): iset<World> {
    iset w': World |
      && a in w.actors && t in w.txs && t in w'.txs && a in w'.actors
      && w' == Become(SetTx(w, t, w'.txs[t]), a, w'.actors[a])
      && TxRely(a, w.txs[t], w'.txs[t]) && TxWritten(w.actors[a], t, w.txs[t], w'.txs[t])
      && (w'.txs[t].status == TxSuccess <==> w.txs[t].status == TxSuccess)
  }

  lemma TxGuarantees(w: World, w': World, a: nat, t: nat)
    requires w' in TxWrites(w, a, t)
    requires !Calls(Mover(w, a))
    ensures w' in Guarantee(w, a)
  {
    SameOrdersRely(w, w', a);
    SameSimsRely(w, w', a);
    SameUsagesRely(w, w', a);
    forall u | u in w.txs ensures TxRely(a, w.txs[u], w'.txs[u]) {
    }
    Guarantees(w, w', a);
  }

  // The orders of a transaction are in order.
  ghost predicate OrdersInOrder(w: World, t: nat) {
    forall o | o in w.orders && w.orders[o].tx == t :: OrderOk(w, o)
  }

  lemma TxRows(w: World, w': World, a: nat, t: nat)
    requires PaymentsOk(w) && w' in TxWrites(w, a, t) && TxOk(w', t) && OrdersInOrder(w', t)
    ensures PaymentsOk(w')
  {
    assert Successes(w') == Successes(w);
    forall u | u in w'.txs ensures TxOk(w', u) {
      if u != t {
        assert TxOk(w, u);
      }
    }
    forall o | o in w'.orders ensures OrderOk(w', o) {
      if w.orders[o].tx != t {
        assert OrderOk(w, o);
      }
    }
  }

  lemma TxTables(w: World, w': World, a: nat, t: nat)
    requires Moving(w, a) && w' in TxWrites(w, a, t) && TxOk(w', t) && OrdersInOrder(w', t)
    ensures TablesOk(w')
  {
    Unfold(w);
    TxRows(w, w', a, t);
    SameSims(w, w', a);
    SamePromos(w, w');
    FoldTables(w');
  }

  /** A step that writes one transaction row, without paying it. */
  lemma TxStep(w: World, w': World, a: nat, t: nat)
    requires Moving(w, a) && w' in TxWrites(w, a, t) && TxOk(w', t) && OrdersInOrder(w', t)
    requires w'.actors[a] in Ready(w', a) && w'.actors[a] in Follows(w.actors[a])
    ensures w' in Safe(w, a)
  {
    TxTables(w, w', a, t);
    TxGuarantees(w, w', a, t);
    CloseOne(w, w', a);
  }

  // The orders of a transaction stay in order while its link does and it is not paid.
  lemma OrdersOfTx(w: World, w': World, t: nat)
    requires Inv(w) && t in w.txs && t in w'.txs && w'.orders == w.orders
    requires w'.txs[t].order == w.txs[t].order && w'.drained == w.drained
    requires w'.txs[t].status == w.txs[t].status
             || (w.txs[t].status != TxSuccess && w'.txs[t].status in {TxFailed, TxCanceled, TxError})
    ensures OrdersInOrder(w', t)
  {
    forall o | o in w.orders && w.orders[o].tx == t ensures OrderOk(w', o) {
      AtOrder(w, o);
    }
  }

  // ---------- when an actor is ready for its next stage ----------

  lemma MakeOrderReady(w: World, a: nat, t: nat, user: nat, units: seq<Provider>, offer: Option<Offer>)
    requires Preparing(w, a, t) && w.txs[t].order.None? && t !in w.usages && UnitsOk(units) && OfferOk(w, offer)
    requires forall o | o in w.orders :: w.orders[o].tx != t
    ensures MakeOrder(t, user, units, offer) in Ready(w, a)
  {
  }

  lemma LinkOrderReady(w: World, a: nat, t: nat, o: nat, user: nat, units: seq<Provider>, offer: Option<Offer>)
    requires Preparing(w, a, t) && w.txs[t].order.None? && t !in w.usages && UnitsOk(units) && OfferOk(w, offer)
    requires Unprepared(w, t, o) && forall o' | o' in w.orders && w.orders[o'].tx == t :: o' == o
    ensures LinkOrder(t, o, user, units, offer) in Ready(w, a)
  {
  }

  lemma MakeUsageReady(w: World, a: nat, t: nat, o: nat, user: nat, units: seq<Provider>, offer: Option<Offer>)
    requires Preparing(w, a, t) && w.txs[t].order == Some(o) && t !in w.usages && UnitsOk(units) && OfferOk(w, offer)
    requires Unprepared(w, t, o)
    ensures MakeUsage(t, o, user, units, offer) in Ready(w, a)
  {
  }

  lemma MakeSimsReady(w: World, a: nat, t: nat, o: nat, units: seq<Provider>)
    requires Preparing(w, a, t) && w.txs[t].order == Some(o) && UnitsOk(units) && Unprepared(w, t, o)
    ensures MakeSims(t, o, units) in Ready(w, a)
  {
  }

  lemma InitPaymentReady(w: World, a: nat, t: nat)
    requires Preparing(w, a, t) && w.txs[t].order.Some?
    requires w.txs[t].order.value in w.orders && w.orders[w.txs[t].order.value].prepared
    ensures InitPayment(t) in Ready(w, a)
  {
  }

  lemma SavePaymentIdReady(w: World, a: nat, t: nat, p: nat)
    requires t in w.open
    ensures SavePaymentId(t, p) in Ready(w, a)
  {
  }

  lemma MarkErrorReady(w: World, a: nat, t: nat)
    requires Preparing(w, a, t)
    ensures MarkError(t) in Ready(w, a)
  {
  }

  lemma DropUsageReady(w: World, a: nat, t: nat)
    ensures DropUsage(t) in Ready(w, a)
  {
  }

  lemma FinishedReady(w: World, a: nat)
    ensures Finished({}) in Ready(w, a)
  {
  }

  lemma PollReady(w: World, a: nat, picks: seq<Pick>, tick: nat)
    requires tick < |w.polls| && forall k | k in picks :: PickOk(w, k.tx, k.payer)
    ensures Poll(picks, tick) in Ready(w, a)
  {
  }

  lemma PollConfirmReady(w: World, a: nat, pick: Pick, picks: seq<Pick>, tick: nat)
    requires tick < |w.polls| && PickOk(w, pick.tx, pick.payer) && forall k | k in picks :: PickOk(w, k.tx, k.payer)
    ensures PollConfirm(pick, picks, tick) in Ready(w, a)
  {
  }

  // ---------- checkout ----------

  lemma NewTxRow(w: World, w': World, t: nat)
    requires PaymentsOk(w) && t !in w.txs && t in w'.txs && w'.txs == w.txs[t := w'.txs[t]]
    requires w'.orders == w.orders && w'.open == w.open && t !in w.open && w'.drained == w.drained
    requires w'.hookWins == w.hookWins && w'.polls == w.polls && w'.nextActor == w.nextActor
    requires TxOk(w', t) && w'.txs[t].status != TxSuccess
    ensures PaymentsOk(w')
  {
    assert Successes(w') == Successes(w);
    forall u | u in w'.txs ensures TxOk(w', u) {
      if u != t {
        assert TxOk(w, u);
      }
    }
    forall o | o in w'.orders ensures OrderOk(w', o) {
      assert OrderOk(w, o);
    }
  }

  lemma NothingOfTxYet(w: World, t: nat)
    requires Inv(w) && t !in w.txs
    ensures t !in w.usages && (forall o | o in w.orders :: w.orders[o].tx != t) && t !in w.open
  {
    Unfold(w);
    assert t in w.usages ==> UsageOk(w, t);
    forall o | o in w.orders ensures w.orders[o].tx != t {
      assert OrderOk(w, o);
    }
  }

  lemma MakeTxGuarantees(w: World, a: nat, user: nat, units: seq<Provider>, offer: Option<Offer>)
    requires Mover(w, a) == MakeTx(user, units, offer)
    requires w.nextTx !in w.txs
    ensures StepMakeTx(w, a, user, units, offer) in Guarantee(w, a)
  {
    var w' := StepMakeTx(w, a, user, units, offer);
    SameOrdersRely(w, w', a);
    SameSimsRely(w, w', a);
    SameUsagesRely(w, w', a);
    Guarantees(w, w', a);
  }

  lemma MakeTxTables(w: World, a: nat, user: nat, units: seq<Provider>, offer: Option<Offer>)
    requires Moving(w, a) && w.actors[a].MakeTx?
    ensures var w' := StepMakeTx(w, a, user, units, offer);
            TablesOk(w') && w.nextTx !in w.txs
  {
    Unfold(w);
    var w' := StepMakeTx(w, a, user, units, offer);
    NewTxRow(w, w', w.nextTx);
    SameSims(w, w', a);
    SamePromos(w, w');
    FoldTables(w');
  }

  lemma OrderingGoesOn(t: nat, o: nat, user: nat, units: seq<Provider>, offer: Option<Offer>)
    ensures MakeOrder(t, user, units, offer) in Follows(MakeTx(user, units, offer))
    ensures LinkOrder(t, o, user, units, offer) in Follows(MakeOrder(t, user, units, offer))
    ensures MakeSims(t, o, units) in Follows(MakeUsage(t, o, user, units, offer))
    ensures units != [] ==> MakeSims(t, o, units[1..]) in Follows(MakeSims(t, o, units))
  {
  }

  lemma MakeTxKeeps(w: World, a: nat, user: nat, units: seq<Provider>, offer: Option<Offer>)
    requires Moving(w, a) && w.actors[a] == MakeTx(user, units, offer)
    ensures StepMakeTx(w, a, user, units, offer) in Safe(w, a)
  {
    var w', t := StepMakeTx(w, a, user, units, offer), w.nextTx;
    AtActor(w, a);
    MakeTxTables(w, a, user, units, offer);
    NothingOfTxYet(w, t);
    MakeOrderReady(w', a, t, user, units, offer);
    MakeTxGuarantees(w, a, user, units, offer);
    OrderingGoesOn(t, 0, user, units, offer);
    CloseOne(w, w', a);
  }

  lemma NewOrderRow(w: World, w': World, o: nat)
    requires PaymentsOk(w) && o !in w.orders && o in w'.orders && w'.orders == w.orders[o := w'.orders[o]]
    requires w'.txs == w.txs && w'.open == w.open && w'.nextActor == w.nextActor && w'.drained == w.drained
    requires w'.hookWins == w.hookWins && w'.polls == w.polls
    requires OrderOk(w', o)
    ensures PaymentsOk(w')
  {
    assert Successes(w') == Successes(w);
    forall u | u in w'.txs ensures TxOk(w', u) {
      assert TxOk(w, u);
    }
    forall o' | o' in w'.orders ensures OrderOk(w', o') {
      if o' != o {
        assert OrderOk(w, o');
      }
    }
  }

  lemma MakeOrderGuarantees(w: World, a: nat, t: nat, user: nat, units: seq<Provider>, offer: Option<Offer>)
    requires w.nextOrder !in w.orders && t in w.txs && w.txs[t].prep == a
    requires !Calls(Mover(w, a))
    ensures StepMakeOrder(w, a, t, user, units, offer) in Guarantee(w, a)
  {
    var w' := StepMakeOrder(w, a, t, user, units, offer);
    SameTxsRely(w, w', a);
    SameSimsRely(w, w', a);
    SameUsagesRely(w, w', a);
    Guarantees(w, w', a);
  }

  lemma MakeOrderTables(w: World, a: nat, t: nat, user: nat, units: seq<Provider>, offer: Option<Offer>)
    requires Moving(w, a) && w.actors[a].MakeOrder? && t in w.txs && w.txs[t].order.None?
    ensures var w' := StepMakeOrder(w, a, t, user, units, offer);
            TablesOk(w') && w.nextOrder !in w.orders
  {
    Unfold(w);
    var w' := StepMakeOrder(w, a, t, user, units, offer);
    NewOrderRow(w, w', w.nextOrder);
    SameSims(w, w', a);
    SamePromos(w, w');
    FoldTables(w');
  }

  lemma MakeOrderKeeps(w: World, a: nat, t: nat, user: nat, units: seq<Provider>, offer: Option<Offer>)
    requires Moving(w, a) && w.actors[a] == MakeOrder(t, user, units, offer)
    ensures StepMakeOrder(w, a, t, user, units, offer) in Safe(w, a)
  {
    var w', o := StepMakeOrder(w, a, t, user, units, offer), w.nextOrder;
    AtActor(w, a);
    MakeOrderTables(w, a, t, user, units, offer);
    LinkOrderReady(w', a, t, o, user, units, offer);
    MakeOrderGuarantees(w, a, t, user, units, offer);
    OrderingGoesOn(t, o, user, units, offer);
    CloseOne(w, w', a);
  }

  lemma LinkerKnows(w: World, a: nat, t: nat, o: nat, user: nat, units: seq<Provider>, offer: Option<Offer>)
    requires Inv(w) && a in w.actors && w.actors[a] == LinkOrder(t, o, user, units, offer)
    ensures Preparing(w, a, t) && w.txs[t].order.None? && t !in w.usages && UnitsOk(units) && OfferOk(w, offer)
    ensures Unprepared(w, t, o) && forall o' | o' in w.orders && w.orders[o'].tx == t :: o' == o
    ensures MakeUsage(t, o, user, units, offer) in Follows(w.actors[a])
  {
    AtActor(w, a);
  }

  lemma LinkOrderWrites(
    w: World, a: nat, t: nat, o: nat, user: nat, units: seq<Provider>, offer: Option<Offer>)
    requires a in w.actors && w.actors[a] == LinkOrder(t, o, user, units, offer)
    requires Preparing(w, a, t) && w.txs[t].order.None? && TxOk(w, t)
    requires Unprepared(w, t, o) && OrderOk(w, o) && forall o' | o' in w.orders && w.orders[o'].tx == t :: o' == o
    ensures var w' := StepLinkOrder(w, a, t, o, user, units, offer);
            w' in TxWrites(w, a, t) && TxOk(w', t) && OrdersInOrder(w', t)
  {
  }

  lemma LinkOrderKeeps(
    w: World, a: nat, t: nat, o: nat, user: nat, units: seq<Provider>, offer: Option<Offer>)
    requires Moving(w, a) && w.actors[a] == LinkOrder(t, o, user, units, offer)
    ensures StepLinkOrder(w, a, t, o, user, units, offer) in Safe(w, a)
  {
    var w' := StepLinkOrder(w, a, t, o, user, units, offer);
    LinkerKnows(w, a, t, o, user, units, offer);
    AtTx(w, t);
    AtOrder(w, o);
    LinkOrderWrites(w, a, t, o, user, units, offer);
    MakeUsageReady(w', a, t, o, user, units, offer);
    TxStep(w, w', a, t);
  }

  lemma NewUsage(w: World, w': World, t: nat)
    requires PromosOk(w) && t in w.txs && t !in w.usages && t in w'.usages
    requires w'.usages == w.usages[t := w'.usages[t]] && w'.usages[t].status == UsagePending
    requires w'.promos == w.promos && w'.ledger == w.ledger && w'.txs == w.txs
    requires CreditOk(w', w'.usages[t].promo, w'.usages[t].credit)
    ensures PromosOk(w')
  {
    forall u | u in w'.usages ensures UsageOk(w', u) {
      if u != t {
        assert UsageOk(w, u);
      }
    }
    forall p | p in w'.promos ensures PromoOk(w', p) {
      assert PromoOk(w, p);
      assert ConfirmedOf(w'.usages, p) == ConfirmedOf(w.usages, p);
    }
    forall u ensures u in w'.ledger <==> Earns(w', u) {
      assert u != t ==> Earns(w', u) == Earns(w, u);
      assert !Earns(w, t) && !Earns(w', t);
    }
  }

  lemma MakeUsageGuarantees(
    w: World, a: nat, t: nat, o: nat, user: nat, units: seq<Provider>, offer: Offer)
    requires Mover(w, a) == MakeUsage(t, o, user, units, Some(offer))
    requires t in w.txs && w.txs[t].prep == a && t !in w.usages && t !in w.open
    ensures StepMakeUsage(w, a, t, o, user, units, Some(offer)) in Guarantee(w, a)
  {
    var w' := StepMakeUsage(w, a, t, o, user, units, Some(offer));
    SameTxsRely(w, w', a);
    SameOrdersRely(w, w', a);
    SameSimsRely(w, w', a);
    Guarantees(w, w', a);
  }

  lemma MakeUsageTables(
    w: World, a: nat, t: nat, o: nat, user: nat, units: seq<Provider>, offer: Offer)
    requires Moving(w, a) && w.actors[a].MakeUsage? && t in w.txs && t !in w.usages && OfferOk(w, Some(offer))
    ensures var w' := StepMakeUsage(w, a, t, o, user, units, Some(offer));
            TablesOk(w')
  {
    Unfold(w);
    var w' := StepMakeUsage(w, a, t, o, user, units, Some(offer));
    SamePayments(w, w');
    SameSims(w, w', a);
    NewUsage(w, w', t);
    FoldTables(w');
  }

  lemma OfferedUsageKeeps(w: World, a: nat, t: nat, o: nat, user: nat, units: seq<Provider>, offer: Offer)
    requires Moving(w, a) && w.actors[a] == MakeUsage(t, o, user, units, Some(offer))
    ensures StepMakeUsage(w, a, t, o, user, units, Some(offer)) in Safe(w, a)
  {
    var w' := StepMakeUsage(w, a, t, o, user, units, Some(offer));
    AtActor(w, a);
    MakeUsageTables(w, a, t, o, user, units, offer);
    MakeUsageGuarantees(w, a, t, o, user, units, offer);
    MakeSimsReady(w', a, t, o, units);
    CloseOne(w, w', a);
  }

  lemma MakeUsageKeeps(
    w: World, a: nat, t: nat, o: nat, user: nat, units: seq<Provider>, offer: Option<Offer>)
    requires Moving(w, a) && w.actors[a] == MakeUsage(t, o, user, units, offer)
    ensures StepMakeUsage(w, a, t, o, user, units, offer) in Safe(w, a)
  {
    if offer.None? {
      AtActor(w, a);
      MakeSimsReady(w, a, t, o, units);
      PcStep(w, a, MakeSims(t, o, units));
    } else {
      OfferedUsageKeeps(w, a, t, o, user, units, offer.value);
    }
  }

  lemma NewSimRow(w: World, w': World, a: nat, t: nat, o: nat, x: nat, provider: Provider)
    requires SimsOk(w) && a in w.actors && !UsesRight(w.actors[a]) && x !in w.sims && Supported(provider)
    requires Unprepared(w, t, o) && OrderOk(w, o) && t in w.txs && w.txs[t].status != TxSuccess
    requires w'.sims == w.sims[x := NewSim(provider, o)] && w'.drained == w.drained
    requires w'.txs == w.txs && w'.orders == w.orders
    requires a in w'.actors && w'.actors == w.actors[a := w'.actors[a]]
    ensures SimsOk(w')
  {
    assert w'.sims[x] in Rows(w');
    forall y | y in w'.sims ensures w'.sims[y] in Rows(w') && RightsHeld(w', y) {
      if y != x {
        assert RightsHeld(w, y);
      }
    }
    forall u | u in w'.drained ensures DrainedOk(w', u) {
      assert DrainedOk(w, u);
    }
  }

  lemma NewSimGuarantees(w: World, a: nat, t: nat, o: nat, units: seq<Provider>)
    requires Mover(w, a) == MakeSims(t, o, units)
    requires w.nextSim !in w.sims && Unprepared(w, t, o) && units != []
    ensures StepMakeSims(w, a, t, o, units) in Guarantee(w, a)
  {
    var w' := StepMakeSims(w, a, t, o, units);
    SameTxsRely(w, w', a);
    SameOrdersRely(w, w', a);
    SameUsagesRely(w, w', a);
    Guarantees(w, w', a);
  }

  lemma NewSimTables(w: World, a: nat, t: nat, o: nat, units: seq<Provider>)
    requires Moving(w, a) && w.actors[a].MakeSims? && units != [] && Supported(units[0])
    requires Unprepared(w, t, o) && t in w.txs && w.txs[t].status != TxSuccess
    ensures var w' := StepMakeSims(w, a, t, o, units);
            TablesOk(w') && w.nextSim !in w.sims
  {
    Unfold(w);
    AtOrder(w, o);
    var w' := StepMakeSims(w, a, t, o, units);
    SamePayments(w, w');
    SamePromos(w, w');
    NewSimRow(w, w', a, t, o, w.nextSim, units[0]);
    FoldTables(w');
  }

  lemma NewSimKeeps(w: World, a: nat, t: nat, o: nat, units: seq<Provider>)
    requires Moving(w, a) && w.actors[a] == MakeSims(t, o, units) && units != []
    ensures StepMakeSims(w, a, t, o, units) in Safe(w, a)
  {
    AtActor(w, a);
    AtTx(w, t);
    assert units[0] in units;
    NewSimTables(w, a, t, o, units);
    NewSimGuarantees(w, a, t, o, units);
    MakeSimsReady(StepMakeSims(w, a, t, o, units), a, t, o, units[1..]);
    OrderingGoesOn(t, o, 0, units, None);
    CloseOne(w, StepMakeSims(w, a, t, o, units), a);
  }

  // An order row changes its status or becomes prepared.
  ghost predicate OrderWrite(w: World, w': World, o: nat) {
    && o in w.orders && o in w'.orders && w'.orders == w.orders[o := w'.orders[o]]
    && w'.orders[o].tx == w.orders[o].tx && w'.orders[o].cancelled == w.orders[o].cancelled
    && (w.orders[o].prepared ==> w'.orders[o].prepared)
    && (w'.orders[o].prepared ==> w.orders[o].tx in w.txs && w.txs[w.orders[o].tx].order == Some(o))
    && (w.orders[o].cancelled ==> w'.orders[o].status == Failed)
    && (w'.orders[o].status == w.orders[o].status
        || (w'.orders[o].status != Created && Paid(w, w.orders[o].tx) && w.orders[o].tx in w'.drained))
    && w.drained <= w'.drained && w'.txs == w.txs && w'.open == w.open
    && w'.hookWins == w.hookWins && w'.polls == w.polls && w'.nextActor == w.nextActor
  }

  lemma OrderRows(w: World, w': World, o: nat)
    requires PaymentsOk(w) && OrderWrite(w, w', o)
    ensures PaymentsOk(w')
  {
    assert Successes(w') == Successes(w);
    forall u | u in w'.txs ensures TxOk(w', u) {
      assert TxOk(w, u);
    }
    forall o' | o' in w'.orders ensures OrderOk(w', o') {
      assert OrderOk(w, o');
    }
  }

  lemma PreparedTables(w: World, a: nat, t: nat, o: nat)
    requires Moving(w, a) && w.actors[a].MakeSims? && Unprepared(w, t, o)
    requires t in w.txs && w.txs[t].order == Some(o)
    ensures var w' := StepMakeSims(w, a, t, o, []);
            TablesOk(w')
  {
    Unfold(w);
    AtOrder(w, o);
    var w' := StepMakeSims(w, a, t, o, []);
    OrderRows(w, w', o);
    SameSims(w, w', a);
    SamePromos(w, w');
    FoldTables(w');
  }

  lemma PreparedGuarantees(w: World, a: nat, t: nat, o: nat)
    requires t in w.txs && w.txs[t].prep == a && Unprepared(w, t, o)
    requires !Calls(Mover(w, a))
    ensures StepMakeSims(w, a, t, o, []) in Guarantee(w, a)
  {
    var w' := StepMakeSims(w, a, t, o, []);
    SameTxsRely(w, w', a);
    SameSimsRely(w, w', a);
    SameUsagesRely(w, w', a);
    Guarantees(w, w', a);
  }

  lemma PreparedKeeps(w: World, a: nat, t: nat, o: nat)
    requires Moving(w, a) && w.actors[a] == MakeSims(t, o, [])
    ensures StepMakeSims(w, a, t, o, []) in Safe(w, a)
  {
    AtActor(w, a);
    PreparedTables(w, a, t, o);
    PreparedGuarantees(w, a, t, o);
    InitPaymentReady(StepMakeSims(w, a, t, o, []), a, t);
    CloseOne(w, StepMakeSims(w, a, t, o, []), a);
  }

  lemma OpenedRows(w: World, w': World, t: nat)
    requires PaymentsOk(w) && t in w.txs && w.txs[t].order.Some?
    requires w.txs[t].order.value in w.orders && w.orders[w.txs[t].order.value].prepared
    requires w'.txs == w.txs && w'.orders == w.orders && w'.open == w.open + {t} && w'.drained == w.drained
    requires w'.hookWins == w.hookWins && w'.polls == w.polls && w'.nextActor == w.nextActor
    ensures PaymentsOk(w')
  {
    assert Successes(w') == Successes(w);
    forall u | u in w'.txs ensures TxOk(w', u) {
      assert TxOk(w, u);
    }
    forall o | o in w'.orders ensures OrderOk(w', o) {
      assert OrderOk(w, o);
    }
  }

  // The world once the bank has accepted Init for `t`.
  function Opened(w: World, a: nat, t: nat, next: Actor): World {
    Become(w.(open := w.open + {t}), a, next)
  }

  lemma OpenedTables(w: World, a: nat, t: nat, next: Actor)
    requires Moving(w, a) && t in w.txs && w.txs[t].order.Some?
    requires w.txs[t].order.value in w.orders && w.orders[w.txs[t].order.value].prepared
    ensures var w' := Opened(w, a, t, next);
            TablesOk(w')
  {
    Unfold(w);
    var w' := Opened(w, a, t, next);
    OpenedRows(w, w', t);
    SameSims(w, w', a);
    SamePromos(w, w');
    FoldTables(w');
  }

  lemma OpenedGuarantees(w: World, a: nat, t: nat, next: Actor)
    requires t in w.txs && w.txs[t].prep == a
    requires !Calls(Mover(w, a))
    ensures Opened(w, a, t, next) in Guarantee(w, a)
  {
    var w' := Opened(w, a, t, next);
    SameOrdersRely(w, w', a);
    SameSimsRely(w, w', a);
    SameUsagesRely(w, w', a);
    Guarantees(w, w', a);
  }

  lemma InitiatorKnows(w: World, a: nat, t: nat)
    requires Inv(w) && a in w.actors && w.actors[a] == InitPayment(t)
    ensures Preparing(w, a, t) && w.txs[t].order.Some?
    ensures w.txs[t].order.value in w.orders && w.orders[w.txs[t].order.value].prepared
  {
    AtActor(w, a);
  }

  lemma InitiatorGoesOn(t: nat, p: nat)
    ensures SavePaymentId(t, p) in Follows(InitPayment(t)) && Finished({}) in Follows(InitPayment(t))
    ensures MarkError(t) in Follows(InitPayment(t))
  {
  }

  lemma OpenedKeeps(w: World, a: nat, t: nat, next: Actor)
    requires Moving(w, a) && w.actors[a] == InitPayment(t)
    requires next in Ready(Opened(w, a, t, next), a) && next in Follows(w.actors[a])
    ensures Opened(w, a, t, next) in Safe(w, a)
  {
    InitiatorKnows(w, a, t);
    OpenedTables(w, a, t, next);
    OpenedGuarantees(w, a, t, next);
    CloseOne(w, Opened(w, a, t, next), a);
  }

  lemma InitPaymentKeeps(w: World, a: nat, t: nat, i: Input)
    requires Moving(w, a) && w.actors[a] == InitPayment(t)
    ensures StepInitPayment(w, a, t, i) in Safe(w, a)
  {
    InitiatorKnows(w, a, t);
    InitiatorGoesOn(t, match i case InitAccepted(Some(p)) => p case _ => 0);
    match i {
      case InitAccepted(Some(p)) =>
        SavePaymentIdReady(Opened(w, a, t, SavePaymentId(t, p)), a, t, p);
        OpenedKeeps(w, a, t, SavePaymentId(t, p));
      case InitAccepted(None) =>
        FinishedReady(Opened(w, a, t, Finished({})), a);
        OpenedKeeps(w, a, t, Finished({}));
      case _ =>
        MarkErrorReady(w, a, t);
        PcStep(w, a, MarkError(t));
    }
  }

  lemma SavePaymentIdWrites(w: World, a: nat, t: nat, p: nat)
    requires a in w.actors && w.actors[a] == SavePaymentId(t, p)
    requires t in w.txs && t in w.open && TxOk(w, t)
    ensures StepSavePaymentId(w, a, t, p) in TxWrites(w, a, t) && TxOk(StepSavePaymentId(w, a, t, p), t)
  {
  }

  lemma SavePaymentIdKeeps(w: World, a: nat, t: nat, p: nat)
    requires Moving(w, a) && w.actors[a] == SavePaymentId(t, p)
    ensures StepSavePaymentId(w, a, t, p) in Safe(w, a)
  {
    var w' := StepSavePaymentId(w, a, t, p);
    AtActor(w, a);
    assert Satisfies(w, Ids);
    AtTx(w, t);
    SavePaymentIdWrites(w, a, t, p);
    OrdersOfTx(w, w', t);
    FinishedReady(w', a);
    EndsAnywhere(w.actors[a]);
    TxStep(w, w', a, t);
  }

  lemma MarkErrorWrites(w: World, a: nat, t: nat)
    requires a in w.actors && w.actors[a] == MarkError(t)
    requires Preparing(w, a, t) && TxOk(w, t)
    ensures StepMarkError(w, a, t) in TxWrites(w, a, t) && TxOk(StepMarkError(w, a, t), t)
  {
  }

  lemma MarkerKnows(w: World, a: nat, t: nat)
    requires Inv(w) && a in w.actors && w.actors[a] == MarkError(t)
    ensures Preparing(w, a, t) && DropUsage(t) in Follows(w.actors[a])
  {
    AtActor(w, a);
  }

  lemma MarkErrorKeeps(w: World, a: nat, t: nat)
    requires Moving(w, a) && w.actors[a] == MarkError(t)
    ensures StepMarkError(w, a, t) in Safe(w, a)
  {
    var w' := StepMarkError(w, a, t);
    MarkerKnows(w, a, t);
    AtTx(w, t);
    MarkErrorWrites(w, a, t);
    OrdersOfTx(w, w', t);
    DropUsageReady(w', a, t);
    TxStep(w, w', a, t);
  }

  lemma RefuseTxWrites(w: World, a: nat, t: nat, p: nat)
    requires a in w.actors && w.actors[a] == RefuseTx(t, p)
    requires Wins(w, t) && TxOk(w, t)
    ensures StepRefuseTx(w, a, t, p) in TxWrites(w, a, t) && TxOk(StepRefuseTx(w, a, t, p), t)
  {
  }

  lemma RefuseTxWins(w: World, a: nat, t: nat, p: nat)
    requires Moving(w, a) && w.actors[a] == RefuseTx(t, p) && Wins(w, t)
    ensures StepRefuseTx(w, a, t, p) in Safe(w, a)
  {
    var w' := StepRefuseTx(w, a, t, p);
    AtTx(w, t);
    RefuseTxWrites(w, a, t, p);
    OrdersOfTx(w, w', t);
    DropUsageReady(w', a, t);
    TxStep(w, w', a, t);
  }

  lemma RefuseTxKeeps(w: World, a: nat, t: nat, p: nat)
    requires Moving(w, a) && w.actors[a] == RefuseTx(t, p)
    ensures StepRefuseTx(w, a, t, p) in Safe(w, a)
  {
    if Wins(w, t) {
      RefuseTxWins(w, a, t, p);
    } else {
      DropUsageReady(w, a, t);
      PcStep(w, a, DropUsage(t));
    }
  }

  // ---------- cancelUsageByTransaction ----------

  lemma CancelUsageGuarantees(w: World, a: nat, t: nat, next: Actor)
    requires t in w.usages && w.usages[t].status == UsagePending
    requires !Calls(Mover(w, a))
    ensures Become(CancelUsage(w, t), a, next) in Guarantee(w, a)
  {
    var w' := Become(CancelUsage(w, t), a, next);
    SameTxsRely(w, w', a);
    SameOrdersRely(w, w', a);
    SameSimsRely(w, w', a);
    Guarantees(w, w', a);
  }

  // A usage that is not confirmed becomes canceled.
  lemma UsageCanceledRow(w: World, w': World, t: nat)
    requires PromosOk(w) && t in w.usages && w.usages[t].status != UsageConfirmed
    requires w'.usages == w.usages[t := w.usages[t].(status := UsageCanceled)]
    requires w'.promos == w.promos && w'.ledger == w.ledger && w'.txs == w.txs
    ensures PromosOk(w')
  {
    forall u | u in w'.usages ensures UsageOk(w', u) {
      assert UsageOk(w, u);
    }
    forall p | p in w'.promos ensures PromoOk(w', p) {
      assert PromoOk(w, p);
      assert ConfirmedOf(w'.usages, p) == ConfirmedOf(w.usages, p);
    }
    forall u ensures u in w'.ledger <==> Earns(w', u) {
      assert Earns(w', u) == Earns(w, u);
    }
  }

  lemma CancelUsageTables(w: World, a: nat, t: nat, next: Actor)
    requires Moving(w, a) && t in w.usages && w.usages[t].status == UsagePending
    ensures var w' := Become(CancelUsage(w, t), a, next);
            TablesOk(w')
  {
    Unfold(w);
    var w' := Become(CancelUsage(w, t), a, next);
    SamePayments(w, w');
    SameSims(w, w', a);
    UsageCanceledRow(w, w', t);
    FoldTables(w');
  }

  lemma CancelUsageReady(w: World, a: nat, t: nat, next: Actor)
    requires next in Ready(w, a) && (next == Finished({}) || next.StaleUsages?)
    ensures next in Ready(Become(CancelUsage(w, t), a, next), a)
  {
  }

  lemma CancelUsageKeeps(w: World, a: nat, t: nat, next: Actor)
    requires Moving(w, a) && next in Ready(w, a) && (next == Finished({}) || next.StaleUsages?)
    requires next in Follows(w.actors[a])
    ensures Become(CancelUsage(w, t), a, next) in Safe(w, a)
  {
    CancelUsageReady(w, a, t, next);
    if t in w.usages && w.usages[t].status == UsagePending {
      CancelUsageTables(w, a, t, next);
      CancelUsageGuarantees(w, a, t, next);
      CloseOne(w, Become(CancelUsage(w, t), a, next), a);
    } else {
      PcStep(w, a, next);
    }
  }

  // ---------- confirmTransaction ----------

  /** The worlds in which `a` has just won the update PENDING -> SUCCESS of `t`: the row, the launch
      of processConfirmedPayment, and one more win in the counters. */
  ghost function Paying(w: World, a: nat, t: nat): iset<World> {
    iset w': World |
      && a in w.actors && a in w'.actors && t in w.txs && t in w'.txs && Pays(w.actors[a], t)
      && w'.txs == w.txs[t := w'.txs[t]]
      && w'.txs[t] == w.txs[t].(status := TxSuccess, paymentId := w'.txs[t].paymentId,
                                launched := Some(w.nextActor))
      && w'.txs[t].paymentId.Some? && Brings(w.actors[a], t, w'.txs[t].paymentId.value)
      && w'.actors == w.actors[w.nextActor := ReadUsage(t)][a := w'.actors[a]]
      && w' == w.(txs := w'.txs, actors := w'.actors, nextActor := w.nextActor + 1,
                  hookWins := w'.hookWins, polls := w'.polls)
      && |w'.polls| == |w.polls|
      && w'.hookWins + Sum(w'.polls) == w.hookWins + Sum(w.polls) + 1
  }

  // The transaction is still to be paid, and the bank knows it.
  ghost predicate Payable(w: World, t: nat) {
    Wins(w, t) && TxOk(w, t) && t in w.open
  }

  lemma PaidRows(w: World, w': World, a: nat, t: nat)
    requires PaymentsOk(w) && w' in Paying(w, a, t) && Payable(w, t)
    ensures PaymentsOk(w')
  {
    assert Successes(w') == Successes(w) + {t};
    forall u | u in w'.txs ensures TxOk(w', u) {
      assert TxOk(w, u);
    }
    forall o | o in w'.orders ensures OrderOk(w', o) {
      assert OrderOk(w, o);
    }
  }

  lemma PaidTables(w: World, w': World, a: nat, t: nat)
    requires Moving(w, a) && w' in Paying(w, a, t) && Payable(w, t)
    ensures TablesOk(w')
  {
    Unfold(w);
    PaidRows(w, w', a, t);
    SameSims(w, w', a);
    SamePromos(w, w');
    FoldTables(w');
  }

  lemma PaidLaunch(w: World, w': World, a: nat, t: nat)
    requires Inv(w) && w' in Paying(w, a, t) && Payable(w, t)
    ensures ReadUsage(t) in Ready(w', w.nextActor)
  {
    if t in w.usages {
      AtUsage(w, t);
    }
  }

  lemma PaidGuarantees(w: World, w': World, a: nat, t: nat)
    requires w' in Paying(w, a, t) && Payable(w, t)
    requires !Calls(Mover(w, a))
    ensures w' in Guarantee(w, a)
  {
    SameOrdersRely(w, w', a);
    SameSimsRely(w, w', a);
    SameUsagesRely(w, w', a);
    Guarantees(w, w', a);
  }

  lemma PaidKeeps(w: World, w': World, a: nat, t: nat)
    requires Moving(w, a) && w' in Paying(w, a, t) && Payable(w, t)
    requires w'.actors[a] in Ready(w', a) && w'.actors[a] in Follows(w.actors[a])
    ensures w' in Safe(w, a)
  {
    NewActor(w);
    PaidTables(w, w', a, t);
    PaidLaunch(w, w', a, t);
    PaidGuarantees(w, w', a, t);
    PaidActors(w, w', a, t);
    PaidMoves(w, w', a, t);
    Fold(w');
    assert Meets(w, w', a, Reliance) && Meets(w, w', a, Frame);
  }

  lemma PaidMoves(w: World, w': World, a: nat, t: nat)
    requires w' in Paying(w, a, t) && w'.actors[a] in Follows(w.actors[a]) && w.nextActor !in w.actors
    ensures MovesOnly(w, w', a)
  {
  }

  lemma PaidActors(w: World, w': World, a: nat, t: nat)
    requires Moving(w, a) && w' in Paying(w, a, t) && w' in Guarantee(w, a)
    requires w'.actors[a] in Ready(w', a) && ReadUsage(t) in Ready(w', w.nextActor) && w.nextActor !in w.actors
    ensures ActorsOk(w')
  {
    Unfold(w);
    Close(w, w', a);
  }

  lemma HookWins(w: World, a: nat, t: nat, payer: Option<nat>, p: nat)
    requires a in w.actors && w.actors[a] == ConfirmTx(t, payer, p)
    requires Wins(w, t) && payer.Some? && w.nextActor !in w.actors
    ensures StepConfirmTx(w, a, t, payer, p) in Paying(w, a, t)
  {
  }

  lemma PollWins(w: World, a: nat, pick: Pick, picks: seq<Pick>, tick: nat)
    requires a in w.actors && w.actors[a] == PollConfirm(pick, picks, tick)
    requires Wins(w, pick.tx) && pick.payer.Some? && tick < |w.polls| && w.nextActor !in w.actors
    ensures StepPollConfirm(w, a, pick, picks, tick) in Paying(w, a, pick.tx)
  {
    SumOfUpdate(w.polls, tick, w.polls[tick] + 1);
  }

  lemma ConfirmTxKeeps(w: World, a: nat, t: nat, payer: Option<nat>, p: nat)
    requires Moving(w, a) && w.actors[a] == ConfirmTx(t, payer, p)
    ensures StepConfirmTx(w, a, t, payer, p) in Safe(w, a)
  {
    AtActor(w, a);
    var w' := StepConfirmTx(w, a, t, payer, p);
    if Wins(w, t) {
      AtTx(w, t);
      NewActor(w);
      HookWins(w, a, t, payer, p);
      FinishedReady(w', a);
      EndsAnywhere(w.actors[a]);
      PaidKeeps(w, w', a, t);
    } else {
      FinishedReady(w, a);
      EndsAnywhere(w.actors[a]);
      PcStep(w, a, Finished({}));
    }
  }

  lemma PollerKnows(w: World, a: nat, picks: seq<Pick>, tick: nat)
    requires Inv(w) && a in w.actors && w.actors[a] == Poll(picks, tick)
    ensures tick < |w.polls| && forall k | k in picks :: PickOk(w, k.tx, k.payer)
  {
    AtActor(w, a);
  }

  lemma PollerGoesOn(picks: seq<Pick>, tick: nat)
    requires picks != []
    ensures PollConfirm(picks[0], picks[1..], tick) in Follows(Poll(picks, tick))
    ensures Poll(picks[1..], tick) in Follows(Poll(picks, tick))
  {
  }

  lemma PollKeeps(w: World, a: nat, picks: seq<Pick>, tick: nat, i: Input)
    requires Moving(w, a) && w.actors[a] == Poll(picks, tick)
    ensures StepPoll(w, a, picks, tick, i) in Safe(w, a)
  {
    PollerKnows(w, a, picks, tick);
    if picks == [] {
      FinishedReady(w, a);
      EndsAnywhere(w.actors[a]);
      PcStep(w, a, Finished({}));
    } else {
      assert picks[0] in picks;
      PollerGoesOn(picks, tick);
      if i.BankSaysConfirmed? {
        PollConfirmReady(w, a, picks[0], picks[1..], tick);
        PcStep(w, a, PollConfirm(picks[0], picks[1..], tick));
      } else {
        PollReady(w, a, picks[1..], tick);
        PcStep(w, a, Poll(picks[1..], tick));
      }
    }
  }

  lemma ConfirmerGoesOn(pick: Pick, picks: seq<Pick>, tick: nat)
    ensures Poll(picks, tick) in Follows(PollConfirm(pick, picks, tick))
  {
  }

  lemma PollConfirmKeeps(w: World, a: nat, pick: Pick, picks: seq<Pick>, tick: nat)
    requires Moving(w, a) && w.actors[a] == PollConfirm(pick, picks, tick)
    ensures StepPollConfirm(w, a, pick, picks, tick) in Safe(w, a)
  {
    AtActor(w, a);
    var w' := StepPollConfirm(w, a, pick, picks, tick);
    if Wins(w, pick.tx) {
      AtTx(w, pick.tx);
      NewActor(w);
      PollWins(w, a, pick, picks, tick);
      PollReady(w', a, picks, tick);
      ConfirmerGoesOn(pick, picks, tick);
      PaidKeeps(w, w', a, pick.tx);
    } else {
      PollReady(w, a, picks, tick);
      ConfirmerGoesOn(pick, picks, tick);
      PcStep(w, a, Poll(picks, tick));
    }
  }
}
