/** Every step of the loop of create, of the recovery job and of the stale-order job keeps the
    invariant, and so does the start of every actor. */
module JobSteps {
  import opened Tables
  import opened Protocol
  import opened Invariant
  import opened SimSteps
  import opened PaymentSteps
  import opened PromoSteps

  // ---------- the end of a run ----------

  lemma OrderOfPaid(w: World, t: nat, o: nat)
    requires Inv(w) && Paid(w, t) && o in w.orders && w.orders[o].tx == t
    ensures w.txs[t].order == Some(o) && w.orders[o].prepared && !w.orders[o].cancelled
  {
    AtTx(w, t);
    AtOrder(w, o);
  }

  // No SIM of the order is left to a later run.
  ghost predicate NoneCreated(w: World, o: nat) {
    forall x | x in w.sims && w.sims[x].order == o :: w.sims[x].status != Created
  }

  lemma NoneCreatedDrains(w: World, t: nat, o: nat)
    requires Inv(w) && Paid(w, t) && o in w.orders && w.orders[o].tx == t && NoneCreated(w, o)
    ensures DrainedOk(w, t)
  {
    forall x | x in w.sims && w.sims[x].order in w.orders && w.orders[w.sims[x].order].tx == t
      ensures w.sims[x].status != Created
    {
      OrderOfPaid(w, t, o);
      OrderOfPaid(w, t, w.sims[x].order);
    }
  }

  /** The worlds `a` can reach by ending its run for `t` on order `o`. */
  ghost function Endings(w: World, a: nat, t: nat, o: nat): iset<World> {
    iset w': World |
      && a in w.actors && a in w'.actors && o in w.orders && o in w'.orders
      && w'.orders == w.orders[o := w.orders[o].(status := w'.orders[o].status)]
      && (w'.orders[o].status == w.orders[o].status
          || (Concludes(w.actors[a], o) && w'.orders[o].status == Verdict(w.actors[a].run)))
      && w' == Become(w.(orders := w'.orders, drained := w.drained + {t}), a, w'.actors[a])
  }

  lemma EndTables(w: World, w': World, a: nat, t: nat, o: nat)
    requires Moving(w, a) && w' in Endings(w, a, t, o)
    requires Paid(w, t) && w.orders[o].tx == t && DrainedOk(w, t)
    ensures TablesOk(w')
  {
    Unfold(w);
    OrderOfPaid(w, t, o);
    OrderRows(w, w', o);
    SamePromos(w, w');
    EndSims(w, w', a, t, o);
    FoldTables(w');
  }

  lemma EndSims(w: World, w': World, a: nat, t: nat, o: nat)
    requires SimsOk(w) && w' in Endings(w, a, t, o) && !UsesRight(w.actors[a]) && DrainedOk(w, t)
    ensures SimsOk(w')
  {
    forall x | x in w'.sims ensures w'.sims[x] in Rows(w') && RightsHeld(w', x) {
      assert w.sims[x] in Rows(w) && RightsHeld(w, x);
    }
    forall u | u in w'.drained ensures DrainedOk(w', u) {
      assert DrainedOk(w, u);
    }
  }

  lemma EndGuarantees(w: World, w': World, a: nat, t: nat, o: nat)
    requires w' in Endings(w, a, t, o)
    requires !Calls(Mover(w, a))
    ensures w' in Guarantee(w, a)
  {
    SameTxsRely(w, w', a);
    SameSimsRely(w, w', a);
    SameUsagesRely(w, w', a);
    assert OrdersRely(w, w', a);
    Guarantees(w, w', a);
  }

  lemma FinishedBatchReady(w: World, a: nat, batch: set<nat>)
    requires Accounted(w, batch, [])
    ensures Finished(batch) in Ready(w, a)
  {
  }

  lemma NextRunReady(w: World, a: nat, rest: seq<nat>, batch: set<nat>)
    requires Accounted(w, batch, rest)
    ensures NextRun(rest, batch) in Ready(w, a)
  {
    if rest == [] {
      FinishedBatchReady(w, a, batch);
    } else {
      assert rest == [rest[0]] + rest[1..];
      ReadOrderReady(w, a, rest[0], rest[1..], batch);
    }
  }

  lemma EndKeeps(w: World, w': World, a: nat, t: nat, o: nat, rest: seq<nat>, batch: set<nat>)
    requires Moving(w, a) && w' in Endings(w, a, t, o) && w'.actors[a] == NextRun(rest, batch)
    requires NextRun(rest, batch) in Follows(w.actors[a])
    requires Paid(w, t) && w.orders[o].tx == t && NoneCreated(w, o) && Accounted(w, batch - {t}, rest)
    ensures w' in Safe(w, a)
  {
    NoneCreatedDrains(w, t, o);
    EndTables(w, w', a, t, o);
    EndGuarantees(w, w', a, t, o);
    NextRunReady(w', a, rest, batch);
    CloseOne(w, w', a);
  }

  // ---------- create ----------

  lemma ProvisionReady(w: World, a: nat, r: Run)
    requires r in Runs(w)
    ensures Provision(r) in Ready(w, a)
  {
  }

  lemma ReaderKnows(w: World, a: nat, t: nat, rest: seq<nat>, batch: set<nat>)
    requires Inv(w) && a in w.actors && w.actors[a] == ReadOrder(t, rest, batch)
    ensures Paid(w, t) && Accounted(w, batch - {t}, rest) && NextRun(rest, batch) in Follows(w.actors[a])
  {
    AtActor(w, a);
  }

  lemma RunBegins(t: nat, rest: seq<nat>, batch: set<nat>, r: Run)
    requires r.rest == rest && r.batch == batch
    ensures Provision(r) in Follows(ReadOrder(t, rest, batch))
  {
  }

  lemma ReadOrderKeeps(w: World, a: nat, t: nat, rest: seq<nat>, batch: set<nat>, i: Input)
    requires Moving(w, a) && w.actors[a] == ReadOrder(t, rest, batch) && InputOk(w, w.actors[a], i)
    ensures StepReadOrder(w, a, t, rest, batch, i) in Safe(w, a)
  {
    ReaderKnows(w, a, t, rest, batch);
    AtTx(w, t);
    assert i.OrderRow?;
    var o, todo := i.order, i.todo;
    if todo == [] {
      var w' := EndRun(w, a, t, rest, batch);
      assert w'.orders == w.orders[o := w.orders[o]];
      EndKeeps(w, w', a, t, o, rest, batch);
    } else {
      var r := Run(t, o, todo, false, rest, batch);
      ProvisionReady(w, a, r);
      RunBegins(t, rest, batch, r);
      PcStep(w, a, Provision(r));
    }
  }

  lemma ConcluderGoesOn(r: Run)
    requires r.todo == []
    ensures NextRun(r.rest, r.batch) in Follows(Provision(r))
  {
  }

  lemma ConcludeEnds(w: World, a: nat, r: Run, i: Input)
    requires a in w.actors && w.actors[a] == Provision(r) && r.todo == [] && r.order in w.orders
    ensures StepProvision(w, a, r, i) in Endings(w, a, r.tx, r.order)
    ensures a in StepProvision(w, a, r, i).actors
    ensures StepProvision(w, a, r, i).actors[a] == NextRun(r.rest, r.batch)
  {
  }

  lemma ConcludeKeeps(w: World, a: nat, r: Run, i: Input)
    requires Moving(w, a) && w.actors[a] == Provision(r) && r.todo == []
    ensures StepProvision(w, a, r, i) in Safe(w, a)
  {
    AtActor(w, a);
    ConcludeEnds(w, a, r, i);
    ConcluderGoesOn(r);
    EndKeeps(w, StepProvision(w, a, r, i), a, r.tx, r.order, r.rest, r.batch);
  }

  // ---------- cancelStaleOrders ----------

  lemma UnpaidOrder(w: World, o: nat)
    requires Inv(w) && o in w.orders && w.orders[o].prepared && !AnyPaid(w, o)
    ensures w.orders[o].tx in w.txs && w.txs[w.orders[o].tx].order == Some(o)
    ensures w.txs[w.orders[o].tx].status in {TxPending, TxFailed, TxCanceled, TxError}
  {
    AtOrder(w, o);
    AtTx(w, w.orders[o].tx);
  }

  lemma CancelledPayments(w: World, o: nat)
    requires Inv(w) && Cancels(w, o) && w.orders[o].prepared
    ensures PaymentsOk(CancelOrder(w, o))
  {
    Unfold(w);
    UnpaidOrder(w, o);
    var w' := CancelOrder(w, o);
    assert Successes(w') == Successes(w);
    forall t | t in w'.txs ensures TxOk(w', t) {
      AtTx(w, t);
    }
    forall o' | o' in w'.orders ensures OrderOk(w', o') {
      AtOrder(w, o');
    }
  }

  // A SIM of an order nobody paid for has never been claimed.
  lemma CancelledRow(w: World, o: nat, x: nat)
    requires Inv(w) && Cancels(w, o) && w.orders[o].prepared && x in w.sims
    ensures CancelOrder(w, o).sims[x] in Rows(CancelOrder(w, o))
  {
    UnpaidOrder(w, o);
    AtSim(w, x);
  }

  lemma CancelledSims(w: World, o: nat)
    requires Inv(w) && Cancels(w, o) && w.orders[o].prepared
    ensures SimsOk(CancelOrder(w, o))
  {
    Unfold(w);
    var w' := CancelOrder(w, o);
    forall x | x in w'.sims ensures w'.sims[x] in Rows(w') && RightsHeld(w', x) {
      CancelledRow(w, o, x);
      AtSim(w, x);
    }
    forall t | t in w'.drained ensures DrainedOk(w', t) {
      assert DrainedOk(w, t);
    }
  }

  lemma CancelledSimsRely(w: World, w': World, a: nat, o: nat)
    requires Inv(w) && Cancels(w, o) && w' == CancelOrder(w, o).(actors := w'.actors) && Cancelling(Mover(w, a), o)
    ensures SimsRely(w, w', a)
  {
    forall x | x in w.sims
      ensures SimRely(a, w.sims[x], w'.sims[x]) && Recorded(Mover(w, a), x, w.sims[x], w'.sims[x])
    {
      AtSim(w, x);
    }
  }

  lemma CancelledTxsRely(w: World, w': World, a: nat, o: nat)
    requires Cancels(w, o) && w' == CancelOrder(w, o).(actors := w'.actors) && Cancelling(Mover(w, a), o)
    ensures TxsRely(w, w', a)
  {
    forall t | t in w.txs ensures TxRely(a, w.txs[t], w'.txs[t]) && TxWritten(Mover(w, a), t, w.txs[t], w'.txs[t]) {
    }
  }

  lemma CancelledOrdersRely(w: World, w': World, a: nat, o: nat)
    requires Inv(w) && Cancels(w, o) && w' == CancelOrder(w, o).(actors := w'.actors) && Cancelling(Mover(w, a), o)
    ensures OrdersRely(w, w', a)
  {
    AtOrder(w, o);
    assert forall o' | o' in w.orders && o' != o :: w'.orders[o'] == w.orders[o'];
  }

  lemma CancelledGuarantees(w: World, w': World, a: nat, o: nat)
    requires Inv(w) && Cancels(w, o) && w' == CancelOrder(w, o).(actors := w'.actors) && Cancelling(Mover(w, a), o)
    ensures w' in Guarantee(w, a)
  {
    CancelledTxsRely(w, w', a, o);
    CancelledOrdersRely(w, w', a, o);
    CancelledSimsRely(w, w', a, o);
    SameUsagesRely(w, w', a);
    Guarantees(w, w', a);
  }

  lemma CancelledTables(w: World, w': World, a: nat, o: nat)
    requires Moving(w, a) && Cancels(w, o) && w.orders[o].prepared && a in w'.actors
    requires w' == Become(CancelOrder(w, o), a, w'.actors[a])
    ensures TablesOk(w')
  {
    Unfold(w);
    var w1 := CancelOrder(w, o);
    CancelledPayments(w, o);
    CancelledSims(w, o);
    SamePayments(w1, w');
    SamePromos(w, w');
    SameSims(w1, w', a);
    FoldTables(w');
  }

  lemma StaleReady(w: World, a: nat, txs: seq<nat>, list: seq<StaleOrder>)
    requires StaleOk(w, list)
    ensures Stale(list) in Ready(w, a) && StaleUsages(txs, list) in Ready(w, a)
  {
  }

  lemma JobKnows(w: World, a: nat, list: seq<StaleOrder>)
    requires Inv(w) && a in w.actors && w.actors[a] == Stale(list)
    ensures StaleOk(w, list)
  {
    AtActor(w, a);
  }

  lemma CancelShape(w: World, a: nat, list: seq<StaleOrder>)
    requires a in w.actors && w.actors[a] == Stale(list) && list != [] && Cancels(w, list[0].order)
    ensures var o, w' := list[0].order, StepStale(w, a, list);
            && a in w'.actors && w'.actors[a] == StaleUsages(list[0].txs, list[1..])
            && w' == Become(CancelOrder(w, o), a, w'.actors[a])
            && w' == CancelOrder(w, o).(actors := w'.actors) && w'.actors == w.actors[a := w'.actors[a]]
            && Cancelling(Mover(w, a), o) && w'.actors[a] in Follows(w.actors[a])
  {
  }

  lemma CancelledListOk(w: World, a: nat, list: seq<StaleOrder>)
    requires StaleOk(w, list) && list != [] && Cancels(w, list[0].order)
    ensures StaleOk(StepStale(w, a, list), list[1..]) && w.orders[list[0].order].prepared
  {
    assert list[0] in list;
  }

  lemma CancelKeeps(w: World, a: nat, list: seq<StaleOrder>)
    requires Moving(w, a) && w.actors[a] == Stale(list) && list != [] && Cancels(w, list[0].order)
    ensures StepStale(w, a, list) in Safe(w, a)
  {
    var o, w' := list[0].order, StepStale(w, a, list);
    JobKnows(w, a, list);
    CancelShape(w, a, list);
    CancelledListOk(w, a, list);
    CancelledTables(w, w', a, o);
    CancelledGuarantees(w, w', a, o);
    StaleReady(w', a, list[0].txs, list[1..]);
    CloseOne(w, w', a);
  }

  lemma PasserGoesOn(list: seq<StaleOrder>)
    ensures Finished({}) in Follows(Stale(list))
    ensures list != [] ==> Stale(list[1..]) in Follows(Stale(list))
  {
  }

  lemma StaleKeeps(w: World, a: nat, list: seq<StaleOrder>)
    requires Moving(w, a) && w.actors[a] == Stale(list)
    ensures StepStale(w, a, list) in Safe(w, a)
  {
    JobKnows(w, a, list);
    PasserGoesOn(list);
    if list == [] {
      FinishedReady(w, a);
      PcStep(w, a, Finished({}));
    } else {
      assert list[0] in list;
      if Cancels(w, list[0].order) {
        CancelKeeps(w, a, list);
      } else {
        StaleReady(w, a, [], list[1..]);
        PcStep(w, a, Stale(list[1..]));
      }
    }
  }

  lemma SweeperGoesOn(txs: seq<nat>, list: seq<StaleOrder>)
    ensures Stale(list) in Follows(StaleUsages(txs, list))
    ensures txs != [] ==> StaleUsages(txs[1..], list) in Follows(StaleUsages(txs, list))
  {
  }

  lemma StaleUsagesKeeps(w: World, a: nat, txs: seq<nat>, list: seq<StaleOrder>)
    requires Moving(w, a) && w.actors[a] == StaleUsages(txs, list)
    ensures StepStaleUsages(w, a, txs, list) in Safe(w, a)
  {
    AtActor(w, a);
    SweeperGoesOn(txs, list);
    if txs == [] {
      StaleReady(w, a, [], list);
      PcStep(w, a, Stale(list));
    } else {
      StaleReady(w, a, txs[1..], list);
      CancelUsageKeeps(w, a, txs[0], StaleUsages(txs[1..], list));
    }
  }

  lemma DropUsageKeeps(w: World, a: nat, t: nat)
    requires Moving(w, a) && w.actors[a] == DropUsage(t)
    ensures Become(CancelUsage(w, t), a, Finished({})) in Safe(w, a)
  {
    FinishedReady(w, a);
    CancelUsageKeeps(w, a, t, Finished({}));
  }

  // ---------- the start of an actor ----------

  lemma CheckoutStarts(w: World, user: nat, units: seq<Provider>, offer: Option<Offer>)
    requires Inv(w) && Enabled(w, Checkout(user, units, offer))
    ensures Spawn(w, MakeTx(user, units, offer)) in Safe(w, w.nextActor)
  {
    assert MakeTx(user, units, offer) in Ready(w, w.nextActor);
    SpawnStep(w, MakeTx(user, units, offer));
  }

  lemma BankStarts(w: World, t: nat, p: nat)
    requires Inv(w) && t in w.txs
    ensures Spawn(w, RefuseTx(t, p)) in Safe(w, w.nextActor)
    ensures t in w.open ==> Spawn(w, ConfirmTx(t, w.txs[t].user, p)) in Safe(w, w.nextActor)
  {
    assert RefuseTx(t, p) in Ready(w, w.nextActor);
    SpawnStep(w, RefuseTx(t, p));
    if t in w.open {
      assert ConfirmTx(t, w.txs[t].user, p) in Ready(w, w.nextActor);
      SpawnStep(w, ConfirmTx(t, w.txs[t].user, p));
    }
  }

  // A new poll has confirmed nothing yet.
  function PollStarted(w: World, picks: seq<Pick>): World {
    Spawn(w, Poll(picks, |w.polls|)).(polls := w.polls + [0])
  }

  lemma NewPollPayments(w: World, picks: seq<Pick>)
    requires PaymentsOk(w)
    ensures PaymentsOk(PollStarted(w, picks))
  {
    var w' := PollStarted(w, picks);
    assert Successes(w') == Successes(w);
    assert w'.polls[..|w.polls|] == w.polls;
    forall t | t in w'.txs ensures TxOk(w', t) {
      assert TxOk(w, t);
    }
    forall o | o in w'.orders ensures OrderOk(w', o) {
      assert OrderOk(w, o);
    }
  }

  lemma NewPollTables(w: World, picks: seq<Pick>)
    requires Inv(w)
    ensures TablesOk(PollStarted(w, picks)) && w.nextActor !in w.actors
  {
    var w' := PollStarted(w, picks);
    Unfold(w);
    NewPollPayments(w, picks);
    SamePromos(w, w');
    SameSims(w, w', w.nextActor);
    FoldTables(w');
  }

  lemma NewPollGuarantees(w: World, picks: seq<Pick>)
    requires w.nextActor !in w.actors
    ensures PollStarted(w, picks) in Guarantee(w, w.nextActor)
  {
    var w' := PollStarted(w, picks);
    SameTxsRely(w, w', w.nextActor);
    SameOrdersRely(w, w', w.nextActor);
    SameSimsRely(w, w', w.nextActor);
    SameUsagesRely(w, w', w.nextActor);
    Guarantees(w, w', w.nextActor);
  }

  lemma PollStarts(w: World, picks: seq<Pick>)
    requires Inv(w) && Enabled(w, PollTick(picks))
    ensures PollStarted(w, picks) in Safe(w, w.nextActor)
  {
    var w' := PollStarted(w, picks);
    forall k | k in picks ensures PickOk(w', k.tx, k.payer) {
      assert PollRow(w, k);
      AtTx(w, k.tx);
    }
    NewPollTables(w, picks);
    NewPollGuarantees(w, picks);
    PollReady(w', w.nextActor, picks, |w.polls|);
    CloseOne(w, w', w.nextActor);
  }

  lemma RecoveryStarts(w: World, batch: seq<nat>)
    requires Inv(w) && Enabled(w, RecoveryTick(batch))
    ensures Next(w, RecoveryTick(batch)) in Safe(w, w.nextActor)
  {
    var all := set t | t in batch;
    NextRunReady(w, w.nextActor, batch, all);
    SpawnStep(w, NextRun(batch, all));
  }

  lemma StaleStarts(w: World, list: seq<StaleOrder>)
    requires Inv(w) && Enabled(w, StaleTick(list))
    ensures Next(w, StaleTick(list)) in Safe(w, w.nextActor)
  {
    StaleReady(w, w.nextActor, [], list);
    SpawnStep(w, Stale(list));
  }

  lemma CallbackStarts(w: World, x: nat, actor: Actor)
    requires Inv(w) && x in w.sims && OnSim(actor) && MayStart(actor) && actor.sim == x
    requires RowStage(w.nextActor, w.sims[x], actor)
    ensures Spawn(w, actor) in Safe(w, w.nextActor)
  {
    assert actor in Ready(w, w.nextActor);
    SpawnStep(w, actor);
  }

  lemma CallbacksStart(w: World, e: Event)
    requires Inv(w) && Enabled(w, e) && (e.JoyPinReady? || e.JoyQrReady? || e.BcDone?)
    ensures Next(w, e) in Safe(w, w.nextActor)
  {
    AtSim(w, e.sim);
    match e
    case JoyPinReady(x, _, pin) => CallbackStarts(w, x, JoyPinCallback(x, pin));
    case JoyQrReady(x, _, iccid, qrcode) => CallbackStarts(w, x, JoyQrCallback(x, iccid, qrcode));
    case BcDone(x, iccid, qrcode) => CallbackStarts(w, x, BcCallback(x, iccid, qrcode));
  }

  lemma MobCallbackStarts(w: World, x: nat, body: MobBody)
    requires Inv(w) && x in w.sims && w.sims[x].provider == Mobiline
    ensures Spawn(w, StartMobCallback(w, x, body)) in Safe(w, w.nextActor)
    ensures StartMobCallback(w, x, body).MobCallback? <==>
            w.sims[x].status != Completed && w.sims[x].status != Failed && (body.success ==> UsableEsim(body))
    ensures !StartMobCallback(w, x, body).MobCallback? ==> StartMobCallback(w, x, body) == Finished({})
  {
    var actor := StartMobCallback(w, x, body);
    if actor.MobCallback? {
      CallbackStarts(w, x, actor);
    } else {
      FinishedReady(w, w.nextActor);
      SpawnStep(w, actor);
    }
  }
}
