/** The backend as the services write it: tables that are updated in place, one method for each
    stretch of code between two awaits. Every method does to the tables what the state machine says,
    so whatever holds of every run holds of every backend that serves events. */
module Backends {
  import opened Tables
  import opened Correlation
  import opened Protocol
  import opened Invariant
  import opened Machine
  import Answers
  import ProviderAnswers

  // ---------- what the invariant says about the tables ----------

  lemma SimTables(w: World)
    requires Inv(w)
    ensures forall x | x in w.sims ::
              && w.sims[x].submits <= 1 && w.sims[x].qrCalls <= 1
              && (w.sims[x].provider == Mobiline ==> w.sims[x].deliveries <= 1)
    ensures forall x | x in w.sims && w.sims[x].owner.Some? ::
              && w.sims[x].order in w.orders && !w.orders[w.sims[x].order].cancelled
              && w.orders[w.sims[x].order].tx in w.txs && w.txs[w.orders[w.sims[x].order].tx].status == TxSuccess
  {
    forall x | x in w.sims ensures w.sims[x] in Rows(w) {
      AtSim(w, x);
    }
  }

  lemma OrderTables(w: World)
    requires Inv(w)
    ensures forall o | o in w.orders && w.orders[o].cancelled ::
              w.orders[o].status == Failed && w.orders[o].tx in w.txs && w.txs[w.orders[o].tx].status != TxSuccess
  {
    forall o | o in w.orders ensures OrderOk(w, o) {
      AtOrder(w, o);
    }
  }

  lemma PromoTables(w: World)
    requires Inv(w)
    ensures forall p | p in w.promos ::
              && w.promos[p].usedCount == |ConfirmedOf(w.usages, p)|
              && (w.promos[p].limit.Some? ==> w.promos[p].usedCount <= w.promos[p].limit.value)
    ensures forall t :: t in w.ledger <==>
              t in w.usages && w.usages[t].status == UsageConfirmed && w.usages[t].credit > 0
    ensures forall t | t in w.ledger :: w.ledger[t].amount == w.usages[t].credit
  {
    assert Satisfies(w, Promos);
    forall p | p in w.promos ensures PromoOk(w, p) {
    }
    forall t ensures t in w.ledger <==> Earns(w, t) {
    }
  }

  // What a poll, and a callback that brings an eSIM, do next.
  lemma StepIsPinned(w: World, a: nat, i: Input)
    requires a in w.actors
    ensures var me, w' := w.actors[a], Step(w, a, i);
            && (me.Poll? && me.picks != [] ==>
                  w' == w.(actors := w.actors[a :=
                    if i == BankSaysConfirmed then PollConfirm(me.picks[0], me.picks[1..], me.tick)
                    else Poll(me.picks[1..], me.tick)]))
            && ((me.JoyQrCallback? || me.BcCallback?) && me.sim in w.sims ==>
                  w'.sims == w.sims[me.sim := w.sims[me.sim].(
                    status := Completed, iccid := me.iccid, qrcode := me.qrcode)])
            && (me.MobCallback? && me.success && me.sim in w.sims
                && w.sims[me.sim].status in {Pending, NotifyCoupon} ==>
                  w'.sims == w.sims[me.sim := w.sims[me.sim].(
                    status := Completed, iccid := me.iccid, qrcode := me.qrcode, deliverBy := Some(a))])
  {
    var me := w.actors[a];
    if me.Poll? && me.picks != [] {
      Answers.PollAsks(w, a, i);
    } else if (me.JoyQrCallback? || me.BcCallback?) && me.sim in w.sims {
      ProviderAnswers.EsimCallbackWrites(w, a, i);
    } else if me.MobCallback? && me.sim in w.sims {
      ProviderAnswers.MobCallbackWrites(w, a, me.sim, me.success, me.iccid, me.qrcode, i);
    }
  }

  class Backend {
    const group: string
    var txs: map<nat, Tx>
    var orders: map<nat, Order>
    var sims: map<nat, Sim>
    var usages: map<nat, Usage>
    var promos: map<nat, Promo>
    var ledger: map<nat, Entry>
    var actors: map<nat, Actor>
    var nextTx: nat
    var nextOrder: nat
    var nextSim: nat
    var nextActor: nat
    var open: set<nat>
    var hookWins: nat
    var polls: seq<nat>
    var drained: set<nat>

    ghost function View(): World
      reads this
    {
      World(group, txs, orders, sims, usages, promos, ledger, actors,
            nextTx, nextOrder, nextSim, nextActor, open, hookWins, polls, drained)
    }

    constructor (group: string, promos: map<nat, Promo>)
      requires forall p | p in promos :: promos[p].usedCount == 0
      ensures Initial(View()) && this.promos == promos && this.group == group
    {
      this.group, this.promos := group, promos;
      txs, orders, sims, usages, ledger, actors := map[], map[], map[], map[], map[], map[];
      nextTx, nextOrder, nextSim, nextActor := 0, 0, 0, 0;
      open, hookWins, polls, drained := {}, 0, [], {};
    }

    // ---------- CreateSimService ----------

    // claimSim: update where id = x and status = CREATED.
    method ClaimSim(a: nat, x: nat) returns (won: bool)
      modifies `sims
      ensures won <==> x in old(sims) && old(sims)[x].status == Created
      ensures sims == if won then old(sims)[x := old(sims)[x].(status := Pending, owner := Some(a))] else old(sims)
      ensures View() == if won then Claim(old(View()), a, x) else old(View())
    {
      won := x in sims && sims[x].status == Created;
      if won {
        sims := sims[x := sims[x].(status := Pending, owner := Some(a))];
      }
    }

    method SubmitJoyTel(a: nat, x: nat, r: Run, answer: Input)
      modifies `sims, `actors
      ensures View() == StepJoySubmit(old(View()), a, x, r, answer)
    {
      CountSubmission(x);
      actors := actors[a := if answer.JoyAccepted? then JoyAccept(x, answer.ticket, r) else JoyFail(x, r)];
    }

    method CountSubmission(x: nat)
      modifies `sims
      ensures View() == Submitted(old(View()), x)
    {
      if x in sims {
        sims := sims[x := sims[x].(submits := sims[x].submits + 1)];
      }
    }

    method AcceptJoyTel(a: nat, x: nat, ticket: Ticket, r: Run)
      modifies `sims, `actors
      ensures View() == StepJoyAccept(old(View()), a, x, ticket, r)
    {
      if x in sims {
        sims := sims[x := sims[x].(ticket := Some(ticket), status := RedeemCoupon)];
      }
      actors := actors[a := JoyQuery(x, r)];
    }

    // The update REDEEM_COUPON -> NOTIFY_COUPON of tryProactiveJoyTelQuery and of redeemCoupon.
    method ClaimCoupon(a: nat, x: nat, pin: Option<string>) returns (won: bool)
      modifies `sims
      ensures won <==> x in old(sims) && old(sims)[x].status == RedeemCoupon
      ensures won ==> sims == old(sims)[x := old(sims)[x].(
                status := NotifyCoupon, snPin := if pin.Some? then pin else old(sims)[x].snPin, qrBy := Some(a))]
      ensures View() == if won then ClaimPin(old(View()), a, x, pin) else old(View())
    {
      won := x in sims && sims[x].status == RedeemCoupon;
      if won {
        var s := sims[x].(status := NotifyCoupon, qrBy := Some(a));
        if pin.Some? {
          s := s.(snPin := pin);
        }
        sims := sims[x := s];
      }
    }

    method ProactiveCoupon(a: nat, x: nat, pin: Option<string>, r: Run)
      modifies `sims, `actors
      ensures View() == StepJoyClaim(old(View()), a, x, pin, r)
    {
      var won := ClaimCoupon(a, x, pin);
      actors := actors[a := if won then JoyQr(x, r) else Provision(r)];
    }

    method RequestQr(x: nat)
      modifies `sims
      ensures View() == QrRequested(old(View()), x)
    {
      if x in sims {
        sims := sims[x := sims[x].(qrCalls := sims[x].qrCalls + 1)];
      }
    }

    // failSim and the update after an accepted BillionConnect order: no guard on the status.
    method WriteStatus(x: nat, status: Status)
      modifies `sims
      ensures View() == SetStatus(old(View()), x, status)
    {
      if x in sims {
        sims := sims[x := sims[x].(status := status)];
      }
    }

    method AnswerJoyTel(a: nat, x: nat, r: Run, answer: Input)
      modifies `actors
      ensures View() == StepJoyQuery(old(View()), a, x, r, answer)
    {
      actors := actors[a := if answer.PinReady? then JoyClaim(x, answer.pin, r) else Provision(r)];
    }

    method RequestedQr(a: nat, x: nat, r: Run)
      modifies `sims, `actors
      ensures View() == Return(QrRequested(old(View()), x), a, r, true)
    {
      RequestQr(x);
      actors := actors[a := Provision(r)];
    }

    method FailedSim(a: nat, x: nat, r: Run)
      modifies `sims, `actors
      ensures View() == Return(SetStatus(old(View()), x, Failed), a, r, false)
    {
      WriteStatus(x, Failed);
      actors := actors[a := Provision(r.(failed := true))];
    }

    method SubmitBillion(a: nat, x: nat, r: Run, answer: Input)
      modifies `sims, `actors
      ensures View() == StepBcSubmit(old(View()), a, x, r, answer)
    {
      CountSubmission(x);
      actors := actors[a := if answer.BcAccepted? then BcAccept(x, r) else BcFail(x, r)];
    }

    method AcceptBillion(a: nat, x: nat, r: Run)
      modifies `sims, `actors
      ensures View() == Return(SetStatus(old(View()), x, NotifyCoupon), a, r, true)
    {
      WriteStatus(x, NotifyCoupon);
      actors := actors[a := Provision(r)];
    }

    // ---------- MobilineActivationService ----------

    method ClaimMobiline(a: nat, x: nat, r: Run, answer: Input)
      requires x in sims
      modifies `sims, `actors
      ensures View() == StepMobClaim(old(View()), a, x, r, answer)
    {
      var created := sims[x].status == Created;
      if answer.Configured? && |answer.stamp| == STAMP_WIDTH {
        if created {
          var id := ChannelOrderId(group, answer.stamp, x);
          sims := sims[x := sims[x].(status := Pending, channelId := Some(id), owner := Some(a))];
          actors := actors[a := MobSubmit(x, r)];
        } else {
          actors := actors[a := Provision(r)];
        }
      } else {
        if created {
          sims := sims[x := sims[x].(status := Failed)];
        }
        actors := actors[a := Provision(r.(failed := true))];
      }
    }

    method SubmitMobiline(a: nat, x: nat, r: Run, answer: Input)
      modifies `sims, `actors
      ensures View() == StepMobSubmit(old(View()), a, x, r, answer)
    {
      CountSubmission(x);
      actors := actors[a := if answer.MobReply? then MobAnswer(x, answer.accepted, r) else Provision(r)];
    }

    method AnswerMobiline(a: nat, x: nat, accepted: bool, r: Run)
      modifies `sims, `actors
      ensures View() == StepMobAnswer(old(View()), a, x, accepted, r)
    {
      if x in sims && sims[x].status == Pending {
        sims := sims[x := sims[x].(status := if accepted then NotifyCoupon else Failed)];
      }
      actors := actors[a := MobCheck(x, r)];
    }

    method CheckMobiline(a: nat, x: nat, r: Run)
      modifies `actors
      ensures View() == StepMobCheck(old(View()), a, x, r)
    {
      var failed := x in sims && sims[x].status == Failed;
      actors := actors[a := Provision(r.(failed := r.failed || failed))];
    }

    method CompleteMobiline(a: nat, x: nat, success: bool, iccid: Option<string>, qrcode: Option<string>)
      modifies `sims, `actors
      ensures success && x in old(sims) && old(sims)[x].status in {Pending, NotifyCoupon} ==>
                && sims == old(sims)[x := old(sims)[x].(
                     status := Completed, iccid := iccid, qrcode := qrcode, deliverBy := Some(a))]
                && actors == old(actors)[a := MobDeliver(x)]
      ensures View() == StepMobCallback(old(View()), a, x, success, iccid, qrcode)
    {
      if x !in sims || (sims[x].status != Pending && sims[x].status != NotifyCoupon) {
        actors := actors[a := Finished({})];
      } else if success {
        sims := sims[x := sims[x].(status := Completed, iccid := iccid, qrcode := qrcode, deliverBy := Some(a))];
        actors := actors[a := MobDeliver(x)];
      } else {
        sims := sims[x := sims[x].(status := Failed)];
        actors := actors[a := Finished({})];
      }
    }

    method DeliverSim(a: nat, x: nat)
      modifies `sims, `actors
      ensures View() == StepDeliver(old(View()), a, x)
    {
      if x in sims {
        sims := sims[x := sims[x].(deliveries := sims[x].deliveries + 1)];
      }
      actors := actors[a := Finished({})];
    }

    // ---------- OrderService ----------

    method FoundOrder(a: nat, t: nat, rest: seq<nat>, batch: set<nat>, answer: Input)
      modifies `actors, `drained
      ensures View() == StepReadOrder(old(View()), a, t, rest, batch, answer)
    {
      if answer.OrderRow? && answer.todo != [] {
        actors := actors[a := Provision(Run(t, answer.order, answer.todo, false, rest, batch))];
      } else {
        if answer.OrderRow? {
          drained := drained + {t};
        }
        actors := actors[a := NextRun(rest, batch)];
      }
    }

    // One round of the loop over the SIMs of the order, up to the submission; after the last one the
    // order gets its status.
    method ProcessNext(a: nat, r: Run, answer: Input)
      modifies `sims, `orders, `actors, `drained
      ensures View() == StepProvision(old(View()), a, r, answer)
    {
      if r.todo == [] {
        ConcludeOrder(a, r);
      } else {
        ProcessSim(a, r.todo[0], r.(todo := r.todo[1..]), answer);
      }
    }

    method ConcludeOrder(a: nat, r: Run)
      modifies `orders, `actors, `drained
      ensures View() == StepConclude(old(View()), a, r)
    {
      if r.order in orders {
        orders := orders[r.order := orders[r.order].(status := if r.failed then Failed else Completed)];
      }
      drained := drained + {r.tx};
      actors := actors[a := NextRun(r.rest, r.batch)];
    }

    method ProcessSim(a: nat, x: nat, r: Run, answer: Input)
      modifies `sims, `actors
      ensures View() == StepClaim(old(View()), a, x, r, answer)
    {
      if x in sims && sims[x].provider == Mobiline {
        ClaimMobiline(a, x, r, answer);
      } else if x in sims && (sims[x].provider == JoyTel || sims[x].provider == BillionConnect) {
        ClaimForSubmission(a, x, r, answer);
      } else {
        actors := actors[a := Provision(r)];
      }
    }

    // processJoyTel and processBillion: nothing is submitted unless the claim is won.
    method ClaimForSubmission(a: nat, x: nat, r: Run, answer: Input)
      requires x in sims && (sims[x].provider == JoyTel || sims[x].provider == BillionConnect)
      modifies `sims, `actors
      ensures View() == StepClaim(old(View()), a, x, r, answer)
    {
      var provider := sims[x].provider;
      var won := ClaimSim(a, x);
      if !won {
        actors := actors[a := Provision(r)];
      } else {
        actors := actors[a := if provider == JoyTel then JoySubmit(x, r) else BcSubmit(x, r)];
      }
    }

    method RedeemedByCallback(a: nat, x: nat, pin: Option<string>)
      modifies `sims, `actors
      ensures View() == StepJoyPinCallback(old(View()), a, x, pin)
    {
      var won := ClaimCoupon(a, x, pin);
      actors := actors[a := if won then JoyPinQr(x) else Finished({})];
    }

    method RedeemedQr(a: nat, x: nat)
      modifies `sims, `actors
      ensures View() == Become(QrRequested(old(View()), x), a, Finished({}))
    {
      RequestQr(x);
      actors := actors[a := Finished({})];
    }

    // notifyCoupon and bcCallback.
    method CompleteSim(a: nat, x: nat, iccid: Option<string>, qrcode: Option<string>)
      modifies `sims, `actors
      ensures View() == Complete(old(View()), a, x, iccid, qrcode)
    {
      if x in sims {
        sims := sims[x := sims[x].(status := Completed, iccid := iccid, qrcode := qrcode)];
      }
      actors := actors[a := EsimDeliver(x)];
    }

    // ---------- PaymentService ----------

    method CreateTransaction(a: nat, user: nat, units: seq<Provider>, offer: Option<Offer>)
      modifies `txs, `nextTx, `actors
      ensures View() == StepMakeTx(old(View()), a, user, units, offer)
    {
      txs := txs[nextTx := Tx(TxPending, Some(user), None, None, a, None)];
      actors := actors[a := MakeOrder(nextTx, user, units, offer)];
      nextTx := nextTx + 1;
    }

    method CreateOrder(a: nat, t: nat, user: nat, units: seq<Provider>, offer: Option<Offer>)
      modifies `orders, `nextOrder, `actors
      ensures View() == StepMakeOrder(old(View()), a, t, user, units, offer)
    {
      orders := orders[nextOrder := Order(Created, t, false, false)];
      actors := actors[a := LinkOrder(t, nextOrder, user, units, offer)];
      nextOrder := nextOrder + 1;
    }

    method LinkTransaction(a: nat, t: nat, o: nat, user: nat, units: seq<Provider>, offer: Option<Offer>)
      modifies `txs, `actors
      ensures View() == StepLinkOrder(old(View()), a, t, o, user, units, offer)
    {
      if t in txs {
        txs := txs[t := txs[t].(order := Some(o))];
      }
      actors := actors[a := MakeUsage(t, o, user, units, offer)];
    }

    method CreatePendingUsage(a: nat, t: nat, o: nat, user: nat, units: seq<Provider>, offer: Option<Offer>)
      modifies `usages, `actors
      ensures View() == StepMakeUsage(old(View()), a, t, o, user, units, offer)
    {
      if offer.Some? {
        var promo := offer.value;
        usages := usages[t := Usage(UsagePending, promo.promo, user, o, promo.discount, promo.credit)];
      }
      actors := actors[a := MakeSims(t, o, units)];
    }

    method CreateSimRow(a: nat, t: nat, o: nat, units: seq<Provider>)
      modifies `sims, `nextSim, `orders, `actors
      ensures View() == StepMakeSims(old(View()), a, t, o, units)
    {
      if units != [] {
        sims := sims[nextSim := NewSim(units[0], o)];
        nextSim := nextSim + 1;
        actors := actors[a := MakeSims(t, o, units[1..])];
      } else {
        if o in orders {
          orders := orders[o := orders[o].(prepared := true)];
        }
        actors := actors[a := InitPayment(t)];
      }
    }

    method InitAtBank(a: nat, t: nat, answer: Input)
      modifies `open, `actors
      ensures View() == StepInitPayment(old(View()), a, t, answer)
    {
      if answer.InitAccepted? {
        open := open + {t};
        var p := answer.paymentId;
        actors := actors[a := if p.Some? then SavePaymentId(t, p.value) else Finished({})];
      } else {
        actors := actors[a := MarkError(t)];
      }
    }

    method StorePaymentId(a: nat, t: nat, p: nat)
      modifies `txs, `actors
      ensures View() == StepSavePaymentId(old(View()), a, t, p)
    {
      if t in txs {
        txs := txs[t := txs[t].(paymentId := Some(p))];
      }
      actors := actors[a := Finished({})];
    }

    method StoreError(a: nat, t: nat)
      modifies `txs, `actors
      ensures View() == StepMarkError(old(View()), a, t)
    {
      if t in txs {
        txs := txs[t := txs[t].(status := TxError)];
      }
      actors := actors[a := DropUsage(t)];
    }

    method RefuseTransaction(a: nat, t: nat, p: nat)
      modifies `txs, `actors
      ensures View() == StepRefuseTx(old(View()), a, t, p)
    {
      if t in txs && txs[t].status == TxPending {
        txs := txs[t := txs[t].(status := TxFailed, paymentId := Some(p))];
      }
      actors := actors[a := DropUsage(t)];
    }

    // confirmTransaction: update where id = t and status = PENDING, then processConfirmedPayment.
    method ConfirmTransaction(t: nat, payer: Option<nat>, p: nat) returns (won: bool)
      modifies `txs, `actors, `nextActor
      ensures won <==> t in old(txs) && old(txs)[t].status == TxPending
      ensures won && payer.Some? ==>
                && txs == old(txs)[t := old(txs)[t].(
                     status := TxSuccess, paymentId := Some(p), launched := Some(old(nextActor)))]
                && actors == old(actors)[old(nextActor) := ReadUsage(t)]
      ensures View() == Confirm(old(View()), t, payer, p)
    {
      won := t in txs && txs[t].status == TxPending;
      if won {
        var row := txs[t].(status := TxSuccess, paymentId := Some(p));
        if payer.Some? {
          row := row.(launched := Some(nextActor));
          actors := actors[nextActor := ReadUsage(t)];
          nextActor := nextActor + 1;
        }
        txs := txs[t := row];
      }
    }

    method ConfirmedByHook(a: nat, t: nat, payer: Option<nat>, p: nat)
      modifies `txs, `actors, `nextActor, `hookWins
      ensures View() == StepConfirmTx(old(View()), a, t, payer, p)
    {
      var won := ConfirmTransaction(t, payer, p);
      if won {
        hookWins := hookWins + 1;
      }
      actors := actors[a := Finished({})];
    }

    method AskBank(a: nat, picks: seq<Pick>, tick: nat, answer: Input)
      modifies `actors
      ensures actors == old(actors)[a :=
                if picks == [] then Finished({})
                else if answer == BankSaysConfirmed then PollConfirm(picks[0], picks[1..], tick)
                else Poll(picks[1..], tick)]
      ensures View() == StepPoll(old(View()), a, picks, tick, answer)
    {
      if picks == [] {
        actors := actors[a := Finished({})];
      } else if answer.BankSaysConfirmed? {
        actors := actors[a := PollConfirm(picks[0], picks[1..], tick)];
      } else {
        actors := actors[a := Poll(picks[1..], tick)];
      }
    }

    method ConfirmedByPoll(a: nat, pick: Pick, picks: seq<Pick>, tick: nat)
      modifies `txs, `actors, `nextActor, `polls
      ensures View() == StepPollConfirm(old(View()), a, pick, picks, tick)
    {
      var won := ConfirmTransaction(pick.tx, pick.payer, pick.paymentId);
      if won && tick < |polls| {
        polls := polls[tick := polls[tick] + 1];
      }
      actors := actors[a := Poll(picks, tick)];
    }

    // ---------- PromocodeService ----------

    method FoundUsage(a: nat, t: nat)
      modifies `actors
      ensures View() == StepReadUsage(old(View()), a, t)
    {
      if t in usages && usages[t].status == UsagePending && usages[t].promo in promos {
        var u := usages[t];
        var p := promos[u.promo];
        actors := actors[a := ApplyUsage(t, u.promo, p.limit, p.agent, u.credit)];
      } else {
        actors := actors[a := ReadOrder(t, [], {t})];
      }
    }

    // The `$transaction` of confirmUsageByTransaction: count first, then usage and ledger.
    method ConfirmUsageRow(t: nat, p: nat, limit: Option<nat>, agent: Option<nat>, credit: nat)
      modifies `promos, `usages, `ledger
      ensures View() == ConfirmUsage(old(View()), t, p, limit, agent, credit)
    {
      if t in usages {
        var counted := p in promos && promos[p].active && (limit.None? || promos[p].usedCount < limit.value);
        var earns := agent.Some? && credit > 0;
        if !counted {
          usages := usages[t := usages[t].(status := UsageCanceled)];
        } else if !earns || t !in ledger {
          promos := promos[p := promos[p].(usedCount := promos[p].usedCount + 1)];
          usages := usages[t := usages[t].(status := UsageConfirmed)];
          if earns {
            ledger := ledger[t := Entry(agent.value, credit)];
          }
        }
      }
    }

    method AppliedUsage(a: nat, t: nat, p: nat, limit: Option<nat>, agent: Option<nat>, credit: nat, answer: Input)
      modifies `promos, `usages, `ledger, `actors
      ensures View() == StepApplyUsage(old(View()), a, t, p, limit, agent, credit, answer)
    {
      if !answer.DbError? {
        ConfirmUsageRow(t, p, limit, agent, credit);
      }
      actors := actors[a := ReadOrder(t, [], {t})];
    }

    method CancelUsageRow(t: nat)
      modifies `usages
      ensures View() == CancelUsage(old(View()), t)
    {
      if t in usages && usages[t].status == UsagePending {
        usages := usages[t := usages[t].(status := UsageCanceled)];
      }
    }

    method DroppedUsage(a: nat, t: nat)
      modifies `usages, `actors
      ensures View() == Become(CancelUsage(old(View()), t), a, Finished({}))
    {
      CancelUsageRow(t);
      actors := actors[a := Finished({})];
    }

    // ---------- JobsService ----------

    // The `$transaction` of cancelStaleOrder.
    method CancelStaleOrder(o: nat) returns (cancelled: bool)
      modifies `orders, `sims, `txs
      ensures cancelled <==>
                && o in old(orders) && old(orders)[o].status == Created
                && forall t | t in old(txs) && old(txs)[t].order == Some(o) ::
                     old(txs)[t].status !in {TxSuccess, TxWaiting}
      ensures View() == if cancelled then CancelOrder(old(View()), o) else old(View())
    {
      cancelled :=
        && !(exists t | t in txs :: txs[t].order == Some(o) && PaidStatus(txs[t].status))
        && o in orders && orders[o].status == Created;
      if cancelled {
        orders := orders[o := orders[o].(status := Failed, cancelled := true)];
        sims := map x | x in sims ::
          if sims[x].order == o && sims[x].status == Created then sims[x].(status := Failed) else sims[x];
        txs := map t | t in txs ::
          if txs[t].order == Some(o) && txs[t].status == TxPending then txs[t].(status := TxCanceled) else txs[t];
      }
    }

    method CancelNext(a: nat, list: seq<StaleOrder>)
      modifies `orders, `sims, `txs, `actors
      ensures View() == StepStale(old(View()), a, list)
    {
      if list == [] {
        actors := actors[a := Finished({})];
      } else {
        var cancelled := CancelStaleOrder(list[0].order);
        actors := actors[a := if cancelled then StaleUsages(list[0].txs, list[1..]) else Stale(list[1..])];
      }
    }

    method CancelNextUsage(a: nat, due: seq<nat>, list: seq<StaleOrder>)
      modifies `usages, `actors
      ensures View() == StepStaleUsages(old(View()), a, due, list)
    {
      if due == [] {
        actors := actors[a := Stale(list)];
      } else {
        CancelUsageRow(due[0]);
        actors := actors[a := StaleUsages(due[1..], list)];
      }
    }

    // ---------- serving events ----------

    method MoveCheckout(a: nat, answer: Input)
      requires a in actors && IsCheckout(actors[a])
      modifies this
      ensures View() == StepCheckout(old(View()), a, old(actors[a]), answer)
    {
      match actors[a]
      case MakeTx(user, units, offer) => CreateTransaction(a, user, units, offer);
      case MakeOrder(t, user, units, offer) => CreateOrder(a, t, user, units, offer);
      case LinkOrder(t, o, user, units, offer) => LinkTransaction(a, t, o, user, units, offer);
      case MakeUsage(t, o, user, units, offer) => CreatePendingUsage(a, t, o, user, units, offer);
      case MakeSims(t, o, units) => CreateSimRow(a, t, o, units);
      case InitPayment(t) => InitAtBank(a, t, answer);
      case MarkError(t) => StoreError(a, t);
    }

    method MoveBank(a: nat, answer: Input)
      requires a in actors && IsBank(actors[a])
      modifies this
      ensures View() == StepBank(old(View()), a, old(actors[a]), answer)
    {
      match actors[a]
      case SavePaymentId(t, p) => StorePaymentId(a, t, p);
      case DropUsage(t) => DroppedUsage(a, t);
      case RefuseTx(t, p) => RefuseTransaction(a, t, p);
      case ConfirmTx(t, payer, p) => ConfirmedByHook(a, t, payer, p);
      case Poll(picks, tick) => AskBank(a, picks, tick, answer);
      case PollConfirm(pick, picks, tick) => ConfirmedByPoll(a, pick, picks, tick);
    }

    method MoveCreate(a: nat, answer: Input)
      requires a in actors && IsCreate(actors[a])
      modifies this
      ensures View() == StepCreate(old(View()), a, old(actors[a]), answer)
    {
      match actors[a]
      case ReadUsage(t) => FoundUsage(a, t);
      case ApplyUsage(t, p, limit, agent, credit) => AppliedUsage(a, t, p, limit, agent, credit, answer);
      case ReadOrder(t, rest, batch) => FoundOrder(a, t, rest, batch, answer);
      case Provision(r) => ProcessNext(a, r, answer);
    }

    method MoveJoyTel(a: nat, answer: Input)
      requires a in actors && IsJoyTel(actors[a])
      modifies this
      ensures View() == StepJoyTel(old(View()), a, old(actors[a]), answer)
    {
      match actors[a]
      case JoySubmit(x, r) => SubmitJoyTel(a, x, r, answer);
      case JoyAccept(x, ticket, r) => AcceptJoyTel(a, x, ticket, r);
      case JoyQuery(x, r) => AnswerJoyTel(a, x, r, answer);
      case JoyClaim(x, pin, r) => ProactiveCoupon(a, x, pin, r);
      case JoyQr(x, r) => RequestedQr(a, x, r);
      case JoyFail(x, r) => FailedSim(a, x, r);
    }

    method MoveBillion(a: nat, answer: Input)
      requires a in actors && IsBillion(actors[a])
      modifies this
      ensures View() == StepBillion(old(View()), a, old(actors[a]), answer)
    {
      match actors[a]
      case BcSubmit(x, r) => SubmitBillion(a, x, r, answer);
      case BcAccept(x, r) => AcceptBillion(a, x, r);
      case BcFail(x, r) => FailedSim(a, x, r);
    }

    method MoveMobiline(a: nat, answer: Input)
      requires a in actors && IsMobiline(actors[a])
      modifies this
      ensures View() == StepMobiline(old(View()), a, old(actors[a]), answer)
    {
      match actors[a]
      case MobSubmit(x, r) => SubmitMobiline(a, x, r, answer);
      case MobAnswer(x, accepted, r) => AnswerMobiline(a, x, accepted, r);
      case MobCheck(x, r) => CheckMobiline(a, x, r);
    }

    method MoveCouponCallback(a: nat)
      requires a in actors && IsCouponCallback(actors[a])
      modifies this
      ensures View() == StepCouponCallback(old(View()), a, old(actors[a]))
    {
      match actors[a]
      case JoyPinCallback(x, pin) => RedeemedByCallback(a, x, pin);
      case JoyPinQr(x) => RedeemedQr(a, x);
      case JoyQrCallback(x, iccid, qrcode) => CompleteSim(a, x, iccid, qrcode);
    }

    method MoveEsimCallback(a: nat)
      requires a in actors && IsEsimCallback(actors[a])
      modifies this
      ensures View() == StepEsimCallback(old(View()), a, old(actors[a]))
    {
      match actors[a]
      case BcCallback(x, iccid, qrcode) => CompleteSim(a, x, iccid, qrcode);
      case MobCallback(x, success, iccid, qrcode) => CompleteMobiline(a, x, success, iccid, qrcode);
      case MobDeliver(x) => DeliverSim(a, x);
      case EsimDeliver(x) => DeliverSim(a, x);
    }

    /** The call `a` goes on to its next await. */
    method Advance(a: nat, answer: Input)
      requires a in actors
      modifies this
      ensures View() == Step(old(View()), a, answer)
      ensures old(actors)[a].Poll? && old(actors)[a].picks != [] ==>
                var me := old(actors)[a];
                txs == old(txs) && actors == old(actors)[a :=
                  if answer == BankSaysConfirmed then PollConfirm(me.picks[0], me.picks[1..], me.tick)
                  else Poll(me.picks[1..], me.tick)]
      ensures (old(actors)[a].JoyQrCallback? || old(actors)[a].BcCallback?) && old(actors)[a].sim in old(sims) ==>
                var me := old(actors)[a];
                sims == old(sims)[me.sim := old(sims)[me.sim].(
                  status := Completed, iccid := me.iccid, qrcode := me.qrcode)]
      ensures old(actors)[a].MobCallback? && old(actors)[a].success && old(actors)[a].sim in old(sims)
              && old(sims)[old(actors)[a].sim].status in {Pending, NotifyCoupon} ==>
                var me := old(actors)[a];
                sims == old(sims)[me.sim := old(sims)[me.sim].(
                  status := Completed, iccid := me.iccid, qrcode := me.qrcode, deliverBy := Some(a))]
    {
      StepIsPinned(View(), a, answer);
      var actor := actors[a];
      if IsCheckout(actor) {
        MoveCheckout(a, answer);
      } else if IsBank(actor) {
        MoveBank(a, answer);
      } else if IsCreate(actor) {
        MoveCreate(a, answer);
      } else if IsJoyTel(actor) {
        MoveJoyTel(a, answer);
      } else if IsBillion(actor) {
        MoveBillion(a, answer);
      } else if IsMobiline(actor) {
        MoveMobiline(a, answer);
      } else if IsCouponCallback(actor) {
        MoveCouponCallback(a);
      } else if IsEsimCallback(actor) {
        MoveEsimCallback(a);
      } else if actor.Stale? {
        CancelNext(a, actor.list);
      } else if actor.StaleUsages? {
        CancelNextUsage(a, actor.txs, actor.list);
      }
    }

    method Start(actor: Actor)
      modifies `actors, `nextActor
      ensures View() == Spawn(old(View()), actor)
    {
      actors := actors[nextActor := actor];
      nextActor := nextActor + 1;
    }

    /** A request comes in, a timer fires, or a call goes on. */
    method Receive(e: Event)
      requires e.Move? ==> e.actor in actors
      modifies this
      ensures View() == Next(old(View()), e)
    {
      match e
      case Move(a, answer) => Advance(a, answer);
      case Checkout(user, units, offer) => Start(MakeTx(user, units, offer));
      case BankRefuses(t, p) => if t in txs { Start(RefuseTx(t, p)); }
      case BankConfirms(t, p) => if t in txs { Start(ConfirmTx(t, txs[t].user, p)); }
      case PollTick(picks) =>
        Start(Poll(picks, |polls|));
        polls := polls + [0];
      case RecoveryTick(batch) => Start(NextRun(batch, set t | t in batch));
      case StaleTick(list) => Start(Stale(list));
      case JoyPinReady(x, _, pin) => Start(JoyPinCallback(x, pin));
      case JoyQrReady(x, _, iccid, qrcode) => Start(JoyQrCallback(x, iccid, qrcode));
      case BcDone(x, iccid, qrcode) => Start(BcCallback(x, iccid, qrcode));
      case MobDone(x, _, body) => ReceiveMobiline(x, body);
    }

    method ReceiveMobiline(x: nat, body: MobBody)
      modifies `actors, `nextActor
      ensures View() == Spawn(old(View()), StartMobCallback(old(View()), x, body))
    {
      var final := x !in sims || sims[x].status == Completed || sims[x].status == Failed;
      if final || (body.success && !UsableEsim(body)) {
        Start(Finished({}));
      } else {
        Start(MobCallback(x, body.success, body.cid, body.qrcode));
      }
    }

    /** A backend that serves an allowed run event by event ends where the run ends, and keeps the
        invariant all the way. Whatever came in, its tables then say: no SIM was submitted or asked for its QR
        twice, and none of Mobiline was delivered twice; a SIM that was claimed belongs to a paid order; no SIM
        of a cancelled order was claimed, and the order is FAILED and not paid; `used_count` counts the
        CONFIRMED usages and is within the limit; and the ledger has one row for each CONFIRMED usage with a
        credit, and no other. */
    method Serve(es: seq<Event>)
      requires Inv(View()) && Allowed(View(), es)
      modifies this
      ensures Allowed(old(View()), es) && View() == Exec(old(View()), es) && Inv(View())
      ensures forall x | x in sims ::
                && sims[x].submits <= 1 && sims[x].qrCalls <= 1
                && (sims[x].provider == Mobiline ==> sims[x].deliveries <= 1)
      ensures forall x | x in sims && sims[x].owner.Some? ::
                && sims[x].order in orders && !orders[sims[x].order].cancelled
                && orders[sims[x].order].tx in txs && txs[orders[sims[x].order].tx].status == TxSuccess
      ensures forall o | o in orders && orders[o].cancelled ::
                orders[o].status == Failed && orders[o].tx in txs && txs[orders[o].tx].status != TxSuccess
      ensures forall p | p in promos ::
                && promos[p].usedCount == |ConfirmedOf(usages, p)|
                && (promos[p].limit.Some? ==> promos[p].usedCount <= promos[p].limit.value)
      ensures forall t :: t in ledger <==>
                t in usages && usages[t].status == UsageConfirmed && usages[t].credit > 0
      ensures forall t | t in ledger :: ledger[t].amount == usages[t].credit
    {
      ghost var start := View();
      for k := 0 to |es|
        invariant Inv(View()) && Allowed(View(), es[k..])
        invariant Exec(View(), es[k..]) == Exec(start, es)
      {
        assert es[k..][0] == es[k] && es[k..][1..] == es[k + 1..];
        NextKeeps(View(), es[k]);
        Receive(es[k]);
      }
      assert es[|es|..] == [];
      SimTables(View());
      OrderTables(View());
      PromoTables(View());
    }
  }
}
