/** What holds in every run of the protocol: whatever the actors, the bank, the providers and the
    schedule do, starting from empty tables. */
module Safety {
  import opened Tables
  import opened Protocol
  import opened Invariant
  import opened SimSteps
  import opened Machine

  // ---------- calls made during a run ----------

  datatype Call = Submission | QrRequest | Delivery

  predicate Makes(c: Call, actor: Actor, x: nat) {
    match c
    case Submission => Submits(actor, x)
    case QrRequest => RequestsQr(actor, x)
    case Delivery => Delivers(actor, x)
  }

  predicate MakesNow(c: Call, w: World, e: Event, x: nat) {
    e.Move? && e.actor in w.actors && Makes(c, w.actors[e.actor], x)
  }

  /** How often a run makes the call for the SIM `x`, counted on the events. */
  function CallsMade(c: Call, w: World, es: seq<Event>, x: nat): nat
    requires Allowed(w, es)
    decreases |es|
  {
    if es == [] then 0 else One(MakesNow(c, w, es[0], x)) + CallsMade(c, Next(w, es[0]), es[1..], x)
  }

  function Counter(c: Call, w: World, x: nat): nat {
    if x !in w.sims then 0
    else match c
      case Submission => w.sims[x].submits
      case QrRequest => w.sims[x].qrCalls
      case Delivery => w.sims[x].deliveries
  }

  lemma EventRelies(w: World, e: Event)
    requires Inv(w) && Enabled(w, e)
    ensures Inv(Next(w, e)) && SimsRely(w, Next(w, e), MoverOf(w, e)) && TxsRely(w, Next(w, e), MoverOf(w, e))
    ensures OrdersRely(w, Next(w, e), MoverOf(w, e))
  {
    NextSafe(w, e);
    SafeMeans(w, Next(w, e), MoverOf(w, e));
    Relied(w, Next(w, e), MoverOf(w, e));
  }

  // What the mover has written into the row; a new row is PENDING and has nothing yet.
  lemma TxTraced(w: World, e: Event, t: nat)
    requires Inv(w) && Enabled(w, e) && t in Next(w, e).txs
    ensures if t in w.txs then TxWritten(Mover(w, MoverOf(w, e)), t, w.txs[t], Next(w, e).txs[t])
            else Next(w, e).txs[t].status == TxPending && Next(w, e).txs[t].paymentId.None?
                 && Next(w, e).txs[t].order.None?
  {
    EventRelies(w, e);
  }

  // What the mover has written into the row; a new row is CREATED and has nothing yet.
  lemma SimWritten(w: World, e: Event, x: nat)
    requires Inv(w) && Enabled(w, e) && x in Next(w, e).sims
    ensures if x in w.sims then Written(Mover(w, MoverOf(w, e)), x, w.sims[x], Next(w, e).sims[x])
            else Untouched(Next(w, e).sims[x]) && Next(w, e).sims[x].status == Created
    ensures x in w.sims ==> Next(w, e).sims[x].provider == w.sims[x].provider
    ensures x !in w.sims ==> Next(w, e).sims[x].iccid.None? && Next(w, e).sims[x].qrcode.None?
  {
    EventRelies(w, e);
  }

  lemma SimRecorded(w: World, e: Event, x: nat)
    requires Inv(w) && Enabled(w, e) && x in w.sims
    ensures x in Next(w, e).sims && Recorded(Mover(w, MoverOf(w, e)), x, w.sims[x], Next(w, e).sims[x])
  {
    EventRelies(w, e);
  }

  lemma EventFrames(w: World, e: Event)
    requires Inv(w) && Enabled(w, e)
    ensures MovesOnly(w, Next(w, e), MoverOf(w, e)) && UsagesRely(w, Next(w, e), MoverOf(w, e))
  {
    NextSafe(w, e);
    SafeMeans(w, Next(w, e), MoverOf(w, e));
    Relied(w, Next(w, e), MoverOf(w, e));
  }

  lemma OthersWait(w: World, e: Event, a: nat)
    requires Inv(w) && Enabled(w, e) && a in w.actors && !(e.Move? && e.actor == a)
    ensures a in Next(w, e).actors && Next(w, e).actors[a] == w.actors[a]
  {
    EventFrames(w, e);
    NewActor(w);
  }

  lemma MoverMakes(c: Call, w: World, e: Event, x: nat)
    requires Inv(w) && Enabled(w, e)
    ensures MakesNow(c, w, e, x) <==> Makes(c, Mover(w, MoverOf(w, e)), x)
    ensures MakesNow(c, w, e, x) ==> x in w.sims
  {
    NewActor(w);
    if MakesNow(c, w, e, x) {
      AtActor(w, e.actor);
    }
  }

  lemma EventCounts(c: Call, w: World, e: Event, x: nat)
    requires Inv(w) && Enabled(w, e)
    ensures Counter(c, Next(w, e), x) == Counter(c, w, x) + One(MakesNow(c, w, e, x))
  {
    EventRelies(w, e);
    MoverMakes(c, w, e, x);
  }

  lemma {:induction false} CallsAreCounted(c: Call, w: World, es: seq<Event>, x: nat)
    requires Inv(w) && Allowed(w, es)
    ensures Counter(c, w, x) + CallsMade(c, w, es, x) == Counter(c, Exec(w, es), x)
    decreases |es|
  {
    if es != [] {
      EventCounts(c, w, es[0], x);
      NextKeeps(w, es[0]);
      CallsAreCounted(c, Next(w, es[0]), es[1..], x);
    }
  }

  lemma Reached(w: World, es: seq<Event>)
    requires Initial(w) && Allowed(w, es)
    ensures Inv(Exec(w, es))
  {
    InitialInv(w);
    RunKeeps(w, es);
  }

  /** In every run, each SIM is submitted to its provider at most once and asks JoyTel for its QR at most
      once, and a SIM of Mobiline is delivered at most once. */
  lemma EachCallAtMostOnce(w: World, es: seq<Event>, c: Call, x: nat)
    requires Initial(w) && Allowed(w, es)
    ensures CallsMade(c, w, es, x) <= 1
            || (c == Delivery && x in Exec(w, es).sims && Exec(w, es).sims[x].provider in {JoyTel, BillionConnect})
  {
    InitialInv(w);
    CallsAreCounted(c, w, es, x);
    Reached(w, es);
    if x in Exec(w, es).sims {
      AtSim(Exec(w, es), x);
    }
  }

  // The SIM belongs to an order whose transaction is paid, linked both ways, and not cancelled.
  ghost predicate PaidFor(w: World, x: nat) {
    && x in w.sims && w.sims[x].order in w.orders
    && var o := w.orders[w.sims[x].order];
       !o.cancelled && Paid(w, o.tx) && w.txs[o.tx].order == Some(w.sims[x].order)
  }

  lemma OwnedIsPaidFor(w: World, x: nat)
    requires Inv(w) && x in w.sims && w.sims[x].owner.Some?
    ensures PaidFor(w, x)
  {
    AtSim(w, x);
    AtOrder(w, w.sims[x].order);
    AtTx(w, w.orders[w.sims[x].order].tx);
  }

  /** When a run submits a SIM, the transaction of its order is SUCCESS at that moment and the SIM's
      claim CREATED -> PENDING was won by the actor that submits it. */
  lemma SubmittedOnlyWhenPaid(w: World, es: seq<Event>, a: nat, i: Input, x: nat)
    requires Initial(w) && Allowed(w, es) && Enabled(Exec(w, es), Move(a, i))
    requires Submits(Exec(w, es).actors[a], x)
    ensures PaidFor(Exec(w, es), x) && Exec(w, es).sims[x].owner == Some(a)
  {
    Reached(w, es);
    AtActor(Exec(w, es), a);
    OwnedIsPaidFor(Exec(w, es), x);
  }

  // ---------- the status machines of the SIMs ----------

  /** Every event moves a SIM along an edge of its provider's status machine, or not at all. No edge
      leads back to CREATED, and COMPLETED is left only by an unguarded update of BillionConnect. */
  lemma SimsMoveAlongEdges(w: World, es: seq<Event>, e: Event, x: nat)
    requires Initial(w) && Allowed(w, es) && Enabled(Exec(w, es), e) && x in Exec(w, es).sims
    ensures var before, after := Exec(w, es), Next(Exec(w, es), e);
            && x in after.sims
            && StatusEdge(before.sims[x].provider, before.sims[x].status, after.sims[x].status)
            && after.sims[x].provider == before.sims[x].provider && after.sims[x].order == before.sims[x].order
            && (after.sims[x].status == Created ==> before.sims[x].status == Created)
  {
    Reached(w, es);
    EventRelies(Exec(w, es), e);
  }

  /** A JoyTel SIM with a coupon (`sn_pin`) has won REDEEM_COUPON -> NOTIFY_COUPON: the race between
      the proactive query and the callback is decided, and by one of them. */
  lemma CouponMeansClaimed(w: World, es: seq<Event>, x: nat)
    requires Initial(w) && Allowed(w, es) && x in Exec(w, es).sims && Exec(w, es).sims[x].provider == JoyTel
    ensures var s := Exec(w, es).sims[x];
            && (s.snPin.Some? ==> s.status == NotifyCoupon || s.status == Completed)
            && (s.status in {RedeemCoupon, NotifyCoupon, Completed} <==> s.ticket.Some?)
  {
    Reached(w, es);
    AtSim(Exec(w, es), x);
  }

  ghost predicate AboutTo(c: Call, w: World, x: nat) {
    exists a {:trigger w.actors[a]} | a in w.actors :: Makes(c, w.actors[a], x)
  }

  // Who won the right to deliver a Mobiline SIM, or to request the QR of a JoyTel SIM, is about to use it
  // until it has.
  lemma AboutToDeliver(w: World, x: nat)
    requires Inv(w) && x in w.sims && w.sims[x].provider == Mobiline
    ensures AboutTo(Delivery, w, x) <==> w.sims[x].deliverBy.Some? && w.sims[x].deliveries == 0
  {
    AtSim(w, x);
    if AboutTo(Delivery, w, x) {
      var a :| a in w.actors && Makes(Delivery, w.actors[a], x);
      AtActor(w, a);
    }
  }

  lemma AboutToRequestQr(w: World, x: nat)
    requires Inv(w) && x in w.sims
    ensures AboutTo(QrRequest, w, x) <==> w.sims[x].qrBy.Some? && w.sims[x].qrCalls == 0
  {
    AtSim(w, x);
    if AboutTo(QrRequest, w, x) {
      var a :| a in w.actors && Makes(QrRequest, w.actors[a], x);
      AtActor(w, a);
    }
  }

  /** A JoyTel SIM has passed REDEEM_COUPON exactly when its QR has been requested or some actor is
      about to request it; never both. */
  lemma QrRequestedOrAboutTo(w: World, es: seq<Event>, x: nat)
    requires Initial(w) && Allowed(w, es) && x in Exec(w, es).sims && Exec(w, es).sims[x].provider == JoyTel
    ensures var w' := Exec(w, es);
            && (w'.sims[x].status in {NotifyCoupon, Completed}
                <==> CallsMade(QrRequest, w, es, x) == 1 || AboutTo(QrRequest, w', x))
            && !(CallsMade(QrRequest, w, es, x) == 1 && AboutTo(QrRequest, w', x))
  {
    var w' := Exec(w, es);
    InitialInv(w);
    Reached(w, es);
    CallsAreCounted(QrRequest, w, es, x);
    AtSim(w', x);
    AboutToRequestQr(w', x);
  }

  // ---------- Mobiline ----------

  /** A Mobiline SIM is COMPLETED exactly when it has been delivered or the callback that completed it
      is about to deliver it, never both; and then it has an ICCID and a QR that are not blank. */
  lemma DeliveredOrAboutTo(w: World, es: seq<Event>, x: nat)
    requires Initial(w) && Allowed(w, es) && x in Exec(w, es).sims && Exec(w, es).sims[x].provider == Mobiline
    ensures var w' := Exec(w, es);
            && (w'.sims[x].status == Completed
                <==> CallsMade(Delivery, w, es, x) == 1 || AboutTo(Delivery, w', x))
            && !(CallsMade(Delivery, w, es, x) == 1 && AboutTo(Delivery, w', x))
            && (w'.sims[x].status == Completed ==> Issued(w'.sims[x]))
  {
    var w' := Exec(w, es);
    InitialInv(w);
    Reached(w, es);
    CallsAreCounted(Delivery, w, es, x);
    AtSim(w', x);
    AboutToDeliver(w', x);
  }

  lemma FinalForOneEvent(w: World, e: Event, x: nat)
    requires Inv(w) && Enabled(w, e) && x in w.sims && w.sims[x].provider == Mobiline
    requires w.sims[x].status == Completed || w.sims[x].status == Failed
    ensures var w' := Next(w, e);
            x in w'.sims
            && w'.sims[x] == w.sims[x].(submits := w'.sims[x].submits, deliveries := w'.sims[x].deliveries)
  {
    EventRelies(w, e);
  }

  lemma {:induction false} FinalForARun(w: World, es: seq<Event>, x: nat)
    requires Inv(w) && Allowed(w, es) && x in w.sims && w.sims[x].provider == Mobiline
    requires w.sims[x].status == Completed || w.sims[x].status == Failed
    ensures var w' := Exec(w, es);
            x in w'.sims
            && w'.sims[x] == w.sims[x].(submits := w'.sims[x].submits, deliveries := w'.sims[x].deliveries)
    decreases |es|
  {
    if es != [] {
      FinalForOneEvent(w, es[0], x);
      NextKeeps(w, es[0]);
      FinalForARun(Next(w, es[0]), es[1..], x);
    }
  }

  /** COMPLETED and FAILED are final for Mobiline: whatever answers, callbacks, duplicates and
      contradictory callbacks follow, no column of the row changes any more. */
  lemma MobilineIsFinal(w: World, es: seq<Event>, more: seq<Event>, x: nat)
    requires Initial(w) && Allowed(w, es) && Allowed(Exec(w, es), more)
    requires x in Exec(w, es).sims && Exec(w, es).sims[x].provider == Mobiline
    requires Exec(w, es).sims[x].status == Completed || Exec(w, es).sims[x].status == Failed
    ensures var s, last := Exec(w, es).sims[x], Exec(Exec(w, es), more);
            x in last.sims
            && last.sims[x] == s.(submits := last.sims[x].submits, deliveries := last.sims[x].deliveries)
  {
    Reached(w, es);
    FinalForARun(Exec(w, es), more, x);
  }

  // ---------- payments ----------

  // The event is the update PENDING -> SUCCESS of the transaction, and it wins.
  predicate PaysNow(w: World, e: Event, t: nat) {
    e.Move? && e.actor in w.actors && Pays(w.actors[e.actor], t) && Wins(w, t)
  }

  /** How often a run turns the transaction into SUCCESS, counted on the events. */
  function TimesPaid(w: World, es: seq<Event>, t: nat): nat
    requires Allowed(w, es)
    decreases |es|
  {
    if es == [] then 0 else One(PaysNow(w, es[0], t)) + TimesPaid(Next(w, es[0]), es[1..], t)
  }

  // The transaction is paid and processConfirmedPayment started for it.
  ghost predicate Launched(w: World, w': World, t: nat) {
    && Paid(w', t) && w.nextActor !in w.actors && w.nextActor in w'.actors
    && w'.actors[w.nextActor] == ReadUsage(t)
  }

  lemma HookLaunches(w: World, a: nat, t: nat, payer: Option<nat>, p: nat)
    requires Wins(w, t) && payer.Some? && w.nextActor !in w.actors && a != w.nextActor
    ensures Launched(w, StepConfirmTx(w, a, t, payer, p), t)
  {
  }

  lemma PollLaunches(w: World, a: nat, pick: Pick, picks: seq<Pick>, tick: nat)
    requires Wins(w, pick.tx) && pick.payer.Some? && w.nextActor !in w.actors && a != w.nextActor
    ensures Launched(w, StepPollConfirm(w, a, pick, picks, tick), pick.tx)
  {
  }

  /** The winning update pays the transaction and starts processConfirmedPayment for it. */
  lemma WinnerPaysAndLaunches(w: World, a: nat, i: Input, t: nat)
    requires Inv(w) && a in w.actors && Pays(w.actors[a], t) && Wins(w, t)
    ensures Launched(w, Step(w, a, i), t)
  {
    AtActor(w, a);
    AtTx(w, t);
    NewActor(w);
    var me := w.actors[a];
    if me.ConfirmTx? {
      HookLaunches(w, a, t, me.payer, me.paymentId);
    } else {
      PollLaunches(w, a, me.pick, me.picks, me.tick);
    }
  }

  lemma EventPays(w: World, e: Event, t: nat)
    requires Inv(w) && Enabled(w, e)
    ensures One(Paid(Next(w, e), t)) == One(Paid(w, t)) + One(PaysNow(w, e, t))
  {
    if PaysNow(w, e, t) {
      WinnerPaysAndLaunches(w, e.actor, e.input, t);
    } else {
      PaidOnlyByWin(w, e, t);
    }
  }

  // An update that loses changes no transaction.
  lemma PaidOnlyByWin(w: World, e: Event, t: nat)
    requires Inv(w) && Enabled(w, e) && !PaysNow(w, e, t)
    ensures Paid(Next(w, e), t) == Paid(w, t)
  {
    EventRelies(w, e);
    NewActor(w);
  }

  lemma {:induction false} PaymentsAreCounted(w: World, es: seq<Event>, t: nat)
    requires Inv(w) && Allowed(w, es)
    ensures One(Paid(w, t)) + TimesPaid(w, es, t) == One(Paid(Exec(w, es), t))
    decreases |es|
  {
    if es != [] {
      EventPays(w, es[0], t);
      NextKeeps(w, es[0]);
      PaymentsAreCounted(Next(w, es[0]), es[1..], t);
    }
  }

  // ---------- payments through the webhook ----------

  // The event is a webhook's update PENDING -> SUCCESS, and it wins.
  predicate HookPaysNow(w: World, e: Event) {
    e.Move? && e.actor in w.actors && w.actors[e.actor].ConfirmTx? && Wins(w, w.actors[e.actor].tx)
  }

  /** How many webhooks win their update in a run, counted on the events. */
  function TimesHookPays(w: World, es: seq<Event>): nat
    requires Allowed(w, es)
    decreases |es|
  {
    if es == [] then 0 else One(HookPaysNow(w, es[0])) + TimesHookPays(Next(w, es[0]), es[1..])
  }

  lemma RowsWinNothing(w: World, a: nat, actor: Actor, i: Input)
    requires actor.MakeTx? || actor.MakeOrder? || actor.LinkOrder? || actor.MakeUsage?
    ensures StepCheckout(w, a, actor, i).hookWins == w.hookWins
  {
  }

  lemma CheckoutWinsNothing(w: World, a: nat, actor: Actor, i: Input)
    requires IsCheckout(actor)
    ensures StepCheckout(w, a, actor, i).hookWins == w.hookWins
  {
    if actor.MakeTx? || actor.MakeOrder? || actor.LinkOrder? || actor.MakeUsage? {
      RowsWinNothing(w, a, actor, i);
    }
  }

  lemma HookWinsOne(w: World, a: nat, t: nat, payer: Option<nat>, p: nat)
    ensures StepConfirmTx(w, a, t, payer, p).hookWins == w.hookWins + One(Wins(w, t))
  {
  }

  lemma PollWinsNothing(w: World, a: nat, pick: Pick, picks: seq<Pick>, tick: nat)
    ensures StepPollConfirm(w, a, pick, picks, tick).hookWins == w.hookWins
  {
  }

  lemma BankWins(w: World, a: nat, actor: Actor, i: Input)
    requires IsBank(actor)
    ensures StepBank(w, a, actor, i).hookWins == w.hookWins + One(actor.ConfirmTx? && Wins(w, actor.tx))
  {
    if actor.ConfirmTx? {
      HookWinsOne(w, a, actor.tx, actor.payer, actor.paymentId);
    } else if actor.PollConfirm? {
      PollWinsNothing(w, a, actor.pick, actor.picks, actor.tick);
    }
  }

  lemma MobClaimWinsNothing(w: World, a: nat, x: nat, r: Run, i: Input)
    requires x in w.sims
    ensures StepMobClaim(w, a, x, r, i).hookWins == w.hookWins
  {
  }

  lemma WonClaimWinsNothing(w: World, a: nat, x: nat, r: Run, i: Input)
    requires Claimable(w, x) && w.sims[x].provider != Mobiline
    ensures StepClaim(w, a, x, r, i).hookWins == w.hookWins
  {
  }

  lemma LostClaimWinsNothing(w: World, a: nat, x: nat, r: Run, i: Input)
    requires !Claimable(w, x) && (x in w.sims ==> w.sims[x].provider != Mobiline)
    ensures StepClaim(w, a, x, r, i).hookWins == w.hookWins
  {
    assert StepClaim(w, a, x, r, i) == Return(w, a, r, true);
  }

  lemma ClaimWinsNothing(w: World, a: nat, x: nat, r: Run, i: Input)
    ensures StepClaim(w, a, x, r, i).hookWins == w.hookWins
  {
    if x in w.sims && w.sims[x].provider == Mobiline {
      assert StepClaim(w, a, x, r, i) == StepMobClaim(w, a, x, r, i);
      MobClaimWinsNothing(w, a, x, r, i);
    } else if Claimable(w, x) {
      WonClaimWinsNothing(w, a, x, r, i);
    } else {
      LostClaimWinsNothing(w, a, x, r, i);
    }
  }

  lemma ProvisionWinsNothing(w: World, a: nat, r: Run, i: Input)
    ensures StepProvision(w, a, r, i).hookWins == w.hookWins
  {
    if r.todo != [] {
      ClaimWinsNothing(w, a, r.todo[0], r.(todo := r.todo[1..]), i);
    }
  }

  lemma CreateWinsNothing(w: World, a: nat, actor: Actor, i: Input)
    requires IsCreate(actor)
    ensures StepCreate(w, a, actor, i).hookWins == w.hookWins
  {
    if actor.Provision? {
      ProvisionWinsNothing(w, a, actor.run, i);
    }
  }

  lemma IssueWinsNothing(w: World, a: nat, actor: Actor, i: Input)
    ensures IsJoyTel(actor) ==> StepJoyTel(w, a, actor, i).hookWins == w.hookWins
    ensures IsBillion(actor) ==> StepBillion(w, a, actor, i).hookWins == w.hookWins
    ensures IsMobiline(actor) ==> StepMobiline(w, a, actor, i).hookWins == w.hookWins
  {
  }

  lemma CallbackWinsNothing(w: World, a: nat, actor: Actor)
    ensures IsCouponCallback(actor) ==> StepCouponCallback(w, a, actor).hookWins == w.hookWins
    ensures IsEsimCallback(actor) ==> StepEsimCallback(w, a, actor).hookWins == w.hookWins
  {
    if actor.MobCallback? {
      MobCallbackWinsNothing(w, a, actor.sim, actor.success, actor.iccid, actor.qrcode);
    }
  }

  lemma MobCallbackWinsNothing(
    w: World, a: nat, x: nat, success: bool, iccid: Option<string>, qrcode: Option<string>)
    ensures StepMobCallback(w, a, x, success, iccid, qrcode).hookWins == w.hookWins
  {
  }

  lemma EventHookWins(w: World, e: Event)
    requires Enabled(w, e)
    ensures Next(w, e).hookWins == w.hookWins + One(HookPaysNow(w, e))
  {
    if e.Move? {
      var actor := w.actors[e.actor];
      if IsCheckout(actor) {
        CheckoutWinsNothing(w, e.actor, actor, e.input);
      } else if IsBank(actor) {
        BankWins(w, e.actor, actor, e.input);
      } else if IsCreate(actor) {
        CreateWinsNothing(w, e.actor, actor, e.input);
      } else {
        IssueWinsNothing(w, e.actor, actor, e.input);
        CallbackWinsNothing(w, e.actor, actor);
      }
    }
  }

  lemma {:induction false} HookWinsAreCounted(w: World, es: seq<Event>)
    requires Allowed(w, es)
    ensures w.hookWins + TimesHookPays(w, es) == Exec(w, es).hookWins
    decreases |es|
  {
    if es != [] {
      EventHookWins(w, es[0]);
      HookWinsAreCounted(Next(w, es[0]), es[1..]);
    }
  }

  // ---------- launches of processConfirmedPayment ----------

  predicate Stands(w: World, a: nat, actor: Actor) {
    a in w.actors && w.actors[a] == actor
  }

  /** The actors that stand at the start of processConfirmedPayment after the event but not before. */
  function LaunchedNow(w: World, e: Event, t: nat): set<nat>
    requires Enabled(w, e)
  {
    set a | a in Next(w, e).actors && Stands(Next(w, e), a, ReadUsage(t)) && !Stands(w, a, ReadUsage(t))
  }

  /** How often a run launches processConfirmedPayment for the transaction, counted on the events. */
  function TimesLaunched(w: World, es: seq<Event>, t: nat): nat
    requires Allowed(w, es)
    decreases |es|
  {
    if es == [] then 0 else |LaunchedNow(w, es[0], t)| + TimesLaunched(Next(w, es[0]), es[1..], t)
  }

  // An actor that starts to confirm a transaction is new, and the row of the transaction names it.
  lemma LaunchedIsNew(w: World, e: Event, t: nat, a: nat)
    requires Inv(w) && Enabled(w, e) && a in LaunchedNow(w, e, t)
    ensures a !in w.actors && w.nextActor <= a && Paid(Next(w, e), t) && Next(w, e).txs[t].launched == Some(a)
  {
    EventFrames(w, e);
    NextKeeps(w, e);
    AtActor(Next(w, e), a);
  }

  lemma LaunchedByWinner(w: World, e: Event, t: nat, a: nat)
    requires Inv(w) && Enabled(w, e) && a in LaunchedNow(w, e, t)
    ensures PaysNow(w, e, t)
  {
    LaunchedIsNew(w, e, t, a);
    if !PaysNow(w, e, t) {
      PaidOnlyByWin(w, e, t);
      AtTx(w, t);
      EventRelies(w, e);
    }
  }

  /** An event launches processConfirmedPayment for a transaction exactly when it pays it, and then once. */
  lemma LaunchesExactlyWithPayment(w: World, e: Event, t: nat)
    requires Inv(w) && Enabled(w, e)
    ensures |LaunchedNow(w, e, t)| == One(PaysNow(w, e, t))
  {
    if PaysNow(w, e, t) {
      WinnerPaysAndLaunches(w, e.actor, e.input, t);
      forall a | a in LaunchedNow(w, e, t) ensures a == w.nextActor {
        LaunchedIsNew(w, e, t, a);
        LaunchedIsNew(w, e, t, w.nextActor);
      }
      assert LaunchedNow(w, e, t) == {w.nextActor};
    } else {
      forall a ensures a !in LaunchedNow(w, e, t) {
        if a in LaunchedNow(w, e, t) {
          LaunchedByWinner(w, e, t, a);
        }
      }
      assert LaunchedNow(w, e, t) == {};
    }
  }

  lemma {:induction false} LaunchesAreCounted(w: World, es: seq<Event>, t: nat)
    requires Inv(w) && Allowed(w, es)
    ensures TimesLaunched(w, es, t) == TimesPaid(w, es, t)
    decreases |es|
  {
    if es != [] {
      LaunchesExactlyWithPayment(w, es[0], t);
      NextKeeps(w, es[0]);
      LaunchesAreCounted(Next(w, es[0]), es[1..], t);
    }
  }

  /** A transaction is turned into SUCCESS, and processConfirmedPayment launched for it, once if it
      ends up SUCCESS and never otherwise, whichever of webhook and poll get there; and the wins of
      the webhook plus the `confirmed` counts of all polls are the number of SUCCESS transactions. */
  lemma PaidAndLaunchedOnce(w: World, es: seq<Event>, t: nat)
    requires Initial(w) && Allowed(w, es)
    ensures var last := Exec(w, es);
            && TimesPaid(w, es, t) == One(Paid(last, t))
            && TimesLaunched(w, es, t) == One(Paid(last, t))
            && TimesHookPays(w, es) + Sum(last.polls) == |Successes(last)|
  {
    InitialInv(w);
    PaymentsAreCounted(w, es, t);
    LaunchesAreCounted(w, es, t);
    HookWinsAreCounted(w, es);
    Reached(w, es);
    assert Satisfies(Exec(w, es), Payments);
  }

  /** A transaction leaves PENDING at most once: no event leads back to PENDING, SUCCESS is final, and
      after another end only a failed checkout still writes ERROR. */
  lemma TransactionsMoveAlongEdges(w: World, es: seq<Event>, e: Event, t: nat)
    requires Initial(w) && Allowed(w, es) && Enabled(Exec(w, es), e) && t in Exec(w, es).txs
    ensures var before, after := Exec(w, es), Next(Exec(w, es), e);
            && t in after.txs && TxEdge(before.txs[t].status, after.txs[t].status)
            && (after.txs[t].status == TxPending ==> before.txs[t].status == TxPending)
            && (before.txs[t].status == TxSuccess ==> after.txs[t].status == TxSuccess)
  {
    Reached(w, es);
    EventRelies(Exec(w, es), e);
  }

  // ---------- promo accounting ----------

  /** As long as nobody edits the promo codes: `used_count` is the number of CONFIRMED usages and
      within the limit, the ledger has one row for each CONFIRMED usage with a positive credit and no
      other, for that credit and the promo's agent, and only a paid transaction has its usage
      CONFIRMED. A cancellation between the read and the transaction of a confirmation does not
      disturb this. */
  lemma PromoAccounting(w: World, es: seq<Event>)
    requires Initial(w) && Allowed(w, es)
    ensures var last := Exec(w, es);
            && (forall p | p in last.promos ::
                  && last.promos[p].usedCount == |ConfirmedOf(last.usages, p)|
                  && (last.promos[p].limit.Some? ==> last.promos[p].usedCount <= last.promos[p].limit.value))
            && (forall t :: t in last.ledger <==> Earns(last, t))
            && (forall t | t in last.ledger ::
                  && last.usages[t].promo in last.promos
                  && last.promos[last.usages[t].promo].agent == Some(last.ledger[t].agent)
                  && last.ledger[t].amount == last.usages[t].credit)
            && (forall t | t in last.usages && last.usages[t].status == UsageConfirmed :: Paid(last, t))
  {
    Reached(w, es);
    var last := Exec(w, es);
    assert Satisfies(last, Promos);
    forall p | p in last.promos ensures PromoOk(last, p) {
    }
    forall t | t in last.usages ensures UsageOk(last, t) {
    }
  }

  // ---------- cancelled orders ----------

  // The stale-order job is at order `o` and cancels it in this event.
  predicate CancelsNow(w: World, e: Event, o: nat) {
    e.Move? && e.actor in w.actors && Cancelling(w.actors[e.actor], o) && Cancels(w, o)
  }

  // The status of an order is written by the end of a run of create, or by its cancellation.
  lemma OrderWritten(w: World, e: Event, o: nat)
    requires Inv(w) && Enabled(w, e) && o in Next(w, e).orders
    ensures o in w.orders ==>
              && Next(w, e).orders[o].tx == w.orders[o].tx
              && (Next(w, e).orders[o].status == w.orders[o].status
                  || Concludes(Mover(w, MoverOf(w, e)), o) || CancelsNow(w, e, o))
    ensures o !in w.orders ==> Next(w, e).orders[o].status == Created
  {
    EventRelies(w, e);
    NewActor(w);
  }

  // No money for the order, and no provider knows one of its SIMs.
  ghost predicate Dead(w: World, o: nat) {
    && (forall t | t in w.txs && w.txs[t].order == Some(o) :: !PaidStatus(w.txs[t].status))
    && (forall x | x in w.sims && w.sims[x].order == o ::
          w.sims[x].status == Failed && w.sims[x].owner.None? && w.sims[x].submits == 0)
  }

  lemma CancelledIsDead(w: World, o: nat)
    requires Inv(w) && o in w.orders && w.orders[o].cancelled
    ensures Dead(w, o) && w.orders[o].status == Failed
  {
    AtOrder(w, o);
    forall t | t in w.txs && w.txs[t].order == Some(o) ensures !PaidStatus(w.txs[t].status) {
      AtTx(w, t);
    }
    forall x | x in w.sims && w.sims[x].order == o
      ensures w.sims[x].status == Failed && w.sims[x].owner.None? && w.sims[x].submits == 0
    {
      AtSim(w, x);
    }
  }

  lemma {:induction false} CancelledStays(w: World, es: seq<Event>, o: nat)
    requires Inv(w) && Allowed(w, es) && o in w.orders && w.orders[o].cancelled
    ensures o in Exec(w, es).orders && Exec(w, es).orders[o].cancelled
    decreases |es|
  {
    if es != [] {
      EventRelies(w, es[0]);
      CancelledStays(Next(w, es[0]), es[1..], o);
    }
  }

  /** Once the stale-order job has cancelled an order, whatever follows: the order stays FAILED, no
      transaction of it is ever SUCCESS, and no SIM of it is ever claimed or submitted. */
  lemma CancelledForGood(w: World, es: seq<Event>, e: Event, more: seq<Event>, o: nat)
    requires Initial(w) && Allowed(w, es) && Enabled(Exec(w, es), e) && CancelsNow(Exec(w, es), e, o)
    requires Allowed(Next(Exec(w, es), e), more)
    ensures var last := Exec(Next(Exec(w, es), e), more);
            o in last.orders && last.orders[o].status == Failed && Dead(last, o)
  {
    Reached(w, es);
    NextKeeps(Exec(w, es), e);
    CancelledStays(Next(Exec(w, es), e), more, o);
    RunKeeps(Next(Exec(w, es), e), more);
    CancelledIsDead(Exec(Next(Exec(w, es), e), more), o);
  }

  /** A paid order is never cancelled: the job does not cancel it now, and has not cancelled it. */
  lemma PaidIsNotCancelled(w: World, es: seq<Event>, e: Event, t: nat)
    requires Initial(w) && Allowed(w, es) && Paid(Exec(w, es), t) && Enabled(Exec(w, es), e)
    ensures var last := Exec(w, es);
            && last.txs[t].order.Some? && last.txs[t].order.value in last.orders
            && !last.orders[last.txs[t].order.value].cancelled && !CancelsNow(last, e, last.txs[t].order.value)
  {
    Reached(w, es);
    AtTx(Exec(w, es), t);
    AtOrder(Exec(w, es), Exec(w, es).txs[t].order.value);
  }

  /** No event leads an order back to CREATED. */
  lemma OrdersLeaveCreatedForGood(w: World, es: seq<Event>, e: Event, o: nat)
    requires Initial(w) && Allowed(w, es) && Enabled(Exec(w, es), e) && o in Exec(w, es).orders
    ensures var after := Next(Exec(w, es), e);
            o in after.orders && (after.orders[o].status == Created ==> Exec(w, es).orders[o].status == Created)
  {
    Reached(w, es);
    EventRelies(Exec(w, es), e);
  }

  lemma CompletedIsDrained(w: World, o: nat)
    requires Inv(w) && o in w.orders
    ensures w.orders[o].status == Completed ==>
              Paid(w, w.orders[o].tx) && forall x | x in w.sims && w.sims[x].order == o :: w.sims[x].status != Created
  {
    AtOrder(w, o);
    assert Satisfies(w, Sims);
    assert w.orders[o].status == Completed ==> DrainedOk(w, w.orders[o].tx);
  }
}
