/** The payment, order and eSIM protocol as a state machine.

    An actor is one running call of the backend; its constructor is its program counter, naming the
    database or provider call it makes next. One Prisma call is one step, a `$transaction` callback
    is one step, and any other actor may move between two steps. What a call into another system
    answers is an `Input`; what starts an actor is an `Event`. Actors that never move again model
    crashes. */
module Protocol {
  import opened Tables
  import opened Correlation

  // A promo code accepted by validateCodeForPayment.
  datatype Offer = Offer(promo: nat, discount: nat, credit: nat)

  // A transaction selected by the polling job.
  datatype Pick = Pick(tx: nat, payer: Option<nat>, paymentId: nat)

  // An order selected by the stale-order job, with its transactions.
  datatype StaleOrder = StaleOrder(order: nat, txs: seq<nat>)

  // A run of OrderService.create: SIMs still to process, whether one failed, the transactions whose
  // run comes next, and all transactions this actor was started for.
  datatype Run = Run(tx: nat, order: nat, todo: seq<nat>, failed: bool, rest: seq<nat>, batch: set<nat>)

  datatype Actor =
    | Finished(batch: set<nat>)
    // PaymentService.preparePayment
    | MakeTx(user: nat, units: seq<Provider>, offer: Option<Offer>)
    | MakeOrder(tx: nat, user: nat, units: seq<Provider>, offer: Option<Offer>)
    | LinkOrder(tx: nat, order: nat, user: nat, units: seq<Provider>, offer: Option<Offer>)
    | MakeUsage(tx: nat, order: nat, user: nat, units: seq<Provider>, offer: Option<Offer>)
    | MakeSims(tx: nat, order: nat, units: seq<Provider>)
    | InitPayment(tx: nat)
    | SavePaymentId(tx: nat, paymentId: nat)
    | MarkError(tx: nat)
    | DropUsage(tx: nat)
    // PaymentService.acceptTransactionStatus and checkPendingPayments
    | RefuseTx(tx: nat, paymentId: nat)
    | ConfirmTx(tx: nat, payer: Option<nat>, paymentId: nat)
    | Poll(picks: seq<Pick>, tick: nat)
    | PollConfirm(pick: Pick, picks: seq<Pick>, tick: nat)
    // PaymentService.processConfirmedPayment
    | ReadUsage(tx: nat)
    | ApplyUsage(tx: nat, promo: nat, limit: Option<nat>, agent: Option<nat>, credit: nat)
    // OrderService.create
    | ReadOrder(tx: nat, rest: seq<nat>, batch: set<nat>)
    | Provision(run: Run)
    // CreateSimService
    | JoySubmit(sim: nat, run: Run)
    | JoyAccept(sim: nat, ticket: Ticket, run: Run)
    | JoyQuery(sim: nat, run: Run)
    | JoyClaim(sim: nat, pin: Option<string>, run: Run)
    | JoyQr(sim: nat, run: Run)
    | JoyFail(sim: nat, run: Run)
    | BcSubmit(sim: nat, run: Run)
    | BcAccept(sim: nat, run: Run)
    | BcFail(sim: nat, run: Run)
    // MobilineActivationService.submit
    | MobSubmit(sim: nat, run: Run)
    | MobAnswer(sim: nat, accepted: bool, run: Run)
    | MobCheck(sim: nat, run: Run)
    // JobsService.cancelStaleOrders
    | Stale(list: seq<StaleOrder>)
    | StaleUsages(txs: seq<nat>, list: seq<StaleOrder>)
    // provider callbacks
    | JoyPinCallback(sim: nat, pin: Option<string>)
    | JoyPinQr(sim: nat)
    | JoyQrCallback(sim: nat, iccid: Option<string>, qrcode: Option<string>)
    | BcCallback(sim: nat, iccid: Option<string>, qrcode: Option<string>)
    | MobCallback(sim: nat, success: bool, iccid: Option<string>, qrcode: Option<string>)
    | MobDeliver(sim: nat)
    | EsimDeliver(sim: nat)

  datatype Input =
    | Go
    | InitAccepted(paymentId: Option<nat>)
    | BankSaysConfirmed
    | DbError
    | OrderRow(order: nat, todo: seq<nat>)
    | NoOrder
    | JoyAccepted(ticket: Ticket)
    | PinReady(pin: Option<string>)
    | BcAccepted
    | Configured(stamp: string)
    | MobReply(accepted: bool)

  // The body of a Mobiline callback: ret is "0", and the eSIM data when there is any.
  datatype MobBody = MobBody(success: bool, esim: bool, cid: Option<string>, qrcode: Option<string>)

  datatype Event =
    | Move(actor: nat, input: Input)
    | Checkout(user: nat, units: seq<Provider>, offer: Option<Offer>)
    | BankRefuses(tx: nat, paymentId: nat)
    | BankConfirms(tx: nat, paymentId: nat)
    | PollTick(picks: seq<Pick>)
    | RecoveryTick(batch: seq<nat>)
    | StaleTick(list: seq<StaleOrder>)
    | JoyPinReady(sim: nat, ticket: Ticket, pin: Option<string>)
    | JoyQrReady(sim: nat, coupon: string, iccid: Option<string>, qrcode: Option<string>)
    | BcDone(sim: nat, iccid: Option<string>, qrcode: Option<string>)
    | MobDone(sim: nat, channelId: string, body: MobBody)

  // `open` are the transactions whose Init the bank accepted; `hookWins` counts the webhooks that
  // won the confirming update, `polls` holds the variable `confirmed` of every poll so far, and
  // `drained` the transactions for which a run of create has ended.
  datatype World = World(
    group: string,
    txs: map<nat, Tx>, orders: map<nat, Order>, sims: map<nat, Sim>,
    usages: map<nat, Usage>, promos: map<nat, Promo>, ledger: map<nat, Entry>,
    actors: map<nat, Actor>,
    nextTx: nat, nextOrder: nat, nextSim: nat, nextActor: nat,
    open: set<nat>, hookWins: nat, polls: seq<nat>, drained: set<nat>)

  const BATCH := 20

  // ---------- helpers ----------

  function Become(w: World, a: nat, next: Actor): World {
    w.(actors := w.actors[a := next])
  }

  function Spawn(w: World, next: Actor): World {
    w.(actors := w.actors[w.nextActor := next], nextActor := w.nextActor + 1)
  }

  function SetSim(w: World, x: nat, s: Sim): World {
    w.(sims := w.sims[x := s])
  }

  function SetTx(w: World, t: nat, row: Tx): World {
    w.(txs := w.txs[t := row])
  }

  // The SIM of the run is done with; the loop of create goes on.
  function Return(w: World, a: nat, r: Run, ok: bool): World {
    Become(w, a, Provision(r.(failed := r.failed || !ok)))
  }

  // A run of create has ended; the recovery job goes on with its next transaction.
  function NextRun(rest: seq<nat>, batch: set<nat>): Actor {
    if rest == [] then Finished(batch) else ReadOrder(rest[0], rest[1..], batch)
  }

  function EndRun(w: World, a: nat, t: nat, rest: seq<nat>, batch: set<nat>): World {
    Become(w.(drained := w.drained + {t}), a, NextRun(rest, batch))
  }

  // ---------- preparePayment (src/modules/payment/payment.service.ts) ----------

  function StepMakeTx(w: World, a: nat, user: nat, units: seq<Provider>, offer: Option<Offer>): World {
    var row := Tx(TxPending, Some(user), None, None, a, None);
    Become(SetTx(w, w.nextTx, row).(nextTx := w.nextTx + 1), a, MakeOrder(w.nextTx, user, units, offer))
  }

  function StepMakeOrder(w: World, a: nat, t: nat, user: nat, units: seq<Provider>, offer: Option<Offer>): World {
    var o := w.nextOrder;
    Become(
      w.(orders := w.orders[o := Order(Created, t, false, false)], nextOrder := o + 1),
      a, LinkOrder(t, o, user, units, offer))
  }

  function StepLinkOrder(
    w: World, a: nat, t: nat, o: nat, user: nat, units: seq<Provider>, offer: Option<Offer>): World
  {
    var w' := if t in w.txs then SetTx(w, t, w.txs[t].(order := Some(o))) else w;
    Become(w', a, MakeUsage(t, o, user, units, offer))
  }

  function StepMakeUsage(
    w: World, a: nat, t: nat, o: nat, user: nat, units: seq<Provider>, offer: Option<Offer>): World
  {
    var w' := if offer.None? then w else
      var u := Usage(UsagePending, offer.value.promo, user, o, offer.value.discount, offer.value.credit);
      w.(usages := w.usages[t := u]);
    Become(w', a, MakeSims(t, o, units))
  }

  function NewSim(provider: Provider, o: nat): Sim {
    Sim(Created, provider, o, None, None, None, None, None, None, 0, None, 0, None, 0)
  }

  function StepMakeSims(w: World, a: nat, t: nat, o: nat, units: seq<Provider>): World {
    if units != [] then
      Become(
        SetSim(w, w.nextSim, NewSim(units[0], o)).(nextSim := w.nextSim + 1),
        a, MakeSims(t, o, units[1..]))
    else
      var w' := if o in w.orders then w.(orders := w.orders[o := w.orders[o].(prepared := true)]) else w;
      Become(w', a, InitPayment(t))
  }

  function StepInitPayment(w: World, a: nat, t: nat, i: Input): World {
    match i
    case InitAccepted(Some(p)) => Become(w.(open := w.open + {t}), a, SavePaymentId(t, p))
    case InitAccepted(None) => Become(w.(open := w.open + {t}), a, Finished({}))
    case _ => Become(w, a, MarkError(t))
  }

  function StepSavePaymentId(w: World, a: nat, t: nat, p: nat): World {
    var w' := if t in w.txs then SetTx(w, t, w.txs[t].(paymentId := Some(p))) else w;
    Become(w', a, Finished({}))
  }

  function StepMarkError(w: World, a: nat, t: nat): World {
    var w' := if t in w.txs then SetTx(w, t, w.txs[t].(status := TxError)) else w;
    Become(w', a, DropUsage(t))
  }

  // cancelUsageByTransaction
  function CancelUsage(w: World, t: nat): World {
    if t in w.usages && w.usages[t].status == UsagePending then
      w.(usages := w.usages[t := w.usages[t].(status := UsageCanceled)])
    else w
  }

  // ---------- bank answers ----------

  function StepRefuseTx(w: World, a: nat, t: nat, p: nat): World {
    var w' := if t in w.txs && w.txs[t].status == TxPending
      then SetTx(w, t, w.txs[t].(status := TxFailed, paymentId := Some(p))) else w;
    Become(w', a, DropUsage(t))
  }

  predicate Wins(w: World, t: nat) {
    t in w.txs && w.txs[t].status == TxPending
  }

  // The guarded update of confirmTransaction and, when it wins, the launch of processConfirmedPayment.
  function Confirm(w: World, t: nat, user: Option<nat>, p: nat): World {
    if !Wins(w, t) then w
    else if user.None? then SetTx(w, t, w.txs[t].(status := TxSuccess, paymentId := Some(p)))
    else
      var row := w.txs[t].(status := TxSuccess, paymentId := Some(p),
                           launched := Some(w.nextActor));
      Spawn(SetTx(w, t, row), ReadUsage(t))
  }

  function StepConfirmTx(w: World, a: nat, t: nat, user: Option<nat>, p: nat): World {
    var w' := Confirm(w, t, user, p);
    Become(w'.(hookWins := w.hookWins + if Wins(w, t) then 1 else 0), a, Finished({}))
  }

  function StepPoll(w: World, a: nat, picks: seq<Pick>, tick: nat, i: Input): World {
    if picks == [] then Become(w, a, Finished({}))
    else if i.BankSaysConfirmed? then Become(w, a, PollConfirm(picks[0], picks[1..], tick))
    else Become(w, a, Poll(picks[1..], tick))
  }

  function StepPollConfirm(w: World, a: nat, pick: Pick, picks: seq<Pick>, tick: nat): World {
    var w' := Confirm(w, pick.tx, pick.payer, pick.paymentId);
    var polls := if Wins(w, pick.tx) && tick < |w.polls| then w.polls[tick := w.polls[tick] + 1] else w.polls;
    Become(w'.(polls := polls), a, Poll(picks, tick))
  }

  // ---------- promo confirmation (src/modules/promocode/promocode.service.ts) ----------

  function StepReadUsage(w: World, a: nat, t: nat): World {
    if t in w.usages && w.usages[t].status == UsagePending && w.usages[t].promo in w.promos then
      var u := w.usages[t];
      var p := w.promos[u.promo];
      Become(w, a, ApplyUsage(t, u.promo, p.limit, p.agent, u.credit))
    else
      Become(w, a, ReadOrder(t, [], {t}))
  }

  // The `$transaction` of confirmUsageByTransaction, working on the row read before.
  function ConfirmUsage(w: World, t: nat, p: nat, limit: Option<nat>, agent: Option<nat>, credit: nat): World {
    if t !in w.usages then w
    else if p in w.promos && w.promos[p].active && (limit.None? || w.promos[p].usedCount < limit.value) then
      if agent.Some? && credit > 0 && t in w.ledger then w // the unique ledger key rolls it all back
      else w.(
        promos := w.promos[p := w.promos[p].(usedCount := w.promos[p].usedCount + 1)],
        usages := w.usages[t := w.usages[t].(status := UsageConfirmed)],
        ledger := if agent.Some? && credit > 0 then w.ledger[t := Entry(agent.value, credit)] else w.ledger)
    else w.(usages := w.usages[t := w.usages[t].(status := UsageCanceled)])
  }

  function StepApplyUsage(
    w: World, a: nat, t: nat, p: nat, limit: Option<nat>, agent: Option<nat>, credit: nat, i: Input): World
  {
    var w' := if i.DbError? then w else ConfirmUsage(w, t, p, limit, agent, credit);
    Become(w', a, ReadOrder(t, [], {t}))
  }

  // ---------- create (src/modules/order/order.service.ts) ----------

  function StepReadOrder(w: World, a: nat, t: nat, rest: seq<nat>, batch: set<nat>, i: Input): World {
    match i
    case OrderRow(o, todo) =>
      if todo == [] then EndRun(w, a, t, rest, batch)
      else Become(w, a, Provision(Run(t, o, todo, false, rest, batch)))
    case _ => Become(w, a, NextRun(rest, batch)) // "Order not found" is thrown, logged, and the job goes on
  }

  predicate Claimable(w: World, x: nat) {
    x in w.sims && w.sims[x].status == Created
  }

  function Claim(w: World, a: nat, x: nat): World
    requires x in w.sims
  {
    SetSim(w, x, w.sims[x].(status := Pending, owner := Some(a)))
  }

  // The end of the loop: the order gets its status.
  function StepConclude(w: World, a: nat, r: Run): World {
    var status := if r.failed then Failed else Completed;
    var w' := if r.order in w.orders
      then w.(orders := w.orders[r.order := w.orders[r.order].(status := status)]) else w;
    EndRun(w', a, r.tx, r.rest, r.batch)
  }

  // MobilineActivationService.submit up to the claim; buildActivation may throw.
  function StepMobClaim(w: World, a: nat, x: nat, r: Run, i: Input): World
    requires x in w.sims
  {
    if i.Configured? && |i.stamp| == STAMP_WIDTH then
      if Claimable(w, x) then
        var id := ChannelOrderId(w.group, i.stamp, x);
        var s := w.sims[x].(status := Pending, channelId := Some(id), owner := Some(a));
        Become(SetSim(w, x, s), a, MobSubmit(x, r))
      else Return(w, a, r, true)
    else
      var w' := if Claimable(w, x) then SetSim(w, x, w.sims[x].(status := Failed)) else w;
      Return(w', a, r, false)
  }

  function StepClaim(w: World, a: nat, x: nat, r: Run, i: Input): World {
    if x !in w.sims then Return(w, a, r, true)
    else match w.sims[x].provider
      case JoyTel =>
        if Claimable(w, x) then Become(Claim(w, a, x), a, JoySubmit(x, r)) else Return(w, a, r, true)
      case BillionConnect =>
        if Claimable(w, x) then Become(Claim(w, a, x), a, BcSubmit(x, r)) else Return(w, a, r, true)
      case Mobiline => StepMobClaim(w, a, x, r, i)
      case OtherProvider => Return(w, a, r, true)
  }

  function StepProvision(w: World, a: nat, r: Run, i: Input): World {
    if r.todo == [] then StepConclude(w, a, r)
    else StepClaim(w, a, r.todo[0], r.(todo := r.todo[1..]), i)
  }

  // ---------- JoyTel and BillionConnect (src/modules/order/create-sim/create-sim.service.ts) ----------

  function Submitted(w: World, x: nat): World {
    if x in w.sims then SetSim(w, x, w.sims[x].(submits := w.sims[x].submits + 1)) else w
  }

  function SetStatus(w: World, x: nat, status: Status): World {
    if x in w.sims then SetSim(w, x, w.sims[x].(status := status)) else w
  }

  function StepJoySubmit(w: World, a: nat, x: nat, r: Run, i: Input): World {
    Become(Submitted(w, x), a, if i.JoyAccepted? then JoyAccept(x, i.ticket, r) else JoyFail(x, r))
  }

  function StepJoyAccept(w: World, a: nat, x: nat, ticket: Ticket, r: Run): World {
    var w' := if x in w.sims
      then SetSim(w, x, w.sims[x].(ticket := Some(ticket), status := RedeemCoupon)) else w;
    Become(w', a, JoyQuery(x, r))
  }

  function StepJoyQuery(w: World, a: nat, x: nat, r: Run, i: Input): World {
    if i.PinReady? then Become(w, a, JoyClaim(x, i.pin, r)) else Return(w, a, r, true)
  }

  predicate PinClaimable(w: World, x: nat) {
    x in w.sims && w.sims[x].status == RedeemCoupon
  }

  // The update REDEEM_COUPON -> NOTIFY_COUPON for which the proactive query and the callback race.
  function ClaimPin(w: World, a: nat, x: nat, pin: Option<string>): World
    requires x in w.sims
  {
    var s := w.sims[x];
    SetSim(w, x, s.(status := NotifyCoupon, snPin := if pin.Some? then pin else s.snPin, qrBy := Some(a)))
  }

  function StepJoyClaim(w: World, a: nat, x: nat, pin: Option<string>, r: Run): World {
    if PinClaimable(w, x) then Become(ClaimPin(w, a, x, pin), a, JoyQr(x, r)) else Return(w, a, r, true)
  }

  function QrRequested(w: World, x: nat): World {
    if x in w.sims then SetSim(w, x, w.sims[x].(qrCalls := w.sims[x].qrCalls + 1)) else w
  }

  function StepBcSubmit(w: World, a: nat, x: nat, r: Run, i: Input): World {
    Become(Submitted(w, x), a, if i.BcAccepted? then BcAccept(x, r) else BcFail(x, r))
  }

  // ---------- Mobiline (src/modules/order/mobiline-activation.service.ts) ----------

  function StepMobSubmit(w: World, a: nat, x: nat, r: Run, i: Input): World {
    var w' := Submitted(w, x);
    if i.MobReply? then Become(w', a, MobAnswer(x, i.accepted, r))
    else Return(w', a, r, true) // outcome unknown: the SIM stays PENDING
  }

  function StepMobAnswer(w: World, a: nat, x: nat, accepted: bool, r: Run): World {
    var w' := if x in w.sims && w.sims[x].status == Pending
      then SetStatus(w, x, if accepted then NotifyCoupon else Failed) else w;
    Become(w', a, MobCheck(x, r))
  }

  function StepMobCheck(w: World, a: nat, x: nat, r: Run): World {
    Return(w, a, r, x in w.sims ==> w.sims[x].status != Failed)
  }

  predicate MobOpen(w: World, x: nat) {
    x in w.sims && (w.sims[x].status == Pending || w.sims[x].status == NotifyCoupon)
  }

  function StepMobCallback(
    w: World, a: nat, x: nat, success: bool, iccid: Option<string>, qrcode: Option<string>): World
  {
    if !MobOpen(w, x) then Become(w, a, Finished({}))
    else if success then
      var s := w.sims[x].(status := Completed, iccid := iccid, qrcode := qrcode, deliverBy := Some(a));
      Become(SetSim(w, x, s), a, MobDeliver(x))
    else Become(SetStatus(w, x, Failed), a, Finished({}))
  }

  // The messages with which the owner gets the SIM.
  function StepDeliver(w: World, a: nat, x: nat): World {
    var w' := if x in w.sims then SetSim(w, x, w.sims[x].(deliveries := w.sims[x].deliveries + 1)) else w;
    Become(w', a, Finished({}))
  }

  // ---------- callbacks of JoyTel and BillionConnect (src/modules/order/order.service.ts) ----------

  function StepJoyPinCallback(w: World, a: nat, x: nat, pin: Option<string>): World {
    if PinClaimable(w, x) then Become(ClaimPin(w, a, x, pin), a, JoyPinQr(x)) else Become(w, a, Finished({}))
  }

  // notifyCoupon and bcCallback write COMPLETED without looking at the status, and deliver the SIM next.
  function Complete(w: World, a: nat, x: nat, iccid: Option<string>, qrcode: Option<string>): World {
    var w' := if x in w.sims
      then SetSim(w, x, w.sims[x].(status := Completed, iccid := iccid, qrcode := qrcode)) else w;
    Become(w', a, EsimDeliver(x))
  }

  // ---------- stale orders (src/modules/jobs/jobs.service.ts) ----------

  predicate AnyPaid(w: World, o: nat) {
    exists t | t in w.txs :: w.txs[t].order == Some(o) && PaidStatus(w.txs[t].status)
  }

  predicate Cancels(w: World, o: nat) {
    !AnyPaid(w, o) && o in w.orders && w.orders[o].status == Created
  }

  function CancelOrder(w: World, o: nat): World
    requires o in w.orders
  {
    w.(orders := w.orders[o := w.orders[o].(status := Failed, cancelled := true)],
       sims := map x | x in w.sims ::
         if w.sims[x].order == o && w.sims[x].status == Created then w.sims[x].(status := Failed) else w.sims[x],
       txs := map t | t in w.txs ::
         if w.txs[t].order == Some(o) && w.txs[t].status == TxPending
         then w.txs[t].(status := TxCanceled) else w.txs[t])
  }

  function StepStale(w: World, a: nat, list: seq<StaleOrder>): World {
    if list == [] then Become(w, a, Finished({}))
    else if Cancels(w, list[0].order) then
      Become(CancelOrder(w, list[0].order), a, StaleUsages(list[0].txs, list[1..]))
    else Become(w, a, Stale(list[1..]))
  }

  function StepStaleUsages(w: World, a: nat, txs: seq<nat>, list: seq<StaleOrder>): World {
    if txs == [] then Become(w, a, Stale(list))
    else Become(CancelUsage(w, txs[0]), a, StaleUsages(txs[1..], list))
  }

  // ---------- the machine ----------

  predicate IsCheckout(actor: Actor) {
    actor.MakeTx? || actor.MakeOrder? || actor.LinkOrder? || actor.MakeUsage? || actor.MakeSims?
    || actor.InitPayment? || actor.MarkError?
  }

  predicate IsBank(actor: Actor) {
    actor.SavePaymentId? || actor.DropUsage? || actor.RefuseTx? || actor.ConfirmTx? || actor.Poll? || actor.PollConfirm?
  }

  predicate IsCreate(actor: Actor) {
    actor.ReadUsage? || actor.ApplyUsage? || actor.ReadOrder? || actor.Provision?
  }

  predicate IsJoyTel(actor: Actor) {
    actor.JoySubmit? || actor.JoyAccept? || actor.JoyQuery? || actor.JoyClaim? || actor.JoyQr? || actor.JoyFail?
  }

  predicate IsBillion(actor: Actor) {
    actor.BcSubmit? || actor.BcAccept? || actor.BcFail?
  }

  predicate IsMobiline(actor: Actor) {
    actor.MobSubmit? || actor.MobAnswer? || actor.MobCheck?
  }

  predicate IsCouponCallback(actor: Actor) {
    actor.JoyPinCallback? || actor.JoyPinQr? || actor.JoyQrCallback?
  }

  predicate IsEsimCallback(actor: Actor) {
    actor.BcCallback? || actor.MobCallback? || actor.MobDeliver? || actor.EsimDeliver?
  }

  function StepCheckout(w: World, a: nat, actor: Actor, i: Input): World
    requires IsCheckout(actor)
  {
    match actor
    case MakeTx(user, units, offer) => StepMakeTx(w, a, user, units, offer)
    case MakeOrder(t, user, units, offer) => StepMakeOrder(w, a, t, user, units, offer)
    case LinkOrder(t, o, user, units, offer) => StepLinkOrder(w, a, t, o, user, units, offer)
    case MakeUsage(t, o, user, units, offer) => StepMakeUsage(w, a, t, o, user, units, offer)
    case MakeSims(t, o, units) => StepMakeSims(w, a, t, o, units)
    case InitPayment(t) => StepInitPayment(w, a, t, i)
    case MarkError(t) => StepMarkError(w, a, t)
  }

  function StepBank(w: World, a: nat, actor: Actor, i: Input): World
    requires IsBank(actor)
  {
    match actor
    case SavePaymentId(t, p) => StepSavePaymentId(w, a, t, p)
    case DropUsage(t) => Become(CancelUsage(w, t), a, Finished({}))
    case RefuseTx(t, p) => StepRefuseTx(w, a, t, p)
    case ConfirmTx(t, user, p) => StepConfirmTx(w, a, t, user, p)
    case Poll(picks, tick) => StepPoll(w, a, picks, tick, i)
    case PollConfirm(pick, picks, tick) => StepPollConfirm(w, a, pick, picks, tick)
  }

  function StepCreate(w: World, a: nat, actor: Actor, i: Input): World
    requires IsCreate(actor)
  {
    match actor
    case ReadUsage(t) => StepReadUsage(w, a, t)
    case ApplyUsage(t, p, limit, agent, credit) => StepApplyUsage(w, a, t, p, limit, agent, credit, i)
    case ReadOrder(t, rest, batch) => StepReadOrder(w, a, t, rest, batch, i)
    case Provision(r) => StepProvision(w, a, r, i)
  }

  function StepJoyTel(w: World, a: nat, actor: Actor, i: Input): World
    requires IsJoyTel(actor)
  {
    match actor
    case JoySubmit(x, r) => StepJoySubmit(w, a, x, r, i)
    case JoyAccept(x, ticket, r) => StepJoyAccept(w, a, x, ticket, r)
    case JoyQuery(x, r) => StepJoyQuery(w, a, x, r, i)
    case JoyClaim(x, pin, r) => StepJoyClaim(w, a, x, pin, r)
    case JoyQr(x, r) => Return(QrRequested(w, x), a, r, true)
    case JoyFail(x, r) => Return(SetStatus(w, x, Failed), a, r, false)
  }

  function StepBillion(w: World, a: nat, actor: Actor, i: Input): World
    requires IsBillion(actor)
  {
    match actor
    case BcSubmit(x, r) => StepBcSubmit(w, a, x, r, i)
    case BcAccept(x, r) => Return(SetStatus(w, x, NotifyCoupon), a, r, true)
    case BcFail(x, r) => Return(SetStatus(w, x, Failed), a, r, false)
  }

  function StepMobiline(w: World, a: nat, actor: Actor, i: Input): World
    requires IsMobiline(actor)
  {
    match actor
    case MobSubmit(x, r) => StepMobSubmit(w, a, x, r, i)
    case MobAnswer(x, accepted, r) => StepMobAnswer(w, a, x, accepted, r)
    case MobCheck(x, r) => StepMobCheck(w, a, x, r)
  }

  function StepCouponCallback(w: World, a: nat, actor: Actor): World
    requires IsCouponCallback(actor)
  {
    match actor
    case JoyPinCallback(x, pin) => StepJoyPinCallback(w, a, x, pin)
    case JoyPinQr(x) => Become(QrRequested(w, x), a, Finished({}))
    case JoyQrCallback(x, iccid, qrcode) => Complete(w, a, x, iccid, qrcode)
  }

  function StepEsimCallback(w: World, a: nat, actor: Actor): World
    requires IsEsimCallback(actor)
  {
    match actor
    case BcCallback(x, iccid, qrcode) => Complete(w, a, x, iccid, qrcode)
    case MobCallback(x, success, iccid, qrcode) => StepMobCallback(w, a, x, success, iccid, qrcode)
    case MobDeliver(x) => StepDeliver(w, a, x)
    case EsimDeliver(x) => StepDeliver(w, a, x)
  }

  /** One step of actor `a`, up to its next await. */
  function Step(w: World, a: nat, i: Input): World
    requires a in w.actors
  {
    var actor := w.actors[a];
    if IsCheckout(actor) then StepCheckout(w, a, actor, i)
    else if IsBank(actor) then StepBank(w, a, actor, i)
    else if IsCreate(actor) then StepCreate(w, a, actor, i)
    else if IsJoyTel(actor) then StepJoyTel(w, a, actor, i)
    else if IsBillion(actor) then StepBillion(w, a, actor, i)
    else if IsMobiline(actor) then StepMobiline(w, a, actor, i)
    else if IsCouponCallback(actor) then StepCouponCallback(w, a, actor)
    else if IsEsimCallback(actor) then StepEsimCallback(w, a, actor)
    else if actor.Stale? then StepStale(w, a, actor.list)
    else if actor.StaleUsages? then StepStaleUsages(w, a, actor.txs, actor.list)
    else w
  }

  predicate UsableEsim(body: MobBody) {
    body.esim && body.cid.Some? && !Blank(body.cid.value) && body.qrcode.Some? && !Blank(body.qrcode.value)
  }

  // What a Mobiline callback starts once it has read its SIM.
  function StartMobCallback(w: World, x: nat, body: MobBody): Actor {
    if x !in w.sims || w.sims[x].status == Completed || w.sims[x].status == Failed then Finished({})
    else if body.success && !UsableEsim(body) then Finished({}) // answered 422
    else MobCallback(x, body.success, body.cid, body.qrcode)
  }

  function Next(w: World, e: Event): World
    requires e.Move? ==> e.actor in w.actors
  {
    match e
    case Move(a, i) => Step(w, a, i)
    case Checkout(user, units, offer) => Spawn(w, MakeTx(user, units, offer))
    case BankRefuses(t, p) => if t in w.txs then Spawn(w, RefuseTx(t, p)) else w
    case BankConfirms(t, p) => if t in w.txs then Spawn(w, ConfirmTx(t, w.txs[t].user, p)) else w
    case PollTick(picks) => Spawn(w, Poll(picks, |w.polls|)).(polls := w.polls + [0])
    case RecoveryTick(batch) => Spawn(w, NextRun(batch, set t | t in batch))
    case StaleTick(list) => Spawn(w, Stale(list))
    case JoyPinReady(x, _, pin) => Spawn(w, JoyPinCallback(x, pin))
    case JoyQrReady(x, _, iccid, qrcode) => Spawn(w, JoyQrCallback(x, iccid, qrcode))
    case BcDone(x, iccid, qrcode) => Spawn(w, BcCallback(x, iccid, qrcode))
    case MobDone(x, _, body) => Spawn(w, StartMobCallback(w, x, body))
  }

  // ---------- what the database and the outside world may answer ----------

  predicate HasCreatedSim(w: World, o: nat) {
    exists x | x in w.sims :: w.sims[x].order == o && w.sims[x].status == Created
  }

  // The rows the recovery job looks for.
  predicate InBacklog(w: World, t: nat) {
    && t in w.txs && w.txs[t].status == TxSuccess && w.txs[t].user.Some?
    && w.txs[t].order.Some? && HasCreatedSim(w, w.txs[t].order.value)
  }

  function Backlog(w: World): set<nat> {
    set t | t in w.txs && InBacklog(w, t)
  }

  // findMany with `take: 20`, in any order.
  predicate IsBatch(w: World, batch: seq<nat>) {
    && Distinct(batch)
    && (forall t | t in batch :: InBacklog(w, t))
    && (|batch| == BATCH || (|batch| < BATCH && forall t | t in w.txs && InBacklog(w, t) :: t in batch))
  }

  predicate IsOrderRow(w: World, t: nat, o: nat, todo: seq<nat>) {
    && o in w.orders && w.orders[o].tx == t && Distinct(todo)
    && (forall x | x in todo :: x in w.sims)
    && (forall x | x in w.sims :: x in todo <==> w.sims[x].order == o && w.sims[x].status == Created)
  }

  predicate InputOk(w: World, actor: Actor, i: Input) {
    actor.ReadOrder? ==>
      || (i.OrderRow? && IsOrderRow(w, actor.tx, i.order, i.todo))
      || (i.NoOrder? && forall o | o in w.orders :: w.orders[o].tx != actor.tx)
  }

  predicate OfferHolds(w: World, offer: Offer) {
    && offer.promo in w.promos && w.promos[offer.promo].active
    && (var p := w.promos[offer.promo];
        && (p.limit.None? || p.usedCount < p.limit.value)
        && offer.credit == if p.agent.Some? then p.credit else 0)
  }

  predicate PollRow(w: World, k: Pick) {
    && k.tx in w.txs && w.txs[k.tx].status == TxPending
    && w.txs[k.tx].paymentId == Some(k.paymentId) && w.txs[k.tx].user == k.payer
  }

  predicate StaleRow(w: World, s: StaleOrder) {
    && s.order in w.orders && w.orders[s.order].status == Created
    && !AnyPaid(w, s.order)
    && (forall t | t in w.txs :: t in s.txs <==> w.txs[t].order == Some(s.order))
  }

  /** When an event may happen. Two clauses are assumptions about the world: the bank confirms only a
      transaction whose Init it accepted, and an order is 24 hours old only after its checkout has
      written its rows. BillionConnect calls back only for a SIM it was sent. Everything else is what
      the query or the lookup before the first guarded update returns. */
  predicate Enabled(w: World, e: Event) {
    match e
    case Move(a, i) => a in w.actors && InputOk(w, w.actors[a], i)
    case Checkout(_, units, offer) =>
      && units != [] && (forall p | p in units :: Supported(p))
      && (offer.Some? ==> OfferHolds(w, offer.value))
    case BankRefuses(_, _) => true
    case BankConfirms(t, _) => t in w.open
    case PollTick(picks) => |picks| <= BATCH && forall k | k in picks :: PollRow(w, k)
    case RecoveryTick(batch) => IsBatch(w, batch)
    case StaleTick(list) =>
      |list| <= BATCH && forall s | s in list :: StaleRow(w, s) && w.orders[s.order].prepared
    case JoyPinReady(x, ticket, _) => x in w.sims && w.sims[x].ticket == Some(ticket)
    case JoyQrReady(x, coupon, _, _) => x in w.sims && w.sims[x].snPin == Some(coupon)
    case BcDone(x, _, _) => x in w.sims && w.sims[x].provider == BillionConnect && w.sims[x].submits > 0
    case MobDone(x, channelId, _) =>
      x in w.sims && w.sims[x].provider == Mobiline && w.sims[x].channelId == Some(channelId)
  }

  // ---------- runs ----------

  /** Empty tables, and promo codes nobody has used yet. */
  predicate Initial(w: World) {
    && w.txs == map[] && w.orders == map[] && w.sims == map[] && w.usages == map[] && w.ledger == map[]
    && w.actors == map[] && w.open == {} && w.hookWins == 0 && w.polls == [] && w.drained == {}
    && (forall p | p in w.promos :: w.promos[p].usedCount == 0)
  }

  predicate Allowed(w: World, es: seq<Event>)
    decreases |es|
  {
    es == [] || (Enabled(w, es[0]) && Allowed(Next(w, es[0]), es[1..]))
  }

  function Exec(w: World, es: seq<Event>): World
    requires Allowed(w, es)
    decreases |es|
  {
    if es == [] then w else Exec(Next(w, es[0]), es[1..])
  }
}
