/** The inductive invariant of the protocol, and what one actor's step guarantees to the others.

    Some conditions are stated as membership in an `iset`, or as a `forall` over an enumeration of
    clauses. That models nothing: it keeps the solver from unfolding them where their names suffice. */
module Invariant {
  import opened Tables
  import opened Protocol

  // ---------- rows ----------

  ghost predicate TxOk(w: World, t: nat)
    requires t in w.txs
  {
    var row := w.txs[t];
    && row.user.Some? && row.prep < w.nextActor
    && row.status in {TxPending, TxSuccess, TxFailed, TxCanceled, TxError}
    && (row.order.Some? ==> row.order.value in w.orders && w.orders[row.order.value].tx == t)
    && (t in w.open ==> row.order.Some? && w.orders[row.order.value].prepared)
    && (row.status == TxSuccess ==> t in w.open)
    && (row.status == TxPending && row.paymentId.Some? ==> t in w.open)
    && (row.launched.Some? <==> row.status == TxSuccess)
    && (row.launched.Some? ==> row.launched.value < w.nextActor)
  }

  ghost predicate OrderOk(w: World, o: nat)
    requires o in w.orders
  {
    var row := w.orders[o];
    && row.tx in w.txs
    && (w.txs[row.tx].order.None? || w.txs[row.tx].order == Some(o))
    && (row.prepared ==> w.txs[row.tx].order == Some(o))
    && (row.cancelled ==>
          row.prepared && row.status == Failed && w.txs[row.tx].status in {TxFailed, TxCanceled, TxError})
    && (row.status == Created || row.cancelled || w.txs[row.tx].status == TxSuccess)
    && (row.status == Completed ==> row.tx in w.drained)
  }

  // No provider has heard of the SIM.
  predicate Untouched(s: Sim) {
    && s.ticket.None? && s.snPin.None? && s.channelId.None? && s.owner.None? && s.submits == 0
    && s.qrBy.None? && s.qrCalls == 0 && s.deliverBy.None? && s.deliveries == 0
    && (s.status == Created || s.status == Failed)
  }

  predicate JoyOk(s: Sim) {
    && s.channelId.None? && s.deliverBy.None? && (s.deliveries > 0 ==> s.status == Completed)
    && (s.status in {RedeemCoupon, NotifyCoupon, Completed} <==> s.ticket.Some?)
    && (s.ticket.Some? ==> s.submits == 1)
    && (s.snPin.Some? ==> s.qrBy.Some?)
    && (s.qrBy.Some? <==> s.status == NotifyCoupon || s.status == Completed)
    && (s.qrCalls > 0 ==> s.qrBy.Some?)
  }

  predicate BcOk(s: Sim) {
    && s.ticket.None? && s.snPin.None? && s.channelId.None? && s.deliverBy.None?
    && (s.deliveries > 0 ==> s.submits == 1) && s.qrBy.None? && s.qrCalls == 0 && s.status != RedeemCoupon
    && (s.status == NotifyCoupon || s.status == Completed ==> s.submits == 1)
  }

  predicate Issued(s: Sim) {
    s.iccid.Some? && !Blank(s.iccid.value) && s.qrcode.Some? && !Blank(s.qrcode.value)
  }

  predicate MobOk(s: Sim) {
    && s.ticket.None? && s.snPin.None? && s.qrBy.None? && s.qrCalls == 0 && s.status != RedeemCoupon
    && (s.owner.Some? <==> s.channelId.Some?)
    && (s.deliverBy.Some? <==> s.status == Completed)
    && s.deliveries <= 1 && (s.deliveries > 0 ==> s.deliverBy.Some?)
    && (s.status == Completed ==> Issued(s))
  }

  // What holds of every SIM row by itself.
  predicate RowOk(s: Sim) {
    && s.submits <= 1 && s.qrCalls <= 1
    && (s.owner.None? ==> Untouched(s))
    && (s.status == Created ==> s.owner.None?)
    && match s.provider
       case JoyTel => JoyOk(s)
       case BillionConnect => BcOk(s)
       case Mobiline => MobOk(s)
       case OtherProvider => false
  }

  // What holds of a SIM row and its order.
  ghost predicate Placed(w: World, s: Sim) {
    && s.order in w.orders && w.orders[s.order].tx in w.txs
    && (s.owner.Some? ==> w.txs[w.orders[s.order].tx].status == TxSuccess)
    && (w.orders[s.order].cancelled ==> s.owner.None? && s.status == Failed)
  }

  /** The rows a SIM may have. */
  ghost function Rows(w: World): iset<Sim> {
    iset s | RowOk(s) && Placed(w, s)
  }

  // A right that has been won but not used yet is held by an actor about to use it.
  ghost predicate RightsHeld(w: World, x: nat)
    requires x in w.sims
  {
    var s := w.sims[x];
    && (s.qrBy.Some? && s.qrCalls == 0 ==>
          s.qrBy.value in w.actors
          && var h := w.actors[s.qrBy.value]; (h.JoyQr? || h.JoyPinQr?) && h.sim == x)
    && (s.deliverBy.Some? && s.deliveries == 0 ==>
          s.deliverBy.value in w.actors && w.actors[s.deliverBy.value] == MobDeliver(x))
  }

  ghost predicate CreditOk(w: World, promo: nat, credit: nat) {
    promo in w.promos && (w.promos[promo].agent.None? ==> credit == 0)
  }

  ghost predicate UsageOk(w: World, t: nat)
    requires t in w.usages
  {
    && t in w.txs && CreditOk(w, w.usages[t].promo, w.usages[t].credit)
    && (w.usages[t].status == UsageConfirmed ==> w.txs[t].status == TxSuccess)
  }

  // The usages of a promo code that have been confirmed.
  function ConfirmedOf(usages: map<nat, Usage>, p: nat): set<nat> {
    set t | t in usages && usages[t].promo == p && usages[t].status == UsageConfirmed
  }

  ghost predicate PromoOk(w: World, p: nat)
    requires p in w.promos
  {
    && w.promos[p].usedCount == |ConfirmedOf(w.usages, p)|
    && (w.promos[p].limit.Some? ==> w.promos[p].usedCount <= w.promos[p].limit.value)
  }

  // A confirmed usage that earns its agent something.
  predicate Earns(w: World, t: nat) {
    t in w.usages && w.usages[t].status == UsageConfirmed && w.usages[t].credit > 0
  }

  ghost predicate LedgerOk(w: World) {
    && (forall t :: t in w.ledger <==> Earns(w, t))
    && (forall t | t in w.ledger ::
          w.usages[t].promo in w.promos && w.promos[w.usages[t].promo].agent == Some(w.ledger[t].agent)
          && w.ledger[t].amount == w.usages[t].credit)
  }

  function Successes(w: World): set<nat> {
    set t | t in w.txs && w.txs[t].status == TxSuccess
  }

  // No SIM of the transaction's order waits for a run of create any more.
  ghost predicate DrainedOk(w: World, t: nat) {
    && t in w.txs && w.txs[t].status == TxSuccess
    && forall x | x in w.sims && w.sims[x].order in w.orders && w.orders[w.sims[x].order].tx == t ::
         w.sims[x].status != Created
  }

  // ---------- actors ----------

  predicate UnitsOk(units: seq<Provider>) {
    forall p | p in units :: Supported(p)
  }

  ghost predicate OfferOk(w: World, offer: Option<Offer>) {
    offer.Some? ==> CreditOk(w, offer.value.promo, offer.value.credit)
  }

  // `a` is the checkout of `t`, and the bank does not know the transaction yet.
  ghost predicate Preparing(w: World, a: nat, t: nat) {
    t in w.txs && w.txs[t].prep == a && t !in w.open
  }

  ghost predicate Unprepared(w: World, t: nat, o: nat) {
    o in w.orders && w.orders[o].tx == t && !w.orders[o].prepared
  }

  ghost predicate Paid(w: World, t: nat) {
    t in w.txs && w.txs[t].status == TxSuccess
  }

  ghost predicate Accounted(w: World, batch: set<nat>, rest: seq<nat>) {
    && (forall t | t in rest :: Paid(w, t))
    && (forall t | t in batch :: t in w.drained || t in rest)
  }

  ghost predicate RunOk(w: World, r: Run) {
    && Paid(w, r.tx) && r.order in w.orders && w.orders[r.order].tx == r.tx
    && (forall x | x in r.todo :: x in w.sims && w.sims[x].order == r.order)
    && Accounted(w, r.batch - {r.tx}, r.rest)
  }

  // Every SIM of the order that is still CREATED is on the list of the run.
  ghost predicate Covers(w: World, r: Run) {
    forall x | x in w.sims && w.sims[x].order == r.order && w.sims[x].status == Created :: x in r.todo
  }

  /** The runs of create that may be on their way. */
  ghost function Runs(w: World): iset<Run> {
    iset r: Run | RunOk(w, r) && Covers(w, r)
  }

  ghost predicate Confirming(w: World, a: nat, t: nat) {
    Paid(w, t) && w.txs[t].launched == Some(a) && (t in w.usages ==> w.usages[t].status != UsageConfirmed)
  }

  ghost predicate PickOk(w: World, t: nat, payer: Option<nat>) {
    t in w.open && t in w.txs && w.txs[t].user == payer
  }

  ghost predicate StaleOk(w: World, list: seq<StaleOrder>) {
    forall s | s in list :: s.order in w.orders && w.orders[s.order].prepared
  }

  predicate HasRun(actor: Actor) {
    actor.Provision? || actor.JoySubmit? || actor.JoyAccept? || actor.JoyQuery? || actor.JoyClaim?
    || actor.JoyQr? || actor.JoyFail? || actor.BcSubmit? || actor.BcAccept? || actor.BcFail?
    || actor.MobSubmit? || actor.MobAnswer? || actor.MobCheck?
  }

  /** The program counters at which actor `a` may stand. */
  ghost function Ready(w: World, a: nat): iset<Actor> {
    iset actor | (HasRun(actor) ==> actor.run in Runs(w)) && StageOk(w, a, actor)
  }

  // Actors that work on one SIM.
  predicate OnSim(actor: Actor) {
    (HasRun(actor) && !actor.Provision?)
    || actor.JoyPinCallback? || actor.JoyPinQr? || actor.JoyQrCallback? || actor.BcCallback?
    || actor.MobCallback? || actor.MobDeliver? || actor.EsimDeliver?
  }

  // `a` won the claim of the SIM in its run.
  predicate Holds(a: nat, s: Sim, r: Run, p: Provider) {
    s.order == r.order && s.provider == p && s.owner == Some(a)
  }

  predicate MayRequestQr(a: nat, s: Sim) {
    s.provider == JoyTel && s.qrBy == Some(a) && s.qrCalls == 0
  }

  // What an actor working on a SIM knows about its row.
  predicate RowStage(a: nat, s: Sim, actor: Actor)
    requires OnSim(actor)
  {
    match actor
    case JoySubmit(_, r) => Holds(a, s, r, JoyTel) && s.status == Pending && s.submits == 0
    case JoyAccept(_, _, r) => Holds(a, s, r, JoyTel) && s.status == Pending && s.submits == 1
    case JoyQuery(_, _) => s.provider == JoyTel
    case JoyClaim(_, _, _) => s.provider == JoyTel
    case JoyQr(_, _) => MayRequestQr(a, s)
    case JoyFail(_, r) => Holds(a, s, r, JoyTel) && s.status == Pending
    case BcSubmit(_, r) => Holds(a, s, r, BillionConnect) && s.status == Pending && s.submits == 0
    case BcAccept(_, r) => Holds(a, s, r, BillionConnect) && BcAnswered(s)
    case BcFail(_, r) => Holds(a, s, r, BillionConnect) && BcAnswered(s)
    case MobSubmit(_, r) => Holds(a, s, r, Mobiline) && s.submits == 0
    case MobAnswer(_, _, r) => Holds(a, s, r, Mobiline)
    case MobCheck(_, r) => Holds(a, s, r, Mobiline)
    case JoyPinCallback(_, _) => s.provider == JoyTel
    case JoyPinQr(_) => MayRequestQr(a, s)
    case JoyQrCallback(_, _, _) => s.provider == JoyTel && s.snPin.Some?
    case BcCallback(_, _, _) => s.provider == BillionConnect && s.submits > 0
    case MobCallback(_, success, iccid, qrcode) =>
      s.provider == Mobiline && (success ==> Issued(s.(iccid := iccid, qrcode := qrcode)))
    case MobDeliver(_) => s.provider == Mobiline && s.deliverBy == Some(a) && s.deliveries == 0
    case EsimDeliver(_) =>
      (s.provider == JoyTel && s.status == Completed) || (s.provider == BillionConnect && s.submits > 0)
  }

  ghost predicate StageOk(w: World, a: nat, actor: Actor) {
    if OnSim(actor) then actor.sim in w.sims && RowStage(a, w.sims[actor.sim], actor)
    else TableStage(w, a, actor)
  }

  ghost predicate TableStage(w: World, a: nat, actor: Actor)
    requires !OnSim(actor)
  {
    match actor
    case Finished(batch) => Accounted(w, batch, [])
    case MakeTx(_, units, offer) => UnitsOk(units) && OfferOk(w, offer)
    case MakeOrder(t, _, units, offer) =>
      && Preparing(w, a, t) && w.txs[t].order.None? && t !in w.usages && UnitsOk(units) && OfferOk(w, offer)
      && forall o | o in w.orders :: w.orders[o].tx != t
    case LinkOrder(t, o, _, units, offer) =>
      && Preparing(w, a, t) && w.txs[t].order.None? && t !in w.usages && UnitsOk(units) && OfferOk(w, offer)
      && Unprepared(w, t, o) && forall o' | o' in w.orders && w.orders[o'].tx == t :: o' == o
    case MakeUsage(t, o, _, units, offer) =>
      && Preparing(w, a, t) && w.txs[t].order == Some(o) && t !in w.usages && UnitsOk(units) && OfferOk(w, offer)
      && Unprepared(w, t, o)
    case MakeSims(t, o, units) =>
      Preparing(w, a, t) && w.txs[t].order == Some(o) && UnitsOk(units) && Unprepared(w, t, o)
    case InitPayment(t) =>
      && Preparing(w, a, t) && w.txs[t].order.Some?
      && w.txs[t].order.value in w.orders && w.orders[w.txs[t].order.value].prepared
    case SavePaymentId(t, _) => t in w.open
    case MarkError(t) => Preparing(w, a, t)
    case DropUsage(_) => true
    case RefuseTx(_, _) => true
    case ConfirmTx(t, payer, _) => PickOk(w, t, payer)
    case Poll(picks, tick) => tick < |w.polls| && forall k | k in picks :: PickOk(w, k.tx, k.payer)
    case PollConfirm(pick, picks, tick) =>
      tick < |w.polls| && PickOk(w, pick.tx, pick.payer) && forall k | k in picks :: PickOk(w, k.tx, k.payer)
    case ReadUsage(t) => Confirming(w, a, t)
    case ApplyUsage(t, p, limit, agent, credit) =>
      && Confirming(w, a, t) && t in w.usages && w.usages[t].promo == p && w.usages[t].credit == credit
      && p in w.promos && w.promos[p].limit == limit && w.promos[p].agent == agent
    case ReadOrder(t, rest, batch) => Paid(w, t) && Accounted(w, batch - {t}, rest)
    case Provision(_) => true
    case Stale(list) => StaleOk(w, list)
    case StaleUsages(_, list) => StaleOk(w, list)
  }

  // BillionConnect has the order; its callback may already have been here.
  predicate BcAnswered(s: Sim) {
    s.submits == 1 && (s.status == Pending || s.status == Completed)
  }

  // ---------- the invariant ----------

  ghost predicate IdsOk(w: World) {
    && (forall t | t in w.txs :: t < w.nextTx) && (forall o | o in w.orders :: o < w.nextOrder)
    && (forall x | x in w.sims :: x < w.nextSim) && (forall a | a in w.actors :: a < w.nextActor)
    && w.open <= w.txs.Keys
  }

  ghost predicate PaymentsOk(w: World) {
    && (forall t {:trigger TxOk(w, t)} | t in w.txs :: TxOk(w, t))
    && (forall o {:trigger OrderOk(w, o)} | o in w.orders :: OrderOk(w, o))
    && w.hookWins + Sum(w.polls) == |Successes(w)|
  }

  ghost predicate SimsOk(w: World) {
    && (forall x | x in w.sims :: w.sims[x] in Rows(w))
    && (forall x {:trigger RightsHeld(w, x)} | x in w.sims :: RightsHeld(w, x))
    && (forall t {:trigger DrainedOk(w, t)} | t in w.drained :: DrainedOk(w, t))
  }

  ghost predicate PromosOk(w: World) {
    && (forall t {:trigger UsageOk(w, t)} | t in w.usages :: UsageOk(w, t))
    && (forall p {:trigger PromoOk(w, p)} | p in w.promos :: PromoOk(w, p))
    && LedgerOk(w)
  }

  ghost predicate ActorsOk(w: World) {
    forall a {:trigger Ready(w, a)} | a in w.actors :: w.actors[a] in Ready(w, a)
  }

  // The clauses of the invariant.
  datatype Clause = Ids | Payments | Sims | Promos | Actors

  ghost predicate Satisfies(w: World, c: Clause) {
    match c
    case Ids => IdsOk(w)
    case Payments => PaymentsOk(w)
    case Sims => SimsOk(w)
    case Promos => PromosOk(w)
    case Actors => ActorsOk(w)
  }

  ghost predicate Inv(w: World) {
    forall c: Clause :: Satisfies(w, c)
  }

  // All clauses but the one about the actors.
  ghost predicate TablesOk(w: World) {
    forall c: Clause :: c == Actors || Satisfies(w, c)
  }

  lemma FoldTables(w: World)
    requires IdsOk(w) && PaymentsOk(w) && SimsOk(w) && PromosOk(w)
    ensures TablesOk(w)
  {
  }

  lemma Unfold(w: World)
    requires Inv(w)
    ensures IdsOk(w) && PaymentsOk(w) && SimsOk(w) && PromosOk(w) && ActorsOk(w)
  {
    assert Satisfies(w, Ids) && Satisfies(w, Payments) && Satisfies(w, Sims);
    assert Satisfies(w, Promos) && Satisfies(w, Actors);
  }

  lemma Fold(w: World)
    requires TablesOk(w) && ActorsOk(w)
    ensures Inv(w)
  {
  }

  lemma AtActor(w: World, a: nat)
    requires Inv(w) && a in w.actors
    ensures w.actors[a] in Ready(w, a)
  {
    assert Satisfies(w, Actors);
  }

  lemma AtTx(w: World, t: nat)
    requires Inv(w) && t in w.txs
    ensures TxOk(w, t)
  {
    assert Satisfies(w, Payments);
  }

  lemma AtOrder(w: World, o: nat)
    requires Inv(w) && o in w.orders
    ensures OrderOk(w, o)
  {
    assert Satisfies(w, Payments);
  }

  lemma AtSim(w: World, x: nat)
    requires Inv(w) && x in w.sims
    ensures w.sims[x] in Rows(w) && RightsHeld(w, x)
  {
    assert Satisfies(w, Sims);
  }

  lemma AtUsage(w: World, t: nat)
    requires Inv(w) && t in w.usages
    ensures UsageOk(w, t)
  {
    assert Satisfies(w, Promos);
  }

  // ---------- edges ----------

  /** The status machine of a SIM, provider by provider. */
  predicate StatusEdge(p: Provider, before: Status, after: Status) {
    || before == after
    || (before == Created && (after == Pending || after == Failed))
    || match p
       case JoyTel =>
         || (before == Pending && (after == RedeemCoupon || after == Failed))
         || (before == RedeemCoupon && after == NotifyCoupon) || (before == NotifyCoupon && after == Completed)
       case Mobiline =>
         || (before == Pending && (after == NotifyCoupon || after == Completed || after == Failed))
         || (before == NotifyCoupon && (after == Completed || after == Failed))
       case BillionConnect =>
         || (before == Pending && (after == NotifyCoupon || after == Completed || after == Failed))
         || ((before == NotifyCoupon || before == Failed) && after == Completed)
         || (before == Completed && (after == NotifyCoupon || after == Failed))
       case OtherProvider => false
  }

  /** A transaction leaves PENDING once; after that only a failed checkout writes ERROR over it. */
  predicate TxEdge(before: TxStatus, after: TxStatus) {
    after == before || before == TxPending || (after == TxError && before != TxSuccess)
  }

  // The actor's next call submits the SIM to its provider.
  predicate Submits(actor: Actor, x: nat) {
    (actor.JoySubmit? || actor.BcSubmit? || actor.MobSubmit?) && actor.sim == x
  }

  // The actor's next call asks JoyTel for the QR of the SIM.
  predicate RequestsQr(actor: Actor, x: nat) {
    (actor.JoyQr? || actor.JoyPinQr?) && actor.sim == x
  }

  // The actor's next call delivers the SIM to its owner.
  predicate Delivers(actor: Actor, x: nat) {
    (actor.MobDeliver? || actor.EsimDeliver?) && actor.sim == x
  }

  // The actor's next update of the SIM looks at no status and writes something else than COMPLETED.
  predicate Overwrites(actor: Actor, x: nat) {
    (actor.BcAccept? || actor.BcFail?) && actor.sim == x
  }

  // An actor that has a right it won still to use.
  predicate UsesRight(actor: Actor) {
    actor.JoyQr? || actor.JoyPinQr? || actor.MobDeliver?
  }

  // An actor whose next call is counted.
  predicate Calls(actor: Actor) {
    UsesRight(actor) || actor.EsimDeliver? || actor.JoySubmit? || actor.BcSubmit? || actor.MobSubmit?
  }

  function One(b: bool): nat {
    if b then 1 else 0
  }

  // The actor's next update writes FAILED into the row of a SIM that has been claimed.
  predicate Refuses(actor: Actor, x: nat, s: Sim) {
    || ((actor.JoyFail? || actor.BcFail?) && actor.sim == x)
    || (actor.MobAnswer? && actor.sim == x && !actor.accepted && s.status == Pending)
    || (actor.MobCallback? && actor.sim == x && !actor.success && (s.status == Pending || s.status == NotifyCoupon))
  }

  /** What the step of `actor` leaves in the row of `x`: a call is counted when it is made, COMPLETED
      is left only by an unguarded update of BillionConnect, a claimed SIM becomes FAILED only by a
      refusal, the right to deliver is won together with COMPLETED, a final Mobiline row stays as it is,
      and only a claim sets the correlation id. */
  predicate Recorded(actor: Actor, x: nat, s: Sim, s': Sim) {
    && s'.submits == s.submits + One(Submits(actor, x))
    && s'.qrCalls == s.qrCalls + One(RequestsQr(actor, x))
    && s'.deliveries == s.deliveries + One(Delivers(actor, x))
    && (s.status == Completed && s'.status != Completed ==> Overwrites(actor, x))
    && (s'.status == Failed && s.status != Failed && s.status != Created ==> Refuses(actor, x, s))
    && (s'.deliverBy != s.deliverBy ==>
          actor.MobCallback? && actor.sim == x && s.status != Completed && s'.status == Completed)
    && (s.provider == Mobiline && (s.status == Completed || s.status == Failed) ==>
          s' == s.(submits := s'.submits, deliveries := s'.deliveries))
    && (s'.channelId != s.channelId ==>
          actor.Provision? && actor.run.todo != [] && actor.run.todo[0] == x && s.status == Created)
    && Written(actor, x, s, s')
  }

  // The actor's next update of the SIM brings its eSIM.
  predicate BringsEsim(actor: Actor, x: nat, iccid: Option<string>, qrcode: Option<string>) {
    && (actor.JoyQrCallback? || actor.BcCallback? || (actor.MobCallback? && actor.success))
    && actor.sim == x && actor.iccid == iccid && actor.qrcode == qrcode
  }

  // The actor's next update of the SIM makes it so.
  predicate StatusBy(actor: Actor, x: nat, s: Sim, status: Status) {
    match status
    case RedeemCoupon => actor.JoyAccept? && actor.sim == x
    case NotifyCoupon =>
      (actor.JoyClaim? || actor.JoyPinCallback? || actor.BcAccept? || (actor.MobAnswer? && actor.accepted))
      && actor.sim == x
    case Failed =>
      || Refuses(actor, x, s)
      || (actor.Stale? && actor.list != [] && actor.list[0].order == s.order)
      || (actor.Provision? && actor.run.todo != [] && actor.run.todo[0] == x && s.provider == Mobiline)
    case _ => true
  }

  /** Who writes the columns of a SIM, and what. */
  predicate Written(actor: Actor, x: nat, s: Sim, s': Sim) {
    && (s'.ticket != s.ticket ==> actor.JoyAccept? && actor.sim == x && s'.ticket == Some(actor.ticket))
    && (s'.snPin != s.snPin ==>
          (actor.JoyClaim? || actor.JoyPinCallback?) && actor.sim == x && s'.snPin == actor.pin)
    && (s'.iccid != s.iccid || s'.qrcode != s.qrcode || (s'.status == Completed && s.status != Completed) ==>
          BringsEsim(actor, x, s'.iccid, s'.qrcode))
    && (s'.status != s.status ==> StatusBy(actor, x, s, s'.status))
  }

  // The actor's next update of the transaction writes this payment id.
  predicate Brings(actor: Actor, t: nat, p: nat) {
    || ((actor.SavePaymentId? || actor.RefuseTx? || actor.ConfirmTx?) && actor.tx == t && actor.paymentId == p)
    || (actor.PollConfirm? && actor.pick.tx == t && actor.pick.paymentId == p)
  }

  /** Who writes the columns of a transaction, and what. */
  predicate TxWritten(actor: Actor, t: nat, row: Tx, row': Tx) {
    && (row'.status != row.status ==>
          || (row'.status == TxSuccess && Pays(actor, t))
          || (row'.status == TxFailed && actor.RefuseTx? && actor.tx == t)
          || (row'.status == TxError && actor == MarkError(t))
          || (row'.status == TxCanceled && actor.Stale? && actor.list != []
              && row.order == Some(actor.list[0].order)))
    && (row'.paymentId != row.paymentId ==> row'.paymentId.Some? && Brings(actor, t, row'.paymentId.value))
    && (row'.order != row.order ==> actor.LinkOrder? && actor.tx == t && row'.order == Some(actor.order))
  }

  // The actor's next update, when it wins, marks the transaction as paid.
  predicate Pays(actor: Actor, t: nat) {
    (actor.ConfirmTx? && actor.tx == t) || (actor.PollConfirm? && actor.pick.tx == t)
  }

  // The actor's next call is the promo transaction of the transaction `t`.
  predicate AppliesUsage(actor: Actor, t: nat) {
    actor.ApplyUsage? && actor.tx == t
  }

  // The actor's next update is the status a run of create gives to the order at its end.
  predicate Concludes(actor: Actor, o: nat) {
    actor.Provision? && actor.run.todo == [] && actor.run.order == o
  }

  // The actor's next transaction is that of the stale-order job for the order.
  predicate Cancelling(actor: Actor, o: nat) {
    actor.Stale? && actor.list != [] && actor.list[0].order == o
  }

  function Verdict(r: Run): Status {
    if r.failed then Failed else Completed
  }

  // The actor that moves, or none yet.
  function Mover(w: World, a: nat): Actor {
    if a in w.actors then w.actors[a] else Finished({})
  }

  // ---------- rely ----------

  predicate TxRely(a: nat, row: Tx, row': Tx) {
    && row'.user == row.user && row'.prep == row.prep
    && (row.order.Some? || row.prep != a ==> row'.order == row.order)
    && TxEdge(row.status, row'.status) && (row.status == TxSuccess ==> row'.status == TxSuccess)
    && (row.launched.Some? ==> row'.launched == row.launched)
  }

  predicate SimRely(a: nat, s: Sim, s': Sim) {
    && s'.provider == s.provider && s'.order == s.order && s.submits <= s'.submits
    && StatusEdge(s.provider, s.status, s'.status)
    && (s.snPin.Some? ==> s'.snPin.Some?)
    && (s'.status == Created ==> s.status == Created)
    && (s.owner.Some? && s.owner != Some(a) ==>
          && s'.owner == s.owner && s'.submits == s.submits
          && (s.status == Pending && (s.provider == JoyTel || (s.provider == BillionConnect && s.submits == 0)) ==>
                s'.status == Pending)
          && (s.provider == BillionConnect && BcAnswered(s) ==> BcAnswered(s')))
    && (s.qrBy.Some? && s.qrBy != Some(a) ==> s'.qrBy == s.qrBy && s'.qrCalls == s.qrCalls)
    && (s.deliverBy.Some? && s.deliverBy != Some(a) ==> s'.deliverBy == s.deliverBy && s'.deliveries == s.deliveries)
  }

  ghost predicate TxsRely(w: World, w': World, a: nat) {
    && (forall t | t in w.txs ::
          t in w'.txs && TxRely(a, w.txs[t], w'.txs[t]) && TxWritten(Mover(w, a), t, w.txs[t], w'.txs[t]))
    && (forall t | t in w'.txs && t !in w.txs ::
          && Mover(w, a).MakeTx? && w'.txs[t].user == Some(Mover(w, a).user)
          && w'.txs[t].status == TxPending && w'.txs[t].order.None? && w'.txs[t].paymentId.None?)
    && (forall t | t in w'.txs && w'.txs[t].status == TxSuccess ::
          t in w.txs && (w.txs[t].status == TxSuccess || Pays(Mover(w, a), t)))
    && w.open <= w'.open && (forall t | t in w'.open && t !in w.open :: t in w.txs && w.txs[t].prep == a)
  }

  ghost predicate OrdersRely(w: World, w': World, a: nat) {
    && (forall o | o in w.orders ::
          && o in w'.orders && w'.orders[o].tx == w.orders[o].tx && (w.orders[o].prepared ==> w'.orders[o].prepared)
          && (w.orders[o].cancelled ==> w'.orders[o].cancelled)
          && (w'.orders[o].status == Created ==> w.orders[o].status == Created)
          && (w'.orders[o].status == w.orders[o].status
              || (Concludes(Mover(w, a), o) && w'.orders[o].status == Verdict(Mover(w, a).run))
              || (Cancelling(Mover(w, a), o) && Cancels(w, o) && w'.orders[o].status == Failed))
          && (w'.orders[o].prepared && !w.orders[o].prepared ==>
                w.orders[o].tx in w.txs && w.txs[w.orders[o].tx].prep == a))
    && (forall o | o in w'.orders && o !in w.orders ::
          w'.orders[o].tx in w.txs && w.txs[w'.orders[o].tx].prep == a && w'.orders[o].status == Created)
  }

  ghost predicate SimsRely(w: World, w': World, a: nat) {
    && (forall x | x in w.sims ::
          x in w'.sims && SimRely(a, w.sims[x], w'.sims[x]) && Recorded(Mover(w, a), x, w.sims[x], w'.sims[x]))
    && (forall x | x in w'.sims && x !in w.sims ::
          && w'.sims[x].order in w.orders && !w.orders[w'.sims[x].order].prepared
          && w'.sims[x].status == Created && Untouched(w'.sims[x])
          && w'.sims[x].iccid.None? && w'.sims[x].qrcode.None?
          && Mover(w, a).MakeSims? && Mover(w, a).units != [] && w'.sims[x].order == Mover(w, a).order)
  }

  ghost predicate UsagesRely(w: World, w': World, a: nat) {
    && (forall t | t in w.usages ::
          && t in w'.usages && w'.usages[t] == w.usages[t].(status := w'.usages[t].status)
          && (w.usages[t].status == UsageConfirmed ==> w'.usages[t].status == UsageConfirmed)
          && (w'.usages[t].status == UsagePending ==> w.usages[t].status == UsagePending)
          && (w'.usages[t].status == UsageConfirmed && w.usages[t].status != UsageConfirmed ==>
                t in w.txs && w.txs[t].launched == Some(a) && AppliesUsage(Mover(w, a), t)))
    && (forall t | t in w'.usages && t !in w.usages ::
          && w'.usages[t].status != UsageConfirmed && t in w.txs && w.txs[t].prep == a && t !in w.open
          && Mover(w, a).MakeUsage? && Mover(w, a).tx == t)
    && w'.promos.Keys == w.promos.Keys
    && (forall p | p in w.promos ::
          w'.promos[p].(usedCount := w.promos[p].usedCount) == w.promos[p]
          && w.promos[p].usedCount <= w'.promos[p].usedCount)
  }

  // The parts of what an actor guarantees to the others.
  datatype Part = OfTxs | OfOrders | OfSims | OfUsages | OfRest

  ghost predicate Relies(w: World, w': World, a: nat, part: Part) {
    match part
    case OfTxs => TxsRely(w, w', a)
    case OfOrders => OrdersRely(w, w', a)
    case OfSims => SimsRely(w, w', a)
    case OfUsages => UsagesRely(w, w', a)
    case OfRest => w.drained <= w'.drained && |w.polls| <= |w'.polls| && w'.group == w.group
  }

  ghost predicate ReliesOnAll(w: World, w': World, a: nat) {
    forall part: Part :: Relies(w, w', a, part)
  }

  /** Where `a` may move the world `w`, for all the other actors rely on. */
  ghost function Guarantee(w: World, a: nat): iset<World> {
    iset w': World | ReliesOnAll(w, w', a)
  }

  // The transactions an actor was started for.
  function BatchOf(actor: Actor): Option<set<nat>> {
    if actor.Finished? || actor.ReadOrder? then Some(actor.batch)
    else if HasRun(actor) then Some(actor.run.batch)
    else None
  }

  // What an actor that runs create still has before it: runs, then calls of the current run.
  function RunsLeft(actor: Actor): nat {
    if actor.ReadOrder? then 2 * |actor.rest| + 2
    else if HasRun(actor) then 2 * |actor.run.rest| + 1
    else 0
  }

  function CallsLeft(actor: Actor): nat {
    if HasRun(actor) then 6 * |actor.run.todo| + StagesLeft(actor) else 0
  }

  function StagesLeft(actor: Actor): nat {
    match actor
    case JoySubmit(_, _) => 5
    case JoyAccept(_, _, _) => 4
    case JoyQuery(_, _) => 3
    case JoyClaim(_, _, _) => 2
    case JoyQr(_, _) => 1
    case JoyFail(_, _) => 1
    case BcSubmit(_, _) => 2
    case BcAccept(_, _) => 1
    case BcFail(_, _) => 1
    case MobSubmit(_, _) => 3
    case MobAnswer(_, _, _) => 2
    case MobCheck(_, _) => 1
    case _ => 0
  }

  predicate Descends(actor: Actor, next: Actor) {
    || RunsLeft(next) < RunsLeft(actor)
    || (RunsLeft(next) == RunsLeft(actor) && CallsLeft(next) < CallsLeft(actor))
  }

  predicate RunsCreate(actor: Actor) {
    actor.ReadOrder? || HasRun(actor)
  }

  /** An actor remembers what it was started for, and a run of create comes nearer to its end. */
  predicate Continues(actor: Actor, next: Actor) {
    && (BatchOf(actor).Some? ==> BatchOf(next) == BatchOf(actor))
    && (RunsCreate(actor) ==> (RunsCreate(next) || next.Finished?) && Descends(actor, next))
    && (next.BcAccept? || next.BcFail? ==> actor.BcSubmit? && next.sim == actor.sim)
    && (next.JoyFail? ==> actor.JoySubmit? && next.sim == actor.sim)
    && (next.JoySubmit? || next.BcSubmit? ==> actor.Provision?)
    && (next.EsimDeliver? ==> (actor.JoyQrCallback? || actor.BcCallback?) && next.sim == actor.sim)
    && (actor.Finished? ==> next.Finished?)
    && !IsEntry(next) && (Ordering(next) ==> Ordering(actor)) && (next.ApplyUsage? ==> actor == ReadUsage(next.tx))
    && (actor.ReadUsage? || actor.ApplyUsage? ==> next.ApplyUsage? || BatchOf(next) == Some({actor.tx}))
    && (next.PollConfirm? ==> actor.Poll?) && (next.Poll? ==> actor.Poll? || actor.PollConfirm?)
    && (next.SavePaymentId? || next.MarkError? ==> actor.InitPayment?)
    && (next.Stale? || next.StaleUsages? ==> actor.Stale? || actor.StaleUsages?)
    && (next.JoyAccept? ==> actor.JoySubmit?) && (next.JoyClaim? ==> actor.JoyQuery?)
    && (next.MobAnswer? ==> actor.MobSubmit?)
  }

  // The stages of a checkout before it asks the bank.
  predicate Ordering(actor: Actor) {
    actor.MakeTx? || actor.MakeOrder? || actor.LinkOrder? || actor.MakeUsage? || actor.MakeSims? || actor.InitPayment?
  }

  // Where a call begins; none gets there later.
  predicate IsEntry(actor: Actor) {
    actor.MakeTx? || actor.RefuseTx? || actor.ConfirmTx? || actor.ReadUsage?
    || actor.JoyPinCallback? || actor.JoyQrCallback? || actor.BcCallback? || actor.MobCallback?
  }

  // An actor that starts has no run, and nothing to deliver yet.
  predicate MayStart(actor: Actor) {
    !HasRun(actor) && !actor.EsimDeliver?
  }

  /** What an actor may become by its own step. */
  ghost function Follows(actor: Actor): iset<Actor> {
    iset next: Actor | Continues(actor, next)
  }

  // A call that runs no issue of eSIMs may end wherever it stands.
  predicate MayEnd(actor: Actor) {
    BatchOf(actor).None? && !actor.ReadUsage? && !actor.ApplyUsage?
  }

  lemma EndsAnywhere(actor: Actor)
    requires MayEnd(actor)
    ensures Finished({}) in Follows(actor)
  {
  }

  // Only `a` moves, and it goes on with what it was started for; others may start.
  ghost predicate MovesOnly(w: World, w': World, a: nat) {
    && (forall b | b in w.actors ::
          b in w'.actors && (if b == a then w'.actors[b] in Follows(w.actors[b]) else w'.actors[b] == w.actors[b]))
    && (forall b | b in w'.actors && b !in w.actors ::
          w.nextActor <= b && MayStart(w'.actors[b]) && (a in w.actors ==> w'.actors[b].ReadUsage?))
  }

  // What is proved of every step.
  datatype Aspect = Invariance | Reliance | Frame

  ghost predicate Meets(w: World, w': World, a: nat, aspect: Aspect) {
    match aspect
    case Invariance => Inv(w')
    case Reliance => w' in Guarantee(w, a)
    case Frame => MovesOnly(w, w', a)
  }

  ghost predicate MeetsAll(w: World, w': World, a: nat) {
    forall aspect: Aspect :: Meets(w, w', a, aspect)
  }

  /** Where the step of `a` may lead. */
  ghost function Safe(w: World, a: nat): iset<World> {
    iset w': World | MeetsAll(w, w', a)
  }

  lemma SafeMeans(w: World, w': World, a: nat)
    requires w' in Safe(w, a)
    ensures Inv(w') && w' in Guarantee(w, a) && MovesOnly(w, w', a)
  {
    assert Meets(w, w', a, Invariance) && Meets(w, w', a, Reliance) && Meets(w, w', a, Frame);
  }

  lemma Guarantees(w: World, w': World, a: nat)
    requires TxsRely(w, w', a) && OrdersRely(w, w', a) && SimsRely(w, w', a) && UsagesRely(w, w', a)
    requires w.drained <= w'.drained && |w.polls| <= |w'.polls| && w'.group == w.group
    ensures w' in Guarantee(w, a)
  {
  }

  lemma Relied(w: World, w': World, a: nat)
    requires w' in Guarantee(w, a)
    ensures TxsRely(w, w', a) && OrdersRely(w, w', a) && SimsRely(w, w', a) && UsagesRely(w, w', a)
    ensures w.drained <= w'.drained && |w.polls| <= |w'.polls| && w'.group == w.group
  {
    assert Relies(w, w', a, OfTxs) && Relies(w, w', a, OfOrders) && Relies(w, w', a, OfSims);
    assert Relies(w, w', a, OfUsages) && Relies(w, w', a, OfRest);
  }

  // The parts of the guarantee that hold because a table stays as it is.
  lemma SameTxsRely(w: World, w': World, a: nat)
    requires w'.txs == w.txs && w'.open == w.open
    ensures TxsRely(w, w', a)
  {
  }

  lemma SameOrdersRely(w: World, w': World, a: nat)
    requires w'.orders == w.orders
    ensures OrdersRely(w, w', a)
  {
  }

  lemma SameSimsRely(w: World, w': World, a: nat)
    requires w'.sims == w.sims && !Calls(Mover(w, a))
    ensures SimsRely(w, w', a)
  {
  }

  lemma SameUsagesRely(w: World, w': World, a: nat)
    requires w'.usages == w.usages && w'.promos == w.promos
    ensures UsagesRely(w, w', a)
  {
  }

  lemma RunsRelyOn(w: World, w': World, a: nat, r: Run)
    requires TxsRely(w, w', a) && OrdersRely(w, w', a) && SimsRely(w, w', a) && w.drained <= w'.drained
    requires r in Runs(w) && TxOk(w, r.tx) && OrderOk(w, r.order)
    ensures r in Runs(w')
  {
    RunOkRelies(w, w', a, r);
    CoversRelies(w, w', a, r);
  }

  lemma RunOkRelies(w: World, w': World, a: nat, r: Run)
    requires TxsRely(w, w', a) && OrdersRely(w, w', a) && SimsRely(w, w', a) && w.drained <= w'.drained
    requires RunOk(w, r)
    ensures RunOk(w', r)
  {
  }

  // A SIM that is new belongs to an order that was not prepared.
  lemma CoversRelies(w: World, w': World, a: nat, r: Run)
    requires SimsRely(w, w', a) && RunOk(w, r) && Covers(w, r) && TxOk(w, r.tx) && OrderOk(w, r.order)
    ensures Covers(w', r)
  {
    forall x | x in w'.sims && w'.sims[x].order == r.order && w'.sims[x].status == Created ensures x in r.todo {
      assert x in w.sims;
    }
  }

  lemma CheckoutsRelyOn(w: World, w': World, a: nat, b: nat, actor: Actor)
    requires TxsRely(w, w', a) && OrdersRely(w, w', a) && UsagesRely(w, w', a) && b != a
    requires IsCheckout(actor) && TableStage(w, b, actor)
    ensures TableStage(w', b, actor)
  {
  }

  lemma RowsRelyOn(a: nat, s: Sim, s': Sim, b: nat, actor: Actor)
    requires SimRely(a, s, s') && b != a && OnSim(actor) && RowStage(b, s, actor)
    ensures RowStage(b, s', actor)
  {
  }

  lemma OthersRelyOn(w: World, w': World, a: nat, b: nat, actor: Actor)
    requires w' in Guarantee(w, a) && b != a && !IsCheckout(actor) && !OnSim(actor) && TableStage(w, b, actor)
    ensures TableStage(w', b, actor)
  {
    Relied(w, w', a);
  }

  lemma StagesRelyOn(w: World, w': World, a: nat, b: nat, actor: Actor)
    requires w' in Guarantee(w, a) && b != a && StageOk(w, b, actor)
    ensures StageOk(w', b, actor)
  {
    Relied(w, w', a);
    if OnSim(actor) {
      RowsRelyOn(a, w.sims[actor.sim], w'.sims[actor.sim], b, actor);
    } else if IsCheckout(actor) {
      CheckoutsRelyOn(w, w', a, b, actor);
    } else {
      OthersRelyOn(w, w', a, b, actor);
    }
  }

  lemma RunningRelyOn(w: World, w': World, a: nat, r: Run)
    requires PaymentsOk(w) && w' in Guarantee(w, a) && r in Runs(w)
    ensures r in Runs(w')
  {
    Relied(w, w', a);
    assert TxOk(w, r.tx) && OrderOk(w, r.order);
    RunsRelyOn(w, w', a, r);
  }

  lemma ActorsRelyOn(w: World, w': World, a: nat, b: nat, actor: Actor)
    requires PaymentsOk(w) && w' in Guarantee(w, a) && b != a && actor in Ready(w, b)
    ensures actor in Ready(w', b)
  {
    assert StageOk(w', b, actor) by {
      StagesRelyOn(w, w', a, b, actor);
    }
    if HasRun(actor) {
      RunningRelyOn(w, w', a, actor.run);
    }
  }

  /** The actors stay in order when one of them guarantees what the others rely on and leaves the
      actors it changes in order. */
  lemma Close(w: World, w': World, a: nat)
    requires PaymentsOk(w) && ActorsOk(w) && w' in Guarantee(w, a)
    requires forall b | b in w'.actors ::
               w'.actors[b] in Ready(w', b) || (b != a && b in w.actors && w'.actors[b] == w.actors[b])
    ensures ActorsOk(w')
  {
    forall b | b in w'.actors ensures w'.actors[b] in Ready(w', b) {
      if b != a && b in w.actors && w'.actors[b] == w.actors[b] {
        ActorsRelyOn(w, w', a, b, w.actors[b]);
      }
    }
  }

  /** The same for a step that changes one actor only. */
  lemma CloseOne(w: World, w': World, a: nat)
    requires Inv(w) && w' in Guarantee(w, a)
    requires a in w'.actors && w'.actors == w.actors[a := w'.actors[a]] && w'.actors[a] in Ready(w', a)
    requires TablesOk(w')
    requires if a in w.actors then w'.actors[a] in Follows(w.actors[a]) else w.nextActor <= a && MayStart(w'.actors[a])
    ensures w' in Safe(w, a)
  {
    Unfold(w);
    Close(w, w', a);
    Fold(w');
    assert Meets(w, w', a, Invariance) && Meets(w, w', a, Reliance) && Meets(w, w', a, Frame);
  }
}
