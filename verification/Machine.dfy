/** The invariant holds in every reachable world. */
module Machine {
  import opened Tables
  import opened Protocol
  import opened Invariant
  import opened SimSteps
  import opened ProvisionSteps
  import opened PaymentSteps
  import opened PromoSteps
  import opened JobSteps

  lemma ProvisionKeeps(w: World, a: nat, r: Run, i: Input)
    requires Inv(w) && a in w.actors && w.actors[a] == Provision(r)
    ensures StepProvision(w, a, r, i) in Safe(w, a)
  {
    if r.todo == [] {
      ConcludeKeeps(w, a, r, i);
    } else if Claimable(w, r.todo[0]) {
      ClaimingKeeps(w, a, r, i);
    } else {
      NoClaimKeeps(w, a, r, i);
    }
  }

  lemma MakeSimsKeeps(w: World, a: nat, t: nat, o: nat, units: seq<Provider>)
    requires Inv(w) && a in w.actors && w.actors[a] == MakeSims(t, o, units)
    ensures StepMakeSims(w, a, t, o, units) in Safe(w, a)
  {
    if units == [] {
      PreparedKeeps(w, a, t, o);
    } else {
      NewSimKeeps(w, a, t, o, units);
    }
  }

  lemma CheckoutKeeps(w: World, a: nat, i: Input)
    requires Inv(w) && a in w.actors && IsCheckout(w.actors[a])
    ensures StepCheckout(w, a, w.actors[a], i) in Safe(w, a)
  {
    match w.actors[a]
    case MakeTx(user, units, offer) => MakeTxKeeps(w, a, user, units, offer);
    case MakeOrder(t, user, units, offer) => MakeOrderKeeps(w, a, t, user, units, offer);
    case LinkOrder(t, o, user, units, offer) => LinkOrderKeeps(w, a, t, o, user, units, offer);
    case MakeUsage(t, o, user, units, offer) => MakeUsageKeeps(w, a, t, o, user, units, offer);
    case MakeSims(t, o, units) => MakeSimsKeeps(w, a, t, o, units);
    case InitPayment(t) => InitPaymentKeeps(w, a, t, i);
    case MarkError(t) => MarkErrorKeeps(w, a, t);
  }

  lemma BankKeeps(w: World, a: nat, i: Input)
    requires Inv(w) && a in w.actors && IsBank(w.actors[a])
    ensures StepBank(w, a, w.actors[a], i) in Safe(w, a)
  {
    match w.actors[a]
    case SavePaymentId(t, p) => SavePaymentIdKeeps(w, a, t, p);
    case DropUsage(t) => DropUsageKeeps(w, a, t);
    case RefuseTx(t, p) => RefuseTxKeeps(w, a, t, p);
    case ConfirmTx(t, payer, p) => ConfirmTxKeeps(w, a, t, payer, p);
    case Poll(picks, tick) => PollKeeps(w, a, picks, tick, i);
    case PollConfirm(pick, picks, tick) => PollConfirmKeeps(w, a, pick, picks, tick);
  }

  lemma CreateKeeps(w: World, a: nat, i: Input)
    requires Inv(w) && a in w.actors && IsCreate(w.actors[a]) && InputOk(w, w.actors[a], i)
    ensures StepCreate(w, a, w.actors[a], i) in Safe(w, a)
  {
    match w.actors[a]
    case ReadUsage(t) => ReadUsageKeeps(w, a, t);
    case ApplyUsage(t, p, limit, agent, credit) => ApplyUsageKeeps(w, a, t, p, limit, agent, credit, i);
    case ReadOrder(t, rest, batch) => ReadOrderKeeps(w, a, t, rest, batch, i);
    case Provision(r) => ProvisionKeeps(w, a, r, i);
  }

  lemma JoyTelKeeps(w: World, a: nat, i: Input)
    requires Inv(w) && a in w.actors && IsJoyTel(w.actors[a])
    ensures StepJoyTel(w, a, w.actors[a], i) in Safe(w, a)
  {
    match w.actors[a]
    case JoySubmit(x, r) => JoySubmitKeeps(w, a, x, r, i);
    case JoyAccept(x, ticket, r) => JoyAcceptKeeps(w, a, x, ticket, r);
    case JoyQuery(x, r) => JoyQueryKeeps(w, a, x, r, i);
    case JoyClaim(x, pin, r) => JoyClaimKeeps(w, a, x, pin, r);
    case JoyQr(x, r) => JoyQrKeeps(w, a, x, r);
    case JoyFail(x, r) => FailKeeps(w, a, x, r);
  }

  lemma BillionKeeps(w: World, a: nat, i: Input)
    requires Inv(w) && a in w.actors && IsBillion(w.actors[a])
    ensures StepBillion(w, a, w.actors[a], i) in Safe(w, a)
  {
    match w.actors[a]
    case BcSubmit(x, r) => BcSubmitKeeps(w, a, x, r, i);
    case BcAccept(x, r) => BcAcceptKeeps(w, a, x, r);
    case BcFail(x, r) => FailKeeps(w, a, x, r);
  }

  lemma MobilineKeeps(w: World, a: nat, i: Input)
    requires Inv(w) && a in w.actors && IsMobiline(w.actors[a])
    ensures StepMobiline(w, a, w.actors[a], i) in Safe(w, a)
  {
    match w.actors[a]
    case MobSubmit(x, r) => MobSubmitKeeps(w, a, x, r, i);
    case MobAnswer(x, accepted, r) => MobAnswerKeeps(w, a, x, accepted, r);
    case MobCheck(x, r) => MobCheckKeeps(w, a, x, r);
  }

  lemma CouponCallbackKeeps(w: World, a: nat)
    requires Inv(w) && a in w.actors && IsCouponCallback(w.actors[a])
    ensures StepCouponCallback(w, a, w.actors[a]) in Safe(w, a)
  {
    match w.actors[a]
    case JoyPinCallback(x, pin) => JoyPinCallbackKeeps(w, a, x, pin);
    case JoyPinQr(x) => JoyPinQrKeeps(w, a, x);
    case JoyQrCallback(x, iccid, qrcode) => CompleteKeeps(w, a, x, iccid, qrcode);
  }

  lemma EsimCallbackKeeps(w: World, a: nat)
    requires Inv(w) && a in w.actors && IsEsimCallback(w.actors[a])
    ensures StepEsimCallback(w, a, w.actors[a]) in Safe(w, a)
  {
    match w.actors[a]
    case BcCallback(x, iccid, qrcode) => CompleteKeeps(w, a, x, iccid, qrcode);
    case MobCallback(x, success, iccid, qrcode) => MobCallbackKeeps(w, a, x, success, iccid, qrcode);
    case MobDeliver(x) => DeliverKeeps(w, a, x);
    case EsimDeliver(x) => DeliverKeeps(w, a, x);
  }

  lemma StepSafe(w: World, a: nat, i: Input)
    requires Inv(w) && a in w.actors && InputOk(w, w.actors[a], i)
    ensures Step(w, a, i) in Safe(w, a)
  {
    if IsCheckout(w.actors[a]) {
      CheckoutKeeps(w, a, i);
    } else if IsBank(w.actors[a]) {
      BankKeeps(w, a, i);
    } else if IsCreate(w.actors[a]) {
      CreateKeeps(w, a, i);
    } else if IsJoyTel(w.actors[a]) {
      JoyTelKeeps(w, a, i);
    } else if IsBillion(w.actors[a]) {
      BillionKeeps(w, a, i);
    } else if IsMobiline(w.actors[a]) {
      MobilineKeeps(w, a, i);
    } else if IsCouponCallback(w.actors[a]) {
      CouponCallbackKeeps(w, a);
    } else if IsEsimCallback(w.actors[a]) {
      EsimCallbackKeeps(w, a);
    } else if w.actors[a].Stale? {
      StaleKeeps(w, a, w.actors[a].list);
    } else if w.actors[a].StaleUsages? {
      StaleUsagesKeeps(w, a, w.actors[a].txs, w.actors[a].list);
    } else {
      Stays(w, a);
    }
  }

  // The actor an event moves or starts.
  function MoverOf(w: World, e: Event): nat {
    if e.Move? then e.actor else w.nextActor
  }

  lemma NextSafe(w: World, e: Event)
    requires Inv(w) && Enabled(w, e)
    ensures Next(w, e) in Safe(w, MoverOf(w, e))
  {
    NewActor(w);
    match e
    case Move(a, i) => StepSafe(w, a, i);
    case Checkout(user, units, offer) => CheckoutStarts(w, user, units, offer);
    case BankRefuses(t, p) => if t in w.txs { BankStarts(w, t, p); } else { Stays(w, w.nextActor); }
    case BankConfirms(t, p) => if t in w.txs { BankStarts(w, t, p); } else { Stays(w, w.nextActor); }
    case PollTick(picks) => PollStarts(w, picks);
    case RecoveryTick(batch) => RecoveryStarts(w, batch);
    case StaleTick(list) => StaleStarts(w, list);
    case JoyPinReady(_, _, _) => CallbacksStart(w, e);
    case JoyQrReady(_, _, _, _) => CallbacksStart(w, e);
    case BcDone(_, _, _) => CallbacksStart(w, e);
    case MobDone(x, _, body) => MobCallbackStarts(w, x, body);
  }

  /** Every event, whoever moves and whatever the world answers, keeps the invariant. */
  lemma NextKeeps(w: World, e: Event)
    requires Inv(w) && Enabled(w, e)
    ensures Inv(Next(w, e))
  {
    NextSafe(w, e);
    SafeMeans(w, Next(w, e), MoverOf(w, e));
  }

  lemma InitialInv(w: World)
    requires Initial(w)
    ensures Inv(w)
  {
    forall p | p in w.promos ensures PromoOk(w, p) {
      assert ConfirmedOf(w.usages, p) == {};
    }
    assert Successes(w) == {};
    FoldTables(w);
    Fold(w);
  }

  /** Every world an allowed run reaches satisfies the invariant. */
  lemma {:induction false} RunKeeps(w: World, es: seq<Event>)
    requires Inv(w) && Allowed(w, es)
    ensures Inv(Exec(w, es))
    decreases |es|
  {
    if es != [] {
      NextKeeps(w, es[0]);
      RunKeeps(Next(w, es[0]), es[1..]);
    }
  }
}
