/** Where the values in the tables come from: each is traced back to the event of the run that brought it. */
module Causes {
  import opened Tables
  import opened Correlation
  import opened Protocol
  import opened Invariant
  import opened SimSteps
  import opened Machine
  import opened Safety
  import opened Answers
  import opened ProviderAnswers
  import opened Cancellations

  /** Something an event of the run must have said. */
  datatype Cause =
    | Confirmed(tx: nat)                       // the bank confirmed the payment
    | Refused(tx: nat)                         // the bank refused it
    | NotOpened(tx: nat)                       // Init failed
    | Withdrawn(tx: nat)                       // the stale-order job gave its order up
    | Identified(tx: nat, paymentId: nat)      // the bank named it so
    | Accepted(sim: nat, ticket: Ticket)       // JoyTel took the submission, with these order ids
    | Given(sim: nat, coupon: string)          // JoyTel gave the coupon
    | Issued(sim: nat, provider: Provider, iccid: Option<string>, qrcode: Option<string>)
    | Turned(sim: nat, status: Status)

  // The webhook says CONFIRMED, or the bank does when the poll asks about the transaction.
  predicate ConfirmedNow(w: World, e: Event, t: nat) {
    || (e.BankConfirms? && e.tx == t)
    || (e.Move? && e.input == BankSaysConfirmed && e.actor in w.actors
        && w.actors[e.actor].Poll? && w.actors[e.actor].picks != [] && w.actors[e.actor].picks[0].tx == t)
  }

  predicate IdentifiedNow(w: World, e: Event, t: nat, p: nat) {
    || (e.BankConfirms? && e.tx == t && e.paymentId == p)
    || (e.BankRefuses? && e.tx == t && e.paymentId == p)
    || (e.Move? && e.input == InitAccepted(Some(p)) && Stands(w, e.actor, InitPayment(t)))
  }

  predicate IssuedNow(e: Event, x: nat, p: Provider, iccid: Option<string>, qrcode: Option<string>) {
    match p
    case JoyTel => e.JoyQrReady? && e.sim == x && e.iccid == iccid && e.qrcode == qrcode
    case BillionConnect => e.BcDone? && e.sim == x && e.iccid == iccid && e.qrcode == qrcode
    case Mobiline =>
      e.MobDone? && e.sim == x && e.body.success && e.body.cid == iccid && e.body.qrcode == qrcode
    case OtherProvider => false
  }

  // The call the event moves works on the SIM `x`.
  predicate MovesAt(w: World, e: Event, x: nat) {
    e.Move? && e.actor in w.actors && OnSim(w.actors[e.actor]) && w.actors[e.actor].sim == x
  }

  // The activation of the SIM, which is next on the list of a run, cannot be built.
  predicate UnbuiltNow(w: World, e: Event, x: nat) {
    && e.Move? && e.actor in w.actors && w.actors[e.actor].Provision?
    && w.actors[e.actor].run.todo != [] && w.actors[e.actor].run.todo[0] == x
    && x in w.sims && w.sims[x].provider == Mobiline && !(e.input.Configured? && |e.input.stamp| == 14)
  }

  // The stale-order job is at the order of the SIM: it is CREATED, and no transaction of it is paid.
  predicate WithdrawnNow(w: World, e: Event, o: nat) {
    && e.Move? && e.actor in w.actors && w.actors[e.actor].Stale?
    && w.actors[e.actor].list != [] && w.actors[e.actor].list[0].order == o
    && o in w.orders && w.orders[o].status == Created
    && forall t | t in w.txs && w.txs[t].order == Some(o) :: w.txs[t].status !in {TxSuccess, TxWaiting}
  }

  predicate TurnedNow(w: World, e: Event, x: nat, status: Status) {
    match status
    case RedeemCoupon => MovesAt(w, e, x) && w.actors[e.actor].JoySubmit? && e.input.JoyAccepted?
    case NotifyCoupon =>
      || (e.JoyPinReady? && e.sim == x)
      || (MovesAt(w, e, x) && w.actors[e.actor].JoyQuery? && e.input.PinReady?)
      || (MovesAt(w, e, x) && w.actors[e.actor].BcSubmit? && e.input == BcAccepted)
      || (MovesAt(w, e, x) && w.actors[e.actor].MobSubmit? && e.input == MobReply(true))
    case Completed =>
      ((e.JoyQrReady? || e.BcDone?) && e.sim == x) || (e.MobDone? && e.sim == x && e.body.success)
    case Failed =>
      || (MovesAt(w, e, x) && w.actors[e.actor].JoySubmit? && !e.input.JoyAccepted?)
      || (MovesAt(w, e, x) && w.actors[e.actor].BcSubmit? && e.input != BcAccepted)
      || (MovesAt(w, e, x) && w.actors[e.actor].MobSubmit? && e.input == MobReply(false))
      || (e.MobDone? && e.sim == x && !e.body.success)
      || UnbuiltNow(w, e, x) || (x in w.sims && WithdrawnNow(w, e, w.sims[x].order))
    case _ => false
  }

  /** Whether the event says so. */
  predicate Now(c: Cause, w: World, e: Event) {
    match c
    case Confirmed(t) => ConfirmedNow(w, e, t)
    case Refused(t) => e.BankRefuses? && e.tx == t
    case NotOpened(t) => e.Move? && !e.input.InitAccepted? && Stands(w, e.actor, InitPayment(t))
    case Withdrawn(t) => t in w.txs && w.txs[t].order.Some? && WithdrawnNow(w, e, w.txs[t].order.value)
    case Identified(t, p) => IdentifiedNow(w, e, t, p)
    case Accepted(x, ticket) =>
      e.Move? && e.input == JoyAccepted(ticket) && e.actor in w.actors
      && w.actors[e.actor].JoySubmit? && w.actors[e.actor].sim == x
    case Given(x, coupon) =>
      || (e.JoyPinReady? && e.sim == x && e.pin == Some(coupon))
      || (e.Move? && e.input == PinReady(Some(coupon)) && e.actor in w.actors
          && w.actors[e.actor].JoyQuery? && w.actors[e.actor].sim == x)
    case Issued(x, p, iccid, qrcode) => IssuedNow(e, x, p, iccid, qrcode)
    case Turned(x, status) => TurnedNow(w, e, x, status)
  }

  predicate Sometime(c: Cause, w: World, es: seq<Event>)
    requires Allowed(w, es)
    decreases |es|
  {
    es != [] && (Now(c, w, es[0]) || Sometime(c, Next(w, es[0]), es[1..]))
  }

  // ---------- what the world shows of a cause ----------

  // A row shows that it has happened.
  predicate RowShows(c: Cause, w: World) {
    match c
    case Confirmed(t) => t in w.txs && w.txs[t].status == TxSuccess
    case Refused(t) => t in w.txs && w.txs[t].status == TxFailed
    case NotOpened(t) => t in w.txs && w.txs[t].status == TxError
    case Withdrawn(t) => t in w.txs && w.txs[t].status == TxCanceled
    case Identified(t, p) => t in w.txs && w.txs[t].paymentId == Some(p)
    case Accepted(x, ticket) => x in w.sims && w.sims[x].ticket == Some(ticket)
    case Given(x, coupon) => x in w.sims && w.sims[x].snPin == Some(coupon)
    case Issued(x, p, iccid, qrcode) =>
      && x in w.sims && w.sims[x].provider == p && w.sims[x].iccid == iccid && w.sims[x].qrcode == qrcode
      && (w.sims[x].status == Completed || iccid.Some? || qrcode.Some?)
    case Turned(x, status) => status !in {Created, Pending} && x in w.sims && w.sims[x].status == status
  }

  predicate CarriesStatus(actor: Actor, x: nat, status: Status) {
    OnSim(actor) && actor.sim == x
    && match status
       case RedeemCoupon => actor.JoyAccept?
       case NotifyCoupon =>
         actor.JoyClaim? || actor.JoyPinCallback? || actor.BcAccept? || (actor.MobAnswer? && actor.accepted)
       case Completed => actor.JoyQrCallback? || actor.BcCallback? || (actor.MobCallback? && actor.success)
       case Failed =>
         || actor.JoyFail? || actor.BcFail?
         || (actor.MobAnswer? && !actor.accepted) || (actor.MobCallback? && !actor.success)
       case _ => false
  }

  // A call carries it to the row.
  predicate Carries(actor: Actor, c: Cause) {
    match c
    case Confirmed(t) => Pays(actor, t)
    case Refused(t) => actor.RefuseTx? && actor.tx == t
    case NotOpened(t) => actor == MarkError(t)
    case Withdrawn(t) => false
    case Identified(t, p) =>
      Brings(actor, t, p) || ((actor.Poll? || actor.PollConfirm?) && Names(actor.picks, t, p))
    case Accepted(x, ticket) => actor.JoyAccept? && actor.sim == x && actor.ticket == ticket
    case Given(x, coupon) =>
      (actor.JoyClaim? || actor.JoyPinCallback?) && actor.sim == x && actor.pin == Some(coupon)
    case Issued(x, p, iccid, qrcode) =>
      && (p == JoyTel ==> actor.JoyQrCallback?) && (p == BillionConnect ==> actor.BcCallback?)
      && (p == Mobiline ==> actor.MobCallback?) && p != OtherProvider && BringsEsim(actor, x, iccid, qrcode)
    case Turned(x, status) => CarriesStatus(actor, x, status)
  }

  predicate Names(picks: seq<Pick>, t: nat, p: nat) {
    exists k | k in picks :: k.tx == t && k.paymentId == p
  }

  ghost predicate Shows(c: Cause, w: World) {
    RowShows(c, w) || exists a | a in w.actors :: Carries(w.actors[a], c)
  }

  // ---------- rows ----------

  predicate OfTx(c: Cause) {
    c.Confirmed? || c.Refused? || c.NotOpened? || c.Identified?
  }

  lemma TxComes(c: Cause, w: World, e: Event)
    requires Inv(w) && Enabled(w, e) && OfTx(c) && RowShows(c, Next(w, e))
    ensures RowShows(c, w) || Carries(Mover(w, MoverOf(w, e)), c)
  {
    TxTraced(w, e, c.tx);
  }

  lemma SimComes(c: Cause, w: World, e: Event)
    requires Inv(w) && Enabled(w, e) && (c.Accepted? || c.Given?) && RowShows(c, Next(w, e))
    ensures RowShows(c, w) || Carries(Mover(w, MoverOf(w, e)), c)
  {
    SimWritten(w, e, c.sim);
  }

  lemma EsimComes(c: Cause, w: World, e: Event)
    requires Inv(w) && Enabled(w, e) && c.Issued? && RowShows(c, Next(w, e))
    ensures RowShows(c, w) || Carries(Mover(w, MoverOf(w, e)), c)
  {
    SimWritten(w, e, c.sim);
    NewActor(w);
    if e.Move? {
      BringerKnows(w, e.actor, c.sim, c.iccid, c.qrcode);
    }
  }

  // Each provider's callback comes for its own SIMs.
  lemma BringerKnows(w: World, a: nat, x: nat, iccid: Option<string>, qrcode: Option<string>)
    requires Inv(w) && a in w.actors
    ensures BringsEsim(w.actors[a], x, iccid, qrcode) ==>
              && x in w.sims
              && w.sims[x].provider == (if w.actors[a].JoyQrCallback? then JoyTel
                                        else if w.actors[a].BcCallback? then BillionConnect else Mobiline)
  {
    AtActor(w, a);
  }

  lemma BuiltIsNotFailed(w: World, a: nat, i: Input, x: nat)
    requires Inv(w) && a in w.actors && w.actors[a].Provision? && w.actors[a].run.todo != []
    requires w.actors[a].run.todo[0] == x && x in w.sims && w.sims[x].provider == Mobiline
    requires i.Configured? && |i.stamp| == 14 && w.sims[x].status != Failed
    ensures x in Step(w, a, i).sims && Step(w, a, i).sims[x].status != Failed
  {
    ClaimDecides(w, a, w.actors[a].run, i);
  }

  // A new row is CREATED; a FAILED one was refused, withdrawn, or not built.
  lemma TurnComes(w: World, e: Event, x: nat, status: Status)
    requires Inv(w) && Enabled(w, e) && RowShows(Turned(x, status), Next(w, e)) && !RowShows(Turned(x, status), w)
    ensures CarriesStatus(Mover(w, MoverOf(w, e)), x, status) || (status == Failed && FailsNow(w, e, x))
  {
    SimWritten(w, e, x);
  }

  predicate FailsNow(w: World, e: Event, x: nat) {
    && x in w.sims && w.sims[x].status != Failed
    && var actor := Mover(w, MoverOf(w, e));
       || (actor.Stale? && actor.list != [] && actor.list[0].order == w.sims[x].order)
       || (actor.Provision? && actor.run.todo != [] && actor.run.todo[0] == x && w.sims[x].provider == Mobiline)
  }

  lemma FailsByCause(w: World, e: Event, x: nat)
    requires Inv(w) && Enabled(w, e) && FailsNow(w, e, x) && x in Next(w, e).sims && Next(w, e).sims[x].status == Failed
    ensures UnbuiltNow(w, e, x) || WithdrawnNow(w, e, w.sims[x].order)
  {
    NewActor(w);
    var actor := w.actors[e.actor];
    if actor.Provision? {
      if e.input.Configured? && |e.input.stamp| == 14 {
        BuiltIsNotFailed(w, e.actor, e.input, x);
      }
    } else {
      if !Cancels(w, w.sims[x].order) {
        PassMoves(w, e.actor, e.input);
      }
    }
  }

  lemma PassedOrder(w: World, a: nat, i: Input)
    requires a in w.actors && w.actors[a].Stale? && w.actors[a].list != []
    requires !Cancels(w, w.actors[a].list[0].order)
    ensures Step(w, a, i).txs == w.txs
  {
    PassMoves(w, a, i);
  }

  lemma WithdrawnComes(w: World, e: Event, t: nat)
    requires Inv(w) && Enabled(w, e) && RowShows(Withdrawn(t), Next(w, e))
    ensures RowShows(Withdrawn(t), w) || Now(Withdrawn(t), w, e)
  {
    TxTraced(w, e, t);
    NewActor(w);
    if !RowShows(Withdrawn(t), w) && !Cancels(w, w.actors[e.actor].list[0].order) {
      PassedOrder(w, e.actor, e.input);
    }
  }

  lemma RowComes(c: Cause, w: World, e: Event)
    requires Inv(w) && Enabled(w, e) && RowShows(c, Next(w, e))
    ensures RowShows(c, w) || Carries(Mover(w, MoverOf(w, e)), c) || Now(c, w, e)
  {
    if OfTx(c) {
      TxComes(c, w, e);
    } else if c.Withdrawn? {
      WithdrawnComes(w, e, c.tx);
    } else if c.Issued? {
      EsimComes(c, w, e);
    } else if c.Turned? {
      if !RowShows(c, w) {
        TurnComes(w, e, c.sim, c.status);
        if FailsNow(w, e, c.sim) && c.status == Failed {
          FailsByCause(w, e, c.sim);
        }
      }
    } else {
      SimComes(c, w, e);
    }
  }

  // ---------- calls ----------

  // A call that goes on, of checkout or of the bank's answers.
  lemma PollCarries(c: Cause, w: World, a: nat, i: Input)
    requires Inv(w) && a in w.actors && OfTx(c) && (w.actors[a].Poll? || w.actors[a].PollConfirm?)
    requires a in Step(w, a, i).actors && Carries(Step(w, a, i).actors[a], c)
    ensures Now(c, w, Move(a, i)) || Carries(w.actors[a], c)
  {
    if w.actors[a].PollConfirm? {
      PollConfirmPays(w, a, i);
    } else if w.actors[a].picks != [] {
      PollAsks(w, a, i);
    } else {
      PollEnds(w, a, i);
    }
  }

  lemma PollEnds(w: World, a: nat, i: Input)
    requires a in w.actors && w.actors[a].Poll? && w.actors[a].picks == []
    ensures Stands(Step(w, a, i), a, Finished({}))
  {
  }

  lemma InitCarries(c: Cause, w: World, a: nat, i: Input)
    requires a in w.actors && OfTx(c) && w.actors[a].InitPayment?
    requires a in Step(w, a, i).actors && Carries(Step(w, a, i).actors[a], c)
    ensures Now(c, w, Move(a, i))
  {
    InitAsks(w, a, i);
  }

  lemma JoyCarries(c: Cause, w: World, a: nat, i: Input)
    requires Inv(w) && a in w.actors && !OfTx(c) && (w.actors[a].JoySubmit? || w.actors[a].JoyQuery?)
    requires a in Step(w, a, i).actors && Carries(Step(w, a, i).actors[a], c)
    ensures Now(c, w, Move(a, i))
  {
    if w.actors[a].JoySubmit? {
      SimOf(w, a);
      JoySubmits(w, a, w.actors[a].sim, w.actors[a].run, i);
    } else {
      JoyQueries(w, a, w.actors[a].sim, w.actors[a].run, i);
    }
  }

  lemma SubmissionCarries(c: Cause, w: World, a: nat, i: Input)
    requires Inv(w) && a in w.actors && !OfTx(c) && (w.actors[a].BcSubmit? || w.actors[a].MobSubmit?)
    requires a in Step(w, a, i).actors && Carries(Step(w, a, i).actors[a], c)
    ensures Now(c, w, Move(a, i))
  {
    SimOf(w, a);
    if w.actors[a].BcSubmit? {
      BcSubmits(w, a, w.actors[a].sim, w.actors[a].run, i);
    } else {
      MobSubmits(w, a, w.actors[a].sim, w.actors[a].run, i);
    }
  }

  lemma MoveCarries(c: Cause, w: World, a: nat, i: Input)
    requires Inv(w) && Enabled(w, Move(a, i)) && a in Step(w, a, i).actors && Carries(Step(w, a, i).actors[a], c)
    ensures Now(c, w, Move(a, i)) || Carries(w.actors[a], c)
  {
    EventFrames(w, Move(a, i));
    var me := w.actors[a];
    if OfTx(c) {
      if me.InitPayment? {
        InitCarries(c, w, a, i);
      } else {
        PollCarries(c, w, a, i);
      }
    } else if me.JoySubmit? || me.JoyQuery? {
      JoyCarries(c, w, a, i);
    } else {
      SubmissionCarries(c, w, a, i);
    }
  }

  // A call that starts brings what its event says; the poll knows what its query returned.
  lemma PollStartCarries(c: Cause, w: World, picks: seq<Pick>)
    requires Inv(w) && Enabled(w, PollTick(picks)) && Carries(Poll(picks, |w.polls|), c)
    ensures RowShows(c, w)
  {
    var k :| k in picks && k.tx == c.tx && k.paymentId == c.paymentId;
    assert PollRow(w, k);
  }

  lemma BankStartCarries(c: Cause, w: World, e: Event)
    requires Inv(w) && Enabled(w, e) && (e.BankRefuses? || e.BankConfirms?) && w.nextActor in Next(w, e).actors
    requires Carries(Next(w, e).actors[w.nextActor], c)
    ensures Now(c, w, e)
  {
    NewActor(w);
  }

  lemma CallbackStartCarries(c: Cause, w: World, e: Event)
    requires Enabled(w, e) && (e.JoyPinReady? || e.JoyQrReady? || e.BcDone? || e.MobDone?)
    requires w.nextActor in Next(w, e).actors && Carries(Next(w, e).actors[w.nextActor], c)
    ensures Now(c, w, e)
  {
  }

  lemma OthersCarryNothing(c: Cause, w: World, e: Event)
    requires Enabled(w, e) && (e.Checkout? || e.RecoveryTick? || e.StaleTick?) && w.nextActor in Next(w, e).actors
    ensures !Carries(Next(w, e).actors[w.nextActor], c)
  {
  }

  lemma StartCarries(c: Cause, w: World, e: Event)
    requires Inv(w) && Enabled(w, e) && !e.Move? && w.nextActor in Next(w, e).actors
    requires Carries(Next(w, e).actors[w.nextActor], c)
    ensures Now(c, w, e) || RowShows(c, w)
  {
    match e
    case PollTick(picks) => PollStartCarries(c, w, picks);
    case BankRefuses(_, _) => BankStartCarries(c, w, e);
    case BankConfirms(_, _) => BankStartCarries(c, w, e);
    case JoyPinReady(_, _, _) => CallbackStartCarries(c, w, e);
    case JoyQrReady(_, _, _, _) => CallbackStartCarries(c, w, e);
    case BcDone(_, _, _) => CallbackStartCarries(c, w, e);
    case MobDone(_, _, _) => CallbackStartCarries(c, w, e);
    case _ => OthersCarryNothing(c, w, e);
  }

  lemma ActorComes(c: Cause, w: World, e: Event, a: nat)
    requires Inv(w) && Enabled(w, e) && a in Next(w, e).actors && Carries(Next(w, e).actors[a], c)
    ensures Shows(c, w) || Now(c, w, e)
  {
    EventFrames(w, e);
    if a in w.actors {
      if e.Move? && e.actor == a {
        MoveCarries(c, w, a, e.input);
      } else {
        OthersWait(w, e, a);
      }
    } else if !e.Move? {
      OneStarts(w, e, a);
      StartCarries(c, w, e);
    }
  }

  lemma MoverShows(c: Cause, w: World, e: Event)
    requires Inv(w) && Enabled(w, e) && Carries(Mover(w, MoverOf(w, e)), c)
    ensures Shows(c, w)
  {
    NewActor(w);
    assert MoverOf(w, e) in w.actors;
  }

  lemma EventShows(c: Cause, w: World, e: Event)
    requires Inv(w) && Enabled(w, e) && Shows(c, Next(w, e))
    ensures Shows(c, w) || Now(c, w, e)
  {
    if RowShows(c, Next(w, e)) {
      RowComes(c, w, e);
      if Carries(Mover(w, MoverOf(w, e)), c) {
        MoverShows(c, w, e);
      }
    } else {
      var a :| a in Next(w, e).actors && Carries(Next(w, e).actors[a], c);
      ActorComes(c, w, e, a);
    }
  }

  /** Nothing shows after a run that did not show before and that no event of the run has said. */
  lemma {:induction false} NothingWithoutCause(c: Cause, w: World, es: seq<Event>)
    requires Inv(w) && Allowed(w, es) && Shows(c, Exec(w, es))
    ensures Shows(c, w) || Sometime(c, w, es)
    decreases |es|
  {
    if es != [] {
      NextKeeps(w, es[0]);
      NothingWithoutCause(c, Next(w, es[0]), es[1..]);
      if Shows(c, Next(w, es[0])) {
        EventShows(c, w, es[0]);
      }
    }
  }

  lemma FromTheRun(c: Cause, w: World, es: seq<Event>)
    requires Initial(w) && Allowed(w, es) && RowShows(c, Exec(w, es))
    ensures Sometime(c, w, es)
  {
    InitialInv(w);
    NothingWithoutCause(c, w, es);
  }

  // ---------- in every run ----------

  /** A transaction is SUCCESS only if the run holds a webhook CONFIRMED for it, or the answer CONFIRMED when a poll
      asked about it; FAILED only if it holds a refusal of it; ERROR only if its Init failed; and CANCELED only if
      the stale-order job found its order CREATED and unpaid. It has no other status but PENDING. */
  lemma TransactionStatusHasCause(w: World, es: seq<Event>, t: nat)
    requires Initial(w) && Allowed(w, es) && t in Exec(w, es).txs
    ensures match Exec(w, es).txs[t].status
            case TxPending => true
            case TxSuccess => Sometime(Confirmed(t), w, es)
            case TxFailed => exists e | e in es :: e.BankRefuses? && e.tx == t
            case TxError => Sometime(NotOpened(t), w, es)
            case TxCanceled => Sometime(Withdrawn(t), w, es)
            case _ => false
  {
    Reached(w, es);
    AtTx(Exec(w, es), t);
    match Exec(w, es).txs[t].status
    case TxSuccess => FromTheRun(Confirmed(t), w, es);
    case TxFailed =>
      FromTheRun(Refused(t), w, es);
      var e := TheEvent(Refused(t), w, es);
    case TxError => FromTheRun(NotOpened(t), w, es);
    case TxCanceled => FromTheRun(Withdrawn(t), w, es);
    case _ =>
  }

  // An event that says so whatever the world is.
  lemma {:induction false} TheEvent(c: Cause, w: World, es: seq<Event>) returns (e: Event)
    requires Allowed(w, es) && (c.Refused? || c.Issued?) && Sometime(c, w, es)
    ensures e in es && Now(c, w, e)
    decreases |es|
  {
    e := es[0];
    if !Now(c, w, e) {
      e := TheEvent(c, Next(w, es[0]), es[1..]);
    }
  }

  /** The payment id of a transaction is one that the bank gave it: in its answer to Init, or in a webhook. */
  lemma PaymentIdIsGiven(w: World, es: seq<Event>, t: nat, p: nat)
    requires Initial(w) && Allowed(w, es) && t in Exec(w, es).txs && Exec(w, es).txs[t].paymentId == Some(p)
    ensures Sometime(Identified(t, p), w, es)
  {
    FromTheRun(Identified(t, p), w, es);
  }

  /** A COMPLETED SIM, or one that has an ICCID or a QR at all, has both from one callback of its provider in the run:
      the ICCID and the QR are those of the callback, and none is swapped or mixed with those of another. */
  lemma EsimIsFromCallback(w: World, es: seq<Event>, x: nat)
    requires Initial(w) && Allowed(w, es) && x in Exec(w, es).sims
    requires var s := Exec(w, es).sims[x]; s.status == Completed || s.iccid.Some? || s.qrcode.Some?
    ensures var s := Exec(w, es).sims[x];
            match s.provider
            case Mobiline =>
              exists e | e in es ::
                e.MobDone? && e.sim == x && e.body.success && s.iccid == e.body.cid && s.qrcode == e.body.qrcode
            case JoyTel =>
              exists e | e in es :: e.JoyQrReady? && e.sim == x && s.iccid == e.iccid && s.qrcode == e.qrcode
            case BillionConnect =>
              exists e | e in es :: e.BcDone? && e.sim == x && s.iccid == e.iccid && s.qrcode == e.qrcode
            case OtherProvider => false
  {
    var s := Exec(w, es).sims[x];
    FromTheRun(Issued(x, s.provider, s.iccid, s.qrcode), w, es);
    var e := TheEvent(Issued(x, s.provider, s.iccid, s.qrcode), w, es);
  }

  /** The order ids of a SIM are those with which JoyTel took its submission, and its coupon is one that JoyTel gave
      for it, to the proactive query or in a callback. */
  lemma CodesAreGiven(w: World, es: seq<Event>, x: nat)
    requires Initial(w) && Allowed(w, es) && x in Exec(w, es).sims
    ensures var s := Exec(w, es).sims[x];
            && (s.ticket.Some? ==> Sometime(Accepted(x, s.ticket.value), w, es))
            && (s.snPin.Some? ==> Sometime(Given(x, s.snPin.value), w, es))
  {
    var s := Exec(w, es).sims[x];
    if s.ticket.Some? {
      FromTheRun(Accepted(x, s.ticket.value), w, es);
    }
    if s.snPin.Some? {
      FromTheRun(Given(x, s.snPin.value), w, es);
    }
  }

  /** A SIM is REDEEM_COUPON, NOTIFY_COUPON, COMPLETED or FAILED only after an answer or a callback that says so; or
      FAILED because its activation could not be built or its order was given up unpaid. */
  lemma SimStatusHasCause(w: World, es: seq<Event>, x: nat)
    requires Initial(w) && Allowed(w, es) && x in Exec(w, es).sims
    ensures Exec(w, es).sims[x].status in {Created, Pending} || Sometime(Turned(x, Exec(w, es).sims[x].status), w, es)
  {
    if Exec(w, es).sims[x].status !in {Created, Pending} {
      FromTheRun(Turned(x, Exec(w, es).sims[x].status), w, es);
    }
  }
}
