/** What the providers' answers and callbacks decide about a SIM: the columns the call that got them writes with
    its next move, whatever all others do meanwhile. */
module ProviderAnswers {
  import opened Tables
  import opened Correlation
  import opened Protocol
  import opened Invariant
  import opened SimSteps
  import opened Machine
  import opened Safety
  import opened Answers

  // The row of the SIM becomes `s`, no other row changes, and the call stands at `next`.
  ghost predicate Writes(w: World, w': World, a: nat, x: nat, s: Sim, next: Actor) {
    x in w.sims && w'.sims == w.sims[x := s] && Stands(w', a, next)
  }

  ghost predicate LeavesSims(w: World, w': World, a: nat, next: Actor) {
    w'.sims == w.sims && Stands(w', a, next)
  }

  // ---------- the claim ----------

  lemma RunKnows(w: World, a: nat, r: Run)
    requires Inv(w) && a in w.actors && w.actors[a] == Provision(r) && r.todo != []
    ensures r.todo[0] in w.sims && w.sims[r.todo[0]].order == r.order && Supported(w.sims[r.todo[0]].provider)
  {
    AtActor(w, a);
    assert r.todo[0] in r.todo;
    AtSim(w, r.todo[0]);
  }

  lemma MobClaimWrites(w: World, a: nat, x: nat, r: Run, i: Input)
    requires x in w.sims && w.sims[x].status == Created
    ensures var s, w' := w.sims[x], StepMobClaim(w, a, x, r, i);
            if i.Configured? && |i.stamp| == 14 then
              var id := ChannelOrderId(w.group, i.stamp, x);
              Writes(w, w', a, x, s.(status := Pending, channelId := Some(id), owner := Some(a)), MobSubmit(x, r))
            else Writes(w, w', a, x, s.(status := Failed), Provision(r.(failed := true)))
  {
  }

  lemma MobClaimPasses(w: World, a: nat, x: nat, r: Run, i: Input)
    requires x in w.sims && w.sims[x].status != Created
    ensures LeavesSims(
              w, StepMobClaim(w, a, x, r, i), a,
              Provision(r.(failed := r.failed || !(i.Configured? && |i.stamp| == 14))))
  {
  }

  lemma ClaimWrites(w: World, a: nat, x: nat, r: Run, i: Input)
    requires x in w.sims && w.sims[x].provider in {JoyTel, BillionConnect}
    ensures var w' := StepClaim(w, a, x, r, i);
            if w.sims[x].status == Created then
              Writes(w, w', a, x, w.sims[x].(status := Pending, owner := Some(a)),
                     if w.sims[x].provider == JoyTel then JoySubmit(x, r) else BcSubmit(x, r))
            else LeavesSims(w, w', a, Provision(r))
  {
  }

  /** A run of create takes the SIMs of its list one after the other. It claims one of JoyTel or BillionConnect
      that is still CREATED, and submits it next; one of Mobiline only with the activation built, whose id is
      that of the SIM, and makes it FAILED if it cannot be built. A SIM that is not CREATED any more is left as
      it is. */
  lemma ClaimDecides(w: World, a: nat, r: Run, i: Input)
    requires Inv(w) && a in w.actors && w.actors[a] == Provision(r) && r.todo != []
    ensures var x, r', w' := r.todo[0], r.(todo := r.todo[1..]), Step(w, a, i);
            && x in w.sims
            && var s, built := w.sims[x], i.Configured? && |i.stamp| == 14;
            match s.provider
            case JoyTel =>
              if s.status == Created
              then Writes(w, w', a, x, s.(status := Pending, owner := Some(a)), JoySubmit(x, r'))
              else LeavesSims(w, w', a, Provision(r'))
            case BillionConnect =>
              if s.status == Created
              then Writes(w, w', a, x, s.(status := Pending, owner := Some(a)), BcSubmit(x, r'))
              else LeavesSims(w, w', a, Provision(r'))
            case Mobiline =>
              if s.status != Created
              then LeavesSims(w, w', a, Provision(r'.(failed := r.failed || !built)))
              else if built then
                var id := ChannelOrderId(w.group, i.stamp, x);
                Writes(w, w', a, x, s.(status := Pending, channelId := Some(id), owner := Some(a)), MobSubmit(x, r'))
              else Writes(w, w', a, x, s.(status := Failed), Provision(r'.(failed := true)))
            case OtherProvider => false
  {
    var x, r' := r.todo[0], r.(todo := r.todo[1..]);
    RunKnows(w, a, r);
    assert Step(w, a, i) == StepClaim(w, a, x, r', i);
    if w.sims[x].provider == Mobiline {
      assert StepClaim(w, a, x, r', i) == StepMobClaim(w, a, x, r', i);
      if w.sims[x].status == Created {
        MobClaimWrites(w, a, x, r', i);
      } else {
        MobClaimPasses(w, a, x, r', i);
      }
    } else {
      ClaimWrites(w, a, x, r', i);
    }
  }

  // ---------- JoyTel ----------

  lemma SimOf(w: World, a: nat)
    requires Inv(w) && a in w.actors && OnSim(w.actors[a])
    ensures w.actors[a].sim in w.sims
  {
    AtActor(w, a);
  }

  lemma JoySubmits(w: World, a: nat, x: nat, r: Run, i: Input)
    requires a in w.actors && w.actors[a] == JoySubmit(x, r) && x in w.sims
    ensures Writes(w, Step(w, a, i), a, x, w.sims[x].(submits := w.sims[x].submits + 1),
                   if i.JoyAccepted? then JoyAccept(x, i.ticket, r) else JoyFail(x, r))
  {
  }

  lemma JoyAccepts(w: World, a: nat, x: nat, ticket: Ticket, r: Run, j: Input)
    requires a in w.actors && w.actors[a] == JoyAccept(x, ticket, r) && x in w.sims
    ensures Writes(w, Step(w, a, j), a, x, w.sims[x].(ticket := Some(ticket), status := RedeemCoupon), JoyQuery(x, r))
  {
  }

  lemma JoyFails(w: World, a: nat, x: nat, r: Run, j: Input)
    requires a in w.actors && w.actors[a] == JoyFail(x, r) && x in w.sims
    ensures Writes(w, Step(w, a, j), a, x, w.sims[x].(status := Failed), Provision(r.(failed := true)))
  {
  }

  /** JoyTel's answer to a submission: with order ids they are stored and the SIM is REDEEM_COUPON, and its coupon
      is asked for next; without, the SIM is FAILED and the run knows it. */
  lemma JoyAnswerDecides(w: World, a: nat, x: nat, r: Run, i: Input, es: seq<Event>, j: Input)
    requires Inv(w) && a in w.actors && w.actors[a] == JoySubmit(x, r)
    requires Allowed(Next(w, Move(a, i)), es) && Waits(es, a)
    ensures var before := Exec(Next(w, Move(a, i)), es);
            && a in before.actors && x in before.sims
            && (if i.JoyAccepted? then
                  Writes(before, Step(before, a, j), a, x,
                         before.sims[x].(ticket := Some(i.ticket), status := RedeemCoupon), JoyQuery(x, r))
                else
                  Writes(before, Step(before, a, j), a, x,
                         before.sims[x].(status := Failed), Provision(r.(failed := true))))
  {
    SimOf(w, a);
    JoySubmits(w, a, x, r, i);
    NextKeeps(w, Move(a, i));
    WaitingStands(Next(w, Move(a, i)), es, a);
    var before := Exec(Next(w, Move(a, i)), es);
    SimOf(before, a);
    if i.JoyAccepted? {
      JoyAccepts(before, a, x, i.ticket, r, j);
    } else {
      JoyFails(before, a, x, r, j);
    }
  }

  lemma JoyQueries(w: World, a: nat, x: nat, r: Run, i: Input)
    requires a in w.actors && w.actors[a] == JoyQuery(x, r)
    ensures Step(w, a, i) ==
            w.(actors := w.actors[a := if i.PinReady? then JoyClaim(x, i.pin, r) else Provision(r)])
  {
  }

  // The row of a SIM that gets its coupon, whichever call brings it.
  function WithCoupon(s: Sim, a: nat, pin: Option<string>): Sim {
    s.(status := NotifyCoupon, snPin := if pin.Some? then pin else s.snPin, qrBy := Some(a))
  }

  lemma JoyClaims(w: World, a: nat, x: nat, pin: Option<string>, r: Run, j: Input)
    requires a in w.actors && w.actors[a] == JoyClaim(x, pin, r) && x in w.sims
    ensures if w.sims[x].status == RedeemCoupon
            then Writes(w, Step(w, a, j), a, x, WithCoupon(w.sims[x], a, pin), JoyQr(x, r))
            else LeavesSims(w, Step(w, a, j), a, Provision(r))
  {
  }

  /** The answer to the proactive query: a coupon is stored with the next move, and the QR requested after that,
      exactly if the SIM is still REDEEM_COUPON then; without a coupon, or when the callback was there first, the
      run leaves the SIM alone. */
  lemma QueryAnswerDecides(w: World, a: nat, x: nat, r: Run, i: Input, es: seq<Event>, j: Input)
    requires Inv(w) && a in w.actors && w.actors[a] == JoyQuery(x, r)
    requires Allowed(Next(w, Move(a, i)), es) && Waits(es, a)
    ensures var before := Exec(Next(w, Move(a, i)), es);
            && Next(w, Move(a, i)).sims == w.sims && a in before.actors
            && (if !i.PinReady? then Stands(before, a, Provision(r))
                else
                  && x in before.sims
                  && (if before.sims[x].status == RedeemCoupon
                      then Writes(before, Step(before, a, j), a, x, WithCoupon(before.sims[x], a, i.pin), JoyQr(x, r))
                      else LeavesSims(before, Step(before, a, j), a, Provision(r))))
  {
    JoyQueries(w, a, x, r, i);
    NextKeeps(w, Move(a, i));
    WaitingStands(Next(w, Move(a, i)), es, a);
    if i.PinReady? {
      var before := Exec(Next(w, Move(a, i)), es);
      SimOf(before, a);
      JoyClaims(before, a, x, i.pin, r, j);
    }
  }

  lemma PinCallbackWrites(w: World, a: nat, x: nat, pin: Option<string>, j: Input)
    requires a in w.actors && w.actors[a] == JoyPinCallback(x, pin) && x in w.sims
    ensures if w.sims[x].status == RedeemCoupon
            then Writes(w, Step(w, a, j), a, x, WithCoupon(w.sims[x], a, pin), JoyPinQr(x))
            else LeavesSims(w, Step(w, a, j), a, Finished({}))
  {
  }

  /** The callback with the coupon does the same, under the same condition. */
  lemma CouponCallbackDecides(
    w: World, x: nat, ticket: Ticket, pin: Option<string>, es: seq<Event>, j: Input)
    requires Inv(w) && Enabled(w, JoyPinReady(x, ticket, pin))
    requires Allowed(Next(w, JoyPinReady(x, ticket, pin)), es) && Waits(es, w.nextActor)
    ensures var before, a := Exec(Next(w, JoyPinReady(x, ticket, pin)), es), w.nextActor;
            && a in before.actors && x in before.sims
            && (if before.sims[x].status == RedeemCoupon
                then Writes(before, Step(before, a, j), a, x, WithCoupon(before.sims[x], a, pin), JoyPinQr(x))
                else LeavesSims(before, Step(before, a, j), a, Finished({})))
  {
    var e := JoyPinReady(x, ticket, pin);
    NextKeeps(w, e);
    WaitingStands(Next(w, e), es, w.nextActor);
    SimOf(Exec(Next(w, e), es), w.nextActor);
    PinCallbackWrites(Exec(Next(w, e), es), w.nextActor, x, pin, j);
  }

  // ---------- BillionConnect ----------

  lemma BcSubmits(w: World, a: nat, x: nat, r: Run, i: Input)
    requires a in w.actors && w.actors[a] == BcSubmit(x, r) && x in w.sims
    ensures Writes(w, Step(w, a, i), a, x, w.sims[x].(submits := w.sims[x].submits + 1),
                   if i.BcAccepted? then BcAccept(x, r) else BcFail(x, r))
  {
  }

  lemma BcWrites(w: World, a: nat, j: Input)
    requires a in w.actors && (w.actors[a].BcAccept? || w.actors[a].BcFail?) && w.actors[a].sim in w.sims
    ensures var x, r := w.actors[a].sim, w.actors[a].run;
            if w.actors[a].BcAccept?
            then Writes(w, Step(w, a, j), a, x, w.sims[x].(status := NotifyCoupon), Provision(r))
            else Writes(w, Step(w, a, j), a, x, w.sims[x].(status := Failed), Provision(r.(failed := true)))
  {
  }

  /** BillionConnect's answer to a submission makes the SIM NOTIFY_COUPON or FAILED with the next move, whatever
      its status is by then. */
  lemma BcAnswerDecides(w: World, a: nat, x: nat, r: Run, i: Input, es: seq<Event>, j: Input)
    requires Inv(w) && a in w.actors && w.actors[a] == BcSubmit(x, r)
    requires Allowed(Next(w, Move(a, i)), es) && Waits(es, a)
    ensures var before := Exec(Next(w, Move(a, i)), es);
            && a in before.actors && x in before.sims
            && (if i == BcAccepted
                then Writes(before, Step(before, a, j), a, x, before.sims[x].(status := NotifyCoupon), Provision(r))
                else Writes(before, Step(before, a, j), a, x,
                            before.sims[x].(status := Failed), Provision(r.(failed := true))))
  {
    SimOf(w, a);
    BcSubmits(w, a, x, r, i);
    NextKeeps(w, Move(a, i));
    WaitingStands(Next(w, Move(a, i)), es, a);
    SimOf(Exec(Next(w, Move(a, i)), es), a);
    BcWrites(Exec(Next(w, Move(a, i)), es), a, j);
  }

  // ---------- Mobiline ----------

  lemma MobSubmits(w: World, a: nat, x: nat, r: Run, i: Input)
    requires a in w.actors && w.actors[a] == MobSubmit(x, r) && x in w.sims
    ensures Writes(w, Step(w, a, i), a, x, w.sims[x].(submits := w.sims[x].submits + 1),
                   if i.MobReply? then MobAnswer(x, i.accepted, r) else Provision(r))
  {
  }

  lemma MobAnswers(w: World, a: nat, x: nat, accepted: bool, r: Run, j: Input)
    requires a in w.actors && w.actors[a] == MobAnswer(x, accepted, r) && x in w.sims
    ensures if w.sims[x].status == Pending
            then Writes(w, Step(w, a, j), a, x,
                        w.sims[x].(status := if accepted then NotifyCoupon else Failed), MobCheck(x, r))
            else LeavesSims(w, Step(w, a, j), a, MobCheck(x, r))
  {
  }

  /** Mobiline's reply to a submission makes a SIM that is still PENDING NOTIFY_COUPON or FAILED with the next
      move, and leaves any other as it is. Without a reply the run goes on, and the SIM stays what it is. */
  lemma MobReplyDecides(w: World, a: nat, x: nat, r: Run, i: Input, es: seq<Event>, j: Input)
    requires Inv(w) && a in w.actors && w.actors[a] == MobSubmit(x, r)
    requires Allowed(Next(w, Move(a, i)), es) && Waits(es, a)
    ensures var before := Exec(Next(w, Move(a, i)), es);
            && a in before.actors && x in before.sims
            && (if !i.MobReply? then Stands(before, a, Provision(r))
                else if before.sims[x].status != Pending
                then LeavesSims(before, Step(before, a, j), a, MobCheck(x, r))
                else Writes(before, Step(before, a, j), a, x,
                            before.sims[x].(status := if i.accepted then NotifyCoupon else Failed), MobCheck(x, r)))
  {
    SimOf(w, a);
    MobSubmits(w, a, x, r, i);
    NextKeeps(w, Move(a, i));
    SimStays(w, Move(a, i), x);
    SimStaysForARun(Next(w, Move(a, i)), es, x);
    WaitingStands(Next(w, Move(a, i)), es, a);
    if i.MobReply? {
      MobAnswers(Exec(Next(w, Move(a, i)), es), a, x, i.accepted, r, j);
    }
  }

  lemma SimStays(w: World, e: Event, x: nat)
    requires Inv(w) && Enabled(w, e) && x in w.sims
    ensures x in Next(w, e).sims
  {
    EventRelies(w, e);
  }

  lemma {:induction false} SimStaysForARun(w: World, es: seq<Event>, x: nat)
    requires Inv(w) && Allowed(w, es) && x in w.sims
    ensures x in Exec(w, es).sims
    decreases |es|
  {
    if es != [] {
      SimStays(w, es[0], x);
      NextKeeps(w, es[0]);
      SimStaysForARun(Next(w, es[0]), es[1..], x);
    }
  }

  lemma MobCallbackWrites(
    w: World, a: nat, x: nat, success: bool, iccid: Option<string>, qrcode: Option<string>, j: Input)
    requires a in w.actors && w.actors[a] == MobCallback(x, success, iccid, qrcode) && x in w.sims
    ensures var s, w' := w.sims[x], Step(w, a, j);
            if s.status != Pending && s.status != NotifyCoupon then LeavesSims(w, w', a, Finished({}))
            else if !success then Writes(w, w', a, x, s.(status := Failed), Finished({}))
            else
              Writes(w, w', a, x, s.(status := Completed, iccid := iccid, qrcode := qrcode, deliverBy := Some(a)),
                     MobDeliver(x))
  {
  }

  // The callback says that the eSIM is there, with an ICCID and a QR that are not blank.
  predicate Complete(body: MobBody) {
    && body.success && body.esim
    && body.cid.Some? && !Blank(body.cid.value) && body.qrcode.Some? && !Blank(body.qrcode.value)
  }

  lemma MobCallbackStarts(w: World, x: nat, channelId: string, body: MobBody)
    requires Inv(w) && Enabled(w, MobDone(x, channelId, body))
    ensures Stands(
              Next(w, MobDone(x, channelId, body)), w.nextActor,
              if w.sims[x].status in {Completed, Failed} || (body.success && !Complete(body)) then Finished({})
              else MobCallback(x, body.success, body.cid, body.qrcode))
  {
  }

  /** Mobiline's callback: one without usable data, or for a SIM that is COMPLETED or FAILED already, writes
      nothing. Otherwise, if the SIM is PENDING or NOTIFY_COUPON at the next move, a success makes it COMPLETED
      with the ICCID and the QR of the callback, and delivers it after that; a failure makes it FAILED. */
  lemma MobCallbackDecides(w: World, x: nat, channelId: string, body: MobBody, es: seq<Event>, j: Input)
    requires Inv(w) && Enabled(w, MobDone(x, channelId, body))
    requires Allowed(Next(w, MobDone(x, channelId, body)), es) && Waits(es, w.nextActor)
    ensures var before, a := Exec(Next(w, MobDone(x, channelId, body)), es), w.nextActor;
            && a in before.actors && x in before.sims
            && var s, w' := before.sims[x], Step(before, a, j);
            if w.sims[x].status in {Completed, Failed} || (body.success && !Complete(body))
            then Stands(before, a, Finished({}))
            else if s.status != Pending && s.status != NotifyCoupon then LeavesSims(before, w', a, Finished({}))
            else if !body.success then Writes(before, w', a, x, s.(status := Failed), Finished({}))
            else
              Writes(before, w', a, x,
                     s.(status := Completed, iccid := body.cid, qrcode := body.qrcode, deliverBy := Some(a)),
                     MobDeliver(x))
  {
    var e := MobDone(x, channelId, body);
    MobCallbackStarts(w, x, channelId, body);
    NextKeeps(w, e);
    SimStays(w, e, x);
    SimStaysForARun(Next(w, e), es, x);
    WaitingStands(Next(w, e), es, w.nextActor);
    if !(w.sims[x].status in {Completed, Failed} || (body.success && !Complete(body))) {
      MobCallbackWrites(Exec(Next(w, e), es), w.nextActor, x, body.success, body.cid, body.qrcode, j);
    }
  }

  // ---------- the eSIMs of JoyTel and BillionConnect ----------

  lemma EsimCallbackWrites(w: World, a: nat, j: Input)
    requires a in w.actors && (w.actors[a].JoyQrCallback? || w.actors[a].BcCallback?) && w.actors[a].sim in w.sims
    ensures var me := w.actors[a];
            Writes(w, Step(w, a, j), a, me.sim,
                   w.sims[me.sim].(status := Completed, iccid := me.iccid, qrcode := me.qrcode), EsimDeliver(me.sim))
  {
  }

  /** The callback with the eSIM, of JoyTel or of BillionConnect: its next move makes the SIM COMPLETED with the
      ICCID and the QR it brought, whatever the status is, and the move after that delivers it. */
  lemma EsimCallbackDecides(w: World, e: Event, es: seq<Event>, j: Input)
    requires Inv(w) && Enabled(w, e) && (e.JoyQrReady? || e.BcDone?)
    requires Allowed(Next(w, e), es) && Waits(es, w.nextActor)
    ensures var before, a := Exec(Next(w, e), es), w.nextActor;
            && a in before.actors && e.sim in before.sims
            && Writes(before, Step(before, a, j), a, e.sim,
                      before.sims[e.sim].(status := Completed, iccid := e.iccid, qrcode := e.qrcode),
                      EsimDeliver(e.sim))
  {
    NextKeeps(w, e);
    WaitingStands(Next(w, e), es, w.nextActor);
    SimOf(Exec(Next(w, e), es), w.nextActor);
    EsimCallbackWrites(Exec(Next(w, e), es), w.nextActor, j);
  }
}
