/** Every step of the services that issue eSIMs, and of the provider callbacks, keeps the invariant. */
module ProvisionSteps {
  import opened Tables
  import opened Correlation
  import opened Protocol
  import opened Invariant
  import opened SimSteps

  // ---------- what one step does to one row ----------

  // An actor that has just won a right uses it next; a right that stays open is held by someone else.
  predicate RightsStep(a: nat, s: Sim, s': Sim, actor: Actor, next: Actor) {
    && (s'.qrBy.None? || s'.qrCalls > 0
        || (s'.qrBy == s.qrBy && s'.qrCalls == s.qrCalls && !UsesRight(actor))
        || (s'.qrBy == Some(a) && (next.JoyQr? || next.JoyPinQr?)))
    && (s'.deliverBy.None? || s'.deliveries > 0
        || (s'.deliverBy == s.deliverBy && s'.deliveries == s.deliveries && !UsesRight(actor))
        || (s'.deliverBy == Some(a) && next.MobDeliver?))
  }

  // Actor `a` rewrites the row of `x` from `s` to `s'` and goes on as `next`.
  ghost predicate RowStep(a: nat, x: nat, s: Sim, s': Sim, actor: Actor, next: Actor) {
    && next in Follows(actor)
    && SimRely(a, s, s') && Recorded(actor, x, s, s') && RowOk(s') && s'.status != Created
    && RightsStep(a, s, s', actor, next)
    && (if OnSim(next) then next.sim == x && RowStage(a, s', next) else next.Provision? || next == Finished({}))
  }

  /** What `actor`, working on `x`, may make of its row and become itself. */
  ghost function Turns(a: nat, x: nat, s: Sim, actor: Actor): iset<(Sim, Actor)> {
    iset turn: (Sim, Actor) | RowStep(a, x, s, turn.0, actor, turn.1)
  }

  /** The turns that leave the owner of the SIM as it is. */
  ghost function OwnerTurns(a: nat, x: nat, s: Sim, actor: Actor): iset<(Sim, Actor)> {
    iset turn: (Sim, Actor) | RowStep(a, x, s, turn.0, actor, turn.1) && turn.0.owner == s.owner && s.owner.Some?
  }

  /** The rows the SIM `x` of `actor` may have when `a` stands there. */
  ghost function Stages(a: nat, x: nat, actor: Actor): iset<Sim> {
    iset s: Sim | RowOk(s) && OnSim(actor) && actor.sim == x && RowStage(a, s, actor)
  }

  ghost function Sound(): iset<Sim> {
    iset s: Sim | RowOk(s)
  }

  lemma SubmitRow(a: nat, x: nat, s: Sim, me: Actor, next: Actor)
    requires s in Stages(a, x, me) && HasRun(next)
    requires match me
             case JoySubmit(_, r) => next == JoyFail(x, r) || (next.JoyAccept? && next.sim == x && next.run == r)
             case BcSubmit(_, r) => next == BcAccept(x, r) || next == BcFail(x, r)
             case MobSubmit(_, r) => next == Provision(r) || (next.MobAnswer? && next.sim == x && next.run == r)
             case _ => false
    ensures (s.(submits := s.submits + 1), next) in OwnerTurns(a, x, s, me)
  {
  }

  lemma JoyAcceptRow(a: nat, x: nat, s: Sim, ticket: Ticket, r: Run)
    requires s in Stages(a, x, JoyAccept(x, ticket, r))
    ensures (s.(ticket := Some(ticket), status := RedeemCoupon), JoyQuery(x, r))
            in OwnerTurns(a, x, s, JoyAccept(x, ticket, r))
  {
  }

  lemma FailRow(a: nat, x: nat, s: Sim, me: Actor, r: Run)
    requires (me == JoyFail(x, r) || me == BcFail(x, r)) && s in Stages(a, x, me)
    ensures (s.(status := Failed), Provision(r.(failed := true))) in OwnerTurns(a, x, s, me)
  {
  }

  lemma PinRow(a: nat, x: nat, s: Sim, pin: Option<string>, me: Actor, next: Actor)
    requires s in Stages(a, x, me) && s.status == RedeemCoupon
    requires (me.JoyClaim? && next == JoyQr(x, me.run)) || (me.JoyPinCallback? && next == JoyPinQr(x))
    requires me.sim == x && me.pin == pin
    ensures (s.(status := NotifyCoupon, snPin := if pin.Some? then pin else s.snPin, qrBy := Some(a)), next)
            in OwnerTurns(a, x, s, me)
  {
  }

  lemma QrRow(a: nat, x: nat, s: Sim, me: Actor, next: Actor)
    requires s in Stages(a, x, me)
    requires (me.JoyQr? && next == Provision(me.run)) || (me.JoyPinQr? && next == Finished({}))
    ensures (s.(qrCalls := s.qrCalls + 1), next) in OwnerTurns(a, x, s, me)
  {
  }

  lemma BcAcceptRow(a: nat, x: nat, s: Sim, r: Run)
    requires s in Stages(a, x, BcAccept(x, r))
    ensures (s.(status := NotifyCoupon), Provision(r)) in OwnerTurns(a, x, s, BcAccept(x, r))
  {
  }

  lemma CompleteRow(a: nat, x: nat, s: Sim, me: Actor)
    requires (me.JoyQrCallback? || me.BcCallback?) && s in Stages(a, x, me)
    ensures (s.(status := Completed, iccid := me.iccid, qrcode := me.qrcode), EsimDeliver(x)) in OwnerTurns(a, x, s, me)
  {
  }

  lemma MobAnswerRow(a: nat, x: nat, s: Sim, accepted: bool, r: Run)
    requires s in Stages(a, x, MobAnswer(x, accepted, r)) && s.status == Pending
    ensures (s.(status := if accepted then NotifyCoupon else Failed), MobCheck(x, r))
            in OwnerTurns(a, x, s, MobAnswer(x, accepted, r))
  {
  }

  lemma MobCallbackRow(a: nat, x: nat, s: Sim, me: Actor)
    requires me.MobCallback? && s in Stages(a, x, me) && (s.status == Pending || s.status == NotifyCoupon)
    ensures me.success ==>
              (s.(status := Completed, iccid := me.iccid, qrcode := me.qrcode, deliverBy := Some(a)), MobDeliver(x))
              in OwnerTurns(a, x, s, me)
    ensures !me.success ==> (s.(status := Failed), Finished({})) in OwnerTurns(a, x, s, me)
  {
  }

  lemma DeliverRow(a: nat, x: nat, s: Sim, me: Actor)
    requires (me == MobDeliver(x) || me == EsimDeliver(x)) && s in Stages(a, x, me)
    ensures (s.(deliveries := s.deliveries + 1), Finished({})) in OwnerTurns(a, x, s, me)
  {
  }

  lemma ClaimRow(a: nat, x: nat, s: Sim, r: Run, next: Actor)
    requires s in Sound() && s.status == Created && r.order == s.order
    requires r.todo != [] && HasRun(next) && next.run == r.(todo := r.todo[1..])
    requires (s.provider == JoyTel && next == JoySubmit(x, next.run))
             || (s.provider == BillionConnect && next == BcSubmit(x, next.run))
    ensures (s.(status := Pending, owner := Some(a)), next) in Turns(a, x, s, Provision(r))
  {
  }

  lemma MobClaimRow(a: nat, x: nat, s: Sim, id: string, r: Run, r': Run)
    requires s in Sound() && s.status == Created && s.provider == Mobiline && r.order == s.order
    requires r.todo != [] && r.todo[0] == x && r' == r.(todo := r.todo[1..])
    ensures (s.(status := Pending, channelId := Some(id), owner := Some(a)), MobSubmit(x, r'))
            in Turns(a, x, s, Provision(r))
  {
  }

  lemma MobRefusedRow(a: nat, x: nat, s: Sim, r: Run, r': Run)
    requires s in Sound() && s.status == Created && s.provider == Mobiline
    requires r.todo != [] && r.todo[0] == x && r' == r.(todo := r.todo[1..], failed := true)
    ensures (s.(status := Failed), Provision(r')) in Turns(a, x, s, Provision(r))
  {
  }

  // ---------- from the row to the world ----------

  ghost predicate Moves(w: World, a: nat) {
    Inv(w) && a in w.actors
  }

  lemma TurnRights(w: World, w': World, a: nat, x: nat)
    requires w' in SimWrites(w, a, x) && RightsHeld(w, x)
    requires (w'.sims[x], w'.actors[a]) in Turns(a, x, w.sims[x], w.actors[a])
    ensures RightsHeld(w', x)
  {
  }

  lemma TurnReady(w: World, w': World, a: nat, x: nat)
    requires w' in SimWrites(w, a, x)
    requires (w'.sims[x], w'.actors[a]) in Turns(a, x, w.sims[x], w.actors[a])
    requires HasRun(w'.actors[a]) ==> w'.actors[a].run in Runs(w')
    ensures w'.actors[a] in Ready(w', a)
  {
  }

  lemma TurnWrites(w: World, a: nat, x: nat, s': Sim, next: Actor)
    requires a in w.actors && x in w.sims && (s', next) in Turns(a, x, w.sims[x], w.actors[a])
    requires Calls(w.actors[a]) ==> w.actors[a].sim == x
    ensures Become(SetSim(w, x, s'), a, next) in SimWrites(w, a, x)
  {
  }

  lemma PlacedStays(w: World, s: Sim, w': World)
    requires Placed(w, s) && RowOk(s) && w'.orders == w.orders && w'.txs == w.txs
    ensures s in Rows(w')
  {
  }

  /** A turn of an actor without a run, or whose run is in order afterwards, keeps the invariant. */
  lemma TurnKeeps(w: World, a: nat, x: nat, s': Sim, next: Actor)
    requires Moves(w, a) && x in w.sims && (s', next) in Turns(a, x, w.sims[x], w.actors[a])
    requires Calls(w.actors[a]) ==> w.actors[a].sim == x
    requires Placed(w, s')
    requires var w' := Become(SetSim(w, x, s'), a, next); HasRun(next) ==> next.run in Runs(w')
    ensures Become(SetSim(w, x, s'), a, next) in Safe(w, a)
  {
    var w' := Become(SetSim(w, x, s'), a, next);
    AtActor(w, a);
    AtSim(w, x);
    TurnWrites(w, a, x, s', next);
    TurnRights(w, w', a, x);
    TurnReady(w, w', a, x);
    PlacedStays(w, s', w');
    SimStep(w, w', a, x);
  }

  // The run of a submitter goes on after the row of its SIM has been written.
  lemma RunAfterWrite(w: World, w': World, a: nat, x: nat, r: Run)
    requires Inv(w) && w' in SimWrites(w, a, x) && r in Runs(w)
    ensures r in Runs(w')
  {
    assert Satisfies(w, Payments);
    SimGuarantees(w, w', a, x);
    RunningRelyOn(w, w', a, r);
  }

  lemma SameRun(w: World, r: Run, failed: bool)
    requires r in Runs(w)
    ensures r.(failed := failed) in Runs(w)
  {
  }

  // The head of the list can be passed over once its SIM is no longer CREATED.
  lemma Advance(w: World, r: Run)
    requires r in Runs(w) && r.todo != [] && !Claimable(w, r.todo[0])
    ensures r.(todo := r.todo[1..]) in Runs(w)
  {
    assert r.todo == [r.todo[0]] + r.todo[1..];
  }

  lemma OwnerPlaced(w: World, x: nat, s': Sim)
    requires Inv(w) && x in w.sims
    requires w.sims[x].owner.Some? && s'.owner == w.sims[x].owner && s'.order == w.sims[x].order
    ensures Placed(w, s')
  {
    AtSim(w, x);
  }

  lemma RunGoesOn(w: World, a: nat, x: nat, s': Sim, next: Actor, r: Run)
    requires Moves(w, a) && x in w.sims && (s', next) in Turns(a, x, w.sims[x], w.actors[a])
    requires Calls(w.actors[a]) ==> w.actors[a].sim == x
    requires HasRun(w.actors[a]) && w.actors[a].run == r
    ensures r in Runs(Become(SetSim(w, x, s'), a, next))
  {
    AtActor(w, a);
    TurnWrites(w, a, x, s', next);
    RunAfterWrite(w, Become(SetSim(w, x, s'), a, next), a, x, r);
  }

  /** A turn of a submitter on its SIM. */
  lemma SubmitterKeeps(w: World, a: nat, x: nat, s': Sim, next: Actor)
    requires Moves(w, a) && HasRun(w.actors[a]) && OnSim(w.actors[a]) && w.actors[a].sim == x && x in w.sims
    requires (s', next) in OwnerTurns(a, x, w.sims[x], w.actors[a])
    requires HasRun(next) && next.run.(failed := w.actors[a].run.failed) == w.actors[a].run
    ensures Become(SetSim(w, x, s'), a, next) in Safe(w, a)
  {
    OwnerPlaced(w, x, s');
    RunGoesOn(w, a, x, s', next, w.actors[a].run);
    SameRun(Become(SetSim(w, x, s'), a, next), w.actors[a].run, next.run.failed);
    TurnKeeps(w, a, x, s', next);
  }

  /** A turn of a callback on its SIM. */
  lemma CallbackKeeps(w: World, a: nat, x: nat, s': Sim, next: Actor)
    requires Moves(w, a) && OnSim(w.actors[a]) && w.actors[a].sim == x && x in w.sims
    requires (s', next) in OwnerTurns(a, x, w.sims[x], w.actors[a]) && !HasRun(next)
    ensures Become(SetSim(w, x, s'), a, next) in Safe(w, a)
  {
    OwnerPlaced(w, x, s');
    TurnKeeps(w, a, x, s', next);
  }

  // A call about a SIM goes back to the loop of its run.
  lemma GoesBack(actor: Actor)
    requires HasRun(actor) && !actor.Provision?
    ensures Provision(actor.run) in Follows(actor)
  {
  }

  lemma PassesOn(r: Run)
    requires r.todo != []
    ensures Provision(r.(todo := r.todo[1..])) in Follows(Provision(r))
  {
  }

  lemma QueryGoesOn(x: nat, pin: Option<string>, r: Run)
    ensures JoyClaim(x, pin, r) in Follows(JoyQuery(x, r))
  {
  }

  lemma ReturnStep(w: World, a: nat, r: Run, ok: bool)
    requires Moves(w, a) && !Calls(w.actors[a]) && r in Runs(w) && Provision(r) in Follows(w.actors[a])
    ensures Return(w, a, r, ok) in Safe(w, a)
  {
    PcStep(w, a, Provision(r.(failed := r.failed || !ok)));
  }

  // What the invariant says about a submitter or a callback before its step.
  lemma SimActor(w: World, a: nat)
    requires Moves(w, a) && OnSim(w.actors[a])
    ensures var x := w.actors[a].sim;
            x in w.sims && w.sims[x] in Stages(a, x, w.actors[a])
    ensures HasRun(w.actors[a]) ==> w.actors[a].run in Runs(w)
  {
    AtActor(w, a);
    AtSim(w, w.actors[a].sim);
  }

  // ---------- the steps ----------

  /** A submission, whatever is answered. */
  lemma SubmitKeeps(w: World, a: nat, x: nat, next: Actor)
    requires Moves(w, a) && OnSim(w.actors[a]) && w.actors[a].sim == x && HasRun(next)
    requires match w.actors[a]
             case JoySubmit(_, r) => next == JoyFail(x, r) || (next.JoyAccept? && next.sim == x && next.run == r)
             case BcSubmit(_, r) => next == BcAccept(x, r) || next == BcFail(x, r)
             case MobSubmit(_, r) => next == Provision(r) || (next.MobAnswer? && next.sim == x && next.run == r)
             case _ => false
    ensures Become(Submitted(w, x), a, next) in Safe(w, a)
  {
    SimActor(w, a);
    SubmitRow(a, x, w.sims[x], w.actors[a], next);
    SubmitterKeeps(w, a, x, w.sims[x].(submits := w.sims[x].submits + 1), next);
  }

  lemma JoySubmitKeeps(w: World, a: nat, x: nat, r: Run, i: Input)
    requires Moves(w, a) && w.actors[a] == JoySubmit(x, r)
    ensures StepJoySubmit(w, a, x, r, i) in Safe(w, a)
  {
    SubmitKeeps(w, a, x, if i.JoyAccepted? then JoyAccept(x, i.ticket, r) else JoyFail(x, r));
  }

  lemma JoyAcceptKeeps(w: World, a: nat, x: nat, ticket: Ticket, r: Run)
    requires Moves(w, a) && w.actors[a] == JoyAccept(x, ticket, r)
    ensures StepJoyAccept(w, a, x, ticket, r) in Safe(w, a)
  {
    SimActor(w, a);
    JoyAcceptRow(a, x, w.sims[x], ticket, r);
    SubmitterKeeps(w, a, x, w.sims[x].(ticket := Some(ticket), status := RedeemCoupon), JoyQuery(x, r));
  }

  lemma FailKeeps(w: World, a: nat, x: nat, r: Run)
    requires Moves(w, a) && (w.actors[a] == JoyFail(x, r) || w.actors[a] == BcFail(x, r))
    ensures Return(SetStatus(w, x, Failed), a, r, false) in Safe(w, a)
  {
    SimActor(w, a);
    FailRow(a, x, w.sims[x], w.actors[a], r);
    SubmitterKeeps(w, a, x, w.sims[x].(status := Failed), Provision(r.(failed := true)));
  }

  // An actor that knows its run and goes on to another call for its SIM.
  lemma NextCallReady(w: World, a: nat, next: Actor)
    requires a in w.actors && w.actors[a] in Ready(w, a) && HasRun(w.actors[a]) && OnSim(w.actors[a])
    requires match w.actors[a]
             case JoyQuery(x, r) => next.JoyClaim? && next.sim == x && next.run == r
             case MobAnswer(x, _, r) => next == MobCheck(x, r)
             case _ => false
    ensures next in Ready(w, a) && next in Follows(w.actors[a])
  {
  }

  lemma JoyQueryKeeps(w: World, a: nat, x: nat, r: Run, i: Input)
    requires Moves(w, a) && w.actors[a] == JoyQuery(x, r)
    ensures StepJoyQuery(w, a, x, r, i) in Safe(w, a)
  {
    SimActor(w, a);
    if i.PinReady? {
      AtActor(w, a);
      NextCallReady(w, a, JoyClaim(x, i.pin, r));
      QueryGoesOn(x, i.pin, r);
      PcStep(w, a, JoyClaim(x, i.pin, r));
    } else {
      GoesBack(w.actors[a]);
      ReturnStep(w, a, r, true);
    }
  }

  lemma JoyClaimKeeps(w: World, a: nat, x: nat, pin: Option<string>, r: Run)
    requires Moves(w, a) && w.actors[a] == JoyClaim(x, pin, r)
    ensures StepJoyClaim(w, a, x, pin, r) in Safe(w, a)
  {
    SimActor(w, a);
    if PinClaimable(w, x) {
      PinRow(a, x, w.sims[x], pin, w.actors[a], JoyQr(x, r));
      SubmitterKeeps(w, a, x, ClaimPin(w, a, x, pin).sims[x], JoyQr(x, r));
    } else {
      GoesBack(w.actors[a]);
      ReturnStep(w, a, r, true);
    }
  }

  lemma JoyQrKeeps(w: World, a: nat, x: nat, r: Run)
    requires Moves(w, a) && w.actors[a] == JoyQr(x, r)
    ensures Return(QrRequested(w, x), a, r, true) in Safe(w, a)
  {
    SimActor(w, a);
    QrRow(a, x, w.sims[x], w.actors[a], Provision(r));
    SubmitterKeeps(w, a, x, w.sims[x].(qrCalls := w.sims[x].qrCalls + 1), Provision(r));
  }

  lemma BcSubmitKeeps(w: World, a: nat, x: nat, r: Run, i: Input)
    requires Moves(w, a) && w.actors[a] == BcSubmit(x, r)
    ensures StepBcSubmit(w, a, x, r, i) in Safe(w, a)
  {
    SubmitKeeps(w, a, x, if i.BcAccepted? then BcAccept(x, r) else BcFail(x, r));
  }

  lemma BcAcceptKeeps(w: World, a: nat, x: nat, r: Run)
    requires Moves(w, a) && w.actors[a] == BcAccept(x, r)
    ensures Return(SetStatus(w, x, NotifyCoupon), a, r, true) in Safe(w, a)
  {
    SimActor(w, a);
    BcAcceptRow(a, x, w.sims[x], r);
    SubmitterKeeps(w, a, x, w.sims[x].(status := NotifyCoupon), Provision(r));
  }

  lemma MobSubmitKeeps(w: World, a: nat, x: nat, r: Run, i: Input)
    requires Moves(w, a) && w.actors[a] == MobSubmit(x, r)
    ensures StepMobSubmit(w, a, x, r, i) in Safe(w, a)
  {
    SubmitKeeps(w, a, x, if i.MobReply? then MobAnswer(x, i.accepted, r) else Provision(r));
  }

  lemma MobAnswerWins(w: World, a: nat, x: nat, accepted: bool, r: Run)
    requires Moves(w, a) && w.actors[a] == MobAnswer(x, accepted, r) && x in w.sims && w.sims[x].status == Pending
    ensures StepMobAnswer(w, a, x, accepted, r) in Safe(w, a)
  {
    var s' := w.sims[x].(status := if accepted then NotifyCoupon else Failed);
    SimActor(w, a);
    MobAnswerRow(a, x, w.sims[x], accepted, r);
    SubmitterKeeps(w, a, x, s', MobCheck(x, r));
  }

  lemma MobAnswerLoses(w: World, a: nat, x: nat, accepted: bool, r: Run)
    requires Moves(w, a) && w.actors[a] == MobAnswer(x, accepted, r) && x in w.sims && w.sims[x].status != Pending
    ensures StepMobAnswer(w, a, x, accepted, r) in Safe(w, a)
  {
    AtActor(w, a);
    NextCallReady(w, a, MobCheck(x, r));
    PcStep(w, a, MobCheck(x, r));
  }

  lemma MobAnswerKeeps(w: World, a: nat, x: nat, accepted: bool, r: Run)
    requires Moves(w, a) && w.actors[a] == MobAnswer(x, accepted, r)
    ensures StepMobAnswer(w, a, x, accepted, r) in Safe(w, a)
  {
    SimActor(w, a);
    if w.sims[x].status == Pending {
      MobAnswerWins(w, a, x, accepted, r);
    } else {
      MobAnswerLoses(w, a, x, accepted, r);
    }
  }

  lemma MobCheckKeeps(w: World, a: nat, x: nat, r: Run)
    requires Moves(w, a) && w.actors[a] == MobCheck(x, r)
    ensures StepMobCheck(w, a, x, r) in Safe(w, a)
  {
    SimActor(w, a);
    GoesBack(w.actors[a]);
    ReturnStep(w, a, r, w.sims[x].status != Failed);
  }

  lemma FinishKeeps(w: World, a: nat)
    requires Moves(w, a) && !Calls(w.actors[a]) && MayEnd(w.actors[a])
    ensures Become(w, a, Finished({})) in Safe(w, a)
  {
    EndsAnywhere(w.actors[a]);
    PcStep(w, a, Finished({}));
  }

  lemma JoyPinCallbackKeeps(w: World, a: nat, x: nat, pin: Option<string>)
    requires Moves(w, a) && w.actors[a] == JoyPinCallback(x, pin)
    ensures StepJoyPinCallback(w, a, x, pin) in Safe(w, a)
  {
    SimActor(w, a);
    if PinClaimable(w, x) {
      PinRow(a, x, w.sims[x], pin, w.actors[a], JoyPinQr(x));
      CallbackKeeps(w, a, x, ClaimPin(w, a, x, pin).sims[x], JoyPinQr(x));
    } else {
      FinishKeeps(w, a);
    }
  }

  lemma JoyPinQrKeeps(w: World, a: nat, x: nat)
    requires Moves(w, a) && w.actors[a] == JoyPinQr(x)
    ensures Become(QrRequested(w, x), a, Finished({})) in Safe(w, a)
  {
    SimActor(w, a);
    QrRow(a, x, w.sims[x], w.actors[a], Finished({}));
    CallbackKeeps(w, a, x, w.sims[x].(qrCalls := w.sims[x].qrCalls + 1), Finished({}));
  }

  lemma CompleteKeeps(w: World, a: nat, x: nat, iccid: Option<string>, qrcode: Option<string>)
    requires Moves(w, a)
    requires w.actors[a] == JoyQrCallback(x, iccid, qrcode) || w.actors[a] == BcCallback(x, iccid, qrcode)
    ensures Complete(w, a, x, iccid, qrcode) in Safe(w, a)
  {
    SimActor(w, a);
    CompleteRow(a, x, w.sims[x], w.actors[a]);
    CallbackKeeps(w, a, x, w.sims[x].(status := Completed, iccid := iccid, qrcode := qrcode), EsimDeliver(x));
  }

  lemma MobCallbackKeeps(w: World, a: nat, x: nat, success: bool, iccid: Option<string>, qrcode: Option<string>)
    requires Moves(w, a) && w.actors[a] == MobCallback(x, success, iccid, qrcode)
    ensures StepMobCallback(w, a, x, success, iccid, qrcode) in Safe(w, a)
  {
    SimActor(w, a);
    if !MobOpen(w, x) {
      FinishKeeps(w, a);
    } else {
      MobCallbackRow(a, x, w.sims[x], w.actors[a]);
      if success {
        var s' := w.sims[x].(status := Completed, iccid := iccid, qrcode := qrcode, deliverBy := Some(a));
        CallbackKeeps(w, a, x, s', MobDeliver(x));
      } else {
        CallbackKeeps(w, a, x, w.sims[x].(status := Failed), Finished({}));
      }
    }
  }

  lemma DeliverKeeps(w: World, a: nat, x: nat)
    requires Moves(w, a) && (w.actors[a] == MobDeliver(x) || w.actors[a] == EsimDeliver(x))
    ensures StepDeliver(w, a, x) in Safe(w, a)
  {
    SimActor(w, a);
    DeliverRow(a, x, w.sims[x], w.actors[a]);
    EndsAnywhere(w.actors[a]);
    CallbackKeeps(w, a, x, w.sims[x].(deliveries := w.sims[x].deliveries + 1), Finished({}));
  }

  // ---------- the claim ----------

  lemma ClaimRun(w: World, a: nat, r: Run, s': Sim, next: Actor)
    requires Moves(w, a) && w.actors[a] == Provision(r) && r.todo != [] && Claimable(w, r.todo[0])
    requires (s', next) in Turns(a, r.todo[0], w.sims[r.todo[0]], Provision(r))
    requires HasRun(next) && next.run.(failed := r.failed) == r.(todo := r.todo[1..])
    ensures next.run in Runs(Become(SetSim(w, r.todo[0], s'), a, next))
  {
    var w' := Become(SetSim(w, r.todo[0], s'), a, next);
    RunGoesOn(w, a, r.todo[0], s', next, r);
    Advance(w', r);
    SameRun(w', r.(todo := r.todo[1..]), next.run.failed);
  }

  lemma ClaimKeeps(w: World, a: nat, r: Run, s': Sim, next: Actor)
    requires Moves(w, a) && w.actors[a] == Provision(r) && r.todo != [] && Claimable(w, r.todo[0])
    requires (s', next) in Turns(a, r.todo[0], w.sims[r.todo[0]], Provision(r)) && Placed(w, s')
    requires HasRun(next) && next.run.(failed := r.failed) == r.(todo := r.todo[1..])
    ensures Become(SetSim(w, r.todo[0], s'), a, next) in Safe(w, a)
  {
    ClaimRun(w, a, r, s', next);
    TurnKeeps(w, a, r.todo[0], s', next);
  }

  // The SIMs of a run may be claimed: their order is paid.
  lemma ClaimPlaced(w: World, r: Run, s': Sim)
    requires RunOk(w, r) && s'.order == r.order && OrderOk(w, r.order)
    ensures (s'.owner.Some? || s'.status == Failed) && !w.orders[r.order].cancelled ==> Placed(w, s')
    ensures !w.orders[r.order].cancelled
  {
  }

  lemma SoundRow(w: World, x: nat)
    requires Inv(w) && x in w.sims
    ensures w.sims[x] in Sound()
  {
    AtSim(w, x);
  }

  lemma ClaimingKeeps(w: World, a: nat, r: Run, i: Input)
    requires Moves(w, a) && w.actors[a] == Provision(r) && r.todo != [] && Claimable(w, r.todo[0])
    ensures StepProvision(w, a, r, i) in Safe(w, a)
  {
    var x, r' := r.todo[0], r.(todo := r.todo[1..]);
    AtActor(w, a);
    SoundRow(w, x);
    AtOrder(w, r.order);
    var s := w.sims[x];
    var claimed := s.(status := Pending, owner := Some(a));
    ClaimPlaced(w, r, claimed);
    match s.provider {
      case JoyTel =>
        ClaimRow(a, x, s, r, JoySubmit(x, r'));
        ClaimKeeps(w, a, r, claimed, JoySubmit(x, r'));
      case BillionConnect =>
        ClaimRow(a, x, s, r, BcSubmit(x, r'));
        ClaimKeeps(w, a, r, claimed, BcSubmit(x, r'));
      case Mobiline =>
        MobClaimingKeeps(w, a, r, i);
    }
  }

  lemma MobClaimingKeeps(w: World, a: nat, r: Run, i: Input)
    requires Moves(w, a) && w.actors[a] == Provision(r) && r.todo != [] && Claimable(w, r.todo[0])
    requires w.sims[r.todo[0]].provider == Mobiline
    ensures StepProvision(w, a, r, i) in Safe(w, a)
  {
    var x, r' := r.todo[0], r.(todo := r.todo[1..]);
    AtActor(w, a);
    SoundRow(w, x);
    AtOrder(w, r.order);
    var s := w.sims[x];
    if i.Configured? && |i.stamp| == STAMP_WIDTH {
      var id := ChannelOrderId(w.group, i.stamp, x);
      var s' := s.(status := Pending, channelId := Some(id), owner := Some(a));
      ClaimPlaced(w, r, s');
      MobClaimRow(a, x, s, id, r, r');
      ClaimKeeps(w, a, r, s', MobSubmit(x, r'));
    } else {
      MobRefusedRow(a, x, s, r, r'.(failed := true));
      ClaimPlaced(w, r, s.(status := Failed));
      ClaimKeeps(w, a, r, s.(status := Failed), Provision(r'.(failed := true)));
    }
  }

  lemma NoClaimReturns(w: World, a: nat, r: Run, i: Input)
    requires r.todo != [] && !Claimable(w, r.todo[0])
    ensures var r' := r.(todo := r.todo[1..]);
            StepProvision(w, a, r, i) in {Return(w, a, r', true), Return(w, a, r', false)}
  {
  }

  lemma NoClaimKeeps(w: World, a: nat, r: Run, i: Input)
    requires Moves(w, a) && w.actors[a] == Provision(r) && r.todo != [] && !Claimable(w, r.todo[0])
    ensures StepProvision(w, a, r, i) in Safe(w, a)
  {
    AtActor(w, a);
    NoClaimReturns(w, a, r, i);
    Advance(w, r);
    PassesOn(r);
    ReturnStep(w, a, r.(todo := r.todo[1..]), true);
    ReturnStep(w, a, r.(todo := r.todo[1..]), false);
  }
}
