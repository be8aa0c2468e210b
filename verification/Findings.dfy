/** Where the code does less than one might expect, with the exact condition for each case. */
module Findings {
  import opened Tables
  import opened Protocol
  import opened Invariant
  import opened SimSteps
  import opened ProvisionSteps
  import opened PromoSteps
  import opened JobSteps
  import opened Machine
  import opened Safety
  import opened Verdicts

  // ---------- COMPLETED is not final for BillionConnect ----------

  predicate OverwritesNow(w: World, e: Event, x: nat) {
    e.Move? && e.actor in w.actors && Overwrites(w.actors[e.actor], x)
  }

  lemma AcceptOverwrites(w: World, a: nat, i: Input, x: nat)
    requires a in w.actors && w.actors[a].BcAccept? && w.actors[a].sim == x && x in w.sims
    ensures x in Step(w, a, i).sims && Step(w, a, i).sims[x] == w.sims[x].(status := NotifyCoupon)
  {
  }

  lemma FailOverwrites(w: World, a: nat, i: Input, x: nat)
    requires a in w.actors && w.actors[a].BcFail? && w.actors[a].sim == x && x in w.sims
    ensures x in Step(w, a, i).sims && Step(w, a, i).sims[x] == w.sims[x].(status := Failed)
  {
  }

  predicate IsCompleted(w: World, x: nat) {
    x in w.sims && w.sims[x].status == Completed
  }

  /** An event takes a SIM out of COMPLETED exactly when it is the update with which createBillionOrder
      answers the submission of that SIM: its `where` names no status, so it also overwrites what an
      early callback has written. */
  lemma CompletedIsLeftExactlyBy(w: World, e: Event, x: nat)
    requires Inv(w) && Enabled(w, e) && IsCompleted(w, x)
    ensures !IsCompleted(Next(w, e), x) <==> OverwritesNow(w, e, x)
  {
    SimRecorded(w, e, x);
    NewActor(w);
    if OverwritesNow(w, e, x) {
      if w.actors[e.actor].BcAccept? {
        AcceptOverwrites(w, e.actor, e.input, x);
      } else {
        FailOverwrites(w, e.actor, e.input, x);
      }
    }
  }

  // Some actor's next update of the SIM is such an answer to its submission.
  predicate ToBeOverwritten(w: World, x: nat) {
    exists a | a in w.actors :: Overwrites(w.actors[a], x)
  }

  // An actor stands before its answer after an event only if it did before, or has just submitted.
  lemma OverwriterWas(w: World, e: Event, a: nat, x: nat)
    requires Inv(w) && Enabled(w, e) && a in Next(w, e).actors && Overwrites(Next(w, e).actors[a], x)
    ensures a in w.actors && (Overwrites(w.actors[a], x) || (w.actors[a].BcSubmit? && w.actors[a].sim == x))
  {
    EventFrames(w, e);
  }

  lemma SubmitterIsPending(w: World, a: nat)
    requires Inv(w) && a in w.actors && w.actors[a].BcSubmit?
    ensures !IsCompleted(w, w.actors[a].sim)
  {
    AtActor(w, a);
  }

  // An actor stands before its answer only after it has submitted the SIM, which was PENDING then.
  lemma NoNewOverwrite(w: World, e: Event, x: nat)
    requires Inv(w) && Enabled(w, e) && IsCompleted(w, x) && !ToBeOverwritten(w, x)
    ensures !ToBeOverwritten(Next(w, e), x)
  {
    forall a | a in Next(w, e).actors ensures !Overwrites(Next(w, e).actors[a], x) {
      if Overwrites(Next(w, e).actors[a], x) {
        OverwriterWas(w, e, a, x);
        if w.actors[a].BcSubmit? {
          SubmitterIsPending(w, a);
        }
      }
    }
  }

  lemma {:induction false} CompletedForARun(w: World, es: seq<Event>, x: nat)
    requires Inv(w) && Allowed(w, es) && IsCompleted(w, x) && !ToBeOverwritten(w, x)
    ensures IsCompleted(Exec(w, es), x)
    decreases |es|
  {
    if es != [] {
      CompletedIsLeftExactlyBy(w, es[0], x);
      NoNewOverwrite(w, es[0], x);
      NextKeeps(w, es[0]);
      CompletedForARun(Next(w, es[0]), es[1..], x);
    }
  }

  lemma OneMove(w: World, e: Event)
    requires Enabled(w, e)
    ensures Allowed(w, [e]) && Exec(w, [e]) == Next(w, e)
  {
    assert [e][1..] == [];
  }

  lemma OverwrittenNext(w: World, a: nat, x: nat)
    requires Inv(w) && a in w.actors && Overwrites(w.actors[a], x) && IsCompleted(w, x)
    ensures Allowed(w, [Move(a, Go)]) && !IsCompleted(Exec(w, [Move(a, Go)]), x)
  {
    OneMove(w, Move(a, Go));
    CompletedIsLeftExactlyBy(w, Move(a, Go), x);
  }

  /** A COMPLETED SIM stays COMPLETED in every continuation exactly when no actor stands before the
      update with which createBillionOrder answers its submission. */
  lemma CompletedIsFinalExactlyWhen(w: World, x: nat)
    requires Inv(w) && IsCompleted(w, x)
    ensures (forall es | Allowed(w, es) :: IsCompleted(Exec(w, es), x)) <==> !ToBeOverwritten(w, x)
  {
    if ToBeOverwritten(w, x) {
      var a :| a in w.actors && Overwrites(w.actors[a], x);
      OverwrittenNext(w, a, x);
    } else {
      forall es | Allowed(w, es) ensures IsCompleted(Exec(w, es), x) {
        CompletedForARun(w, es, x);
      }
    }
  }

  // ---------- a COMPLETED order may have a FAILED SIM ----------

  predicate HasFailedSim(w: World, o: nat) {
    exists x | x in w.sims :: w.sims[x].order == o && w.sims[x].status == Failed
  }

  predicate Misleads(w: World, o: nat) {
    o in w.orders && w.orders[o].status == Completed && HasFailedSim(w, o)
  }

  // The event writes FAILED into a SIM of the order.
  predicate RefusesNow(w: World, e: Event, o: nat) {
    && e.Move? && e.actor in w.actors
    && exists x | x in w.sims :: w.sims[x].order == o && Refuses(w.actors[e.actor], x, w.sims[x])
  }

  // None of the order's SIMs is CREATED once it has been COMPLETED, and none is added.
  ghost predicate Handled(w: World, o: nat) {
    o in w.orders && w.orders[o].tx in w.drained
  }

  lemma CompletedIsHandled(w: World, o: nat)
    requires Inv(w) && o in w.orders && w.orders[o].status == Completed
    ensures Handled(w, o)
  {
    AtOrder(w, o);
  }

  lemma HandledSims(w: World, o: nat, x: nat)
    requires Inv(w) && Handled(w, o) && x in w.sims && w.sims[x].order == o
    ensures w.sims[x].status != Created && RowOk(w.sims[x])
  {
    AtSim(w, x);
    assert Satisfies(w, Sims);
    assert DrainedOk(w, w.orders[o].tx);
  }

  lemma HandledIsPrepared(w: World, o: nat)
    requires Inv(w) && Handled(w, o)
    ensures w.orders[o].prepared
  {
    assert Satisfies(w, Sims);
    assert DrainedOk(w, w.orders[o].tx);
    OrderOfPaid(w, w.orders[o].tx, o);
  }

  lemma HandledStays(w: World, e: Event, o: nat)
    requires Inv(w) && Enabled(w, e) && Handled(w, o)
    ensures Handled(Next(w, e), o)
  {
    NextSafe(w, e);
    SafeMeans(w, Next(w, e), MoverOf(w, e));
    Relied(w, Next(w, e), MoverOf(w, e));
  }

  lemma NotAddedLater(w: World, e: Event, o: nat, x: nat)
    requires Inv(w) && Enabled(w, e) && o in w.orders && w.orders[o].prepared
    requires x in Next(w, e).sims && Next(w, e).sims[x].order == o
    ensures x in w.sims && w.sims[x].order == o
  {
    EventRelies(w, e);
  }

  lemma FailedByRefusal(w: World, e: Event, x: nat)
    requires Inv(w) && Enabled(w, e) && x in w.sims && x in Next(w, e).sims && Next(w, e).sims[x].status == Failed
    requires w.sims[x].status != Failed && w.sims[x].status != Created
    ensures RefusesNow(w, e, w.sims[x].order)
  {
    SimRecorded(w, e, x);
    NewActor(w);
    assert Refuses(Mover(w, MoverOf(w, e)), x, w.sims[x]);
  }

  // A SIM of the order was there before the event, and becomes FAILED only by a refusal.
  lemma HandledSimWas(w: World, e: Event, o: nat, x: nat)
    requires Inv(w) && Enabled(w, e) && Handled(w, o) && x in Next(w, e).sims && Next(w, e).sims[x].order == o
    ensures x in w.sims && w.sims[x].order == o
    ensures Next(w, e).sims[x].status == Failed && w.sims[x].status != Failed ==> RefusesNow(w, e, o)
  {
    HandledIsPrepared(w, o);
    NotAddedLater(w, e, o, x);
    HandledSims(w, o, x);
    if Next(w, e).sims[x].status == Failed && w.sims[x].status != Failed {
      FailedByRefusal(w, e, x);
    }
  }

  lemma AnswerRefuses(w: World, a: nat, i: Input, x: nat)
    requires a in w.actors && w.actors[a].MobAnswer? && x in w.sims && Refuses(w.actors[a], x, w.sims[x])
    ensures x in Step(w, a, i).sims && Step(w, a, i).sims[x] == w.sims[x].(status := Failed)
  {
  }

  lemma CallbackRefuses(w: World, a: nat, i: Input, x: nat)
    requires a in w.actors && w.actors[a].MobCallback? && x in w.sims && Refuses(w.actors[a], x, w.sims[x])
    ensures x in Step(w, a, i).sims && Step(w, a, i).sims[x] == w.sims[x].(status := Failed)
  {
  }

  lemma JoyFailRefuses(w: World, a: nat, i: Input, x: nat)
    requires a in w.actors && w.actors[a].JoyFail? && w.actors[a].sim == x && x in w.sims
    ensures x in Step(w, a, i).sims && Step(w, a, i).sims[x] == w.sims[x].(status := Failed)
  {
  }

  lemma RefusalFails(w: World, a: nat, i: Input, x: nat)
    requires a in w.actors && x in w.sims && Refuses(w.actors[a], x, w.sims[x])
    ensures x in Step(w, a, i).sims && Step(w, a, i).sims[x] == w.sims[x].(status := Failed)
  {
    var me := w.actors[a];
    if me.JoyFail? {
      JoyFailRefuses(w, a, i, x);
    } else if me.BcFail? {
      FailOverwrites(w, a, i, x);
    } else if me.MobAnswer? {
      AnswerRefuses(w, a, i, x);
    } else {
      CallbackRefuses(w, a, i, x);
    }
  }

  lemma ConcludingKeepsSims(w: World, a: nat, i: Input, o: nat)
    requires a in w.actors && Concludes(w.actors[a], o)
    ensures Step(w, a, i).sims == w.sims
  {
  }

  lemma RefuserConcludesNothing(w: World, e: Event, o: nat)
    requires RefusesNow(w, e, o)
    ensures !ConcludesNow(w, e, o) && !CancelsNow(w, e, o)
  {
  }

  lemma RefusedMisleads(w: World, e: Event, o: nat)
    requires Inv(w) && Enabled(w, e) && o in w.orders && w.orders[o].status == Completed && RefusesNow(w, e, o)
    ensures Misleads(Next(w, e), o)
  {
    var x :| x in w.sims && w.sims[x].order == o && Refuses(w.actors[e.actor], x, w.sims[x]);
    RefusalFails(w, e.actor, e.input, x);
    RefuserConcludesNothing(w, e, o);
    LastWriterWins(w, e, o);
    assert x in Next(w, e).sims;
  }

  lemma ConcludedMisleads(w: World, e: Event, o: nat)
    requires Inv(w) && Enabled(w, e) && o in w.orders && ConcludesNow(w, e, o)
    ensures Misleads(Next(w, e), o) <==> !w.actors[e.actor].run.failed && HasFailedSim(w, o)
  {
    LastWriterWins(w, e, o);
    ConcludingKeepsSims(w, e.actor, e.input, o);
  }

  /** An order comes to be COMPLETED with a FAILED SIM in exactly two ways: a run of create in which nothing
      failed writes COMPLETED although a SIM is FAILED already, or a SIM of a COMPLETED order is refused. */
  lemma MisleadsExactlyAfter(w: World, e: Event, o: nat)
    requires Inv(w) && Enabled(w, e) && o in w.orders && !Misleads(w, o)
    ensures Misleads(Next(w, e), o) <==>
            || (ConcludesNow(w, e, o) && !w.actors[e.actor].run.failed && HasFailedSim(w, o))
            || (w.orders[o].status == Completed && RefusesNow(w, e, o))
  {
    if ConcludesNow(w, e, o) {
      ConcludedMisleads(w, e, o);
      if RefusesNow(w, e, o) {
        RefuserConcludesNothing(w, e, o);
      }
    } else if w.orders[o].status == Completed && RefusesNow(w, e, o) {
      RefusedMisleads(w, e, o);
    } else if Misleads(Next(w, e), o) {
      LastWriterWins(w, e, o);
      CompletedIsHandled(w, o);
      var x :| x in Next(w, e).sims && Next(w, e).sims[x].order == o && Next(w, e).sims[x].status == Failed;
      HandledSimWas(w, e, o, x);
    }
  }

  // An actor that is about to submit the SIM to JoyTel or BillionConnect, or to write that it was refused.
  predicate MayRefuse(actor: Actor, x: nat) {
    (actor.JoySubmit? || actor.JoyFail? || actor.BcSubmit? || actor.BcFail?) && actor.sim == x
  }

  predicate AboutToRefuse(w: World, x: nat) {
    exists a | a in w.actors :: MayRefuse(w.actors[a], x)
  }

  // No SIM of the order is FAILED, and none waits for an answer that may refuse it.
  predicate Settled(w: World, o: nat) {
    forall x | x in w.sims && w.sims[x].order == o ::
      && w.sims[x].status != Failed && !AboutToRefuse(w, x)
      && !(w.sims[x].provider == Mobiline && MobOpen(w, x))
  }

  lemma SettledIsNotRefused(w: World, e: Event, o: nat)
    requires Inv(w) && Enabled(w, e) && Settled(w, o)
    ensures !RefusesNow(w, e, o)
  {
    if RefusesNow(w, e, o) {
      var x :| x in w.sims && w.sims[x].order == o && Refuses(w.actors[e.actor], x, w.sims[x]);
      RefuserIsSeen(w, e.actor, x);
    }
  }

  lemma RefuserIsSeen(w: World, a: nat, x: nat)
    requires Inv(w) && a in w.actors && x in w.sims && Refuses(w.actors[a], x, w.sims[x])
    ensures AboutToRefuse(w, x) || (w.sims[x].provider == Mobiline && MobOpen(w, x))
  {
    AtActor(w, a);
  }

  // What is settled at Mobiline is COMPLETED for good.
  lemma MobilineStaysClosed(w: World, e: Event, o: nat, x: nat)
    requires Inv(w) && Enabled(w, e) && Handled(w, o) && x in w.sims && w.sims[x].order == o
    requires w.sims[x].provider == Mobiline && w.sims[x].status != Failed && !MobOpen(w, x)
    ensures x in Next(w, e).sims && Next(w, e).sims[x].status == Completed
  {
    HandledSims(w, o, x);
    FinalForOneEvent(w, e, x);
  }

  lemma SettledSim(w: World, e: Event, o: nat, x: nat)
    requires Inv(w) && Enabled(w, e) && Handled(w, o) && Settled(w, o)
    requires x in Next(w, e).sims && Next(w, e).sims[x].order == o
    ensures Next(w, e).sims[x].status != Failed
    ensures !(Next(w, e).sims[x].provider == Mobiline && MobOpen(Next(w, e), x))
  {
    HandledSimWas(w, e, o, x);
    SettledIsNotRefused(w, e, o);
    SameProvider(w, e, x);
    if w.sims[x].provider == Mobiline {
      MobilineStaysClosed(w, e, o, x);
    }
  }

  lemma SameProvider(w: World, e: Event, x: nat)
    requires Inv(w) && Enabled(w, e) && x in w.sims
    ensures x in Next(w, e).sims && Next(w, e).sims[x].provider == w.sims[x].provider
  {
    EventRelies(w, e);
  }

  // A run submits a SIM only after it has claimed it.
  lemma MobClaimNext(w: World, a: nat, x: nat, r: Run, i: Input)
    requires Claimable(w, x)
    ensures a in StepMobClaim(w, a, x, r, i).actors
    ensures StepMobClaim(w, a, x, r, i).actors[a] in {MobSubmit(x, r), Provision(r.(failed := true))}
  {
    if Built(i) {
      MobClaimWins(w, a, x, r, i);
    } else {
      MobClaimFails(w, a, x, r, i);
    }
  }

  lemma ClaimNext(w: World, a: nat, x: nat, r: Run, i: Input)
    requires Claimable(w, x)
    ensures a in StepClaim(w, a, x, r, i).actors
    ensures var next := StepClaim(w, a, x, r, i).actors[a]; next.JoySubmit? || next.BcSubmit? ==> next.sim == x
  {
    if w.sims[x].provider == Mobiline {
      MobClaimNext(w, a, x, r, i);
    } else if w.sims[x].provider == OtherProvider {
      LostClaimRemembers(w, a, x, r, i);
    } else {
      WonClaimRemembers(w, a, x, r, i);
    }
  }

  lemma ConcludingSubmitsNothing(w: World, a: nat, r: Run, i: Input)
    requires r.todo == []
    ensures a in StepProvision(w, a, r, i).actors
    ensures StepProvision(w, a, r, i).actors[a] == NextRun(r.rest, r.batch)
  {
  }

  lemma LosingSubmitsNothing(w: World, a: nat, r: Run, i: Input)
    requires r.todo != [] && !Claimable(w, r.todo[0])
    ensures a in StepProvision(w, a, r, i).actors && StepProvision(w, a, r, i).actors[a].Provision?
  {
    NoClaimReturns(w, a, r, i);
  }

  lemma WinningSubmitsClaimed(w: World, a: nat, r: Run, i: Input)
    requires r.todo != [] && Claimable(w, r.todo[0])
    ensures a in StepProvision(w, a, r, i).actors
    ensures var next := StepProvision(w, a, r, i).actors[a]; next.JoySubmit? || next.BcSubmit? ==> next.sim == r.todo[0]
  {
    ClaimNext(w, a, r.todo[0], r.(todo := r.todo[1..]), i);
  }

  lemma SubmitsClaimed(w: World, a: nat, r: Run, i: Input, next: Actor)
    requires a in StepProvision(w, a, r, i).actors && StepProvision(w, a, r, i).actors[a] == next
    requires next.JoySubmit? || next.BcSubmit?
    ensures Claimable(w, next.sim)
  {
    if r.todo == [] {
      ConcludingSubmitsNothing(w, a, r, i);
    } else if Claimable(w, r.todo[0]) {
      WinningSubmitsClaimed(w, a, r, i);
    } else {
      LosingSubmitsNothing(w, a, r, i);
    }
  }

  // An actor that may refuse the SIM after an event did so before, or has just claimed it.
  lemma RefuserWas(w: World, e: Event, a: nat, x: nat)
    requires Inv(w) && Enabled(w, e) && a in Next(w, e).actors && MayRefuse(Next(w, e).actors[a], x)
    ensures AboutToRefuse(w, x) || Claimable(w, x)
  {
    EventFrames(w, e);
    if a in w.actors && w.actors[a].Provision? && e.Move? && e.actor == a {
      StepInRun(w, a, e.input);
      SubmitsClaimed(w, a, w.actors[a].run, e.input, Next(w, e).actors[a]);
    }
  }

  lemma SettledStays(w: World, e: Event, o: nat)
    requires Inv(w) && Enabled(w, e) && Handled(w, o) && Settled(w, o)
    ensures Settled(Next(w, e), o) && !Misleads(Next(w, e), o)
  {
    forall x | x in Next(w, e).sims && Next(w, e).sims[x].order == o
      ensures Next(w, e).sims[x].status != Failed && !AboutToRefuse(Next(w, e), x)
      ensures !(Next(w, e).sims[x].provider == Mobiline && MobOpen(Next(w, e), x))
    {
      SettledSim(w, e, o, x);
      HandledSimWas(w, e, o, x);
      HandledSims(w, o, x);
      forall a | a in Next(w, e).actors ensures !MayRefuse(Next(w, e).actors[a], x) {
        if MayRefuse(Next(w, e).actors[a], x) {
          RefuserWas(w, e, a, x);
        }
      }
    }
  }

  lemma {:induction false} SettledForARun(w: World, es: seq<Event>, o: nat)
    requires Inv(w) && Allowed(w, es) && Handled(w, o) && Settled(w, o)
    ensures !Misleads(Exec(w, es), o)
    decreases |es|
  {
    if es != [] {
      SettledStays(w, es[0], o);
      HandledStays(w, es[0], o);
      NextKeeps(w, es[0]);
      SettledForARun(Next(w, es[0]), es[1..], o);
    }
  }

  lemma TwoMoves(w: World, e: Event, e': Event)
    requires Enabled(w, e) && Enabled(Next(w, e), e')
    ensures Allowed(w, [e, e']) && Exec(w, [e, e']) == Next(Next(w, e), e')
  {
    OneMove(Next(w, e), e');
    assert [e, e'][1..] == [e'];
  }

  // The order and the SIM of a submission that is not accepted.
  lemma SubmissionRefused(w: World, a: nat, x: nat)
    requires a in w.actors && (w.actors[a].JoySubmit? || w.actors[a].BcSubmit?) && w.actors[a].sim == x && x in w.sims
    ensures var w' := Step(w, a, Go);
            && w'.orders == w.orders && x in w'.sims && w'.sims[x].order == w.sims[x].order
            && a in w'.actors && (w'.actors[a].JoyFail? || w'.actors[a].BcFail?) && w'.actors[a].sim == x
  {
  }

  // A callback that reports a failure, and the actor it starts.
  function FailureReported(w: World, x: nat): Event
    requires x in w.sims && w.sims[x].channelId.Some?
  {
    MobDone(x, w.sims[x].channelId.value, MobBody(false, false, None, None))
  }

  lemma CallbackComes(w: World, x: nat)
    requires Inv(w) && x in w.sims && w.sims[x].provider == Mobiline && MobOpen(w, x)
    ensures w.sims[x].channelId.Some? && Enabled(w, FailureReported(w, x))
    ensures var w' := Next(w, FailureReported(w, x));
            && w'.orders == w.orders && w'.sims == w.sims && w.nextActor in w'.actors
            && w'.actors[w.nextActor] == MobCallback(x, false, None, None)
  {
    AtSim(w, x);
  }

  lemma RefusalLeads(w: World, a: nat, o: nat, x: nat)
    requires Inv(w) && a in w.actors && o in w.orders && w.orders[o].status == Completed
    requires x in w.sims && w.sims[x].order == o && Refuses(w.actors[a], x, w.sims[x])
    ensures Enabled(w, Move(a, Go)) && Misleads(Next(w, Move(a, Go)), o)
  {
    assert RefusesNow(w, Move(a, Go), o);
    RefusedMisleads(w, Move(a, Go), o);
  }

  lemma RefuserLeads(w: World, a: nat, o: nat, x: nat) returns (es: seq<Event>)
    requires Inv(w) && a in w.actors && o in w.orders && w.orders[o].status == Completed
    requires x in w.sims && w.sims[x].order == o && MayRefuse(w.actors[a], x)
    ensures Allowed(w, es) && Misleads(Exec(w, es), o)
  {
    if w.actors[a].JoyFail? || w.actors[a].BcFail? {
      RefusalLeads(w, a, o, x);
      OneMove(w, Move(a, Go));
      es := [Move(a, Go)];
    } else {
      SubmissionRefused(w, a, x);
      NextKeeps(w, Move(a, Go));
      RefusalLeads(Next(w, Move(a, Go)), a, o, x);
      TwoMoves(w, Move(a, Go), Move(a, Go));
      es := [Move(a, Go), Move(a, Go)];
    }
  }

  lemma CallbackLeads(w: World, o: nat, x: nat) returns (es: seq<Event>)
    requires Inv(w) && o in w.orders && w.orders[o].status == Completed
    requires x in w.sims && w.sims[x].order == o && w.sims[x].provider == Mobiline && MobOpen(w, x)
    ensures Allowed(w, es) && Misleads(Exec(w, es), o)
  {
    CallbackComes(w, x);
    NextKeeps(w, FailureReported(w, x));
    RefusalLeads(Next(w, FailureReported(w, x)), w.nextActor, o, x);
    TwoMoves(w, FailureReported(w, x), Move(w.nextActor, Go));
    es := [FailureReported(w, x), Move(w.nextActor, Go)];
  }

  lemma UnsettledLeads(w: World, o: nat) returns (es: seq<Event>)
    requires Inv(w) && o in w.orders && w.orders[o].status == Completed && !Settled(w, o)
    ensures Allowed(w, es) && Misleads(Exec(w, es), o)
  {
    var x :| x in w.sims && w.sims[x].order == o
             && (w.sims[x].status == Failed || AboutToRefuse(w, x)
                 || (w.sims[x].provider == Mobiline && MobOpen(w, x)));
    if w.sims[x].status == Failed {
      es := [];
    } else if AboutToRefuse(w, x) {
      var a :| a in w.actors && MayRefuse(w.actors[a], x);
      es := RefuserLeads(w, a, o, x);
    } else {
      es := CallbackLeads(w, o, x);
    }
  }

  // A run after which the order says COMPLETED although a SIM of it is FAILED.
  predicate LeadsToMisleading(w: World, es: seq<Event>, o: nat) {
    Allowed(w, es) && Misleads(Exec(w, es), o)
  }

  /** What COMPLETED says of an order holds in every continuation exactly when none of its SIMs is FAILED,
      none is about to be submitted to or refused by JoyTel or BillionConnect, and none of Mobiline is still
      PENDING or NOTIFY_COUPON. */
  lemma CompletedOrderIsTrueExactlyWhen(w: World, o: nat)
    requires Inv(w) && o in w.orders && w.orders[o].status == Completed
    ensures (forall es :: !LeadsToMisleading(w, es, o)) <==> Settled(w, o)
  {
    if Settled(w, o) {
      CompletedIsHandled(w, o);
      forall es ensures !LeadsToMisleading(w, es, o) {
        if Allowed(w, es) {
          SettledForARun(w, es, o);
        }
      }
    } else {
      var es := UnsettledLeads(w, o);
      assert LeadsToMisleading(w, es, o);
    }
  }

  // ---------- a paid transaction need not have its usage CONFIRMED ----------

  predicate Confirmed(w: World, t: nat) {
    t in w.usages && w.usages[t].status == UsageConfirmed
  }

  lemma UsableConfirms(w: World, t: nat, p: nat, limit: Option<nat>, agent: Option<nat>, credit: nat)
    requires t in w.usages && Usable(w, p, limit) && t !in w.ledger
    ensures var w' := ConfirmUsage(w, t, p, limit, agent, credit);
            t in w'.usages && w'.usages[t].status == UsageConfirmed
  {
  }

  lemma UnusableCancels(w: World, t: nat, p: nat, limit: Option<nat>, agent: Option<nat>, credit: nat)
    requires t in w.usages && !Usable(w, p, limit)
    ensures var w' := ConfirmUsage(w, t, p, limit, agent, credit);
            t in w'.usages && w'.usages[t].status == UsageCanceled
  {
  }

  lemma NotConfirmedIsNotInLedger(w: World, t: nat)
    requires Inv(w) && t in w.usages && w.usages[t].status != UsageConfirmed
    ensures t !in w.ledger
  {
    assert Satisfies(w, Promos);
    assert !Earns(w, t);
  }

  // The actor's next call is the promo transaction of `t`, and the promo is active and below its limit.
  predicate AppliesUsable(w: World, a: nat, t: nat) {
    a in w.actors && AppliesUsage(w.actors[a], t) && Usable(w, w.actors[a].promo, w.actors[a].limit)
  }

  // The event is that call, and the database lets it through.
  predicate ConfirmsNow(w: World, e: Event, t: nat) {
    e.Move? && !e.input.DbError? && AppliesUsable(w, e.actor, t)
  }

  /** How often a run confirms the usage of the transaction, counted on the events. */
  function TimesConfirmed(w: World, es: seq<Event>, t: nat): nat
    requires Allowed(w, es)
    decreases |es|
  {
    if es == [] then 0 else One(ConfirmsNow(w, es[0], t)) + TimesConfirmed(Next(w, es[0]), es[1..], t)
  }

  lemma ConfirmingEvent(w: World, e: Event, t: nat)
    requires Inv(w) && Enabled(w, e) && ConfirmsNow(w, e, t)
    ensures !Confirmed(w, t) && Confirmed(Next(w, e), t)
  {
    var me := w.actors[e.actor];
    AtActor(w, e.actor);
    NotConfirmedIsNotInLedger(w, t);
    UsableConfirms(w, t, me.promo, me.limit, me.agent, me.credit);
  }

  // A promo transaction that is not let through or finds its promo used up.
  lemma FutileEvent(w: World, a: nat, i: Input, t: nat)
    requires Inv(w) && Enabled(w, Move(a, i)) && AppliesUsage(w.actors[a], t) && !ConfirmsNow(w, Move(a, i), t)
    ensures !Confirmed(Step(w, a, i), t)
  {
    var me := w.actors[a];
    AtActor(w, a);
    if !i.DbError? {
      UnusableCancels(w, t, me.promo, me.limit, me.agent, me.credit);
    }
  }

  lemma OtherEvent(w: World, e: Event, t: nat)
    requires Inv(w) && Enabled(w, e) && !AppliesUsage(Mover(w, MoverOf(w, e)), t)
    ensures Confirmed(Next(w, e), t) <==> Confirmed(w, t)
  {
    EventFrames(w, e);
  }

  lemma EventConfirms(w: World, e: Event, t: nat)
    requires Inv(w) && Enabled(w, e)
    ensures One(Confirmed(Next(w, e), t)) == One(Confirmed(w, t)) + One(ConfirmsNow(w, e, t))
  {
    NewActor(w);
    if ConfirmsNow(w, e, t) {
      ConfirmingEvent(w, e, t);
    } else if AppliesUsage(Mover(w, MoverOf(w, e)), t) {
      AtActor(w, e.actor);
      FutileEvent(w, e.actor, e.input, t);
    } else {
      OtherEvent(w, e, t);
    }
  }

  /** A usage becomes CONFIRMED only by a promo transaction that the database lets through while the
      promo is active and below its limit, at most once, and then it stays CONFIRMED. */
  lemma {:induction false} ConfirmationsAreCounted(w: World, es: seq<Event>, t: nat)
    requires Inv(w) && Allowed(w, es)
    ensures One(Confirmed(w, t)) + TimesConfirmed(w, es, t) == One(Confirmed(Exec(w, es), t))
    decreases |es|
  {
    if es != [] {
      EventConfirms(w, es[0], t);
      NextKeeps(w, es[0]);
      ConfirmationsAreCounted(Next(w, es[0]), es[1..], t);
    }
  }

  // ---------- when the usage of a paid transaction can still become CONFIRMED ----------

  /** The confirmation that the payment launched has not read its usage yet, which is PENDING, or is about
      to apply it; and the promo is active and below its limit. */
  ghost predicate Confirmable(w: World, t: nat) {
    && t in w.txs && w.txs[t].launched.Some? && w.txs[t].launched.value in w.actors && t in w.usages
    && var me := w.actors[w.txs[t].launched.value];
       || (me == ReadUsage(t) && w.usages[t].status == UsagePending && PromoUsable(w, w.usages[t].promo))
       || (AppliesUsage(me, t) && PromoUsable(w, w.usages[t].promo))
  }

  predicate PromoUsable(w: World, p: nat) {
    p in w.promos && Usable(w, p, w.promos[p].limit)
  }

  lemma PromoWasUsable(w: World, e: Event, p: nat)
    requires Inv(w) && Enabled(w, e) && PromoUsable(Next(w, e), p)
    ensures PromoUsable(w, p)
  {
    EventFrames(w, e);
  }

  // The usage of a paid transaction was there before the event, and PENDING if it is so now.
  lemma UsageWas(w: World, e: Event, t: nat)
    requires Inv(w) && Enabled(w, e) && Paid(w, t) && t in Next(w, e).usages
    ensures t in w.usages && Next(w, e).usages[t].promo == w.usages[t].promo
    ensures Next(w, e).usages[t].status == UsagePending ==> w.usages[t].status == UsagePending
  {
    EventFrames(w, e);
    AtTx(w, t);
  }

  /** A launched confirmation goes on to the promo transaction exactly when the usage is still PENDING when
      it reads it: a refusal that cancelled it meanwhile ends the matter, although the transaction is paid. */
  lemma AppliedExactlyWhen(w: World, a: nat, i: Input, t: nat)
    requires Inv(w) && Enabled(w, Move(a, i)) && w.actors[a] == ReadUsage(t)
    ensures var after := Step(w, a, i);
            && a in after.actors && Paid(w, t)
            && (AppliesUsage(after.actors[a], t) <==> t in w.usages && w.usages[t].status == UsagePending)
            && after.usages == w.usages
  {
    AtActor(w, a);
    if t in w.usages {
      AtUsage(w, t);
    }
  }

  lemma ActorWas(w: World, e: Event, a: nat, t: nat)
    requires Inv(w) && Enabled(w, e) && a < w.nextActor && a in Next(w, e).actors
    ensures var me := Next(w, e).actors[a];
            && (me == ReadUsage(t) ==> a in w.actors && w.actors[a] == me)
            && (AppliesUsage(me, t) ==>
                  a in w.actors
                  && (w.actors[a] == me
                      || (w.actors[a] == ReadUsage(t) && t in w.usages && w.usages[t].status == UsagePending)))
  {
    EventFrames(w, e);
    if e.Move? && e.actor == a && w.actors[a] == ReadUsage(t) && AppliesUsage(Next(w, e).actors[a], t) {
      AppliedExactlyWhen(w, a, e.input, t);
    }
  }

  lemma ConfirmableBefore(w: World, e: Event, t: nat)
    requires Inv(w) && Enabled(w, e) && Paid(w, t) && Confirmable(Next(w, e), t)
    ensures Confirmable(w, t)
  {
    AtTx(w, t);
    EventRelies(w, e);
    UsageWas(w, e, t);
    PromoWasUsable(w, e, w.usages[t].promo);
    ActorWas(w, e, w.txs[t].launched.value, t);
  }

  lemma ConfirmingIsConfirmable(w: World, e: Event, t: nat)
    requires Inv(w) && Enabled(w, e) && ConfirmsNow(w, e, t)
    ensures Confirmable(w, t)
  {
    AtActor(w, e.actor);
  }

  lemma {:induction false} NeverConfirmed(w: World, es: seq<Event>, t: nat)
    requires Inv(w) && Allowed(w, es) && Paid(w, t) && !Confirmed(w, t) && !Confirmable(w, t)
    ensures !Confirmed(Exec(w, es), t)
    decreases |es|
  {
    if es != [] {
      var e := es[0];
      if ConfirmsNow(w, e, t) {
        ConfirmingIsConfirmable(w, e, t);
      }
      EventConfirms(w, e, t);
      EventRelies(w, e);
      if Confirmable(Next(w, e), t) {
        ConfirmableBefore(w, e, t);
      }
      NeverConfirmed(Next(w, e), es[1..], t);
    }
  }

  lemma AppliedNext(w: World, a: nat, t: nat)
    requires Inv(w) && AppliesUsable(w, a, t)
    ensures Allowed(w, [Move(a, Go)]) && Confirmed(Exec(w, [Move(a, Go)]), t)
  {
    OneMove(w, Move(a, Go));
    ConfirmingEvent(w, Move(a, Go), t);
  }

  lemma ReadNext(w: World, a: nat, t: nat)
    requires Inv(w) && a in w.actors && w.actors[a] == ReadUsage(t)
    requires t in w.usages && w.usages[t].status == UsagePending && PromoUsable(w, w.usages[t].promo)
    ensures Enabled(w, Move(a, Go)) && AppliesUsable(Next(w, Move(a, Go)), a, t)
  {
  }

  lemma CanBeConfirmed(w: World, t: nat) returns (es: seq<Event>)
    requires Inv(w) && Paid(w, t) && Confirmable(w, t)
    ensures Allowed(w, es) && Confirmed(Exec(w, es), t)
  {
    var a := w.txs[t].launched.value;
    AtActor(w, a);
    if w.actors[a] == ReadUsage(t) {
      ReadNext(w, a, t);
      NextKeeps(w, Move(a, Go));
      AppliedNext(Next(w, Move(a, Go)), a, t);
      es := [Move(a, Go), Move(a, Go)];
      assert es[1..] == [Move(a, Go)];
    } else {
      AppliedNext(w, a, t);
      es := [Move(a, Go)];
    }
  }

  predicate LeadsToConfirmed(w: World, es: seq<Event>, t: nat) {
    Allowed(w, es) && Confirmed(Exec(w, es), t)
  }

  /** The usage of a paid transaction can still become CONFIRMED exactly when it is confirmable. So the
      promo is skipped for good when a refusal cancels the usage before it is read, when the promo has been
      used up, and when the database fails the one promo transaction. */
  lemma ConfirmedExactlyIfConfirmable(w: World, t: nat)
    requires Inv(w) && Paid(w, t) && !Confirmed(w, t)
    ensures (exists es :: LeadsToConfirmed(w, es, t)) <==> Confirmable(w, t)
  {
    if Confirmable(w, t) {
      var es := CanBeConfirmed(w, t);
      assert LeadsToConfirmed(w, es, t);
    } else {
      forall es | Allowed(w, es) ensures !LeadsToConfirmed(w, es, t) {
        NeverConfirmed(w, es, t);
      }
    }
  }
}
