/** What the status of an order says about the run of create that wrote it. */
module Verdicts {
  import opened Tables
  import opened Correlation
  import opened Protocol
  import opened Invariant
  import opened SimSteps
  import opened Machine
  import opened Safety

  // ---------- failures of one run ----------

  // buildActivation does not throw.
  predicate Built(i: Input) {
    i.Configured? && |i.stamp| == 14
  }

  /** The step of a run in which it learns that its SIM is not issued: JoyTel or BillionConnect refused
      it, Mobiline's row says FAILED by the time it looks, or the activation cannot be built. */
  predicate Fails(w: World, actor: Actor, i: Input) {
    match actor
    case JoyFail(_, _) => true
    case BcFail(_, _) => true
    case MobCheck(x, _) => x in w.sims && w.sims[x].status == Failed
    case Provision(r) =>
      && r.todo != [] && r.todo[0] in w.sims && w.sims[r.todo[0]].provider == Mobiline
      && !Built(i)
    case _ => false
  }

  predicate FailsNow(w: World, e: Event, a: nat) {
    e.Move? && e.actor == a && a in w.actors && Fails(w, w.actors[a], e.input)
  }

  /** How often the run of `a` fails, counted on the events. */
  function TimesFailed(w: World, es: seq<Event>, a: nat): nat
    requires Allowed(w, es)
    decreases |es|
  {
    if es == [] then 0 else One(FailsNow(w, es[0], a)) + TimesFailed(Next(w, es[0]), es[1..], a)
  }

  // `next` remembers what `actor` knew, and whether it failed now.
  predicate Remembers(actor: Actor, next: Actor, fails: bool)
    requires HasRun(actor)
  {
    HasRun(next) ==> (next.run.failed <==> actor.run.failed || fails)
  }

  lemma JoyTelRemembers(w: World, a: nat, actor: Actor, i: Input)
    requires IsJoyTel(actor)
    ensures a in StepJoyTel(w, a, actor, i).actors
    ensures Remembers(actor, StepJoyTel(w, a, actor, i).actors[a], Fails(w, actor, i))
  {
  }

  lemma BillionRemembers(w: World, a: nat, actor: Actor, i: Input)
    requires IsBillion(actor)
    ensures a in StepBillion(w, a, actor, i).actors
    ensures Remembers(actor, StepBillion(w, a, actor, i).actors[a], Fails(w, actor, i))
  {
  }

  lemma MobilineRemembers(w: World, a: nat, actor: Actor, i: Input)
    requires IsMobiline(actor)
    ensures a in StepMobiline(w, a, actor, i).actors
    ensures Remembers(actor, StepMobiline(w, a, actor, i).actors[a], Fails(w, actor, i))
  {
  }

  lemma MobClaimWins(w: World, a: nat, x: nat, r: Run, i: Input)
    requires Claimable(w, x) && Built(i)
    ensures a in StepMobClaim(w, a, x, r, i).actors && StepMobClaim(w, a, x, r, i).actors[a] == MobSubmit(x, r)
  {
  }

  lemma MobClaimLoses(w: World, a: nat, x: nat, r: Run, i: Input)
    requires x in w.sims && !Claimable(w, x) && Built(i)
    ensures StepMobClaim(w, a, x, r, i) == Return(w, a, r, true)
  {
  }

  lemma MobClaimFails(w: World, a: nat, x: nat, r: Run, i: Input)
    requires x in w.sims && !Built(i)
    ensures a in StepMobClaim(w, a, x, r, i).actors
    ensures StepMobClaim(w, a, x, r, i).actors[a] == Provision(r.(failed := true))
  {
  }

  lemma MobClaimRemembers(w: World, a: nat, x: nat, r: Run, i: Input)
    requires x in w.sims
    ensures a in StepMobClaim(w, a, x, r, i).actors
    ensures var next := StepMobClaim(w, a, x, r, i).actors[a];
            HasRun(next) && (next.run.failed <==> r.failed || !Built(i))
  {
    if !Built(i) {
      MobClaimFails(w, a, x, r, i);
    } else if Claimable(w, x) {
      MobClaimWins(w, a, x, r, i);
    } else {
      MobClaimLoses(w, a, x, r, i);
    }
  }

  lemma WonClaimRemembers(w: World, a: nat, x: nat, r: Run, i: Input)
    requires Claimable(w, x) && (w.sims[x].provider == JoyTel || w.sims[x].provider == BillionConnect)
    ensures a in StepClaim(w, a, x, r, i).actors
    ensures StepClaim(w, a, x, r, i).actors[a] in {JoySubmit(x, r), BcSubmit(x, r)}
  {
  }

  lemma LostClaimRemembers(w: World, a: nat, x: nat, r: Run, i: Input)
    requires !Claimable(w, x) || w.sims[x].provider == OtherProvider
    requires x in w.sims ==> w.sims[x].provider != Mobiline
    ensures StepClaim(w, a, x, r, i) == Return(w, a, r, true)
  {
  }

  lemma ClaimRemembers(w: World, a: nat, x: nat, r: Run, i: Input)
    ensures a in StepClaim(w, a, x, r, i).actors
    ensures var next := StepClaim(w, a, x, r, i).actors[a];
            && HasRun(next)
            && (next.run.failed <==> r.failed || (x in w.sims && w.sims[x].provider == Mobiline && !Built(i)))
  {
    if x in w.sims && w.sims[x].provider == Mobiline {
      MobClaimRemembers(w, a, x, r, i);
    } else if Claimable(w, x) && w.sims[x].provider != OtherProvider {
      WonClaimRemembers(w, a, x, r, i);
    } else {
      LostClaimRemembers(w, a, x, r, i);
    }
  }

  lemma ProvisionRemembers(w: World, a: nat, r: Run, i: Input)
    ensures a in StepProvision(w, a, r, i).actors
    ensures Remembers(Provision(r), StepProvision(w, a, r, i).actors[a], Fails(w, Provision(r), i))
  {
    if r.todo != [] {
      ClaimRemembers(w, a, r.todo[0], r.(todo := r.todo[1..]), i);
    }
  }

  lemma StepInRun(w: World, a: nat, i: Input)
    requires a in w.actors
    ensures var actor, w' := w.actors[a], Step(w, a, i);
            && (IsJoyTel(actor) ==> w' == StepJoyTel(w, a, actor, i))
            && (IsBillion(actor) ==> w' == StepBillion(w, a, actor, i))
            && (IsMobiline(actor) ==> w' == StepMobiline(w, a, actor, i))
            && (actor.Provision? ==> w' == StepProvision(w, a, actor.run, i))
  {
  }

  lemma MoveRemembers(w: World, a: nat, i: Input)
    requires a in w.actors && HasRun(w.actors[a])
    ensures a in Step(w, a, i).actors
    ensures Remembers(w.actors[a], Step(w, a, i).actors[a], Fails(w, w.actors[a], i))
  {
    var actor := w.actors[a];
    StepInRun(w, a, i);
    if IsJoyTel(actor) {
      JoyTelRemembers(w, a, actor, i);
    } else if IsBillion(actor) {
      BillionRemembers(w, a, actor, i);
    } else if IsMobiline(actor) {
      MobilineRemembers(w, a, actor, i);
    } else {
      ProvisionRemembers(w, a, actor.run, i);
    }
  }

  lemma EventRemembers(w: World, e: Event, a: nat)
    requires Inv(w) && Enabled(w, e) && a in w.actors && HasRun(w.actors[a])
    ensures a in Next(w, e).actors && Remembers(w.actors[a], Next(w, e).actors[a], FailsNow(w, e, a))
  {
    EventFrames(w, e);
    NewActor(w);
    if e.Move? && e.actor == a {
      MoveRemembers(w, a, e.input);
    }
  }

  // ---------- the whole run ----------

  predicate InCreate(w: World, a: nat) {
    a in w.actors && (RunsCreate(w.actors[a]) || w.actors[a].Finished?)
  }

  lemma EventAdvances(w: World, e: Event, a: nat)
    requires Inv(w) && Enabled(w, e) && InCreate(w, a)
    ensures InCreate(Next(w, e), a) && RunsLeft(Next(w, e).actors[a]) <= RunsLeft(w.actors[a])
  {
    EventFrames(w, e);
  }

  lemma {:induction false} RunAdvances(w: World, es: seq<Event>, a: nat)
    requires Inv(w) && Allowed(w, es) && InCreate(w, a)
    ensures InCreate(Exec(w, es), a) && RunsLeft(Exec(w, es).actors[a]) <= RunsLeft(w.actors[a])
    decreases |es|
  {
    if es != [] {
      EventAdvances(w, es[0], a);
      NextKeeps(w, es[0]);
      RunAdvances(Next(w, es[0]), es[1..], a);
    }
  }

  // `a` runs create, and as many runs are before it as when it stood at `actor`.
  predicate InRunOf(w: World, a: nat, actor: Actor) {
    a in w.actors && HasRun(w.actors[a]) && RunsLeft(w.actors[a]) == RunsLeft(actor)
  }

  lemma OddRunsLeft(actor: Actor, next: Actor)
    requires HasRun(actor) && RunsLeft(next) == RunsLeft(actor) && (RunsCreate(next) || next.Finished?)
    ensures HasRun(next)
  {
  }

  // Between two instants of the same run an actor does not leave it.
  lemma StillInRun(w: World, e: Event, es: seq<Event>, a: nat)
    requires Inv(w) && Enabled(w, e) && Allowed(Next(w, e), es)
    requires a in w.actors && HasRun(w.actors[a]) && InRunOf(Exec(Next(w, e), es), a, w.actors[a])
    ensures InRunOf(Next(w, e), a, w.actors[a])
  {
    EventAdvances(w, e, a);
    NextKeeps(w, e);
    RunAdvances(Next(w, e), es, a);
    OddRunsLeft(w.actors[a], Next(w, e).actors[a]);
  }

  /** As long as an actor is in the same run of create, the run knows that a SIM failed exactly when it
      did: it knew so before, or one failed meanwhile. */
  lemma {:induction false} FailuresAreRemembered(w: World, es: seq<Event>, a: nat)
    requires Inv(w) && Allowed(w, es) && a in w.actors && HasRun(w.actors[a])
    requires InRunOf(Exec(w, es), a, w.actors[a])
    ensures Exec(w, es).actors[a].run.failed <==> w.actors[a].run.failed || TimesFailed(w, es, a) > 0
    decreases |es|
  {
    if es != [] {
      StillInRun(w, es[0], es[1..], a);
      EventRemembers(w, es[0], a);
      NextKeeps(w, es[0]);
      FailuresAreRemembered(Next(w, es[0]), es[1..], a);
    }
  }

  lemma ConcludingWrites(w: World, a: nat, i: Input)
    requires Inv(w) && a in w.actors && w.actors[a].Provision? && w.actors[a].run.todo == []
    ensures var r, w' := w.actors[a].run, Step(w, a, i);
            r.order in w.orders && w'.orders == w.orders[r.order := w.orders[r.order].(status := Verdict(r))]
  {
    AtActor(w, a);
  }

  lemma RunStarts(w: World, a: nat, i: Input)
    requires a in w.actors && w.actors[a].ReadOrder? && i.OrderRow? && i.todo != []
    ensures var me, w' := w.actors[a], Step(w, a, i);
            a in w'.actors && w'.actors[a] == Provision(Run(me.tx, i.order, i.todo, false, me.rest, me.batch))
  {
  }

  /** A run of create that has read its order with SIMs to issue, and comes to the end of its list, whatever
      happens meanwhile: the status it then writes is FAILED exactly when one of its SIMs failed in this
      run, and else COMPLETED. */
  lemma OrderGetsItsVerdict(w: World, a: nat, i: Input, es: seq<Event>, j: Input)
    requires Inv(w) && Enabled(w, Move(a, i)) && w.actors[a].ReadOrder? && i.OrderRow? && i.todo != []
    requires Allowed(Next(w, Move(a, i)), es)
    requires var last := Exec(Next(w, Move(a, i)), es);
             && a in last.actors && Concludes(last.actors[a], i.order)
             && |last.actors[a].run.rest| == |w.actors[a].rest|
    ensures var start := Next(w, Move(a, i));
            var after := Step(Exec(start, es), a, j);
            && i.order in after.orders
            && after.orders[i.order].status == if TimesFailed(start, es, a) > 0 then Failed else Completed
  {
    var start := Next(w, Move(a, i));
    RunStarts(w, a, i);
    NextKeeps(w, Move(a, i));
    RunKeeps(start, es);
    FailuresAreRemembered(start, es, a);
    ConcludingWrites(Exec(start, es), a, j);
  }

  // ---------- who writes the status of an order ----------

  predicate ConcludesNow(w: World, e: Event, o: nat) {
    e.Move? && e.actor in w.actors && Concludes(w.actors[e.actor], o)
  }

  lemma CancellingWrites(w: World, e: Event, o: nat)
    requires Inv(w) && Enabled(w, e) && CancelsNow(w, e, o)
    ensures o in Next(w, e).orders && Next(w, e).orders[o].status == Failed
  {
  }

  /** The status of an order is that of its last writer: the run of create that comes to its end writes
      its verdict, the stale-order job FAILED, and no other event changes it. */
  lemma LastWriterWins(w: World, e: Event, o: nat)
    requires Inv(w) && Enabled(w, e) && o in w.orders
    ensures o in Next(w, e).orders
    ensures Next(w, e).orders[o].status ==
            if ConcludesNow(w, e, o) then Verdict(w.actors[e.actor].run)
            else if CancelsNow(w, e, o) then Failed
            else w.orders[o].status
  {
    EventRelies(w, e);
    NewActor(w);
    if ConcludesNow(w, e, o) {
      ConcludingWrites(w, e.actor, e.input);
    } else if CancelsNow(w, e, o) {
      CancellingWrites(w, e, o);
    }
  }

  /** The status a run writes into the order last: a verdict, FAILED by a cancellation, or none. */
  function WrittenLast(w: World, es: seq<Event>, o: nat): Option<Status>
    requires Allowed(w, es)
    decreases |es|
  {
    if es == [] then None
    else
      var later := WrittenLast(Next(w, es[0]), es[1..], o);
      if later.Some? then later
      else if ConcludesNow(w, es[0], o) then Some(Verdict(w.actors[es[0].actor].run))
      else if CancelsNow(w, es[0], o) then Some(Failed)
      else None
  }

  // The status before the run, CREATED if the order is new since.
  function StatusBefore(w: World, o: nat): Status {
    if o in w.orders then w.orders[o].status else Created
  }

  lemma EventWrites(w: World, e: Event, o: nat)
    requires Inv(w) && Enabled(w, e)
    ensures StatusBefore(Next(w, e), o) ==
            if ConcludesNow(w, e, o) then Verdict(w.actors[e.actor].run)
            else if CancelsNow(w, e, o) then Failed
            else StatusBefore(w, o)
  {
    if o in w.orders {
      LastWriterWins(w, e, o);
    } else {
      EventRelies(w, e);
      if ConcludesNow(w, e, o) {
        AtActor(w, e.actor);
      }
    }
  }

  lemma {:induction false} StatusIsWrittenLast(w: World, es: seq<Event>, o: nat)
    requires Inv(w) && Allowed(w, es)
    ensures StatusBefore(Exec(w, es), o) ==
            if WrittenLast(w, es, o).Some? then WrittenLast(w, es, o).value else StatusBefore(w, o)
    decreases |es|
  {
    if es != [] {
      EventWrites(w, es[0], o);
      NextKeeps(w, es[0]);
      StatusIsWrittenLast(Next(w, es[0]), es[1..], o);
    }
  }

  /** In every run the status of an order is what was written into it last, by the end of a run of create or
      by a cancellation, and CREATED before. An order is CREATED, cancelled and FAILED, or paid; and when it
      is COMPLETED, none of its SIMs waits for its issue any more. */
  lemma OrderStatusMeans(w: World, es: seq<Event>, o: nat)
    requires Initial(w) && Allowed(w, es) && o in Exec(w, es).orders
    ensures var last, row := Exec(w, es), Exec(w, es).orders[o];
            && row.status == (if WrittenLast(w, es, o).Some? then WrittenLast(w, es, o).value else Created)
            && (row.status == Created || (row.cancelled && row.status == Failed) || Paid(last, row.tx))
            && (row.status == Completed ==>
                  && Paid(last, row.tx)
                  && forall x | x in last.sims && last.sims[x].order == o :: last.sims[x].status != Created)
  {
    InitialInv(w);
    Reached(w, es);
    StatusIsWrittenLast(w, es, o);
    AtOrder(Exec(w, es), o);
    CompletedIsDrained(Exec(w, es), o);
  }
}
