/** The stale-order job: what a tick leaves of the orders it has listed. */
module Cancellations {
  import opened Tables
  import opened Protocol
  import opened Invariant
  import opened SimSteps
  import opened Machine
  import opened Safety
  import opened Baskets

  // The order is cancelled, or paid for.
  ghost predicate Decided(w: World, o: nat) {
    o in w.orders && (w.orders[o].cancelled || Paid(w, w.orders[o].tx))
  }

  lemma DecidedStays(w: World, e: Event, o: nat)
    requires Inv(w) && Enabled(w, e) && Decided(w, o)
    ensures Decided(Next(w, e), o)
  {
    EventRelies(w, e);
  }

  lemma OrdersStay(w: World, e: Event, o: nat)
    requires Inv(w) && Enabled(w, e) && o in w.orders
    ensures o in Next(w, e).orders
  {
    EventRelies(w, e);
  }

  // An order that the job passes over is decided already.
  lemma PassedIsDecided(w: World, o: nat)
    requires Inv(w) && o in w.orders && !Cancels(w, o)
    ensures Decided(w, o)
  {
    AtOrder(w, o);
    if AnyPaid(w, o) {
      var t :| t in w.txs && w.txs[t].order == Some(o) && PaidStatus(w.txs[t].status);
      AtTx(w, t);
    }
  }

  predicate IsStaleJob(actor: Actor) {
    actor.Stale? || actor.StaleUsages? || actor.Finished?
  }

  // The orders the job has still before it.
  function Listed(actor: Actor): seq<StaleOrder>
    requires IsStaleJob(actor)
  {
    if actor.Finished? then [] else actor.list
  }

  /** Of the orders of a tick, those the job has passed are decided. */
  ghost predicate WorksOff(w: World, a: nat, list: seq<StaleOrder>) {
    && a in w.actors && IsStaleJob(w.actors[a])
    && forall s | s in list :: s.order in w.orders && (Decided(w, s.order) || s in Listed(w.actors[a]))
  }

  lemma CancelMoves(w: World, a: nat, i: Input)
    requires Inv(w) && a in w.actors && w.actors[a].Stale? && w.actors[a].list != []
    requires Cancels(w, w.actors[a].list[0].order)
    ensures var o, w' := w.actors[a].list[0].order, Step(w, a, i);
            && a in w'.actors && w'.actors[a] == StaleUsages(w.actors[a].list[0].txs, w.actors[a].list[1..])
            && o in w'.orders && w'.orders[o].cancelled
  {
  }

  lemma PassMoves(w: World, a: nat, i: Input)
    requires a in w.actors && w.actors[a].Stale? && w.actors[a].list != []
    requires !Cancels(w, w.actors[a].list[0].order)
    ensures Step(w, a, i) == Become(w, a, Stale(w.actors[a].list[1..]))
  {
  }

  // The order is given up: it and its CREATED SIMs are FAILED, its PENDING transactions CANCELED.
  ghost predicate GivesUp(w: World, w': World, o: nat) {
    && o in w.orders && w'.orders == w.orders[o := w.orders[o].(status := Failed, cancelled := true)]
    && w'.sims.Keys == w.sims.Keys && w'.txs.Keys == w.txs.Keys && w'.usages == w.usages
    && (forall x | x in w.sims ::
          w'.sims[x] == if w.sims[x].order == o && w.sims[x].status == Created
                        then w.sims[x].(status := Failed) else w.sims[x])
    && (forall t | t in w.txs ::
          w'.txs[t] == if w.txs[t].order == Some(o) && w.txs[t].status == TxPending
                       then w.txs[t].(status := TxCanceled) else w.txs[t])
  }

  lemma CancelledGivesUp(w: World, o: nat)
    requires o in w.orders
    ensures GivesUp(w, CancelOrder(w, o), o)
  {
  }

  lemma CancelsByCancelling(w: World, a: nat, i: Input)
    requires a in w.actors && w.actors[a].Stale? && w.actors[a].list != [] && Cancels(w, w.actors[a].list[0].order)
    ensures var me := w.actors[a];
            Step(w, a, i) == Become(CancelOrder(w, me.list[0].order), a, StaleUsages(me.list[0].txs, me.list[1..]))
  {
  }

  /** When the job comes to an order it cancels it exactly if the order is CREATED and no transaction of it is SUCCESS
      or WAITING. Then the order is FAILED, and so are its CREATED SIMs, its PENDING transactions are CANCELED, and
      the usages of its transactions are next; every other row stays as it is. */
  lemma StaleOrderDecides(w: World, a: nat, i: Input)
    requires a in w.actors && w.actors[a].Stale? && w.actors[a].list != []
    ensures var o, rest := w.actors[a].list[0].order, w.actors[a].list[1..];
            var unpaid := forall t | t in w.txs && w.txs[t].order == Some(o) ::
                            w.txs[t].status !in {TxSuccess, TxWaiting};
            if o in w.orders && w.orders[o].status == Created && unpaid then
              GivesUp(w, Step(w, a, i), o) && Stands(Step(w, a, i), a, StaleUsages(w.actors[a].list[0].txs, rest))
            else Step(w, a, i) == w.(actors := w.actors[a := Stale(rest)])
  {
    var o := w.actors[a].list[0].order;
    if Cancels(w, o) {
      CancelsByCancelling(w, a, i);
      CancelledGivesUp(w, o);
    } else {
      PassMoves(w, a, i);
    }
  }

  lemma EndMoves(w: World, a: nat, i: Input)
    requires a in w.actors && (w.actors[a] == Stale([]) || w.actors[a].Finished?)
    ensures a in Step(w, a, i).actors && Step(w, a, i).actors[a].Finished?
  {
  }

  lemma UsageMoves(w: World, a: nat, i: Input)
    requires a in w.actors && w.actors[a].StaleUsages?
    ensures var me := w.actors[a];
            && a in Step(w, a, i).actors
            && Step(w, a, i).actors[a] ==
               if me.txs == [] then Stale(me.list) else StaleUsages(me.txs[1..], me.list)
  {
  }

  // The next list of the job is the rest, and what it has dropped is decided after its move.
  lemma MoveDecides(w: World, a: nat, i: Input, s: StaleOrder)
    requires Inv(w) && Enabled(w, Move(a, i)) && IsStaleJob(w.actors[a]) && s in Listed(w.actors[a])
    requires s.order in w.orders
    ensures a in Step(w, a, i).actors && IsStaleJob(Step(w, a, i).actors[a])
    ensures Decided(Step(w, a, i), s.order) || s in Listed(Step(w, a, i).actors[a])
  {
    var me := w.actors[a];
    if me.StaleUsages? {
      UsageMoves(w, a, i);
    } else {
      assert me.list == [me.list[0]] + me.list[1..];
      if Cancels(w, me.list[0].order) {
        CancelMoves(w, a, i);
      } else {
        PassMoves(w, a, i);
        if s == me.list[0] {
          PassedIsDecided(w, s.order);
          DecidedStays(w, Move(a, i), s.order);
        }
      }
    }
  }

  lemma StaysStaleJob(w: World, a: nat, i: Input)
    requires Inv(w) && a in w.actors && IsStaleJob(w.actors[a])
    ensures a in Step(w, a, i).actors && IsStaleJob(Step(w, a, i).actors[a])
  {
    var me := w.actors[a];
    if me.StaleUsages? {
      UsageMoves(w, a, i);
    } else if me.Finished? || me.list == [] {
      EndMoves(w, a, i);
    } else if Cancels(w, me.list[0].order) {
      CancelMoves(w, a, i);
    } else {
      PassMoves(w, a, i);
    }
  }

  lemma EventWorksOff(w: World, e: Event, a: nat, list: seq<StaleOrder>)
    requires Inv(w) && Enabled(w, e) && WorksOff(w, a, list)
    ensures WorksOff(Next(w, e), a, list)
  {
    if e.Move? && e.actor == a {
      StaysStaleJob(w, a, e.input);
    } else {
      OthersWait(w, e, a);
    }
    forall s | s in list
      ensures s.order in Next(w, e).orders
      ensures Decided(Next(w, e), s.order) || s in Listed(Next(w, e).actors[a])
    {
      OrdersStay(w, e, s.order);
      if Decided(w, s.order) {
        DecidedStays(w, e, s.order);
      } else if e.Move? && e.actor == a {
        MoveDecides(w, a, e.input, s);
      }
    }
  }

  lemma {:induction false} RunWorksOff(w: World, es: seq<Event>, a: nat, list: seq<StaleOrder>)
    requires Inv(w) && Allowed(w, es) && WorksOff(w, a, list)
    ensures WorksOff(Exec(w, es), a, list)
    decreases |es|
  {
    if es != [] {
      EventWorksOff(w, es[0], a, list);
      NextKeeps(w, es[0]);
      RunWorksOff(Next(w, es[0]), es[1..], a, list);
    }
  }

  lemma StaleTickStarts(w: World, list: seq<StaleOrder>)
    requires Inv(w) && Enabled(w, StaleTick(list))
    ensures WorksOff(Next(w, StaleTick(list)), w.nextActor, list)
  {
    forall s | s in list ensures s.order in w.orders {
      assert StaleRow(w, s);
    }
  }

  lemma NeverBoth(w: World, o: nat)
    requires Inv(w) && Decided(w, o)
    ensures w.orders[o].cancelled <==> !Paid(w, w.orders[o].tx)
  {
    AtOrder(w, o);
  }

  /** Once a tick of the stale-order job is worked off, every order it had listed is cancelled or paid for, and
      never both, whatever the bank and all other calls did meanwhile. */
  lemma TickDecides(w: World, list: seq<StaleOrder>, es: seq<Event>, s: StaleOrder)
    requires Inv(w) && Enabled(w, StaleTick(list)) && Allowed(Next(w, StaleTick(list)), es) && s in list
    requires var last := Exec(Next(w, StaleTick(list)), es);
             w.nextActor in last.actors && last.actors[w.nextActor].Finished?
    ensures var last := Exec(Next(w, StaleTick(list)), es);
            s.order in last.orders
            && (last.orders[s.order].cancelled <==> !Paid(last, last.orders[s.order].tx))
  {
    StaleTickStarts(w, list);
    NextKeeps(w, StaleTick(list));
    RunWorksOff(Next(w, StaleTick(list)), es, w.nextActor, list);
    RunKeeps(Next(w, StaleTick(list)), es);
    NeverBoth(Exec(Next(w, StaleTick(list)), es), s.order);
  }

  // How many usages of the order at hand the job has still to cancel.
  function UsagesLeft(actor: Actor): nat {
    if actor.StaleUsages? then |actor.txs| + 1 else 0
  }

  lemma OwnMove(w: World, a: nat)
    requires Inv(w) && a in w.actors && IsStaleJob(w.actors[a]) && !w.actors[a].Finished?
    ensures var next := Step(w, a, Go).actors;
            && a in next && IsStaleJob(next[a])
            && (next[a].Finished? || |Listed(next[a])| < |Listed(w.actors[a])|
                || (Listed(next[a]) == Listed(w.actors[a]) && UsagesLeft(next[a]) < UsagesLeft(w.actors[a])))
  {
    var me := w.actors[a];
    if me.StaleUsages? {
      UsageMoves(w, a, Go);
    } else if me.list == [] {
      EndMoves(w, a, Go);
    } else if Cancels(w, me.list[0].order) {
      CancelMoves(w, a, Go);
    } else {
      PassMoves(w, a, Go);
    }
  }

  /** From every reachable world a started tick can be worked off by its own moves alone. */
  lemma TickCanEnd(w: World, a: nat) returns (es: seq<Event>)
    requires Inv(w) && a in w.actors && IsStaleJob(w.actors[a])
    ensures Allowed(w, es) && (forall e | e in es :: e == Move(a, Go))
    ensures a in Exec(w, es).actors && Exec(w, es).actors[a].Finished?
    decreases !w.actors[a].Finished?, |Listed(w.actors[a])|, UsagesLeft(w.actors[a])
  {
    es := [];
    if !w.actors[a].Finished? {
      OwnMove(w, a);
      NextKeeps(w, Move(a, Go));
      var rest := TickCanEnd(Next(w, Move(a, Go)), a);
      es := [Move(a, Go)] + rest;
      assert es[1..] == rest;
    }
  }

  // ---------- the usages of a cancelled order ----------

  // The job is at the usages of an order it has cancelled, and this one is among them.
  predicate Sweeps(actor: Actor, t: nat) {
    actor.StaleUsages? && t in actor.txs
  }

  predicate ToBeSwept(w: World, t: nat) {
    exists a | a in w.actors :: Sweeps(w.actors[a], t)
  }

  // The usage of a cancelled order's transaction.
  ghost predicate Orphaned(w: World, t: nat) {
    && t in w.usages && w.usages[t].status == UsagePending && t in w.txs && w.txs[t].order.Some?
    && w.txs[t].order.value in w.orders && w.orders[w.txs[t].order.value].cancelled
  }

  // The jobs know the transaction of each order on their lists.
  ghost predicate Informed(w: World, actor: Actor) {
    actor.Stale? || actor.StaleUsages? ==>
      forall s | s in actor.list :: s.order in w.orders && w.orders[s.order].tx in s.txs
  }

  ghost predicate Swept(w: World) {
    && (forall a | a in w.actors :: Informed(w, w.actors[a]))
    && (forall t | Orphaned(w, t) :: ToBeSwept(w, t))
  }

  lemma InformedStays(w: World, e: Event, actor: Actor)
    requires Inv(w) && Enabled(w, e) && Informed(w, actor)
    ensures Informed(Next(w, e), actor)
  {
    EventRelies(w, e);
  }

  lemma MoverInformed(w: World, a: nat, i: Input)
    requires Inv(w) && Enabled(w, Move(a, i)) && IsStaleJob(w.actors[a]) && Informed(w, w.actors[a])
    ensures a in Step(w, a, i).actors && Informed(w, Step(w, a, i).actors[a])
  {
    var me := w.actors[a];
    if me.StaleUsages? {
      UsageMoves(w, a, i);
    } else if me.Finished? || me.list == [] {
      EndMoves(w, a, i);
    } else if Cancels(w, me.list[0].order) {
      CancelMoves(w, a, i);
    } else {
      PassMoves(w, a, i);
    }
  }

  lemma StarterInformed(w: World, e: Event)
    requires Inv(w) && Enabled(w, e) && !e.Move? && w.nextActor in Next(w, e).actors
    ensures Informed(w, Next(w, e).actors[w.nextActor])
  {
    NewActor(w);
    if e.StaleTick? {
      forall s | s in e.list ensures s.order in w.orders && w.orders[s.order].tx in s.txs {
        assert StaleRow(w, s);
        AtOrder(w, s.order);
      }
    }
  }

  lemma ActorInformed(w: World, e: Event, a: nat)
    requires Inv(w) && Enabled(w, e) && (a in w.actors ==> Informed(w, w.actors[a])) && a in Next(w, e).actors
    ensures Informed(Next(w, e), Next(w, e).actors[a])
  {
    if a in w.actors {
      if e.Move? && e.actor == a {
        EventFrames(w, e);
        if IsStaleJob(w.actors[a]) {
          MoverInformed(w, a, e.input);
          InformedStays(w, e, Next(w, e).actors[a]);
        }
      } else {
        OthersWait(w, e, a);
        InformedStays(w, e, w.actors[a]);
      }
    } else if e.Move? {
      EventFrames(w, e);
    } else {
      OneStarts(w, e, a);
      StarterInformed(w, e);
      InformedStays(w, e, Next(w, e).actors[a]);
    }
  }

  lemma OneStarts(w: World, e: Event, a: nat)
    requires Enabled(w, e) && !e.Move? && a in Next(w, e).actors && a !in w.actors
    ensures a == w.nextActor
  {
  }

  // A run of create does not cancel the order it concludes: it is paid.
  lemma NewlyCancelled(w: World, e: Event, o: nat)
    requires Inv(w) && Enabled(w, e) && o in Next(w, e).orders && Next(w, e).orders[o].cancelled
    ensures o in w.orders && (w.orders[o].cancelled || CancelsNow(w, e, o))
  {
    OrderWritten(w, e, o);
    NewActor(w);
    NextKeeps(w, e);
    AtOrder(Next(w, e), o);
    if o in w.orders && !w.orders[o].cancelled {
      AtOrder(w, o);
      if e.Move? && Concludes(w.actors[e.actor], o) {
        ConcluderIsPaid(w, e.actor, o);
      }
      if Paid(w, w.orders[o].tx) {
        PaidForGood(w, e, w.orders[o].tx);
      }
    }
  }

  lemma PaidForGood(w: World, e: Event, t: nat)
    requires Inv(w) && Enabled(w, e) && Paid(w, t)
    ensures Paid(Next(w, e), t)
  {
    EventRelies(w, e);
  }

  lemma ConcluderIsPaid(w: World, a: nat, o: nat)
    requires Inv(w) && a in w.actors && Concludes(w.actors[a], o)
    ensures o in w.orders && Paid(w, w.orders[o].tx)
  {
    AtActor(w, a);
  }

  // What the job writes about a usage it comes to.
  lemma SweeperWrites(w: World, a: nat, i: Input, t: nat)
    requires a in w.actors && w.actors[a].StaleUsages? && w.actors[a].txs != [] && w.actors[a].txs[0] == t
    ensures t in Step(w, a, i).usages ==> Step(w, a, i).usages[t].status != UsagePending
  {
  }

  lemma StillSwept(w: World, e: Event, t: nat)
    requires Inv(w) && Enabled(w, e) && ToBeSwept(w, t)
    requires t in Next(w, e).usages && Next(w, e).usages[t].status == UsagePending
    ensures ToBeSwept(Next(w, e), t)
  {
    var a :| a in w.actors && Sweeps(w.actors[a], t);
    if e.Move? && e.actor == a {
      var txs := w.actors[a].txs;
      UsageMoves(w, a, e.input);
      assert txs == [txs[0]] + txs[1..];
      if txs[0] == t {
        SweeperWrites(w, a, e.input, t);
      }
    } else {
      OthersWait(w, e, a);
    }
    assert a in Next(w, e).actors && Sweeps(Next(w, e).actors[a], t);
  }

  lemma CancelledIsSwept(w: World, e: Event, t: nat)
    requires Inv(w) && Enabled(w, e) && Swept(w) && Orphaned(Next(w, e), t)
    requires CancelsNow(w, e, Next(w, e).txs[t].order.value)
    ensures ToBeSwept(Next(w, e), t)
  {
    var o, me := Next(w, e).txs[t].order.value, w.actors[e.actor];
    assert Informed(w, me);
    assert me.list[0] in me.list;
    CancelMoves(w, e.actor, e.input);
    NextKeeps(w, e);
    AtTx(Next(w, e), t);
    EventRelies(w, e);
    assert Sweeps(Next(w, e).actors[e.actor], t);
  }

  lemma OrphanedBefore(w: World, e: Event, t: nat)
    requires Inv(w) && Enabled(w, e) && Orphaned(Next(w, e), t)
    requires var o := Next(w, e).txs[t].order.value; o in w.orders && w.orders[o].cancelled
    ensures Orphaned(w, t)
  {
    var o := Next(w, e).txs[t].order.value;
    AtOrder(w, o);
    LinkedBefore(w, e, t, o);
    if t !in w.usages {
      NewUsageBy(w, e, t);
      WriterKnows(w, e.actor);
    }
    EventFrames(w, e);
  }

  lemma LinkedBefore(w: World, e: Event, t: nat, o: nat)
    requires Inv(w) && Enabled(w, e) && t in Next(w, e).txs && Next(w, e).txs[t].order == Some(o)
    requires o in w.orders && w.orders[o].prepared
    ensures t in w.txs && w.txs[t].order == Some(o)
  {
    TxTraced(w, e, t);
    NewActor(w);
    if t in w.txs && w.txs[t].order != Some(o) {
      WriterKnows(w, e.actor);
    }
  }

  lemma EventSwept(w: World, e: Event)
    requires Inv(w) && Enabled(w, e) && Swept(w)
    ensures Swept(Next(w, e))
  {
    forall a | a in Next(w, e).actors ensures Informed(Next(w, e), Next(w, e).actors[a]) {
      ActorInformed(w, e, a);
    }
    forall t | Orphaned(Next(w, e), t) ensures ToBeSwept(Next(w, e), t) {
      var o := Next(w, e).txs[t].order.value;
      NewlyCancelled(w, e, o);
      if CancelsNow(w, e, o) {
        CancelledIsSwept(w, e, t);
      } else {
        OrphanedBefore(w, e, t);
        StillSwept(w, e, t);
      }
    }
  }

  lemma {:induction false} RunSwept(w: World, es: seq<Event>)
    requires Inv(w) && Allowed(w, es) && Swept(w)
    ensures Inv(Exec(w, es)) && Swept(Exec(w, es))
    decreases |es|
  {
    if es != [] {
      EventSwept(w, es[0]);
      NextKeeps(w, es[0]);
      RunSwept(Next(w, es[0]), es[1..]);
    }
  }

  /** In every run the usage of a cancelled order is CANCELED, or a running job still has it on its list. */
  lemma CancelledUsagesEnd(w: World, es: seq<Event>, t: nat)
    requires Initial(w) && Allowed(w, es)
    requires var last := Exec(w, es);
             && t in last.usages && t in last.txs && last.txs[t].order.Some?
             && last.txs[t].order.value in last.orders && last.orders[last.txs[t].order.value].cancelled
    ensures var last := Exec(w, es);
            || last.usages[t].status == UsageCanceled
            || exists a | a in last.actors :: last.actors[a].StaleUsages? && t in last.actors[a].txs
  {
    InitialInv(w);
    RunSwept(w, es);
    var last := Exec(w, es);
    AtUsage(last, t);
    AtOrder(last, last.txs[t].order.value);
    AtTx(last, t);
    if last.usages[t].status == UsagePending {
      assert ToBeSwept(last, t);
      var a :| a in last.actors && Sweeps(last.actors[a], t);
    }
  }
}
