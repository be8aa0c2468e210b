/** What a checkout leaves in the tables: the rows that belong to its transaction are those of its basket, for
    good. */
module Baskets {
  import opened Tables
  import opened Protocol
  import opened Invariant
  import opened SimSteps
  import opened Machine
  import opened Safety
  import opened Answers

  /** The SIMs of an order at a provider. */
  function SimsOf(w: World, o: nat, p: Provider): set<nat> {
    set x | x in w.sims && w.sims[x].order == o && w.sims[x].provider == p
  }

  // What the checkout was asked for.
  datatype Basket = Basket(user: nat, units: seq<Provider>, offer: Option<Offer>)

  // The order has a SIM for each unit but those still to come.
  ghost predicate Filled(w: World, o: nat, units: seq<Provider>, rest: seq<Provider>) {
    forall p :: |SimsOf(w, o, p)| + multiset(rest)[p] == multiset(units)[p]
  }

  // The transaction has a usage exactly if a promo code was accepted, with its amounts.
  ghost predicate Promoted(w: World, t: nat, o: nat, b: Basket) {
    match b.offer
    case None => t !in w.usages
    case Some(offer) =>
      t in w.usages
      && w.usages[t] == Usage(w.usages[t].status, offer.promo, b.user, o, offer.discount, offer.credit)
  }

  ghost predicate BoughtBy(w: World, t: nat, user: nat) {
    t in w.txs && w.txs[t].user == Some(user)
  }

  /** What the checkout of the basket has written when it stands there. */
  ghost predicate Underway(w: World, actor: Actor, b: Basket)
    requires Ordering(actor)
  {
    match actor
    case MakeTx(user, units, offer) => b == Basket(user, units, offer)
    case MakeOrder(t, user, units, offer) => b == Basket(user, units, offer) && BoughtBy(w, t, user)
    case LinkOrder(t, o, user, units, offer) =>
      b == Basket(user, units, offer) && BoughtBy(w, t, user) && Filled(w, o, [], [])
    case MakeUsage(t, o, user, units, offer) =>
      b == Basket(user, units, offer) && BoughtBy(w, t, user) && Filled(w, o, [], [])
    case MakeSims(t, o, rest) => BoughtBy(w, t, b.user) && Promoted(w, t, o, b) && Filled(w, o, b.units, rest)
    case InitPayment(t) => Complete(w, t, b)
  }

  /** All rows of the transaction are those of the basket. */
  ghost predicate Complete(w: World, t: nat, b: Basket) {
    && BoughtBy(w, t, b.user) && w.txs[t].order.Some?
    && var o := w.txs[t].order.value;
       o in w.orders && w.orders[o].tx == t && w.orders[o].prepared
       && Promoted(w, t, o, b) && forall p :: |SimsOf(w, o, p)| == multiset(b.units)[p]
  }

  // ---------- rows that stay ----------

  // Nobody adds a SIM to the order, or a usage to the transaction, in this event.
  ghost predicate Closed(w: World, e: Event, t: nat, o: nat) {
    && t in w.txs && o in w.orders && w.orders[o].tx == t
    && (w.orders[o].prepared || w.txs[t].prep != MoverOf(w, e))
  }

  // What a checkout knows of the order it is writing.
  lemma WriterKnows(w: World, a: nat)
    requires Inv(w) && a in w.actors
    requires w.actors[a].LinkOrder? || w.actors[a].MakeUsage? || w.actors[a].MakeSims?
    ensures var t, o := w.actors[a].tx, w.actors[a].order;
            && t in w.txs && w.txs[t].prep == a && o in w.orders && w.orders[o].tx == t && !w.orders[o].prepared
            && (!w.actors[a].LinkOrder? ==> w.txs[t].order == Some(o))
            && (!w.actors[a].MakeSims? ==> t !in w.usages)
  {
    AtActor(w, a);
  }

  lemma NewSimBy(w: World, e: Event, x: nat)
    requires Inv(w) && Enabled(w, e) && x in Next(w, e).sims && x !in w.sims
    ensures e.Move? && w.actors[e.actor].MakeSims? && Next(w, e).sims[x].order == w.actors[e.actor].order
  {
    EventRelies(w, e);
    NewActor(w);
  }

  lemma NewUsageBy(w: World, e: Event, t: nat)
    requires Inv(w) && Enabled(w, e) && t in Next(w, e).usages && t !in w.usages
    ensures e.Move? && w.actors[e.actor].MakeUsage? && w.actors[e.actor].tx == t
  {
    EventFrames(w, e);
    NewActor(w);
  }

  lemma NoNewSims(w: World, e: Event, t: nat, o: nat, x: nat)
    requires Inv(w) && Enabled(w, e) && Closed(w, e, t, o) && x in Next(w, e).sims && Next(w, e).sims[x].order == o
    ensures x in w.sims
  {
    if x !in w.sims {
      NewSimBy(w, e, x);
      WriterKnows(w, e.actor);
    }
  }

  lemma SameSimsOf(w: World, e: Event, t: nat, o: nat, p: Provider)
    requires Inv(w) && Enabled(w, e) && Closed(w, e, t, o)
    ensures SimsOf(Next(w, e), o, p) == SimsOf(w, o, p)
  {
    forall x ensures x in SimsOf(Next(w, e), o, p) <==> x in SimsOf(w, o, p) {
      if x in w.sims {
        SimIsPlaced(w, e, x);
      } else if x in SimsOf(Next(w, e), o, p) {
        NoNewSims(w, e, t, o, x);
      }
    }
  }

  lemma SimIsPlaced(w: World, e: Event, x: nat)
    requires Inv(w) && Enabled(w, e) && x in w.sims
    ensures x in Next(w, e).sims
    ensures Next(w, e).sims[x].order == w.sims[x].order && Next(w, e).sims[x].provider == w.sims[x].provider
  {
    EventRelies(w, e);
  }

  lemma NoNewUsage(w: World, e: Event, t: nat, o: nat)
    requires Inv(w) && Enabled(w, e) && Closed(w, e, t, o) && w.txs[t].order == Some(o)
    ensures t in Next(w, e).usages ==> t in w.usages
  {
    if t in Next(w, e).usages && t !in w.usages {
      NewUsageBy(w, e, t);
      WriterKnows(w, e.actor);
    }
  }

  lemma SamePromotion(w: World, e: Event, t: nat, o: nat, b: Basket)
    requires Inv(w) && Enabled(w, e) && Closed(w, e, t, o) && w.txs[t].order == Some(o) && Promoted(w, t, o, b)
    ensures Promoted(Next(w, e), t, o, b)
  {
    NoNewUsage(w, e, t, o);
    EventFrames(w, e);
  }

  lemma SameBuyer(w: World, e: Event, t: nat, user: nat)
    requires Inv(w) && Enabled(w, e) && BoughtBy(w, t, user)
    ensures BoughtBy(Next(w, e), t, user)
  {
    EventRelies(w, e);
  }

  lemma CompleteStays(w: World, e: Event, t: nat, b: Basket)
    requires Inv(w) && Enabled(w, e) && Complete(w, t, b)
    ensures Complete(Next(w, e), t, b)
  {
    var o := w.txs[t].order.value;
    EventRelies(w, e);
    SamePromotion(w, e, t, o, b);
    forall p ensures |SimsOf(Next(w, e), o, p)| == multiset(b.units)[p] {
      SameSimsOf(w, e, t, o, p);
    }
  }

  lemma {:induction false} CompleteForARun(w: World, es: seq<Event>, t: nat, b: Basket)
    requires Inv(w) && Allowed(w, es) && Complete(w, t, b)
    ensures Complete(Exec(w, es), t, b)
    decreases |es|
  {
    if es != [] {
      CompleteStays(w, es[0], t, b);
      NextKeeps(w, es[0]);
      CompleteForARun(Next(w, es[0]), es[1..], t, b);
    }
  }

  // ---------- the checkout's own moves ----------

  lemma NoSimsYet(w: World, p: Provider)
    requires Inv(w)
    ensures SimsOf(w, w.nextOrder, p) == {}
  {
    forall x | x in w.sims ensures w.sims[x].order != w.nextOrder {
      AtSim(w, x);
      assert Satisfies(w, Ids);
    }
  }

  lemma MakesTx(w: World, a: nat, i: Input, b: Basket)
    requires a in w.actors && w.actors[a] == MakeTx(b.user, b.units, b.offer)
    ensures var w' := Step(w, a, i);
            Stands(w', a, MakeOrder(w.nextTx, b.user, b.units, b.offer)) && BoughtBy(w', w.nextTx, b.user)
  {
  }

  lemma MakesOrder(w: World, a: nat, t: nat, i: Input, b: Basket)
    requires a in w.actors && w.actors[a] == MakeOrder(t, b.user, b.units, b.offer)
    ensures var w' := Step(w, a, i);
            && Stands(w', a, LinkOrder(t, w.nextOrder, b.user, b.units, b.offer))
            && w'.txs == w.txs && w'.sims == w.sims
  {
  }

  lemma LinksOrder(w: World, a: nat, t: nat, o: nat, i: Input, b: Basket)
    requires a in w.actors && w.actors[a] == LinkOrder(t, o, b.user, b.units, b.offer) && BoughtBy(w, t, b.user)
    ensures var w' := Step(w, a, i);
            && Stands(w', a, MakeUsage(t, o, b.user, b.units, b.offer))
            && BoughtBy(w', t, b.user) && w'.sims == w.sims
  {
  }

  lemma MakesUsage(w: World, a: nat, t: nat, o: nat, i: Input, b: Basket)
    requires a in w.actors && w.actors[a] == MakeUsage(t, o, b.user, b.units, b.offer) && t !in w.usages
    ensures var w' := Step(w, a, i);
            && Stands(w', a, MakeSims(t, o, b.units)) && Promoted(w', t, o, b)
            && w'.txs == w.txs && w'.sims == w.sims
  {
  }

  lemma MakesSim(w: World, a: nat, t: nat, o: nat, rest: seq<Provider>, i: Input)
    requires Inv(w) && a in w.actors && w.actors[a] == MakeSims(t, o, rest) && rest != []
    ensures var w' := Step(w, a, i);
            && Stands(w', a, MakeSims(t, o, rest[1..])) && w'.txs == w.txs && w'.usages == w.usages
            && w.nextSim !in w.sims && (forall x :: x in w'.sims <==> x in w.sims || x == w.nextSim)
            && w'.sims[w.nextSim].order == o && w'.sims[w.nextSim].provider == rest[0]
            && forall x | x in w.sims :: w'.sims[x] == w.sims[x]
  {
    assert Satisfies(w, Ids);
  }

  lemma OneMoreOf(w: World, w': World, o: nat, x: nat, p: Provider)
    requires x !in w.sims && x in w'.sims && w'.sims[x].order == o
    requires forall y :: y in w'.sims <==> y in w.sims || y == x
    requires forall y | y in w.sims :: w'.sims[y] == w.sims[y]
    ensures |SimsOf(w', o, p)| == |SimsOf(w, o, p)| + One(w'.sims[x].provider == p)
  {
    var before, after := SimsOf(w, o, p), SimsOf(w', o, p);
    forall y | y != x ensures y in after <==> y in before {
    }
    if w'.sims[x].provider == p {
      assert after == before + {x};
    } else {
      assert after == before;
    }
  }

  lemma OneUnitLess(rest: seq<Provider>, p: Provider)
    requires rest != []
    ensures multiset(rest)[p] == multiset(rest[1..])[p] + One(rest[0] == p)
  {
    assert rest == [rest[0]] + rest[1..];
  }

  lemma OneMoreSim(w: World, a: nat, t: nat, o: nat, units: seq<Provider>, rest: seq<Provider>, i: Input)
    requires Inv(w) && a in w.actors && w.actors[a] == MakeSims(t, o, rest) && rest != [] && Filled(w, o, units, rest)
    ensures Filled(Step(w, a, i), o, units, rest[1..])
  {
    MakesSim(w, a, t, o, rest, i);
    forall p ensures |SimsOf(Step(w, a, i), o, p)| + multiset(rest[1..])[p] == multiset(units)[p] {
      OneMoreOf(w, Step(w, a, i), o, w.nextSim, p);
      OneUnitLess(rest, p);
    }
  }

  lemma Prepares(w: World, a: nat, t: nat, o: nat, i: Input)
    requires a in w.actors && w.actors[a] == MakeSims(t, o, []) && o in w.orders
    ensures var w' := Step(w, a, i);
            && Stands(w', a, InitPayment(t)) && w'.txs == w.txs && w'.usages == w.usages && w'.sims == w.sims
            && w'.orders == w.orders[o := w.orders[o].(prepared := true)]
  {
  }

  ghost predicate Tracked(w: World, a: nat, b: Basket) {
    a in w.actors && (Ordering(w.actors[a]) ==> Underway(w, w.actors[a], b))
  }

  lemma SameSims(w: World, w': World, o: nat, units: seq<Provider>, rest: seq<Provider>)
    requires Filled(w, o, units, rest) && w'.sims == w.sims
    ensures Filled(w', o, units, rest)
  {
    forall p ensures |SimsOf(w', o, p)| + multiset(rest)[p] == multiset(units)[p] {
      assert SimsOf(w', o, p) == SimsOf(w, o, p);
    }
  }

  lemma OrderIsEmpty(w: World, w': World)
    requires Inv(w) && w'.sims == w.sims
    ensures Filled(w', w.nextOrder, [], [])
  {
    forall p ensures |SimsOf(w', w.nextOrder, p)| + multiset([])[p] == multiset([])[p] {
      NoSimsYet(w, p);
      assert SimsOf(w', w.nextOrder, p) == SimsOf(w, w.nextOrder, p);
    }
  }

  lemma EmptyIsToFill(w: World, o: nat, units: seq<Provider>)
    requires Filled(w, o, [], [])
    ensures Filled(w, o, units, units)
  {
    forall p ensures |SimsOf(w, o, p)| + multiset(units)[p] == multiset(units)[p] {
      assert |SimsOf(w, o, p)| + multiset([])[p] == multiset([])[p];
    }
  }

  lemma SimsMoveOn(w: World, a: nat, i: Input, b: Basket)
    requires Inv(w) && a in w.actors && w.actors[a].MakeSims? && Underway(w, w.actors[a], b)
    ensures Tracked(Step(w, a, i), a, b)
  {
    var me := w.actors[a];
    WriterKnows(w, a);
    if me.units == [] {
      Prepares(w, a, me.tx, me.order, i);
      SameSims(w, Step(w, a, i), me.order, b.units, []);
      AllFilled(Step(w, a, i), me.order, b.units);
    } else {
      MakesSim(w, a, me.tx, me.order, me.units, i);
      OneMoreSim(w, a, me.tx, me.order, b.units, me.units, i);
    }
  }

  lemma AllFilled(w: World, o: nat, units: seq<Provider>)
    requires Filled(w, o, units, [])
    ensures forall p :: |SimsOf(w, o, p)| == multiset(units)[p]
  {
    forall p ensures |SimsOf(w, o, p)| == multiset(units)[p] {
      assert |SimsOf(w, o, p)| + multiset([])[p] == multiset(units)[p];
    }
  }

  lemma UsageMovesOn(w: World, a: nat, i: Input, b: Basket)
    requires Inv(w) && a in w.actors && w.actors[a].MakeUsage? && Underway(w, w.actors[a], b)
    ensures Tracked(Step(w, a, i), a, b)
  {
    var me := w.actors[a];
    WriterKnows(w, a);
    MakesUsage(w, a, me.tx, me.order, i, b);
    SameSims(w, Step(w, a, i), me.order, [], []);
    EmptyIsToFill(Step(w, a, i), me.order, b.units);
  }

  lemma OrderMovesOn(w: World, a: nat, i: Input, b: Basket)
    requires Inv(w) && a in w.actors && (w.actors[a].MakeTx? || w.actors[a].MakeOrder? || w.actors[a].LinkOrder?)
    requires Underway(w, w.actors[a], b)
    ensures Tracked(Step(w, a, i), a, b)
  {
    var me, w' := w.actors[a], Step(w, a, i);
    if me.MakeTx? {
      MakesTx(w, a, i, b);
    } else if me.MakeOrder? {
      MakesOrder(w, a, me.tx, i, b);
      OrderIsEmpty(w, w');
    } else {
      LinksOrder(w, a, me.tx, me.order, i, b);
      SameSims(w, w', me.order, [], []);
    }
  }

  lemma MoveTracks(w: World, a: nat, i: Input, b: Basket)
    requires Inv(w) && Enabled(w, Move(a, i)) && Tracked(w, a, b)
    ensures Tracked(Step(w, a, i), a, b)
  {
    var me := w.actors[a];
    if !Ordering(me) {
      EventFrames(w, Move(a, i));
    } else if me.MakeUsage? {
      UsageMovesOn(w, a, i, b);
    } else if me.MakeSims? {
      SimsMoveOn(w, a, i, b);
    } else if me.InitPayment? {
      InitAsks(w, a, i);
    } else {
      OrderMovesOn(w, a, i, b);
    }
  }

  // While the checkout waits, its rows stay.
  lemma OthersTrack(w: World, e: Event, a: nat, b: Basket)
    requires Inv(w) && Enabled(w, e) && Tracked(w, a, b) && !(e.Move? && e.actor == a)
    ensures Tracked(Next(w, e), a, b)
  {
    var me := w.actors[a];
    OthersWait(w, e, a);
    NewActor(w);
    match me {
      case MakeTx(_, _, _) =>
      case MakeOrder(t, user, _, _) => SameBuyer(w, e, t, user);
      case LinkOrder(t, o, user, _, _) =>
        WriterKnows(w, a);
        SameBuyer(w, e, t, user);
        StillFilled(w, e, t, o, [], []);
      case MakeUsage(t, o, user, _, _) =>
        WriterKnows(w, a);
        SameBuyer(w, e, t, user);
        StillFilled(w, e, t, o, [], []);
      case MakeSims(t, o, rest) =>
        WriterKnows(w, a);
        SameBuyer(w, e, t, b.user);
        StillFilled(w, e, t, o, b.units, rest);
        SamePromotion(w, e, t, o, b);
      case InitPayment(t) => CompleteStays(w, e, t, b);
      case _ =>
    }
  }

  lemma StillFilled(w: World, e: Event, t: nat, o: nat, units: seq<Provider>, rest: seq<Provider>)
    requires Inv(w) && Enabled(w, e) && Closed(w, e, t, o) && Filled(w, o, units, rest)
    ensures Filled(Next(w, e), o, units, rest)
  {
    forall p ensures |SimsOf(Next(w, e), o, p)| + multiset(rest)[p] == multiset(units)[p] {
      SameSimsOf(w, e, t, o, p);
    }
  }

  lemma {:induction false} TrackedForARun(w: World, es: seq<Event>, a: nat, b: Basket)
    requires Inv(w) && Allowed(w, es) && Tracked(w, a, b)
    ensures Tracked(Exec(w, es), a, b)
    decreases |es|
  {
    if es != [] {
      if es[0].Move? && es[0].actor == a {
        MoveTracks(w, a, es[0].input, b);
      } else {
        OthersTrack(w, es[0], a, b);
      }
      NextKeeps(w, es[0]);
      TrackedForARun(Next(w, es[0]), es[1..], a, b);
    }
  }

  /** When a checkout comes to ask the bank for its payment, and for ever after, whatever else happens: its
      transaction belongs to the user, and is linked with one order both ways; that order has as many SIMs of each
      provider as the basket has units of it; and the transaction has a usage exactly if a promo code was
      accepted, for the promo, user, order, discount and credit of the offer. */
  lemma CheckoutWritesItsBasket(
    w: World, user: nat, units: seq<Provider>, offer: Option<Offer>, es: seq<Event>, t: nat, more: seq<Event>)
    requires Inv(w) && Enabled(w, Checkout(user, units, offer)) && Allowed(Next(w, Checkout(user, units, offer)), es)
    requires var asking := Exec(Next(w, Checkout(user, units, offer)), es);
             Stands(asking, w.nextActor, InitPayment(t)) && Allowed(asking, more)
    ensures var last := Exec(Exec(Next(w, Checkout(user, units, offer)), es), more);
            && t in last.txs && last.txs[t].user == Some(user) && last.txs[t].order.Some?
            && var o := last.txs[t].order.value;
               && o in last.orders && last.orders[o].tx == t
               && (forall p :: |SimsOf(last, o, p)| == multiset(units)[p])
               && (t in last.usages <==> offer.Some?)
               && (offer.Some? ==>
                     && last.usages[t].promo == offer.value.promo && last.usages[t].user == user
                     && last.usages[t].order == o && last.usages[t].discount == offer.value.discount
                     && last.usages[t].credit == offer.value.credit)
  {
    var e, b := Checkout(user, units, offer), Basket(user, units, offer);
    NextKeeps(w, e);
    TrackedForARun(Next(w, e), es, w.nextActor, b);
    RunKeeps(Next(w, e), es);
    CompleteForARun(Exec(Next(w, e), es), more, t, b);
  }
}
