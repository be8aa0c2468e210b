/** How often a SIM is delivered to its owner: once at most by Mobiline, and as often as their callbacks come
    by JoyTel and BillionConnect. */
module Deliveries {
  import opened Tables
  import opened Protocol
  import opened Invariant
  import opened SimSteps
  import opened Machine
  import opened Safety
  import opened Witness

  // ---------- deliveries and completing updates ----------

  // The event is the update with which notifyCoupon or bcCallback completes the SIM.
  predicate CompletesNow(w: World, e: Event, x: nat) {
    && e.Move? && e.actor in w.actors
    && (w.actors[e.actor].JoyQrCallback? || w.actors[e.actor].BcCallback?) && w.actors[e.actor].sim == x
  }

  /** How often a run completes the SIM by such an update, counted on the events. */
  function TimesCompleted(w: World, es: seq<Event>, x: nat): nat
    requires Allowed(w, es)
    decreases |es|
  {
    if es == [] then 0 else One(CompletesNow(w, es[0], x)) + TimesCompleted(Next(w, es[0]), es[1..], x)
  }

  /** The callbacks that have completed the SIM and are about to deliver it. */
  function Delivering(w: World, x: nat): set<nat> {
    set a | a in w.actors && Stands(w, a, EsimDeliver(x))
  }

  predicate DeliversNow(w: World, e: Event, x: nat) {
    e.Move? && Stands(w, e.actor, EsimDeliver(x))
  }

  lemma CompleterDelivers(w: World, e: Event, x: nat)
    requires Enabled(w, e) && CompletesNow(w, e, x)
    ensures Stands(Next(w, e), e.actor, EsimDeliver(x)) && e.actor !in Delivering(w, x)
  {
  }

  lemma DelivererIsDone(w: World, e: Event, x: nat)
    requires Enabled(w, e) && DeliversNow(w, e, x)
    ensures !Stands(Next(w, e), e.actor, EsimDeliver(x)) && !CompletesNow(w, e, x)
  {
  }

  // Nobody comes to stand before the delivery but by a completing update, and nobody leaves but by delivering.
  lemma OthersStand(w: World, e: Event, x: nat, a: nat)
    requires Inv(w) && Enabled(w, e) && !(e.Move? && e.actor == a)
    ensures Stands(Next(w, e), a, EsimDeliver(x)) <==> Stands(w, a, EsimDeliver(x))
  {
    EventFrames(w, e);
    NewActor(w);
  }

  lemma MoverStands(w: World, e: Event, x: nat)
    requires Inv(w) && Enabled(w, e) && e.Move? && Stands(Next(w, e), e.actor, EsimDeliver(x))
    ensures CompletesNow(w, e, x)
  {
    EventFrames(w, e);
  }

  lemma CompletionAdds(w: World, e: Event, x: nat)
    requires Inv(w) && Enabled(w, e) && CompletesNow(w, e, x)
    ensures Delivering(Next(w, e), x) == Delivering(w, x) + {e.actor} && e.actor !in Delivering(w, x)
  {
    CompleterDelivers(w, e, x);
    forall a | a != e.actor ensures a in Delivering(Next(w, e), x) <==> a in Delivering(w, x) {
      OthersStand(w, e, x, a);
    }
  }

  lemma DeliveryRemoves(w: World, e: Event, x: nat)
    requires Inv(w) && Enabled(w, e) && DeliversNow(w, e, x)
    ensures Delivering(w, x) == Delivering(Next(w, e), x) + {e.actor} && e.actor !in Delivering(Next(w, e), x)
    ensures !CompletesNow(w, e, x)
  {
    DelivererIsDone(w, e, x);
    forall a | a != e.actor ensures a in Delivering(Next(w, e), x) <==> a in Delivering(w, x) {
      OthersStand(w, e, x, a);
    }
  }

  lemma OthersLeave(w: World, e: Event, x: nat)
    requires Inv(w) && Enabled(w, e) && !CompletesNow(w, e, x) && !DeliversNow(w, e, x)
    ensures Delivering(Next(w, e), x) == Delivering(w, x)
  {
    forall a ensures a in Delivering(Next(w, e), x) <==> a in Delivering(w, x) {
      if !(e.Move? && e.actor == a) {
        OthersStand(w, e, x, a);
      } else if a in Delivering(Next(w, e), x) {
        MoverStands(w, e, x);
      }
    }
  }

  lemma EventDelivers(w: World, e: Event, x: nat)
    requires Inv(w) && Enabled(w, e)
    ensures |Delivering(Next(w, e), x)| + One(DeliversNow(w, e, x)) == |Delivering(w, x)| + One(CompletesNow(w, e, x))
  {
    if CompletesNow(w, e, x) {
      CompletionAdds(w, e, x);
    } else if DeliversNow(w, e, x) {
      DeliveryRemoves(w, e, x);
    } else {
      OthersLeave(w, e, x);
    }
  }

  lemma {:induction false} ProviderStays(w: World, es: seq<Event>, x: nat)
    requires Inv(w) && Allowed(w, es) && x in w.sims
    ensures x in Exec(w, es).sims && Exec(w, es).sims[x].provider == w.sims[x].provider
    decreases |es|
  {
    if es != [] {
      EventRelies(w, es[0]);
      ProviderStays(Next(w, es[0]), es[1..], x);
    }
  }

  // Only Mobiline's callback delivers by a right of its own.
  lemma OneWayToDeliver(w: World, e: Event, x: nat)
    requires Inv(w) && Enabled(w, e) && (x in w.sims ==> w.sims[x].provider != Mobiline)
    ensures MakesNow(Delivery, w, e, x) <==> DeliversNow(w, e, x)
  {
    if MakesNow(Delivery, w, e, x) {
      AtActor(w, e.actor);
    }
  }

  lemma {:induction false} DeliveriesAreCounted(w: World, es: seq<Event>, x: nat)
    requires Inv(w) && Allowed(w, es) && (x in Exec(w, es).sims ==> Exec(w, es).sims[x].provider != Mobiline)
    ensures CallsMade(Delivery, w, es, x) + |Delivering(Exec(w, es), x)| ==
            TimesCompleted(w, es, x) + |Delivering(w, x)|
    decreases |es|
  {
    if es != [] {
      if x in w.sims {
        ProviderStays(w, es, x);
      }
      OneWayToDeliver(w, es[0], x);
      EventDelivers(w, es[0], x);
      NextKeeps(w, es[0]);
      DeliveriesAreCounted(Next(w, es[0]), es[1..], x);
    }
  }

  /** In every run a SIM of JoyTel or BillionConnect is delivered exactly as often as a callback completes it,
      but for the callbacks that still stand before their delivery. */
  lemma DeliveredAsOftenAsCompleted(w: World, es: seq<Event>, x: nat)
    requires Initial(w) && Allowed(w, es) && x in Exec(w, es).sims && Exec(w, es).sims[x].provider != Mobiline
    ensures CallsMade(Delivery, w, es, x) + |Delivering(Exec(w, es), x)| == TimesCompleted(w, es, x)
  {
    InitialInv(w);
    DeliveriesAreCounted(w, es, x);
    assert Delivering(w, x) == {};
  }

  // ---------- any number of deliveries ----------

  lemma {:induction false} CallsAppend(c: Call, w: World, es: seq<Event>, more: seq<Event>, x: nat)
    requires Allowed(w, es) && Allowed(Exec(w, es), more)
    ensures Allowed(w, es + more) && Exec(w, es + more) == Exec(Exec(w, es), more)
    ensures CallsMade(c, w, es + more, x) == CallsMade(c, w, es, x) + CallsMade(c, Exec(w, es), more, x)
    decreases |es|
  {
    if es == [] {
      assert es + more == more;
    } else {
      assert (es + more)[1..] == es[1..] + more && (es + more)[0] == es[0];
      CallsAppend(c, Next(w, es[0]), es[1..], more, x);
    }
  }

  // The callback of the SIM's provider, once more.
  function Again(w: World, x: nat): Event
    requires Findable(w, x)
  {
    if w.sims[x].provider == JoyTel then JoyQrReady(x, w.sims[x].snPin.value, None, None) else BcDone(x, None, None)
  }

  lemma CallbackArrives(w: World, x: nat)
    requires Findable(w, x)
    ensures Enabled(w, Again(w, x))
    ensures var w' := Next(w, Again(w, x));
            && w'.sims == w.sims && w.nextActor in w'.actors
            && (Stands(w', w.nextActor, JoyQrCallback(x, None, None))
                || Stands(w', w.nextActor, BcCallback(x, None, None)))
  {
  }

  lemma CallbackCompletes(w: World, a: nat, x: nat)
    requires Findable(w, x)
    requires Stands(w, a, JoyQrCallback(x, None, None)) || Stands(w, a, BcCallback(x, None, None))
    ensures Enabled(w, Move(a, Go)) && !MakesNow(Delivery, w, Move(a, Go), x)
    ensures Stands(Next(w, Move(a, Go)), a, EsimDeliver(x)) && Findable(Next(w, Move(a, Go)), x)
  {
  }

  lemma DeliveryIsMade(w: World, a: nat, x: nat)
    requires Findable(w, x) && Stands(w, a, EsimDeliver(x))
    ensures Enabled(w, Move(a, Go)) && MakesNow(Delivery, w, Move(a, Go), x)
    ensures Findable(Next(w, Move(a, Go)), x)
  {
  }

  lemma OneEvent(c: Call, w: World, e: Event, x: nat)
    requires Enabled(w, e)
    ensures Allowed(w, [e]) && Exec(w, [e]) == Next(w, e) && CallsMade(c, w, [e], x) == One(MakesNow(c, w, e, x))
  {
    assert [e][1..] == [];
    assert CallsMade(c, Next(w, e), [], x) == 0;
  }

  lemma DeliversOnceMore(w: World, x: nat) returns (es: seq<Event>)
    requires Findable(w, x)
    ensures Allowed(w, es) && Findable(Exec(w, es), x) && CallsMade(Delivery, w, es, x) == 1
  {
    var a, move := w.nextActor, Move(w.nextActor, Go);
    CallbackArrives(w, x);
    var w1 := Next(w, Again(w, x));
    CallbackCompletes(w1, a, x);
    var w2 := Next(w1, move);
    DeliveryIsMade(w2, a, x);
    OneEvent(Delivery, w, Again(w, x), x);
    OneEvent(Delivery, w1, move, x);
    OneEvent(Delivery, w2, move, x);
    CallsAppend(Delivery, w1, [move], [move], x);
    CallsAppend(Delivery, w, [Again(w, x)], [move] + [move], x);
    es := [Again(w, x)] + ([move] + [move]);
  }

  /** Once a callback of JoyTel or BillionConnect can find the SIM, it can be delivered any number of times. */
  lemma {:induction false} DeliversAnyNumber(w: World, x: nat, n: nat) returns (es: seq<Event>)
    requires Findable(w, x)
    ensures Allowed(w, es) && Findable(Exec(w, es), x) && CallsMade(Delivery, w, es, x) == n
    decreases n
  {
    if n == 0 {
      es := [];
    } else {
      var first := DeliversOnceMore(w, x);
      var rest := DeliversAnyNumber(Exec(w, first), x, n - 1);
      CallsAppend(Delivery, w, first, rest, x);
      es := first + rest;
    }
  }

  // ---------- who delivers at most once ----------

  // A run from empty tables that delivers a SIM of the provider more than once.
  predicate DeliversTwice(p: Provider, w: World, es: seq<Event>, x: nat) {
    && Initial(w) && Allowed(w, es) && x in Exec(w, es).sims && Exec(w, es).sims[x].provider == p
    && CallsMade(Delivery, w, es, x) > 1
  }

  lemma TwoDeliveries(p: Provider) returns (es: seq<Event>)
    requires p == JoyTel || p == BillionConnect
    ensures DeliversTwice(p, START, es, 0)
  {
    var first := FindableRun(p);
    var rest := DeliversAnyNumber(Exec(START, first), 0, 2);
    CallsAppend(Delivery, START, first, rest, 0);
    InitialInv(START);
    RunKeeps(START, first);
    ProviderStays(Exec(START, first), rest, 0);
    es := first + rest;
  }

  /** No run delivers a SIM of the provider more than once exactly when the provider is neither JoyTel nor
      BillionConnect. */
  lemma DeliveredOnceExactlyFor(p: Provider)
    ensures (forall w, es, x :: !DeliversTwice(p, w, es, x)) <==> p != JoyTel && p != BillionConnect
  {
    if p == JoyTel || p == BillionConnect {
      var es := TwoDeliveries(p);
      assert DeliversTwice(p, START, es, 0);
    } else {
      forall w, es, x ensures !DeliversTwice(p, w, es, x) {
        if DeliversTwice(p, w, es, x) {
          EachCallAtMostOnce(w, es, Delivery, x);
        }
      }
    }
  }
}
