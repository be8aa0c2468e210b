/** Steps that change one SIM row, or no row at all, keep the invariant. */
module SimSteps {
  import opened Tables
  import opened Protocol
  import opened Invariant

  lemma SamePayments(w: World, w': World)
    requires PaymentsOk(w) && w.nextActor <= w'.nextActor
    requires w'.txs == w.txs && w'.orders == w.orders && w'.open == w.open
    requires w'.hookWins == w.hookWins && w'.polls == w.polls && w.drained <= w'.drained
    ensures PaymentsOk(w')
  {
    assert Successes(w') == Successes(w);
    forall t | t in w'.txs ensures TxOk(w', t) {
      assert TxOk(w, t);
    }
    forall o | o in w'.orders ensures OrderOk(w', o) {
      assert OrderOk(w, o);
    }
  }

  lemma SamePromos(w: World, w': World)
    requires PromosOk(w) && w'.usages == w.usages && w'.promos == w.promos && w'.ledger == w.ledger
    requires forall t | t in w.txs && w.txs[t].status == TxSuccess :: t in w'.txs && w'.txs[t].status == TxSuccess
    requires w.txs.Keys <= w'.txs.Keys
    ensures PromosOk(w')
  {
    forall t | t in w'.usages ensures UsageOk(w', t) {
      assert UsageOk(w, t);
    }
    forall p | p in w'.promos ensures PromoOk(w', p) {
      assert PromoOk(w, p);
    }
    forall t ensures t in w'.ledger <==> Earns(w', t) {
      assert Earns(w', t) == Earns(w, t);
    }
  }

  // The SIMs, when their rows, orders and the payment of their orders stay as they are.
  lemma SameSims(w: World, w': World, a: nat)
    requires SimsOk(w) && w'.sims == w.sims && w'.drained == w.drained
    requires forall t | t in w.txs :: t in w'.txs && (w.txs[t].status == TxSuccess ==> w'.txs[t].status == TxSuccess)
    requires forall o | o in w.orders ::
               o in w'.orders && w'.orders[o].tx == w.orders[o].tx && w'.orders[o].cancelled == w.orders[o].cancelled
    requires forall b | b in w.actors && b != a :: b in w'.actors && w'.actors[b] == w.actors[b]
    requires a in w.actors ==> !UsesRight(w.actors[a])
    ensures SimsOk(w')
  {
    forall x | x in w'.sims ensures w'.sims[x] in Rows(w') && RightsHeld(w', x) {
      assert w.sims[x] in Rows(w) && RightsHeld(w, x);
    }
    forall t | t in w'.drained ensures DrainedOk(w', t) {
      assert DrainedOk(w, t);
      forall x | x in w'.sims && w'.sims[x].order in w'.orders && w'.orders[w'.sims[x].order].tx == t
        ensures w'.sims[x].status != Created
      {
        assert w.sims[x] in Rows(w);
      }
    }
  }

  // What holds of an actor depends on the tables only.
  lemma PcKeepsActor(w: World, w': World, a: nat, actor: Actor)
    requires actor in Ready(w, a)
    requires w' == w.(actors := w'.actors, nextActor := w'.nextActor)
    ensures actor in Ready(w', a)
  {
  }

  lemma PcGuarantees(w: World, w': World, a: nat)
    requires w' == w.(actors := w'.actors, nextActor := w'.nextActor) && !Calls(Mover(w, a))
    ensures w' in Guarantee(w, a)
  {
    Guarantees(w, w', a);
  }

  lemma PcTables(w: World, w': World, a: nat)
    requires Inv(w) && w' == w.(actors := w'.actors, nextActor := w'.nextActor)
    requires w.nextActor <= w'.nextActor && forall b | b in w'.actors :: b in w.actors || b < w'.nextActor
    requires forall b | b in w.actors && b != a :: b in w'.actors && w'.actors[b] == w.actors[b]
    requires a in w.actors ==> !UsesRight(w.actors[a])
    ensures TablesOk(w')
  {
    Unfold(w);
    SamePayments(w, w');
    SamePromos(w, w');
    SameSims(w, w', a);
    FoldTables(w');
  }

  lemma NewActor(w: World)
    requires Inv(w)
    ensures w.nextActor !in w.actors
  {
    assert Satisfies(w, Ids);
  }

  /** A step that moves only the program counter. */
  lemma PcStep(w: World, a: nat, next: Actor)
    requires Inv(w) && a in w.actors && !Calls(w.actors[a]) && next in Ready(w, a) && next in Follows(w.actors[a])
    ensures Become(w, a, next) in Safe(w, a)
  {
    var w' := Become(w, a, next);
    PcTables(w, w', a);
    PcGuarantees(w, w', a);
    PcKeepsActor(w, w', a, next);
    CloseOne(w, w', a);
  }

  /** An actor that starts. */
  lemma SpawnStep(w: World, actor: Actor)
    requires Inv(w) && actor in Ready(w, w.nextActor) && MayStart(actor)
    ensures Spawn(w, actor) in Safe(w, w.nextActor)
  {
    var w' := Spawn(w, actor);
    NewActor(w);
    PcTables(w, w', w.nextActor);
    PcGuarantees(w, w', w.nextActor);
    PcKeepsActor(w, w', w.nextActor, actor);
    CloseOne(w, w', w.nextActor);
  }

  /** A step that changes nothing. */
  lemma Stays(w: World, a: nat)
    requires Inv(w) && Mover(w, a).Finished?
    ensures w in Safe(w, a)
  {
    PcGuarantees(w, w, a);
    assert Meets(w, w, a, Reliance) && Meets(w, w, a, Frame);
  }

  /** The worlds `a` can reach by writing the row of `x` and moving its program counter. */
  ghost function SimWrites(w: World, a: nat, x: nat): iset<World> {
    iset w': World |
      && a in w.actors && x in w.sims && x in w'.sims && a in w'.actors
      && w' == Become(SetSim(w, x, w'.sims[x]), a, w'.actors[a])
      && SimRely(a, w.sims[x], w'.sims[x]) && Recorded(w.actors[a], x, w.sims[x], w'.sims[x])
      && (Calls(w.actors[a]) ==> w.actors[a].sim == x) && w'.actors[a] in Follows(w.actors[a])
  }

  lemma SimGuarantees(w: World, w': World, a: nat, x: nat)
    requires w' in SimWrites(w, a, x)
    ensures w' in Guarantee(w, a)
  {
    SameTxsRely(w, w', a);
    SameOrdersRely(w, w', a);
    SameUsagesRely(w, w', a);
    forall y | y in w.sims
      ensures SimRely(a, w.sims[y], w'.sims[y]) && Recorded(Mover(w, a), y, w.sims[y], w'.sims[y])
    {
      if y != x {
        assert w'.sims[y] == w.sims[y];
      }
    }
    Guarantees(w, w', a);
  }

  lemma OtherSims(w: World, w': World, a: nat, x: nat, y: nat)
    requires w' in SimWrites(w, a, x)
    requires y in w.sims && y != x && w.sims[y] in Rows(w) && RightsHeld(w, y)
    ensures w'.sims[y] in Rows(w') && RightsHeld(w', y)
  {
  }

  lemma SimRows(w: World, w': World, a: nat, x: nat)
    requires Inv(w) && w' in SimWrites(w, a, x)
    requires w'.sims[x] in Rows(w') && RightsHeld(w', x)
    ensures SimsOk(w')
  {
    assert Satisfies(w, Sims);
    forall y | y in w'.sims ensures w'.sims[y] in Rows(w') && RightsHeld(w', y) {
      if y != x {
        assert RightsHeld(w, y);
        OtherSims(w, w', a, x, y);
      }
    }
    forall t | t in w'.drained ensures DrainedOk(w', t) {
      assert DrainedOk(w, t);
    }
  }

  lemma SimTables(w: World, w': World, a: nat, x: nat)
    requires Inv(w) && w' in SimWrites(w, a, x)
    requires SimsOk(w')
    ensures TablesOk(w')
  {
    Unfold(w);
    SamePayments(w, w');
    SamePromos(w, w');
    FoldTables(w');
  }

  /** A step that writes one SIM row. */
  lemma SimStep(w: World, w': World, a: nat, x: nat)
    requires Inv(w) && w' in SimWrites(w, a, x)
    requires w'.sims[x] in Rows(w') && RightsHeld(w', x) && w'.actors[a] in Ready(w', a)
    ensures w' in Safe(w, a)
  {
    SimRows(w, w', a, x);
    SimTables(w, w', a, x);
    SimGuarantees(w, w', a, x);
    CloseOne(w, w', a);
  }
}
