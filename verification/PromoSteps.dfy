/** Every step of the promo confirmation keeps the invariant. */
module PromoSteps {
  import opened Tables
  import opened Protocol
  import opened Invariant
  import opened SimSteps
  import opened PaymentSteps

  lemma ApplyUsageReady(
    w: World, a: nat, t: nat, p: nat, limit: Option<nat>, agent: Option<nat>, credit: nat)
    requires Confirming(w, a, t) && t in w.usages && w.usages[t].promo == p && w.usages[t].credit == credit
    requires p in w.promos && w.promos[p].limit == limit && w.promos[p].agent == agent
    ensures ApplyUsage(t, p, limit, agent, credit) in Ready(w, a)
  {
  }

  lemma ReadOrderReady(w: World, a: nat, t: nat, rest: seq<nat>, batch: set<nat>)
    requires Paid(w, t) && Accounted(w, batch - {t}, rest)
    ensures ReadOrder(t, rest, batch) in Ready(w, a)
  {
  }

  // The run of create for a transaction that has just been confirmed.
  lemma FirstRunReady(w: World, a: nat, t: nat)
    requires Paid(w, t)
    ensures ReadOrder(t, [], {t}) in Ready(w, a)
  {
    ReadOrderReady(w, a, t, [], {t});
  }

  lemma ReaderGoesOn(t: nat, p: nat, limit: Option<nat>, agent: Option<nat>, credit: nat)
    ensures ApplyUsage(t, p, limit, agent, credit) in Follows(ReadUsage(t))
    ensures ReadOrder(t, [], {t}) in Follows(ReadUsage(t))
  {
  }

  lemma ReadUsageKeeps(w: World, a: nat, t: nat)
    requires Moving(w, a) && w.actors[a] == ReadUsage(t)
    ensures StepReadUsage(w, a, t) in Safe(w, a)
  {
    AtActor(w, a);
    if t in w.usages && w.usages[t].status == UsagePending && w.usages[t].promo in w.promos {
      var u := w.usages[t];
      var p := w.promos[u.promo];
      ApplyUsageReady(w, a, t, u.promo, p.limit, p.agent, u.credit);
      ReaderGoesOn(t, u.promo, p.limit, p.agent, u.credit);
      PcStep(w, a, ApplyUsage(t, u.promo, p.limit, p.agent, u.credit));
    } else {
      FirstRunReady(w, a, t);
      ReaderGoesOn(t, 0, None, None, 0);
      PcStep(w, a, ReadOrder(t, [], {t}));
    }
  }

  // The promo still has uses left when its usage is to be confirmed.
  predicate Usable(w: World, p: nat, limit: Option<nat>) {
    p in w.promos && w.promos[p].active && (limit.None? || w.promos[p].usedCount < limit.value)
  }

  // What ApplyUsage knows about its usage.
  ghost predicate Applies(w: World, t: nat, p: nat, limit: Option<nat>, agent: Option<nat>, credit: nat) {
    && t in w.usages && w.usages[t].status != UsageConfirmed && Paid(w, t)
    && w.usages[t].promo == p && w.usages[t].credit == credit
    && p in w.promos && w.promos[p].limit == limit && w.promos[p].agent == agent
  }

  lemma ConfirmedRows(
    w: World, t: nat, p: nat, limit: Option<nat>, agent: Option<nat>, credit: nat)
    requires PromosOk(w) && Applies(w, t, p, limit, agent, credit) && Usable(w, p, limit)
    ensures PromosOk(ConfirmUsage(w, t, p, limit, agent, credit))
  {
    var w' := ConfirmUsage(w, t, p, limit, agent, credit);
    assert UsageOk(w, t);
    assert !Earns(w, t);
    forall u | u in w'.usages ensures UsageOk(w', u) {
      assert UsageOk(w, u);
    }
    forall q | q in w'.promos ensures PromoOk(w', q) {
      assert PromoOk(w, q);
      if q == p {
        assert ConfirmedOf(w'.usages, q) == ConfirmedOf(w.usages, q) + {t};
      } else {
        assert ConfirmedOf(w'.usages, q) == ConfirmedOf(w.usages, q);
      }
    }
    forall u ensures u in w'.ledger <==> Earns(w', u) {
      assert u != t ==> Earns(w', u) == Earns(w, u);
    }
  }

  lemma ConfirmUsageRows(
    w: World, t: nat, p: nat, limit: Option<nat>, agent: Option<nat>, credit: nat)
    requires PromosOk(w) && Applies(w, t, p, limit, agent, credit)
    ensures PromosOk(ConfirmUsage(w, t, p, limit, agent, credit))
  {
    if Usable(w, p, limit) {
      ConfirmedRows(w, t, p, limit, agent, credit);
    } else {
      UsageCanceledRow(w, ConfirmUsage(w, t, p, limit, agent, credit), t);
    }
  }

  lemma ConfirmUsageTables(
    w: World, a: nat, t: nat, p: nat, limit: Option<nat>, agent: Option<nat>, credit: nat, next: Actor)
    requires Moving(w, a) && Applies(w, t, p, limit, agent, credit)
    ensures TablesOk(Become(ConfirmUsage(w, t, p, limit, agent, credit), a, next))
  {
    Unfold(w);
    var w1 := ConfirmUsage(w, t, p, limit, agent, credit);
    var w' := Become(w1, a, next);
    ConfirmUsageRows(w, t, p, limit, agent, credit);
    SamePromos(w1, w');
    SamePayments(w, w');
    SameSims(w, w', a);
    FoldTables(w');
  }

  /** The worlds `a` can reach by writing the status of the usage of `t`, the counter of its promo
      and the ledger, and moving on. */
  ghost function UsageWrites(w: World, a: nat, t: nat, p: nat): iset<World> {
    iset w': World |
      && t in w.usages && t in w'.usages && p in w.promos && p in w'.promos
      && w'.usages == w.usages[t := w.usages[t].(status := w'.usages[t].status)]
      && w'.promos == w.promos[p := w.promos[p].(usedCount := w'.promos[p].usedCount)]
      && w.promos[p].usedCount <= w'.promos[p].usedCount
      && (w'.usages[t].status == UsagePending ==> w.usages[t].status == UsagePending)
      && a in w'.actors
      && w' == Become(w.(usages := w'.usages, promos := w'.promos, ledger := w'.ledger), a, w'.actors[a])
  }

  lemma UsageWritesRely(w: World, w': World, a: nat, t: nat, p: nat)
    requires w' in UsageWrites(w, a, t, p) && t in w.txs && w.txs[t].launched == Some(a)
    requires w.usages[t].status != UsageConfirmed && AppliesUsage(Mover(w, a), t)
    ensures UsagesRely(w, w', a)
  {
  }

  lemma UsageWritesGuarantee(w: World, w': World, a: nat, t: nat, p: nat)
    requires w' in UsageWrites(w, a, t, p) && t in w.txs && w.txs[t].launched == Some(a)
    requires w.usages[t].status != UsageConfirmed && AppliesUsage(Mover(w, a), t)
    ensures w' in Guarantee(w, a)
  {
    SameTxsRely(w, w', a);
    SameOrdersRely(w, w', a);
    SameSimsRely(w, w', a);
    UsageWritesRely(w, w', a, t, p);
    Guarantees(w, w', a);
  }

  // The usage gets a status, its promo a count.
  function UsageWritten(w: World, t: nat, p: nat, status: UsageStatus, count: nat, ledger: map<nat, Entry>): World
    requires t in w.usages && p in w.promos
  {
    w.(usages := w.usages[t := w.usages[t].(status := status)],
       promos := w.promos[p := w.promos[p].(usedCount := count)], ledger := ledger)
  }

  lemma WrittenUsage(
    w: World, a: nat, t: nat, p: nat, status: UsageStatus, count: nat, ledger: map<nat, Entry>, next: Actor)
    requires t in w.usages && p in w.promos && w.promos[p].usedCount <= count
    requires status == UsagePending ==> w.usages[t].status == UsagePending
    ensures Become(UsageWritten(w, t, p, status, count, ledger), a, next) in UsageWrites(w, a, t, p)
  {
  }

  lemma ConfirmUsageWrites(
    w: World, a: nat, t: nat, p: nat, limit: Option<nat>, agent: Option<nat>, credit: nat, next: Actor)
    requires t in w.usages && p in w.promos
    ensures Become(ConfirmUsage(w, t, p, limit, agent, credit), a, next) in UsageWrites(w, a, t, p)
  {
    var w' := ConfirmUsage(w, t, p, limit, agent, credit);
    var status, count := w'.usages[t].status, w'.promos[p].usedCount;
    ConfirmUsageShape(w, t, p, limit, agent, credit);
    WrittenUsage(w, a, t, p, status, count, w'.ledger, next);
  }

  lemma ConfirmUsageShape(w: World, t: nat, p: nat, limit: Option<nat>, agent: Option<nat>, credit: nat)
    requires t in w.usages && p in w.promos
    ensures var w' := ConfirmUsage(w, t, p, limit, agent, credit);
            t in w'.usages && p in w'.promos
            && w' == UsageWritten(w, t, p, w'.usages[t].status, w'.promos[p].usedCount, w'.ledger)
            && w.promos[p].usedCount <= w'.promos[p].usedCount
            && (w'.usages[t].status == UsagePending ==> w.usages[t].status == UsagePending)
  {
    assert w.usages == w.usages[t := w.usages[t]] && w.promos == w.promos[p := w.promos[p]];
  }

  lemma ConfirmUsageGuarantees(
    w: World, a: nat, t: nat, p: nat, limit: Option<nat>, agent: Option<nat>, credit: nat, next: Actor)
    requires t in w.usages && p in w.promos && t in w.txs && w.txs[t].launched == Some(a)
    requires w.usages[t].status != UsageConfirmed && AppliesUsage(Mover(w, a), t)
    ensures Become(ConfirmUsage(w, t, p, limit, agent, credit), a, next) in Guarantee(w, a)
  {
    ConfirmUsageWrites(w, a, t, p, limit, agent, credit, next);
    UsageWritesGuarantee(w, Become(ConfirmUsage(w, t, p, limit, agent, credit), a, next), a, t, p);
  }

  lemma ApplierKnows(w: World, a: nat, t: nat, p: nat, limit: Option<nat>, agent: Option<nat>, credit: nat)
    requires Inv(w) && a in w.actors && w.actors[a] == ApplyUsage(t, p, limit, agent, credit)
    ensures Applies(w, t, p, limit, agent, credit) && w.txs[t].launched == Some(a)
    ensures AppliesUsage(Mover(w, a), t) && ReadOrder(t, [], {t}) in Follows(w.actors[a])
  {
    AtActor(w, a);
  }

  lemma AppliedKeeps(w: World, a: nat, t: nat, p: nat, limit: Option<nat>, agent: Option<nat>, credit: nat)
    requires Moving(w, a) && w.actors[a] == ApplyUsage(t, p, limit, agent, credit)
    ensures Become(ConfirmUsage(w, t, p, limit, agent, credit), a, ReadOrder(t, [], {t})) in Safe(w, a)
  {
    var next := ReadOrder(t, [], {t});
    var w' := Become(ConfirmUsage(w, t, p, limit, agent, credit), a, next);
    ApplierKnows(w, a, t, p, limit, agent, credit);
    ConfirmUsageTables(w, a, t, p, limit, agent, credit, next);
    ConfirmUsageGuarantees(w, a, t, p, limit, agent, credit, next);
    FirstRunReady(w', a, t);
    CloseOne(w, w', a);
  }

  lemma ApplyUsageKeeps(
    w: World, a: nat, t: nat, p: nat, limit: Option<nat>, agent: Option<nat>, credit: nat, i: Input)
    requires Moving(w, a) && w.actors[a] == ApplyUsage(t, p, limit, agent, credit)
    ensures StepApplyUsage(w, a, t, p, limit, agent, credit, i) in Safe(w, a)
  {
    if i.DbError? {
      AtActor(w, a);
      FirstRunReady(w, a, t);
      PcStep(w, a, ReadOrder(t, [], {t}));
    } else {
      AppliedKeeps(w, a, t, p, limit, agent, credit);
    }
  }
}
