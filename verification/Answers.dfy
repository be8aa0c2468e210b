/** What an answer decides: the call that got it writes it down with its next move, however long that takes
    and whatever all others do meanwhile. */
module Answers {
  import opened Tables
  import opened Protocol
  import opened Invariant
  import opened SimSteps
  import opened Machine
  import opened Safety

  // The call `a` does not move in these events.
  predicate Waits(es: seq<Event>, a: nat) {
    forall e | e in es :: !(e.Move? && e.actor == a)
  }

  lemma {:induction false} WaitingStands(w: World, es: seq<Event>, a: nat)
    requires Inv(w) && Allowed(w, es) && a in w.actors && Waits(es, a)
    ensures Inv(Exec(w, es)) && Stands(Exec(w, es), a, w.actors[a])
    decreases |es|
  {
    if es != [] {
      OthersWait(w, es[0], a);
      NextKeeps(w, es[0]);
      WaitingStands(Next(w, es[0]), es[1..], a);
    }
  }

  // ---------- the bank ----------

  lemma PollAsks(w: World, a: nat, i: Input)
    requires a in w.actors && w.actors[a].Poll? && w.actors[a].picks != []
    ensures var me := w.actors[a];
            Step(w, a, i) == w.(actors := w.actors[a :=
              if i == BankSaysConfirmed then PollConfirm(me.picks[0], me.picks[1..], me.tick)
              else Poll(me.picks[1..], me.tick)])
  {
  }

  // The row of a transaction that has just been paid.
  ghost predicate PaidAs(w: World, w': World, t: nat, p: nat) {
    && t in w.txs
    && w'.txs == w.txs[t := w.txs[t].(status := TxSuccess, paymentId := Some(p), launched := Some(w.nextActor))]
  }

  lemma PollPays(w: World, a: nat, k: Pick, picks: seq<Pick>, tick: nat)
    requires k.payer.Some? && a != w.nextActor
    ensures var w' := StepPollConfirm(w, a, k, picks, tick);
            && (if Wins(w, k.tx) then PaidAs(w, w', k.tx, k.paymentId) else w'.txs == w.txs)
            && Stands(w', a, Poll(picks, tick))
  {
  }

  lemma HookPays(w: World, a: nat, t: nat, payer: Option<nat>, p: nat)
    requires payer.Some? && a != w.nextActor
    ensures var w' := StepConfirmTx(w, a, t, payer, p);
            if Wins(w, t) then PaidAs(w, w', t, p) else w'.txs == w.txs
  {
  }

  lemma PayerIsKnown(w: World, a: nat)
    requires Inv(w) && a in w.actors
    ensures w.actors[a].PollConfirm? ==> w.actors[a].pick.payer.Some?
    ensures w.actors[a].ConfirmTx? ==> w.actors[a].payer.Some?
    ensures a != w.nextActor
  {
    NewActor(w);
    AtActor(w, a);
    if w.actors[a].PollConfirm? {
      AtTx(w, w.actors[a].pick.tx);
    } else if w.actors[a].ConfirmTx? {
      AtTx(w, w.actors[a].tx);
    }
  }

  lemma PollConfirmPays(w: World, a: nat, j: Input)
    requires Inv(w) && a in w.actors && w.actors[a].PollConfirm?
    ensures var k, w' := w.actors[a].pick, Step(w, a, j);
            && (if k.tx in w.txs && w.txs[k.tx].status == TxPending then PaidAs(w, w', k.tx, k.paymentId)
                else w'.txs == w.txs)
            && Stands(w', a, Poll(w.actors[a].picks, w.actors[a].tick))
  {
    var me := w.actors[a];
    PayerIsKnown(w, a);
    PollPays(w, a, me.pick, me.picks, me.tick);
  }

  lemma ConfirmTxPays(w: World, a: nat, j: Input)
    requires Inv(w) && a in w.actors && w.actors[a].ConfirmTx?
    ensures var me, w' := w.actors[a], Step(w, a, j);
            if me.tx in w.txs && w.txs[me.tx].status == TxPending then PaidAs(w, w', me.tx, me.paymentId)
            else w'.txs == w.txs
  {
    var me := w.actors[a];
    PayerIsKnown(w, a);
    HookPays(w, a, me.tx, me.payer, me.paymentId);
  }

  /** The poll asks the bank about one transaction after the other. On the answer CONFIRMED its next move pays
      the transaction asked about, with the payment id asked for, if it is PENDING then, and writes no
      transaction otherwise. On any other answer the poll just goes on with the next one. */
  lemma PollAnswerDecides(w: World, a: nat, i: Input, es: seq<Event>, j: Input)
    requires Inv(w) && a in w.actors && w.actors[a].Poll? && w.actors[a].picks != []
    requires Allowed(Next(w, Move(a, i)), es) && Waits(es, a)
    ensures var k, rest, tick := w.actors[a].picks[0], w.actors[a].picks[1..], w.actors[a].tick;
            var before := Exec(Next(w, Move(a, i)), es);
            && a in before.actors
            && (i == BankSaysConfirmed ==>
                  && Next(w, Move(a, i)).txs == w.txs
                  && (if k.tx in before.txs && before.txs[k.tx].status == TxPending
                      then PaidAs(before, Step(before, a, j), k.tx, k.paymentId)
                      else Step(before, a, j).txs == before.txs)
                  && Stands(Step(before, a, j), a, Poll(rest, tick)))
            && (i != BankSaysConfirmed ==> Next(w, Move(a, i)) == w.(actors := w.actors[a := Poll(rest, tick)]))
  {
    PollAsks(w, a, i);
    NextKeeps(w, Move(a, i));
    WaitingStands(Next(w, Move(a, i)), es, a);
    if i == BankSaysConfirmed {
      PollConfirmPays(Exec(Next(w, Move(a, i)), es), a, j);
    }
  }

  // The call is a poll that has the transaction still to ask about.
  predicate ToAsk(w: World, a: nat, k: Pick) {
    a in w.actors && (w.actors[a].Poll? || w.actors[a].PollConfirm?) && k in w.actors[a].picks
  }

  // The poll asks the bank about it, whatever the answer.
  predicate AsksNow(w: World, e: Event, a: nat, k: Pick) {
    && e.Move? && e.actor == a && a in w.actors
    && w.actors[a].Poll? && w.actors[a].picks != [] && w.actors[a].picks[0] == k
  }

  predicate Asked(w: World, es: seq<Event>, a: nat, k: Pick)
    requires Allowed(w, es)
    decreases |es|
  {
    es != [] && (AsksNow(w, es[0], a, k) || Asked(Next(w, es[0]), es[1..], a, k))
  }

  lemma EventAsks(w: World, e: Event, a: nat, k: Pick)
    requires Inv(w) && Enabled(w, e) && ToAsk(w, a, k)
    ensures AsksNow(w, e, a, k) || ToAsk(Next(w, e), a, k)
  {
    if e.Move? && e.actor == a {
      var me := w.actors[a];
      if me.PollConfirm? {
        PollConfirmPays(w, a, e.input);
      } else {
        assert me.picks == [me.picks[0]] + me.picks[1..];
        PollAsks(w, a, e.input);
      }
    } else {
      OthersWait(w, e, a);
    }
  }

  lemma {:induction false} RunAsks(w: World, es: seq<Event>, a: nat, k: Pick)
    requires Inv(w) && Allowed(w, es) && ToAsk(w, a, k)
    ensures Asked(w, es, a, k) || ToAsk(Exec(w, es), a, k)
    decreases |es|
  {
    if es != [] {
      EventAsks(w, es[0], a, k);
      NextKeeps(w, es[0]);
      if !AsksNow(w, es[0], a, k) {
        RunAsks(Next(w, es[0]), es[1..], a, k);
      }
    }
  }

  /** A poll that has ended has asked the bank about each transaction its query returned. */
  lemma PollAsksAboutAll(w: World, picks: seq<Pick>, es: seq<Event>, k: Pick)
    requires Inv(w) && Enabled(w, PollTick(picks)) && Allowed(Next(w, PollTick(picks)), es) && k in picks
    requires var last := Exec(Next(w, PollTick(picks)), es);
             w.nextActor in last.actors && last.actors[w.nextActor].Finished?
    ensures Asked(Next(w, PollTick(picks)), es, w.nextActor, k)
  {
    NextKeeps(w, PollTick(picks));
    RunAsks(Next(w, PollTick(picks)), es, w.nextActor, k);
  }

  /** The webhook CONFIRMED pays the transaction it names, with its payment id, if it is PENDING when the update
      comes to it, and writes no transaction otherwise. */
  lemma ConfirmationDecides(w: World, t: nat, p: nat, es: seq<Event>, j: Input)
    requires Inv(w) && Enabled(w, BankConfirms(t, p))
    requires Allowed(Next(w, BankConfirms(t, p)), es) && Waits(es, w.nextActor)
    ensures var before := Exec(Next(w, BankConfirms(t, p)), es);
            && w.nextActor in before.actors
            && (if t in before.txs && before.txs[t].status == TxPending
                then PaidAs(before, Step(before, w.nextActor, j), t, p)
                else Step(before, w.nextActor, j).txs == before.txs)
  {
    assert Satisfies(w, Ids);
    NextKeeps(w, BankConfirms(t, p));
    WaitingStands(Next(w, BankConfirms(t, p)), es, w.nextActor);
    ConfirmTxPays(Exec(Next(w, BankConfirms(t, p)), es), w.nextActor, j);
  }

  lemma RefuserWrites(w: World, a: nat, j: Input)
    requires a in w.actors && w.actors[a].RefuseTx?
    ensures var t, p, w' := w.actors[a].tx, w.actors[a].paymentId, Step(w, a, j);
            && w'.txs == (if t in w.txs && w.txs[t].status == TxPending
                          then w.txs[t := w.txs[t].(status := TxFailed, paymentId := Some(p))] else w.txs)
            && Stands(w', a, DropUsage(t))
  {
  }

  // The usage of the transaction is CANCELED if it was still PENDING.
  ghost predicate Drops(w: World, w': World, t: nat) {
    w'.usages == if t in w.usages && w.usages[t].status == UsagePending
                 then w.usages[t := w.usages[t].(status := UsageCanceled)] else w.usages
  }

  lemma DropperWrites(w: World, a: nat, j: Input)
    requires a in w.actors && w.actors[a].DropUsage?
    ensures Drops(w, Step(w, a, j), w.actors[a].tx)
  {
  }

  /** A refusal makes the transaction it names FAILED, with its payment id, if it is PENDING when the update comes
      to it, and writes no transaction otherwise; with the move after that its usage is CANCELED if it is still
      PENDING, whether the update had won or not. */
  lemma RefusalDecides(w: World, t: nat, p: nat, es: seq<Event>, j: Input, more: seq<Event>, k: Input)
    requires Inv(w) && Enabled(w, BankRefuses(t, p)) && t in w.txs
    requires Allowed(Next(w, BankRefuses(t, p)), es) && Waits(es, w.nextActor)
    requires var before := Exec(Next(w, BankRefuses(t, p)), es);
             Enabled(before, Move(w.nextActor, j)) && Allowed(Next(before, Move(w.nextActor, j)), more)
             && Waits(more, w.nextActor)
    ensures var before := Exec(Next(w, BankRefuses(t, p)), es);
            var after := Next(before, Move(w.nextActor, j));
            var later := Exec(after, more);
            && after.txs == (if t in before.txs && before.txs[t].status == TxPending
                             then before.txs[t := before.txs[t].(status := TxFailed, paymentId := Some(p))]
                             else before.txs)
            && w.nextActor in later.actors && Drops(later, Step(later, w.nextActor, k), t)
  {
    NextKeeps(w, BankRefuses(t, p));
    WaitingStands(Next(w, BankRefuses(t, p)), es, w.nextActor);
    var before := Exec(Next(w, BankRefuses(t, p)), es);
    RefuserWrites(before, w.nextActor, j);
    NextKeeps(before, Move(w.nextActor, j));
    WaitingStands(Next(before, Move(w.nextActor, j)), more, w.nextActor);
    DropperWrites(Exec(Next(before, Move(w.nextActor, j)), more), w.nextActor, k);
  }

  lemma InitAsks(w: World, a: nat, i: Input)
    requires a in w.actors && w.actors[a].InitPayment?
    ensures var t := w.actors[a].tx;
            Step(w, a, i) ==
            if i.InitAccepted? && i.paymentId.Some?
            then w.(open := w.open + {t}, actors := w.actors[a := SavePaymentId(t, i.paymentId.value)])
            else if i.InitAccepted? then w.(open := w.open + {t}, actors := w.actors[a := Finished({})])
            else w.(actors := w.actors[a := MarkError(t)])
  {
  }

  lemma SaverWrites(w: World, a: nat, j: Input)
    requires Inv(w) && a in w.actors && w.actors[a].SavePaymentId?
    ensures var t, p := w.actors[a].tx, w.actors[a].paymentId;
            t in w.txs && Step(w, a, j).txs == w.txs[t := w.txs[t].(paymentId := Some(p))]
  {
    AtActor(w, a);
    assert Satisfies(w, Ids);
  }

  /** When the bank accepts Init, the transaction is open to it from then on, and the checkout stores the payment
      id it got with its next move, whatever the status is by then. */
  lemma InitDecides(w: World, a: nat, t: nat, answer: Option<nat>, es: seq<Event>, j: Input)
    requires Inv(w) && a in w.actors && w.actors[a] == InitPayment(t)
    requires Allowed(Next(w, Move(a, InitAccepted(answer))), es) && Waits(es, a)
    ensures Next(w, Move(a, InitAccepted(answer))).txs == w.txs && t in Next(w, Move(a, InitAccepted(answer))).open
    ensures var before := Exec(Next(w, Move(a, InitAccepted(answer))), es);
            && a in before.actors
            && (match answer
                case Some(p) =>
                  t in before.txs && Step(before, a, j).txs == before.txs[t := before.txs[t].(paymentId := Some(p))]
                case None => before.actors[a].Finished?)
  {
    InitAsks(w, a, InitAccepted(answer));
    NextKeeps(w, Move(a, InitAccepted(answer)));
    WaitingStands(Next(w, Move(a, InitAccepted(answer))), es, a);
    if answer.Some? {
      SaverWrites(Exec(Next(w, Move(a, InitAccepted(answer))), es), a, j);
    }
  }

  lemma MarkerWrites(w: World, a: nat, j: Input)
    requires Inv(w) && a in w.actors && w.actors[a].MarkError?
    ensures var t := w.actors[a].tx;
            && t in w.txs && Step(w, a, j).txs == w.txs[t := w.txs[t].(status := TxError)]
            && Stands(Step(w, a, j), a, DropUsage(t))
  {
    AtActor(w, a);
  }

  /** When Init fails, the checkout makes its transaction ERROR with its next move, and with the move after that
      its usage is CANCELED if it is still PENDING. */
  lemma InitFailureDecides(
    w: World, a: nat, t: nat, i: Input, es: seq<Event>, j: Input, more: seq<Event>, k: Input)
    requires Inv(w) && a in w.actors && w.actors[a] == InitPayment(t) && !i.InitAccepted?
    requires Allowed(Next(w, Move(a, i)), es) && Waits(es, a)
    requires var before := Exec(Next(w, Move(a, i)), es);
             Enabled(before, Move(a, j)) && Allowed(Next(before, Move(a, j)), more) && Waits(more, a)
    ensures var before := Exec(Next(w, Move(a, i)), es);
            var later := Exec(Next(before, Move(a, j)), more);
            && t in before.txs
            && Next(before, Move(a, j)).txs == before.txs[t := before.txs[t].(status := TxError)]
            && a in later.actors && Drops(later, Step(later, a, k), t)
  {
    InitAsks(w, a, i);
    NextKeeps(w, Move(a, i));
    WaitingStands(Next(w, Move(a, i)), es, a);
    var before := Exec(Next(w, Move(a, i)), es);
    MarkerWrites(before, a, j);
    NextKeeps(before, Move(a, j));
    WaitingStands(Next(before, Move(a, j)), more, a);
    DropperWrites(Exec(Next(before, Move(a, j)), more), a, k);
  }

  // ---------- the promo transaction ----------

  lemma UsageReader(w: World, a: nat, t: nat, i: Input)
    requires Inv(w) && a in w.actors && w.actors[a] == ReadUsage(t)
    ensures t in w.usages ==> w.usages[t].promo in w.promos
    ensures Step(w, a, i) == w.(actors := w.actors[a :=
              if t in w.usages && w.usages[t].status == UsagePending then
                var u := w.usages[t];
                ApplyUsage(t, u.promo, w.promos[u.promo].limit, w.promos[u.promo].agent, u.credit)
              else ReadOrder(t, [], {t})])
  {
    if t in w.usages {
      AtUsage(w, t);
    }
  }

  lemma ApplierKnows(w: World, a: nat)
    requires Inv(w) && a in w.actors && w.actors[a].ApplyUsage?
    ensures var me := w.actors[a];
            && me.tx in w.usages && me.tx !in w.ledger && me.promo in w.promos
            && me.limit == w.promos[me.promo].limit && me.agent == w.promos[me.promo].agent
            && w.usages[me.tx].promo == me.promo && w.usages[me.tx].credit == me.credit
  {
    AtActor(w, a);
    assert Satisfies(w, Promos);
    assert !Earns(w, w.actors[a].tx);
  }

  // What the promo transaction writes: a use of the code, the usage and the agent's credit, or the refusal.
  ghost predicate UsageApplied(w: World, w': World, t: nat) {
    && t in w.usages && w.usages[t].promo in w.promos
    && var p, promo, credit := w.usages[t].promo, w.promos[w.usages[t].promo], w.usages[t].credit;
       if promo.active && (promo.limit.None? || promo.usedCount < promo.limit.value) then
         && w'.promos == w.promos[p := promo.(usedCount := promo.usedCount + 1)]
         && w'.usages == w.usages[t := w.usages[t].(status := UsageConfirmed)]
         && w'.ledger == (if promo.agent.Some? && credit > 0
                          then w.ledger[t := Entry(promo.agent.value, credit)] else w.ledger)
       else
         && w'.promos == w.promos && w'.ledger == w.ledger
         && w'.usages == w.usages[t := w.usages[t].(status := UsageCanceled)]
  }

  lemma ApplierWrites(w: World, a: nat, i: Input)
    requires Inv(w) && a in w.actors && w.actors[a].ApplyUsage?
    ensures var w' := Step(w, a, i);
            && Stands(w', a, ReadOrder(w.actors[a].tx, [], {w.actors[a].tx}))
            && (if i.DbError? then w'.usages == w.usages && w'.promos == w.promos && w'.ledger == w.ledger
                else UsageApplied(w, w', w.actors[a].tx))
  {
    ApplierKnows(w, a);
  }

  /** A launched confirmation that finds the usage PENDING uses up the promo code with its next move, confirms
      the usage and credits the agent, exactly when the code is active and below its limit at that moment; if
      not, the usage becomes CANCELED. A database error leaves all three tables as they are, and in each case
      the call goes on to the issue of the order. */
  lemma PromoTransactionDecides(w: World, a: nat, t: nat, i: Input, es: seq<Event>, j: Input)
    requires Inv(w) && a in w.actors && w.actors[a] == ReadUsage(t)
    requires Allowed(Next(w, Move(a, i)), es) && Waits(es, a)
    ensures var before := Exec(Next(w, Move(a, i)), es);
            && a in before.actors
            && (if t in w.usages && w.usages[t].status == UsagePending then
                  && Stands(Step(before, a, j), a, ReadOrder(t, [], {t}))
                  && (if j.DbError?
                      then Step(before, a, j) == before.(actors := before.actors[a := ReadOrder(t, [], {t})])
                      else UsageApplied(before, Step(before, a, j), t))
                else Stands(before, a, ReadOrder(t, [], {t})))
  {
    UsageReader(w, a, t, i);
    NextKeeps(w, Move(a, i));
    WaitingStands(Next(w, Move(a, i)), es, a);
    if t in w.usages && w.usages[t].status == UsagePending {
      ApplierWrites(Exec(Next(w, Move(a, i)), es), a, j);
    }
  }
}
