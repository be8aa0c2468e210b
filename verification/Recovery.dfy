/** The recovery job drains its backlog: paid transactions whose order still has a CREATED SIM. */
module Recovery {
  import opened Tables
  import opened Protocol
  import opened Invariant
  import opened SimSteps
  import opened Machine
  import opened Safety

  // ---------- the backlog only shrinks ----------

  // A SIM of a paid order that is CREATED after an event was there and CREATED before it.
  lemma CreatedBefore(w: World, e: Event, t: nat, x: nat)
    requires Inv(w) && Enabled(w, e) && Paid(w, t) && x in Next(w, e).sims
    requires Next(w, e).sims[x].status == Created
    requires w.txs[t].order == Some(Next(w, e).sims[x].order)
    ensures x in w.sims && w.sims[x].status == Created && w.sims[x].order == Next(w, e).sims[x].order
  {
    EventRelies(w, e);
    AtTx(w, t);
  }

  lemma BacklogBefore(w: World, e: Event, t: nat)
    requires Inv(w) && Enabled(w, e) && Paid(w, t) && InBacklog(Next(w, e), t)
    ensures InBacklog(w, t)
  {
    AtTx(w, t);
    EventRelies(w, e);
    var w' := Next(w, e);
    var o := w.txs[t].order;
    assert w'.txs[t].order == o;
    var x :| x in w'.sims && w'.sims[x].order == o.value && w'.sims[x].status == Created;
    CreatedBefore(w, e, t, x);
  }

  lemma PaidStays(w: World, e: Event, t: nat)
    requires Inv(w) && Enabled(w, e) && Paid(w, t)
    ensures Paid(Next(w, e), t)
  {
    EventRelies(w, e);
  }

  lemma {:induction false} BacklogShrinks(w: World, es: seq<Event>, t: nat)
    requires Inv(w) && Allowed(w, es) && Paid(w, t) && InBacklog(Exec(w, es), t)
    ensures InBacklog(w, t)
    decreases |es|
  {
    if es != [] {
      PaidStays(w, es[0], t);
      NextKeeps(w, es[0]);
      BacklogShrinks(Next(w, es[0]), es[1..], t);
      BacklogBefore(w, es[0], t);
    }
  }

  lemma DrainedIsOut(w: World, t: nat)
    requires Inv(w) && t in w.drained
    ensures !InBacklog(w, t)
  {
    assert Satisfies(w, Sims);
    assert DrainedOk(w, t);
    AtTx(w, t);
  }

  // ---------- the issue that the payment launched ----------

  // The call that the payment of `t` launched: it has not come to the issue yet, or knows that it is for `t`.
  ghost predicate Launches(w: World, a: nat, t: nat) {
    && a in w.actors
    && (w.actors[a] == ReadUsage(t) || (w.actors[a].ApplyUsage? && w.actors[a].tx == t)
        || BatchOf(w.actors[a]) == Some({t}))
  }

  lemma EventLaunches(w: World, e: Event, a: nat, t: nat)
    requires Inv(w) && Enabled(w, e) && Launches(w, a, t)
    ensures Launches(Next(w, e), a, t)
  {
    EventFrames(w, e);
  }

  lemma {:induction false} RunLaunches(w: World, es: seq<Event>, a: nat, t: nat)
    requires Inv(w) && Allowed(w, es) && Launches(w, a, t)
    ensures Launches(Exec(w, es), a, t)
    decreases |es|
  {
    if es != [] {
      EventLaunches(w, es[0], a, t);
      NextKeeps(w, es[0]);
      RunLaunches(Next(w, es[0]), es[1..], a, t);
    }
  }

  lemma EndedHasDrained(w: World, a: nat, t: nat)
    requires Inv(w) && Launches(w, a, t) && w.actors[a].Finished?
    ensures t in w.drained
  {
    AtActor(w, a);
  }

  lemma DrainedSims(w: World, t: nat)
    requires Inv(w) && t in w.drained
    ensures forall x | x in w.sims && w.sims[x].order in w.orders && w.orders[w.sims[x].order].tx == t ::
              w.sims[x].status != Created
  {
    assert Satisfies(w, Sims);
    assert DrainedOk(w, t);
  }

  /** Once the call that a payment launched has ended, whatever the promo transaction, the providers and all other
      calls did meanwhile, no SIM of the paid transaction's order waits for its issue any more. */
  lemma LaunchedIssueEnds(w: World, e: Event, t: nat, es: seq<Event>)
    requires Inv(w) && Enabled(w, e) && PaysNow(w, e, t) && Allowed(Next(w, e), es)
    requires var last := Exec(Next(w, e), es); w.nextActor in last.actors && last.actors[w.nextActor].Finished?
    ensures var last := Exec(Next(w, e), es);
            forall x | x in last.sims && last.sims[x].order in last.orders && last.orders[last.sims[x].order].tx == t ::
              last.sims[x].status != Created
  {
    WinnerPaysAndLaunches(w, e.actor, e.input, t);
    NextKeeps(w, e);
    RunLaunches(Next(w, e), es, w.nextActor, t);
    RunKeeps(Next(w, e), es);
    EndedHasDrained(Exec(Next(w, e), es), w.nextActor, t);
    DrainedSims(Exec(Next(w, e), es), t);
  }

  // ---------- ticks ----------

  // One tick of the job: the batch it selects, and what happens until it has worked it off.
  datatype Tick = Tick(batch: seq<nat>, es: seq<Event>)

  function AfterTick(w: World, tick: Tick): World
    requires Enabled(w, RecoveryTick(tick.batch)) && Allowed(Next(w, RecoveryTick(tick.batch)), tick.es)
  {
    Exec(Next(w, RecoveryTick(tick.batch)), tick.es)
  }

  /** The tick is one the database and the world allow, no transaction is paid while it works, and at
      the end it has worked its batch off. Everything else may happen in between. */
  predicate TickOk(w: World, tick: Tick) {
    && Enabled(w, RecoveryTick(tick.batch)) && Allowed(Next(w, RecoveryTick(tick.batch)), tick.es)
    && var w' := AfterTick(w, tick);
       && Successes(w') <= Successes(w)
       && w.nextActor in w'.actors && w'.actors[w.nextActor].Finished?
  }

  // The actor of the tick still knows the batch it was started for.
  ghost predicate Remembers(w: World, a: nat, all: set<nat>) {
    a in w.actors && BatchOf(w.actors[a]) == Some(all)
  }

  lemma EventRemembers(w: World, e: Event, a: nat, all: set<nat>)
    requires Inv(w) && Enabled(w, e) && Remembers(w, a, all)
    ensures Remembers(Next(w, e), a, all)
  {
    NextSafe(w, e);
    SafeMeans(w, Next(w, e), MoverOf(w, e));
  }

  lemma {:induction false} RunRemembers(w: World, es: seq<Event>, a: nat, all: set<nat>)
    requires Inv(w) && Allowed(w, es) && Remembers(w, a, all)
    ensures Remembers(Exec(w, es), a, all)
    decreases |es|
  {
    if es != [] {
      EventRemembers(w, es[0], a, all);
      NextKeeps(w, es[0]);
      RunRemembers(Next(w, es[0]), es[1..], a, all);
    }
  }

  lemma TickStarts(w: World, batch: seq<nat>)
    requires Inv(w) && Enabled(w, RecoveryTick(batch))
    ensures var w1 := Next(w, RecoveryTick(batch));
            && Inv(w1) && Remembers(w1, w.nextActor, set t | t in batch)
            && w1.txs == w.txs && w1.orders == w.orders && w1.sims == w.sims
  {
    NextKeeps(w, RecoveryTick(batch));
  }

  // What a finished tick has worked off.
  lemma TickDrains(w: World, tick: Tick, t: nat)
    requires Inv(w) && TickOk(w, tick) && t in tick.batch
    ensures Inv(AfterTick(w, tick)) && !InBacklog(AfterTick(w, tick), t)
  {
    var w', all := AfterTick(w, tick), set u | u in tick.batch;
    TickStarts(w, tick.batch);
    RunRemembers(Next(w, RecoveryTick(tick.batch)), tick.es, w.nextActor, all);
    RunKeeps(Next(w, RecoveryTick(tick.batch)), tick.es);
    AtActor(w', w.nextActor);
    DrainedIsOut(w', t);
  }

  lemma TickAddsNothing(w: World, tick: Tick, t: nat)
    requires Inv(w) && TickOk(w, tick) && InBacklog(AfterTick(w, tick), t)
    ensures InBacklog(w, t)
  {
    var w1 := Next(w, RecoveryTick(tick.batch));
    TickStarts(w, tick.batch);
    assert t in Successes(AfterTick(w, tick));
    BacklogShrinks(w1, tick.es, t);
    assert HasCreatedSim(w, w.txs[t].order.value) by {
      var x :| x in w1.sims && w1.sims[x].order == w1.txs[t].order.value && w1.sims[x].status == Created;
      assert x in w.sims;
    }
  }

  function Elements(s: seq<nat>): set<nat> {
    set t | t in s
  }

  lemma {:induction false} DistinctSize(s: seq<nat>)
    requires Distinct(s)
    ensures |Elements(s)| == |s|
  {
    if s != [] {
      var init, last := s[..|s| - 1], s[|s| - 1];
      DistinctSize(init);
      assert s == init + [last];
      assert forall i | 0 <= i < |init| :: init[i] == s[i] != last;
      assert last !in Elements(init);
      assert Elements(s) == Elements(init) + {last};
    }
  }

  function Less(n: nat, m: nat): nat {
    if n <= m then 0 else n - m
  }

  lemma BatchSize(w: World, batch: seq<nat>)
    requires IsBatch(w, batch)
    ensures Elements(batch) <= Backlog(w) && (|Elements(batch)| == BATCH || Elements(batch) == Backlog(w))
  {
    DistinctSize(batch);
  }

  lemma TickShrinks(w: World, tick: Tick)
    requires Inv(w) && TickOk(w, tick)
    ensures Inv(AfterTick(w, tick))
    ensures Backlog(AfterTick(w, tick)) <= Backlog(w) - Elements(tick.batch)
  {
    var w' := AfterTick(w, tick);
    TickStarts(w, tick.batch);
    RunKeeps(Next(w, RecoveryTick(tick.batch)), tick.es);
    forall t | t in Backlog(w') ensures t in Backlog(w) && t !in tick.batch {
      TickAddsNothing(w, tick, t);
      if t in tick.batch {
        TickDrains(w, tick, t);
      }
    }
  }

  /** A tick takes up to 20 transactions out of the backlog and puts none in, whatever the providers
      answer and whatever else happens meanwhile, as long as no new transaction is paid. */
  lemma TickTakesTwenty(w: World, tick: Tick)
    requires Inv(w) && TickOk(w, tick)
    ensures Inv(AfterTick(w, tick))
    ensures Backlog(AfterTick(w, tick)) <= Backlog(w)
    ensures |Backlog(AfterTick(w, tick))| <= Less(|Backlog(w)|, 20)
  {
    TickShrinks(w, tick);
    BatchSize(w, tick.batch);
    Leaves(Backlog(w), Backlog(AfterTick(w, tick)), Elements(tick.batch));
  }

  lemma Leaves(before: set<nat>, after: set<nat>, out: set<nat>)
    requires after <= before - out && out <= before
    ensures |after| <= Less(|before|, |out|)
  {
    Smaller(after, before - out);
    Smaller(out, before);
  }

  lemma Smaller(a: set<nat>, b: set<nat>)
    requires a <= b
    ensures |a| <= |b| && |b - a| == |b| - |a|
  {
    assert b == a + (b - a);
  }

  // ---------- several ticks ----------

  predicate TicksOk(w: World, ticks: seq<Tick>)
    decreases |ticks|
  {
    ticks == [] || (TickOk(w, ticks[0]) && TicksOk(AfterTick(w, ticks[0]), ticks[1..]))
  }

  function AfterTicks(w: World, ticks: seq<Tick>): World
    requires TicksOk(w, ticks)
    decreases |ticks|
  {
    if ticks == [] then w else AfterTicks(AfterTick(w, ticks[0]), ticks[1..])
  }

  lemma {:induction false} TicksTakeTwentyEach(w: World, ticks: seq<Tick>)
    requires Inv(w) && TicksOk(w, ticks)
    ensures |Backlog(AfterTicks(w, ticks))| <= Less(|Backlog(w)|, BATCH * |ticks|)
    decreases |ticks|
  {
    if ticks != [] {
      TickTakesTwenty(w, ticks[0]);
      TicksTakeTwentyEach(AfterTick(w, ticks[0]), ticks[1..]);
    }
  }

  /** Without new payments, ceil(n / 20) ticks empty a backlog of n. */
  lemma RecoveryDrains(w: World, es: seq<Event>, ticks: seq<Tick>)
    requires Initial(w) && Allowed(w, es) && TicksOk(Exec(w, es), ticks)
    requires |ticks| * 20 >= |Backlog(Exec(w, es))|
    ensures Backlog(AfterTicks(Exec(w, es), ticks)) == {}
  {
    Reached(w, es);
    TicksTakeTwentyEach(Exec(w, es), ticks);
  }

  // ---------- a tick ends ----------

  /** Whatever is answered, each move of an actor that runs create brings it nearer to its end. */
  lemma MovesDescend(w: World, a: nat, i: Input)
    requires Inv(w) && Enabled(w, Move(a, i)) && RunsCreate(w.actors[a])
    ensures var w' := Step(w, a, i);
            && a in w'.actors && (RunsCreate(w'.actors[a]) || w'.actors[a].Finished?)
            && Descends(w.actors[a], w'.actors[a])
  {
    NextSafe(w, Move(a, i));
    SafeMeans(w, Step(w, a, i), a);
  }

  lemma {:induction false} Enumerate(s: set<nat>) returns (q: seq<nat>)
    ensures Distinct(q) && forall t :: t in q <==> t in s
  {
    if s == {} {
      q := [];
    } else {
      var t :| t in s;
      var q' := Enumerate(s - {t});
      q := q' + [t];
      assert forall i | 0 <= i < |q'| :: q[i] in q';
    }
  }

  // The database can always answer.
  lemma AnswerExists(w: World, a: nat) returns (i: Input)
    requires Inv(w) && a in w.actors && RunsCreate(w.actors[a])
    ensures Enabled(w, Move(a, i))
  {
    i := Go;
    if w.actors[a].ReadOrder? {
      AtActor(w, a);
      AtTx(w, w.actors[a].tx);
      var o := w.txs[w.actors[a].tx].order.value;
      var todo := Enumerate(set x | x in w.sims && w.sims[x].order == o && w.sims[x].status == Created);
      i := OrderRow(o, todo);
    }
  }

  lemma MovePaysNothing(w: World, a: nat, i: Input)
    requires Inv(w) && Enabled(w, Move(a, i)) && RunsCreate(w.actors[a])
    ensures Successes(Next(w, Move(a, i))) == Successes(w)
  {
    forall t ensures Paid(Next(w, Move(a, i)), t) == Paid(w, t) {
      PaidOnlyByWin(w, Move(a, i), t);
    }
    SamePaid(w, Next(w, Move(a, i)));
  }

  lemma SamePaid(w: World, w': World)
    requires forall t :: Paid(w', t) == Paid(w, t)
    ensures Successes(w') == Successes(w)
  {
    forall t ensures t in Successes(w') <==> t in Successes(w) {
      assert Paid(w', t) == Paid(w, t);
    }
  }

  /** From every reachable world a started tick can be worked off by its own moves alone. */
  lemma TickCanEnd(w: World, a: nat) returns (es: seq<Event>)
    requires Inv(w) && a in w.actors && (RunsCreate(w.actors[a]) || w.actors[a].Finished?)
    ensures Allowed(w, es) && (forall e | e in es :: e.Move? && e.actor == a)
    ensures a in Exec(w, es).actors && Exec(w, es).actors[a].Finished?
    ensures Successes(Exec(w, es)) == Successes(w)
    decreases RunsLeft(w.actors[a]), CallsLeft(w.actors[a])
  {
    es := [];
    if !w.actors[a].Finished? {
      var i := AnswerExists(w, a);
      NextKeeps(w, Move(a, i));
      MovesDescend(w, a, i);
      MovePaysNothing(w, a, i);
      var rest := TickCanEnd(Next(w, Move(a, i)), a);
      es := [Move(a, i)] + rest;
      assert es[1..] == rest;
    }
  }

  /** Every backlog can be drained: there is a tick, and it ends. */
  lemma TickExists(w: World) returns (tick: Tick)
    requires Inv(w)
    ensures TickOk(w, tick)
  {
    var batch := SomeBatch(w);
    TickStarts(w, batch);
    var es := TickCanEnd(Next(w, RecoveryTick(batch)), w.nextActor);
    tick := Tick(batch, es);
  }

  lemma SomeBatch(w: World) returns (batch: seq<nat>)
    requires Inv(w)
    ensures Enabled(w, RecoveryTick(batch))
  {
    var all := Enumerate(Backlog(w));
    batch := if |all| > BATCH then all[..BATCH] else all;
    forall t | t in batch ensures InBacklog(w, t) {
      assert t in all && t in Backlog(w);
    }
    assert |all| <= BATCH ==> forall t | t in w.txs && InBacklog(w, t) :: t in Backlog(w);
  }
}
