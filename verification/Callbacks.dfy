/** A Mobiline callback finds its SIM by the correlation id, and finds one SIM only. */
module Callbacks {
  import opened Tables
  import opened Correlation
  import opened Protocol
  import opened Invariant
  import opened SimSteps
  import opened Machine
  import opened Safety

  // The correlation id was made for the SIM `x`, at some time.
  ghost predicate NamedFor(group: string, id: Option<string>, x: nat) {
    id.Some? ==> exists stamp | |stamp| == STAMP_WIDTH :: id.value == ChannelOrderId(group, stamp, x)
  }

  ghost predicate Named(w: World) {
    forall x | x in w.sims :: NamedFor(w.group, w.sims[x].channelId, x)
  }

  lemma ConfiguredNames(w: World, a: nat, x: nat, r: Run, i: Input)
    requires Claimable(w, x) && i.Configured? && |i.stamp| == STAMP_WIDTH
    ensures var w' := StepMobClaim(w, a, x, r, i);
            x in w'.sims && w'.sims[x].channelId == Some(ChannelOrderId(w.group, i.stamp, x))
  {
  }

  lemma UnconfiguredNames(w: World, a: nat, x: nat, r: Run, i: Input)
    requires Claimable(w, x) && !(i.Configured? && |i.stamp| == STAMP_WIDTH)
    ensures var w' := StepMobClaim(w, a, x, r, i);
            x in w'.sims && w'.sims[x].channelId == w.sims[x].channelId
  {
  }

  // The claim of a Mobiline SIM names it.
  lemma ClaimNames(w: World, a: nat, i: Input, x: nat)
    requires Inv(w) && a in w.actors && w.actors[a].Provision? && Claimable(w, x)
    requires w.sims[x].provider == Mobiline
    requires w.actors[a].run.todo != [] && w.actors[a].run.todo[0] == x
    ensures x in Step(w, a, i).sims && NamedFor(w.group, Step(w, a, i).sims[x].channelId, x)
  {
    AtSim(w, x);
    var r := w.actors[a].run.(todo := w.actors[a].run.todo[1..]);
    assert Step(w, a, i) == StepMobClaim(w, a, x, r, i);
    if i.Configured? && |i.stamp| == STAMP_WIDTH {
      ConfiguredNames(w, a, x, r, i);
    } else {
      UnconfiguredNames(w, a, x, r, i);
    }
  }

  // Only the claim of a CREATED Mobiline SIM changes a correlation id.
  lemma OnlyClaimsName(w: World, e: Event, x: nat)
    requires Inv(w) && Enabled(w, e) && x in Next(w, e).sims && Next(w, e).sims[x].channelId.Some?
    ensures x in w.sims
    ensures Next(w, e).sims[x].channelId != w.sims[x].channelId ==>
              && e.Move? && w.actors[e.actor].Provision? && Claimable(w, x) && w.sims[x].provider == Mobiline
              && w.actors[e.actor].run.todo != [] && w.actors[e.actor].run.todo[0] == x
  {
    EventRelies(w, e);
    NewActor(w);
    MobilineIsNamed(Next(w, e), x);
  }

  lemma MobilineIsNamed(w: World, x: nat)
    requires Inv(w) && x in w.sims && w.sims[x].channelId.Some?
    ensures w.sims[x].provider == Mobiline
  {
    AtSim(w, x);
  }

  lemma EventNames(w: World, e: Event, x: nat)
    requires Inv(w) && Enabled(w, e) && Named(w) && x in Next(w, e).sims
    ensures NamedFor(w.group, Next(w, e).sims[x].channelId, x)
  {
    if Next(w, e).sims[x].channelId.Some? {
      OnlyClaimsName(w, e, x);
      if Next(w, e).sims[x].channelId == w.sims[x].channelId {
        assert NamedFor(w.group, w.sims[x].channelId, x);
      } else {
        ClaimNames(w, e.actor, e.input, x);
      }
    }
  }

  lemma SameGroup(w: World, e: Event)
    requires Inv(w) && Enabled(w, e)
    ensures Next(w, e).group == w.group
  {
    NextSafe(w, e);
    SafeMeans(w, Next(w, e), MoverOf(w, e));
    Relied(w, Next(w, e), MoverOf(w, e));
  }

  lemma {:induction false} AllNamed(w: World, es: seq<Event>)
    requires Inv(w) && Named(w) && Allowed(w, es)
    ensures Named(Exec(w, es)) && Exec(w, es).group == w.group
    decreases |es|
  {
    if es != [] {
      SameGroup(w, es[0]);
      forall x | x in Next(w, es[0]).sims ensures NamedFor(w.group, Next(w, es[0]).sims[x].channelId, x) {
        EventNames(w, es[0], x);
      }
      NextKeeps(w, es[0]);
      AllNamed(Next(w, es[0]), es[1..]);
    }
  }

  /** In every run no two SIMs ever share a correlation id, so a Mobiline callback resolves to at most
      one SIM. */
  lemma CallbackResolves(w: World, es: seq<Event>, x: nat, y: nat)
    requires Initial(w) && Allowed(w, es) && x in Exec(w, es).sims && y in Exec(w, es).sims
    requires Exec(w, es).sims[x].channelId.Some?
    requires Exec(w, es).sims[x].channelId == Exec(w, es).sims[y].channelId
    ensures x == y
  {
    var last := Exec(w, es);
    InitialInv(w);
    AllNamed(w, es);
    assert NamedFor(w.group, last.sims[x].channelId, x) && NamedFor(w.group, last.sims[y].channelId, y);
    var s1 :| |s1| == STAMP_WIDTH && last.sims[x].channelId.value == ChannelOrderId(w.group, s1, x);
    var s2 :| |s2| == STAMP_WIDTH && last.sims[y].channelId.value == ChannelOrderId(w.group, s2, y);
    CorrelationIsInjective(w.group, s1, x, s2, y);
  }
}
