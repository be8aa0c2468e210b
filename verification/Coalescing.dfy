/** Balance checks of the usage service: a balance younger than a minute is answered from its snapshot, and
    concurrent calls for one SIM share one refresh. The clock is part of the state. */
module Coalescing {
  import opened Tables

  const MINUTE := 60000

  // The stored balance and the instant it was made at.
  datatype Snapshot = Snapshot(checkedAt: nat, data: nat)

  datatype Reply = NotReady | Unsupported | Balance(snapshot: Snapshot) | BadGateway

  // What the SIM row says: none for this user; no provider to ask, not issued yet, or a balance to give.
  datatype Kind = NoProvider | NotIssued | Issued

  datatype Row = Missing | Found(kind: Kind, snapshot: Option<Snapshot>)

  // A refresh runs, has its answer normalised and is about to store it, has settled, and then `finally`
  // has taken it out of the map.
  datatype Phase = Running | Answered(snapshot: Snapshot) | Settled(reply: Reply) | Cleaned(reply: Reply)

  datatype Refresh = Refresh(sim: nat, phase: Phase)

  // `via` is the refresh a reply came from.
  datatype Stage =
    | Reading
    | Deciding(row: Row)
    | Waiting(refresh: nat)
    | NotFound
    | Replied(reply: Reply, via: Option<nat>)

  datatype Call = Call(sim: nat, user: Option<nat>, stage: Stage)

  datatype Service = Service(
    owners: map<nat, nat>, now: nat, snapshots: map<nat, Snapshot>, inFlight: map<nat, nat>,
    refreshes: map<nat, Refresh>, calls: map<nat, Call>, nextRefresh: nat, nextCall: nat)

  datatype Event =
    | Arrives(sim: nat, user: Option<nat>)
    | Reads(call: nat, row: Row)
    | Decides(call: nat)
    | Answers(refresh: nat, data: nat)
    | Stores(refresh: nat)
    | Fails(refresh: nat, reply: Reply)
    | Cleans(refresh: nat)
    | Delivers(call: nat)
    | Ticks(ms: nat)

  // `where: { id, user_id }`: staff asks without a user.
  predicate Owned(s: Service, call: Call) {
    call.sim in s.owners && (call.user.None? || call.user.value == s.owners[call.sim])
  }

  function SnapshotOf(s: Service, sim: nat): Option<Snapshot> {
    if sim in s.snapshots then Some(s.snapshots[sim]) else None
  }

  predicate Young(snapshot: Option<Snapshot>, now: nat) {
    snapshot.Some? && now - snapshot.value.checkedAt < MINUTE
  }

  function SetStage(s: Service, c: nat, stage: Stage): Service
    requires c in s.calls
  {
    s.(calls := s.calls[c := s.calls[c].(stage := stage)])
  }

  function SetPhase(s: Service, r: nat, phase: Phase): Service
    requires r in s.refreshes
  {
    s.(refreshes := s.refreshes[r := s.refreshes[r].(phase := phase)])
  }

  // The call waits for the refresh under way, or starts one.
  function Ask(s: Service, c: nat): Service
    requires c in s.calls
  {
    var sim, r := s.calls[c].sim, s.nextRefresh;
    if sim in s.inFlight then SetStage(s, c, Waiting(s.inFlight[sim]))
    else
      SetStage(
        s.(inFlight := s.inFlight[sim := r], refreshes := s.refreshes[r := Refresh(sim, Running)],
           nextRefresh := r + 1),
        c, Waiting(r))
  }

  // The stretch of `load` after its read: no other call runs in between.
  function Decide(s: Service, c: nat): Service
    requires c in s.calls && s.calls[c].stage.Deciding?
  {
    match s.calls[c].stage.row
    case Missing => SetStage(s, c, NotFound)
    case Found(NoProvider, _) => SetStage(s, c, Replied(Unsupported, None))
    case Found(NotIssued, _) => SetStage(s, c, Replied(NotReady, None))
    case Found(Issued, snapshot) =>
      if Young(snapshot, s.now) then SetStage(s, c, Replied(Balance(snapshot.value), None)) else Ask(s, c)
  }

  function Next(s: Service, e: Event): Service
    requires Enabled(s, e)
  {
    match e
    case Arrives(sim, user) =>
      s.(calls := s.calls[s.nextCall := Call(sim, user, Reading)], nextCall := s.nextCall + 1)
    case Reads(c, row) => SetStage(s, c, Deciding(row))
    case Decides(c) => Decide(s, c)
    case Answers(r, data) => SetPhase(s, r, Answered(Snapshot(s.now, data)))
    case Stores(r) =>
      var snapshot := s.refreshes[r].phase.snapshot;
      SetPhase(s.(snapshots := s.snapshots[s.refreshes[r].sim := snapshot]), r, Settled(Balance(snapshot)))
    case Fails(r, reply) => SetPhase(s, r, Settled(reply))
    case Cleans(r) =>
      SetPhase(s, r, Cleaned(s.refreshes[r].phase.reply)).(inFlight := s.inFlight - {s.refreshes[r].sim})
    case Delivers(c) =>
      var r := s.calls[c].stage.refresh;
      SetStage(s, c, Replied(s.refreshes[r].phase.reply, Some(r)))
    case Ticks(ms) => s.(now := s.now + ms)
  }

  /** The read finds a row exactly for the SIM's owner or for staff, with the snapshot stored then; a
      refresh fails while it runs or stores; a waiting call goes on once the promise it waits for, the one
      with `finally`, is settled. */
  predicate Enabled(s: Service, e: Event) {
    match e
    case Arrives(_, _) => true
    case Reads(c, row) =>
      && c in s.calls && s.calls[c].stage == Reading && (row == Missing <==> !Owned(s, s.calls[c]))
      && (row.Found? ==> row.snapshot == SnapshotOf(s, s.calls[c].sim))
    case Decides(c) => c in s.calls && s.calls[c].stage.Deciding?
    case Answers(r, _) => r in s.refreshes && s.refreshes[r].phase == Running
    case Stores(r) => r in s.refreshes && s.refreshes[r].phase.Answered?
    case Fails(r, reply) =>
      && r in s.refreshes && !reply.Balance?
      && (s.refreshes[r].phase == Running || (s.refreshes[r].phase.Answered? && reply == BadGateway))
    case Cleans(r) => r in s.refreshes && s.refreshes[r].phase.Settled?
    case Delivers(c) =>
      && c in s.calls && s.calls[c].stage.Waiting? && s.calls[c].stage.refresh in s.refreshes
      && s.refreshes[s.calls[c].stage.refresh].phase.Cleaned?
    case Ticks(_) => true
  }

  predicate Allowed(s: Service, es: seq<Event>)
    decreases |es|
  {
    es == [] || (Enabled(s, es[0]) && Allowed(Next(s, es[0]), es[1..]))
  }

  function Exec(s: Service, es: seq<Event>): Service
    requires Allowed(s, es)
    decreases |es|
  {
    if es == [] then s else Exec(Next(s, es[0]), es[1..])
  }

  predicate Initial(s: Service) {
    && s.inFlight == map[] && s.refreshes == map[] && s.calls == map[]
    && forall sim | sim in s.snapshots :: s.snapshots[sim].checkedAt <= s.now
  }

  // ---------- the invariant ----------

  // No stored snapshot of the SIM is younger.
  predicate Newest(s: Service, sim: nat, snapshot: Snapshot) {
    snapshot.checkedAt <= s.now && (sim in s.snapshots ==> s.snapshots[sim].checkedAt <= snapshot.checkedAt)
  }

  predicate RefreshOk(s: Service, r: nat)
    requires r in s.refreshes
  {
    var sim := s.refreshes[r].sim;
    && r < s.nextRefresh
    && (s.refreshes[r].phase.Cleaned? <==> !(sim in s.inFlight && s.inFlight[sim] == r))
    && (s.refreshes[r].phase.Answered? ==> Newest(s, sim, s.refreshes[r].phase.snapshot))
  }

  predicate EntryOk(s: Service, sim: nat)
    requires sim in s.inFlight
  {
    s.inFlight[sim] in s.refreshes && s.refreshes[s.inFlight[sim]].sim == sim
  }

  predicate CallOk(s: Service, c: nat)
    requires c in s.calls
  {
    var k := s.calls[c];
    && c < s.nextCall
    && match k.stage
       case Reading => true
       case Deciding(row) => row == Missing <==> !Owned(s, k)
       case Waiting(r) => Owned(s, k) && r in s.refreshes && s.refreshes[r].sim == k.sim
       case NotFound => !Owned(s, k)
       case Replied(reply, via) =>
         && Owned(s, k)
         && (via.Some? ==>
               via.value in s.refreshes && s.refreshes[via.value] == Refresh(k.sim, Cleaned(reply)))
  }

  predicate Valid(s: Service) {
    && (forall r | r in s.refreshes :: RefreshOk(s, r))
    && (forall sim | sim in s.inFlight :: EntryOk(s, sim))
    && (forall c | c in s.calls :: CallOk(s, c))
    && (forall sim | sim in s.snapshots :: s.snapshots[sim].checkedAt <= s.now)
  }

  // A decision asks, or changes the call alone.
  lemma AsksOrAnswers(s: Service, c: nat) returns (stage: Stage)
    requires c in s.calls && s.calls[c].stage.Deciding?
    ensures Decide(s, c) == Ask(s, c) || Decide(s, c) == SetStage(s, c, stage)
  {
    stage := Decide(s, c).calls[c].stage;
  }

  lemma AskKeepsRefreshes(s: Service, c: nat, r: nat)
    requires Valid(s) && c in s.calls && r in Ask(s, c).refreshes
    ensures RefreshOk(Ask(s, c), r)
  {
    var sim := s.calls[c].sim;
    assert r in s.refreshes ==> RefreshOk(s, r);
    assert sim in s.inFlight ==> EntryOk(s, sim);
    assert forall other | other in s.inFlight :: EntryOk(s, other);
  }

  lemma DecideKeepsRefreshes(s: Service, c: nat, r: nat)
    requires Valid(s) && c in s.calls && s.calls[c].stage.Deciding? && r in Decide(s, c).refreshes
    ensures RefreshOk(Decide(s, c), r)
  {
    var stage := AsksOrAnswers(s, c);
    if Decide(s, c) == Ask(s, c) {
      AskKeepsRefreshes(s, c, r);
    } else {
      assert RefreshOk(s, r);
    }
  }

  lemma RefreshesKeep(s: Service, e: Event, r: nat)
    requires Valid(s) && Enabled(s, e) && r in Next(s, e).refreshes
    ensures RefreshOk(Next(s, e), r)
  {
    if e.Decides? {
      DecideKeepsRefreshes(s, e.call, r);
    } else {
      assert RefreshOk(s, r);
      if e.Cleans? || e.Stores? {
        assert RefreshOk(s, e.refresh);
      }
    }
  }

  lemma EntriesKeep(s: Service, e: Event, sim: nat)
    requires Valid(s) && Enabled(s, e) && sim in Next(s, e).inFlight
    ensures EntryOk(Next(s, e), sim)
  {
    assert sim in s.inFlight ==> EntryOk(s, sim);
    if e.Decides? {
      var stage := AsksOrAnswers(s, e.call);
    }
  }

  // Refreshes stay there, for the SIM they were for, and one that is out of the map stays as it is.
  predicate Kept(s: Service, s': Service) {
    forall r | r in s.refreshes ::
      && r in s'.refreshes && s'.refreshes[r].sim == s.refreshes[r].sim
      && (s.refreshes[r].phase.Cleaned? ==> s'.refreshes[r] == s.refreshes[r])
  }

  lemma RefreshesStay(s: Service, e: Event)
    requires Valid(s) && Enabled(s, e)
    ensures Kept(s, Next(s, e)) && Next(s, e).owners == s.owners && s.nextCall <= Next(s, e).nextCall
  {
    forall r | r in s.refreshes ensures RefreshOk(s, r) {
    }
    if e.Decides? {
      var stage := AsksOrAnswers(s, e.call);
    }
  }

  // What a call may make of its stage.
  lemma OwnCallKeeps(s: Service, e: Event, c: nat)
    requires Valid(s) && Enabled(s, e) && c in s.calls && (e.Reads? || e.Delivers?) && e.call == c
    ensures c in Next(s, e).calls && CallOk(Next(s, e), c)
  {
    assert CallOk(s, c);
  }

  lemma OtherCallsStay(s: Service, e: Event, c: nat)
    requires Valid(s) && Enabled(s, e) && c in s.calls && !((e.Reads? || e.Decides? || e.Delivers?) && e.call == c)
    ensures c in Next(s, e).calls && Next(s, e).calls[c] == s.calls[c]
  {
    assert CallOk(s, c);
    if e.Decides? {
      var stage := AsksOrAnswers(s, e.call);
    }
  }

  lemma SameCallKeeps(s: Service, s': Service, c: nat)
    requires c in s.calls && CallOk(s, c) && c in s'.calls && s'.calls[c] == s.calls[c]
    requires Kept(s, s') && s'.owners == s.owners && s.nextCall <= s'.nextCall
    ensures CallOk(s', c)
  {
  }

  lemma CallsKeep(s: Service, e: Event, c: nat)
    requires Valid(s) && Enabled(s, e) && c in s.calls
    ensures c in Next(s, e).calls && CallOk(Next(s, e), c)
  {
    assert CallOk(s, c);
    if e.Decides? && e.call == c {
      DecisionKeeps(s, c);
    } else if (e.Reads? || e.Delivers?) && e.call == c {
      OwnCallKeeps(s, e, c);
    } else {
      OtherCallsStay(s, e, c);
      RefreshesStay(s, e);
      SameCallKeeps(s, Next(s, e), c);
    }
  }

  lemma AskKeepsCall(s: Service, c: nat)
    requires Valid(s) && c in s.calls && Owned(s, s.calls[c])
    ensures c in Ask(s, c).calls && CallOk(Ask(s, c), c)
  {
    assert CallOk(s, c);
    assert s.calls[c].sim in s.inFlight ==> EntryOk(s, s.calls[c].sim);
  }

  lemma DecisionKeeps(s: Service, c: nat)
    requires Valid(s) && c in s.calls && s.calls[c].stage.Deciding?
    ensures c in Decide(s, c).calls && CallOk(Decide(s, c), c)
  {
    assert CallOk(s, c);
    if s.calls[c].stage.row.Found? && Decide(s, c) == Ask(s, c) {
      AskKeepsCall(s, c);
    }
  }

  lemma SnapshotsKeep(s: Service, e: Event, sim: nat)
    requires Valid(s) && Enabled(s, e) && sim in Next(s, e).snapshots
    ensures Next(s, e).snapshots[sim].checkedAt <= Next(s, e).now
  {
    if e.Stores? {
      assert RefreshOk(s, e.refresh);
    } else if e.Decides? {
      var stage := AsksOrAnswers(s, e.call);
    }
  }

  lemma NewCallKeeps(s: Service, e: Event, c: nat)
    requires Valid(s) && Enabled(s, e) && c in Next(s, e).calls && c !in s.calls
    ensures CallOk(Next(s, e), c)
  {
    if e.Decides? {
      var stage := AsksOrAnswers(s, e.call);
    }
  }

  lemma NextKeeps(s: Service, e: Event)
    requires Valid(s) && Enabled(s, e)
    ensures Valid(Next(s, e)) && Next(s, e).owners == s.owners
  {
    var s' := Next(s, e);
    forall r | r in s'.refreshes ensures RefreshOk(s', r) {
      RefreshesKeep(s, e, r);
    }
    forall sim | sim in s'.inFlight ensures EntryOk(s', sim) {
      EntriesKeep(s, e, sim);
    }
    forall c | c in s'.calls ensures CallOk(s', c) {
      if c in s.calls {
        CallsKeep(s, e, c);
      } else {
        NewCallKeeps(s, e, c);
      }
    }
    forall sim | sim in s'.snapshots ensures s'.snapshots[sim].checkedAt <= s'.now {
      SnapshotsKeep(s, e, sim);
    }
    RefreshesStay(s, e);
  }

  lemma {:induction false} RunKeeps(s: Service, es: seq<Event>)
    requires Valid(s) && Allowed(s, es)
    ensures Valid(Exec(s, es)) && Exec(s, es).owners == s.owners
    decreases |es|
  {
    if es != [] {
      NextKeeps(s, es[0]);
      RunKeeps(Next(s, es[0]), es[1..]);
    }
  }

  // ---------- what holds in every run ----------

  predicate Unfinished(s: Service, r: nat, sim: nat) {
    r in s.refreshes && s.refreshes[r].sim == sim && !s.refreshes[r].phase.Cleaned?
  }

  /** At most one refresh of a SIM is under way, and the map has an entry for the SIM, namely that
      refresh, exactly while one is. */
  lemma OneRefreshPerSim(s: Service, es: seq<Event>, sim: nat, r: nat)
    requires Initial(s) && Allowed(s, es)
    ensures var last := Exec(s, es);
            Unfinished(last, r, sim) <==> sim in last.inFlight && last.inFlight[sim] == r
  {
    RunKeeps(s, es);
    var last := Exec(s, es);
    assert r in last.refreshes ==> RefreshOk(last, r);
    assert sim in last.inFlight ==> EntryOk(last, sim);
  }

  /** A call is answered with a reply only about a SIM of its user, or any SIM for staff, and with NotFound
      only when it is not; a call that waited for a refresh gets the reply of that refresh, which was for
      its SIM. */
  lemma RepliesAreRight(s: Service, es: seq<Event>, c: nat)
    requires Initial(s) && Allowed(s, es) && c in Exec(s, es).calls
    ensures var last, k := Exec(s, es), Exec(s, es).calls[c];
            && (k.stage.Replied? ==> k.sim in s.owners && (k.user.None? || s.owners[k.sim] == k.user.value))
            && (k.stage == NotFound ==> !(k.sim in s.owners && (k.user.None? || s.owners[k.sim] == k.user.value)))
            && (k.stage.Replied? && k.stage.via.Some? ==>
                  && k.stage.via.value in last.refreshes
                  && last.refreshes[k.stage.via.value] == Refresh(k.sim, Cleaned(k.stage.reply)))
  {
    RunKeeps(s, es);
    assert CallOk(Exec(s, es), c);
  }

  /** A call that has decided to refresh waits for the one refresh of its SIM that is under way, or for
      one that has just been cleaned up and whose reply is there. */
  lemma WaitersShare(s: Service, es: seq<Event>, c: nat, d: nat)
    requires Initial(s) && Allowed(s, es) && c in Exec(s, es).calls && d in Exec(s, es).calls
    requires Exec(s, es).calls[c].stage.Waiting? && Exec(s, es).calls[d].stage.Waiting?
    requires Exec(s, es).calls[c].sim == Exec(s, es).calls[d].sim
    ensures var last := Exec(s, es);
            var r, q := last.calls[c].stage.refresh, last.calls[d].stage.refresh;
            r in last.refreshes && q in last.refreshes
            && (!last.refreshes[r].phase.Cleaned? && !last.refreshes[q].phase.Cleaned? ==> r == q)
  {
    var last := Exec(s, es);
    RunKeeps(s, es);
    assert CallOk(last, c) && CallOk(last, d);
    assert RefreshOk(last, last.calls[c].stage.refresh) && RefreshOk(last, last.calls[d].stage.refresh);
  }

  // ---------- one refresh for each SIM and minute ----------

  predicate AsNew(snapshot: Option<Snapshot>, at: nat) {
    snapshot.Some? && at <= snapshot.value.checkedAt
  }

  // The call has read the SIM, which has a balance to give.
  predicate HasRead(s: Service, c: nat, sim: nat) {
    && c in s.calls && s.calls[c].sim == sim && s.calls[c].stage.Deciding?
    && s.calls[c].stage.row.Found? && s.calls[c].stage.row.kind == Issued
  }

  // The stored snapshot of the SIM is as new as `at`, and so is what the call has read of it.
  predicate KnowsSince(s: Service, c: nat, sim: nat, at: nat) {
    AsNew(SnapshotOf(s, sim), at) && (HasRead(s, c, sim) ==> AsNew(s.calls[c].stage.row.snapshot, at))
  }

  lemma StillKnows(s: Service, e: Event, c: nat, sim: nat, at: nat)
    requires Valid(s) && Enabled(s, e) && KnowsSince(s, c, sim, at)
    ensures KnowsSince(Next(s, e), c, sim, at) && s.now <= Next(s, e).now
  {
    if e.Stores? {
      assert RefreshOk(s, e.refresh);
    } else if e.Decides? {
      var stage := AsksOrAnswers(s, e.call);
    }
  }

  lemma {:induction false} KnowsForARun(s: Service, es: seq<Event>, c: nat, sim: nat, at: nat)
    requires Valid(s) && Allowed(s, es) && KnowsSince(s, c, sim, at)
    ensures KnowsSince(Exec(s, es), c, sim, at)
    decreases |es|
  {
    if es != [] {
      StillKnows(s, es[0], c, sim, at);
      NextKeeps(s, es[0]);
      KnowsForARun(Next(s, es[0]), es[1..], c, sim, at);
    }
  }

  // The decision of the call starts a refresh.
  predicate StartsRefresh(s: Service, c: nat)
    requires c in s.calls && s.calls[c].stage.Deciding?
  {
    Decide(s, c).nextRefresh > s.nextRefresh
  }

  lemma {:induction false} Extend(s: Service, es: seq<Event>, e: Event, after: Service)
    requires Allowed(s, es) && Enabled(Exec(s, es), e) && Next(Exec(s, es), e) == after
    ensures Allowed(s, es + [e]) && Exec(s, es + [e]) == after
    decreases |es|
  {
    if es == [] {
      assert es + [e] == [e];
      assert [e][1..] == [];
    } else {
      assert (es + [e])[1..] == es[1..] + [e];
      Extend(Next(s, es[0]), es[1..], e, after);
    }
  }

  // ---------- when a call refreshes again within the minute ----------

  // The call has read a row of the SIM that is older than the stored balance.
  predicate Outdated(s: Service, c: nat, sim: nat) {
    HasRead(s, c, sim) && sim in s.snapshots
    && !AsNew(s.calls[c].stage.row.snapshot, s.snapshots[sim].checkedAt)
  }

  // The stored balance of the SIM is younger than a minute.
  predicate Recent(s: Service, sim: nat, now: nat) {
    sim in s.snapshots && now - s.snapshots[sim].checkedAt < 60000
  }

  // After the run the decision of the call starts a refresh, and the balance stored before the run is still
  // younger than a minute.
  predicate RefreshesAgain(s: Service, es: seq<Event>, c: nat, sim: nat) {
    && Allowed(s, es) && Enabled(Exec(s, es), Decides(c)) && Exec(s, es).calls[c].sim == sim
    && StartsRefresh(Exec(s, es), c) && Recent(s, sim, Exec(s, es).now)
  }

  // What a decision that starts a refresh has read is a minute old, and no refresh of the SIM is under way.
  lemma StartsExactlyWhen(s: Service, c: nat, sim: nat)
    requires Enabled(s, Decides(c)) && s.calls[c].sim == sim
    ensures StartsRefresh(s, c) <==>
            HasRead(s, c, sim) && !Young(s.calls[c].stage.row.snapshot, s.now) && sim !in s.inFlight
  {
  }

  lemma OnlyOutdated(s: Service, es: seq<Event>, c: nat, sim: nat)
    requires Valid(s) && sim in s.snapshots && RefreshesAgain(s, es, c, sim)
    ensures Outdated(s, c, sim)
  {
    if !Outdated(s, c, sim) {
      KnowsForARun(s, es, c, sim, s.snapshots[sim].checkedAt);
      StartsExactlyWhen(Exec(s, es), c, sim);
    }
  }

  // The refresh of the SIM that is under way, if any, fails and is cleaned up; the call is not touched.
  lemma FreedOf(s: Service, sim: nat) returns (es: seq<Event>)
    requires Valid(s)
    ensures Allowed(s, es) && Valid(Exec(s, es))
    ensures var last := Exec(s, es);
            && last.now == s.now && last.calls == s.calls && last.snapshots == s.snapshots && sim !in last.inFlight
  {
    es := [];
    if sim in s.inFlight {
      var r := s.inFlight[sim];
      assert EntryOk(s, sim) && RefreshOk(s, r);
      if !s.refreshes[r].phase.Settled? {
        Extend(s, es, Fails(r, BadGateway), SetPhase(s, r, Settled(BadGateway)));
        es := [Fails(r, BadGateway)];
      }
      Extend(s, es, Cleans(r), Next(Exec(s, es), Cleans(r)));
      es := es + [Cleans(r)];
    }
    RunKeeps(s, es);
  }

  // How long to wait until what the call has read is a minute old.
  function Wait(snapshot: Option<Snapshot>, now: nat): nat {
    if Young(snapshot, now) then snapshot.value.checkedAt + MINUTE - now else 0
  }

  lemma OutdatedRefreshes(s: Service, c: nat, sim: nat) returns (es: seq<Event>)
    requires Valid(s) && Recent(s, sim, s.now) && Outdated(s, c, sim)
    ensures RefreshesAgain(s, es, c, sim)
  {
    var ms := Wait(s.calls[c].stage.row.snapshot, s.now);
    es := FreedOf(s, sim);
    var last := Exec(s, es).(now := s.now + ms);
    Extend(s, es, Ticks(ms), last);
    es := es + [Ticks(ms)];
    StartsExactlyWhen(last, c, sim);
  }

  /** While a stored balance is younger than a minute, a call may start another refresh of its SIM before the
      minute is over exactly when it has read the SIM already, and what it has read is older. */
  lemma RefreshesAgainExactlyWhen(s: Service, c: nat, sim: nat)
    requires Valid(s) && Recent(s, sim, s.now)
    ensures (exists es :: RefreshesAgain(s, es, c, sim)) <==> Outdated(s, c, sim)
  {
    if Outdated(s, c, sim) {
      var es := OutdatedRefreshes(s, c, sim);
      assert RefreshesAgain(s, es, c, sim);
    } else {
      forall es ensures !RefreshesAgain(s, es, c, sim) {
        if RefreshesAgain(s, es, c, sim) {
          OnlyOutdated(s, es, c, sim);
        }
      }
    }
  }

  /** So a call whose read is not older, and any call that reads the SIM afterwards, starts no refresh while
      the stored balance is younger than a minute: it is answered with a balance at least as new. */
  lemma OneRefreshAMinute(s: Service, es: seq<Event>, more: seq<Event>, c: nat, sim: nat)
    requires Initial(s) && Allowed(s, es) && Allowed(Exec(s, es), more)
    requires sim in Exec(s, es).snapshots
    requires !Outdated(Exec(s, es), c, sim)
    requires var last := Exec(Exec(s, es), more);
             && Enabled(last, Decides(c)) && last.calls[c].sim == sim
             && last.now - Exec(s, es).snapshots[sim].checkedAt < 60000
    ensures var last, at := Exec(Exec(s, es), more), Exec(s, es).snapshots[sim].checkedAt;
            var after := Decide(last, c);
            && !StartsRefresh(last, c)
            && (last.calls[c].stage.row.Found? && last.calls[c].stage.row.kind == Issued ==>
                  && c in after.calls && after.calls[c].stage.Replied? && after.calls[c].stage.reply.Balance?
                  && at <= after.calls[c].stage.reply.snapshot.checkedAt)
  {
    RunKeeps(s, es);
    KnowsForARun(Exec(s, es), more, c, sim, Exec(s, es).snapshots[sim].checkedAt);
  }

  // Two calls have read the SIM before any balance is stored.
  lemma TwoReads(sim: nat, owner: nat) returns (s: Service, es: seq<Event>)
    ensures Initial(s) && Allowed(s, es)
    ensures Exec(s, es) ==
            Service(map[sim := owner], 0, map[], map[], map[],
                    map[0 := Call(sim, None, Deciding(Found(Issued, None))),
                        1 := Call(sim, None, Deciding(Found(Issued, None)))], 0, 2)
  {
    s := Service(map[sim := owner], 0, map[], map[], map[], map[], 0, 0);
    var row := Found(Issued, None);
    var reading, deciding := Call(sim, None, Reading), Call(sim, None, Deciding(row));
    Extend(s, [], Arrives(sim, None), s.(calls := map[0 := reading], nextCall := 1));
    es := [Arrives(sim, None)];
    Extend(s, es, Reads(0, row), s.(calls := map[0 := deciding], nextCall := 1));
    es := es + [Reads(0, row)];
    Extend(s, es, Arrives(sim, None), s.(calls := map[0 := deciding, 1 := reading], nextCall := 2));
    es := es + [Arrives(sim, None)];
    Extend(s, es, Reads(1, row), s.(calls := map[0 := deciding, 1 := deciding], nextCall := 2));
    es := es + [Reads(1, row)];
  }

  /** The read has to come after: a call that has read the SIM before the balance was stored may start a
      second refresh within the minute, once the first is out of the map. */
  lemma OldReadRefreshesAgain(sim: nat, owner: nat) returns (s: Service, es: seq<Event>)
    ensures Initial(s) && Allowed(s, es)
    ensures var last := Exec(s, es);
            && Enabled(last, Decides(1)) && last.calls[1].sim == sim && StartsRefresh(last, 1)
            && Recent(last, sim, last.now)
  {
    s, es := TwoReads(sim, owner);
    var s0, balance := Exec(s, es), Snapshot(0, 0);
    var s1 := s0.(calls := s0.calls[0 := Call(sim, None, Waiting(0))], nextRefresh := 1,
                  inFlight := map[sim := 0], refreshes := map[0 := Refresh(sim, Running)]);
    var s2 := s1.(refreshes := map[0 := Refresh(sim, Answered(balance))]);
    var s3 := s2.(snapshots := map[sim := balance], refreshes := map[0 := Refresh(sim, Settled(Balance(balance)))]);
    var s4 := s3.(inFlight := map[], refreshes := map[0 := Refresh(sim, Cleaned(Balance(balance)))]);
    Extend(s, es, Decides(0), s1);
    es := es + [Decides(0)];
    Extend(s, es, Answers(0, 0), s2);
    es := es + [Answers(0, 0)];
    Extend(s, es, Stores(0), s3);
    es := es + [Stores(0)];
    Extend(s, es, Cleans(0), s4);
    es := es + [Cleans(0)];
  }

  // ---------- where a reply comes from ----------

  // What a call replies that has read this row and asks nobody.
  predicate RepliesTo(row: Row, reply: Reply) {
    row.Found?
    && match row.kind
       case NoProvider => reply == Unsupported
       case NotIssued => reply == NotReady
       case Issued => row.snapshot.Some? && reply == Balance(row.snapshot.value)
  }

  predicate ReadsFor(e: Event, c: nat, reply: Reply) {
    e.Reads? && e.call == c && RepliesTo(e.row, reply)
  }

  // The call has replied so without a refresh, or has read a row it may reply so to.
  predicate MayReply(s: Service, c: nat, reply: Reply) {
    c in s.calls
    && (s.calls[c].stage == Replied(reply, None)
        || (s.calls[c].stage.Deciding? && RepliesTo(s.calls[c].stage.row, reply)))
  }

  lemma RepliesBy(s: Service, e: Event, c: nat, reply: Reply)
    requires Enabled(s, e) && MayReply(Next(s, e), c, reply)
    ensures MayReply(s, c, reply) || ReadsFor(e, c, reply)
  {
  }

  lemma {:induction false} RepliesInRun(s: Service, es: seq<Event>, c: nat, reply: Reply)
    requires Allowed(s, es) && MayReply(Exec(s, es), c, reply)
    ensures MayReply(s, c, reply) || exists e | e in es :: ReadsFor(e, c, reply)
    decreases |es|
  {
    if es != [] {
      RepliesInRun(Next(s, es[0]), es[1..], c, reply);
      if MayReply(Next(s, es[0]), c, reply) {
        RepliesBy(s, es[0], c, reply);
      }
    }
  }

  /** A reply that comes from no refresh says what the call has read: Unsupported for a SIM without a provider to ask,
      NotReady for one that is not issued, and else the stored balance it found. */
  lemma DirectReplies(s: Service, es: seq<Event>, c: nat, reply: Reply)
    requires Initial(s) && Allowed(s, es) && c in Exec(s, es).calls
    requires Exec(s, es).calls[c].stage == Replied(reply, None)
    ensures exists e | e in es ::
              && e.Reads? && e.call == c && e.row.Found?
              && (e.row.kind == NoProvider ==> reply == Unsupported)
              && (e.row.kind == NotIssued ==> reply == NotReady)
              && (e.row.kind == Issued ==> e.row.snapshot.Some? && reply == Balance(e.row.snapshot.value))
  {
    RepliesInRun(s, es, c, reply);
    var e :| e in es && ReadsFor(e, c, reply);
  }

  predicate Settles(s: Service, r: nat, reply: Reply) {
    r in s.refreshes && (s.refreshes[r].phase == Settled(reply) || s.refreshes[r].phase == Cleaned(reply))
  }

  lemma SettlesBy(s: Service, e: Event, r: nat, reply: Reply)
    requires Enabled(s, e) && !reply.Balance? && Settles(Next(s, e), r, reply)
    ensures Settles(s, r, reply) || e == Fails(r, reply)
  {
    if e.Decides? {
      var stage := AsksOrAnswers(s, e.call);
    }
  }

  lemma {:induction false} SettlesInRun(s: Service, es: seq<Event>, r: nat, reply: Reply)
    requires Allowed(s, es) && !reply.Balance? && Settles(Exec(s, es), r, reply)
    ensures Settles(s, r, reply) || Fails(r, reply) in es
    decreases |es|
  {
    if es != [] {
      SettlesInRun(Next(s, es[0]), es[1..], r, reply);
      if Settles(Next(s, es[0]), r, reply) {
        SettlesBy(s, es[0], r, reply);
      }
    }
  }

  /** A reply from a refresh that is no balance is what that very refresh failed with. */
  lemma FailureHasOrigin(s: Service, es: seq<Event>, c: nat, reply: Reply, r: nat)
    requires Initial(s) && Allowed(s, es) && c in Exec(s, es).calls && !reply.Balance?
    requires Exec(s, es).calls[c].stage == Replied(reply, Some(r))
    ensures Fails(r, reply) in es
  {
    RunKeeps(s, es);
    assert CallOk(Exec(s, es), c);
    SettlesInRun(s, es, r, reply);
  }

  // A provider's answer for the SIM, normalised at this instant.
  predicate MeasuredNow(s: Service, e: Event, sim: nat, snapshot: Snapshot) {
    && e.Answers? && e.refresh in s.refreshes && s.refreshes[e.refresh].sim == sim
    && e.data == snapshot.data && s.now == snapshot.checkedAt
  }

  predicate Measured(s: Service, es: seq<Event>, sim: nat, snapshot: Snapshot)
    requires Allowed(s, es)
    decreases |es|
  {
    es != [] && (MeasuredNow(s, es[0], sim, snapshot) || Measured(Next(s, es[0]), es[1..], sim, snapshot))
  }

  predicate RefreshShows(s: Service, r: nat, sim: nat, snapshot: Snapshot) {
    && r in s.refreshes && s.refreshes[r].sim == sim
    && match s.refreshes[r].phase
       case Running => false
       case Answered(made) => made == snapshot
       case Settled(reply) => reply == Balance(snapshot)
       case Cleaned(reply) => reply == Balance(snapshot)
  }

  predicate CallShows(s: Service, c: nat, sim: nat, snapshot: Snapshot) {
    && c in s.calls && s.calls[c].sim == sim
    && match s.calls[c].stage
       case Deciding(row) => row.Found? && row.snapshot == Some(snapshot)
       case Replied(reply, _) => reply == Balance(snapshot)
       case _ => false
  }

  // The balance of the SIM is stored, or some refresh or call has it.
  ghost predicate Known(s: Service, sim: nat, snapshot: Snapshot) {
    || SnapshotOf(s, sim) == Some(snapshot)
    || (exists r :: RefreshShows(s, r, sim, snapshot)) || exists c :: CallShows(s, c, sim, snapshot)
  }

  lemma StoredKnown(s: Service, e: Event, sim: nat, snapshot: Snapshot)
    requires Enabled(s, e) && SnapshotOf(Next(s, e), sim) == Some(snapshot)
    ensures SnapshotOf(s, sim) == Some(snapshot) || (e.Stores? && RefreshShows(s, e.refresh, sim, snapshot))
  {
  }

  lemma RefreshKnown(s: Service, e: Event, r: nat, sim: nat, snapshot: Snapshot)
    requires Enabled(s, e) && RefreshShows(Next(s, e), r, sim, snapshot)
    ensures RefreshShows(s, r, sim, snapshot) || MeasuredNow(s, e, sim, snapshot)
  {
    if e.Decides? {
      var stage := AsksOrAnswers(s, e.call);
    }
  }

  lemma DecidedKnown(s: Service, c: nat, sim: nat, snapshot: Snapshot)
    requires Enabled(s, Decides(c)) && CallShows(Decide(s, c), c, sim, snapshot)
    ensures CallShows(s, c, sim, snapshot)
  {
  }

  lemma CallKnown(s: Service, e: Event, c: nat, sim: nat, snapshot: Snapshot)
    requires Valid(s) && Enabled(s, e) && CallShows(Next(s, e), c, sim, snapshot)
    ensures Known(s, sim, snapshot)
  {
    if c in s.calls {
      assert CallOk(s, c);
      if e.Decides? && e.call == c {
        DecidedKnown(s, c, sim, snapshot);
      } else if e.Delivers? && e.call == c {
        assert RefreshShows(s, s.calls[c].stage.refresh, sim, snapshot);
      } else if !(e.Reads? && e.call == c) {
        OtherCallsStay(s, e, c);
        assert CallShows(s, c, sim, snapshot);
      }
    } else if e.Decides? {
      var stage := AsksOrAnswers(s, e.call);
    }
  }

  lemma KnownBy(s: Service, e: Event, sim: nat, snapshot: Snapshot)
    requires Valid(s) && Enabled(s, e) && Known(Next(s, e), sim, snapshot)
    ensures Known(s, sim, snapshot) || MeasuredNow(s, e, sim, snapshot)
  {
    if SnapshotOf(Next(s, e), sim) == Some(snapshot) {
      StoredKnown(s, e, sim, snapshot);
    } else if r :| RefreshShows(Next(s, e), r, sim, snapshot) {
      RefreshKnown(s, e, r, sim, snapshot);
    } else {
      var c :| CallShows(Next(s, e), c, sim, snapshot);
      CallKnown(s, e, c, sim, snapshot);
    }
  }

  lemma {:induction false} KnownInRun(s: Service, es: seq<Event>, sim: nat, snapshot: Snapshot)
    requires Valid(s) && Allowed(s, es) && Known(Exec(s, es), sim, snapshot)
    ensures Known(s, sim, snapshot) || Measured(s, es, sim, snapshot)
    decreases |es|
  {
    if es != [] {
      NextKeeps(s, es[0]);
      KnownInRun(Next(s, es[0]), es[1..], sim, snapshot);
      if Known(Next(s, es[0]), sim, snapshot) {
        KnownBy(s, es[0], sim, snapshot);
      }
    }
  }

  /** A balance a call is answered with was stored for its SIM before the run, or is what the provider answered for
      that SIM in the run, checked at that very instant. */
  lemma BalanceHasOrigin(s: Service, es: seq<Event>, c: nat, snapshot: Snapshot)
    requires Initial(s) && Allowed(s, es) && c in Exec(s, es).calls
    requires Exec(s, es).calls[c].stage.Replied? && Exec(s, es).calls[c].stage.reply == Balance(snapshot)
    ensures var sim := Exec(s, es).calls[c].sim;
            (sim in s.snapshots && s.snapshots[sim] == snapshot) || Measured(s, es, sim, snapshot)
  {
    var sim := Exec(s, es).calls[c].sim;
    assert CallShows(Exec(s, es), c, sim, snapshot);
    KnownInRun(s, es, sim, snapshot);
  }

  // ---------- the service as it is written ----------

  class UsageService {
    const owners: map<nat, nat>
    var now: nat
    var snapshots: map<nat, Snapshot>
    var inFlight: map<nat, nat>
    var refreshes: map<nat, Refresh>
    var calls: map<nat, Call>
    var nextRefresh: nat
    var nextCall: nat

    ghost function View(): Service
      reads this
    {
      Service(owners, now, snapshots, inFlight, refreshes, calls, nextRefresh, nextCall)
    }

    constructor (owners: map<nat, nat>)
      ensures Initial(View()) && this.owners == owners
    {
      this.owners := owners;
      now, snapshots := 0, map[];
      inFlight, refreshes, calls, nextRefresh, nextCall := map[], map[], map[], 0, 0;
    }

    method Become(c: nat, stage: Stage)
      requires c in calls
      modifies `calls
      ensures View() == SetStage(old(View()), c, stage)
    {
      calls := calls[c := calls[c].(stage := stage)];
    }

    method Turn(r: nat, phase: Phase)
      requires r in refreshes
      modifies `refreshes
      ensures View() == SetPhase(old(View()), r, phase)
    {
      refreshes := refreshes[r := refreshes[r].(phase := phase)];
    }

    // The map is asked, and set, in one stretch.
    method JoinOrStart(c: nat)
      requires c in calls
      modifies `inFlight, `refreshes, `nextRefresh, `calls
      ensures View() == Ask(old(View()), c)
    {
      var sim := calls[c].sim;
      if sim in inFlight {
        Become(c, Waiting(inFlight[sim]));
      } else {
        var r := nextRefresh;
        refreshes := refreshes[r := Refresh(sim, Running)];
        nextRefresh := r + 1;
        inFlight := inFlight[sim := r];
        Become(c, Waiting(r));
      }
    }

    method Load(c: nat)
      requires c in calls && calls[c].stage.Deciding?
      modifies `inFlight, `refreshes, `nextRefresh, `calls
      ensures View() == Decide(old(View()), c)
    {
      match calls[c].stage.row
      case Missing => Become(c, NotFound);
      case Found(NoProvider, _) => Become(c, Replied(Unsupported, None));
      case Found(NotIssued, _) => Become(c, Replied(NotReady, None));
      case Found(Issued, snapshot) =>
        if snapshot.Some? && now - snapshot.value.checkedAt < MINUTE {
          Become(c, Replied(Balance(snapshot.value), None));
        } else {
          JoinOrStart(c);
        }
    }

    // The update of the SIM row at the end of a refresh.
    method Store(r: nat)
      requires r in refreshes && refreshes[r].phase.Answered?
      modifies `snapshots, `refreshes
      ensures View() == Next(old(View()), Stores(r))
    {
      var snapshot := refreshes[r].phase.snapshot;
      snapshots := snapshots[refreshes[r].sim := snapshot];
      Turn(r, Settled(Balance(snapshot)));
    }

    // The `finally` of the request.
    method Clean(r: nat)
      requires r in refreshes && refreshes[r].phase.Settled?
      modifies `refreshes, `inFlight
      ensures View() == Next(old(View()), Cleans(r))
    {
      inFlight := inFlight - {refreshes[r].sim};
      Turn(r, Cleaned(refreshes[r].phase.reply));
    }

    /** A service that serves an allowed run event by event ends where the run ends, with at most one
        refresh of each SIM under way. */
    method Serve(es: seq<Event>)
      requires Valid(View()) && Allowed(View(), es)
      modifies this
      ensures Allowed(old(View()), es) && View() == Exec(old(View()), es) && Valid(View())
      ensures forall r, q | r in refreshes && q in refreshes && refreshes[r].sim == refreshes[q].sim ::
                refreshes[r].phase.Cleaned? || refreshes[q].phase.Cleaned? || r == q
    {
      ghost var start := View();
      for i := 0 to |es|
        invariant Valid(View()) && Allowed(View(), es[i..])
        invariant Exec(View(), es[i..]) == Exec(start, es)
      {
        assert es[i..][0] == es[i] && es[i..][1..] == es[i + 1..];
        NextKeeps(View(), es[i]);
        Receive(es[i]);
      }
      assert es[|es|..] == [];
      assert forall r | r in refreshes :: RefreshOk(View(), r);
    }

    method Receive(e: Event)
      requires Enabled(View(), e)
      modifies this
      ensures View() == Next(old(View()), e)
    {
      match e
      case Arrives(sim, user) =>
        calls := calls[nextCall := Call(sim, user, Reading)];
        nextCall := nextCall + 1;
      case Reads(c, row) => Become(c, Deciding(row));
      case Decides(c) => Load(c);
      case Answers(r, data) => Turn(r, Answered(Snapshot(now, data)));
      case Stores(r) => Store(r);
      case Fails(r, reply) => Turn(r, Settled(reply));
      case Cleans(r) => Clean(r);
      case Delivers(c) =>
        var r := calls[c].stage.refresh;
        Become(c, Replied(refreshes[r].phase.reply, Some(r)));
      case Ticks(ms) => now := now + ms;
    }
  }
}
